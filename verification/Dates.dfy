/**
 The four date layouts of `normalizeDate`, as a parser and a printer over calendar dates.
 `time.Parse` demands exactly four digits for "2006" and two for "01" and "02", so every
 accepted text has ten characters.
 */
module Dates {
  import opened Wrappers
  import opened Text

  datatype Date = Date(year: nat, month: nat, day: nat)

  /** Field order and separator: year-month-day or day-month-year. */
  datatype Layout = Layout(yearFirst: bool, separator: char)

  const ISO := Layout(true, '-')
  const DATE_LAYOUTS := [ISO, Layout(false, '/'), Layout(false, '-'), Layout(false, '.')]

  predicate IsLeap(year: nat) {
    year % 4 == 0 && (year % 100 != 0 || year % 400 == 0)
  }

  function DaysIn(month: nat, year: nat): nat {
    if month == 2 then (if IsLeap(year) then 29 else 28)
    else if month in {4, 6, 9, 11} then 30
    else 31
  }

  predicate ValidDate(d: Date) {
    d.year <= 9999 && 1 <= d.month <= 12 && 1 <= d.day <= DaysIn(d.month, d.year)
  }

  predicate IsDigit(c: char) {
    '0' <= c <= '9'
  }

  function DigitValue(c: char): int {
    c as int - '0' as int
  }

  function DigitChar(n: nat): (c: char)
    requires n < 10
    ensures IsDigit(c) && DigitValue(c) == n
  {
    (n + '0' as int) as char
  }

  function Number2(s: string): (r: Option<nat>)
    requires |s| == 2
  {
    if IsDigit(s[0]) && IsDigit(s[1])
    then Some(10 * DigitValue(s[0]) + DigitValue(s[1]))
    else None
  }

  function Number4(s: string): (r: Option<nat>)
    requires |s| == 4
  {
    match (Number2(s[..2]), Number2(s[2..]))
    case (Some(hi), Some(lo)) => Some(100 * hi + lo)
    case _ => None
  }

  function Print2(n: nat): (r: string)
    requires n < 100
    ensures |r| == 2
  {
    [DigitChar(n / 10), DigitChar(n % 10)]
  }

  function Print4(n: nat): (r: string)
    requires n < 10000
    ensures |r| == 4
  {
    Print2(n / 100) + Print2(n % 100)
  }

  function Checked(year: Option<nat>, month: Option<nat>, day: Option<nat>): Option<Date> {
    match (year, month, day)
    case (Some(y), Some(m), Some(d)) =>
      if ValidDate(Date(y, m, d)) then Some(Date(y, m, d)) else None
    case _ => None
  }

  /** `time.Parse(layout, s)`, with the error as None. */
  function Parse(l: Layout, s: string): Option<Date> {
    if |s| != 10 then None
    else if l.yearFirst then
      if s[4] == s[7] == l.separator
      then Checked(Number4(s[..4]), Number2(s[5..7]), Number2(s[8..]))
      else None
    else
      if s[2] == s[5] == l.separator
      then Checked(Number4(s[6..]), Number2(s[3..5]), Number2(s[..2]))
      else None
  }

  /** `t.Format(layout)`. */
  function Print(l: Layout, d: Date): (r: string)
    requires ValidDate(d)
    ensures |r| == 10
  {
    if l.yearFirst
    then Print4(d.year) + [l.separator] + Print2(d.month) + [l.separator] + Print2(d.day)
    else Print2(d.day) + [l.separator] + Print2(d.month) + [l.separator] + Print4(d.year)
  }

  /** The result of trying the layouts in order. */
  function FirstParse(layouts: seq<Layout>, s: string): Option<Date> {
    if layouts == [] then None
    else if Parse(layouts[0], s).Some? then Parse(layouts[0], s)
    else FirstParse(layouts[1..], s)
  }

  function NormalizedDate(s: string): string {
    match FirstParse(DATE_LAYOUTS, TrimSpace(s))
    case Some(d) => if ValidDate(d) then Print(ISO, d) else ""
    case None => ""
  }

  method NormalizeDate(s: string) returns (r: string)
    ensures r == NormalizedDate(s)
  {
    var t := TrimSpace(s);
    if t == "" {
      assert forall l :: Parse(l, "") == None;
      NoParse(DATE_LAYOUTS, t);
      return "";
    }
    for i := 0 to |DATE_LAYOUTS|
      invariant FirstParse(DATE_LAYOUTS, t) == FirstParse(DATE_LAYOUTS[i..], t)
    {
      var parsed := Parse(DATE_LAYOUTS[i], t);
      assert DATE_LAYOUTS[i..][1..] == DATE_LAYOUTS[i + 1..];
      if parsed.Some? {
        ParseIsPrintInverse(DATE_LAYOUTS[i], t);
        return Print(ISO, parsed.value);
      }
    }
    return "";
  }

  lemma NoParse(layouts: seq<Layout>, s: string)
    requires forall l :: l in layouts ==> Parse(l, s).None?
    ensures FirstParse(layouts, s).None?
  {}

  lemma Print2Number2(n: nat)
    requires n < 100
    ensures Number2(Print2(n)) == Some(n)
  {}

  lemma Print4Number4(n: nat)
    requires n < 10000
    ensures Number4(Print4(n)) == Some(n)
  {
    assert Print4(n)[..2] == Print2(n / 100) && Print4(n)[2..] == Print2(n % 100);
    Print2Number2(n / 100);
    Print2Number2(n % 100);
  }

  lemma Number2Print2(s: string)
    requires |s| == 2 && Number2(s).Some?
    ensures Number2(s).value < 100 && Print2(Number2(s).value) == s
  {}

  lemma Number4Print4(s: string)
    requires |s| == 4 && Number4(s).Some?
    ensures Number4(s).value < 10000 && Print4(Number4(s).value) == s
  {
    Number2Print2(s[..2]);
    Number2Print2(s[2..]);
    assert s == s[..2] + s[2..];
  }

  /** Printing a date and parsing it in the same layout gives the date back. */
  lemma ParsePrint(l: Layout, d: Date)
    requires ValidDate(d)
    ensures Parse(l, Print(l, d)) == Some(d)
  {
    var s := Print(l, d);
    Print4Number4(d.year);
    Print2Number2(d.month);
    Print2Number2(d.day);
    if l.yearFirst {
      assert s[..4] == Print4(d.year) && s[5..7] == Print2(d.month) && s[8..] == Print2(d.day);
    } else {
      assert s[6..] == Print4(d.year) && s[3..5] == Print2(d.month) && s[..2] == Print2(d.day);
    }
  }

  /** A parsed text is the print of the date it parses to. */
  lemma ParseIsPrintInverse(l: Layout, s: string)
    requires Parse(l, s).Some?
    ensures ValidDate(Parse(l, s).value) && Print(l, Parse(l, s).value) == s
  {
    if l.yearFirst {
      Number4Print4(s[..4]);
      Number2Print2(s[5..7]);
      Number2Print2(s[8..]);
      assert s == s[..4] + [s[4]] + s[5..7] + [s[7]] + s[8..];
    } else {
      Number4Print4(s[6..]);
      Number2Print2(s[3..5]);
      Number2Print2(s[..2]);
      assert s == s[..2] + [s[2]] + s[3..5] + [s[5]] + s[6..];
    }
  }

  /** Where an accepted text has its separators, and a digit the other field order excludes. */
  lemma ParsePositions(l: Layout, s: string)
    requires Parse(l, s).Some?
    ensures |s| == 10
    ensures l.yearFirst ==> IsDigit(s[2]) && s[4] == l.separator
    ensures !l.yearFirst ==> s[2] == l.separator
  {
    if l.yearFirst {
      assert s[2] == s[..4][2..][0];
    }
  }

  /** No text is accepted by two different layouts, so the order of trial does not matter. */
  lemma LayoutsAreDisjoint(l1: Layout, l2: Layout, s: string)
    requires l1 in DATE_LAYOUTS && l2 in DATE_LAYOUTS
    requires Parse(l1, s).Some? && Parse(l2, s).Some?
    ensures l1 == l2
  {
    ParsePositions(l1, s);
    ParsePositions(l2, s);
  }

  /**
   Every valid date in any of the layouts, surrounded by any white space, becomes its ISO text; no
   other layout accepts it, so the order of trial does not matter.
   */
  lemma EveryLayoutNormalizes(l: Layout, d: Date, s: string)
    requires l in DATE_LAYOUTS && ValidDate(d) && TrimSpace(s) == Print(l, d)
    ensures NormalizedDate(s) == Print(ISO, d)
    ensures forall k :: k in DATE_LAYOUTS && Parse(k, TrimSpace(s)).Some? ==> k == l
  {
    ParsePrint(l, d);
    FirstParseFinds(DATE_LAYOUTS, l, TrimSpace(s));
    forall k | k in DATE_LAYOUTS && Parse(k, TrimSpace(s)).Some?
      ensures k == l
    {
      LayoutsAreDisjoint(k, l, TrimSpace(s));
    }
  }

  lemma {:induction false} FirstParseFinds(layouts: seq<Layout>, l: Layout, s: string)
    requires forall k :: k in layouts ==> k in DATE_LAYOUTS
    requires l in layouts && Parse(l, s).Some?
    ensures FirstParse(layouts, s) == Parse(l, s)
  {
    if Parse(layouts[0], s).Some? {
      LayoutsAreDisjoint(layouts[0], l, s);
    } else {
      FirstParseFinds(layouts[1..], l, s);
    }
  }

  lemma {:induction false} FirstParseSound(layouts: seq<Layout>, s: string) returns (l: Layout)
    requires FirstParse(layouts, s).Some?
    ensures l in layouts && Parse(l, s) == FirstParse(layouts, s)
  {
    if Parse(layouts[0], s).Some? {
      l := layouts[0];
    } else {
      l := FirstParseSound(layouts[1..], s);
    }
  }

  /** A non-empty result is the ISO text of the one date that the input spells in some layout. */
  lemma NormalizedDateSpells(s: string) returns (l: Layout, d: Date)
    requires NormalizedDate(s) != ""
    ensures l in DATE_LAYOUTS && ValidDate(d)
    ensures TrimSpace(s) == Print(l, d) && NormalizedDate(s) == Print(ISO, d)
  {
    l := FirstParseSound(DATE_LAYOUTS, TrimSpace(s));
    d := Parse(l, TrimSpace(s)).value;
    ParseIsPrintInverse(l, TrimSpace(s));
  }

  /** The text of an ISO date column: empty, or a valid ISO date. */
  predicate IsISO(s: string) {
    s == "" || Parse(ISO, s).Some?
  }

  lemma PrintTrimmed(l: Layout, d: Date)
    requires ValidDate(d)
    ensures Trimmed(Print(l, d))
  {}

  /** Outputs are empty or valid ISO dates, and those are exactly the fixed points. */
  lemma NormalizedDateFixedPoints(s: string)
    ensures IsISO(NormalizedDate(s))
    ensures IsISO(s) <==> NormalizedDate(s) == s
    ensures NormalizedDate(NormalizedDate(s)) == NormalizedDate(s)
  {
    if NormalizedDate(s) != "" {
      var _, d := NormalizedDateSpells(s);
      ISOIsFixed(d);
    }
    assert NormalizedDate("") == "" by {
      NoParse(DATE_LAYOUTS, "");
    }
    if IsISO(s) && s != "" {
      ParseIsPrintInverse(ISO, s);
      ISOIsFixed(Parse(ISO, s).value);
    }
  }

  lemma ISOIsFixed(d: Date)
    requires ValidDate(d)
    ensures IsISO(Print(ISO, d)) && NormalizedDate(Print(ISO, d)) == Print(ISO, d)
  {
    ParsePrint(ISO, d);
    PrintTrimmed(ISO, d);
    TrimSpaceTrims(Print(ISO, d));
    EveryLayoutNormalizes(ISO, d, Print(ISO, d));
  }

  // ---------- what a date text says ----------

  /** The number that a numeral denotes. */
  function Value(s: string): int {
    if s == "" then 0 else 10 * Value(s[..|s| - 1]) + DigitValue(s[|s| - 1])
  }

  /** s is a numeral for n. */
  predicate Says(s: string, n: nat) {
    (forall i :: 0 <= i < |s| ==> '0' <= s[i] <= '9') && Value(s) == n
  }

  /** Day, month and year, where the text has them. */
  predicate SaysDate(s: string, year: nat, month: nat, day: nat, d: Date) {
    && |s| == 10 && year + 4 <= 10 && month + 2 <= 10 && day + 2 <= 10
    && Says(s[year..year + 4], d.year) && Says(s[month..month + 2], d.month) && Says(s[day..day + 2], d.day)
  }

  predicate SpellsISO(s: string, d: Date) {
    ValidDate(d) && SaysDate(s, 0, 5, 8, d) && s[4] == '-' && s[7] == '-'
  }

  /** The four ways to write a date: 1998-03-12, 12/03/1998, 12-03-1998 and 12.03.1998. */
  predicate Spells(s: string, d: Date) {
    || SpellsISO(s, d)
    || (ValidDate(d) && SaysDate(s, 6, 3, 0, d)
        && ((s[2] == '/' && s[5] == '/') || (s[2] == '-' && s[5] == '-') || (s[2] == '.' && s[5] == '.')))
  }

  lemma TwoDigits(s: string, n: nat)
    requires |s| == 2
    ensures Value(s) == 10 * DigitValue(s[0]) + DigitValue(s[1])
    ensures Says(s, n) <==> Number2(s) == Some(n)
  {
    assert s[..1][..0] == "";
    assert Value(s[..1]) == 10 * Value("") + DigitValue(s[0]);
  }

  lemma FourDigits(s: string, n: nat)
    requires |s| == 4
    ensures Says(s, n) <==> Number4(s) == Some(n)
  {
    assert s[..3][..2] == s[..2];
    TwoDigits(s[..2], 0);
    TwoDigits(s[2..], 0);
    assert Value(s) == 10 * (10 * Value(s[..2]) + DigitValue(s[2])) + DigitValue(s[3]);
    assert Number4(s).Some? <==> forall i :: 0 <= i < 4 ==> IsDigit(s[i]);
  }

  /** s spells d in this layout. */
  predicate Reads(l: Layout, s: string, d: Date) {
    && ValidDate(d)
    && if l.yearFirst then SaysDate(s, 0, 5, 8, d) && s[4] == l.separator && s[7] == l.separator
       else SaysDate(s, 6, 3, 0, d) && s[2] == l.separator && s[5] == l.separator
  }

  /** A layout reads exactly the dates that the text spells in it. */
  lemma ParseIff(l: Layout, s: string, d: Date)
    requires |s| == 10
    ensures Parse(l, s) == Some(d) <==> Reads(l, s, d)
  {
    if l.yearFirst {
      FourDigits(s[0..4], d.year);
      TwoDigits(s[5..7], d.month);
      TwoDigits(s[8..10], d.day);
    } else {
      FourDigits(s[6..10], d.year);
      TwoDigits(s[3..5], d.month);
      TwoDigits(s[0..2], d.day);
    }
  }

  lemma SpellsIff(s: string, d: Date)
    ensures Spells(s, d) <==> exists l :: l in DATE_LAYOUTS && Parse(l, s) == Some(d)
  {
    if |s| == 10 {
      forall l
        ensures Parse(l, s) == Some(d) <==> Reads(l, s, d)
      {
        ParseIff(l, s, d);
      }
      assert ISO in DATE_LAYOUTS && Layout(false, '/') in DATE_LAYOUTS && Layout(false, '-') in DATE_LAYOUTS && Layout(false, '.') in DATE_LAYOUTS;
    }
  }

  /** What `normalizeDate` returns: the same date, written in ISO form, or nothing. */
  ghost predicate Restates(s: string, r: string) {
    if exists d :: Spells(TrimSpace(s), d) then exists d :: Spells(TrimSpace(s), d) && SpellsISO(r, d) else r == ""
  }

  /** No text spells two dates, and no date has two ISO texts. */
  lemma SpellsOnce(s: string, d: Date, e: Date)
    requires Spells(s, d) && Spells(s, e)
    ensures d == e
  {
    SpellsIff(s, d);
    SpellsIff(s, e);
    var k :| k in DATE_LAYOUTS && Parse(k, s) == Some(d);
    var l :| l in DATE_LAYOUTS && Parse(l, s) == Some(e);
    LayoutsAreDisjoint(k, l, s);
  }

  lemma ISOIff(s: string, d: Date)
    requires ValidDate(d)
    ensures SpellsISO(s, d) <==> s == Print(ISO, d)
  {
    ParsePrint(ISO, d);
    if |s| == 10 {
      ParseIff(ISO, s, d);
      if Parse(ISO, s) == Some(d) {
        ParseIsPrintInverse(ISO, s);
      }
    }
  }

  /** The normalized date restates the given one, and nothing else does. */
  lemma NormalizedDateIff(s: string, r: string)
    ensures r == NormalizedDate(s) <==> Restates(s, r)
  {
    var t := TrimSpace(s);
    if d :| Spells(t, d) {
      SpellsIff(t, d);
      var l :| l in DATE_LAYOUTS && Parse(l, t) == Some(d);
      ParseIsPrintInverse(l, t);
      EveryLayoutNormalizes(l, d, s);
      ISOIff(r, d);
      forall e | Spells(t, e)
        ensures e == d
      {
        SpellsOnce(t, d, e);
      }
    } else if NormalizedDate(s) != "" {
      var l, d := NormalizedDateSpells(s);
      ParsePrint(l, d);
      SpellsIff(t, d);
      assert false;
    }
  }

  lemma Known(l: Layout, s: string, d: Date, r: string)
    requires l in DATE_LAYOUTS && Trimmed(s) && Reads(l, s, d) && SpellsISO(r, d)
    ensures NormalizedDate(s) == r
  {
    TrimSpaceTrims(s);
    ParseIff(l, s, d);
    ParseIsPrintInverse(l, s);
    EveryLayoutNormalizes(l, d, s);
    ISOIff(r, d);
  }

  lemma Numerals()
    ensures Says("12", 12) && Says("03", 3) && Says("1998", 1998)
  {
    TwoDigits("12", 12);
    TwoDigits("03", 3);
    assert "1998"[..2] == "19" && "1998"[2..] == "98";
    FourDigits("1998", 1998);
  }

  lemma Written(s: string, year: nat, month: nat, day: nat, d: Date)
    requires |s| == 10 && year + 4 <= 10 && month + 2 <= 10 && day + 2 <= 10
    requires s[year..year + 4] == "1998" && d.year == 1998
    requires s[month..month + 2] == "03" && d.month == 3 && s[day..day + 2] == "12" && d.day == 12
    ensures SaysDate(s, year, month, day, d) && ValidDate(d)
  {
    Numerals();
  }

  lemma Fields(s: string)
    ensures s == "12/03/1998" ==> s[0..2] == "12" && s[3..5] == "03" && s[6..10] == "1998" && s[2] == '/' && s[5] == '/'
    ensures s == "1998-03-12" ==> s[8..10] == "12" && s[5..7] == "03" && s[0..4] == "1998" && s[4] == '-' && s[7] == '-'
  {}

  /** The dates that the repository's own tests name. */
  lemma KnownDates()
    ensures NormalizedDate("12/03/1998") == "1998-03-12"
    ensures NormalizedDate("1998-03-12") == "1998-03-12"
  {
    Fields("12/03/1998");
    Fields("1998-03-12");
    Written("12/03/1998", 6, 3, 0, Date(1998, 3, 12));
    Written("1998-03-12", 0, 5, 8, Date(1998, 3, 12));
    Known(Layout(false, '/'), "12/03/1998", Date(1998, 3, 12), "1998-03-12");
    Known(ISO, "1998-03-12", Date(1998, 3, 12), "1998-03-12");
  }

  // ---------- the calendar ----------

  /** Days before the first of the month, counted from the first of March. */
  function DaysBefore(month: nat): int {
    (153 * ((month + 9) % 12) + 2) / 5
  }

  /** Days before the first of March of the year, counted from the one of year 0. */
  function DaysBeforeYear(year: int): int {
    365 * year + year / 4 - year / 100 + year / 400
  }

  /** Days from the first of March of year 0, by the closed formula of the Gregorian calendar. */
  function DayNumber(d: Date): int {
    DaysBeforeYear(if d.month <= 2 then d.year - 1 else d.year) + DaysBefore(d.month) + d.day - 1
  }

  function FirstOfNextMonth(d: Date): Date {
    if d.month == 12 then Date(d.year + 1, 1, 1) else Date(d.year, d.month + 1, 1)
  }

  lemma YearLength(y: int)
    ensures DaysBeforeYear(y) - DaysBeforeYear(y - 1) == if y % 4 == 0 && (y % 100 != 0 || y % 400 == 0) then 366 else 365
  {
    assert y / 4 - (y - 1) / 4 == if y % 4 == 0 then 1 else 0;
    assert y / 100 - (y - 1) / 100 == if y % 100 == 0 then 1 else 0;
    assert y / 400 - (y - 1) / 400 == if y % 400 == 0 then 1 else 0;
  }

  lemma MonthTable(month: nat)
    requires 1 <= month <= 12
    ensures DaysBefore(month) == [306, 337, 0, 31, 61, 92, 122, 153, 184, 214, 245, 275][month - 1]
  {}

  lemma MonthSteps(month: nat)
    requires 1 <= month <= 12 && month != 2
    ensures DaysBefore(if month == 12 then 1 else month + 1) - DaysBefore(month) == DaysIn(month, 1)
  {
    MonthTable(month);
    MonthTable(if month == 12 then 1 else month + 1);
  }

  lemma MonthLength(d: Date)
    requires 1 <= d.month <= 12
    ensures DayNumber(FirstOfNextMonth(d)) == DayNumber(d) - d.day + 1 + DaysIn(d.month, d.year)
  {
    if d.month == 2 {
      YearLength(d.year);
    } else {
      MonthSteps(d.month);
    }
  }

  /** The dates that exist are those whose day comes before the next month begins. */
  lemma ValidDateIff(d: Date)
    ensures ValidDate(d) <==>
      && d.year <= 9999 && 1 <= d.month <= 12 && d.day >= 1
      && DayNumber(d) < DayNumber(FirstOfNextMonth(d))
  {
    if 1 <= d.month <= 12 {
      MonthLength(d);
    }
  }
}
