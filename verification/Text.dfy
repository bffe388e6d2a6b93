/**
 Go's `strings` helpers: trimming of Unicode white space and case mapping. The mapping is the Unicode
 one on ASCII and Latin-1 and on every character that it takes there; all other letters are left
 alone. That decides exactly which characters become ASCII letters.
 */
module Text {

  /** `unicode.IsSpace`: the characters with property White_Space. */
  predicate IsSpace(c: char) {
    || c == ' ' || '\t' <= c <= '\r' || c == '\U{85}' || c == '\U{A0}' || c == '\U{1680}'
    || '\U{2000}' <= c <= '\U{200A}' || c == '\U{2028}' || c == '\U{2029}'
    || c == '\U{202F}' || c == '\U{205F}' || c == '\U{3000}'
  }

  const WHITE_SPACE := "\t\n\U{B}\U{C}\r \U{85}\U{A0}\U{1680}\U{2000}\U{2001}\U{2002}\U{2003}\U{2004}\U{2005}\U{2006}\U{2007}"
    + "\U{2008}\U{2009}\U{200A}\U{2028}\U{2029}\U{202F}\U{205F}\U{3000}"

  /** The 25 characters with property White_Space, one by one. */
  lemma WhiteSpaceIs(c: char)
    ensures |WHITE_SPACE| == 25 && (IsSpace(c) <==> c in WHITE_SPACE)
  {
    if '\t' <= c <= '\r' {
      assert WHITE_SPACE[c as int - 9] == c;
    } else if '\U{2000}' <= c <= '\U{200A}' {
      assert WHITE_SPACE[c as int - 0x2000 + 9] == c;
    }
    assert WHITE_SPACE[5] == ' ' && WHITE_SPACE[6] == '\U{85}' && WHITE_SPACE[7] == '\U{A0}' && WHITE_SPACE[8] == '\U{1680}';
    assert WHITE_SPACE[20] == '\U{2028}' && WHITE_SPACE[21] == '\U{2029}' && WHITE_SPACE[22] == '\U{202F}'
        && WHITE_SPACE[23] == '\U{205F}' && WHITE_SPACE[24] == '\U{3000}';
  }

  function LowerChar(c: char): char {
    if 'A' <= c <= 'Z' || ('\U{C0}' <= c <= '\U{DE}' && c != '\U{D7}') then (c as int + 32) as char
    else if c == '\U{130}' then 'i'
    else if c == '\U{212A}' then 'k'
    else if c == '\U{212B}' then '\U{E5}'
    else if c == '\U{1E9E}' then '\U{DF}'
    else if c == '\U{178}' then '\U{FF}'
    else c
  }

  function UpperChar(c: char): char {
    if 'a' <= c <= 'z' || ('\U{E0}' <= c <= '\U{FE}' && c != '\U{F7}') then (c as int - 32) as char
    else if c == '\U{131}' then 'I'
    else if c == '\U{17F}' then 'S'
    else if c == '\U{B5}' then '\U{39C}'
    else if c == '\U{FF}' then '\U{178}'
    else c
  }

  function ToLower(s: string): (r: string) {
    if s == "" then "" else ToLower(s[..|s| - 1]) + [LowerChar(s[|s| - 1])]
  }

  function ToUpper(s: string): (r: string) {
    if s == "" then "" else ToUpper(s[..|s| - 1]) + [UpperChar(s[|s| - 1])]
  }

  /** No white space at either end. */
  predicate Trimmed(s: string) {
    s == "" || (!IsSpace(s[0]) && !IsSpace(s[|s| - 1]))
  }

  function TrimLeft(s: string): string {
    if s != "" && IsSpace(s[0]) then TrimLeft(s[1..]) else s
  }

  function TrimRight(s: string): string {
    if s != "" && IsSpace(s[|s| - 1]) then TrimRight(s[..|s| - 1]) else s
  }

  function TrimSpace(s: string): string {
    TrimRight(TrimLeft(s))
  }

  /** The comparison form of an enum value: `strings.ToLower(strings.TrimSpace(v))`. */
  function Fold(s: string): string {
    ToLower(TrimSpace(s))
  }

  function FoldUpper(s: string): string {
    ToUpper(TrimSpace(s))
  }

  lemma {:induction false} TrimLeftStart(s: string)
    ensures TrimLeft(s) == "" || !IsSpace(TrimLeft(s)[0])
  {
    if s != "" && IsSpace(s[0]) {
      TrimLeftStart(s[1..]);
    }
  }

  lemma {:induction false} TrimRightPrefix(s: string)
    ensures var r := TrimRight(s); |r| <= |s| && r == s[..|r|] && (r == "" || !IsSpace(r[|r| - 1]))
  {
    if s != "" && IsSpace(s[|s| - 1]) {
      TrimRightPrefix(s[..|s| - 1]);
    }
  }

  /** Trimming leaves no white space at the ends and changes only what has some. */
  lemma TrimSpaceTrims(s: string)
    ensures Trimmed(TrimSpace(s))
    ensures Trimmed(s) ==> TrimSpace(s) == s
  {
    TrimLeftStart(s);
    TrimRightPrefix(TrimLeft(s));
  }

  predicate Blank(s: string, from: nat, to: nat) {
    to <= |s| && forall i :: from <= i < to ==> IsSpace(s[i])
  }

  /** t is what lies between the blanks at the two ends of s. */
  predicate Between(s: string, i: nat, j: nat, t: string) {
    i <= j <= |s| && Blank(s, 0, i) && Blank(s, j, |s|) && t == s[i..j] && Trimmed(t)
  }

  lemma {:induction false} TrimLeftDrops(s: string) returns (i: nat)
    ensures i <= |s| && Blank(s, 0, i) && TrimLeft(s) == s[i..]
  {
    if s != "" && IsSpace(s[0]) {
      var n := TrimLeftDrops(s[1..]);
      i := n + 1;
      assert forall k :: 0 < k < i ==> s[k] == s[1..][k - 1];
    } else {
      i := 0;
    }
  }

  lemma {:induction false} TrimRightDrops(s: string) returns (j: nat)
    ensures j <= |s| && Blank(s, j, |s|) && TrimRight(s) == s[..j]
  {
    if s != "" && IsSpace(s[|s| - 1]) {
      j := TrimRightDrops(s[..|s| - 1]);
      assert forall k :: j <= k < |s| - 1 ==> s[k] == s[..|s| - 1][k];
    } else {
      j := |s|;
    }
  }

  /** Two trimmed texts between blanks of s are the same text. */
  lemma OneBetween(s: string, i: nat, j: nat, t: string, k: nat, l: nat, u: string)
    requires Between(s, i, j, t) && Between(s, k, l, u)
    ensures t == u
  {
    assert t != "" ==> t[0] == s[i] && t[|t| - 1] == s[j - 1];
    assert u != "" ==> u[0] == s[k] && u[|u| - 1] == s[l - 1];
  }

  lemma TrimIsBetween(s: string) returns (i: nat, j: nat)
    ensures Between(s, i, j, TrimSpace(s))
  {
    i := TrimLeftDrops(s);
    var n := TrimRightDrops(s[i..]);
    j := i + n;
    assert s[i..][..n] == s[i..j];
    assert Blank(s, j, |s|) by {
      assert forall k :: j <= k < |s| ==> s[k] == s[i..][k - i];
    }
    TrimSpaceTrims(s);
  }

  /** Trimming leaves exactly the text between the blanks at the two ends. */
  lemma TrimIff(s: string, t: string)
    ensures TrimSpace(s) == t <==> exists i: nat, j: nat :: Between(s, i, j, t)
  {
    var i, j := TrimIsBetween(s);
    forall k: nat, l: nat | Between(s, k, l, t)
      ensures TrimSpace(s) == t
    {
      OneBetween(s, i, j, TrimSpace(s), k, l, t);
    }
  }

  const CAPITALS := "ABCDEFGHIJKLMNOPQRSTUVWXYZ"
  const SMALL_LETTERS := "abcdefghijklmnopqrstuvwxyz"

  lemma Alphabet(c: char)
    ensures |CAPITALS| == |SMALL_LETTERS| == 26
    ensures forall i :: 0 <= i < 26 ==> CAPITALS[i] as int == 65 + i && SMALL_LETTERS[i] as int == 97 + i
    ensures c in CAPITALS <==> 'A' <= c <= 'Z'
    ensures c in SMALL_LETTERS <==> 'a' <= c <= 'z'
  {
    if 'A' <= c <= 'Z' {
      assert CAPITALS[c as int - 65] == c;
    }
    if 'a' <= c <= 'z' {
      assert SMALL_LETTERS[c as int - 97] == c;
    }
  }

  /** The two cases of the alphabet, letter by letter. */
  lemma CaseOfLetters(i: nat)
    requires i < 26
    ensures LowerChar(CAPITALS[i]) == SMALL_LETTERS[i] && UpperChar(SMALL_LETTERS[i]) == CAPITALS[i]
  {
    Alphabet('a');
  }

  const ACCENTED_CAPITALS := "\U{C0}\U{C1}\U{C2}\U{C3}\U{C7}\U{C9}\U{CA}\U{CD}\U{D3}\U{D4}\U{D5}\U{DA}\U{DC}"
  const ACCENTED_LETTERS := "\U{E0}\U{E1}\U{E2}\U{E3}\U{E7}\U{E9}\U{EA}\U{ED}\U{F3}\U{F4}\U{F5}\U{FA}\U{FC}"

  /** The two cases of the accented letters of Portuguese. */
  lemma CaseOfAccents(i: nat)
    requires i < 13
    ensures LowerChar(ACCENTED_CAPITALS[i]) == ACCENTED_LETTERS[i] && UpperChar(ACCENTED_LETTERS[i]) == ACCENTED_CAPITALS[i]
  {
    assert |ACCENTED_CAPITALS| == |ACCENTED_LETTERS| == 13;
  }

  /** Which characters turn into a letter of the alphabet, and that ASCII has no other case. */
  lemma CaseMeetsAlphabet(c: char)
    ensures LowerChar(c) in SMALL_LETTERS <==> c in SMALL_LETTERS || c in CAPITALS || c == '\U{130}' || c == '\U{212A}'
    ensures UpperChar(c) in CAPITALS <==> c in SMALL_LETTERS || c in CAPITALS || c == '\U{131}' || c == '\U{17F}'
    ensures c as int < 128 && c !in CAPITALS ==> LowerChar(c) == c
    ensures c as int < 128 && c !in SMALL_LETTERS ==> UpperChar(c) == c
  {
    Alphabet(c);
    Alphabet(LowerChar(c));
    Alphabet(UpperChar(c));
  }

  lemma {:induction false} CaseCharacters(s: string)
    ensures |ToLower(s)| == |s| && |ToUpper(s)| == |s|
    ensures forall i :: 0 <= i < |s| ==> ToLower(s)[i] == LowerChar(s[i]) && ToUpper(s)[i] == UpperChar(s[i])
  {
    if s != "" {
      CaseCharacters(s[..|s| - 1]);
    }
  }

  lemma FoldTrimmed(s: string)
    ensures Trimmed(Fold(s)) && Trimmed(FoldUpper(s))
  {
    TrimSpaceTrims(s);
    CaseCharacters(TrimSpace(s));
  }

  lemma CharIdempotent(c: char)
    ensures LowerChar(LowerChar(c)) == LowerChar(c) && UpperChar(UpperChar(c)) == UpperChar(c)
  {}

  lemma {:induction false} CaseIdempotent(s: string)
    ensures ToLower(ToLower(s)) == ToLower(s)
    ensures ToUpper(ToUpper(s)) == ToUpper(s)
  {
    if s != "" {
      var n := |s| - 1;
      CaseIdempotent(s[..n]);
      CharIdempotent(s[n]);
      assert ToLower(s)[..|ToLower(s)| - 1] == ToLower(s[..n]);
      assert ToUpper(s)[..|ToUpper(s)| - 1] == ToUpper(s[..n]);
    }
  }

  lemma FoldIdempotent(s: string)
    ensures Fold(Fold(s)) == Fold(s)
    ensures FoldUpper(FoldUpper(s)) == FoldUpper(s)
  {
    FoldTrimmed(s);
    TrimSpaceTrims(Fold(s));
    TrimSpaceTrims(FoldUpper(s));
    CaseIdempotent(TrimSpace(s));
  }

  lemma {:induction false} UpperConcat(s: string, t: string)
    ensures ToUpper(s + t) == ToUpper(s) + ToUpper(t)
  {
    if t == "" {
      assert s + t == s;
    } else {
      assert (s + t)[..|s + t| - 1] == s + t[..|t| - 1];
      UpperConcat(s, t[..|t| - 1]);
    }
  }
}
