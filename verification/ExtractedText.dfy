/** What the LLM is shown: in every reachable state, one section for each page, in page order. */
module ExtractedText {
  import opened Seqs
  import opened Dates
  import opened Tables
  import opened Pipeline
  import opened PipelineInvariant
  import opened PipelineTheorems
  import opened DocumentStore
  import opened ExtractionService

  predicate IsPage(table: map<nat, string>, row: Row<string>, k: nat) {
    k in table && row == Row(k, table[k])
  }

  /** The rows are the pages 1 to n of the table, in order. */
  predicate RowsAre(table: map<nat, string>, rows: seq<Row<string>>) {
    forall i :: 0 <= i < |rows| ==> IsPage(table, rows[i], i + 1)
  }

  lemma RowsByKey(table: map<nat, string>, n: nat)
    requires forall k :: k in table.Keys <==> 1 <= k <= n
    ensures |RowsOf(table)| == n && RowsAre(table, RowsOf(table))
  {
    AscendingRange(table.Keys, n);
    forall i | 0 <= i < n
      ensures IsPage(table, RowsOf(table)[i], i + 1)
    {
      assert Ascending(table.Keys)[i] == i + 1;
    }
  }

  lemma OCRKeys(r: Record)
    requires OCRFull(r)
    ensures forall k :: k in r.ocr.Keys <==> 1 <= k <= r.doc.pdfPages
  {}

  /** The sections of pages 1 to n. */
  function PageSections(ocr: map<nat, string>, n: nat): string
    requires forall k :: 1 <= k <= n ==> k in ocr
  {
    if n == 0 then "" else PageSections(ocr, n - 1) + Section(Row(n, ocr[n]))
  }

  lemma {:induction false} SectionsOfPages(ocr: map<nat, string>, rows: seq<Row<string>>)
    requires RowsAre(ocr, rows) && forall k :: 1 <= k <= |rows| ==> k in ocr
    ensures Sections(rows) == PageSections(ocr, |rows|)
  {
    if rows != [] {
      var n := |rows| - 1;
      assert IsPage(ocr, rows[n], n + 1);
      SectionsOfPages(ocr, rows[..n]);
    }
  }

  /**
   Whatever the interleaving, a worker on a document past OCR builds exactly one section for each
   page of the PDF, in ascending page order.
   */
  lemma TextHasEveryPage(c: Config, actions: seq<Action>, d: DocId)
    requires Run(c, actions)
    requires d in End(c, actions).db && PostOCR(End(c, actions).db[d].doc.status)
    ensures var r := End(c, actions).db[d];
      && r.doc.pdfPages >= 1
      && (forall k :: 1 <= k <= r.doc.pdfPages ==> k in r.ocr)
      && TextOf(r.ocr) == PageSections(r.ocr, r.doc.pdfPages)
  {
    EndInv(c, actions);
    PastOCRIsFull(c, End(c, actions), d);
    TextIsPages(End(c, actions).db[d]);
  }

  lemma PastOCRIsFull(c: Config, s: State, d: DocId)
    requires Inv(c, s) && d in s.db && PostOCR(s.db[d].doc.status)
    ensures OCRFull(s.db[d]) && s.db[d].doc.pdfPages >= 1
  {
    assert Sound(c.maxAttempts, s.db[d]);
  }

  lemma TextIsPages(r: Record)
    requires OCRFull(r) && r.doc.pdfPages >= 1
    ensures forall k :: 1 <= k <= r.doc.pdfPages ==> k in r.ocr
    ensures TextOf(r.ocr) == PageSections(r.ocr, r.doc.pdfPages)
  {
    OCRKeys(r);
    TextIsTable(r.ocr, r.doc.pdfPages);
  }

  /** The rows read for a document past OCR are its pages 1 to n, each with its own text. */
  lemma TextIsTable(ocr: map<nat, string>, n: nat)
    requires forall k :: k in ocr.Keys <==> 1 <= k <= n
    ensures forall k :: 1 <= k <= n ==> k in ocr
    ensures TextOf(ocr) == PageSections(ocr, n)
  {
    RowsByKey(ocr, n);
    SectionsOfPages(ocr, RowsOf(ocr));
  }

  // ---------- what the text shows ----------

  /** k in decimal, without leading zeros. */
  predicate InDecimal(s: string, k: nat) {
    s != "" && Says(s, k) && (|s| > 1 ==> s[0] != '0')
  }

  /** The part of the text that is about page k. */
  ghost predicate ShowsPage(part: string, k: nat, text: string) {
    exists number :: InDecimal(number, k) && part == "--- P\U{E1}gina " + number + " ---\n" + text + "\n"
  }

  function Joined(parts: seq<string>): string {
    if parts == [] then "" else Joined(parts[..|parts| - 1]) + parts[|parts| - 1]
  }

  /** The text is made of these parts, one for each page 1 to n, each with its page's number and text. */
  ghost predicate ShowsPages(text: string, parts: seq<string>, n: nat, ocr: map<nat, string>) {
    text == Joined(parts) && |parts| == n && forall k :: 1 <= k <= n ==> k in ocr && ShowsPage(parts[k - 1], k, ocr[k])
  }

  lemma {:induction false} DecimalSays(n: nat)
    ensures InDecimal(Decimal(n), n) && (n > 0 ==> Decimal(n)[0] != '0')
    decreases n
  {
    if n < 10 {
      assert Decimal(n)[..0] == "";
    } else {
      var s := Decimal(n);
      DecimalSays(n / 10);
      assert s[..|s| - 1] == Decimal(n / 10);
      assert Value(s) == 10 * (n / 10) + n % 10;
    }
  }

  lemma {:induction false} PartsOf(ocr: map<nat, string>, n: nat) returns (parts: seq<string>)
    requires forall k :: 1 <= k <= n ==> k in ocr
    ensures ShowsPages(PageSections(ocr, n), parts, n, ocr)
  {
    if n == 0 {
      return [];
    }
    var before := PartsOf(ocr, n - 1);
    var part := Section(Row(n, ocr[n]));
    DecimalSays(n);
    assert ShowsPage(part, n, ocr[n]);
    parts := before + [part];
    assert parts[..|parts| - 1] == before;
    forall k | 1 <= k <= n
      ensures k in ocr && ShowsPage(parts[k - 1], k, ocr[k])
    {
      assert k < n ==> parts[k - 1] == before[k - 1];
    }
  }

  /** The LLM is shown, in page order, the number and the stored text of every page of the PDF, and nothing else. */
  lemma TextShowsEveryPage(c: Config, actions: seq<Action>, d: DocId) returns (parts: seq<string>)
    requires Run(c, actions)
    requires d in End(c, actions).db && PostOCR(End(c, actions).db[d].doc.status)
    ensures var r := End(c, actions).db[d]; ShowsPages(TextOf(r.ocr), parts, r.doc.pdfPages, r.ocr)
  {
    TextHasEveryPage(c, actions, d);
    var r := End(c, actions).db[d];
    parts := PartsOf(r.ocr, r.doc.pdfPages);
  }
}
