/**
 The rows the pipeline works on and the SQL statements that change them, each as a function
 of one document's rows. Every move of `status` is a guarded update: it does nothing when the
 row is not in the expected status. Nothing here says who issues a statement.
 */
module Tables {
  import opened Wrappers
  import opened Aggregate
  import opened Normalize
  import opened Schema

  type DocId = nat
  type Time = int

  datatype Status = Uploaded | Processing | OCRDone | Extracting | Extracted | Failed

  /** failed_stage: ingest, ocr_dispatch, ocr or extraction. */
  datatype Stage = IngestStage | DispatchStage | OCRStage | ExtractionStage

  /** The name of the n-th page image in the bucket. */
  datatype PageObject = PageObject(doc: DocId, number: nat)

  /** A row of documents; pdfPages is the number of images its stored PDF converts to. */
  datatype Document = Document(
    id: DocId,
    pdfPages: nat,
    status: Status,
    failedStage: Option<Stage>,
    errorMessage: Option<string>,
    pageCount: Option<nat>,
    ocrDispatchedAt: Option<Time>,
    extractionAttempts: nat,
    nextExtractionAt: Option<Time>,
    updatedAt: Time)

  /** One committed `SaveAggregate`; attempt is a history variable, the claim it belongs to. */
  datatype Extraction = Extraction(attempt: nat, content: ExtractedMatricula)

  /** A document with the rows of pages, ocr_results and extractions that reference it. */
  datatype Record = Record(
    doc: Document,
    pages: map<nat, PageObject>,
    ocr: map<nat, string>,
    extractions: seq<Extraction>)

  datatype Stmt =
    | UpdateStatus(from: Status, to: Status)
    | MarkFailed(from: Status, stage: Stage, message: string)
    | AddPages(objects: seq<PageObject>)
    | SetPageCount(count: nat)
    | SetOCRDispatched
    | ClaimForExtraction(maxAttempts: nat)
    | ReturnForRetry(backoff: int)
    | FailExhausted(maxAttempts: nat)
    | UpsertPage(number: nat, text: string)
    | MarkOCRDone
    | SaveAggregate(attempt: nat, content: ExtractedMatricula)

  function Created(id: DocId, pdfPages: nat, now: Time): Record {
    Record(Document(id, pdfPages, Uploaded, None, None, None, None, 0, None, now), map[], map[], [])
  }

  /** An ocr_done row past its backoff with an attempt left. */
  predicate Claimable(d: Document, maxAttempts: nat, now: Time) {
    && d.status == OCRDone
    && (d.nextExtractionAt.Some? ==> d.nextExtractionAt.value <= now)
    && d.extractionAttempts < maxAttempts
  }

  predicate Exhausted(d: Document, maxAttempts: nat) {
    d.status == OCRDone && d.extractionAttempts >= maxAttempts
  }

  /** In backoff: an attempt is left, but not yet. */
  predicate Waiting(d: Document, maxAttempts: nat, now: Time) {
    && d.status == OCRDone && d.extractionAttempts < maxAttempts
    && d.nextExtractionAt.Some? && d.nextExtractionAt.value > now
  }

  /** A document in the queue is always exactly one of waiting, claimable and exhausted. */
  lemma QueueStates(d: Document, maxAttempts: nat, now: Time)
    ensures d.status == OCRDone <==>
      Waiting(d, maxAttempts, now) || Claimable(d, maxAttempts, now) || Exhausted(d, maxAttempts)
    ensures !(Waiting(d, maxAttempts, now) && Claimable(d, maxAttempts, now))
    ensures !(Exhausted(d, maxAttempts) && (Waiting(d, maxAttempts, now) || Claimable(d, maxAttempts, now)))
  {}

  function Failing(d: Document, stage: Stage, message: string, now: Time): Document {
    d.(status := Failed, failedStage := Some(stage), errorMessage := Some(message), updatedAt := now)
  }

  function MovedTo(d: Document, to: Status, now: Time): Document {
    d.(status := to, updatedAt := now)
  }

  /** `INSERT ... ON CONFLICT (document_id, page_number) DO NOTHING` for objects 1, 2, ... */
  function InsertPages(pages: map<nat, PageObject>, objects: seq<PageObject>): map<nat, PageObject> {
    if objects == [] then pages
    else
      var rest := InsertPages(pages, objects[..|objects| - 1]);
      if |objects| in rest then rest else rest[|objects| := objects[|objects| - 1]]
  }

  function Execute(stmt: Stmt, now: Time, r: Record): Record {
    var d := r.doc;
    match stmt
    case UpdateStatus(from, to) =>
      if d.status == from then r.(doc := MovedTo(d, to, now)) else r
    case MarkFailed(from, stage, message) =>
      if d.status == from then r.(doc := Failing(d, stage, message, now)) else r
    case AddPages(objects) => r.(pages := InsertPages(r.pages, objects))
    case SetPageCount(n) => r.(doc := d.(pageCount := Some(n), updatedAt := now))
    case SetOCRDispatched => r.(doc := d.(ocrDispatchedAt := Some(now), updatedAt := now))
    case ClaimForExtraction(max) =>
      if Claimable(d, max, now)
      then r.(doc := MovedTo(d, Extracting, now).(extractionAttempts := d.extractionAttempts + 1))
      else r
    case ReturnForRetry(backoff) =>
      if d.status == Extracting
      then r.(doc := MovedTo(d, OCRDone, now).(nextExtractionAt := Some(now + backoff)))
      else r
    case FailExhausted(max) =>
      if Exhausted(d, max)
      then r.(doc := Failing(d, ExtractionStage, "extraction attempts exhausted", now))
      else r
    case UpsertPage(n, text) => r.(ocr := r.ocr[n := text])
    case MarkOCRDone =>
      if d.status == Processing then r.(doc := MovedTo(d, OCRDone, now)) else r
    case SaveAggregate(attempt, content) =>
      r.(extractions := r.extractions + [Extraction(attempt, content)])
  }

  /** The aggregate stored for the document: the one its last extraction produced. */
  function Current(r: Record): Option<Extraction> {
    if r.extractions == [] then None else Some(r.extractions[|r.extractions| - 1])
  }

  // ---------- pages ----------

  function PageObjects(id: DocId, n: nat): (r: seq<PageObject>)
    ensures |r| == n
    ensures forall i :: 0 <= i < n ==> r[i] == PageObject(id, i + 1)
  {
    seq(n, (i: nat) => PageObject(id, i + 1))
  }

  /** pages holds exactly rows 1 to n, each with its own object. */
  ghost predicate PagesFull(r: Record) {
    && r.doc.pdfPages >= 1
    && (forall k :: k in r.pages <==> 1 <= k <= r.doc.pdfPages)
    && (forall k :: k in r.pages ==> r.pages[k] == PageObject(r.doc.id, k))
  }

  /** pages is complete and page_count says so. */
  ghost predicate Ready(r: Record) {
    PagesFull(r) && r.doc.pageCount == Some(r.doc.pdfPages)
  }

  /** ocr_results holds exactly rows 1 to n. */
  ghost predicate OCRFull(r: Record) {
    forall k :: k in r.ocr <==> 1 <= k <= r.doc.pdfPages
  }

  lemma {:induction false} InsertPagesRows(pages: map<nat, PageObject>, objects: seq<PageObject>)
    ensures var t := InsertPages(pages, objects);
      && (forall k :: k in t <==> k in pages || 1 <= k <= |objects|)
      && (forall k :: k in pages ==> t[k] == pages[k])
      && (forall k :: k in t && k !in pages ==> t[k] == objects[k - 1])
  {
    if objects != [] {
      InsertPagesRows(pages, objects[..|objects| - 1]);
    }
  }

  // ---------- what statements keep ----------

  function Attempts(r: Record): set<nat> {
    set i | 0 <= i < |r.extractions| :: r.extractions[i].attempt
  }

  predicate PostOCR(status: Status) {
    status.OCRDone? || status.Extracting? || status.Extracted?
  }

  /** What is true of every document's rows in every reachable state. */
  ghost predicate Sound(M: nat, r: Record) {
    var d := r.doc;
    && (r.pages == map[] || PagesFull(r))
    && (d.pageCount.Some? ==> Ready(r))
    && (d.ocrDispatchedAt.Some? ==> Ready(r))
    && (forall k :: k in r.ocr ==> 1 <= k <= d.pdfPages)
    && (PostOCR(d.status) ==> Ready(r) && OCRFull(r))
    && d.extractionAttempts <= M
    && (d.status == Extracting ==> d.extractionAttempts >= 1)
    && (d.status == Uploaded || d.status == Processing ==> d.extractionAttempts == 0 && d.nextExtractionAt.None?)
    && (d.status == Failed ==> d.failedStage.Some? && d.errorMessage.Some?)
    && ExtractionsSound(r)
    && (d.status == Extracted ==> r.extractions != [])
  }

  ghost predicate ExtractionsSound(r: Record) {
    && (forall i :: 0 <= i < |r.extractions| ==> RowSound(r.doc.extractionAttempts, r.extractions[i]))
    && (forall i, j :: 0 <= i < j < |r.extractions| ==> r.extractions[i].attempt != r.extractions[j].attempt)
  }

  ghost predicate RowSound(attempts: nat, e: Extraction) {
    && 1 <= e.attempt <= attempts
    && Normalized(e.content) == e.content
    && Storable(e.content)
  }

  /** The conditions under which the code issues each statement. */
  ghost predicate Issued(M: nat, stmt: Stmt, r: Record) {
    match stmt
    case UpdateStatus(from, to) =>
      || (from == Uploaded && to == Processing)
      || (from == Extracting && to == Extracted && r.extractions != [])
    case MarkFailed(from, _, _) => from == Processing || from == Extracting
    case AddPages(objects) => objects == PageObjects(r.doc.id, r.doc.pdfPages) && r.doc.pdfPages >= 1
    case SetPageCount(n) => PagesFull(r) && n == r.doc.pdfPages
    case SetOCRDispatched => Ready(r)
    case ClaimForExtraction(max) => max == M
    case ReturnForRetry(_) => true
    case FailExhausted(max) => max == M
    case UpsertPage(n, _) => 1 <= n <= r.doc.pdfPages && Ready(r)
    case MarkOCRDone => Ready(r) && OCRFull(r)
    case SaveAggregate(attempt, content) =>
      && RowSound(r.doc.extractionAttempts, Extraction(attempt, content))
      && attempt !in Attempts(r)
  }

  /** What no statement ever takes back. */
  ghost predicate Grows(r: Record, t: Record) {
    && t.doc.id == r.doc.id && t.doc.pdfPages == r.doc.pdfPages
    && (PagesFull(r) ==> PagesFull(t))
    && (Ready(r) ==> Ready(t))
    && (forall k :: k in r.ocr ==> k in t.ocr)
    && r.doc.extractionAttempts <= t.doc.extractionAttempts
    && r.extractions <= t.extractions
    && (r.doc.ocrDispatchedAt.Some? ==> t.doc.ocrDispatchedAt.Some?)
    && (r.doc.status == Extracted ==> t.doc.status == Extracted)
    && (r.doc.status == Failed ==> t.doc == r.doc.(pageCount := t.doc.pageCount,
          ocrDispatchedAt := t.doc.ocrDispatchedAt, updatedAt := t.doc.updatedAt))
  }

  lemma GrowsTransitive(r: Record, s: Record, t: Record)
    requires Grows(r, s) && Grows(s, t)
    ensures Grows(r, t)
  {}

  lemma AddPagesSound(M: nat, r: Record, objects: seq<PageObject>, now: Time)
    requires Sound(M, r) && Issued(M, AddPages(objects), r)
    ensures var t := Execute(AddPages(objects), now, r);
      Sound(M, t) && Grows(r, t) && PagesFull(t)
  {
    InsertPagesRows(r.pages, objects);
    var t := Execute(AddPages(objects), now, r);
    assert PagesFull(t);
  }

  lemma SaveExtractions(r: Record, e: Extraction)
    requires ExtractionsSound(r) && RowSound(r.doc.extractionAttempts, e) && e.attempt !in Attempts(r)
    ensures ExtractionsSound(r.(extractions := r.extractions + [e]))
  {
    var rows := r.extractions + [e];
    forall i, j | 0 <= i < j < |rows|
      ensures rows[i].attempt != rows[j].attempt
    {
      assert r.extractions[i].attempt in Attempts(r);
    }
  }

  lemma SaveSound(M: nat, r: Record, attempt: nat, content: ExtractedMatricula, now: Time)
    requires Sound(M, r) && Issued(M, SaveAggregate(attempt, content), r)
    ensures var t := Execute(SaveAggregate(attempt, content), now, r); Sound(M, t) && Grows(r, t)
  {
    SaveExtractions(r, Extraction(attempt, content));
  }

  /** Every statement the code issues keeps the rows sound and takes nothing back. */
  lemma ExecuteSound(M: nat, stmt: Stmt, now: Time, r: Record)
    requires Sound(M, r) && Issued(M, stmt, r)
    ensures Sound(M, Execute(stmt, now, r)) && Grows(r, Execute(stmt, now, r))
  {
    match stmt {
      case AddPages(objects) => AddPagesSound(M, r, objects, now);
      case SaveAggregate(attempt, content) => SaveSound(M, r, attempt, content, now);
      case _ => DocumentOnlySound(M, stmt, now, r);
    }
  }

  lemma DocumentOnlySound(M: nat, stmt: Stmt, now: Time, r: Record)
    requires Sound(M, r) && Issued(M, stmt, r) && !stmt.AddPages? && !stmt.SaveAggregate?
    ensures Sound(M, Execute(stmt, now, r)) && Grows(r, Execute(stmt, now, r))
  {
    var t := Execute(stmt, now, r);
    assert t.extractions == r.extractions && t.pages == r.pages;
    assert ExtractionsSound(t);
  }

  // ---------- the potential ----------

  /** Bounds the number of status changes a document can still make. */
  function Potential(M: nat, d: Document): nat {
    var left := if d.extractionAttempts < M then M - d.extractionAttempts else 0;
    match d.status
    case Uploaded => 2 * M + 3
    case Processing => 2 * M + 2
    case Extracting => 2 * left + 2
    case OCRDone => 2 * left + 1
    case _ => 0
  }

  /** The statements in the code, whatever the rows look like. */
  predicate InCode(M: nat, stmt: Stmt) {
    match stmt
    case UpdateStatus(from, to) =>
      (from == Uploaded && to == Processing) || (from == Extracting && to == Extracted)
    case MarkFailed(from, _, _) => from == Processing || from == Extracting
    case ClaimForExtraction(max) => max == M
    case FailExhausted(max) => max == M
    case _ => true
  }

  /**
   A statement either leaves the status alone or lowers the potential, so terminal rows are
   final for every actor. This needs no assumption about when statements are issued.
   */
  lemma StatementLowersPotential(M: nat, stmt: Stmt, now: Time, r: Record)
    requires InCode(M, stmt)
    ensures var t := Execute(stmt, now, r);
      && Potential(M, t.doc) <= Potential(M, r.doc)
      && (t.doc.status != r.doc.status ==> Potential(M, t.doc) < Potential(M, r.doc))
      && (r.doc.status.Extracted? || r.doc.status.Failed? ==> t.doc.status == r.doc.status)
  {}

  /** The number of statements of the run that change the status. */
  function StatusChanges(stmts: seq<(Stmt, Time)>, r: Record): nat {
    if stmts == [] then 0
    else
      var t := Execute(stmts[0].0, stmts[0].1, r);
      (if t.doc.status != r.doc.status then 1 else 0) + StatusChanges(stmts[1..], t)
  }

  function ExecuteAll(stmts: seq<(Stmt, Time)>, r: Record): Record {
    if stmts == [] then r
    else ExecuteAll(stmts[1..], Execute(stmts[0].0, stmts[0].1, r))
  }

  lemma {:induction false} ChangesBounded(M: nat, stmts: seq<(Stmt, Time)>, r: Record)
    requires forall i :: 0 <= i < |stmts| ==> InCode(M, stmts[i].0)
    ensures StatusChanges(stmts, r) + Potential(M, ExecuteAll(stmts, r).doc) <= Potential(M, r.doc)
  {
    if stmts != [] {
      StatementLowersPotential(M, stmts[0].0, stmts[0].1, r);
      ChangesBounded(M, stmts[1..], Execute(stmts[0].0, stmts[0].1, r));
    }
  }

  /** In no sequence of statements, by any actors, does a document change status more than 2M + 3 times. */
  lemma BoundedRuns(M: nat, stmts: seq<(Stmt, Time)>, id: DocId, pdfPages: nat, now: Time)
    requires forall i :: 0 <= i < |stmts| ==> InCode(M, stmts[i].0)
    ensures StatusChanges(stmts, Created(id, pdfPages, now)) <= 2 * M + 3
  {
    ChangesBounded(M, stmts, Created(id, pdfPages, now));
  }
}
