/**
 What a tick of the poller has done, as a record: each claim with the extraction that followed it, each
 entry of the janitor's list with what was done about it, and the tables before and after, in their order.
 */
module PollerTraces {
  import opened Wrappers
  import opened Seqs
  import opened Aggregate
  import opened Tables
  import opened Pipeline
  import opened DocumentStore
  import opened ExtractionService
  import opened Ingest

  // ---------- a claim and its extraction ----------

  /**
   A claim as it was made: the table it found, the time, the rows others had locked and the row it left.
   Then the moves of the extraction, unless the claim's reply was lost, and the table after them.
   */
  datatype ClaimRecord = ClaimRecord(
    doc: DocId, at: Time, before: map<DocId, Record>, locked: set<DocId>, left: Record,
    moves: Option<seq<Move>>, after: map<DocId, Record>)

  /** Of the claimable rows that nobody has locked, the claim takes one with least updated_at. */
  predicate InOrderOfUpdate(M: nat, c: ClaimRecord) {
    Oldest(c.before, ClaimableIds(c.before, M, c.at) - c.locked, c.doc)
  }

  /** The claim takes the document out of the queue and counts the attempt. */
  predicate LeftByClaim(c: ClaimRecord) {
    && c.doc in c.before
    && c.left == c.before[c.doc].(doc := c.before[c.doc].doc.(
         status := Extracting, extractionAttempts := c.before[c.doc].doc.extractionAttempts + 1, updatedAt := c.at))
  }

  /** The table that the claim has left. */
  function ClaimedTable(c: ClaimRecord): map<DocId, Record> {
    c.before[c.doc := c.left]
  }

  /**
   A claim whose reply arrived is followed by a whole extraction of its document under the token it
   issued, from the row it left; what the worker hears is the LLM's answer to the text it reads. Alone and
   without a fault, that answer decides what becomes of the document.
   */
  ghost predicate WorkedOff(alone: bool, fine: bool, c: ClaimRecord, llm: string -> Result<ExtractedMatricula, Failure>) {
    && LeftByClaim(c) && (fine ==> c.moves.Some?)
    && match c.moves
       case None => c.after == ClaimedTable(c)
       case Some(moves) =>
         && c.doc in c.after
         && Worked(alone, WorkAt(Some(Loading), c.left), c.left.doc.extractionAttempts, moves,
              WorkAt(None, c.after[c.doc]), ClaimedTable(c), c.after, c.doc)
         && Listened(moves, llm)
         && (alone && fine ==> Treated(c.left, c.after[c.doc], c.left.doc.extractionAttempts, llm))
  }

  // ---------- a drain ----------

  /** From start to end by these claims and their extractions, others writing in between unless alone. */
  predicate Traced(alone: bool, start: map<DocId, Record>, claims: seq<ClaimRecord>, end: map<DocId, Record>) {
    if claims == [] then Found(alone, start, end)
    else
      var c := claims[|claims| - 1];
      Traced(alone, start, claims[..|claims| - 1], c.before) && Found(alone, c.after, end)
  }

  lemma FoundTransitive(alone: bool, a: map<DocId, Record>, b: map<DocId, Record>, c: map<DocId, Record>)
    requires Found(alone, a, b) && Found(alone, b, c)
    ensures Found(alone, a, c)
  {
    OthersTransitive(a, b, c);
  }

  lemma TracedOn(alone: bool, start: map<DocId, Record>, claims: seq<ClaimRecord>, middle: map<DocId, Record>, end: map<DocId, Record>)
    requires Traced(alone, start, claims, middle) && Found(alone, middle, end)
    ensures Traced(alone, start, claims, end)
  {
    if claims == [] {
      FoundTransitive(alone, start, middle, end);
    } else {
      FoundTransitive(alone, claims[|claims| - 1].after, middle, end);
    }
  }

  lemma TracedOne(alone: bool, start: map<DocId, Record>, claims: seq<ClaimRecord>, c: ClaimRecord, middle: map<DocId, Record>)
    requires Traced(alone, start, claims, middle) && Found(alone, middle, c.before)
    ensures Traced(alone, start, claims + [c], c.after)
  {
    TracedOn(alone, start, claims, middle, c.before);
    assert (claims + [c])[..|claims|] == claims;
    FoundSame(alone, c.after);
  }

  /** Alone, a claim and its extraction leave every document outside the queue as it is. */
  lemma OutsideQueueKept(M: nat, fine: bool, c: ClaimRecord, llm: string -> Result<ExtractedMatricula, Failure>, d: DocId)
    requires WorkedOff(true, fine, c, llm) && InOrderOfUpdate(M, c)
    requires d in c.before && c.before[d].doc.status != OCRDone
    ensures d in c.after && c.after[d] == c.before[d]
  {
    assert c.doc in ClaimableIds(c.before, M, c.at);
  }

  ghost predicate AllWorkedOff(alone: bool, fine: bool, M: nat, claims: seq<ClaimRecord>,
                               llm: string -> Result<ExtractedMatricula, Failure>) {
    forall c :: c in claims ==> InOrderOfUpdate(M, c) && WorkedOff(alone, fine, c, llm)
  }

  /** Alone, what is outside the queue when the drain begins is there unchanged when it ends. */
  lemma {:induction false} DrainKeeps(M: nat, fine: bool, start: map<DocId, Record>, claims: seq<ClaimRecord>,
                                      end: map<DocId, Record>, llm: string -> Result<ExtractedMatricula, Failure>, d: DocId)
    requires Traced(true, start, claims, end) && AllWorkedOff(true, fine, M, claims, llm)
    requires d in start && start[d].doc.status != OCRDone
    ensures d in end && end[d] == start[d]
  {
    if claims != [] {
      var n := |claims| - 1;
      DrainKeeps(M, fine, start, claims[..n], claims[n].before, llm, d);
      OutsideQueueKept(M, fine, claims[n], llm, d);
    }
  }

  /** Alone and without a fault, what has been claimed and can be extracted ends extracted. */
  ghost predicate Extracts(claims: seq<ClaimRecord>, rows: map<DocId, Record>, llm: string -> Result<ExtractedMatricula, Failure>) {
    forall c :: c in claims && Extractable(c.left, llm) ==>
      c.doc in rows && Done(c.left, rows[c.doc], c.left.doc.extractionAttempts, llm)
  }

  lemma {:induction false} DrainExtracts(M: nat, start: map<DocId, Record>, claims: seq<ClaimRecord>, end: map<DocId, Record>,
                                         llm: string -> Result<ExtractedMatricula, Failure>)
    requires Traced(true, start, claims, end) && AllWorkedOff(true, true, M, claims, llm)
    ensures Extracts(claims, end, llm)
  {
    if claims != [] {
      var n := |claims| - 1;
      DrainExtracts(M, start, claims[..n], claims[n].before, llm);
      forall c | c in claims && Extractable(c.left, llm)
        ensures c.doc in end && Done(c.left, end[c.doc], c.left.doc.extractionAttempts, llm)
      {
        assert c == claims[n] || c in claims[..n];
        if c != claims[n] {
          OutsideQueueKept(M, true, claims[n], llm, c.doc);
        }
      }
    }
  }

  // ---------- an entry of the janitor's list ----------

  /** What the janitor did about a document on its list, with the tables before and after. */
  datatype Handled = Handled(
    doc: Document, before: map<DocId, Record>, moves: seq<Move>, jobs: seq<seq<PageRef>>, after: map<DocId, Record>)

  /** A row back in the queue at once, if it was still being extracted. */
  function BackInQueue(r: Record, now: Time): Record {
    if r.doc.status == Extracting
    then r.(doc := r.doc.(status := OCRDone, nextExtractionAt := Some(now), updatedAt := now))
    else r
  }

  /**
   A document in processing is ingested again, from its first update, if it was never dispatched, and its
   stored pages are sent again if it was; one that was being extracted goes back to the queue.
   */
  ghost predicate HandledRight(alone: bool, h: Handled) {
    && h.doc.id in h.before && h.doc.id in h.after
    && Brought(alone, h.after[h.doc.id], h.before, h.after, h.doc.id)
    && match h.doc.status
       case Processing =>
         Came(alone, At(Some(if h.doc.ocrDispatchedAt.None? then Starting else LoadingPages), h.before, h.doc.id, []), h.moves,
           At(None, h.after, h.doc.id, h.jobs), h.before, h.after, h.doc.id)
       case Extracting =>
         && |h.moves| == 1 && h.jobs == [] && h.moves[0].choice.Sql? && OthersWroteRow(h.before[h.doc.id], h.moves[0].seen)
         && h.after[h.doc.id] == (if h.moves[0].choice.o.applied then BackInQueue(h.moves[0].seen, h.moves[0].now) else h.moves[0].seen)
       case _ => h.after == h.before && h.moves == [] && h.jobs == []
  }

  /** From start to end by dealing with these entries. */
  predicate Attended(start: map<DocId, Record>, handled: seq<Handled>, end: map<DocId, Record>) {
    if handled == [] then start == end
    else
      var h := handled[|handled| - 1];
      Attended(start, handled[..|handled| - 1], h.before) && h.after == end
  }

  lemma AttendedOne(start: map<DocId, Record>, handled: seq<Handled>, h: Handled)
    requires Attended(start, handled, h.before)
    ensures Attended(start, handled + [h], h.after)
  {
    assert (handled + [h])[..|handled|] == handled;
  }

  /** The jobs that were sent while dealing with these entries. */
  function SentFor(handled: seq<Handled>): seq<JobRequest> {
    if handled == [] then []
    else SentFor(handled[..|handled| - 1]) + Requests(handled[|handled| - 1].doc.id, handled[|handled| - 1].jobs)
  }

  lemma SentForOne(handled: seq<Handled>, h: Handled)
    ensures SentFor(handled + [h]) == SentFor(handled) + Requests(h.doc.id, h.jobs)
  {
    assert (handled + [h])[..|handled|] == handled;
  }

  /** The janitor has dealt with each of the listed documents, in their order. */
  ghost predicate DealtWith(alone: bool, list: seq<Document>, handled: seq<Handled>) {
    && |handled| == |list|
    && forall i :: 0 <= i < |list| ==> handled[i].doc == list[i] && HandledRight(alone, handled[i])
  }

  lemma DealtWithOne(alone: bool, list: seq<Document>, handled: seq<Handled>, doc: Document, h: Handled)
    requires DealtWith(alone, list, handled) && h.doc == doc && HandledRight(alone, h)
    ensures DealtWith(alone, list + [doc], handled + [h])
  {}

  /** After i documents of the list: each dealt with in its turn, from start to rows, and their jobs sent. */
  ghost predicate Handling(alone: bool, start: map<DocId, Record>, list: seq<Document>, i: nat, handled: seq<Handled>,
                           rows: map<DocId, Record>, sent: seq<JobRequest>, delivered: seq<JobRequest>) {
    && i <= |list| && DealtWith(alone, list[..i], handled) && Attended(start, handled, rows)
    && delivered == sent + SentFor(handled)
  }
}
