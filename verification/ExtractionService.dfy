/**
 The extraction service as the code runs it: one claimed document, from its ocr_results rows to a
 stored aggregate or back to the queue. Each run is a path of the worker machine of `Pipeline`.
 */
module ExtractionService {
  import opened Wrappers
  import opened Aggregate
  import opened Normalize
  import opened Schema
  import opened Tables
  import opened Pipeline
  import opened DocumentStore
  import opened Ingest
  import Backoff

  // ---------- paths of a worker ----------

  datatype WorkAt = WorkAt(pc: Option<WorkerPc>, rec: Record)

  predicate CanWork(at: WorkAt, m: Move) {
    at.pc.Some? && WorkerEnabled(at.pc.value, m.seen, m.choice)
  }

  function WorkedOn(at: WorkAt, attempt: nat, m: Move): WorkAt
    requires CanWork(at, m)
  {
    var step := NextWorker(at.pc.value, attempt, m.seen, m.choice, m.now);
    WorkAt(step.next, step.rec)
  }

  /** The rows a move finds are those that the last one left, or what others have made of them since. */
  function AdvanceWork(at: WorkAt, attempt: nat, m: Move): Option<WorkAt> {
    if CanWork(at, m) && OthersWroteRow(at.rec, m.seen) then Some(WorkedOn(at, attempt, m)) else None
  }

  function FollowWork(start: WorkAt, attempt: nat, moves: seq<Move>): Option<WorkAt> {
    if moves == [] then Some(start)
    else
      var before := FollowWork(start, attempt, moves[..|moves| - 1]);
      if before.Some? then AdvanceWork(before.value, attempt, moves[|moves| - 1]) else None
  }

  /** The worker on document id has come to `at`, every move made on the rows as it found them. */
  ghost predicate Worked(alone: bool, start: WorkAt, attempt: nat, moves: seq<Move>, at: WorkAt,
                         before: map<DocId, Record>, after: map<DocId, Record>, id: DocId) {
    FollowWork(start, attempt, moves) == Some(at) && Brought(alone, at.rec, before, after, id)
  }

  lemma WorkedNowhere(alone: bool, rows: map<DocId, Record>, at: WorkAt, attempt: nat, id: DocId)
    requires id in rows && at.rec == rows[id]
    ensures Worked(alone, at, attempt, [], at, rows, rows, id)
  {
    BroughtNothing(alone, rows, id);
  }

  /** One more move, on the rows that it finds. */
  lemma WorkedOne(alone: bool, start: WorkAt, attempt: nat, moves: seq<Move>, at: WorkAt, before: map<DocId, Record>,
                  rows: map<DocId, Record>, id: DocId, seen: map<DocId, Record>, m: Move)
    requires Worked(alone, start, attempt, moves, at, before, rows, id) && Found(alone, rows, seen)
    requires id in seen && m.seen == seen[id] && CanWork(at, m)
    ensures var next := WorkedOn(at, attempt, m);
      Worked(alone, start, attempt, moves + [m], next, before, seen[id := next.rec], id)
    ensures alone ==> seen[id] == at.rec
  {
    SeenRow(alone, at.rec, before, rows, id, seen);
    WorkKeepsAttempts(at.pc.value, attempt, m.seen, m.choice, m.now);
    BroughtMore(alone, at.rec, before, rows, id, seen, WorkedOn(at, attempt, m).rec);
    assert (moves + [m])[..|moves|] == moves;
  }

  /** No move of a worker touches the attempts, deletes a text or changes which document it is: only claims count. */
  lemma WorkKeepsAttempts(w: WorkerPc, attempt: nat, r: Record, ch: Choice, now: Time)
    requires WorkerEnabled(w, r, ch)
    ensures var t := NextWorker(w, attempt, r, ch, now).rec;
      OthersWroteRow(r, t) && t.doc.extractionAttempts == r.doc.extractionAttempts
  {
    match w {
      case Saving(content) => ExecuteIsAllowed(SaveAggregate(attempt, content), ch.o, now, r);
      case Completing => ExecuteIsAllowed(UpdateStatus(Extracting, Extracted), ch.o, now, r);
      case Requeueing => ExecuteIsAllowed(ReturnForRetry(Backoff.RetryBackoff(attempt)), ch.o, now, r);
      case Abandoning(message) => ExecuteIsAllowed(MarkFailed(Extracting, ExtractionStage, message), ch.o, now, r);
      case _ =>
    }
  }

  // ---------- the text of a document ----------

  function Decimal(n: nat): string {
    if n < 10 then [('0' as int + n) as char] else Decimal(n / 10) + [('0' as int + n % 10) as char]
  }

  /** The section of one page. */
  function Section(row: Row<string>): string {
    "--- P\U{E1}gina " + Decimal(row.number) + " ---\n" + row.value + "\n"
  }

  function Sections(rows: seq<Row<string>>): string {
    if rows == [] then "" else Sections(rows[..|rows| - 1]) + Section(rows[|rows| - 1])
  }

  method BuildText(rows: seq<Row<string>>) returns (text: string)
    ensures text == Sections(rows)
  {
    text := "";
    for i := 0 to |rows|
      invariant text == Sections(rows[..i])
    {
      assert rows[..i + 1][..i] == rows[..i];
      text := text + Section(rows[i]);
    }
    assert rows[..|rows|] == rows;
  }

  /** An extraction error: worth another attempt, or not. */
  datatype Failure = Transient | Final(message: string)

  /** The text of a document: its sections in page order. */
  function TextOf(ocr: map<nat, string>): string {
    Sections(RowsOf(ocr))
  }

  class Service {
    const docs: Documents
    const matriculas: Aggregates

    constructor (docs: Documents, matriculas: Aggregates)
      requires docs.pool == matriculas.pool
      ensures this.docs == docs && this.matriculas == matriculas && Valid()
    {
      this.docs, this.matriculas := docs, matriculas;
    }

    ghost predicate Valid() {
      docs.pool == matriculas.pool
    }

    /** Reads the text of a document as the query finds it. */
    method Load(id: DocId, attempt: nat, fine: bool) returns (err: Option<Failure>, text: string, ghost m: Move)
      requires Valid() && id in docs.pool.rows
      modifies docs.pool
      ensures docs.pool.now >= old(docs.pool.now) && id in docs.pool.rows && m.seen == docs.pool.rows[id]
      ensures docs.pool.alone ==> docs.pool.rows == old(docs.pool.rows)
      ensures Worked(docs.pool.alone, WorkAt(Some(Loading), old(docs.pool.rows)[id]), attempt, [m],
        WorkAt(Some(if err.Some? then Pending(err.value) else Asking), docs.pool.rows[id]),
        old(docs.pool.rows), docs.pool.rows, id)
      ensures err.None? ==> text == TextOf(m.seen.ocr) && m.choice == Read(true) && m.seen.ocr != map[]
      ensures m.choice == Read(true) && m.seen.ocr != map[] ==> err.None?
      ensures fine ==> m.choice == Read(true) && (m.seen.ocr == map[] ==> err == Some(Final(NO_ROWS)))
    {
      ghost var before := docs.pool.rows;
      var readable: bool :| fine ==> readable;
      var results, seen := matriculas.ResultsByDocument(id, readable);
      m := ReadMove(docs.pool.alone, before, seen, id, attempt, readable);
      if results.Failure? {
        return Some(Transient), "", m;
      }
      RowsExist(seen[id].ocr);
      if |results.value| == 0 {
        return Some(Final(NO_ROWS)), "", m;
      }
      text := BuildText(results.value);
      err := None;
    }

    /** Asks the LLM; the error itself says whether it is transient. */
    method Ask(id: DocId, attempt: nat, text: string, llm: string -> Result<ExtractedMatricula, Failure>)
      returns (r: Result<ExtractedMatricula, Failure>, ghost m: Move)
      requires id in docs.pool.rows
      ensures r == llm(text) && Heard(r, m.choice)
      ensures Worked(docs.pool.alone, WorkAt(Some(Asking), docs.pool.rows[id]), attempt, [m],
        WorkAt(Some(Pondered(r)), docs.pool.rows[id]), docs.pool.rows, docs.pool.rows, id)
    {
      r := llm(text);
      m := AskMove(docs.pool.alone, docs.pool.rows, id, attempt, r);
    }

    /** Normalizes the answer in place and stores it. */
    method Persist(id: DocId, attempt: nat, answer: ExtractedMatricula, fine: bool)
      returns (content: ExtractedMatricula, ok: bool, ghost m: Move)
      requires Valid() && id in docs.pool.rows
      modifies docs.pool
      ensures docs.pool.now >= old(docs.pool.now) && id in docs.pool.rows
      ensures content == Normalized(answer)
      ensures Worked(docs.pool.alone, WorkAt(Some(Saving(content)), old(docs.pool.rows)[id]), attempt, [m],
        WorkAt(Some(if ok then Completing else Requeueing), docs.pool.rows[id]),
        old(docs.pool.rows), docs.pool.rows, id)
      ensures docs.pool.rows[id].doc == m.seen.doc
      ensures docs.pool.alone ==> m.seen == old(docs.pool.rows)[id]
      ensures ok ==> docs.pool.rows[id].extractions == m.seen.extractions + [Extraction(attempt, content)]
      ensures fine && Storable(content) ==> ok
      ensures !Storable(content) ==> !ok && docs.pool.rows[id] == m.seen
    {
      ghost var before := docs.pool.rows;
      var draft := new ExtractionDraft(answer);
      draft.Normalize();
      content := draft.Value();
      var o := SomeReply(fine);
      ghost var seen;
      ok, seen := matriculas.SaveAggregate(id, attempt, content, o);
      m := SaveMove(docs.pool.alone, before, seen, id, attempt, content, Committed(content, o), docs.pool.now);
    }

    /** Moves the document to extracted; a document that has left extracting is left alone. */
    method Complete(id: DocId, attempt: nat, fine: bool) returns (ok: bool, ghost m: Move)
      requires id in docs.pool.rows
      modifies docs.pool
      ensures docs.pool.now >= old(docs.pool.now) && id in docs.pool.rows
      ensures Worked(docs.pool.alone, WorkAt(Some(Completing), old(docs.pool.rows)[id]), attempt, [m],
        WorkAt(if ok then None else Some(Requeueing), docs.pool.rows[id]), old(docs.pool.rows), docs.pool.rows, id)
      ensures fine ==> ok
      ensures docs.pool.rows[id].extractions == m.seen.extractions
      ensures docs.pool.alone ==> m.seen == old(docs.pool.rows)[id]
      ensures fine && m.seen.doc.status == Extracting ==> docs.pool.rows[id].doc.status == Extracted
    {
      ghost var alone, before := docs.pool.alone, docs.pool.rows;
      ghost var start := WorkAt(Some(Completing), before[id]);
      WorkedNowhere(alone, before, start, attempt, id);
      var o := SomeReply(fine);
      var moved, seen := docs.UpdateStatus(id, Extracting, Extracted, o);
      ok := moved.Success?;
      m := Move(Sql(o), docs.pool.now, seen[id]);
      WorkedOne(alone, start, attempt, [], start, before, before, id, seen, m);
      assert [] + [m] == [m];
    }

    /** After a transient error the document goes back to the queue, after any other it fails. */
    method Handle(id: DocId, attempt: nat, err: Failure, fine: bool) returns (ghost m: Move)
      requires id in docs.pool.rows
      modifies docs.pool
      ensures docs.pool.now >= old(docs.pool.now) && id in docs.pool.rows
      ensures fine && docs.pool.alone && old(docs.pool.rows)[id].doc.status == Extracting ==>
        GivenUp(old(docs.pool.rows)[id], docs.pool.rows[id], attempt, err)
      ensures Worked(docs.pool.alone, WorkAt(Some(Pending(err)), old(docs.pool.rows)[id]),
        attempt, [m], WorkAt(None, docs.pool.rows[id]), old(docs.pool.rows), docs.pool.rows, id)
    {
      ghost var alone, before := docs.pool.alone, docs.pool.rows;
      ghost var start := WorkAt(Some(Pending(err)), before[id]);
      WorkedNowhere(alone, before, start, attempt, id);
      var o := SomeReply(fine);
      ghost var seen;
      if err.Transient? {
        var ok;
        ok, seen := docs.ReturnForRetry(id, Backoff.RetryBackoff(attempt), o);
        Backoff.BackoffIsIdealIff(attempt);
      } else {
        var r;
        r, seen := docs.MarkFailed(id, Extracting, ExtractionStage, err.message, o);
      }
      m := Move(Sql(o), docs.pool.now, seen[id]);
      WorkedOne(alone, start, attempt, [], start, before, before, id, seen, m);
      assert [] + [m] == [m];
    }

    /** The LLM's answer to the document's text in page order. */
    method Answer(id: DocId, attempt: nat, llm: string -> Result<ExtractedMatricula, Failure>, fine: bool)
      returns (r: Result<ExtractedMatricula, Failure>, ghost moves: seq<Move>)
      requires Valid() && id in docs.pool.rows
      modifies docs.pool
      ensures docs.pool.now >= old(docs.pool.now) && id in docs.pool.rows
      ensures docs.pool.alone ==> docs.pool.rows == old(docs.pool.rows)
      ensures Worked(docs.pool.alone, WorkAt(Some(Loading), old(docs.pool.rows)[id]), attempt, moves,
        WorkAt(Some(Pondered(r)), docs.pool.rows[id]), old(docs.pool.rows), docs.pool.rows, id)
      ensures Listened(moves, llm) && (r.Success? ==> |moves| == 2 && Answers(moves, llm, r.value))
      ensures r.Success? && docs.pool.alone ==> llm(TextOf(old(docs.pool.rows)[id].ocr)) == r
      ensures fine && docs.pool.alone ==>
        r == if old(docs.pool.rows)[id].ocr == map[] then Failure(Final(NO_ROWS)) else llm(TextOf(old(docs.pool.rows)[id].ocr))
    {
      ghost var alone, before := docs.pool.alone, docs.pool.rows;
      var err, text, load := Load(id, attempt, fine);
      if err.Some? {
        return Failure(err.value), [load];
      }
      ghost var rows := docs.pool.rows;
      ghost var ask;
      r, ask := Ask(id, attempt, text, llm);
      WorkedMany(alone, WorkAt(Some(Loading), before[id]), attempt, [load], WorkAt(Some(Asking), rows[id]), before, rows, id,
        [ask], WorkAt(Some(Pondered(r)), rows[id]), rows);
      moves := [load] + [ask];
    }

    /** Stores the normalized answer and completes the document. */
    method Store(id: DocId, attempt: nat, answer: ExtractedMatricula, fine: bool) returns (ok: bool, ghost moves: seq<Move>)
      requires Valid() && id in docs.pool.rows
      modifies docs.pool
      ensures docs.pool.now >= old(docs.pool.now) && id in docs.pool.rows
      ensures Worked(docs.pool.alone, WorkAt(Some(Saving(Normalized(answer))), old(docs.pool.rows)[id]), attempt, moves,
        WorkAt(if ok then None else Some(Requeueing), docs.pool.rows[id]), old(docs.pool.rows), docs.pool.rows, id)
      ensures ok ==> |moves| == 2
      ensures ok && docs.pool.alone ==> Current(docs.pool.rows[id]) == Some(Extraction(attempt, Normalized(answer)))
      ensures fine && Storable(Normalized(answer)) ==> ok
      ensures !Storable(Normalized(answer)) ==> !ok && (docs.pool.alone ==> docs.pool.rows[id] == old(docs.pool.rows)[id])
      ensures fine && docs.pool.alone && Storable(Normalized(answer)) && old(docs.pool.rows)[id].doc.status == Extracting ==>
        docs.pool.rows[id].doc.status == Extracted
    {
      ghost var alone, before := docs.pool.alone, docs.pool.rows;
      var content, saved, persist := Persist(id, attempt, answer, fine);
      if !saved {
        return false, [persist];
      }
      ghost var rows := docs.pool.rows;
      ghost var complete;
      ok, complete := Complete(id, attempt, fine);
      WorkedMany(alone, WorkAt(Some(Saving(content)), before[id]), attempt, [persist], WorkAt(Some(Completing), rows[id]),
        before, rows, id, [complete], WorkAt(if ok then None else Some(Requeueing), docs.pool.rows[id]), docs.pool.rows);
      moves := [persist] + [complete];
    }

    /** From the text to the stored aggregate; an error says what becomes of the document. */
    method Extract(id: DocId, attempt: nat, llm: string -> Result<ExtractedMatricula, Failure>, fine: bool)
      returns (err: Option<Failure>, ghost moves: seq<Move>)
      requires Valid() && id in docs.pool.rows
      modifies docs.pool
      ensures docs.pool.now >= old(docs.pool.now) && id in docs.pool.rows
      ensures Worked(docs.pool.alone, WorkAt(Some(Loading), old(docs.pool.rows)[id]), attempt, moves,
        WorkAt(if err.Some? then Some(Pending(err.value)) else None, docs.pool.rows[id]),
        old(docs.pool.rows), docs.pool.rows, id)
      ensures err.None? ==> |moves| == 4 && exists answer :: Answers(moves, llm, answer)
      ensures err.None? && docs.pool.alone ==>
        Stored(docs.pool.rows[id], attempt, llm(TextOf(old(docs.pool.rows)[id].ocr)))
      ensures Listened(moves, llm)
      ensures fine && docs.pool.alone && old(docs.pool.rows)[id].doc.status == Extracting ==>
        if err.None? then Done(old(docs.pool.rows)[id], docs.pool.rows[id], attempt, llm)
        else docs.pool.rows[id] == old(docs.pool.rows)[id] && Refused(docs.pool.rows[id], llm, err.value)
    {
      ghost var alone, before := docs.pool.alone, docs.pool.rows;
      var answer;
      answer, moves := Answer(id, attempt, llm, fine);
      if answer.Failure? {
        return Some(answer.error), moves;
      }
      ghost var rows := docs.pool.rows;
      var ok, store := Store(id, attempt, answer.value, fine);
      WorkedMany(alone, WorkAt(Some(Loading), before[id]), attempt, moves, WorkAt(Some(Pondered(answer)), rows[id]),
        before, rows, id, store, WorkAt(if ok then None else Some(Requeueing), docs.pool.rows[id]), docs.pool.rows);
      AnswersMore(moves, store, llm, answer.value);
      ListenedMore(moves, store, llm);
      moves := moves + store;
      err := if ok then None else Some(Transient);
    }

    /**
     One claimed document. Whatever others write meanwhile, the run is a path of the worker machine
     under the token that the claim issued, and what it hears is the LLM's answer to the text it read.
     Alone and without a fault, that answer decides the document's end.
     */
    method ExtractDocument(doc: Document, llm: string -> Result<ExtractedMatricula, Failure>, fine: bool)
      returns (ghost moves: seq<Move>)
      requires Valid() && doc.id in docs.pool.rows
      modifies docs.pool
      ensures docs.pool.now >= old(docs.pool.now) && doc.id in docs.pool.rows
      ensures Worked(docs.pool.alone, WorkAt(Some(Loading), old(docs.pool.rows)[doc.id]), doc.extractionAttempts, moves,
        WorkAt(None, docs.pool.rows[doc.id]), old(docs.pool.rows), docs.pool.rows, doc.id)
      ensures Listened(moves, llm) && Ends(moves, docs.pool.rows[doc.id], doc.extractionAttempts)
      ensures fine && docs.pool.alone && old(docs.pool.rows)[doc.id].doc.status == Extracting ==>
        Treated(old(docs.pool.rows)[doc.id], docs.pool.rows[doc.id], doc.extractionAttempts, llm)
    {
      ghost var alone, before := docs.pool.alone, docs.pool.rows;
      var err;
      err, moves := Extract(doc.id, doc.extractionAttempts, llm, fine);
      if err.Some? {
        ghost var rows := docs.pool.rows;
        ghost var last := Handle(doc.id, doc.extractionAttempts, err.value, fine);
        WorkedMany(alone, WorkAt(Some(Loading), before[doc.id]), doc.extractionAttempts, moves,
          WorkAt(Some(Pending(err.value)), rows[doc.id]), before, rows, doc.id, [last],
          WorkAt(None, docs.pool.rows[doc.id]), docs.pool.rows);
        ListenedMore(moves, [last], llm);
        moves := moves + [last];
      }
      WorkEnds(WorkAt(Some(Loading), before[doc.id]), doc.extractionAttempts, moves, WorkAt(None, docs.pool.rows[doc.id]));
    }
  }

  // ---------- what becomes of a claimed document ----------

  /** The choice is the LLM's answer; an error is transient exactly when the LLM says so. */
  predicate Heard(r: Result<ExtractedMatricula, Failure>, ch: Choice) {
    match r
    case Success(answer) => ch == Choice.Answer(answer)
    case Failure(Transient) => ch.AnswerError? && ch.transient
    case Failure(Final(message)) => ch == AnswerError(false, message)
  }

  /** Once text has been read, the next move is the LLM's answer to exactly that text. */
  predicate Listened(moves: seq<Move>, llm: string -> Result<ExtractedMatricula, Failure>) {
    && moves != []
    && (moves[0].choice == Read(true) && moves[0].seen.ocr != map[] ==>
          |moves| >= 2 && Heard(llm(TextOf(moves[0].seen.ocr)), moves[1].choice))
  }

  lemma ListenedMore(moves: seq<Move>, more: seq<Move>, llm: string -> Result<ExtractedMatricula, Failure>)
    requires Listened(moves, llm)
    ensures Listened(moves + more, llm)
  {
    assert (moves + more)[0] == moves[0] && (|moves| >= 2 ==> (moves + more)[1] == moves[1]);
  }

  /**
   After a transient error the document is back in the queue, claimable when the promised delay has
   passed; after any other it has failed at extraction with the error's message.
   */
  predicate GivenUp(before: Record, after: Record, attempt: nat, err: Failure) {
    && after.extractions == before.extractions && after.ocr == before.ocr
    && match err
       case Transient =>
         && after.doc.status == OCRDone
         && after.doc.nextExtractionAt == Some(after.doc.updatedAt + Backoff.RetryBackoff(attempt))
         && (attempt <= 29 ==> after.doc.nextExtractionAt == Some(after.doc.updatedAt + Backoff.IdealBackoff(attempt)))
       case Final(message) =>
         && after.doc.status == Failed
         && after.doc.failedStage == Some(ExtractionStage) && after.doc.errorMessage == Some(message)
  }

  /** The document is extracted, with the normalized answer to its text, saved under the claim's token. */
  predicate Done(before: Record, after: Record, attempt: nat, llm: string -> Result<ExtractedMatricula, Failure>) {
    Extractable(before, llm) && after.doc.status == Extracted && Stored(after, attempt, llm(TextOf(before.ocr)))
  }

  /** Why an extraction gives up: no text, the LLM's own error, or an answer that the schema rejects. */
  predicate Refused(r: Record, llm: string -> Result<ExtractedMatricula, Failure>, err: Failure) {
    if r.ocr == map[] then err == Final(NO_ROWS)
    else match llm(TextOf(r.ocr))
      case Success(answer) => !Storable(Normalized(answer)) && err.Transient?
      case Failure(error) => err == error
  }

  /** What becomes of a claimed document when nobody interferes and nothing fails. */
  ghost predicate Treated(before: Record, after: Record, attempt: nat, llm: string -> Result<ExtractedMatricula, Failure>) {
    Done(before, after, attempt, llm)
    || (!Extractable(before, llm) && exists err :: Refused(before, llm, err) && GivenUp(before, after, attempt, err))
  }

  /** What is left to do with an answer. */
  function Pondered(r: Result<ExtractedMatricula, Failure>): WorkerPc {
    if r.Success? then Saving(Normalized(r.value)) else Pending(r.error)
  }

  /** The answer a path goes on with is the LLM's to the text in page order, as the first move found it. */
  predicate Answers(moves: seq<Move>, llm: string -> Result<ExtractedMatricula, Failure>, answer: ExtractedMatricula) {
    |moves| >= 2 && llm(TextOf(moves[0].seen.ocr)) == Success(answer) && moves[1].choice == Choice.Answer(answer)
  }

  lemma AnswersMore(moves: seq<Move>, more: seq<Move>, llm: string -> Result<ExtractedMatricula, Failure>, answer: ExtractedMatricula)
    requires Answers(moves, llm, answer)
    ensures Answers(moves + more, llm, answer)
  {
    assert (moves + more)[0] == moves[0] && (moves + more)[1] == moves[1];
  }

  /** The current aggregate is the normalized answer, saved under the claim's token. */
  predicate Stored(r: Record, attempt: nat, answer: Result<ExtractedMatricula, Failure>) {
    answer.Success? && Current(r) == Some(Extraction(attempt, Normalized(answer.value)))
  }

  /** The document is claimed, has text, and the LLM answers that text with something the schema takes. */
  predicate Extractable(r: Record, llm: string -> Result<ExtractedMatricula, Failure>) {
    && r.doc.status == Extracting && r.ocr != map[]
    && llm(TextOf(r.ocr)).Success? && Storable(Normalized(llm(TextOf(r.ocr)).value))
  }

  /** What is left to do after an error. */
  function Pending(err: Failure): WorkerPc {
    match err
    case Transient => Requeueing
    case Final(message) => Abandoning(message)
  }

  lemma WorkedMany(alone: bool, start: WorkAt, attempt: nat, moves: seq<Move>, at: WorkAt, before: map<DocId, Record>,
                   rows: map<DocId, Record>, id: DocId, more: seq<Move>, end: WorkAt, after: map<DocId, Record>)
    requires Worked(alone, start, attempt, moves, at, before, rows, id)
    requires Worked(alone, at, attempt, more, end, rows, after, id)
    ensures Worked(alone, start, attempt, moves + more, end, before, after, id)
  {
    FollowWorkMany(start, attempt, moves, at, more);
    BroughtMany(alone, at.rec, before, rows, id, end.rec, after);
  }

  lemma {:induction false} FollowWorkMany(start: WorkAt, attempt: nat, moves: seq<Move>, at: WorkAt, more: seq<Move>)
    requires FollowWork(start, attempt, moves) == Some(at)
    ensures FollowWork(start, attempt, moves + more) == FollowWork(at, attempt, more)
  {
    if more == [] {
      assert moves + more == moves;
    } else {
      var n := |more| - 1;
      FollowWorkMany(start, attempt, moves, at, more[..n]);
      assert (moves + more)[..|moves + more| - 1] == moves + more[..n];
    }
  }

  lemma SaveMove(alone: bool, before: map<DocId, Record>, seen: map<DocId, Record>, id: DocId, attempt: nat,
                 content: ExtractedMatricula, o: Reply, now: Time) returns (m: Move)
    requires id in before && id in seen && Found(alone, before, seen) && (o.applied ==> Storable(content))
    ensures m.seen == seen[id] && (alone ==> seen[id] == before[id])
    ensures var after := Written(SaveAggregate(attempt, content), o, now, seen, id);
      && after[id].doc == seen[id].doc
      && (o.acked ==> after[id].extractions == seen[id].extractions + [Extraction(attempt, content)])
      && (!o.applied ==> after[id] == seen[id])
      && Worked(alone, WorkAt(Some(Saving(content)), before[id]), attempt, [m],
           WorkAt(Some(if o.acked then Completing else Requeueing), after[id]), before, after, id)
  {
    var start := WorkAt(Some(Saving(content)), before[id]);
    m := Move(Sql(o), now, seen[id]);
    WorkedNowhere(alone, before, start, attempt, id);
    WorkedOne(alone, start, attempt, [], start, before, before, id, seen, m);
    assert [] + [m] == [m];
  }

  function Answered(r: Result<ExtractedMatricula, Failure>): Choice {
    match r
    case Success(answer) => Choice.Answer(answer)
    case Failure(Transient) => AnswerError(true, "")
    case Failure(Final(message)) => AnswerError(false, message)
  }

  lemma AskStep(rec: Record, attempt: nat, r: Result<ExtractedMatricula, Failure>)
    ensures var at, m := WorkAt(Some(Asking), rec), Move(Answered(r), 0, rec);
      CanWork(at, m) && WorkedOn(at, attempt, m) == WorkAt(Some(Pondered(r)), rec)
  {}

  lemma AskMove(alone: bool, rows: map<DocId, Record>, id: DocId, attempt: nat, r: Result<ExtractedMatricula, Failure>)
    returns (m: Move)
    requires id in rows
    ensures Heard(r, m.choice)
    ensures Worked(alone, WorkAt(Some(Asking), rows[id]), attempt, [m], WorkAt(Some(Pondered(r)), rows[id]), rows, rows, id)
  {
    var start := WorkAt(Some(Asking), rows[id]);
    m := Move(Answered(r), 0, rows[id]);
    AskStep(rows[id], attempt, r);
    StayMove(alone, rows, start, attempt, id, m, WorkAt(Some(Pondered(r)), rows[id]));
  }

  /** A move that writes nothing. */
  lemma StayMove(alone: bool, rows: map<DocId, Record>, start: WorkAt, attempt: nat, id: DocId, m: Move, next: WorkAt)
    requires id in rows && start.rec == rows[id] == m.seen == next.rec && CanWork(start, m) && WorkedOn(start, attempt, m) == next
    ensures Worked(alone, start, attempt, [m], next, rows, rows, id)
  {
    WorkedNowhere(alone, rows, start, attempt, id);
    FoundSame(alone, rows);
    WorkedOne(alone, start, attempt, [], start, rows, rows, id, rows, m);
    assert [] + [m] == [m] && rows[id := rows[id]] == rows;
  }

  lemma ReadMove(alone: bool, before: map<DocId, Record>, seen: map<DocId, Record>, id: DocId, attempt: nat, readable: bool)
    returns (m: Move)
    requires id in before && id in seen && Found(alone, before, seen)
    ensures m.seen == seen[id] && m.choice == Read(readable)
    ensures Worked(alone, WorkAt(Some(Loading), before[id]), attempt, [m],
      WorkAt(NextWorker(Loading, attempt, seen[id], Read(readable), 0).next, seen[id]), before, seen, id)
  {
    var start := WorkAt(Some(Loading), before[id]);
    m := Move(Read(readable), 0, seen[id]);
    WorkedNowhere(alone, before, start, attempt, id);
    WorkedOne(alone, start, attempt, [], start, before, before, id, seen, m);
    assert [] + [m] == [m] && seen[id := seen[id]] == seen;
  }

  // ---------- how a run ends ----------

  /** The last statement puts the document back in the queue after the delay of this attempt, if it is still extracting. */
  predicate PutBack(m: Move, after: Record, attempt: nat) {
    && m.choice.Sql?
    && after == if m.choice.o.applied && m.seen.doc.status == Extracting
         then m.seen.(doc := m.seen.doc.(
           status := OCRDone, nextExtractionAt := Some(m.now + Backoff.RetryBackoff(attempt)), updatedAt := m.now))
         else m.seen
  }

  /** It fails the document with this message, if it is still extracting. */
  predicate GaveUpOn(m: Move, after: Record, message: string) {
    && m.choice.Sql?
    && after == if m.choice.o.applied && m.seen.doc.status == Extracting
         then m.seen.(doc := m.seen.doc.(
           status := Failed, failedStage := Some(ExtractionStage), errorMessage := Some(message), updatedAt := m.now))
         else m.seen
  }

  /** It has moved the document to extracted, if it was still extracting, and was acknowledged. */
  predicate Finished(m: Move, after: Record) {
    && m.choice.Sql? && m.choice.o.acked
    && after == if m.seen.doc.status == Extracting
         then m.seen.(doc := m.seen.doc.(status := Extracted, updatedAt := m.now)) else m.seen
  }

  /**
   The runs there are. A query that fails, an error the LLM calls transient, a save or a completion without
   an acknowledgement puts the document back; no text, or any other error of the LLM, gives it up; it is
   finished exactly when the save and then the completion are acknowledged.
   */
  predicate Ends(moves: seq<Move>, after: Record, attempt: nat) {
    && |moves| >= 2 && moves[0].choice.Read?
    && if !moves[0].choice.ok then |moves| == 2 && PutBack(moves[1], after, attempt)
       else if moves[0].seen.ocr == map[] then |moves| == 2 && GaveUpOn(moves[1], after, NO_ROWS)
       else if moves[1].choice.AnswerError? then
         |moves| == 3 && if moves[1].choice.transient then PutBack(moves[2], after, attempt)
                         else GaveUpOn(moves[2], after, moves[1].choice.message)
       else
         && moves[1].choice.Answer? && |moves| >= 4 && moves[2].choice.Sql?
         && if !moves[2].choice.o.acked then |moves| == 4 && PutBack(moves[3], after, attempt)
            else moves[3].choice.Sql? && if moves[3].choice.o.acked then |moves| == 4 && Finished(moves[3], after)
                                         else |moves| == 5 && PutBack(moves[4], after, attempt)
  }

  lemma {:induction false} FirstWork(start: WorkAt, attempt: nat, moves: seq<Move>)
    requires moves != [] && FollowWork(start, attempt, moves).Some?
    ensures CanWork(start, moves[0])
    ensures FollowWork(WorkedOn(start, attempt, moves[0]), attempt, moves[1..]) == FollowWork(start, attempt, moves)
  {
    var n := |moves| - 1;
    if n > 0 {
      FirstWork(start, attempt, moves[..n]);
      assert moves[..n][1..] == moves[1..][..n - 1];
    } else {
      assert moves[..0] == [] && moves[1..] == [];
    }
  }

  predicate FinalStatement(w: WorkerPc) {
    w.Requeueing? || w.Abandoning?
  }

  /** The last two kinds of statement end the run. */
  lemma EndsNow(start: WorkAt, attempt: nat, moves: seq<Move>, end: WorkAt)
    requires start.pc.Some? && FinalStatement(start.pc.value) && FollowWork(start, attempt, moves) == Some(end) && end.pc.None?
    ensures |moves| == 1
    ensures start.pc.value.Requeueing? ==> PutBack(moves[0], end.rec, attempt)
    ensures start.pc.value.Abandoning? ==> GaveUpOn(moves[0], end.rec, start.pc.value.message)
  {
    FirstWork(start, attempt, moves);
    if |moves| > 1 {
      FirstWork(WorkedOn(start, attempt, moves[0]), attempt, moves[1..]);
      assert false;
    }
  }

  lemma EndsCompleting(start: WorkAt, attempt: nat, moves: seq<Move>, end: WorkAt)
    requires start.pc == Some(Completing) && FollowWork(start, attempt, moves) == Some(end) && end.pc.None?
    ensures |moves| >= 1 && moves[0].choice.Sql?
    ensures if moves[0].choice.o.acked then |moves| == 1 && Finished(moves[0], end.rec)
      else |moves| == 2 && PutBack(moves[1], end.rec, attempt)
  {
    FirstWork(start, attempt, moves);
    if !moves[0].choice.o.acked {
      EndsNow(WorkedOn(start, attempt, moves[0]), attempt, moves[1..], end);
    } else if |moves| > 1 {
      FirstWork(WorkedOn(start, attempt, moves[0]), attempt, moves[1..]);
      assert false;
    }
  }

  lemma EndsSaving(start: WorkAt, attempt: nat, moves: seq<Move>, end: WorkAt)
    requires start.pc.Some? && start.pc.value.Saving? && FollowWork(start, attempt, moves) == Some(end) && end.pc.None?
    ensures |moves| >= 2 && moves[0].choice.Sql?
    ensures if !moves[0].choice.o.acked then |moves| == 2 && PutBack(moves[1], end.rec, attempt)
      else moves[1].choice.Sql? && if moves[1].choice.o.acked then |moves| == 2 && Finished(moves[1], end.rec)
                                   else |moves| == 3 && PutBack(moves[2], end.rec, attempt)
  {
    FirstWork(start, attempt, moves);
    var next := WorkedOn(start, attempt, moves[0]);
    if moves[0].choice.o.acked {
      EndsCompleting(next, attempt, moves[1..], end);
    } else {
      EndsNow(next, attempt, moves[1..], end);
    }
  }

  lemma EndsAsking(start: WorkAt, attempt: nat, moves: seq<Move>, end: WorkAt)
    requires start.pc == Some(Asking) && FollowWork(start, attempt, moves) == Some(end) && end.pc.None?
    ensures |moves| >= 2
    ensures if moves[0].choice.AnswerError? then
        |moves| == 2 && if moves[0].choice.transient then PutBack(moves[1], end.rec, attempt)
                        else GaveUpOn(moves[1], end.rec, moves[0].choice.message)
      else
        && moves[0].choice.Answer? && |moves| >= 3 && moves[1].choice.Sql?
        && if !moves[1].choice.o.acked then |moves| == 3 && PutBack(moves[2], end.rec, attempt)
           else moves[2].choice.Sql? && if moves[2].choice.o.acked then |moves| == 3 && Finished(moves[2], end.rec)
                                        else |moves| == 4 && PutBack(moves[3], end.rec, attempt)
  {
    FirstWork(start, attempt, moves);
    var next := WorkedOn(start, attempt, moves[0]);
    if moves[0].choice.Answer? {
      EndsSaving(next, attempt, moves[1..], end);
    } else {
      EndsNow(next, attempt, moves[1..], end);
    }
  }

  /** Every complete run of a worker is one of these. */
  lemma WorkEnds(start: WorkAt, attempt: nat, moves: seq<Move>, end: WorkAt)
    requires start.pc == Some(Loading) && FollowWork(start, attempt, moves) == Some(end) && end.pc.None?
    ensures Ends(moves, end.rec, attempt)
  {
    FirstWork(start, attempt, moves);
    var next := WorkedOn(start, attempt, moves[0]);
    RowsExist(moves[0].seen.ocr);
    if next.pc == Some(Asking) {
      EndsAsking(next, attempt, moves[1..], end);
    } else {
      EndsNow(next, attempt, moves[1..], end);
    }
  }

  const NO_ROWS := "document is ocr_done but has no ocr_results rows"
}
