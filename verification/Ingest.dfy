/**
 The OCR client and the ingest service as the code runs them, step by step, while others may write
 to the database between any two statements. Each method is tied to the protocol: what it does to its
 document is a path of the flow machine of `Pipeline`, with one move for each statement, query or post,
 each made on the rows as that statement finds them.
 */
module Ingest {
  import opened Wrappers
  import opened Seqs
  import opened Tables
  import opened Pipeline
  import opened DocumentStore

  const Fine := Outcome(true, true)

  // ---------- paths of a flow ----------

  /** One move of a flow: what the environment chose, when, and the document's rows at that moment. */
  datatype Move = Move(choice: Choice, now: Time, seen: Record)

  /** A flow on one document: where it stands, its rows, and the jobs delivered so far. */
  datatype FlowAt = FlowAt(pc: Option<FlowPc>, rec: Record, jobs: seq<seq<PageRef>>)

  predicate CanMove(at: FlowAt, m: Move) {
    at.pc.Some? && FlowEnabled(at.pc.value, m.seen, m.choice)
  }

  function Moved(at: FlowAt, m: Move): FlowAt
    requires CanMove(at, m)
  {
    var step := NextFlow(at.pc.value, m.seen, m.choice, m.now);
    FlowAt(step.next, step.rec, if step.posted.Some? then at.jobs + [step.posted.value] else at.jobs)
  }

  /** The rows a move finds are those that the last one left, or what others have made of them since. */
  function Advance(at: FlowAt, m: Move): Option<FlowAt> {
    if CanMove(at, m) && OthersWroteRow(at.rec, m.seen) then Some(Moved(at, m)) else None
  }

  lemma FlowIsAllowed(pc: FlowPc, r: Record, ch: Choice, now: Time)
    requires FlowEnabled(pc, r, ch)
    ensures OthersWroteRow(r, NextFlow(pc, r, ch, now).rec)
    ensures NextFlow(pc, r, ch, now).rec.doc.extractionAttempts == r.doc.extractionAttempts
  {}

  /** Where the moves lead, if each is possible in its turn. */
  function Follow(start: FlowAt, moves: seq<Move>): Option<FlowAt> {
    if moves == [] then Some(start)
    else
      var before := Follow(start, moves[..|moves| - 1]);
      if before.Some? then Advance(before.value, moves[|moves| - 1]) else None
  }

  lemma FollowOne(start: FlowAt, moves: seq<Move>, at: FlowAt, m: Move, next: FlowAt)
    requires Follow(start, moves) == Some(at) && Advance(at, m) == Some(next)
    ensures Follow(start, moves + [m]) == Some(next)
  {
    assert (moves + [m])[..|moves|] == moves;
  }

  lemma {:induction false} FollowMany(start: FlowAt, moves: seq<Move>, at: FlowAt, more: seq<Move>)
    requires Follow(start, moves) == Some(at)
    ensures Follow(start, moves + more) == Follow(at, more)
  {
    if more == [] {
      assert moves + more == moves;
    } else {
      var n := |more| - 1;
      FollowMany(start, moves, at, more[..n]);
      assert (moves + more)[..|moves + more| - 1] == moves + more[..n];
    }
  }

  /** No move changes which document it is or what its PDF converts to. */
  lemma {:induction false} FollowSameDocument(start: FlowAt, moves: seq<Move>)
    requires Follow(start, moves).Some?
    ensures var d := Follow(start, moves).value.rec.doc;
      d.id == start.rec.doc.id && d.pdfPages == start.rec.doc.pdfPages
  {
    if moves != [] {
      FollowSameDocument(start, moves[..|moves| - 1]);
      var at, m := Follow(start, moves[..|moves| - 1]).value, moves[|moves| - 1];
      FlowIsAllowed(at.pc.value, m.seen, m.choice, m.now);
    }
  }

  // ---------- the OCR client ----------

  datatype JobRequest = JobRequest(doc: DocId, pages: seq<PageRef>)

  function Requests(doc: DocId, jobs: seq<seq<PageRef>>): (r: seq<JobRequest>)
    ensures |r| == |jobs|
    ensures forall i :: 0 <= i < |r| ==> r[i] == JobRequest(doc, jobs[i])
  {
    seq(|jobs|, (i: nat) requires i < |jobs| => JobRequest(doc, jobs[i]))
  }

  class Client {
    /** The jobs the OCR service has started, in order. */
    var delivered: seq<JobRequest>
    const retries: nat := POST_ATTEMPTS

    constructor ()
      ensures delivered == []
    {
      delivered := [];
    }

    /** One POST. The service refuses an empty job; a reply may be lost after the job started. */
    method Post(req: JobRequest, fine: bool) returns (started: bool, ok: bool)
      modifies this
      ensures ok ==> started
      ensures started ==> req.pages != []
      ensures fine && req.pages != [] ==> ok
      ensures delivered == if started then old(delivered) + [req] else old(delivered)
    {
      started :| (started ==> req.pages != []) && (fine && req.pages != [] ==> started);
      ok :| (ok ==> started) && (fine && started ==> ok);
      if started {
        delivered := delivered + [req];
      }
    }

    /** Page numbers are positions, whatever the objects are called. */
    static method NumberPages(objects: seq<PageObject>) returns (pages: seq<PageRef>)
      ensures pages == JobPages(objects)
    {
      pages := [];
      for i := 0 to |objects|
        invariant |pages| == i && forall k :: 0 <= k < i ==> pages[k] == PageRef(k + 1, objects[k])
      {
        pages := pages + [PageRef(i + 1, objects[i])];
      }
    }

    /** One post of the job, and where it leaves the flow. */
    method Attempt(id: DocId, pages: seq<PageRef>, objects: seq<PageObject>, tries: nat, again: bool, fine: bool,
                   ghost first: seq<JobRequest>, ghost at: FlowAt, ghost moves: seq<Move>, ghost jobs: seq<seq<PageRef>>)
      returns (accepted: bool, ghost moved: seq<Move>, ghost more: seq<seq<PageRef>>)
      requires tries < POST_ATTEMPTS && pages == JobPages(objects)
      requires Follow(at, moves) == Some(Tried(at, objects, tries, again, jobs))
      requires SoFar(first, delivered, id, jobs, pages, tries)
      modifies this
      ensures SoFar(first, delivered, id, more, pages, tries + 1)
      ensures |moved| == |moves| + 1 && (AllTurnedDown(moves) ==> EndsWith(moves, moved, accepted))
      ensures accepted ==> more != [] && Follow(at, moved) == Some(Dispatched(at, again, true, more))
      ensures !accepted ==> Follow(at, moved) == Some(Tried(at, objects, tries + 1, again, more))
      ensures fine && objects != [] ==> accepted
    {
      var started;
      started, accepted := Post(JobRequest(id, pages), fine);
      more := if started then jobs + [pages] else jobs;
      SoFarMore(first, old(delivered), id, jobs, pages, tries);
      PostMove(at, moves, objects, tries, again, jobs, started, accepted);
      moved := moves + [Move(Choice.Post(started, accepted), 0, at.rec)];
      if AllTurnedDown(moves) {
        PostsEnd(moves, Move(Choice.Post(started, accepted), 0, at.rec), accepted);
      }
    }

    /**
     Posts the job at most three times, stopping at the first acceptance or when the caller's
     context ends between two posts.
     */
    method DispatchOCRJob(id: DocId, objects: seq<PageObject>, again: bool, fine: bool, ghost at: FlowAt)
      returns (ok: bool, ghost moves: seq<Move>, ghost jobs: seq<seq<PageRef>>)
      requires at.pc == Some(Posting(objects, 0, again))
      modifies this
      ensures Follow(at, moves) == Some(Dispatched(at, again, ok, jobs)) && ThreePosts(moves, ok)
      ensures delivered == old(delivered) + Requests(id, jobs)
      ensures |jobs| <= retries && forall j :: j in jobs ==> j == JobPages(objects)
      ensures (ok ==> jobs != []) && (fine && objects != [] ==> ok)
    {
      var pages := NumberPages(objects);
      moves, jobs := NothingTried(at, objects, again);
      var attempt := 0;
      while attempt < retries
        invariant attempt <= retries
        invariant Follow(at, moves) == Some(Tried(at, objects, attempt, again, jobs))
        invariant |moves| == attempt && AllTurnedDown(moves)
        invariant SoFar(old(delivered), delivered, id, jobs, pages, attempt)
        invariant fine && objects != [] ==> attempt == 0
      {
        if attempt > 0 {
          var done: bool :| true;
          if done {
            moves := GiveUpMove(at, moves, objects, attempt, again, jobs);
            return false, moves, jobs;
          }
        }
        ok, moves, jobs := Attempt(id, pages, objects, attempt, again, fine, old(delivered), at, moves, jobs);
        if ok {
          return true, moves, jobs;
        }
        attempt := attempt + 1;
      }
      ok := false;
      NoneLeft(moves);
      AllTried(at, objects, again, jobs);
    }
  }

  predicate TurnedDown(m: Move) {
    m.choice.Post? && !m.choice.accepted
  }

  predicate AllTurnedDown(moves: seq<Move>) {
    forall i :: 0 <= i < |moves| ==> TurnedDown(moves[i])
  }

  /** One more post, and what it decides. */
  predicate EndsWith(moves: seq<Move>, moved: seq<Move>, accepted: bool) {
    && (accepted && |moves| < 3 ==> ThreePosts(moved, true))
    && (!accepted ==> AllTurnedDown(moved))
  }

  lemma PostsEnd(moves: seq<Move>, last: Move, accepted: bool)
    requires AllTurnedDown(moves) && last.choice.Post? && last.choice.accepted == accepted
    ensures EndsWith(moves, moves + [last], accepted)
  {}

  lemma NoneLeft(moves: seq<Move>)
    requires |moves| == 3 && AllTurnedDown(moves)
    ensures ThreePosts(moves, false)
  {}

  /**
   The posts of a dispatch: each but the last is refused. It succeeds exactly when the last one is accepted,
   at the latest the third; it fails when all three are refused, or when the context ends after one or two
   refusals.
   */
  predicate ThreePosts(moves: seq<Move>, ok: bool) {
    && 1 <= |moves| <= 3 && (forall i :: 0 <= i < |moves| - 1 ==> TurnedDown(moves[i]))
    && var last := moves[|moves| - 1].choice;
       if ok then last.Post? && last.accepted
       else (|moves| == 3 && TurnedDown(moves[2])) || (|moves| >= 2 && last.GiveUp?)
  }

  lemma FollowLast(start: FlowAt, moves: seq<Move>)
    requires moves != [] && Follow(start, moves).Some?
    ensures var before := Follow(start, moves[..|moves| - 1]);
      before.Some? && CanMove(before.value, moves[|moves| - 1]) && Follow(start, moves) == Some(Moved(before.value, moves[|moves| - 1]))
  {}

  /** In the flow machine, too: two refusals and an acceptance dispatch the job, three refusals do not. */
  lemma DispatchDecides(at: FlowAt, objects: seq<PageObject>, again: bool, moves: seq<Move>, ok: bool)
    requires at.pc == Some(Posting(objects, 0, again)) && Follow(at, moves).Some? && ThreePosts(moves, ok)
    ensures Follow(at, moves).value.pc ==
      Some(if ok then Stamping(again) else MarkingFailed(DispatchStage, "dispatch ocr job"))
  {
    FollowLast(at, moves);
    if |moves| > 1 {
      FollowLast(at, moves[..|moves| - 1]);
      if |moves| > 2 {
        assert moves[..2][..1] == moves[..1];
        FollowLast(at, moves[..1]);
      }
    }
  }

  /** The jobs delivered since first, after so many posts. */
  ghost predicate SoFar(first: seq<JobRequest>, now: seq<JobRequest>, id: DocId, jobs: seq<seq<PageRef>>, pages: seq<PageRef>,
                        tries: nat) {
    now == first + Requests(id, jobs) && |jobs| <= tries && forall j :: j in jobs ==> j == pages
  }

  lemma SoFarMore(first: seq<JobRequest>, now: seq<JobRequest>, id: DocId, jobs: seq<seq<PageRef>>, pages: seq<PageRef>, tries: nat)
    requires SoFar(first, now, id, jobs, pages, tries)
    ensures SoFar(first, now, id, jobs, pages, tries + 1)
    ensures SoFar(first, now + [JobRequest(id, pages)], id, jobs + [pages], pages, tries + 1)
  {
    assert Requests(id, jobs + [pages]) == Requests(id, jobs) + [JobRequest(id, pages)];
  }

  lemma NothingTried(at: FlowAt, objects: seq<PageObject>, again: bool) returns (moves: seq<Move>, jobs: seq<seq<PageRef>>)
    requires at.pc == Some(Posting(objects, 0, again))
    ensures moves == [] && jobs == [] && Follow(at, moves) == Some(Tried(at, objects, 0, again, jobs))
  {
    moves, jobs := [], [];
    assert at.jobs + jobs == at.jobs;
  }

  lemma AllTried(at: FlowAt, objects: seq<PageObject>, again: bool, jobs: seq<seq<PageRef>>)
    ensures Tried(at, objects, POST_ATTEMPTS, again, jobs) == Dispatched(at, again, false, jobs)
  {}

  /** After tries posts, none accepted. */
  function Tried(at: FlowAt, objects: seq<PageObject>, tries: nat, again: bool, jobs: seq<seq<PageRef>>): FlowAt {
    FlowAt(Some(if tries < POST_ATTEMPTS then Posting(objects, tries, again)
                else MarkingFailed(DispatchStage, "dispatch ocr job")), at.rec, at.jobs + jobs)
  }

  function Dispatched(at: FlowAt, again: bool, ok: bool, jobs: seq<seq<PageRef>>): FlowAt {
    FlowAt(Some(if ok then Stamping(again) else MarkingFailed(DispatchStage, "dispatch ocr job")), at.rec, at.jobs + jobs)
  }

  lemma GiveUpMove(at: FlowAt, moves: seq<Move>, objects: seq<PageObject>, tries: nat, again: bool, jobs: seq<seq<PageRef>>)
    returns (moved: seq<Move>)
    requires Follow(at, moves) == Some(Tried(at, objects, tries, again, jobs)) && 0 < tries < POST_ATTEMPTS
    ensures Follow(at, moved) == Some(Dispatched(at, again, false, jobs))
    ensures |moves| == tries && AllTurnedDown(moves) ==> ThreePosts(moved, false)
  {
    moved := moves + [Move(GiveUp, 0, at.rec)];
    FollowOne(at, moves, Tried(at, objects, tries, again, jobs), Move(GiveUp, 0, at.rec), Dispatched(at, again, false, jobs));
  }

  lemma PostMove(at: FlowAt, moves: seq<Move>, objects: seq<PageObject>, tries: nat, again: bool,
                 jobs: seq<seq<PageRef>>, started: bool, accepted: bool)
    requires Follow(at, moves) == Some(Tried(at, objects, tries, again, jobs)) && tries < POST_ATTEMPTS
    requires (accepted ==> started) && (started ==> objects != [])
    ensures var more := if started then jobs + [JobPages(objects)] else jobs;
      Follow(at, moves + [Move(Choice.Post(started, accepted), 0, at.rec)])
        == Some(if accepted then Dispatched(at, again, true, more) else Tried(at, objects, tries + 1, again, more))
  {
    var m := Move(Choice.Post(started, accepted), 0, at.rec);
    var more := if started then jobs + [JobPages(objects)] else jobs;
    var next := if accepted then Dispatched(at, again, true, more) else Tried(at, objects, tries + 1, again, more);
    assert at.jobs + (jobs + [JobPages(objects)]) == at.jobs + jobs + [JobPages(objects)];
    FollowOne(at, moves, Tried(at, objects, tries, again, jobs), m, next);
  }

  // ---------- the ingest service ----------

  ghost predicate Keyed(rows: map<DocId, Record>) {
    forall d :: d in rows ==> rows[d].doc.id == d
  }

  /** The flow on document id has come to `at`, every move made on the rows as it found them. */
  ghost predicate Came(alone: bool, start: FlowAt, moves: seq<Move>, at: FlowAt,
                       before: map<DocId, Record>, after: map<DocId, Record>, id: DocId) {
    Follow(start, moves) == Some(at) && Brought(alone, at.rec, before, after, id)
  }

  ghost predicate Sent(before: seq<JobRequest>, after: seq<JobRequest>, id: DocId, jobs: seq<seq<PageRef>>) {
    after == before + Requests(id, jobs)
  }

  lemma CameNowhere(alone: bool, rows: map<DocId, Record>, at: FlowAt, id: DocId)
    requires id in rows && at.rec == rows[id]
    ensures Came(alone, at, [], at, rows, rows, id)
  {
    BroughtNothing(alone, rows, id);
  }

  /** One more move, on the rows that it finds. */
  lemma CameOne(alone: bool, start: FlowAt, moves: seq<Move>, at: FlowAt, before: map<DocId, Record>, rows: map<DocId, Record>,
                id: DocId, seen: map<DocId, Record>, m: Move)
    requires Came(alone, start, moves, at, before, rows, id) && Found(alone, rows, seen)
    requires id in seen && m.seen == seen[id] && CanMove(at, m)
    ensures Came(alone, start, moves + [m], Moved(at, m), before, seen[id := Moved(at, m).rec], id)
    ensures alone ==> seen[id] == at.rec
  {
    SeenRow(alone, at.rec, before, rows, id, seen);
    FlowIsAllowed(at.pc.value, m.seen, m.choice, m.now);
    BroughtMore(alone, at.rec, before, rows, id, seen, Moved(at, m).rec);
    FollowOne(start, moves, at, m, Moved(at, m));
  }

  lemma CameMany(alone: bool, start: FlowAt, moves: seq<Move>, at: FlowAt, before: map<DocId, Record>, rows: map<DocId, Record>,
                 id: DocId, more: seq<Move>, end: FlowAt, after: map<DocId, Record>)
    requires Came(alone, start, moves, at, before, rows, id) && Came(alone, at, more, end, rows, after, id)
    ensures Came(alone, start, moves + more, end, before, after, id)
  {
    FollowMany(start, moves, at, more);
    BroughtMany(alone, at.rec, before, rows, id, end.rec, after);
  }

  function Stamped(d: Document, now: Time): Document {
    d.(ocrDispatchedAt := Some(now), updatedAt := now)
  }

  /** A flow at pc on the rows of id as they are. */
  function At(pc: Option<FlowPc>, rows: map<DocId, Record>, id: DocId, jobs: seq<seq<PageRef>>): FlowAt
    requires id in rows
  {
    FlowAt(pc, rows[id], jobs)
  }

  function GivingUp(stage: Stage, message: string): Option<FlowPc> {
    Some(MarkingFailed(stage, message))
  }

  method SomeReply(fine: bool) returns (o: Reply)
    ensures fine ==> o == Fine
  {
    o :| fine ==> o == Fine;
  }

  class Service {
    const docs: Documents
    const dispatcher: Client

    constructor (docs: Documents, dispatcher: Client)
      ensures this.docs == docs && this.dispatcher == dispatcher
    {
      this.docs, this.dispatcher := docs, dispatcher;
    }

    /** The first update, and where it leaves the flow. */
    method TakeOver(id: DocId, fine: bool) returns (moved: Result<bool, string>, ghost m: Move)
      requires id in docs.pool.rows
      modifies docs.pool
      ensures docs.pool.now >= old(docs.pool.now) && id in docs.pool.rows
      ensures Came(docs.pool.alone, At(Some(Starting), old(docs.pool.rows), id, []), [m],
        At(Taken(moved), docs.pool.rows, id, []), old(docs.pool.rows), docs.pool.rows, id)
      ensures fine ==> moved.Success?
      ensures moved == Success(true) <==> m.choice == Sql(Fine) && m.seen.doc.status == Uploaded
      ensures docs.pool.alone && moved.Success? ==>
        && (moved.value <==> old(docs.pool.rows)[id].doc.status == Uploaded)
        && docs.pool.rows[id].doc.status == if moved.value then Processing else old(docs.pool.rows)[id].doc.status
    {
      ghost var alone, before := docs.pool.alone, docs.pool.rows;
      ghost var start := At(Some(Starting), before, id, []);
      CameNowhere(alone, before, start, id);
      var o := SomeReply(fine);
      ghost var seen;
      moved, seen := docs.UpdateStatus(id, Uploaded, Processing, o);
      m := Move(Sql(o), docs.pool.now, seen[id]);
      CameOne(alone, start, [], start, before, before, id, seen, m);
      assert [] + [m] == [m];
    }

    /** The second look at a document that the update has not moved. */
    method Reread(id: DocId, fine: bool) returns (doc: Result<Option<Document>, string>, ghost m: Move)
      requires id in docs.pool.rows
      modifies docs.pool
      ensures docs.pool.now >= old(docs.pool.now) && id in docs.pool.rows
      ensures doc.Success? ==> doc.value == Some(m.seen.doc)
      ensures Came(docs.pool.alone, At(Some(Rereading), old(docs.pool.rows), id, []), [m],
        At(RereadTo(doc), docs.pool.rows, id, []), old(docs.pool.rows), docs.pool.rows, id)
      ensures (fine ==> doc.Success?) && m.choice == Read(doc.Success?)
      ensures docs.pool.alone ==> m.seen == old(docs.pool.rows)[id] == docs.pool.rows[id]
    {
      ghost var alone, before := docs.pool.alone, docs.pool.rows;
      ghost var start := At(Some(Rereading), before, id, []);
      CameNowhere(alone, before, start, id);
      var readable: bool :| fine ==> readable;
      ghost var seen;
      doc, seen := docs.GetByID(id, readable);
      m := Move(Read(readable), docs.pool.now, seen[id]);
      CameOne(alone, start, [], start, before, before, id, seen, m);
      assert [] + [m] == [m] && docs.pool.rows == seen[id := Moved(start, m).rec];
    }

    /**
     Moves the document to processing, or finds it there when it reads it again; goes on in exactly
     these two cases, and otherwise leaves the document to whoever owns it.
     */
    method Enter(id: DocId, fine: bool) returns (go: bool, err: Option<string>, ghost moves: seq<Move>)
      requires id in docs.pool.rows
      modifies docs.pool
      ensures docs.pool.now >= old(docs.pool.now) && id in docs.pool.rows
      ensures Came(docs.pool.alone, At(Some(Starting), old(docs.pool.rows), id, []), moves,
        At(Entered(go, err), docs.pool.rows, id, []), old(docs.pool.rows), docs.pool.rows, id)
      ensures (go ==> err.None?) && (fine ==> err.None?)
      ensures moves != [] && (go <==> OwnsIt(moves))
      ensures fine && docs.pool.alone ==>
        (go <==> old(docs.pool.rows)[id].doc.status in {Uploaded, Processing})
        && (go ==> docs.pool.rows[id].doc.status == Processing)
    {
      ghost var alone, before := docs.pool.alone, docs.pool.rows;
      var moved, m := TakeOver(id, fine);
      OwnsByMoving(m);
      if moved.Failure? {
        return false, Some("update status"), [m];
      }
      if moved.value {
        return true, None, [m];
      }
      ghost var rows := docs.pool.rows;
      var doc, again := Reread(id, fine);
      OwnsByReading(m, again);
      CameMany(alone, At(Some(Starting), before, id, []), [m], At(Some(Rereading), rows, id, []), before, rows, id,
        [again], At(RereadTo(doc), docs.pool.rows, id, []), docs.pool.rows);
      assert [m] + [again] == [m, again];
      if doc.Failure? {
        return false, Some("get document"), [m, again];
      }
      go, err, moves := doc.value.value.status == Processing, None, [m, again];
    }

    /** Converts the stored PDF and uploads the images; a PDF without pages is an error. */
    method Convert(id: DocId, fine: bool) returns (r: Option<seq<PageObject>>, ghost moves: seq<Move>)
      requires id in docs.pool.rows && docs.pool.rows[id].doc.id == id
      ensures var n := docs.pool.rows[id].doc.pdfPages; r.Some? ==> n >= 1 && r.value == PageObjects(id, n)
      ensures Came(docs.pool.alone, At(Some(Converting), docs.pool.rows, id, []), moves,
        At(Converted(r), docs.pool.rows, id, []), docs.pool.rows, docs.pool.rows, id)
      ensures fine ==> (r.Some? <==> docs.pool.rows[id].doc.pdfPages >= 1)
    {
      var n := docs.pool.rows[id].doc.pdfPages;
      var converted: bool :| (converted ==> n >= 1) && (fine && n >= 1 ==> converted);
      r := None;
      if converted {
        r := UploadPages(id, n, fine);
      }
      moves := ConvertMove(docs.pool.alone, docs.pool.rows, id, r);
    }

    /** Uploads n page images under names made of the document and the page number. */
    static method UploadPages(id: DocId, n: nat, fine: bool) returns (r: Option<seq<PageObject>>)
      ensures r.Some? ==> r.value == PageObjects(id, n)
      ensures fine ==> r.Some?
    {
      var objects := new PageObject[n];
      for i := 0 to n
        invariant forall k :: 0 <= k < i ==> objects[k] == PageObject(id, k + 1)
      {
        var uploaded: bool :| fine ==> uploaded;
        if !uploaded {
          return None;
        }
        objects[i] := PageObject(id, i + 1);
      }
      assert objects[..] == PageObjects(id, n);
      r := Some(objects[..]);
    }

    /** Records the pages and their number. */
    method RecordAll(id: DocId, objects: seq<PageObject>, fine: bool) returns (err: Option<string>, ghost moves: seq<Move>)
      requires id in docs.pool.rows
      modifies docs.pool
      ensures docs.pool.now >= old(docs.pool.now) && id in docs.pool.rows
      ensures Came(docs.pool.alone, At(Some(RecordingPages(objects)), old(docs.pool.rows), id, []), moves,
        At(if err.Some? then GivingUp(IngestStage, err.value) else Some(Posting(objects, 0, false)), docs.pool.rows, id, []),
        old(docs.pool.rows), docs.pool.rows, id)
      ensures fine ==> err.None?
      ensures docs.pool.alone ==> docs.pool.rows[id].doc.status == old(docs.pool.rows)[id].doc.status
    {
      ghost var alone, before := docs.pool.alone, docs.pool.rows;
      ghost var start := At(Some(RecordingPages(objects)), before, id, []);
      CameNowhere(alone, before, start, id);
      var o := SomeReply(fine);
      var ok, seen := docs.AddPages(id, objects, o);
      ghost var m := Move(Sql(o), docs.pool.now, seen[id]);
      CameOne(alone, start, [], start, before, before, id, seen, m);
      ghost var at, rows := Moved(start, m), docs.pool.rows;
      moves := [] + [m];
      if !ok {
        return Some("record pages"), moves;
      }
      o := SomeReply(fine);
      ok, seen := docs.SetPageCount(id, |objects|, o);
      ghost var m2 := Move(Sql(o), docs.pool.now, seen[id]);
      CameOne(alone, start, moves, at, before, rows, id, seen, m2);
      moves := moves + [m2];
      err := if ok then None else Some("record page count");
    }

    /** Writes failed on a document still in processing; an error of the write itself is only logged. */
    method GiveUp(id: DocId, stage: Stage, message: string, fine: bool, ghost at: FlowAt) returns (ghost moves: seq<Move>)
      requires id in docs.pool.rows && at.pc == GivingUp(stage, message) && at.rec == docs.pool.rows[id]
      modifies docs.pool
      ensures docs.pool.now >= old(docs.pool.now) && id in docs.pool.rows
      ensures Came(docs.pool.alone, at, moves, At(None, docs.pool.rows, id, at.jobs), old(docs.pool.rows), docs.pool.rows, id)
      ensures fine ==> docs.pool.rows[id].doc.status != Processing
      ensures fine && docs.pool.alone && old(docs.pool.rows)[id].doc.status == Processing ==>
        docs.pool.rows[id].doc.status == Failed
    {
      ghost var alone, before := docs.pool.alone, docs.pool.rows;
      CameNowhere(alone, before, at, id);
      var o := SomeReply(fine);
      var moved, seen := docs.MarkFailed(id, Processing, stage, message, o);
      ghost var m := Move(Sql(o), docs.pool.now, seen[id]);
      CameOne(alone, at, [], at, before, before, id, seen, m);
      moves := [] + [m];
    }

    /** Dispatches the job, then stamps the document; again is the janitor's re-dispatch. */
    method Dispatch(id: DocId, objects: seq<PageObject>, again: bool, fine: bool, ghost at: FlowAt)
      returns (err: Option<string>, ghost moves: seq<Move>, ghost jobs: seq<seq<PageRef>>)
      requires id in docs.pool.rows && at.pc == Some(Posting(objects, 0, again)) && at.rec == docs.pool.rows[id]
      modifies docs.pool, dispatcher
      ensures docs.pool.now >= old(docs.pool.now) && id in docs.pool.rows
      ensures Came(docs.pool.alone, at, moves,
        At(if err.Some? then GivingUp(IngestStage, err.value) else None, docs.pool.rows, id, at.jobs + jobs),
        old(docs.pool.rows), docs.pool.rows, id)
      ensures Sent(old(dispatcher.delivered), dispatcher.delivered, id, jobs)
      ensures forall j :: j in jobs ==> j == JobPages(objects)
      ensures again ==> err.None?
      ensures fine && objects != [] ==>
        err.None? && jobs != [] && docs.pool.rows[id].doc == Stamped(docs.pool.rows[id].doc, docs.pool.now)
      ensures fine && objects != [] && docs.pool.alone ==>
        docs.pool.rows[id].doc == Stamped(old(docs.pool.rows)[id].doc, docs.pool.now)
    {
      ghost var alone, before := docs.pool.alone, docs.pool.rows;
      var ok;
      ok, moves, jobs := dispatcher.DispatchOCRJob(id, objects, again, fine, at);
      ghost var here := Dispatched(at, again, ok, jobs);
      BroughtNothing(alone, before, id);
      assert Came(alone, at, moves, here, before, before, id);
      if !ok {
        ghost var last := GiveUp(id, DispatchStage, "dispatch ocr job", fine, here);
        CameMany(alone, at, moves, here, before, before, id, last, At(None, docs.pool.rows, id, here.jobs), docs.pool.rows);
        return None, moves + last, jobs;
      }
      var o := SomeReply(fine);
      ghost var seen;
      ok, seen := docs.SetOCRDispatched(id, o);
      ghost var m := Move(Sql(o), docs.pool.now, seen[id]);
      CameOne(alone, at, moves, here, before, before, id, seen, m);
      moves := moves + [m];
      err := if ok || again then None else Some("record ocr dispatch");
    }

    /** The body of an ingest run; an error is left to `Process`. */
    method Run(id: DocId, fine: bool) returns (err: Option<string>, ghost moves: seq<Move>, ghost jobs: seq<seq<PageRef>>)
      requires id in docs.pool.rows && docs.pool.rows[id].doc.id == id
      modifies docs.pool, dispatcher
      ensures docs.pool.now >= old(docs.pool.now) && id in docs.pool.rows
      ensures Came(docs.pool.alone, At(Some(Starting), old(docs.pool.rows), id, []), moves,
        At(if err.Some? then GivingUp(IngestStage, err.value) else None, docs.pool.rows, id, jobs),
        old(docs.pool.rows), docs.pool.rows, id)
      ensures Sent(old(dispatcher.delivered), dispatcher.delivered, id, jobs)
      ensures var n := old(docs.pool.rows)[id].doc.pdfPages; forall j :: j in jobs ==> j == JobPages(PageObjects(id, n))
      ensures fine && docs.pool.alone && old(docs.pool.rows)[id].doc.status in {Uploaded, Processing} ==>
        && docs.pool.rows[id].doc.status == Processing
        && (if old(docs.pool.rows)[id].doc.pdfPages >= 1
            then err.None? && jobs != [] && docs.pool.rows[id].doc == Stamped(docs.pool.rows[id].doc, docs.pool.now)
            else err.Some?)
    {
      ghost var alone, before := docs.pool.alone, docs.pool.rows;
      ghost var start := At(Some(Starting), before, id, []);
      jobs := [];
      var go;
      go, err, moves := Enter(id, fine);
      FollowSameDocument(start, moves);
      if !go {
        return err, moves, [];
      }
      var pages, convert := Convert(id, fine);
      CameMany(alone, start, moves, At(Some(Converting), docs.pool.rows, id, []), before, docs.pool.rows, id, convert,
        At(Converted(pages), docs.pool.rows, id, []), docs.pool.rows);
      moves := moves + convert;
      if pages.None? {
        return Some("convert pdf"), moves, [];
      }
      var objects := pages.value;
      ghost var rows := docs.pool.rows;
      assert objects == PageObjects(id, before[id].doc.pdfPages);
      ghost var record;
      err, record := RecordAll(id, objects, fine);
      ghost var at := At(if err.Some? then GivingUp(IngestStage, err.value) else Some(Posting(objects, 0, false)),
        docs.pool.rows, id, []);
      CameMany(alone, start, moves, At(Some(RecordingPages(objects)), rows, id, []), before, rows, id, record, at, docs.pool.rows);
      moves := moves + record;
      if err.Some? {
        return err, moves, [];
      }
      rows := docs.pool.rows;
      ghost var dispatch;
      err, dispatch, jobs := Dispatch(id, objects, false, fine, at);
      assert at.jobs + jobs == jobs;
      CameMany(alone, start, moves, at, before, rows, id, dispatch,
        At(if err.Some? then GivingUp(IngestStage, err.value) else None, docs.pool.rows, id, jobs), docs.pool.rows);
      moves := moves + dispatch;
    }

    /**
     Ingests a document, or re-ingests one found in processing. Whatever others write meanwhile, the
     run is a path of the flow machine from its first update to its end, and every job it delivers is
     the document's. Alone and without a fault, a document that is this run's to ingest ends dispatched
     and freshly stamped, or failed if its PDF has no pages.
     */
    method Process(id: DocId, fine: bool) returns (ghost moves: seq<Move>, ghost jobs: seq<seq<PageRef>>)
      requires id in docs.pool.rows && docs.pool.rows[id].doc.id == id
      modifies docs.pool, dispatcher
      ensures docs.pool.now >= old(docs.pool.now) && id in docs.pool.rows
      ensures Came(docs.pool.alone, At(Some(Starting), old(docs.pool.rows), id, []), moves,
        At(None, docs.pool.rows, id, jobs), old(docs.pool.rows), docs.pool.rows, id)
      ensures Sent(old(dispatcher.delivered), dispatcher.delivered, id, jobs)
      ensures var n := old(docs.pool.rows)[id].doc.pdfPages; forall j :: j in jobs ==> j == JobPages(PageObjects(id, n))
      ensures fine && docs.pool.alone && old(docs.pool.rows)[id].doc.status in {Uploaded, Processing} ==>
        if old(docs.pool.rows)[id].doc.pdfPages >= 1
        then HandedOver(docs.pool.rows[id].doc, docs.pool.now) && jobs != []
        else docs.pool.rows[id].doc.status == Failed
    {
      ghost var alone, before := docs.pool.alone, docs.pool.rows;
      var err;
      err, moves, jobs := Run(id, fine);
      if err.Some? {
        ghost var rows := docs.pool.rows;
        ghost var at := At(GivingUp(IngestStage, err.value), rows, id, jobs);
        ghost var last := GiveUp(id, IngestStage, err.value, fine, at);
        CameMany(alone, At(Some(Starting), before, id, []), moves, at, before, rows, id, last,
          At(None, docs.pool.rows, id, jobs), docs.pool.rows);
        moves := moves + last;
      }
    }

    /**
     Re-sends the job of a stamped document from its stored pages, as the query finds them, numbered
     by position. Without a fault, and if there are pages, the document is freshly stamped.
     */
    method Redispatch(id: DocId, fine: bool) returns (ghost moves: seq<Move>, ghost jobs: seq<seq<PageRef>>)
      requires id in docs.pool.rows
      modifies docs.pool, dispatcher
      ensures docs.pool.now >= old(docs.pool.now) && id in docs.pool.rows
      ensures Came(docs.pool.alone, At(Some(LoadingPages), old(docs.pool.rows), id, []), moves,
        At(None, docs.pool.rows, id, jobs), old(docs.pool.rows), docs.pool.rows, id)
      ensures Sent(old(dispatcher.delivered), dispatcher.delivered, id, jobs)
      ensures moves != [] && forall j :: j in jobs ==> j == JobPages(OrderedValues(moves[0].seen.pages))
      ensures docs.pool.alone ==> moves[0].seen == old(docs.pool.rows)[id]
      ensures fine && moves[0].seen.pages != map[] ==>
        jobs != [] && docs.pool.rows[id].doc == Stamped(docs.pool.rows[id].doc, docs.pool.now)
      ensures fine && docs.pool.alone && old(docs.pool.rows)[id].pages != map[] ==>
        docs.pool.rows[id].doc == Stamped(old(docs.pool.rows)[id].doc, docs.pool.now)
    {
      ghost var alone, before := docs.pool.alone, docs.pool.rows;
      ghost var start := At(Some(LoadingPages), before, id, []);
      var objects;
      ghost var m;
      objects, m := LoadPages(id, fine);
      moves, jobs := [m], [];
      if objects == [] {
        return;
      }
      ghost var rows := docs.pool.rows;
      ghost var at := At(Some(Posting(objects, 0, true)), rows, id, []);
      var err;
      ghost var dispatch;
      err, dispatch, jobs := Dispatch(id, objects, true, fine, at);
      assert at.jobs + jobs == jobs;
      CameMany(alone, start, moves, at, before, rows, id, dispatch, At(None, docs.pool.rows, id, jobs), docs.pool.rows);
      moves := moves + dispatch;
    }

    static method ObjectsOf(pages: seq<Row<PageObject>>) returns (r: seq<PageObject>)
      ensures |r| == |pages| && forall k :: 0 <= k < |r| ==> r[k] == pages[k].value
    {
      var objects := new PageObject[|pages|];
      for i := 0 to |pages|
        invariant forall k :: 0 <= k < i ==> objects[k] == pages[k].value
      {
        objects[i] := pages[i].value;
      }
      r := objects[..];
    }

    /** The objects of the stored pages in page order; none when they cannot be read. */
    method LoadPages(id: DocId, fine: bool) returns (r: seq<PageObject>, ghost m: Move)
      requires id in docs.pool.rows
      modifies docs.pool
      ensures docs.pool.now >= old(docs.pool.now) && id in docs.pool.rows && m.seen == docs.pool.rows[id]
      ensures r == [] || r == OrderedValues(m.seen.pages)
      ensures fine && m.seen.pages != map[] ==> r != []
      ensures docs.pool.alone ==> docs.pool.rows == old(docs.pool.rows)
      ensures Came(docs.pool.alone, At(Some(LoadingPages), old(docs.pool.rows), id, []), [m],
        At(if r == [] then None else Some(Posting(r, 0, true)), docs.pool.rows, id, []),
        old(docs.pool.rows), docs.pool.rows, id)
    {
      ghost var before := docs.pool.rows;
      var readable: bool :| fine ==> readable;
      var pages, seen := docs.PagesByDocument(id, readable);
      m := LoadMove(docs.pool.alone, before, seen, id, readable);
      if pages.Failure? {
        return [], m;
      }
      RowsExist(seen[id].pages);
      if |pages.value| == 0 {
        return [], m;
      }
      r := ObjectsOf(pages.value);
      assert r == OrderedValues(seen[id].pages);
    }
  }

  predicate HandedOver(d: Document, now: Time) {
    d.status == Processing && d.ocrDispatchedAt == Some(now) && d.updatedAt == now
  }

  /** Where `Enter` leaves the flow. */
  function Entered(go: bool, err: Option<string>): Option<FlowPc> {
    if err.Some? then GivingUp(IngestStage, err.value) else if go then Some(Converting) else None
  }

  /** Where the first update leaves the flow. */
  function Taken(moved: Result<bool, string>): Option<FlowPc> {
    match moved
    case Failure(_) => GivingUp(IngestStage, "update status")
    case Success(took) => Some(if took then Converting else Rereading)
  }

  function RereadTo(doc: Result<Option<Document>, string>): Option<FlowPc> {
    match doc
    case Failure(_) => GivingUp(IngestStage, "get document")
    case Success(d) => if d.Some? && d.value.status == Processing then Some(Converting) else None
  }

  /** This run's own update moved the document, or its reading afterwards found it in processing. */
  predicate OwnsIt(moves: seq<Move>) {
    moves != [] &&
    ((moves[0].choice == Sql(Fine) && moves[0].seen.doc.status == Uploaded)
     || (|moves| > 1 && moves[1].choice == Read(true) && moves[1].seen.doc.status == Processing))
  }

  lemma OwnsByMoving(m: Move)
    ensures OwnsIt([m]) <==> m.choice == Sql(Fine) && m.seen.doc.status == Uploaded
  {}

  lemma OwnsByReading(m: Move, again: Move)
    ensures OwnsIt([m, again]) <==> OwnsIt([m]) || (again.choice == Read(true) && again.seen.doc.status == Processing)
  {}

  function Converted(r: Option<seq<PageObject>>): Option<FlowPc> {
    if r.Some? then Some(RecordingPages(r.value)) else GivingUp(IngestStage, "convert pdf")
  }

  lemma ConvertMove(alone: bool, rows: map<DocId, Record>, id: DocId, r: Option<seq<PageObject>>) returns (moves: seq<Move>)
    requires id in rows && rows[id].doc.id == id
    requires r.Some? ==> rows[id].doc.pdfPages >= 1 && r.value == PageObjects(id, rows[id].doc.pdfPages)
    ensures Came(alone, At(Some(Converting), rows, id, []), moves, At(Converted(r), rows, id, []), rows, rows, id)
  {
    var start := At(Some(Converting), rows, id, []);
    var m := Move(Read(r.Some?), 0, rows[id]);
    CameNowhere(alone, rows, start, id);
    FoundSame(alone, rows);
    CameOne(alone, start, [], start, rows, rows, id, rows, m);
    moves := [] + [m];
    assert rows[id := Moved(start, m).rec] == rows;
  }

  lemma LoadMove(alone: bool, before: map<DocId, Record>, seen: map<DocId, Record>, id: DocId, readable: bool) returns (m: Move)
    requires id in before && id in seen && Found(alone, before, seen)
    ensures m.seen == seen[id]
    ensures var objects := if readable then OrderedValues(seen[id].pages) else [];
      Came(alone, At(Some(LoadingPages), before, id, []), [m],
        At(if objects == [] then None else Some(Posting(objects, 0, true)), seen, id, []), before, seen, id)
  {
    var start := At(Some(LoadingPages), before, id, []);
    m := Move(Read(readable), 0, seen[id]);
    CameNowhere(alone, before, start, id);
    CameOne(alone, start, [], start, before, before, id, seen, m);
    assert [] + [m] == [m] && seen[id := Moved(start, m).rec] == seen;
  }

  // ---------- redispatch fidelity ----------

  function AddTimes(pages: map<nat, PageObject>, objects: seq<PageObject>, k: nat): map<nat, PageObject> {
    if k == 0 then pages else InsertPages(AddTimes(pages, objects, k - 1), objects)
  }

  /** Recording a page list again changes nothing. */
  lemma {:induction false} AddAgain(objects: seq<PageObject>, k: nat)
    requires k >= 1
    ensures AddTimes(map[], objects, k) == InsertPages(map[], objects)
  {
    if k > 1 {
      AddAgain(objects, k - 1);
      InsertPagesRows(map[], objects);
      InsertPagesRows(InsertPages(map[], objects), objects);
    } else {
      assert AddTimes(map[], objects, 0) == map[];
    }
  }

  /**
   For any page list, recorded any number of times: reading it back in page order and numbering by
   position gives the very job that the list gives.
   */
  lemma RedispatchFidelity(objects: seq<PageObject>, k: nat)
    requires k >= 1
    ensures OrderedValues(AddTimes(map[], objects, k)) == objects
    ensures JobPages(OrderedValues(AddTimes(map[], objects, k))) == JobPages(objects)
  {
    AddAgain(objects, k);
    InsertPagesRows(map[], objects);
    var table := InsertPages(map[], objects);
    AscendingRange(table.Keys, |objects|);
  }
}
