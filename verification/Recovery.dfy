/**
 Recoverability: which documents can still be brought to an end, by a schedule in which nothing
 fails. The schedules run one poller through its ticks exactly as written: drain the queue in
 updated_at order, fail the exhausted, list the stuck rows, recover each of them.
 */
module Recovery {
  import opened Wrappers
  import opened Seqs
  import opened Aggregate
  import opened Normalize
  import opened Schema
  import opened Tables
  import opened Pipeline
  import opened PipelineInvariant
  import opened PipelineTheorems
  import Dates
  import FanOut

  const Fine := Outcome(true, true)

  // ---------- steps in which nothing fails ----------

  predicate Stuck(c: Config, s: State, d: Document) {
    (d.status == Processing || d.status == Extracting) && d.updatedAt < s.now - c.stuckTimeout
  }

  /** The result of `StuckDocuments`: every stuck row once, in updated_at order. */
  ghost predicate StuckList(c: Config, s: State, todo: seq<Entry>) {
    && (forall e :: e in todo ==> EntryAccurate(s, e) && Stuck(c, s, s.db[e.doc].doc))
    && (forall d :: d in s.db && Stuck(c, s, s.db[d].doc) ==> Listed(todo, d))
    && NoRepeats(todo)
    && (forall i, j :: 0 <= i < j < |todo| && todo[i].doc in s.db && todo[j].doc in s.db ==>
          s.db[todo[i].doc].doc.updatedAt <= s.db[todo[j].doc].doc.updatedAt)
  }

  ghost predicate Listed(todo: seq<Entry>, d: DocId) {
    exists i :: 0 <= i < |todo| && todo[i].doc == d
  }

  ghost predicate NoRepeats(todo: seq<Entry>) {
    forall i, j :: 0 <= i < j < |todo| ==> todo[i].doc != todo[j].doc
  }

  /** The row that the claim's subquery picks. */
  ghost predicate FirstInQueue(c: Config, s: State, d: DocId) {
    && d in s.db
    && forall e :: e in s.db && Claimable(s.db[e].doc, c.maxAttempts, s.now) ==>
        s.db[d].doc.updatedAt <= s.db[e].doc.updatedAt
  }

  ghost predicate QueueEmpty(c: Config, s: State) {
    forall d :: d in s.db ==> !Claimable(s.db[d].doc, c.maxAttempts, s.now)
  }

  /** The choice of an environment in which nothing fails, for a document with n pages. */
  predicate FineChoice(ch: Choice, convertible: bool) {
    match ch
    case Sql(o) => o == Fine
    case Read(ok) => ok || !convertible
    case Post(delivered, accepted) => delivered && accepted
    case Answer(content) => Storable(Normalized(content))
    case _ => false
  }

  ghost predicate Faultless(c: Config, s: State, a: Action)
    requires Enabled(c, s, a)
  {
    match a
    case CreateDocument(_, _, _, _) => false
    case Tick(_) => true
    case Crash(_) => false
    case StartPoller(_) => true
    case Redeliver(_, _) => false
    case StepFlow(pid, ch, _) =>
      var flow := FlowOf(s.acts[pid]).value;
      FineChoice(ch, flow.pc != Converting || s.db[flow.doc].doc.pdfPages >= 1)
    case StepJob(_, step, _) => FanOut.Fine(step)
    case EndJob(_, applied) => applied
    case Claim(_, d, o) => o == Fine && FirstInQueue(c, s, d)
    case ClaimNothing(_) => QueueEmpty(c, s)
    case StepWorker(_, ch) => FineChoice(ch, true)
    case Exhaust(_, applied) => applied
    case ListStuck(_, todo) => StuckList(c, s, todo)
    case NextEntry(_, o) => o == Fine
  }

  /** The schedule runs from s to t without a fault. */
  ghost predicate Leads(c: Config, s: State, actions: seq<Action>, t: State)
    decreases |actions|
  {
    if actions == [] then s == t
    else Enabled(c, s, actions[0]) && Faultless(c, s, actions[0]) && Leads(c, Next(c, s, actions[0]), actions[1..], t)
  }

  lemma {:induction false} LeadsConcat(c: Config, s: State, a: seq<Action>, t: State, b: seq<Action>, u: State)
    requires Leads(c, s, a, t) && Leads(c, t, b, u)
    ensures Leads(c, s, a + b, u)
    decreases |a|
  {
    if a == [] {
      assert a + b == b;
    } else {
      assert (a + b)[0] == a[0] && (a + b)[1..] == a[1..] + b;
      LeadsConcat(c, Next(c, s, a[0]), a[1..], t, b, u);
    }
  }

  lemma {:induction false} LeadsIsRun(c: Config, s: State, actions: seq<Action>, t: State)
    requires Leads(c, s, actions, t)
    ensures Legal(c, s, actions) && Reach(c, s, actions) == t
    decreases |actions|
  {
    if actions != [] {
      LeadsIsRun(c, Next(c, s, actions[0]), actions[1..], t);
    }
  }

  lemma OneStep(c: Config, s: State, a: Action)
    requires Enabled(c, s, a) && Faultless(c, s, a)
    ensures Leads(c, s, [a], Next(c, s, a))
  {
    assert [a][1..] == [];
  }

  // ---------- what a step leaves alone ----------

  predicate SameActs(a: map<Pid, Activity>, b: map<Pid, Activity>, except: set<Pid>) {
    && (forall p :: p in a && p !in except ==> p in b && b[p] == a[p])
    && (forall p :: p in b && p !in except ==> p in a)
  }

  predicate SameDocs(a: map<DocId, Record>, b: map<DocId, Record>, except: DocId) {
    a.Keys == b.Keys && forall d :: d in a && d != except ==> b[d] == a[d]
  }

  /** The state after the worker that pid runs makes a choice. */
  function WorkerMoved(s: State, pid: Pid, ch: Choice): State
    requires IsPoller(s, pid) && s.acts[pid].pc.Working?
    requires s.acts[pid].pc.doc in s.db && WorkerEnabled(s.acts[pid].pc.worker, s.db[s.acts[pid].pc.doc], ch)
  {
    var pc := s.acts[pid].pc;
    var step := NextWorker(pc.worker, pc.attempt, s.db[pc.doc], ch, s.now);
    State(s.db[pc.doc := step.rec], s.now, s.acts[pid :=
      Poller(if step.next.Some? then Working(pc.doc, pc.attempt, step.next.value) else Draining)])
  }

  lemma WorkerMove(c: Config, s: State, pid: Pid, ch: Choice)
    requires IsPoller(s, pid) && s.acts[pid].pc.Working? && FineChoice(ch, true)
    requires s.acts[pid].pc.doc in s.db && WorkerEnabled(s.acts[pid].pc.worker, s.db[s.acts[pid].pc.doc], ch)
    ensures Leads(c, s, [StepWorker(pid, ch)], WorkerMoved(s, pid, ch))
  {
    OneStep(c, s, StepWorker(pid, ch));
  }

  // ---------- draining the queue ----------

  /** An answer of the LLM that the schema accepts. */
  const Plain := ExtractedMatricula("1", Cartorio("", "", ""), "", Imovel("", "", None, ""), [], [], [])

  lemma PlainIsStorable()
    ensures Storable(Normalized(Plain))
  {
    Dates.NormalizedDateFixedPoints("");
  }

  lemma LeastUpdated(db: map<DocId, Record>, ids: set<DocId>) returns (d: DocId)
    requires ids != {} && ids <= db.Keys
    ensures d in ids && forall e :: e in ids ==> db[d].doc.updatedAt <= db[e].doc.updatedAt
  {
    d :| d in ids;
    if ids != {d} {
      var m := LeastUpdated(db, ids - {d});
      assert forall e :: e in ids ==> e == d || e in ids - {d};
      if db[m].doc.updatedAt < db[d].doc.updatedAt {
        d := m;
      }
    }
  }

  ghost function Queue(c: Config, s: State): set<DocId> {
    set d | d in s.db && Claimable(s.db[d].doc, c.maxAttempts, s.now)
  }

  predicate RunsWorker(s: State, pid: Pid, d: DocId, attempt: nat, w: WorkerPc) {
    pid in s.acts && s.acts[pid] == Poller(Working(d, attempt, w)) && d in s.db
  }

  lemma NonEmptyOrdered(m: map<nat, string>)
    requires m != map[]
    ensures OrderedValues(m) != []
  {
    var k :| k in m.Keys;
    assert k in Ascending(m.Keys);
  }

  lemma TwoMoves(c: Config, s: State, pid: Pid, d: DocId, attempt: nat, w: WorkerPc, ch: Choice, v: WorkerPc, r: Record, ch2: Choice)
    requires RunsWorker(s, pid, d, attempt, w) && FineChoice(ch, true) && FineChoice(ch2, true)
    requires WorkerEnabled(w, s.db[d], ch) && NextWorker(w, attempt, s.db[d], ch, s.now) == WorkerStep(r, Some(v))
    requires WorkerEnabled(v, r, ch2)
    ensures var u := State(s.db[d := r], s.now, s.acts[pid := Poller(Working(d, attempt, v))]);
      RunsWorker(u, pid, d, attempt, v) && Leads(c, s, [StepWorker(pid, ch), StepWorker(pid, ch2)], WorkerMoved(u, pid, ch2))
  {
    WorkerMove(c, s, pid, ch);
    var u := WorkerMoved(s, pid, ch);
    WorkerMove(c, u, pid, ch2);
    LeadsConcat(c, s, [StepWorker(pid, ch)], u, [StepWorker(pid, ch2)], WorkerMoved(u, pid, ch2));
    assert [StepWorker(pid, ch)] + [StepWorker(pid, ch2)] == [StepWorker(pid, ch), StepWorker(pid, ch2)];
  }

  lemma ReadAndAsk(c: Config, s: State, pid: Pid, d: DocId, attempt: nat, answer: ExtractedMatricula)
    returns (sched: seq<Action>, t: State)
    requires RunsWorker(s, pid, d, attempt, Loading) && s.db[d].ocr != map[] && Storable(Normalized(answer))
    ensures Leads(c, s, sched, t) && |sched| == 2
    ensures t == State(s.db, s.now, s.acts[pid := Poller(Working(d, attempt, Saving(Normalized(answer))))])
  {
    NonEmptyOrdered(s.db[d].ocr);
    TwoMoves(c, s, pid, d, attempt, Loading, Read(true), Asking, s.db[d], Answer(answer));
    sched := [StepWorker(pid, Read(true)), StepWorker(pid, Answer(answer))];
    var u := State(s.db[d := s.db[d]], s.now, s.acts[pid := Poller(Working(d, attempt, Asking))]);
    t := WorkerMoved(u, pid, Answer(answer));
    assert t.db == s.db && t.acts == s.acts[pid := Poller(Working(d, attempt, Saving(Normalized(answer))))];
  }

  lemma SaveAndComplete(c: Config, s: State, pid: Pid, d: DocId, attempt: nat, content: ExtractedMatricula)
    returns (sched: seq<Action>, t: State)
    requires RunsWorker(s, pid, d, attempt, Saving(content)) && Storable(content)
    requires s.db[d].doc.status == Extracting
    ensures Leads(c, s, sched, t) && |sched| == 2
    ensures t.now == s.now && SameDocs(s.db, t.db, d) && t.db[d].doc.status == Extracted && t.db[d].ocr == s.db[d].ocr
    ensures t.db[d].extractions == s.db[d].extractions + [Extraction(attempt, content)]
    ensures t.acts == s.acts[pid := Poller(Draining)]
  {
    var r := Execute(SaveAggregate(attempt, content), s.now, s.db[d]);
    TwoMoves(c, s, pid, d, attempt, Saving(content), Sql(Fine), Completing, r, Sql(Fine));
    sched := [StepWorker(pid, Sql(Fine)), StepWorker(pid, Sql(Fine))];
    var u := State(s.db[d := r], s.now, s.acts[pid := Poller(Working(d, attempt, Completing))]);
    t := WorkerMoved(u, pid, Sql(Fine));
  }

  /** The worker that has just claimed d extracts it. */
  lemma ExtractClaimed(c: Config, s: State, pid: Pid, d: DocId, attempt: nat) returns (sched: seq<Action>, t: State)
    requires RunsWorker(s, pid, d, attempt, Loading)
    requires s.db[d].doc.status == Extracting && s.db[d].ocr != map[]
    ensures Leads(c, s, sched, t) && |sched| == 4
    ensures t.now == s.now && SameDocs(s.db, t.db, d) && t.db[d].doc.status == Extracted && t.db[d].ocr == s.db[d].ocr
    ensures t.acts == s.acts[pid := Poller(Draining)]
  {
    PlainIsStorable();
    var first, u := ReadAndAsk(c, s, pid, d, attempt, Plain);
    var rest;
    rest, t := SaveAndComplete(c, u, pid, d, attempt, Normalized(Plain));
    LeadsConcat(c, s, first, u, rest, t);
    sched := first + rest;
  }

  /** Every document past OCR has text. */
  predicate Fed(db: map<DocId, Record>) {
    forall d :: d in db && PostOCR(db[d].doc.status) ==> db[d].ocr != map[]
  }

  predicate DrainsAt(s: State, pid: Pid) {
    pid in s.acts && s.acts[pid] == Poller(Draining)
  }

  lemma ClaimMove(c: Config, s: State, pid: Pid, d: DocId)
    requires DrainsAt(s, pid) && d in Queue(c, s) && FirstInQueue(c, s, d)
    ensures var r := Execute(ClaimForExtraction(c.maxAttempts), s.now, s.db[d]);
      Leads(c, s, [Claim(pid, d, Fine)],
        State(s.db[d := r], s.now, s.acts[pid := Poller(Working(d, s.db[d].doc.extractionAttempts + 1, Loading))]))
  {
    OneStep(c, s, Claim(pid, d, Fine));
  }

  /** One turn of the drain loop: the first document of the queue is claimed and extracted. */
  lemma DrainOne(c: Config, s: State, pid: Pid, d: DocId) returns (sched: seq<Action>, t: State)
    requires DrainsAt(s, pid) && d in Queue(c, s) && FirstInQueue(c, s, d) && s.db[d].ocr != map[]
    ensures Leads(c, s, sched, t) && |sched| == 5
    ensures t.now == s.now && SameDocs(s.db, t.db, d) && t.db[d].doc.status == Extracted && t.db[d].ocr == s.db[d].ocr
    ensures t.acts == s.acts
  {
    var r := Execute(ClaimForExtraction(c.maxAttempts), s.now, s.db[d]);
    var attempt := s.db[d].doc.extractionAttempts + 1;
    ClaimMove(c, s, pid, d);
    var u := State(s.db[d := r], s.now, s.acts[pid := Poller(Working(d, attempt, Loading))]);
    var rest;
    rest, t := ExtractClaimed(c, u, pid, d, attempt);
    LeadsConcat(c, s, [Claim(pid, d, Fine)], u, rest, t);
    sched := [Claim(pid, d, Fine)] + rest;
    assert t.acts == s.acts;
  }

  lemma QueueShrinks(c: Config, s: State, t: State, d: DocId)
    requires d in Queue(c, s) && t.now == s.now && SameDocs(s.db, t.db, d) && t.db[d].doc.status == Extracted
    ensures Queue(c, t) == Queue(c, s) - {d}
  {
    forall e
      ensures e in Queue(c, t) <==> e in Queue(c, s) - {d}
    {}
  }

  lemma FirstOfQueue(c: Config, s: State, d: DocId)
    requires d in Queue(c, s) && forall e :: e in Queue(c, s) ==> s.db[d].doc.updatedAt <= s.db[e].doc.updatedAt
    ensures FirstInQueue(c, s, d)
  {
    forall e | e in s.db && Claimable(s.db[e].doc, c.maxAttempts, s.now)
      ensures s.db[d].doc.updatedAt <= s.db[e].doc.updatedAt
    {
      assert e in Queue(c, s);
    }
  }

  /** Draining extracts exactly the documents that were claimable and touches no other. */
  predicate Drained(c: Config, s: State, t: State) {
    s.db.Keys == t.db.Keys && forall d :: d in s.db ==>
      if Claimable(s.db[d].doc, c.maxAttempts, s.now) then t.db[d].doc.status == Extracted else t.db[d] == s.db[d]
  }

  lemma {:induction false} DrainAll(c: Config, s: State, pid: Pid) returns (sched: seq<Action>, t: State)
    requires DrainsAt(s, pid) && Fed(s.db)
    ensures Leads(c, s, sched, t) && |sched| == 5 * |Queue(c, s)|
    ensures t.now == s.now && t.acts == s.acts && QueueEmpty(c, t) && Drained(c, s, t)
    decreases |Queue(c, s)|
  {
    if Queue(c, s) == {} {
      sched, t := [], s;
      forall d | d in s.db
        ensures !Claimable(s.db[d].doc, c.maxAttempts, s.now)
      {
        assert d !in Queue(c, s);
      }
    } else {
      var d := LeastUpdated(s.db, Queue(c, s));
      FirstOfQueue(c, s, d);
      var first, u := DrainOne(c, s, pid, d);
      QueueShrinks(c, s, u, d);
      var rest;
      rest, t := DrainAll(c, u, pid);
      LeadsConcat(c, s, first, u, rest, t);
      sched := first + rest;
    }
  }

  lemma QueueSize(c: Config, s: State)
    ensures |Queue(c, s)| <= |s.db|
  {
    SubsetSize(Queue(c, s), s.db.Keys);
  }

  lemma {:induction false} SubsetSize<T>(a: set<T>, b: set<T>)
    requires a <= b
    ensures |a| <= |b|
  {
    if a != {} {
      var x :| x in a;
      SubsetSize(a - {x}, b - {x});
    }
  }

  /** What is true of a document when the poller has drained and failed the exhausted. */
  ghost predicate Swept(c: Config, s: State, t: State) {
    s.db.Keys == t.db.Keys && forall d :: d in s.db ==> SweptDoc(c, s.now, s.db[d], t.db[d])
  }

  ghost predicate SweptDoc(c: Config, now: Time, r: Record, t: Record) {
    if Claimable(r.doc, c.maxAttempts, now) then t.doc.status == Extracted
    else if Exhausted(r.doc, c.maxAttempts) then t.doc.status == Failed
    else t == r
  }

  lemma EndDrain(c: Config, s: State, pid: Pid)
    requires DrainsAt(s, pid) && QueueEmpty(c, s)
    ensures Leads(c, s, [ClaimNothing(pid)], s.(acts := s.acts[pid := Poller(Exhausting)]))
  {
    OneStep(c, s, ClaimNothing(pid));
  }

  lemma EndExhaust(c: Config, s: State, pid: Pid)
    requires pid in s.acts && s.acts[pid] == Poller(Exhausting)
    ensures Leads(c, s, [Exhaust(pid, true)],
      State(ExhaustAll(s.db, c.maxAttempts, s.now), s.now, s.acts[pid := Poller(Listing)]))
  {
    OneStep(c, s, Exhaust(pid, true));
  }

  /** The first half of a tick: drain, find nothing, fail the exhausted. */
  lemma Sweep(c: Config, s: State, pid: Pid) returns (sched: seq<Action>, t: State)
    requires DrainsAt(s, pid) && Fed(s.db)
    ensures Leads(c, s, sched, t) && |sched| <= 5 * |s.db| + 2
    ensures t.now == s.now && t.acts == s.acts[pid := Poller(Listing)] && Swept(c, s, t)
  {
    var first, u := DrainAll(c, s, pid);
    QueueSize(c, s);
    EndDrain(c, u, pid);
    var v := u.(acts := u.acts[pid := Poller(Exhausting)]);
    EndExhaust(c, v, pid);
    t := State(ExhaustAll(v.db, c.maxAttempts, v.now), v.now, v.acts[pid := Poller(Listing)]);
    LeadsConcat(c, u, [ClaimNothing(pid)], v, [Exhaust(pid, true)], t);
    LeadsConcat(c, s, first, u, [ClaimNothing(pid)] + [Exhaust(pid, true)], t);
    sched := first + ([ClaimNothing(pid)] + [Exhaust(pid, true)]);
    assert t.acts == s.acts[pid := Poller(Listing)];
    SweepDocs(c, s, u, t);
  }

  lemma SweepDocs(c: Config, s: State, u: State, t: State)
    requires Drained(c, s, u) && t.db == ExhaustAll(u.db, c.maxAttempts, s.now)
    ensures Swept(c, s, t)
  {
    forall d | d in s.db
      ensures SweptDoc(c, s.now, s.db[d], t.db[d])
    {}
  }

  // ---------- listing the stuck rows ----------

  ghost predicate OrderedIds(db: map<DocId, Record>, ids: seq<DocId>) {
    forall i, j :: 0 <= i < j < |ids| && ids[i] in db && ids[j] in db ==>
      ids[i] != ids[j] && db[ids[i]].doc.updatedAt <= db[ids[j]].doc.updatedAt
  }

  lemma {:induction false} SortByUpdated(db: map<DocId, Record>, ids: set<DocId>) returns (r: seq<DocId>)
    requires ids <= db.Keys
    ensures OrderedIds(db, r) && |r| == |ids| && forall d :: d in r <==> d in ids
  {
    if ids == {} {
      r := [];
    } else {
      var d := LeastUpdated(db, ids);
      var rest := SortByUpdated(db, ids - {d});
      r := [d] + rest;
    }
  }

  function EntryOf(s: State, d: DocId): Entry
    requires d in s.db
  {
    Entry(d, s.db[d].doc.status, s.db[d].doc.ocrDispatchedAt.Some?)
  }

  lemma ListExists(c: Config, s: State) returns (todo: seq<Entry>)
    ensures StuckList(c, s, todo) && |todo| <= |s.db|
  {
    var ids := set d | d in s.db && Stuck(c, s, s.db[d].doc);
    var order := SortByUpdated(s.db, ids);
    SubsetSize(ids, s.db.Keys);
    assert forall i :: 0 <= i < |order| ==> order[i] in ids;
    todo := seq(|order|, (i: nat) requires i < |order| => EntryOf(s, order[i]));
    forall d | d in s.db && Stuck(c, s, s.db[d].doc)
      ensures Listed(todo, d)
    {
      assert d in order;
      var i :| 0 <= i < |order| && order[i] == d;
      assert todo[i].doc == d;
    }
  }

  lemma ListMove(c: Config, s: State, pid: Pid, todo: seq<Entry>)
    requires pid in s.acts && s.acts[pid] == Poller(Listing) && StuckList(c, s, todo)
    ensures Leads(c, s, [ListStuck(pid, todo)], s.(acts := s.acts[pid := Poller(Recovering(todo, None))]))
  {
    OneStep(c, s, ListStuck(pid, todo));
  }

  // ---------- running a flow to its end ----------

  lemma FreshAbove(s: set<nat>) returns (p: nat)
    ensures p !in s
  {
    var top := Bound(s);
    p := top + 1;
  }

  lemma {:induction false} Bound(s: set<nat>) returns (top: nat)
    ensures forall q :: q in s ==> q <= top
  {
    if s == {} {
      top := 0;
    } else {
      var q :| q in s;
      var rest := Bound(s - {q});
      top := if q > rest then q else rest;
      assert forall r :: r in s ==> r == q || r in s - {q};
    }
  }

  /** The choice with which a flow gets on. */
  function FineFor(pc: FlowPc, r: Record): Choice {
    match pc
    case Rereading => Read(true)
    case LoadingPages => Read(true)
    case Converting => Read(r.doc.pdfPages >= 1)
    case Posting(_, _, _) => Post(true, true)
    case _ => Sql(Fine)
  }

  function FlowRank(pc: FlowPc): nat {
    match pc
    case Starting => 7
    case Rereading => 7
    case Converting => 6
    case RecordingPages(_) => 5
    case RecordingCount(_) => 4
    case LoadingPages => 4
    case Posting(_, _, _) => 3
    case Stamping(_) => 2
    case MarkingFailed(_, _) => 1
  }

  /** Pages to post are there when the flow needs them. */
  predicate HasPages(pc: FlowPc, r: Record) {
    match pc
    case LoadingPages => r.pages != map[]
    case Posting(objects, _, _) => objects != []
    case RecordingPages(objects) => objects != []
    case RecordingCount(objects) => objects != []
    case _ => true
  }

  predicate RunsFlow(s: State, pid: Pid, d: DocId, pc: FlowPc) {
    pid in s.acts && FlowOf(s.acts[pid]) == Some(Flow(d, pc)) && d in s.db
  }

  lemma FlowMove(c: Config, s: State, pid: Pid, d: DocId, pc: FlowPc, job: Pid)
    requires RunsFlow(s, pid, d, pc) && job !in s.acts
    requires FlowEnabled(pc, s.db[d], FineFor(pc, s.db[d]))
    ensures var ch := FineFor(pc, s.db[d]);
      && Enabled(c, s, StepFlow(pid, ch, job))
      && Leads(c, s, [StepFlow(pid, ch, job)], Commit(s, FlowEffect(c, s, pid, ch, job)))
  {
    OneStep(c, s, StepFlow(pid, FineFor(pc, s.db[d]), job));
  }

  /** What finishing a flow on d leaves behind; job is the OCR job it may have posted. */
  predicate FlowEnds(c: Config, s: State, t: State, pid: Pid, d: DocId, pc: FlowPc, job: Pid) {
    && pid in s.acts && FlowOf(s.acts[pid]).Some? && d in s.db
    && t.now == s.now && SameDocs(s.db, t.db, d) && SameActs(s.acts, t.acts, {pid, job})
    && (WithFlow(s.acts[pid], d, None).Some? ==>
         pid in t.acts && t.acts[pid] == WithFlow(s.acts[pid], d, None).value)
    && (job in t.acts ==> t.acts[job].Job? && t.acts[job] == NewJob(c, d, t.acts[job].pages))
    && FlowOutcome(s.db[d].doc.status, pc, t.db[d].doc.status, job in t.acts)
  }

  /** A document in processing is dispatched or failed; any other is left as it was. */
  predicate FlowOutcome(before: Status, pc: FlowPc, after: Status, posted: bool) {
    && (before == Processing || (before == Uploaded && pc == Starting) ==>
         after == Failed || (after == Processing && posted))
    && (before != Processing && before != Uploaded ==> after == before)
  }

  lemma StampMove(c: Config, s: State, pid: Pid, d: DocId, again: bool, job: Pid)
    returns (sched: seq<Action>, t: State)
    requires RunsFlow(s, pid, d, Stamping(again)) && job in s.acts && job != pid
    ensures Leads(c, s, sched, t) && |sched| == 1
    ensures t.now == s.now && SameDocs(s.db, t.db, d) && t.db[d].doc.status == s.db[d].doc.status
    ensures t.acts == SetAct(s.acts, pid, WithFlow(s.acts[pid], d, None))
  {
    var unused := FreshAbove(s.acts.Keys);
    FlowMove(c, s, pid, d, Stamping(again), unused);
    sched, t := [StepFlow(pid, Sql(Fine), unused)], Commit(s, FlowEffect(c, s, pid, Sql(Fine), unused));
  }

  lemma PostMove(c: Config, s: State, pid: Pid, d: DocId, objects: seq<PageObject>, tries: nat, again: bool, job: Pid)
    returns (sched: seq<Action>, t: State)
    requires RunsFlow(s, pid, d, Posting(objects, tries, again)) && job !in s.acts && objects != []
    ensures Leads(c, s, sched, t) && |sched| == 1
    ensures t.now == s.now && t.db == s.db
    ensures WithFlow(s.acts[pid], d, Some(Stamping(again))).Some?
    ensures t.acts == s.acts[pid := WithFlow(s.acts[pid], d, Some(Stamping(again))).value]
      [job := NewJob(c, d, JobPages(objects))]
  {
    FlowMove(c, s, pid, d, Posting(objects, tries, again), job);
    sched, t := [StepFlow(pid, Post(true, true), job)], Commit(s, FlowEffect(c, s, pid, Post(true, true), job));
    assert t.db == s.db;
  }

  lemma FlowOfWithFlow(act: Activity, d: DocId, pc: FlowPc)
    requires FlowOf(act).Some?
    ensures WithFlow(act, d, Some(pc)).Some? && FlowOf(WithFlow(act, d, Some(pc)).value) == Some(Flow(d, pc))
    ensures WithFlow(WithFlow(act, d, Some(pc)).value, d, None) == WithFlow(act, d, None)
  {}

  lemma PostAndStamp(c: Config, s: State, pid: Pid, d: DocId, objects: seq<PageObject>, tries: nat, again: bool, job: Pid)
    returns (sched: seq<Action>, t: State)
    requires RunsFlow(s, pid, d, Posting(objects, tries, again)) && job !in s.acts && objects != []
    ensures Leads(c, s, sched, t) && |sched| == 2
    ensures FlowEnds(c, s, t, pid, d, Posting(objects, tries, again), job)
  {
    FlowOfWithFlow(s.acts[pid], d, Stamping(again));
    var first, u := PostMove(c, s, pid, d, objects, tries, again, job);
    var rest;
    rest, t := StampMove(c, u, pid, d, again, job);
    LeadsConcat(c, s, first, u, rest, t);
    sched := first + rest;
  }

  /** A step of a flow that posts nothing. */
  lemma QuietMove(c: Config, s: State, pid: Pid, d: DocId, pc: FlowPc) returns (sched: seq<Action>, t: State)
    requires RunsFlow(s, pid, d, pc) && !pc.Posting? && HasPages(pc, s.db[d])
    ensures Leads(c, s, sched, t) && |sched| == 1
    ensures FlowEnabled(pc, s.db[d], FineFor(pc, s.db[d]))
    ensures var step := NextFlow(pc, s.db[d], FineFor(pc, s.db[d]), s.now);
      t == State(s.db[d := step.rec], s.now, SetAct(s.acts, pid, WithFlow(s.acts[pid], d, step.next)))
  {
    var unused := FreshAbove(s.acts.Keys);
    FlowMove(c, s, pid, d, pc, unused);
    var ch := FineFor(pc, s.db[d]);
    sched, t := [StepFlow(pid, ch, unused)], Commit(s, FlowEffect(c, s, pid, ch, unused));
  }

  /** How one quiet step changes the status, and that the flow still has its pages. */
  lemma QuietStep(pc: FlowPc, r: Record, now: Time)
    requires !pc.Posting? && !pc.Stamping? && HasPages(pc, r)
    ensures FlowEnabled(pc, r, FineFor(pc, r))
    ensures var step := NextFlow(pc, r, FineFor(pc, r), now);
      && (step.next.Some? ==> FlowRank(step.next.value) < FlowRank(pc) || (pc.Starting? && step.next.value.Rereading?))
      && (step.next.Some? ==> HasPages(step.next.value, step.rec) && !step.next.value.Stamping? && !step.next.value.Starting?)
      && (step.next.Some? ==> step.rec.doc.status == (if pc.Starting? && r.doc.status == Uploaded then Processing else r.doc.status))
      && (step.next.None? ==> FlowOutcome(r.doc.status, pc, step.rec.doc.status, false))
  {
    if pc.LoadingPages? {
      NonEmptyRows(r.pages);
    }
  }

  lemma NonEmptyRows<T>(m: map<nat, T>)
    requires m != map[]
    ensures OrderedValues(m) != []
  {
    var k :| k in m.Keys;
    assert k in Ascending(m.Keys);
  }

  lemma {:induction false} RunFlow(c: Config, s: State, pid: Pid, d: DocId, pc: FlowPc, job: Pid)
    returns (sched: seq<Action>, t: State)
    requires RunsFlow(s, pid, d, pc) && !pc.Stamping? && HasPages(pc, s.db[d]) && job !in s.acts
    ensures Leads(c, s, sched, t) && |sched| <= FlowRank(pc) + (if pc.Starting? then 1 else 0)
    ensures FlowEnds(c, s, t, pid, d, pc, job)
    decreases FlowRank(pc), pc.Starting?
  {
    if pc.Posting? {
      sched, t := PostAndStamp(c, s, pid, d, pc.objects, pc.tries, pc.again, job);
    } else {
      QuietStep(pc, s.db[d], s.now);
      var step := NextFlow(pc, s.db[d], FineFor(pc, s.db[d]), s.now);
      var first, u := QuietMove(c, s, pid, d, pc);
      if step.next.None? {
        sched, t := first, u;
      } else {
        FlowOfWithFlow(s.acts[pid], d, step.next.value);
        var rest;
        rest, t := RunFlow(c, u, pid, d, step.next.value, job);
        LeadsConcat(c, s, first, u, rest, t);
        sched := first + rest;
        FlowEndsChain(c, s, u, t, pid, d, pc, step.next.value, job);
      }
    }
  }

  lemma FlowEndsChain(c: Config, s: State, u: State, t: State, pid: Pid, d: DocId, pc: FlowPc, next: FlowPc, job: Pid)
    requires pid in s.acts && FlowOf(s.acts[pid]).Some? && d in s.db
    requires FlowEnds(c, u, t, pid, d, next, job) && !next.Starting?
    requires u.now == s.now && SameDocs(s.db, u.db, d)
    requires u.acts == SetAct(s.acts, pid, WithFlow(s.acts[pid], d, Some(next)))
    requires u.db[d].doc.status == (if pc.Starting? && s.db[d].doc.status == Uploaded then Processing else s.db[d].doc.status)
    ensures FlowEnds(c, s, t, pid, d, pc, job)
  {
    FlowOfWithFlow(s.acts[pid], d, next);
  }

  // ---------- recovering every listed document ----------

  predicate RecoversAt(s: State, pid: Pid, todo: seq<Entry>) {
    pid in s.acts && s.acts[pid] == Poller(Recovering(todo, None))
  }

  predicate ActsKept(a: map<Pid, Activity>, b: map<Pid, Activity>, pid: Pid) {
    forall p :: p in a && p != pid ==> p in b && b[p] == a[p]
  }

  /** The document is past OCR, failed, or being recognized by a job that has not started. */
  ghost predicate Underway(c: Config, s: State, d: DocId) {
    d in s.db &&
    (s.db[d].doc.status == OCRDone || s.db[d].doc.status == Failed
     || (s.db[d].doc.status == Processing && exists j :: FreshJob(c, s, j, d)))
  }

  predicate FreshJob(c: Config, s: State, j: Pid, d: DocId) {
    j in s.acts && s.acts[j].Job? && s.acts[j] == NewJob(c, d, s.acts[j].pages)
  }

  /** An entry that still describes its row, which has pages if it is stamped. */
  predicate EntryCurrent(s: State, e: Entry) {
    e.doc in s.db && EntryAccurate(s, e) && (e.stamped ==> s.db[e.doc].pages != map[])
  }

  lemma EntryMove(c: Config, s: State, pid: Pid, todo: seq<Entry>)
    requires RecoversAt(s, pid, todo) && todo != [] && todo[0].doc in s.db
    ensures Enabled(c, s, NextEntry(pid, Fine))
    ensures Leads(c, s, [NextEntry(pid, Fine)], Commit(s, EntryEffect(c, s, pid, Fine)))
  {
    OneStep(c, s, NextEntry(pid, Fine));
  }

  /** The janitor deals with the first entry of its list. */
  lemma RecoverOne(c: Config, s: State, pid: Pid, todo: seq<Entry>) returns (sched: seq<Action>, t: State)
    requires RecoversAt(s, pid, todo) && todo != [] && EntryCurrent(s, todo[0])
    ensures Leads(c, s, sched, t) && |sched| <= 9
    ensures t.now == s.now && SameDocs(s.db, t.db, todo[0].doc) && ActsKept(s.acts, t.acts, pid)
    ensures RecoversAt(t, pid, todo[1..]) && Underway(c, t, todo[0].doc)
  {
    var e := todo[0];
    EntryMove(c, s, pid, todo);
    var u := Commit(s, EntryEffect(c, s, pid, Fine));
    if e.status == Processing {
      var pc := if e.stamped then LoadingPages else Starting;
      assert u.acts[pid] == Poller(Recovering(todo, Some(Flow(e.doc, pc))));
      var job := FreshAbove(u.acts.Keys);
      var rest;
      rest, t := RunFlow(c, u, pid, e.doc, pc, job);
      LeadsConcat(c, s, [NextEntry(pid, Fine)], u, rest, t);
      sched := [NextEntry(pid, Fine)] + rest;
      FlowUnderway(c, u, t, pid, e.doc, pc, job);
    } else {
      sched, t := [NextEntry(pid, Fine)], u;
    }
  }

  lemma FlowUnderway(c: Config, u: State, t: State, pid: Pid, d: DocId, pc: FlowPc, job: Pid)
    requires FlowEnds(c, u, t, pid, d, pc, job) && job !in u.acts
    requires u.db[d].doc.status == Processing || (u.db[d].doc.status == Uploaded && pc == Starting)
    ensures Underway(c, t, d) && ActsKept(u.acts, t.acts, pid)
  {
    if job in t.acts {
      assert FreshJob(c, t, job, d);
    }
  }

  lemma UnderwayKept(c: Config, s: State, t: State, pid: Pid, d: DocId)
    requires Underway(c, s, d) && ActsKept(s.acts, t.acts, pid) && pid in s.acts && s.acts[pid].Poller?
    requires d in t.db && t.db[d] == s.db[d]
    ensures Underway(c, t, d)
  {
    if s.db[d].doc.status == Processing {
      var j :| FreshJob(c, s, j, d);
      assert FreshJob(c, t, j, d);
    }
  }

  ghost predicate AllCurrent(s: State, todo: seq<Entry>) {
    NoRepeats(todo) && forall i :: 0 <= i < |todo| ==> EntryCurrent(s, todo[i])
  }

  lemma RestCurrent(s: State, t: State, todo: seq<Entry>)
    requires todo != [] && AllCurrent(s, todo) && SameDocs(s.db, t.db, todo[0].doc)
    ensures AllCurrent(t, todo[1..])
  {
    forall i | 0 <= i < |todo| - 1
      ensures EntryCurrent(t, todo[1..][i])
    {
      assert EntryCurrent(s, todo[i + 1]) && todo[i + 1].doc != todo[0].doc;
    }
  }

  /** The whole list: every listed document gets under way, the others are not touched. */
  lemma {:induction false} RecoverAll(c: Config, s: State, pid: Pid, todo: seq<Entry>) returns (sched: seq<Action>, t: State)
    requires RecoversAt(s, pid, todo) && AllCurrent(s, todo)
    ensures Leads(c, s, sched, t) && |sched| <= 9 * |todo|
    ensures t.now == s.now && t.db.Keys == s.db.Keys && ActsKept(s.acts, t.acts, pid) && RecoversAt(t, pid, [])
    ensures forall d :: d in s.db && !Listed(todo, d) ==> t.db[d] == s.db[d]
    ensures forall d :: Listed(todo, d) ==> Underway(c, t, d)
    decreases |todo|
  {
    if todo == [] {
      sched, t := [], s;
    } else {
      assert EntryCurrent(s, todo[0]);
      var first, u := RecoverOne(c, s, pid, todo);
      RestCurrent(s, u, todo);
      var rest;
      rest, t := RecoverAll(c, u, pid, todo[1..]);
      LeadsConcat(c, s, first, u, rest, t);
      sched := first + rest;
      ListedSplit(todo);
      assert t.db[todo[0].doc] == u.db[todo[0].doc];
      UnderwayKept(c, u, t, pid, todo[0].doc);
    }
  }

  lemma ListedSplit(todo: seq<Entry>)
    requires todo != [] && NoRepeats(todo)
    ensures forall d :: Listed(todo, d) <==> d == todo[0].doc || Listed(todo[1..], d)
    ensures !Listed(todo[1..], todo[0].doc)
  {
    forall d
      ensures Listed(todo, d) <==> d == todo[0].doc || Listed(todo[1..], d)
    {
      if Listed(todo, d) {
        var i :| 0 <= i < |todo| && todo[i].doc == d;
        assert i > 0 ==> todo[1..][i - 1].doc == d;
      }
      if Listed(todo[1..], d) {
        var i :| 0 <= i < |todo| - 1 && todo[1..][i].doc == d;
        assert todo[i + 1].doc == d;
      }
      assert todo[0].doc == d ==> Listed(todo, d);
    }
    forall i | 0 <= i < |todo| - 1
      ensures todo[1..][i].doc != todo[0].doc
    {
      assert todo[1..][i] == todo[i + 1];
    }
  }

  // ---------- running an OCR job to its end ----------

  predicate RunsJob(s: State, j: Pid, d: DocId, fan: FanOut.State) {
    j in s.acts && s.acts[j].Job? && s.acts[j].doc == d && s.acts[j].fan == fan && d in s.db
  }

  lemma JobMove(c: Config, s: State, j: Pid, d: DocId, fan: FanOut.State, step: FanOut.Action) returns (t: State)
    requires RunsJob(s, j, d, fan) && FanOut.Enabled(fan, step) && FanOut.Fine(step)
    ensures Leads(c, s, [StepJob(j, step, "")], t)
    ensures t.now == s.now && SameDocs(s.db, t.db, d) && t.db[d].doc == s.db[d].doc
    ensures t.db[d].extractions == s.db[d].extractions
    ensures RunsJob(t, j, d, FanOut.Apply(fan, step)) && SameActs(s.acts, t.acts, {j})
  {
    OneStep(c, s, StepJob(j, step, ""));
    t := Next(c, s, StepJob(j, step, ""));
  }

  lemma EndJobMove(c: Config, s: State, j: Pid, d: DocId, fan: FanOut.State) returns (t: State)
    requires RunsJob(s, j, d, fan) && fan.launcher == FanOut.Returned(None)
    ensures Leads(c, s, [EndJob(j, true)], t)
    ensures t.now == s.now && SameDocs(s.db, t.db, d) && SameActs(s.acts, t.acts, {j})
    ensures t.db[d].doc == if s.db[d].doc.status == Processing then MovedTo(s.db[d].doc, OCRDone, s.now) else s.db[d].doc
    ensures t.db[d].extractions == s.db[d].extractions
  {
    OneStep(c, s, EndJob(j, true));
    t := Next(c, s, EndJob(j, true));
  }

  lemma {:induction false} RunJob(c: Config, s: State, j: Pid, d: DocId, fan: FanOut.State)
    returns (sched: seq<Action>, t: State)
    requires RunsJob(s, j, d, fan) && FanOut.Inv(fan) && FanOut.Clean(fan)
    ensures Leads(c, s, sched, t) && |sched| <= FanOut.Work(fan) + 1
    ensures t.now == s.now && SameDocs(s.db, t.db, d) && SameActs(s.acts, t.acts, {j})
    ensures t.db[d].doc == if s.db[d].doc.status == Processing then MovedTo(s.db[d].doc, OCRDone, s.now) else s.db[d].doc
    ensures t.db[d].extractions == s.db[d].extractions
    decreases FanOut.Work(fan)
  {
    if fan.launcher.Returned? {
      t := EndJobMove(c, s, j, d, fan);
      sched := [EndJob(j, true)];
    } else {
      var step := FanOut.CleanStep(fan);
      var u := JobMove(c, s, j, d, fan, step);
      var rest;
      rest, t := RunJob(c, u, j, d, FanOut.Apply(fan, step));
      LeadsConcat(c, s, [StepJob(j, step, "")], u, rest, t);
      sched := [StepJob(j, step, "")] + rest;
    }
  }

  /** A job that has not started brings its document past OCR. */
  lemma RunFreshJob(c: Config, s: State, d: DocId) returns (sched: seq<Action>, t: State)
    requires ValidConfig(c) && Inv(c, s) && Underway(c, s, d)
    ensures Leads(c, s, sched, t) && |sched| <= 8 * s.db[d].doc.pdfPages + 4
    ensures t.now == s.now && t.db.Keys == s.db.Keys
    ensures forall p :: p in s.acts && s.acts[p].Poller? ==> p in t.acts && t.acts[p] == s.acts[p]
    ensures t.db[d].doc.status == OCRDone || t.db[d].doc.status == Failed
  {
    if s.db[d].doc.status != Processing {
      sched, t := [], s;
    } else {
      var j :| FreshJob(c, s, j, d);
      assert ActInv(s.acts[j], s.db);
      var fan := s.acts[j].fan;
      FanOut.InitialWork(fan.total, c.concurrency, c.needsImage);
      sched, t := RunJob(c, s, j, d, fan);
    }
  }

  // ---------- the whole schedule ----------

  lemma {:induction false} LeadsInv(c: Config, s: State, actions: seq<Action>, t: State)
    requires ValidConfig(c) && Inv(c, s) && Leads(c, s, actions, t)
    ensures Inv(c, t)
  {
    LeadsIsRun(c, s, actions, t);
    RunInv(c, s, actions);
  }

  lemma InvFed(c: Config, s: State)
    requires Inv(c, s)
    ensures Fed(s.db)
  {
    forall d | d in s.db && PostOCR(s.db[d].doc.status)
      ensures s.db[d].ocr != map[]
    {
      assert Sound(c.maxAttempts, s.db[d]) && 1 in s.db[d].ocr;
    }
  }

  predicate Ended(s: State, d: DocId) {
    d in s.db && (s.db[d].doc.status == Extracted || s.db[d].doc.status == Failed)
  }

  lemma WaitFor(c: Config, s: State, until: Time) returns (sched: seq<Action>, t: State)
    ensures Leads(c, s, sched, t) && |sched| == 1 && t.now >= until && t.now >= s.now && t == s.(now := t.now)
  {
    var time: nat := if until > s.now then until - s.now else 0;
    OneStep(c, s, Tick(time));
    sched, t := [Tick(time)], s.(now := s.now + time);
  }

  lemma StartMove(c: Config, s: State) returns (pid: Pid, sched: seq<Action>, t: State)
    ensures Leads(c, s, sched, t) && |sched| == 1 && t.now == s.now && t.db == s.db && DrainsAt(t, pid)
  {
    pid := FreshAbove(s.acts.Keys);
    OneStep(c, s, StartPoller(pid));
    sched, t := [StartPoller(pid)], Next(c, s, StartPoller(pid));
    assert t.db == s.db;
  }

  function NextClaim(d: Document): Time {
    if d.nextExtractionAt.Some? then d.nextExtractionAt.value else 0
  }

  /** Past its backoff, one sweep ends an ocr_done document. */
  lemma SweepEnds(c: Config, s: State, t: State, d: DocId)
    requires Swept(c, s, t) && d in s.db
    requires s.db[d].doc.status == Failed || s.db[d].doc.status == Extracted
      || (s.db[d].doc.status == OCRDone && s.now >= NextClaim(s.db[d].doc))
    ensures Ended(t, d)
  {
    assert SweptDoc(c, s.now, s.db[d], t.db[d]);
  }

  /** A poller that drains brings a document past OCR to its end, once the backoff is over. */
  lemma FinishOff(c: Config, s: State, pid: Pid, d: DocId) returns (sched: seq<Action>, t: State)
    requires ValidConfig(c) && Inv(c, s) && DrainsAt(s, pid) && d in s.db
    requires s.db[d].doc.status == OCRDone || s.db[d].doc.status == Failed
    ensures Leads(c, s, sched, t) && |sched| <= 5 * |s.db| + 3 && Ended(t, d)
  {
    var wait, u := WaitFor(c, s, NextClaim(s.db[d].doc));
    InvFed(c, s);
    var rest;
    rest, t := Sweep(c, u, pid);
    SweepEnds(c, u, t, d);
    LeadsConcat(c, s, wait, u, rest, t);
    sched := wait + rest;
  }

  lemma ResumeDrain(c: Config, s: State, pid: Pid)
    requires RecoversAt(s, pid, [])
    ensures Leads(c, s, [NextEntry(pid, Fine)], s.(acts := s.acts[pid := Poller(Draining)]))
  {
    OneStep(c, s, NextEntry(pid, Fine));
  }

  lemma EntriesCurrent(c: Config, s: State, todo: seq<Entry>)
    requires Inv(c, s) && StuckList(c, s, todo)
    ensures AllCurrent(s, todo)
  {
    forall i | 0 <= i < |todo|
      ensures EntryCurrent(s, todo[i])
    {
      var e := todo[i];
      assert e in todo && EntryAccurate(s, e) && Sound(c.maxAttempts, s.db[e.doc]);
      if e.stamped {
        assert 1 in s.db[e.doc].pages;
      }
    }
  }

  /** The janitor's half of the tick: list, recover, and let the new job of d run. */
  lemma JanitorHalf(c: Config, s: State, pid: Pid, d: DocId) returns (sched: seq<Action>, t: State)
    requires ValidConfig(c) && Inv(c, s) && pid in s.acts && s.acts[pid] == Poller(Listing)
    requires d in s.db && Stuck(c, s, s.db[d].doc)
    ensures Leads(c, s, sched, t) && |sched| <= 9 * |s.db| + 8 * s.db[d].doc.pdfPages + 6
    ensures t.db.Keys == s.db.Keys && DrainsAt(t, pid)
    ensures d in t.db && (t.db[d].doc.status == OCRDone || t.db[d].doc.status == Failed)
  {
    var todo := ListExists(c, s);
    ListMove(c, s, pid, todo);
    EntriesCurrent(c, s, todo);
    var u := s.(acts := s.acts[pid := Poller(Recovering(todo, None))]);
    var middle, v := RecoverAll(c, u, pid, todo);
    LeadsConcat(c, s, [ListStuck(pid, todo)], u, middle, v);
    var start := [ListStuck(pid, todo)] + middle;
    LeadsInv(c, s, start, v);
    SamePages(c, s, start, v, d);
    var job, w := RunFreshJob(c, v, d);
    LeadsConcat(c, s, start, v, job, w);
    ResumeDrain(c, w, pid);
    t := w.(acts := w.acts[pid := Poller(Draining)]);
    LeadsConcat(c, s, start + job, w, [NextEntry(pid, Fine)], t);
    sched := start + job + [NextEntry(pid, Fine)];
  }

  lemma SamePages(c: Config, s: State, sched: seq<Action>, t: State, d: DocId)
    requires ValidConfig(c) && Inv(c, s) && Leads(c, s, sched, t) && d in s.db
    ensures d in t.db && t.db[d].doc.pdfPages == s.db[d].doc.pdfPages
  {
    LeadsIsRun(c, s, sched, t);
    RunInv(c, s, sched);
  }

  /** Long enough for d to count as stuck and for its backoff to be over. */
  function Patience(c: Config, d: Document): Time {
    var stuck := d.updatedAt + c.stuckTimeout + 1;
    if stuck > NextClaim(d) then stuck else NextClaim(d)
  }

  /** A waiting poller's first sweep ends d or leaves it stuck and untouched. */
  lemma FirstSweep(c: Config, s: State, d: DocId) returns (pid: Pid, sched: seq<Action>, t: State)
    requires ValidConfig(c) && Inv(c, s) && d in s.db && s.db[d].doc.status != Uploaded
    ensures Leads(c, s, sched, t) && |sched| <= 5 * |s.db| + 4 && t.db.Keys == s.db.Keys
    ensures pid in t.acts && t.acts[pid] == Poller(Listing)
    ensures Ended(t, d) || (d in t.db && t.db[d] == s.db[d] && Stuck(c, t, t.db[d].doc))
  {
    var wait, u := WaitFor(c, s, Patience(c, s.db[d].doc));
    var start, v;
    pid, start, v := StartMove(c, u);
    InvFed(c, s);
    var rest;
    rest, t := Sweep(c, v, pid);
    assert SweptDoc(c, v.now, v.db[d], t.db[d]);
    LeadsConcat(c, s, wait, u, start, v);
    LeadsConcat(c, s, wait + start, v, rest, t);
    sched := wait + start + rest;
  }

  /**
   Recoverability: from any state in which the invariant holds, any document past `uploaded`
   reaches extracted or failed by a faultless schedule of one poller, the clock and its OCR job,
   of a length linear in the number of documents and of its pages.
   */
  lemma Recover(c: Config, s: State, d: DocId) returns (sched: seq<Action>, t: State)
    requires ValidConfig(c) && Inv(c, s) && d in s.db && s.db[d].doc.status != Uploaded
    ensures Leads(c, s, sched, t) && Ended(t, d)
    ensures |sched| <= 19 * |s.db| + 8 * s.db[d].doc.pdfPages + 13
  {
    var pid, first, u := FirstSweep(c, s, d);
    DbSize(s.db, u.db);
    if Ended(u, d) {
      sched, t := first, u;
    } else {
      LeadsInv(c, s, first, u);
      var second, v := JanitorHalf(c, u, pid, d);
      DbSize(s.db, v.db);
      LeadsConcat(c, s, first, u, second, v);
      LeadsInv(c, u, second, v);
      var third;
      third, t := FinishOff(c, v, pid, d);
      LeadsConcat(c, s, first + second, v, third, t);
      sched := first + second + third;
    }
  }

  lemma DbSize(a: map<DocId, Record>, b: map<DocId, Record>)
    requires a.Keys == b.Keys
    ensures |a| == |b|
  {
    assert |a| == |a.Keys| && |b| == |b.Keys|;
  }
}
