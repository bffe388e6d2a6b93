/**
 The pipeline as one state machine. The database is the only thing the activities share; each
 SQL statement or transaction is one step. Activities are ingest goroutines, OCR jobs and
 pollers; any of them may crash between two steps, a job may be delivered more than once, and
 a statement may fail before or after it takes effect. An action names the activity that
 moves and everything its environment decides.
 */
module Pipeline {
  import opened Wrappers
  import opened Seqs
  import opened Aggregate
  import opened Normalize
  import opened Schema
  import opened Tables
  import Backoff
  import FanOut

  type Pid = nat

  /** One page of a job request. */
  datatype PageRef = PageRef(number: nat, object: PageObject)

  // ---------- activities ----------

  /** Where `process` or `Redispatch` stands. */
  datatype FlowPc =
    | Starting                                    // UPDATE uploaded -> processing
    | Rereading                                   // GetByID after an update that moved nothing
    | Converting                                  // fetch the PDF, convert it, upload the images
    | RecordingPages(objects: seq<PageObject>)
    | RecordingCount(objects: seq<PageObject>)
    | LoadingPages                                // Redispatch reads pages
    | Posting(objects: seq<PageObject>, tries: nat, again: bool)
    | Stamping(again: bool)                       // again: in Redispatch
    | MarkingFailed(stage: Stage, message: string)

  datatype Flow = Flow(doc: DocId, pc: FlowPc)

  /** Where an extraction worker stands. */
  datatype WorkerPc =
    | Loading                                     // read ocr_results
    | Asking                                      // the LLM call
    | Saving(content: ExtractedMatricula)
    | Completing                                  // UPDATE extracting -> extracted
    | Requeueing
    | Abandoning(message: string)

  /** What the janitor's list says about a document. */
  datatype Entry = Entry(doc: DocId, status: Status, stamped: bool)

  datatype PollerPc =
    | Draining
    | Working(doc: DocId, attempt: nat, worker: WorkerPc)
    | Exhausting
    | Listing
    | Recovering(todo: seq<Entry>, flow: Option<Flow>)

  datatype Activity =
    | Upload(flow: Flow)
    | Job(doc: DocId, pages: seq<PageRef>, fan: FanOut.State)
    | Poller(pc: PollerPc)

  datatype State = State(db: map<DocId, Record>, now: Time, acts: map<Pid, Activity>)

  datatype Config = Config(maxAttempts: nat, concurrency: nat, needsImage: bool, stuckTimeout: int)

  predicate ValidConfig(c: Config) {
    c.maxAttempts >= 1 && c.concurrency >= 1 && c.stuckTimeout >= 0
  }

  const Initial := State(map[], 0, map[])

  // ---------- actions ----------

  /** A statement takes effect or not; it can report an error after taking effect, never the reverse. */
  datatype Outcome = Outcome(applied: bool, acked: bool)

  predicate Possible(o: Outcome) {
    o.acked ==> o.applied
  }

  datatype Choice =
    | Sql(o: Outcome)
    | Read(ok: bool)                              // a query, or work outside the database
    | Post(delivered: bool, accepted: bool)       // one POST: did the job start, did a 2xx come back
    | GiveUp                                      // ctx done between two posts
    | Answer(content: ExtractedMatricula)         // the LLM
    | AnswerError(transient: bool, message: string)

  datatype Action =
    | CreateDocument(doc: DocId, pdfPages: nat, pid: Pid, spawned: bool)
    | Tick(time: nat)
    | Crash(pid: Pid)
    | StartPoller(pid: Pid)
    | Redeliver(pid: Pid, job: Pid)
    | StepFlow(pid: Pid, choice: Choice, job: Pid)
    | StepJob(pid: Pid, step: FanOut.Action, text: string)
    | EndJob(pid: Pid, applied: bool)
    | Claim(pid: Pid, doc: DocId, o: Outcome)
    | ClaimNothing(pid: Pid)
    | StepWorker(pid: Pid, choice: Choice)
    | Exhaust(pid: Pid, applied: bool)
    | ListStuck(pid: Pid, todo: seq<Entry>)
    | NextEntry(pid: Pid, o: Outcome)

  /** A step writes at most one document's rows, moves one activity and starts at most one. */
  datatype Effect = Effect(
    write: Option<(DocId, Record)>, pid: Pid, act: Option<Activity>, spawn: Option<(Pid, Activity)>)

  function SetAct(acts: map<Pid, Activity>, pid: Pid, act: Option<Activity>): map<Pid, Activity> {
    match act
    case Some(a) => acts[pid := a]
    case None => map p | p in acts && p != pid :: acts[p]
  }

  function Commit(s: State, e: Effect): State {
    var db := if e.write.Some? then s.db[e.write.value.0 := e.write.value.1] else s.db;
    var acts := SetAct(s.acts, e.pid, e.act);
    State(db, s.now, if e.spawn.Some? then acts[e.spawn.value.0 := e.spawn.value.1] else acts)
  }

  function After(stmt: Stmt, o: Outcome, now: Time, r: Record): Record {
    if o.applied then Execute(stmt, now, r) else r
  }

  // ---------- process and Redispatch ----------

  /** `DispatchOCRJob` numbers the objects by position. */
  function JobPages(objects: seq<PageObject>): (r: seq<PageRef>)
    ensures |r| == |objects|
    ensures forall i :: 0 <= i < |r| ==> r[i] == PageRef(i + 1, objects[i])
  {
    seq(|objects|, (i: nat) requires i < |objects| => PageRef(i + 1, objects[i]))
  }

  datatype FlowStep = FlowStep(rec: Record, next: Option<FlowPc>, posted: Option<seq<PageRef>>)

  const POST_ATTEMPTS := 3

  predicate FlowEnabled(pc: FlowPc, r: Record, ch: Choice) {
    match pc
    case Rereading => ch.Read?
    case Converting => ch.Read? && (ch.ok ==> r.doc.pdfPages >= 1)
    case LoadingPages => ch.Read?
    case Posting(objects, tries, _) =>
      || (ch.Post? && (ch.accepted ==> ch.delivered) && (ch.delivered ==> objects != []))
      || (ch.GiveUp? && tries > 0)
    case _ => ch.Sql? && Possible(ch.o)
  }

  function NextFlow(pc: FlowPc, r: Record, ch: Choice, now: Time): FlowStep
    requires FlowEnabled(pc, r, ch)
  {
    match pc
    case Starting =>
      FlowStep(After(UpdateStatus(Uploaded, Processing), ch.o, now, r),
        if !ch.o.acked then Some(MarkingFailed(IngestStage, "update status"))
        else if r.doc.status == Uploaded then Some(Converting)
        else Some(Rereading), None)
    case Rereading =>
      FlowStep(r,
        if !ch.ok then Some(MarkingFailed(IngestStage, "get document"))
        else if r.doc.status == Processing then Some(Converting)
        else None, None)
    case Converting =>
      FlowStep(r,
        if ch.ok then Some(RecordingPages(PageObjects(r.doc.id, r.doc.pdfPages)))
        else Some(MarkingFailed(IngestStage, "convert pdf")), None)
    case RecordingPages(objects) =>
      FlowStep(After(AddPages(objects), ch.o, now, r),
        if ch.o.acked then Some(RecordingCount(objects))
        else Some(MarkingFailed(IngestStage, "record pages")), None)
    case RecordingCount(objects) =>
      FlowStep(After(SetPageCount(|objects|), ch.o, now, r),
        if ch.o.acked then Some(Posting(objects, 0, false))
        else Some(MarkingFailed(IngestStage, "record page count")), None)
    case LoadingPages =>
      var objects := OrderedValues(r.pages);
      FlowStep(r, if ch.ok && objects != [] then Some(Posting(objects, 0, true)) else None, None)
    case Posting(objects, tries, again) =>
      if ch.GiveUp? then
        FlowStep(r, Some(MarkingFailed(DispatchStage, "dispatch ocr job")), None)
      else
        FlowStep(r,
          if ch.accepted then Some(Stamping(again))
          else if tries + 1 < POST_ATTEMPTS then Some(Posting(objects, tries + 1, again))
          else Some(MarkingFailed(DispatchStage, "dispatch ocr job")),
          if ch.delivered then Some(JobPages(objects)) else None)
    case Stamping(again) =>
      FlowStep(After(SetOCRDispatched, ch.o, now, r),
        if ch.o.acked || again then None
        else Some(MarkingFailed(IngestStage, "record ocr dispatch")), None)
    case MarkingFailed(stage, message) =>
      FlowStep(After(MarkFailed(Processing, stage, message), ch.o, now, r), None, None)
  }

  function NewJob(c: Config, doc: DocId, pages: seq<PageRef>): Activity {
    Job(doc, pages, FanOut.Initial(|pages|, c.concurrency, c.needsImage))
  }

  // ---------- the worker of one claim ----------

  datatype WorkerStep = WorkerStep(rec: Record, next: Option<WorkerPc>)

  predicate WorkerEnabled(w: WorkerPc, r: Record, ch: Choice) {
    match w
    case Loading => ch.Read?
    case Asking => ch.Answer? || ch.AnswerError?
    case Saving(content) => ch.Sql? && Possible(ch.o) && (ch.o.applied ==> Storable(content))
    case _ => ch.Sql? && Possible(ch.o)
  }

  function NextWorker(w: WorkerPc, attempt: nat, r: Record, ch: Choice, now: Time): WorkerStep
    requires WorkerEnabled(w, r, ch)
  {
    match w
    case Loading =>
      WorkerStep(r,
        if !ch.ok then Some(Requeueing)
        else if OrderedValues(r.ocr) == [] then Some(Abandoning("document is ocr_done but has no ocr_results rows"))
        else Some(Asking))
    case Asking =>
      WorkerStep(r,
        if ch.Answer? then Some(Saving(Normalized(ch.content)))
        else if ch.transient then Some(Requeueing)
        else Some(Abandoning(ch.message)))
    case Saving(content) =>
      WorkerStep(After(SaveAggregate(attempt, content), ch.o, now, r),
        if ch.o.acked then Some(Completing) else Some(Requeueing))
    case Completing =>
      WorkerStep(After(UpdateStatus(Extracting, Extracted), ch.o, now, r),
        if ch.o.acked then None else Some(Requeueing))
    case Requeueing =>
      WorkerStep(After(ReturnForRetry(Backoff.RetryBackoff(attempt)), ch.o, now, r), None)
    case Abandoning(message) =>
      WorkerStep(After(MarkFailed(Extracting, ExtractionStage, message), ch.o, now, r), None)
  }

  // ---------- steps of the whole system ----------

  predicate IsPoller(s: State, pid: Pid) {
    pid in s.acts && s.acts[pid].Poller?
  }

  predicate IsJob(s: State, pid: Pid) {
    pid in s.acts && s.acts[pid].Job? && s.acts[pid].doc in s.db
  }

  /** The flow an activity is running: an upload's own, or the one the janitor runs inline. */
  function FlowOf(act: Activity): Option<Flow> {
    match act
    case Upload(flow) => Some(flow)
    case Poller(Recovering(todo, flow)) => if todo != [] then flow else None
    case _ => None
  }

  /** The activity after its flow moves to next; when the janitor's flow ends, so does its entry. */
  function WithFlow(act: Activity, doc: DocId, next: Option<FlowPc>): Option<Activity>
    requires FlowOf(act).Some?
  {
    match act
    case Upload(_) => if next.Some? then Some(Upload(Flow(doc, next.value))) else None
    case Poller(pc) =>
      Some(Poller(if next.Some? then Recovering(pc.todo, Some(Flow(doc, next.value)))
                  else Recovering(pc.todo[1..], None)))
  }

  predicate EntryAccurate(s: State, e: Entry) {
    && e.doc in s.db
    && (e.status == Processing || e.status == Extracting)
    && s.db[e.doc].doc.status == e.status
    && e.stamped == s.db[e.doc].doc.ocrDispatchedAt.Some?
  }

  predicate Enabled(c: Config, s: State, a: Action) {
    match a
    case CreateDocument(d, _, pid, _) => d !in s.db && pid !in s.acts
    case Tick(_) => true
    case Crash(pid) => pid in s.acts
    case StartPoller(pid) => pid !in s.acts
    case Redeliver(pid, job) => IsJob(s, pid) && job !in s.acts
    case StepFlow(pid, ch, job) =>
      && pid in s.acts && FlowOf(s.acts[pid]).Some?
      && var flow := FlowOf(s.acts[pid]).value;
      && flow.doc in s.db && FlowEnabled(flow.pc, s.db[flow.doc], ch)
      && job !in s.acts
    case StepJob(pid, step, _) =>
      && IsJob(s, pid) && FanOut.Enabled(s.acts[pid].fan, step)
    case EndJob(pid, _) => IsJob(s, pid) && s.acts[pid].fan.launcher.Returned?
    case Claim(pid, d, o) =>
      && IsPoller(s, pid) && s.acts[pid].pc.Draining?
      && d in s.db && Claimable(s.db[d].doc, c.maxAttempts, s.now) && Possible(o)
    case ClaimNothing(pid) => IsPoller(s, pid) && s.acts[pid].pc.Draining?
    case StepWorker(pid, ch) =>
      && IsPoller(s, pid) && s.acts[pid].pc.Working?
      && s.acts[pid].pc.doc in s.db
      && WorkerEnabled(s.acts[pid].pc.worker, s.db[s.acts[pid].pc.doc], ch)
    case Exhaust(pid, _) => IsPoller(s, pid) && s.acts[pid].pc.Exhausting?
    case ListStuck(pid, todo) =>
      && IsPoller(s, pid) && s.acts[pid].pc.Listing?
      && forall e :: e in todo ==> EntryAccurate(s, e)
    case NextEntry(pid, o) =>
      && IsPoller(s, pid) && s.acts[pid].pc.Recovering? && Possible(o)
      && (s.acts[pid].pc.todo != [] ==> s.acts[pid].pc.flow.None? && s.acts[pid].pc.todo[0].doc in s.db)
  }

  function FlowEffect(c: Config, s: State, pid: Pid, ch: Choice, job: Pid): Effect
    requires Enabled(c, s, StepFlow(pid, ch, job))
  {
    var flow := FlowOf(s.acts[pid]).value;
    var step := NextFlow(flow.pc, s.db[flow.doc], ch, s.now);
    Effect(Some((flow.doc, step.rec)), pid, WithFlow(s.acts[pid], flow.doc, step.next),
      if step.posted.Some? then Some((job, NewJob(c, flow.doc, step.posted.value))) else None)
  }

  function JobEffect(c: Config, s: State, pid: Pid, step: FanOut.Action, text: string): Effect
    requires Enabled(c, s, StepJob(pid, step, text))
  {
    var act := s.acts[pid];
    var r := s.db[act.doc];
    Effect(
      Some((act.doc,
        if step.Upsert? && step.applied && step.page < |act.pages|
        then Execute(UpsertPage(act.pages[step.page].number, text), s.now, r) else r)),
      pid, Some(act.(fan := FanOut.Apply(act.fan, step))), None)
  }

  /** The end of `worker.process`: a store error flips nothing, any other error fails the document. */
  function JobVerdict(result: Option<FanOut.Failure>): Option<Stmt> {
    match result
    case None => Some(MarkOCRDone)
    case Some(StoreFailure) => None
    case Some(_) => Some(MarkFailed(Processing, OCRStage, "ocr"))
  }

  function EndJobEffect(c: Config, s: State, pid: Pid, applied: bool): Effect
    requires Enabled(c, s, EndJob(pid, applied))
  {
    var act := s.acts[pid];
    var r := s.db[act.doc];
    var stmt := JobVerdict(act.fan.launcher.result);
    Effect(Some((act.doc, if applied && stmt.Some? then Execute(stmt.value, s.now, r) else r)), pid, None, None)
  }

  function ClaimEffect(c: Config, s: State, pid: Pid, d: DocId, o: Outcome): Effect
    requires Enabled(c, s, Claim(pid, d, o))
  {
    var r := s.db[d];
    Effect(Some((d, After(ClaimForExtraction(c.maxAttempts), o, s.now, r))), pid,
      Some(Poller(if o.acked then Working(d, r.doc.extractionAttempts + 1, Loading) else Exhausting)), None)
  }

  function WorkerEffect(c: Config, s: State, pid: Pid, ch: Choice): Effect
    requires Enabled(c, s, StepWorker(pid, ch))
  {
    var pc := s.acts[pid].pc;
    var step := NextWorker(pc.worker, pc.attempt, s.db[pc.doc], ch, s.now);
    Effect(Some((pc.doc, step.rec)), pid,
      Some(Poller(if step.next.Some? then Working(pc.doc, pc.attempt, step.next.value) else Draining)), None)
  }

  /** The janitor's switch on the status it listed. */
  function EntryEffect(c: Config, s: State, pid: Pid, o: Outcome): Effect
    requires Enabled(c, s, NextEntry(pid, o))
  {
    var todo := s.acts[pid].pc.todo;
    if todo == [] then
      Effect(None, pid, Some(Poller(Draining)), None)
    else
      var e := todo[0];
      if e.status == Processing then
        Effect(None, pid,
          Some(Poller(Recovering(todo, Some(Flow(e.doc, if e.stamped then LoadingPages else Starting))))), None)
      else
        Effect(Some((e.doc, After(ReturnForRetry(0), o, s.now, s.db[e.doc]))), pid,
          Some(Poller(Recovering(todo[1..], None))), None)
  }

  function EffectOf(c: Config, s: State, a: Action): Effect
    requires Enabled(c, s, a) && !a.Tick? && !a.Exhaust?
  {
    match a
    case CreateDocument(d, n, pid, spawned) =>
      Effect(Some((d, Created(d, n, s.now))), pid, if spawned then Some(Upload(Flow(d, Starting))) else None, None)
    case Crash(pid) => Effect(None, pid, None, None)
    case StartPoller(pid) => Effect(None, pid, Some(Poller(Draining)), None)
    case Redeliver(pid, job) =>
      Effect(None, pid, Some(s.acts[pid]), Some((job, NewJob(c, s.acts[pid].doc, s.acts[pid].pages))))
    case StepFlow(pid, ch, job) => FlowEffect(c, s, pid, ch, job)
    case StepJob(pid, step, text) => JobEffect(c, s, pid, step, text)
    case EndJob(pid, applied) => EndJobEffect(c, s, pid, applied)
    case Claim(pid, d, o) => ClaimEffect(c, s, pid, d, o)
    case ClaimNothing(pid) => Effect(None, pid, Some(Poller(Exhausting)), None)
    case StepWorker(pid, ch) => WorkerEffect(c, s, pid, ch)
    case ListStuck(pid, todo) => Effect(None, pid, Some(Poller(Recovering(todo, None))), None)
    case NextEntry(pid, o) => EntryEffect(c, s, pid, o)
  }

  /** `UPDATE ... WHERE status = 'ocr_done' AND extraction_attempts >= max`, over the whole table. */
  function ExhaustAll(db: map<DocId, Record>, maxAttempts: nat, now: Time): map<DocId, Record> {
    map d | d in db :: Execute(FailExhausted(maxAttempts), now, db[d])
  }

  function Next(c: Config, s: State, a: Action): State
    requires Enabled(c, s, a)
  {
    match a
    case Tick(time) => s.(now := s.now + time)
    case Exhaust(pid, applied) =>
      State(if applied then ExhaustAll(s.db, c.maxAttempts, s.now) else s.db, s.now,
        s.acts[pid := Poller(Listing)])
    case _ => Commit(s, EffectOf(c, s, a))
  }

  // ---------- runs ----------

  predicate Legal(c: Config, s: State, actions: seq<Action>)
    decreases |actions|
  {
    actions == [] || (Enabled(c, s, actions[0]) && Legal(c, Next(c, s, actions[0]), actions[1..]))
  }

  function Reach(c: Config, s: State, actions: seq<Action>): State
    requires Legal(c, s, actions)
    decreases |actions|
  {
    if actions == [] then s else Reach(c, Next(c, s, actions[0]), actions[1..])
  }

  lemma {:induction false} ReachSplit(c: Config, s: State, a: seq<Action>, b: seq<Action>)
    requires Legal(c, s, a)
    ensures Legal(c, s, a + b) <==> Legal(c, Reach(c, s, a), b)
    ensures Legal(c, s, a + b) ==> Reach(c, s, a + b) == Reach(c, Reach(c, s, a), b)
    decreases |a|
  {
    if a == [] {
      assert a + b == b;
    } else {
      assert (a + b)[1..] == a[1..] + b;
      ReachSplit(c, Next(c, s, a[0]), a[1..], b);
    }
  }
}
