/**
 The invariant of the pipeline: what holds of every document's rows, of every activity about
 the document it works on, and of the claim tokens (document, attempt) of the workers. The
 facts an activity relies on are never taken back by any statement (`Grows`), so each step
 only has to be checked against the document it writes.
 */
module PipelineInvariant {
  import opened Wrappers
  import opened Seqs
  import opened Normalize
  import opened Tables
  import opened Pipeline
  import Backoff
  import FanOut

  // ---------- what an activity knows about its document ----------

  ghost predicate FullList(objects: seq<PageObject>, r: Record) {
    objects == PageObjects(r.doc.id, r.doc.pdfPages) && r.doc.pdfPages >= 1
  }

  ghost predicate FlowInv(pc: FlowPc, r: Record) {
    match pc
    case RecordingPages(objects) => FullList(objects, r)
    case RecordingCount(objects) => FullList(objects, r) && PagesFull(r)
    case LoadingPages => Ready(r)
    case Posting(objects, _, _) => FullList(objects, r) && Ready(r)
    case Stamping(_) => Ready(r)
    case _ => true
  }

  ghost predicate FullJob(pages: seq<PageRef>, r: Record) {
    pages == JobPages(PageObjects(r.doc.id, r.doc.pdfPages))
  }

  ghost predicate JobInv(pages: seq<PageRef>, fan: FanOut.State, r: Record) {
    && Ready(r)
    && FullJob(pages, r)
    && fan.total == |pages|
    && FanOut.Inv(fan)
    && (forall i :: i in fan.upserted ==> i + 1 in r.ocr)
  }

  predicate Unsaved(w: WorkerPc) {
    w.Loading? || w.Asking? || w.Saving?
  }

  ghost predicate WorkerInv(attempt: nat, w: WorkerPc, r: Record) {
    && Ready(r) && OCRFull(r)
    && 1 <= attempt <= r.doc.extractionAttempts
    && (w.Saving? ==> Normalized(w.content) == w.content)
    && (w.Completing? ==> r.extractions != [])
  }

  ghost predicate EntryInv(e: Entry, db: map<DocId, Record>) {
    e.doc in db && (e.stamped ==> Ready(db[e.doc]))
  }

  ghost predicate PollerInv(pc: PollerPc, db: map<DocId, Record>) {
    match pc
    case Working(d, a, w) => d in db && WorkerInv(a, w, db[d])
    case Recovering(todo, flow) =>
      && (forall e :: e in todo ==> EntryInv(e, db))
      && (flow.Some? ==> flow.value.doc in db && FlowInv(flow.value.pc, db[flow.value.doc]))
    case _ => true
  }

  ghost predicate ActInv(act: Activity, db: map<DocId, Record>) {
    match act
    case Upload(flow) => flow.doc in db && FlowInv(flow.pc, db[flow.doc])
    case Job(d, pages, fan) => d in db && JobInv(pages, fan, db[d])
    case Poller(pc) => PollerInv(pc, db)
  }

  // ---------- the invariant ----------

  ghost predicate DbInv(M: nat, db: map<DocId, Record>) {
    forall d :: d in db ==> db[d].doc.id == d && Sound(M, db[d])
  }

  ghost predicate ActsInv(s: State) {
    forall p :: p in s.acts ==> ActInv(s.acts[p], s.db)
  }

  predicate HoldsToken(act: Activity, d: DocId, a: nat) {
    act.Poller? && act.pc.Working? && act.pc.doc == d && act.pc.attempt == a
  }

  predicate HoldsUnsaved(act: Activity, d: DocId, a: nat) {
    HoldsToken(act, d, a) && Unsaved(act.pc.worker)
  }

  /** No two live workers hold the same token, and no token saves twice. */
  ghost predicate TokensInv(s: State) {
    && TokensDistinct(s.acts)
    && (forall p: Pid, d: DocId, a: nat :: p in s.acts && d in s.db && HoldsUnsaved(s.acts[p], d, a) ==>
         a !in Attempts(s.db[d]))
  }

  ghost predicate TokensDistinct(acts: map<Pid, Activity>) {
    forall p: Pid, q: Pid, d: DocId, a: nat ::
      p in acts && q in acts && p != q && HoldsToken(acts[p], d, a) ==> !HoldsToken(acts[q], d, a)
  }

  ghost predicate Inv(c: Config, s: State) {
    DbInv(c.maxAttempts, s.db) && ActsInv(s) && TokensInv(s)
  }

  // ---------- stability ----------

  ghost predicate DbGrows(db: map<DocId, Record>, db2: map<DocId, Record>) {
    forall d :: d in db ==> d in db2 && Grows(db[d], db2[d])
  }

  lemma FlowStable(pc: FlowPc, r: Record, t: Record)
    requires FlowInv(pc, r) && Grows(r, t)
    ensures FlowInv(pc, t)
  {}

  lemma WorkerStable(attempt: nat, w: WorkerPc, r: Record, t: Record)
    requires WorkerInv(attempt, w, r) && Grows(r, t)
    requires forall k :: k in t.ocr ==> 1 <= k <= t.doc.pdfPages
    ensures WorkerInv(attempt, w, t)
  {}

  lemma JobStable(pages: seq<PageRef>, fan: FanOut.State, r: Record, t: Record)
    requires JobInv(pages, fan, r) && Grows(r, t)
    ensures JobInv(pages, fan, t)
  {}

  lemma PollerStable(M: nat, pc: PollerPc, db: map<DocId, Record>, db2: map<DocId, Record>)
    requires PollerInv(pc, db) && DbGrows(db, db2) && DbInv(M, db2)
    ensures PollerInv(pc, db2)
  {
    match pc {
      case Working(d, a, w) => WorkerStable(a, w, db[d], db2[d]);
      case Recovering(todo, flow) =>
        if flow.Some? {
          FlowStable(flow.value.pc, db[flow.value.doc], db2[flow.value.doc]);
        }
        forall e | e in todo
          ensures EntryInv(e, db2)
        {
          assert EntryInv(e, db);
        }
      case _ =>
    }
  }

  /** What an activity knows stays true whatever the others write. */
  lemma ActStable(M: nat, act: Activity, db: map<DocId, Record>, db2: map<DocId, Record>)
    requires ActInv(act, db) && DbGrows(db, db2) && DbInv(M, db2)
    ensures ActInv(act, db2)
  {
    match act {
      case Upload(flow) => FlowStable(flow.pc, db[flow.doc], db2[flow.doc]);
      case Job(d, pages, fan) => JobStable(pages, fan, db[d], db2[d]);
      case Poller(pc) => PollerStable(M, pc, db, db2);
    }
  }

  // ---------- what a step has to establish ----------

  ghost predicate WriteOK(M: nat, db: map<DocId, Record>, write: Option<(DocId, Record)>) {
    write.Some? ==>
      var (d, r) := write.value;
      r.doc.id == d && Sound(M, r) && (d in db ==> Grows(db[d], r))
  }

  ghost predicate EffectOK(c: Config, s: State, e: Effect) {
    && WriteOK(c.maxAttempts, s.db, e.write)
    && var db := Commit(s, e).db;
    && (e.act.Some? ==> ActInv(e.act.value, db))
    && (e.spawn.Some? ==> SpawnOK(s, e.pid, e.spawn.value.0, e.spawn.value.1, db))
  }

  ghost predicate SpawnOK(s: State, pid: Pid, spawned: Pid, act: Activity, db: map<DocId, Record>) {
    spawned !in s.acts && spawned != pid && act.Job? && ActInv(act, db)
  }

  /** The token rules: an act keeps its token or takes one beyond all issued; only its own token is saved. */
  ghost predicate TokenOK(s: State, e: Effect) {
    && (e.act.Some? ==> forall d: DocId, a: nat :: HoldsToken(e.act.value, d, a) ==> MayHold(s, e.pid, e.act.value, d, a))
    && (e.write.Some? ==> SavesOwn(s, e, e.write.value.0, e.write.value.1))
  }

  ghost predicate MayHold(s: State, pid: Pid, act: Activity, d: DocId, a: nat) {
    || (pid in s.acts && HoldsToken(s.acts[pid], d, a)
        && (HoldsUnsaved(act, d, a) ==> HoldsUnsaved(s.acts[pid], d, a)))
    || (d in s.db && a > s.db[d].doc.extractionAttempts)
  }

  ghost predicate SavesOwn(s: State, e: Effect, d: DocId, r: Record) {
    && (d !in s.db ==> r.extractions == [])
    && (forall a: nat :: d in s.db && a in Attempts(r) && a !in Attempts(s.db[d]) ==>
          && e.pid in s.acts && HoldsToken(s.acts[e.pid], d, a)
          && (e.act.Some? ==> !HoldsUnsaved(e.act.value, d, a)))
  }

  lemma CommitDb(c: Config, s: State, e: Effect)
    requires DbInv(c.maxAttempts, s.db) && WriteOK(c.maxAttempts, s.db, e.write)
    ensures DbInv(c.maxAttempts, Commit(s, e).db) && DbGrows(s.db, Commit(s, e).db)
  {}

  lemma CommitActs(c: Config, s: State, e: Effect)
    requires Inv(c, s) && EffectOK(c, s, e)
    ensures ActsInv(Commit(s, e))
  {
    CommitDb(c, s, e);
    var t := Commit(s, e);
    forall p | p in t.acts
      ensures ActInv(t.acts[p], t.db)
    {
      if e.spawn.Some? && p == e.spawn.value.0 {
      } else if p != e.pid {
        assert ActInv(s.acts[p], s.db);
        ActStable(c.maxAttempts, s.acts[p], s.db, t.db);
      }
    }
  }

  /** Every token in use is within the attempts counted on the row. */
  lemma TokenIssued(c: Config, s: State, p: Pid, d: DocId, a: nat)
    requires Inv(c, s) && p in s.acts && HoldsToken(s.acts[p], d, a)
    ensures d in s.db && 1 <= a <= s.db[d].doc.extractionAttempts
  {
    assert ActInv(s.acts[p], s.db);
  }

  lemma SavedIssued(M: nat, r: Record, a: nat)
    requires Sound(M, r) && a in Attempts(r)
    ensures a <= r.doc.extractionAttempts
  {
    var i :| 0 <= i < |r.extractions| && r.extractions[i].attempt == a;
    assert RowSound(r.doc.extractionAttempts, r.extractions[i]);
  }

  lemma CommitTokensDistinct(c: Config, s: State, e: Effect)
    requires Inv(c, s) && EffectOK(c, s, e) && TokenOK(s, e)
    ensures TokensDistinct(Commit(s, e).acts)
  {
    var t := Commit(s, e);
    forall p: Pid, q: Pid, d: DocId, a: nat | p in t.acts && q in t.acts && p != q && HoldsToken(t.acts[p], d, a)
      ensures !HoldsToken(t.acts[q], d, a)
    {
      if p != e.pid && p in s.acts {
        TokenIssued(c, s, p, d, a);
      } else if q != e.pid && q in s.acts && HoldsToken(s.acts[q], d, a) {
        TokenIssued(c, s, q, d, a);
      }
    }
  }

  lemma CommitTokensUnsaved(c: Config, s: State, e: Effect)
    requires Inv(c, s) && EffectOK(c, s, e) && TokenOK(s, e)
    ensures var t := Commit(s, e);
      forall p: Pid, d: DocId, a: nat :: p in t.acts && d in t.db && HoldsUnsaved(t.acts[p], d, a) ==>
        a !in Attempts(t.db[d])
  {
    var t := Commit(s, e);
    forall p: Pid, d: DocId, a: nat | p in t.acts && d in t.db && HoldsUnsaved(t.acts[p], d, a)
      ensures a !in Attempts(t.db[d])
    {
      if p != e.pid {
        TokenIssued(c, s, p, d, a);
        assert HoldsUnsaved(s.acts[p], d, a) && a !in Attempts(s.db[d]);
      } else if p in s.acts && HoldsToken(s.acts[p], d, a) && HoldsUnsaved(s.acts[p], d, a) {
        TokenIssued(c, s, p, d, a);
        assert a !in Attempts(s.db[d]);
      } else {
        if a in Attempts(s.db[d]) {
          SavedIssued(c.maxAttempts, s.db[d], a);
        }
        assert a !in Attempts(s.db[d]);
      }
    }
  }

  lemma CommitInv(c: Config, s: State, e: Effect)
    requires Inv(c, s) && EffectOK(c, s, e) && TokenOK(s, e)
    ensures Inv(c, Commit(s, e)) && DbGrows(s.db, Commit(s, e).db)
  {
    CommitDb(c, s, e);
    CommitActs(c, s, e);
    CommitTokensDistinct(c, s, e);
    CommitTokensUnsaved(c, s, e);
  }

  // ---------- the steps of process and Redispatch ----------

  lemma AfterSound(M: nat, stmt: Stmt, o: Outcome, now: Time, r: Record)
    requires Sound(M, r) && Issued(M, stmt, r)
    ensures Sound(M, After(stmt, o, now, r)) && Grows(r, After(stmt, o, now, r))
  {
    ExecuteSound(M, stmt, now, r);
  }

  /** `Redispatch` reads back, in order, exactly the objects that `process` recorded. */
  lemma OrderedPages(r: Record)
    requires PagesFull(r)
    ensures OrderedValues(r.pages) == PageObjects(r.doc.id, r.doc.pdfPages)
  {
    AscendingRange(r.pages.Keys, r.doc.pdfPages);
  }

  lemma FlowStepOK(M: nat, pc: FlowPc, r: Record, ch: Choice, now: Time)
    requires Sound(M, r) && FlowInv(pc, r) && FlowEnabled(pc, r, ch)
    ensures var step := NextFlow(pc, r, ch, now);
      && Sound(M, step.rec) && Grows(r, step.rec) && step.rec.extractions == r.extractions
      && (step.next.Some? ==> FlowInv(step.next.value, step.rec))
      && (step.posted.Some? ==> Ready(step.rec) && FullJob(step.posted.value, step.rec))
  {
    match pc {
      case Starting => AfterSound(M, UpdateStatus(Uploaded, Processing), ch.o, now, r);
      case RecordingPages(objects) =>
        AfterSound(M, AddPages(objects), ch.o, now, r);
        AddPagesSound(M, r, objects, now);
      case RecordingCount(objects) => AfterSound(M, SetPageCount(|objects|), ch.o, now, r);
      case LoadingPages => OrderedPages(r);
      case Stamping(_) => AfterSound(M, SetOCRDispatched, ch.o, now, r);
      case MarkingFailed(stage, message) => AfterSound(M, MarkFailed(Processing, stage, message), ch.o, now, r);
      case _ =>
    }
  }

  lemma NewJobInv(c: Config, r: Record)
    requires Ready(r) && ValidConfig(c)
    ensures var pages := JobPages(PageObjects(r.doc.id, r.doc.pdfPages));
      JobInv(pages, FanOut.Initial(|pages|, c.concurrency, c.needsImage), r)
  {
    FanOut.InitialInv(r.doc.pdfPages, c.concurrency, c.needsImage);
  }

  lemma SameExtractions(s: State, e: Effect)
    requires e.write.Some? ==> e.write.value.0 in s.db && e.write.value.1.extractions == s.db[e.write.value.0].extractions
    requires e.act.Some? ==> !(e.act.value.Poller? && e.act.value.pc.Working?)
    ensures TokenOK(s, e)
  {
    if e.write.Some? {
      assert Attempts(e.write.value.1) == Attempts(s.db[e.write.value.0]);
    }
  }

  lemma FlowEffectOK(c: Config, s: State, pid: Pid, ch: Choice, job: Pid)
    requires ValidConfig(c) && Inv(c, s) && Enabled(c, s, StepFlow(pid, ch, job))
    ensures var e := FlowEffect(c, s, pid, ch, job); EffectOK(c, s, e) && TokenOK(s, e)
  {
    var e := FlowEffect(c, s, pid, ch, job);
    assert ActInv(s.acts[pid], s.db);
    var flow := FlowOf(s.acts[pid]).value;
    var r := s.db[flow.doc];
    FlowStepOK(c.maxAttempts, flow.pc, r, ch, s.now);
    var step := NextFlow(flow.pc, r, ch, s.now);
    CommitDb(c, s, e);
    var db := Commit(s, e).db;
    assert db[flow.doc] == step.rec;
    if s.acts[pid].Poller? {
      PollerStable(c.maxAttempts, Recovering(s.acts[pid].pc.todo, None), s.db, db);
    }
    if step.posted.Some? {
      NewJobInv(c, step.rec);
    }
    SameExtractions(s, e);
  }

  // ---------- the steps of an OCR job ----------

  lemma JobStepOK(M: nat, pages: seq<PageRef>, fan: FanOut.State, r: Record, step: FanOut.Action, text: string, now: Time)
    requires Sound(M, r) && JobInv(pages, fan, r) && FanOut.Enabled(fan, step)
    ensures step.Upsert? ==> step.page < |pages| && pages[step.page].number == step.page + 1
    ensures var t := if step.Upsert? && step.applied then Execute(UpsertPage(pages[step.page].number, text), now, r) else r;
      Sound(M, t) && Grows(r, t) && t.extractions == r.extractions && JobInv(pages, FanOut.Apply(fan, step), t)
  {
    FanOut.InvKept(fan, step);
    if step.Upsert? && step.applied {
      ExecuteSound(M, UpsertPage(pages[step.page].number, text), now, r);
    }
  }

  lemma JobMoveOK(c: Config, s: State, pid: Pid, fan: FanOut.State, t: Record)
    requires Inv(c, s) && IsJob(s, pid)
    requires var d := s.acts[pid].doc;
      && Sound(c.maxAttempts, t) && t.doc.id == d && Grows(s.db[d], t) && t.extractions == s.db[d].extractions
    requires JobInv(s.acts[pid].pages, fan, t)
    ensures var act := s.acts[pid];
      var e := Effect(Some((act.doc, t)), pid, Some(act.(fan := fan)), None);
      EffectOK(c, s, e) && TokenOK(s, e)
  {
    var act := s.acts[pid];
    SameExtractions(s, Effect(Some((act.doc, t)), pid, Some(act.(fan := fan)), None));
  }

  lemma JobEffectOK(c: Config, s: State, pid: Pid, step: FanOut.Action, text: string)
    requires Inv(c, s) && Enabled(c, s, StepJob(pid, step, text))
    ensures var e := JobEffect(c, s, pid, step, text); EffectOK(c, s, e) && TokenOK(s, e)
  {
    var act := s.acts[pid];
    assert ActInv(act, s.db);
    JobStepOK(c.maxAttempts, act.pages, act.fan, s.db[act.doc], step, text, s.now);
    JobMoveOK(c, s, pid, FanOut.Apply(act.fan, step), JobEffect(c, s, pid, step, text).write.value.1);
  }

  /** A job that ends without error has put every page of its document in ocr_results. */
  lemma JobCoversPages(M: nat, pages: seq<PageRef>, fan: FanOut.State, r: Record)
    requires Sound(M, r) && JobInv(pages, fan, r) && fan.launcher == FanOut.Returned(None)
    ensures OCRFull(r)
  {
    FanOut.NilMeansAll(fan);
    forall k | 1 <= k <= r.doc.pdfPages
      ensures k in r.ocr
    {
      assert k - 1 in fan.upserted;
    }
  }

  lemma EndJobEffectOK(c: Config, s: State, pid: Pid, applied: bool)
    requires Inv(c, s) && Enabled(c, s, EndJob(pid, applied))
    ensures var e := EndJobEffect(c, s, pid, applied); EffectOK(c, s, e) && TokenOK(s, e)
  {
    var act := s.acts[pid];
    var r := s.db[act.doc];
    assert ActInv(act, s.db);
    var stmt := JobVerdict(act.fan.launcher.result);
    if stmt == Some(MarkOCRDone) {
      JobCoversPages(c.maxAttempts, act.pages, act.fan, r);
    }
    if stmt.Some? {
      ExecuteSound(c.maxAttempts, stmt.value, s.now, r);
    }
    SameExtractions(s, EndJobEffect(c, s, pid, applied));
  }

  // ---------- the steps of a poller ----------

  lemma ClaimEffectOK(c: Config, s: State, pid: Pid, d: DocId, o: Outcome)
    requires Inv(c, s) && Enabled(c, s, Claim(pid, d, o))
    ensures var e := ClaimEffect(c, s, pid, d, o); EffectOK(c, s, e) && TokenOK(s, e)
  {
    var r := s.db[d];
    AfterSound(c.maxAttempts, ClaimForExtraction(c.maxAttempts), o, s.now, r);
    var e := ClaimEffect(c, s, pid, d, o);
    assert Attempts(e.write.value.1) == Attempts(r);
  }

  /** `extract` finds one ocr_results row per page, so its error branch is never taken. */
  lemma OrderedOCR(r: Record)
    requires OCRFull(r) && r.doc.pdfPages >= 1
    ensures |OrderedValues(r.ocr)| == r.doc.pdfPages
    ensures forall i :: 0 <= i < r.doc.pdfPages ==> i + 1 in r.ocr && OrderedValues(r.ocr)[i] == r.ocr[i + 1]
  {
    AscendingRange(r.ocr.Keys, r.doc.pdfPages);
  }

  lemma SaveStepOK(M: nat, attempt: nat, w: WorkerPc, r: Record, ch: Choice, now: Time)
    requires Sound(M, r) && w.Saving? && WorkerInv(attempt, w, r) && WorkerEnabled(w, r, ch)
    requires attempt !in Attempts(r)
    ensures var step := NextWorker(w, attempt, r, ch, now);
      && Sound(M, step.rec) && Grows(r, step.rec)
      && (step.next.Some? ==> WorkerInv(attempt, step.next.value, step.rec) && !Unsaved(step.next.value))
      && Attempts(step.rec) <= Attempts(r) + {attempt}
  {
    if ch.o.applied {
      SaveSound(M, r, attempt, w.content, now);
      var t := Execute(SaveAggregate(attempt, w.content), now, r);
      assert t.extractions[|r.extractions|].attempt == attempt;
    }
  }

  lemma WorkerStepOK(M: nat, attempt: nat, w: WorkerPc, r: Record, ch: Choice, now: Time)
    requires Sound(M, r) && !w.Saving? && WorkerInv(attempt, w, r) && WorkerEnabled(w, r, ch)
    ensures var step := NextWorker(w, attempt, r, ch, now);
      && Sound(M, step.rec) && Grows(r, step.rec) && step.rec.extractions == r.extractions
      && (step.next.Some? ==> WorkerInv(attempt, step.next.value, step.rec))
      && (step.next.Some? && Unsaved(step.next.value) ==> Unsaved(w))
  {
    match w {
      case Completing => AfterSound(M, UpdateStatus(Extracting, Extracted), ch.o, now, r);
      case Requeueing => AfterSound(M, ReturnForRetry(Backoff.RetryBackoff(attempt)), ch.o, now, r);
      case Abandoning(message) => AfterSound(M, MarkFailed(Extracting, ExtractionStage, message), ch.o, now, r);
      case Asking =>
        if ch.Answer? {
          NormalizeIdempotent(ch.content);
        }
      case _ =>
    }
  }

  /** The worker of pid holds its token, unsaved, and knows its document. */
  lemma SaverKnows(c: Config, s: State, pid: Pid, ch: Choice)
    requires Inv(c, s) && Enabled(c, s, StepWorker(pid, ch)) && s.acts[pid].pc.worker.Saving?
    ensures var pc := s.acts[pid].pc; var r := s.db[pc.doc];
      && r.doc.id == pc.doc && Sound(c.maxAttempts, r) && WorkerInv(pc.attempt, pc.worker, r)
      && HoldsUnsaved(s.acts[pid], pc.doc, pc.attempt) && pc.attempt !in Attempts(r)
  {
    assert ActInv(s.acts[pid], s.db);
    assert HoldsUnsaved(s.acts[pid], s.acts[pid].pc.doc, s.acts[pid].pc.attempt);
  }

  lemma SaveWrites(c: Config, s: State, pid: Pid, ch: Choice)
    requires Enabled(c, s, StepWorker(pid, ch)) && s.acts[pid].pc.worker.Saving?
    requires var pc := s.acts[pid].pc; var r := s.db[pc.doc];
      r.doc.id == pc.doc && Sound(c.maxAttempts, r) && WorkerInv(pc.attempt, pc.worker, r) && pc.attempt !in Attempts(r)
    ensures EffectOK(c, s, WorkerEffect(c, s, pid, ch))
  {
    var pc := s.acts[pid].pc;
    SaveStepOK(c.maxAttempts, pc.attempt, pc.worker, s.db[pc.doc], ch, s.now);
  }

  lemma SaveTokens(c: Config, s: State, pid: Pid, ch: Choice)
    requires Enabled(c, s, StepWorker(pid, ch)) && s.acts[pid].pc.worker.Saving?
    requires var pc := s.acts[pid].pc; var r := s.db[pc.doc];
      Sound(c.maxAttempts, r) && WorkerInv(pc.attempt, pc.worker, r) && pc.attempt !in Attempts(r)
    ensures TokenOK(s, WorkerEffect(c, s, pid, ch))
  {
    var pc := s.acts[pid].pc;
    SaveStepOK(c.maxAttempts, pc.attempt, pc.worker, s.db[pc.doc], ch, s.now);
  }

  lemma SaveEffectOK(c: Config, s: State, pid: Pid, ch: Choice)
    requires Inv(c, s) && Enabled(c, s, StepWorker(pid, ch)) && s.acts[pid].pc.worker.Saving?
    ensures var e := WorkerEffect(c, s, pid, ch); EffectOK(c, s, e) && TokenOK(s, e)
  {
    SaverKnows(c, s, pid, ch);
    SaveWrites(c, s, pid, ch);
    SaveTokens(c, s, pid, ch);
  }

  lemma OtherWorkerEffectOK(c: Config, s: State, pid: Pid, ch: Choice)
    requires Inv(c, s) && Enabled(c, s, StepWorker(pid, ch)) && !s.acts[pid].pc.worker.Saving?
    ensures var e := WorkerEffect(c, s, pid, ch); EffectOK(c, s, e) && TokenOK(s, e)
  {
    var pc := s.acts[pid].pc;
    assert ActInv(s.acts[pid], s.db);
    WorkerStepOK(c.maxAttempts, pc.attempt, pc.worker, s.db[pc.doc], ch, s.now);
    var e := WorkerEffect(c, s, pid, ch);
    assert Attempts(e.write.value.1) == Attempts(s.db[pc.doc]);
  }

  lemma WorkerEffectOK(c: Config, s: State, pid: Pid, ch: Choice)
    requires Inv(c, s) && Enabled(c, s, StepWorker(pid, ch))
    ensures var e := WorkerEffect(c, s, pid, ch); EffectOK(c, s, e) && TokenOK(s, e)
  {
    if s.acts[pid].pc.worker.Saving? {
      SaveEffectOK(c, s, pid, ch);
    } else {
      OtherWorkerEffectOK(c, s, pid, ch);
    }
  }

  lemma EntryEffectOK(c: Config, s: State, pid: Pid, o: Outcome)
    requires Inv(c, s) && Enabled(c, s, NextEntry(pid, o))
    ensures var e := EntryEffect(c, s, pid, o); EffectOK(c, s, e) && TokenOK(s, e)
  {
    var todo := s.acts[pid].pc.todo;
    assert ActInv(s.acts[pid], s.db);
    var e := EntryEffect(c, s, pid, o);
    if todo != [] {
      assert EntryInv(todo[0], s.db);
      var d := todo[0].doc;
      AfterSound(c.maxAttempts, ReturnForRetry(0), o, s.now, s.db[d]);
      CommitDb(c, s, e);
      PollerStable(c.maxAttempts, Recovering(todo, None), s.db, Commit(s, e).db);
    }
    SameExtractions(s, e);
  }

  lemma ListInv(c: Config, s: State, pid: Pid, todo: seq<Entry>)
    requires Inv(c, s) && Enabled(c, s, ListStuck(pid, todo))
    ensures PollerInv(Recovering(todo, None), s.db)
  {
    forall e | e in todo
      ensures EntryInv(e, s.db)
    {
      assert EntryAccurate(s, e) && Sound(c.maxAttempts, s.db[e.doc]);
    }
  }

  lemma SmallEffectOK(c: Config, s: State, a: Action)
    requires ValidConfig(c) && Inv(c, s) && Enabled(c, s, a)
    requires a.CreateDocument? || a.Crash? || a.StartPoller? || a.Redeliver? || a.ClaimNothing? || a.ListStuck?
    ensures EffectOK(c, s, EffectOf(c, s, a)) && TokenOK(s, EffectOf(c, s, a))
  {
    match a {
      case Redeliver(pid, job) =>
        assert ActInv(s.acts[pid], s.db);
        NewJobInv(c, s.db[s.acts[pid].doc]);
      case ListStuck(pid, todo) => ListInv(c, s, pid, todo);
      case _ =>
    }
  }

  lemma EffectOfOK(c: Config, s: State, a: Action)
    requires ValidConfig(c) && Inv(c, s) && Enabled(c, s, a) && !a.Tick? && !a.Exhaust?
    ensures EffectOK(c, s, EffectOf(c, s, a)) && TokenOK(s, EffectOf(c, s, a))
  {
    match a {
      case StepFlow(pid, ch, job) => FlowEffectOK(c, s, pid, ch, job);
      case StepJob(pid, step, text) => JobEffectOK(c, s, pid, step, text);
      case EndJob(pid, applied) => EndJobEffectOK(c, s, pid, applied);
      case Claim(pid, d, o) => ClaimEffectOK(c, s, pid, d, o);
      case StepWorker(pid, ch) => WorkerEffectOK(c, s, pid, ch);
      case NextEntry(pid, o) => EntryEffectOK(c, s, pid, o);
      case _ => SmallEffectOK(c, s, a);
    }
  }

  lemma ExhaustRecord(M: nat, r: Record, now: Time)
    requires Sound(M, r)
    ensures var t := Execute(FailExhausted(M), now, r);
      Sound(M, t) && Grows(r, t) && t.doc.id == r.doc.id && t.extractions == r.extractions
  {
    ExecuteSound(M, FailExhausted(M), now, r);
  }

  lemma ExhaustDb(M: nat, db: map<DocId, Record>, now: Time)
    requires DbInv(M, db)
    ensures DbInv(M, ExhaustAll(db, M, now)) && DbGrows(db, ExhaustAll(db, M, now))
    ensures forall d :: d in db ==> ExhaustAll(db, M, now)[d].extractions == db[d].extractions
  {
    var db2 := ExhaustAll(db, M, now);
    forall d | d in db
      ensures Sound(M, db2[d]) && Grows(db[d], db2[d]) && db2[d].doc.id == d && db2[d].extractions == db[d].extractions
    {
      ExhaustRecord(M, db[d], now);
    }
  }

  lemma GrowsReflexive(db: map<DocId, Record>)
    ensures DbGrows(db, db)
  {}

  lemma ExhaustActs(c: Config, s: State, db: map<DocId, Record>, pid: Pid)
    requires Inv(c, s) && DbGrows(s.db, db) && DbInv(c.maxAttempts, db) && pid in s.acts
    ensures ActsInv(State(db, s.now, s.acts[pid := Poller(Listing)]))
  {
    forall p | p in s.acts
      ensures ActInv(s.acts[p], db)
    {
      ActStable(c.maxAttempts, s.acts[p], s.db, db);
    }
  }

  lemma ExhaustTokens(c: Config, s: State, db: map<DocId, Record>, pid: Pid)
    requires Inv(c, s) && pid in s.acts
    requires db.Keys == s.db.Keys && forall d :: d in db ==> db[d].extractions == s.db[d].extractions
    ensures TokensInv(State(db, s.now, s.acts[pid := Poller(Listing)]))
  {
    forall d | d in db
      ensures Attempts(db[d]) == Attempts(s.db[d])
    {}
  }

  lemma ExhaustedInv(c: Config, s: State, db: map<DocId, Record>, pid: Pid)
    requires Inv(c, s) && pid in s.acts && DbGrows(s.db, db) && DbInv(c.maxAttempts, db)
    requires db.Keys == s.db.Keys && forall d :: d in db ==> db[d].extractions == s.db[d].extractions
    ensures Inv(c, State(db, s.now, s.acts[pid := Poller(Listing)]))
  {
    ExhaustActs(c, s, db, pid);
    ExhaustTokens(c, s, db, pid);
  }

  function DbAfterExhaust(c: Config, s: State, applied: bool): map<DocId, Record> {
    if applied then ExhaustAll(s.db, c.maxAttempts, s.now) else s.db
  }

  lemma ExhaustedDb(c: Config, s: State, applied: bool)
    requires DbInv(c.maxAttempts, s.db)
    ensures var db := DbAfterExhaust(c, s, applied);
      && DbInv(c.maxAttempts, db) && DbGrows(s.db, db)
      && db.Keys == s.db.Keys && forall d :: d in db ==> db[d].extractions == s.db[d].extractions
  {
    ExhaustDb(c.maxAttempts, s.db, s.now);
    GrowsReflexive(s.db);
  }

  lemma AfterExhaust(c: Config, s: State, pid: Pid, applied: bool)
    requires Enabled(c, s, Exhaust(pid, applied))
    ensures Next(c, s, Exhaust(pid, applied)) == State(DbAfterExhaust(c, s, applied), s.now, s.acts[pid := Poller(Listing)])
  {}

  lemma ExhaustInv(c: Config, s: State, pid: Pid, applied: bool)
    requires Inv(c, s) && Enabled(c, s, Exhaust(pid, applied))
    ensures Inv(c, Next(c, s, Exhaust(pid, applied))) && DbGrows(s.db, Next(c, s, Exhaust(pid, applied)).db)
  {
    AfterExhaust(c, s, pid, applied);
    ExhaustedDb(c, s, applied);
    ExhaustedInv(c, s, DbAfterExhaust(c, s, applied), pid);
  }

  /** Every step of every activity keeps the invariant, and takes nothing back. */
  lemma StepInv(c: Config, s: State, a: Action)
    requires ValidConfig(c) && Inv(c, s) && Enabled(c, s, a)
    ensures Inv(c, Next(c, s, a)) && DbGrows(s.db, Next(c, s, a).db)
  {
    if a.Tick? {
      GrowsReflexive(s.db);
    } else if a.Exhaust? {
      ExhaustInv(c, s, a.pid, a.applied);
    } else {
      EffectOfOK(c, s, a);
      CommitInv(c, s, EffectOf(c, s, a));
    }
  }

  lemma DbGrowsTransitive(a: map<DocId, Record>, b: map<DocId, Record>, c: map<DocId, Record>)
    requires DbGrows(a, b) && DbGrows(b, c)
    ensures DbGrows(a, c)
  {
    forall d | d in a
      ensures Grows(a[d], c[d])
    {
      GrowsTransitive(a[d], b[d], c[d]);
    }
  }

  /** The invariant holds in every reachable state of every interleaving. */
  lemma {:induction false} RunInv(c: Config, s: State, actions: seq<Action>)
    requires ValidConfig(c) && Inv(c, s) && Legal(c, s, actions)
    ensures Inv(c, Reach(c, s, actions)) && DbGrows(s.db, Reach(c, s, actions).db)
    ensures s.now <= Reach(c, s, actions).now
    decreases |actions|
  {
    if actions == [] {
      GrowsReflexive(s.db);
    } else {
      var t := Next(c, s, actions[0]);
      StepInv(c, s, actions[0]);
      RunInv(c, t, actions[1..]);
      DbGrowsTransitive(s.db, t.db, Reach(c, s, actions).db);
    }
  }

  lemma InitialInv(c: Config)
    ensures Inv(c, Initial)
  {}
}
