/**
 Where what the rows hold has come from: which step of a run wrote the OCR text of a page, changed a
 document last, gave a failed one up, had its job accepted or brought its aggregate.
 */
module Provenance {
  import opened Wrappers
  import opened Normalize
  import opened Tables
  import opened Pipeline
  import opened PipelineInvariant
  import opened PipelineTheorems
  import opened Polls
  import opened DocumentStore
  import FanOut

  // ---------- the text of a page ----------

  /** In s, the step stores what the engine read of the page numbered k for document d. */
  predicate Upserts(s: State, a: Action, d: DocId, k: nat) {
    && a.StepJob? && a.step.Upsert? && a.step.applied
    && IsJob(s, a.pid) && s.acts[a.pid].doc == d
    && a.step.page < |s.acts[a.pid].pages| && s.acts[a.pid].pages[a.step.page].number == k
  }

  predicate HasText(s: State, d: DocId, k: nat) {
    d in s.db && k in s.db[d].ocr
  }

  lemma FlowKeepsText(pc: FlowPc, r: Record, ch: Choice, now: Time)
    requires FlowEnabled(pc, r, ch)
    ensures NextFlow(pc, r, ch, now).rec.ocr == r.ocr
  {}

  lemma WorkerKeepsText(w: WorkerPc, attempt: nat, r: Record, ch: Choice, now: Time)
    requires WorkerEnabled(w, r, ch)
    ensures NextWorker(w, attempt, r, ch, now).rec.ocr == r.ocr
  {}

  lemma EndKeepsText(c: Config, s: State, pid: Pid, applied: bool)
    requires Enabled(c, s, EndJob(pid, applied))
    ensures EndJobEffect(c, s, pid, applied).write.Some?
    ensures EndJobEffect(c, s, pid, applied).write.value.1.ocr == s.db[s.acts[pid].doc].ocr
  {}

  lemma JobText(c: Config, s: State, a: Action, d: DocId, k: nat)
    requires Enabled(c, s, a) && a.StepJob?
    ensures var t := Next(c, s, a);
      && (HasText(t, d, k) <==> HasText(s, d, k) || Upserts(s, a, d, k))
      && (HasText(t, d, k) ==> t.db[d].ocr[k] == if Upserts(s, a, d, k) then a.text else s.db[d].ocr[k])
  {}

  /** An upsert replaces the text of its page; nothing else touches the text of any page. */
  lemma StepText(c: Config, s: State, a: Action, d: DocId, k: nat)
    requires Enabled(c, s, a)
    ensures var t := Next(c, s, a);
      && (HasText(t, d, k) <==> HasText(s, d, k) || Upserts(s, a, d, k))
      && (HasText(t, d, k) ==> t.db[d].ocr[k] == if Upserts(s, a, d, k) then a.text else s.db[d].ocr[k])
  {
    match a {
      case StepFlow(pid, ch, _) =>
        var flow := FlowOf(s.acts[pid]).value;
        FlowKeepsText(flow.pc, s.db[flow.doc], ch, s.now);
      case StepWorker(pid, ch) =>
        var pc := s.acts[pid].pc;
        WorkerKeepsText(pc.worker, pc.attempt, s.db[pc.doc], ch, s.now);
      case EndJob(pid, applied) => EndKeepsText(c, s, pid, applied);
      case StepJob(_, _, _) => JobText(c, s, a, d, k);
      case _ =>
    }
  }

  /** The n-th action of the run stores the text of page k of d. */
  predicate StoresAt(c: Config, s: State, actions: seq<Action>, n: nat, d: DocId, k: nat)
    requires Legal(c, s, actions)
  {
    n < |actions| && Upserts(StateAt(c, s, actions, n), actions[n], d, k)
  }

  lemma StoresLater(c: Config, s: State, actions: seq<Action>, d: DocId, k: nat)
    requires Legal(c, s, actions) && actions != []
    ensures StoresAt(c, s, actions, 0, d, k) <==> Upserts(s, actions[0], d, k)
    ensures forall n: nat :: 0 < n ==>
      (StoresAt(c, s, actions, n, d, k) <==> StoresAt(c, Next(c, s, actions[0]), actions[1..], n - 1, d, k))
  {}

  lemma {:induction false} TextFrom(c: Config, s: State, actions: seq<Action>, d: DocId, k: nat) returns (last: Option<nat>)
    requires Legal(c, s, actions)
    ensures last.Some? ==>
      && StoresAt(c, s, actions, last.value, d, k) && HasText(Reach(c, s, actions), d, k)
      && actions[last.value].text == Reach(c, s, actions).db[d].ocr[k]
      && forall n :: last.value < n < |actions| ==> !StoresAt(c, s, actions, n, d, k)
    ensures last.None? ==>
      && (forall n :: 0 <= n < |actions| ==> !StoresAt(c, s, actions, n, d, k))
      && (HasText(Reach(c, s, actions), d, k) <==> HasText(s, d, k))
      && (HasText(s, d, k) ==> Reach(c, s, actions).db[d].ocr[k] == s.db[d].ocr[k])
    decreases |actions|
  {
    if actions == [] {
      return None;
    }
    StepText(c, s, actions[0], d, k);
    StoresLater(c, s, actions, d, k);
    var later := TextFrom(c, Next(c, s, actions[0]), actions[1..], d, k);
    last := if later.Some? then Some(later.value + 1) else if Upserts(s, actions[0], d, k) then Some(0) else None;
  }

  /**
   The text stored for a page is what the engine read for it: the last step of the run that stored the
   page's text, in a job of this document and of this page's image, carried exactly this text. A page has
   a text exactly when there was such a step.
   */
  lemma TextProvenance(c: Config, actions: seq<Action>, d: DocId, k: nat)
    requires Run(c, actions)
    ensures HasText(Reach(c, Initial, actions), d, k) <==> exists n: nat :: StoresAt(c, Initial, actions, n, d, k)
    ensures HasText(Reach(c, Initial, actions), d, k) ==>
      exists n: nat :: StoresAt(c, Initial, actions, n, d, k)
        && actions[n].text == Reach(c, Initial, actions).db[d].ocr[k]
        && forall m: nat :: n < m < |actions| ==> !StoresAt(c, Initial, actions, m, d, k)
    ensures forall n: nat :: StoresAt(c, Initial, actions, n, d, k) ==> ReadFrom(StateAt(c, Initial, actions, n), actions[n]) == PageRef(k, PageObject(d, k))
  {
    var last := TextFrom(c, Initial, actions, d, k);
    forall n: nat | StoresAt(c, Initial, actions, n, d, k)
      ensures ReadFrom(StateAt(c, Initial, actions, n), actions[n]) == PageRef(k, PageObject(d, k))
    {
      GrowsBetween(c, actions, n, n);
      OwnImage(c, StateAt(c, Initial, actions, n), actions[n], d, k);
    }
  }

  /** The page of the job whose text the upsert stores. */
  function ReadFrom(s: State, a: Action): PageRef
    requires a.StepJob? && a.step.Upsert? && IsJob(s, a.pid) && a.step.page < |s.acts[a.pid].pages|
  {
    s.acts[a.pid].pages[a.step.page]
  }

  lemma OwnImage(c: Config, s: State, a: Action, d: DocId, k: nat)
    requires Inv(c, s) && Upserts(s, a, d, k)
    ensures ReadFrom(s, a) == PageRef(k, PageObject(d, k))
  {
    assert ActInv(s.acts[a.pid], s.db);
  }

  // ---------- the time of the last update ----------

  lemma StatementStamps(stmt: Stmt, now: Time, r: Record)
    ensures Execute(stmt, now, r).doc != r.doc ==> Execute(stmt, now, r).doc.updatedAt == now
  {}

  lemma StepStamps(c: Config, s: State, a: Action, d: DocId)
    requires Enabled(c, s, a) && d in Next(c, s, a).db
    ensures Next(c, s, a).now >= s.now
    ensures (d in s.db && Next(c, s, a).db[d].doc == s.db[d].doc) || Next(c, s, a).db[d].doc.updatedAt == s.now
  {
    if d in s.db {
      var stmt := StepStatement(c, s, a, d);
      if stmt.Some? {
        StatementStamps(stmt.value, s.now, s.db[d]);
      }
    }
  }

  /** The row of d in documents is the same now as it will be at the end. */
  predicate Settled(c: Config, s: State, actions: seq<Action>, n: nat, d: DocId)
    requires Legal(c, s, actions) && n <= |actions| && d in Reach(c, s, actions).db
  {
    d in StateAt(c, s, actions, n).db && StateAt(c, s, actions, n).db[d].doc == Reach(c, s, actions).db[d].doc
  }

  lemma SettledLater(c: Config, s: State, actions: seq<Action>, d: DocId)
    requires Legal(c, s, actions) && actions != [] && d in Reach(c, s, actions).db
    ensures forall n: nat :: 0 < n <= |actions| ==>
      && StateAt(c, s, actions, n) == StateAt(c, Next(c, s, actions[0]), actions[1..], n - 1)
      && (Settled(c, s, actions, n, d) <==> Settled(c, Next(c, s, actions[0]), actions[1..], n - 1, d))
  {}

  lemma {:induction false} LastUpdate(c: Config, s: State, actions: seq<Action>, d: DocId) returns (last: Option<nat>)
    requires Legal(c, s, actions) && d in Reach(c, s, actions).db
    ensures last.Some? ==>
      && last.value < |actions| && !Settled(c, s, actions, last.value, d)
      && Reach(c, s, actions).db[d].doc.updatedAt == StateAt(c, s, actions, last.value).now
      && forall m: nat :: last.value < m <= |actions| ==> Settled(c, s, actions, m, d)
    ensures last.None? ==> forall m: nat :: m <= |actions| ==> Settled(c, s, actions, m, d)
    decreases |actions|
  {
    if actions == [] {
      return None;
    }
    SettledLater(c, s, actions, d);
    var next := Next(c, s, actions[0]);
    var later := LastUpdate(c, next, actions[1..], d);
    if later.Some? {
      last := Some(later.value + 1);
    } else {
      assert Settled(c, next, actions[1..], 0, d);
      StepStamps(c, s, actions[0], d);
      last := if Settled(c, s, actions, 0, d) then None else Some(0);
    }
  }

  lemma {:induction false} NowGrows(c: Config, s: State, actions: seq<Action>, m: nat, n: nat)
    requires Legal(c, s, actions) && m <= n <= |actions|
    ensures StateAt(c, s, actions, m).now <= StateAt(c, s, actions, n).now
    decreases n
  {
    if n > 0 {
      NowGrows(c, Next(c, s, actions[0]), actions[1..], if m > 0 then m - 1 else 0, n - 1);
    }
  }

  /**
   updated_at is the time of the last change: what the janitor lists are the documents in processing or
   extracting whose row has stayed the same at every moment since the cutoff.
   */
  lemma StuckIff(c: Config, actions: seq<Action>, d: DocId, cutoff: Time)
    requires Run(c, actions)
    ensures var end := Reach(c, Initial, actions);
      d in StuckIds(end.db, cutoff) <==>
        && d in end.db && (end.db[d].doc.status == Processing || end.db[d].doc.status == Extracting)
        && forall m: nat :: m <= |actions| && StateAt(c, Initial, actions, m).now >= cutoff ==> Settled(c, Initial, actions, m, d)
  {
    if d in Reach(c, Initial, actions).db {
      var last := LastUpdate(c, Initial, actions, d);
      assert !Settled(c, Initial, actions, 0, d);
      forall m: nat | m <= |actions|
        ensures m <= last.value ==> StateAt(c, Initial, actions, m).now <= StateAt(c, Initial, actions, last.value).now
      {
        if m <= last.value {
          NowGrows(c, Initial, actions, m, last.value);
        }
      }
    }
  }

  // ---------- why a document failed ----------

  /** The step of a flow that gives its document up, and the stage it names. */
  predicate Blames(pc: FlowPc, ch: Choice, stage: Stage) {
    match pc
    case Posting(_, tries, _) => stage == DispatchStage && (ch.GiveUp? || (ch.Post? && !ch.accepted && tries >= 2))
    case Rereading => stage == IngestStage && ch == Read(false)
    case Converting => stage == IngestStage && ch == Read(false)
    case Stamping(again) => stage == IngestStage && !again && ch.Sql? && !ch.o.acked
    case Starting => stage == IngestStage && ch.Sql? && !ch.o.acked
    case RecordingPages(_) => stage == IngestStage && ch.Sql? && !ch.o.acked
    case RecordingCount(_) => stage == IngestStage && ch.Sql? && !ch.o.acked
    case _ => false
  }

  /**
   What makes a document fail: a step of its ingest or its dispatch, a page of its job or the job's
   deadline, a final answer of the LLM, whose message is kept, or running out of attempts.
   */
  predicate Cause(c: Config, s: State, a: Action, d: DocId, stage: Stage, message: string) {
    match a
    case StepFlow(pid, ch, _) =>
      && pid in s.acts && FlowOf(s.acts[pid]).Some? && FlowOf(s.acts[pid]).value.doc == d
      && Blames(FlowOf(s.acts[pid]).value.pc, ch, stage)
    case EndJob(pid, applied) =>
      && applied && stage == OCRStage && IsJob(s, pid) && s.acts[pid].doc == d
      && (s.acts[pid].fan.launcher == FanOut.Returned(Some(FanOut.PageFailure)) || s.acts[pid].fan.launcher == FanOut.Returned(Some(FanOut.Expired)))
    case StepWorker(pid, ch) =>
      && stage == ExtractionStage && ch == AnswerError(false, message)
      && IsPoller(s, pid) && s.acts[pid].pc.Working? && s.acts[pid].pc.doc == d && s.acts[pid].pc.worker == Asking
    case Exhaust(_, applied) =>
      && applied && stage == ExtractionStage && message == "extraction attempts exhausted"
      && d in s.db && s.db[d].doc.status == OCRDone && s.db[d].doc.extractionAttempts >= c.maxAttempts
    case _ => false
  }

  predicate FailedWith(s: State, d: DocId, stage: Stage, message: string) {
    d in s.db && s.db[d].doc.status == Failed && s.db[d].doc.failedStage == Some(stage) && s.db[d].doc.errorMessage == Some(message)
  }

  /** An activity is about to mark d failed. */
  predicate AboutToFail(act: Activity, d: DocId, stage: Stage, message: string) {
    || FlowOf(act) == Some(Flow(d, MarkingFailed(stage, message)))
    || (stage == ExtractionStage && act.Poller? && act.pc.Working? && act.pc.doc == d && act.pc.worker == Abandoning(message))
  }

  predicate Doomed(s: State, d: DocId, stage: Stage, message: string) {
    FailedWith(s, d, stage, message) || exists p :: p in s.acts && AboutToFail(s.acts[p], d, stage, message)
  }

  /** A flow goes on to mark its document failed exactly after the steps that are to blame, and names their stage. */
  lemma FlowBlamed(pc: FlowPc, r: Record, ch: Choice, now: Time, stage: Stage)
    requires FlowEnabled(pc, r, ch)
    ensures var next := NextFlow(pc, r, ch, now).next;
      next.Some? && next.value.MarkingFailed? && next.value.stage == stage <==> Blames(pc, ch, stage)
  {}

  lemma WorkerBlamed(attempt: nat, w: WorkerPc, r: Record, ch: Choice, now: Time)
    requires WorkerInv(attempt, w, r) && WorkerEnabled(w, r, ch)
    ensures var next := NextWorker(w, attempt, r, ch, now).next;
      next.Some? && next.value.Abandoning? ==> w == Asking && ch == AnswerError(false, next.value.message)
  {
    if w.Loading? {
      OrderedOCR(r);
    }
  }

  lemma FlowAbout(c: Config, s: State, pid: Pid, ch: Choice, job: Pid, d: DocId, stage: Stage, message: string)
    requires Enabled(c, s, StepFlow(pid, ch, job))
    requires var e := FlowEffect(c, s, pid, ch, job); e.act.Some? && AboutToFail(e.act.value, d, stage, message)
    ensures Cause(c, s, StepFlow(pid, ch, job), d, stage, message)
  {
    var flow := FlowOf(s.acts[pid]).value;
    FlowBlamed(flow.pc, s.db[flow.doc], ch, s.now, stage);
  }

  lemma WorkerAbout(c: Config, s: State, pid: Pid, ch: Choice, d: DocId, stage: Stage, message: string)
    requires Inv(c, s) && Enabled(c, s, StepWorker(pid, ch))
    requires var e := WorkerEffect(c, s, pid, ch); e.act.Some? && AboutToFail(e.act.value, d, stage, message)
    ensures Cause(c, s, StepWorker(pid, ch), d, stage, message)
  {
    var pc := s.acts[pid].pc;
    assert ActInv(s.acts[pid], s.db);
    WorkerBlamed(pc.attempt, pc.worker, s.db[pc.doc], ch, s.now);
  }

  lemma OtherAbout(c: Config, s: State, a: Action, d: DocId, stage: Stage, message: string)
    requires Enabled(c, s, a) && !a.StepFlow? && !a.StepWorker? && !a.Tick? && !a.Exhaust?
    requires var e := EffectOf(c, s, a); e.act.Some? && AboutToFail(e.act.value, d, stage, message)
    ensures EffectOf(c, s, a).pid in s.acts && AboutToFail(s.acts[EffectOf(c, s, a).pid], d, stage, message)
  {}

  lemma EffectAbout(c: Config, s: State, a: Action, d: DocId, stage: Stage, message: string)
    requires Inv(c, s) && Enabled(c, s, a) && !a.Tick? && !a.Exhaust?
    requires var e := EffectOf(c, s, a); e.act.Some? && AboutToFail(e.act.value, d, stage, message)
    ensures var e := EffectOf(c, s, a);
      (e.pid in s.acts && AboutToFail(s.acts[e.pid], d, stage, message)) || Cause(c, s, a, d, stage, message)
  {
    match a {
      case StepFlow(pid, ch, job) => FlowAbout(c, s, pid, ch, job, d, stage, message);
      case StepWorker(pid, ch) => WorkerAbout(c, s, pid, ch, d, stage, message);
      case _ => OtherAbout(c, s, a, d, stage, message);
    }
  }

  /** An activity after a step is as before, the one that moved, a new job, or a poller about to list. */
  lemma ActAfter(c: Config, s: State, a: Action, p: Pid)
    requires Enabled(c, s, a) && p in Next(c, s, a).acts
    ensures var act := Next(c, s, a).acts[p];
      || (p in s.acts && act == s.acts[p]) || act.Job? || act == Poller(Listing)
      || (!a.Tick? && !a.Exhaust? && EffectOf(c, s, a).pid == p && EffectOf(c, s, a).act == Some(act))
  {
    if !a.Tick? && !a.Exhaust? {
      assert EffectOf(c, s, a).spawn.Some? ==> EffectOf(c, s, a).spawn.value.1.Job?;
    }
  }

  /** Who is about to fail d after a step was so before, or the step has made it so. */
  lemma StepAbout(c: Config, s: State, a: Action, p: Pid, d: DocId, stage: Stage, message: string)
    requires Inv(c, s) && Enabled(c, s, a)
    requires p in Next(c, s, a).acts && AboutToFail(Next(c, s, a).acts[p], d, stage, message)
    ensures (p in s.acts && AboutToFail(s.acts[p], d, stage, message)) || Cause(c, s, a, d, stage, message)
  {
    ActAfter(c, s, a, p);
    if !a.Tick? && !a.Exhaust? && EffectOf(c, s, a).pid == p && EffectOf(c, s, a).act == Some(Next(c, s, a).acts[p]) {
      EffectAbout(c, s, a, d, stage, message);
    }
  }

  predicate SameFailure(r: Record, t: Record) {
    r.doc.status == Failed ==> t.doc.failedStage == r.doc.failedStage && t.doc.errorMessage == r.doc.errorMessage
  }

  predicate FailsNow(r: Record, t: Record) {
    r.doc.status != Failed && t.doc.status == Failed
  }

  predicate Gives(t: Record, stage: Stage, message: string) {
    t.doc.failedStage == Some(stage) && t.doc.errorMessage == Some(message)
  }

  lemma FlowFails(pc: FlowPc, r: Record, ch: Choice, now: Time)
    requires FlowEnabled(pc, r, ch)
    ensures var t := NextFlow(pc, r, ch, now).rec;
      SameFailure(r, t) && (FailsNow(r, t) ==> pc.MarkingFailed? && Gives(t, pc.stage, pc.message))
  {}

  lemma WorkerFails(w: WorkerPc, attempt: nat, r: Record, ch: Choice, now: Time)
    requires WorkerEnabled(w, r, ch)
    ensures var t := NextWorker(w, attempt, r, ch, now).rec;
      SameFailure(r, t) && (FailsNow(r, t) ==> w.Abandoning? && Gives(t, ExtractionStage, w.message))
  {}

  lemma FlowStepFails(c: Config, s: State, a: Action, d: DocId, stage: Stage, message: string)
    requires Enabled(c, s, a) && a.StepFlow? && FailedWith(Next(c, s, a), d, stage, message)
    ensures FailedWith(s, d, stage, message) || AboutToFail(s.acts[a.pid], d, stage, message)
  {
    var flow := FlowOf(s.acts[a.pid]).value;
    FlowFails(flow.pc, s.db[flow.doc], a.choice, s.now);
  }

  lemma WorkerStepFails(c: Config, s: State, a: Action, d: DocId, stage: Stage, message: string)
    requires Enabled(c, s, a) && a.StepWorker? && FailedWith(Next(c, s, a), d, stage, message)
    ensures FailedWith(s, d, stage, message) || AboutToFail(s.acts[a.pid], d, stage, message)
  {
    var pc := s.acts[a.pid].pc;
    WorkerFails(pc.worker, pc.attempt, s.db[pc.doc], a.choice, s.now);
  }

  lemma OtherStepFails(c: Config, s: State, a: Action, d: DocId, stage: Stage, message: string)
    requires Enabled(c, s, a) && !a.StepFlow? && !a.StepWorker? && FailedWith(Next(c, s, a), d, stage, message)
    ensures FailedWith(s, d, stage, message) || Cause(c, s, a, d, stage, message)
  {}

  lemma StepFails(c: Config, s: State, a: Action, d: DocId, stage: Stage, message: string)
    requires Enabled(c, s, a) && FailedWith(Next(c, s, a), d, stage, message)
    ensures Doomed(s, d, stage, message) || Cause(c, s, a, d, stage, message)
  {
    if a.StepFlow? {
      FlowStepFails(c, s, a, d, stage, message);
    } else if a.StepWorker? {
      WorkerStepFails(c, s, a, d, stage, message);
    } else {
      OtherStepFails(c, s, a, d, stage, message);
    }
  }

  lemma StepFailing(c: Config, s: State, a: Action, d: DocId, stage: Stage, message: string)
    requires Inv(c, s) && Enabled(c, s, a) && Doomed(Next(c, s, a), d, stage, message)
    ensures Doomed(s, d, stage, message) || Cause(c, s, a, d, stage, message)
  {
    if FailedWith(Next(c, s, a), d, stage, message) {
      StepFails(c, s, a, d, stage, message);
    } else {
      var p :| p in Next(c, s, a).acts && AboutToFail(Next(c, s, a).acts[p], d, stage, message);
      StepAbout(c, s, a, p, d, stage, message);
    }
  }

  predicate CauseAt(c: Config, s: State, actions: seq<Action>, n: nat, d: DocId, stage: Stage, message: string)
    requires Legal(c, s, actions)
  {
    n < |actions| && Cause(c, StateAt(c, s, actions, n), actions[n], d, stage, message)
  }

  lemma {:induction false} FailingSince(c: Config, s: State, actions: seq<Action>, d: DocId, stage: Stage, message: string)
    requires ValidConfig(c) && Inv(c, s) && Legal(c, s, actions) && Doomed(Reach(c, s, actions), d, stage, message)
    ensures Doomed(s, d, stage, message) || exists n: nat :: CauseAt(c, s, actions, n, d, stage, message)
    decreases |actions|
  {
    if actions != [] {
      var next := Next(c, s, actions[0]);
      StepInv(c, s, actions[0]);
      FailingSince(c, next, actions[1..], d, stage, message);
      if Doomed(next, d, stage, message) {
        StepFailing(c, s, actions[0], d, stage, message);
        assert Cause(c, s, actions[0], d, stage, message) ==> CauseAt(c, s, actions, 0, d, stage, message);
      } else {
        var n: nat :| CauseAt(c, next, actions[1..], n, d, stage, message);
        assert CauseAt(c, s, actions, n + 1, d, stage, message);
      }
    }
  }

  /** failed_stage and error_message tell the truth: some step of the run has caused this failure. */
  lemma FailureProvenance(c: Config, actions: seq<Action>, d: DocId)
    requires Run(c, actions) && d in Reach(c, Initial, actions).db && Reach(c, Initial, actions).db[d].doc.status == Failed
    ensures var doc := Reach(c, Initial, actions).db[d].doc;
      && doc.failedStage.Some? && doc.errorMessage.Some?
      && exists n: nat :: CauseAt(c, Initial, actions, n, d, doc.failedStage.value, doc.errorMessage.value)
  {
    InitialInv(c);
    RunInv(c, Initial, actions);
    var doc := Reach(c, Initial, actions).db[d].doc;
    assert Sound(c.maxAttempts, Reach(c, Initial, actions).db[d]);
    FailingSince(c, Initial, actions, d, doc.failedStage.value, doc.errorMessage.value);
  }

  // ---------- what a stamp means ----------

  /** The OCR service accepts the job of d that this step posts. */
  predicate Accepts(s: State, a: Action, d: DocId) {
    && a.StepFlow? && a.pid in s.acts && FlowOf(s.acts[a.pid]).Some? && FlowOf(s.acts[a.pid]).value.doc == d
    && FlowOf(s.acts[a.pid]).value.pc.Posting? && a.choice.Post? && a.choice.accepted
  }

  predicate IsStamped(s: State, d: DocId) {
    d in s.db && s.db[d].doc.ocrDispatchedAt.Some?
  }

  predicate AboutToStamp(act: Activity, d: DocId) {
    FlowOf(act).Some? && FlowOf(act).value.doc == d && FlowOf(act).value.pc.Stamping?
  }

  predicate StampComing(s: State, d: DocId) {
    IsStamped(s, d) || exists p :: p in s.acts && AboutToStamp(s.acts[p], d)
  }

  lemma FlowStamps(c: Config, s: State, a: Action, d: DocId)
    requires Enabled(c, s, a) && a.StepFlow? && IsStamped(Next(c, s, a), d)
    ensures IsStamped(s, d) || AboutToStamp(s.acts[a.pid], d)
  {}

  lemma OthersDoNotStamp(c: Config, s: State, a: Action, d: DocId)
    requires Enabled(c, s, a) && !a.StepFlow? && IsStamped(Next(c, s, a), d)
    ensures IsStamped(s, d)
  {
    if a.StepWorker? {
      var pc := s.acts[a.pid].pc;
      assert NextWorker(pc.worker, pc.attempt, s.db[pc.doc], a.choice, s.now).rec.doc.ocrDispatchedAt == s.db[pc.doc].doc.ocrDispatchedAt;
    }
  }

  lemma EffectStamping(c: Config, s: State, a: Action, d: DocId)
    requires Enabled(c, s, a) && !a.Tick? && !a.Exhaust?
    requires var e := EffectOf(c, s, a); e.act.Some? && AboutToStamp(e.act.value, d)
    ensures var e := EffectOf(c, s, a); (e.pid in s.acts && AboutToStamp(s.acts[e.pid], d)) || Accepts(s, a, d)
  {}

  lemma StepStamping(c: Config, s: State, a: Action, d: DocId)
    requires Enabled(c, s, a) && StampComing(Next(c, s, a), d)
    ensures StampComing(s, d) || Accepts(s, a, d)
  {
    if IsStamped(Next(c, s, a), d) {
      if a.StepFlow? {
        FlowStamps(c, s, a, d);
      } else {
        OthersDoNotStamp(c, s, a, d);
      }
    } else {
      var p :| p in Next(c, s, a).acts && AboutToStamp(Next(c, s, a).acts[p], d);
      ActAfter(c, s, a, p);
      if !a.Tick? && !a.Exhaust? && EffectOf(c, s, a).pid == p && EffectOf(c, s, a).act == Some(Next(c, s, a).acts[p]) {
        EffectStamping(c, s, a, d);
      }
    }
  }

  predicate AcceptsAt(c: Config, s: State, actions: seq<Action>, n: nat, d: DocId)
    requires Legal(c, s, actions)
  {
    n < |actions| && Accepts(StateAt(c, s, actions, n), actions[n], d)
  }

  lemma {:induction false} StampingSince(c: Config, s: State, actions: seq<Action>, d: DocId)
    requires Legal(c, s, actions) && StampComing(Reach(c, s, actions), d)
    ensures StampComing(s, d) || exists n: nat :: AcceptsAt(c, s, actions, n, d)
    decreases |actions|
  {
    if actions != [] {
      var next := Next(c, s, actions[0]);
      StampingSince(c, next, actions[1..], d);
      if StampComing(next, d) {
        StepStamping(c, s, actions[0], d);
        assert Accepts(s, actions[0], d) ==> AcceptsAt(c, s, actions, 0, d);
      } else {
        var n: nat :| AcceptsAt(c, next, actions[1..], n, d);
        assert AcceptsAt(c, s, actions, n + 1, d);
      }
    }
  }

  /** The dispatch comes before the stamp: a stamped document had a job that the OCR service accepted. */
  lemma StampProvenance(c: Config, actions: seq<Action>, d: DocId)
    requires Run(c, actions) && IsStamped(Reach(c, Initial, actions), d)
    ensures exists n: nat :: AcceptsAt(c, Initial, actions, n, d)
  {
    StampingSince(c, Initial, actions, d);
  }

  // ---------- where an aggregate comes from ----------

  /** In this step the LLM answers the worker that holds this claim of d, and normalized its answer is this content. */
  predicate Tells(s: State, a: Action, d: DocId, e: Extraction) {
    && a.StepWorker? && IsPoller(s, a.pid) && s.acts[a.pid].pc == Working(d, e.attempt, Asking)
    && a.choice.Answer? && Normalized(a.choice.content) == e.content
  }

  predicate IsSaved(s: State, d: DocId, e: Extraction) {
    d in s.db && e in s.db[d].extractions
  }

  predicate AboutToSave(act: Activity, d: DocId, e: Extraction) {
    act == Poller(Working(d, e.attempt, Saving(e.content)))
  }

  predicate Coming(s: State, d: DocId, e: Extraction) {
    IsSaved(s, d, e) || exists p :: p in s.acts && AboutToSave(s.acts[p], d, e)
  }

  lemma WorkerSaves(c: Config, s: State, a: Action, d: DocId, e: Extraction)
    requires Enabled(c, s, a) && a.StepWorker? && IsSaved(Next(c, s, a), d, e)
    ensures IsSaved(s, d, e) || AboutToSave(s.acts[a.pid], d, e)
  {}

  lemma OthersDoNotSave(c: Config, s: State, a: Action, d: DocId, e: Extraction)
    requires Enabled(c, s, a) && !a.StepWorker? && IsSaved(Next(c, s, a), d, e)
    ensures IsSaved(s, d, e)
  {
    if a.StepFlow? {
      var flow := FlowOf(s.acts[a.pid]).value;
      assert NextFlow(flow.pc, s.db[flow.doc], a.choice, s.now).rec.extractions == s.db[flow.doc].extractions;
    }
  }

  lemma EffectSaving(c: Config, s: State, a: Action, d: DocId, e: Extraction)
    requires Enabled(c, s, a) && !a.Tick? && !a.Exhaust?
    requires var f := EffectOf(c, s, a); f.act.Some? && AboutToSave(f.act.value, d, e)
    ensures var f := EffectOf(c, s, a); (f.pid in s.acts && AboutToSave(s.acts[f.pid], d, e)) || Tells(s, a, d, e)
  {}

  lemma StepComing(c: Config, s: State, a: Action, d: DocId, e: Extraction)
    requires Enabled(c, s, a) && Coming(Next(c, s, a), d, e)
    ensures Coming(s, d, e) || Tells(s, a, d, e)
  {
    if IsSaved(Next(c, s, a), d, e) {
      if a.StepWorker? {
        WorkerSaves(c, s, a, d, e);
      } else {
        OthersDoNotSave(c, s, a, d, e);
      }
    } else {
      var p :| p in Next(c, s, a).acts && AboutToSave(Next(c, s, a).acts[p], d, e);
      ActAfter(c, s, a, p);
      if !a.Tick? && !a.Exhaust? && EffectOf(c, s, a).pid == p && EffectOf(c, s, a).act == Some(Next(c, s, a).acts[p]) {
        EffectSaving(c, s, a, d, e);
      }
    }
  }

  predicate TellsAt(c: Config, s: State, actions: seq<Action>, n: nat, d: DocId, e: Extraction)
    requires Legal(c, s, actions)
  {
    n < |actions| && Tells(StateAt(c, s, actions, n), actions[n], d, e)
  }

  lemma {:induction false} ComingSince(c: Config, s: State, actions: seq<Action>, d: DocId, e: Extraction)
    requires Legal(c, s, actions) && Coming(Reach(c, s, actions), d, e)
    ensures Coming(s, d, e) || exists n: nat :: TellsAt(c, s, actions, n, d, e)
    decreases |actions|
  {
    if actions != [] {
      var next := Next(c, s, actions[0]);
      ComingSince(c, next, actions[1..], d, e);
      if Coming(next, d, e) {
        StepComing(c, s, actions[0], d, e);
        assert Tells(s, actions[0], d, e) ==> TellsAt(c, s, actions, 0, d, e);
      } else {
        var n: nat :| TellsAt(c, next, actions[1..], n, d, e);
        assert TellsAt(c, s, actions, n + 1, d, e);
      }
    }
  }

  /** Every aggregate ever stored is, normalized, what the LLM answered the worker of that very claim. */
  lemma ExtractionProvenance(c: Config, actions: seq<Action>, d: DocId, e: Extraction)
    requires Run(c, actions) && IsSaved(Reach(c, Initial, actions), d, e)
    ensures exists n: nat :: TellsAt(c, Initial, actions, n, d, e)
  {
    ComingSince(c, Initial, actions, d, e);
  }
}
