/**
 The one exception to recoverability. The janitor scans `processing` and `extracting` only, so a
 document still in `uploaded` depends on its ingest goroutine; if that is gone, nothing ever
 moves it.
 */
module Stranded {
  import opened Wrappers
  import opened Tables
  import opened Pipeline
  import opened PipelineInvariant
  import opened PipelineTheorems
  import opened Recovery

  /** The ingest goroutine of d has not tried its first update yet. */
  ghost predicate IngestPending(s: State, d: DocId) {
    exists p :: p in s.acts && s.acts[p] == Upload(Flow(d, Starting))
  }

  predicate IsUploaded(db: map<DocId, Record>, d: DocId) {
    d in db && db[d].doc.status == Uploaded
  }

  /** Only a goroutine at its first update, or one giving up after it, works on an uploaded document. */
  ghost predicate UploadAct(act: Activity, db: map<DocId, Record>) {
    match act
    case Upload(flow) => IsUploaded(db, flow.doc) ==> flow.pc.Starting? || flow.pc.MarkingFailed?
    case Poller(Recovering(todo, flow)) =>
      && (forall e :: e in todo ==> !IsUploaded(db, e.doc) && e.doc in db)
      && (flow.Some? ==> !IsUploaded(db, flow.value.doc) && flow.value.doc in db)
    case _ => true
  }

  ghost predicate UploadsInv(s: State) {
    forall p :: p in s.acts ==> UploadAct(s.acts[p], s.db) && (s.acts[p].Upload? ==> s.acts[p].flow.doc in s.db)
  }

  lemma NeverBackToUploaded(stmt: Stmt, now: Time, r: Record, M: nat)
    requires InCode(M, stmt) && r.doc.status != Uploaded
    ensures Execute(stmt, now, r).doc.status != Uploaded
  {}

  lemma UploadedStable(c: Config, s: State, a: Action, d: DocId)
    requires Enabled(c, s, a) && d in s.db && s.db[d].doc.status != Uploaded
    ensures d in Next(c, s, a).db && !IsUploaded(Next(c, s, a).db, d)
  {
    var stmt := StepStatement(c, s, a, d);
    if stmt.Some? {
      NeverBackToUploaded(stmt.value, s.now, s.db[d], c.maxAttempts);
    }
  }

  /** What an activity that does not move says about uploaded documents stays true. */
  lemma UploadActStable(c: Config, s: State, a: Action, act: Activity)
    requires Enabled(c, s, a) && UploadAct(act, s.db) && (act.Upload? ==> act.flow.doc in s.db)
    ensures UploadAct(act, Next(c, s, a).db) && (act.Upload? ==> act.flow.doc in Next(c, s, a).db)
  {
    match act {
      case Upload(flow) =>
        var stmt := StepStatement(c, s, a, flow.doc);
        if !IsUploaded(s.db, flow.doc) {
          UploadedStable(c, s, a, flow.doc);
        }
      case Poller(Recovering(todo, flow)) =>
        forall e | e in todo
          ensures e.doc in Next(c, s, a).db && !IsUploaded(Next(c, s, a).db, e.doc)
        {
          UploadedStable(c, s, a, e.doc);
        }
        if flow.Some? {
          UploadedStable(c, s, a, flow.value.doc);
        }
      case _ =>
    }
  }

  lemma FlowUploadAct(c: Config, s: State, a: Action)
    requires UploadsInv(s) && a.StepFlow? && Enabled(c, s, a)
    ensures var t := Next(c, s, a);
      a.pid in t.acts ==> UploadAct(t.acts[a.pid], t.db) && (t.acts[a.pid].Upload? ==> t.acts[a.pid].flow.doc in t.db)
  {
    var act := s.acts[a.pid];
    UploadActStable(c, s, a, act);
    var flow := FlowOf(act).value;
    var t := Next(c, s, a);
    var step := NextFlow(flow.pc, s.db[flow.doc], a.choice, s.now);
    assert t.db[flow.doc] == step.rec;
  }

  lemma EntryUploadAct(c: Config, s: State, a: Action)
    requires UploadsInv(s) && a.NextEntry? && Enabled(c, s, a)
    ensures var t := Next(c, s, a); a.pid in t.acts && !t.acts[a.pid].Upload? && UploadAct(t.acts[a.pid], t.db)
  {
    UploadActStable(c, s, a, s.acts[a.pid]);
    var todo := s.acts[a.pid].pc.todo;
    if todo != [] {
      assert todo[0] in todo;
    }
  }

  lemma ListUploadAct(c: Config, s: State, a: Action)
    requires UploadsInv(s) && a.ListStuck? && Enabled(c, s, a)
    ensures var t := Next(c, s, a); a.pid in t.acts && !t.acts[a.pid].Upload? && UploadAct(t.acts[a.pid], t.db)
  {
    forall e | e in a.todo
      ensures e.doc in s.db && !IsUploaded(s.db, e.doc)
    {
      assert EntryAccurate(s, e);
    }
  }

  /** The activities a step leaves alone are still there unchanged, and the new ones are harmless. */
  lemma OtherActs(c: Config, s: State, a: Action, p: Pid)
    requires Enabled(c, s, a) && p in Next(c, s, a).acts
    requires !a.StepFlow? && !a.NextEntry? && !a.ListStuck?
    ensures var t := Next(c, s, a);
      || (p in s.acts && t.acts[p] == s.acts[p])
      || t.acts[p].Job?
      || (t.acts[p].Poller? && !t.acts[p].pc.Recovering?)
      || (a.CreateDocument? && t.acts[p] == Upload(Flow(a.doc, Starting)) && a.doc in t.db)
  {}

  lemma UploadsInvKept(c: Config, s: State, a: Action)
    requires UploadsInv(s) && Enabled(c, s, a)
    ensures UploadsInv(Next(c, s, a))
  {
    var t := Next(c, s, a);
    forall p | p in t.acts
      ensures UploadAct(t.acts[p], t.db) && (t.acts[p].Upload? ==> t.acts[p].flow.doc in t.db)
    {
      if p in s.acts && t.acts[p] == s.acts[p] {
        UploadActStable(c, s, a, s.acts[p]);
      } else if a.StepFlow? {
        FlowUploadAct(c, s, a);
        assert p == a.pid || t.acts[p].Job?;
      } else if a.NextEntry? {
        EntryUploadAct(c, s, a);
        assert p == a.pid;
      } else if a.ListStuck? {
        ListUploadAct(c, s, a);
        assert p == a.pid;
      } else {
        OtherActs(c, s, a, p);
      }
    }
  }

  lemma {:induction false} UploadsInvReached(c: Config, s: State, actions: seq<Action>)
    requires UploadsInv(s) && Legal(c, s, actions)
    ensures UploadsInv(Reach(c, s, actions))
    decreases |actions|
  {
    if actions != [] {
      UploadsInvKept(c, s, actions[0]);
      UploadsInvReached(c, Next(c, s, actions[0]), actions[1..]);
    }
  }

  ghost predicate Lost(s: State, d: DocId) {
    IsUploaded(s.db, d) && !IngestPending(s, d)
  }

  /** Only a flow at its first update moves a document out of uploaded. */
  lemma LeavesUploaded(c: Config, s: State, a: Action, d: DocId)
    requires Enabled(c, s, a) && IsUploaded(s.db, d) && !IsUploaded(Next(c, s, a).db, d)
    ensures a.StepFlow? && FlowOf(s.acts[a.pid]) == Some(Flow(d, Starting))
  {}

  lemma NoNewIngest(c: Config, s: State, a: Action, d: DocId, p: Pid)
    requires Enabled(c, s, a) && d in s.db && p in Next(c, s, a).acts
    requires Next(c, s, a).acts[p] == Upload(Flow(d, Starting))
    ensures p in s.acts && s.acts[p] == Upload(Flow(d, Starting))
  {}

  /** A lost document is in no flow that stands at its first update. */
  lemma NotRunning(s: State, d: DocId, p: Pid)
    requires UploadsInv(s) && Lost(s, d) && p in s.acts
    ensures FlowOf(s.acts[p]) != Some(Flow(d, Starting))
  {
    assert UploadAct(s.acts[p], s.db);
  }

  lemma LostKept(c: Config, s: State, a: Action, d: DocId)
    requires UploadsInv(s) && Enabled(c, s, a) && Lost(s, d)
    ensures Lost(Next(c, s, a), d)
  {
    if !IsUploaded(Next(c, s, a).db, d) {
      LeavesUploaded(c, s, a, d);
      NotRunning(s, d, a.pid);
      assert false;
    }
    if IngestPending(Next(c, s, a), d) {
      var p :| p in Next(c, s, a).acts && Next(c, s, a).acts[p] == Upload(Flow(d, Starting));
      NoNewIngest(c, s, a, d, p);
      assert false;
    }
  }

  /** Without its ingest goroutine an uploaded document stays uploaded in every run. */
  lemma {:induction false} LostForever(c: Config, s: State, actions: seq<Action>, d: DocId)
    requires UploadsInv(s) && Lost(s, d) && Legal(c, s, actions)
    ensures Lost(Reach(c, s, actions), d)
    decreases |actions|
  {
    if actions != [] {
      LostKept(c, s, actions[0], d);
      UploadsInvKept(c, s, actions[0]);
      LostForever(c, Next(c, s, actions[0]), actions[1..], d);
    }
  }

  /** A pending ingest brings its document past uploaded, and `Recover` does the rest. */
  lemma RecoverPending(c: Config, s: State, d: DocId) returns (sched: seq<Action>, t: State)
    requires ValidConfig(c) && Inv(c, s) && IsUploaded(s.db, d) && IngestPending(s, d)
    ensures Leads(c, s, sched, t) && Ended(t, d)
  {
    var p :| p in s.acts && s.acts[p] == Upload(Flow(d, Starting));
    var job := FreshAbove(s.acts.Keys);
    var first, u := RunFlow(c, s, p, d, Starting, job);
    LeadsInv(c, s, first, u);
    var rest;
    rest, t := Recover(c, u, d);
    LeadsConcat(c, s, first, u, rest, t);
    sched := first + rest;
  }

  ghost predicate Recoverable(c: Config, s: State, d: DocId) {
    exists sched, t :: Leads(c, s, sched, t) && Ended(t, d)
  }

  /**
   In every reachable state, a document can still be extracted or failed exactly when it is past
   `uploaded` or its ingest goroutine has not started; otherwise no run, faulty or not, moves it.
   */
  lemma RecoverableIff(c: Config, actions: seq<Action>, d: DocId)
    requires Run(c, actions) && d in End(c, actions).db
    ensures var s := End(c, actions);
      Recoverable(c, s, d) <==> s.db[d].doc.status != Uploaded || IngestPending(s, d)
  {
    var s := End(c, actions);
    EndInv(c, actions);
    UploadsInvReached(c, Initial, actions);
    if s.db[d].doc.status != Uploaded {
      var sched, t := Recover(c, s, d);
    } else if IngestPending(s, d) {
      var sched, t := RecoverPending(c, s, d);
    } else if Recoverable(c, s, d) {
      var sched, t :| Leads(c, s, sched, t) && Ended(t, d);
      LeadsIsRun(c, s, sched, t);
      LostForever(c, s, sched, d);
    }
  }

  /** Such states are reachable: the process dies between the insert and the goroutine. */
  lemma LostIsReachable(c: Config, d: DocId, pages: nat)
    requires ValidConfig(c)
    ensures Run(c, [CreateDocument(d, pages, 0, false)])
    ensures Lost(End(c, [CreateDocument(d, pages, 0, false)]), d)
  {
    var a := CreateDocument(d, pages, 0, false);
    var t := Next(c, Initial, a);
    assert t.db[d] == Created(d, pages, Initial.now) && t.acts == map[];
    assert [a][1..] == [] && Legal(c, t, []) && Reach(c, t, []) == t;
    assert Legal(c, Initial, [a]) && Reach(c, Initial, [a]) == Reach(c, t, [a][1..]);
  }

  /** The goroutine whose first update fails, and whose mark-failed then finds the wrong status. */
  function FailedIngest(d: DocId, pages: nat): seq<Action> {
    [CreateDocument(d, pages, 0, true), StepFlow(0, Sql(Outcome(false, false)), 1), StepFlow(0, Sql(Fine), 1)]
  }

  /**
   No crash is needed either: when the first update reports an error without having taken effect, the
   document is marked failed only if it is in processing, which it is not, and the goroutine ends.
   */
  lemma LostWithoutCrash(c: Config, d: DocId, pages: nat)
    requires ValidConfig(c)
    ensures Run(c, FailedIngest(d, pages)) && Lost(End(c, FailedIngest(d, pages)), d)
  {
    var run := FailedIngest(d, pages);
    var s := Next(c, Initial, run[0]);
    assert s.acts[0] == Upload(Flow(d, Starting)) && 1 !in s.acts;
    var t := Next(c, s, run[1]);
    assert t.acts[0] == Upload(Flow(d, MarkingFailed(IngestStage, "update status")));
    var u := Next(c, t, run[2]);
    assert u.acts == map[] && u.db[d] == Created(d, pages, 0);
    assert run[1..][0] == run[1] && run[1..][1..] == [run[2]] && [run[2]][1..] == [];
    assert Legal(c, u, []) && Reach(c, u, []) == u;
    assert Legal(c, t, [run[2]]) && Reach(c, t, [run[2]]) == u;
    assert Legal(c, s, run[1..]) && Reach(c, s, run[1..]) == u;
  }
}
