/**
 What one poller process guarantees that several do not. The guards on `documents.status` carry
 no epoch, so a second poller can requeue a document whose worker is only slow; with one poller
 that cannot happen, and a served matrícula never changes.
 */
module SinglePoller {
  import opened Wrappers
  import opened Seqs
  import opened Aggregate
  import opened Tables
  import opened Pipeline
  import opened PipelineInvariant
  import opened PipelineTheorems
  import opened Polls

  predicate NoPoller(s: State) {
    forall p :: p in s.acts ==> !s.acts[p].Poller?
  }

  /** A poller starts only when there is none: one process, restarted after a crash. */
  predicate Solo(c: Config, s: State, actions: seq<Action>)
    requires Legal(c, s, actions)
    decreases |actions|
  {
    actions == [] ||
    ((actions[0].StartPoller? ==> NoPoller(s)) && Solo(c, Next(c, s, actions[0]), actions[1..]))
  }

  // ---------- the invariant ----------

  predicate OnePoller(s: State) {
    forall p, q :: p in s.acts && q in s.acts && s.acts[p].Poller? && s.acts[q].Poller? ==> p == q
  }

  predicate IsWorker(act: Activity) {
    act.Poller? && act.pc.Working?
  }

  function LastAttempt(r: Record): nat {
    if r.extractions == [] then 0 else r.extractions[|r.extractions| - 1].attempt
  }

  /** The worker holds the row's current claim; only the reply to its last update may have been lost. */
  predicate Fresh(attempt: nat, w: WorkerPc, r: Record) {
    && r.doc.extractionAttempts == attempt
    && (r.doc.status == Extracting || (w.Requeueing? && r.doc.status == Extracted))
    && (w.Completing? ==> r.extractions != [] && LastAttempt(r) == attempt)
  }

  /** The stored aggregate of an extracted document comes from its last claim. */
  predicate Sealed(r: Record) {
    r.doc.status == Extracted ==> r.extractions != [] && LastAttempt(r) == r.doc.extractionAttempts
  }

  predicate WorkerFresh(act: Activity, db: map<DocId, Record>) {
    IsWorker(act) ==> act.pc.doc in db && Fresh(act.pc.attempt, act.pc.worker, db[act.pc.doc])
  }

  ghost predicate SoloInv(s: State) {
    && OnePoller(s)
    && (forall p :: p in s.acts ==> WorkerFresh(s.acts[p], s.db))
    && (forall d :: d in s.db ==> Sealed(s.db[d]))
  }

  // ---------- it is kept ----------

  lemma WorkerKeepsFresh(w: WorkerPc, attempt: nat, r: Record, ch: Choice, now: Time)
    requires WorkerEnabled(w, r, ch) && Fresh(attempt, w, r) && Sealed(r)
    ensures var step := NextWorker(w, attempt, r, ch, now);
      Sealed(step.rec) && (step.next.Some? ==> Fresh(attempt, step.next.value, step.rec))
  {}

  /** The rows that matter to a worker: whoever else moves, they stay as they are. */
  predicate SameClaim(r: Record, t: Record) {
    && t.extractions == r.extractions && t.doc.extractionAttempts == r.doc.extractionAttempts
    && t.doc.status == r.doc.status
  }

  /** An extracting or extracted row is changed by no one but a worker or a janitor. */
  lemma OthersKeepClaim(c: Config, s: State, a: Action, d: DocId)
    requires Enabled(c, s, a) && d in s.db && !a.StepWorker? && !a.NextEntry?
    requires s.db[d].doc.status == Extracting || s.db[d].doc.status == Extracted
    ensures d in Next(c, s, a).db && SameClaim(s.db[d], Next(c, s, a).db[d])
  {}

  lemma FlowKeepsSealed(pc: FlowPc, r: Record, ch: Choice, now: Time)
    requires FlowEnabled(pc, r, ch) && Sealed(r)
    ensures Sealed(NextFlow(pc, r, ch, now).rec)
  {}

  lemma OthersKeepSealed(c: Config, s: State, a: Action, d: DocId)
    requires Enabled(c, s, a) && !a.StepWorker? && d in Next(c, s, a).db
    requires d in s.db ==> Sealed(s.db[d])
    ensures Sealed(Next(c, s, a).db[d])
  {
    if a.StepFlow? {
      var flow := FlowOf(s.acts[a.pid]).value;
      if flow.doc == d {
        FlowKeepsSealed(flow.pc, s.db[d], a.choice, s.now);
      }
    }
  }

  lemma OnePollerKept(c: Config, s: State, a: Action)
    requires Enabled(c, s, a) && OnePoller(s) && (a.StartPoller? ==> NoPoller(s))
    ensures OnePoller(Next(c, s, a))
  {
    var t := Next(c, s, a);
    forall p, q | p in t.acts && q in t.acts && t.acts[p].Poller? && t.acts[q].Poller?
      ensures p == q
    {
      PollerOrigin(c, s, a, p);
      PollerOrigin(c, s, a, q);
    }
  }

  lemma PollerOrigin(c: Config, s: State, a: Action, p: Pid)
    requires Enabled(c, s, a) && p in Next(c, s, a).acts && Next(c, s, a).acts[p].Poller?
    ensures (p in s.acts && s.acts[p].Poller?) || (a.StartPoller? && a.pid == p)
  {}

  /** A worker after a step was one before it, or has just claimed its document. */
  lemma WorkerOrigin(c: Config, s: State, a: Action, p: Pid)
    requires Enabled(c, s, a) && p in Next(c, s, a).acts && IsWorker(Next(c, s, a).acts[p])
    ensures var t := Next(c, s, a);
      || (p in s.acts && t.acts[p] == s.acts[p])
      || (a.Claim? && a.pid == p && a.o.applied && t.acts[p] == Poller(Working(a.doc, s.db[a.doc].doc.extractionAttempts + 1, Loading)))
      || (a.StepWorker? && a.pid == p)
  {}

  lemma ClaimFresh(c: Config, s: State, a: Action)
    requires Enabled(c, s, a) && a.Claim? && a.o.applied
    ensures var t := Next(c, s, a);
      a.doc in t.db && Fresh(s.db[a.doc].doc.extractionAttempts + 1, Loading, t.db[a.doc])
  {}

  lemma WorkerStepKept(c: Config, s: State, a: Action)
    requires Enabled(c, s, a) && a.StepWorker? && SoloInv(s)
    ensures var t := Next(c, s, a);
      && a.pid in t.acts && WorkerFresh(t.acts[a.pid], t.db)
      && forall d :: d in t.db ==> Sealed(t.db[d])
  {
    var pc := s.acts[a.pid].pc;
    assert WorkerFresh(s.acts[a.pid], s.db);
    WorkerKeepsFresh(pc.worker, pc.attempt, s.db[pc.doc], a.choice, s.now);
  }

  /** With one poller, a worker that does not move sees no worker or janitor move either. */
  lemma IdleWorkerFresh(c: Config, s: State, a: Action, p: Pid)
    requires Enabled(c, s, a) && SoloInv(s) && p in s.acts && IsWorker(s.acts[p])
    requires !(a.StepWorker? && a.pid == p)
    ensures WorkerFresh(s.acts[p], Next(c, s, a).db)
  {
    assert WorkerFresh(s.acts[p], s.db);
    assert !a.StepWorker? && !a.NextEntry?;
    OthersKeepClaim(c, s, a, s.acts[p].pc.doc);
  }

  lemma SoloStep(c: Config, s: State, a: Action)
    requires Enabled(c, s, a) && SoloInv(s) && (a.StartPoller? ==> NoPoller(s))
    ensures SoloInv(Next(c, s, a))
  {
    OnePollerKept(c, s, a);
    var t := Next(c, s, a);
    forall p | p in t.acts
      ensures WorkerFresh(t.acts[p], t.db)
    {
      if IsWorker(t.acts[p]) {
        WorkerOrigin(c, s, a, p);
        if a.StepWorker? && a.pid == p {
          WorkerStepKept(c, s, a);
        } else if p in s.acts && t.acts[p] == s.acts[p] {
          IdleWorkerFresh(c, s, a, p);
        } else {
          ClaimFresh(c, s, a);
        }
      }
    }
    forall d | d in t.db
      ensures Sealed(t.db[d])
    {
      if a.StepWorker? {
        WorkerStepKept(c, s, a);
      } else {
        OthersKeepSealed(c, s, a, d);
      }
    }
  }

  lemma {:induction false} SoloRun(c: Config, s: State, actions: seq<Action>)
    requires Legal(c, s, actions) && Solo(c, s, actions) && SoloInv(s)
    ensures SoloInv(Reach(c, s, actions))
    decreases |actions|
  {
    if actions != [] {
      SoloStep(c, s, actions[0]);
      SoloRun(c, Next(c, s, actions[0]), actions[1..]);
    }
  }

  // ---------- what follows ----------

  /**
   In every run with one poller: at most one extraction is live; until it gives up or ends, its
   document is extracting under its own token; and whenever the janitor is at work, no extraction
   is live, so every row it requeues has no worker.
   */
  lemma OneExtractionAtATime(c: Config, actions: seq<Action>, p: Pid, q: Pid)
    requires Run(c, actions) && Solo(c, Initial, actions)
    requires var s := End(c, actions); p in s.acts && q in s.acts && IsWorker(s.acts[p])
    ensures var s := End(c, actions); var pc := s.acts[p].pc;
      && (IsWorker(s.acts[q]) ==> q == p)
      && !(s.acts[q].Poller? && s.acts[q].pc.Recovering?)
      && pc.doc in s.db && s.db[pc.doc].doc.extractionAttempts == pc.attempt
      && (!pc.worker.Requeueing? ==> s.db[pc.doc].doc.status == Extracting)
  {
    SoloRun(c, Initial, actions);
    assert WorkerFresh(End(c, actions).acts[p], End(c, actions).db);
  }

  lemma ServedStep(c: Config, s: State, a: Action, d: DocId)
    requires Enabled(c, s, a) && SoloInv(s) && d in s.db && s.db[d].doc.status == Extracted
    ensures d in Next(c, s, a).db && SameClaim(s.db[d], Next(c, s, a).db[d])
  {
    if a.StepWorker? {
      assert WorkerFresh(s.acts[a.pid], s.db);
    } else if !a.NextEntry? {
      OthersKeepClaim(c, s, a, d);
    }
  }

  lemma {:induction false} ServedThroughout(c: Config, s: State, actions: seq<Action>, d: DocId)
    requires Legal(c, s, actions) && Solo(c, s, actions) && SoloInv(s)
    requires d in s.db && s.db[d].doc.status == Extracted
    ensures d in Reach(c, s, actions).db && SameClaim(s.db[d], Reach(c, s, actions).db[d])
    decreases |actions|
  {
    if actions != [] {
      ServedStep(c, s, actions[0], d);
      SoloStep(c, s, actions[0]);
      ServedThroughout(c, Next(c, s, actions[0]), actions[1..], d);
    }
  }

  /** From moment m of a run with one poller to moment n. */
  lemma {:induction false} SoloBetween(c: Config, s: State, actions: seq<Action>, m: nat, n: nat)
    requires Legal(c, s, actions) && Solo(c, s, actions) && SoloInv(s) && m <= n <= |actions|
    ensures SoloInv(StateAt(c, s, actions, m))
    ensures Legal(c, StateAt(c, s, actions, m), actions[m..n]) && Solo(c, StateAt(c, s, actions, m), actions[m..n])
    ensures Reach(c, StateAt(c, s, actions, m), actions[m..n]) == StateAt(c, s, actions, n)
    decreases n
  {
    Between(c, s, actions, m, n);
    if m > 0 {
      SoloStep(c, s, actions[0]);
      SoloBetween(c, Next(c, s, actions[0]), actions[1..], m - 1, n - 1);
      assert actions[1..][m - 1..n - 1] == actions[m..n];
    } else {
      SoloPrefix(c, s, actions, n);
      assert actions[0..n] == actions[..n];
    }
  }

  lemma {:induction false} SoloPrefix(c: Config, s: State, actions: seq<Action>, n: nat)
    requires Legal(c, s, actions) && Solo(c, s, actions) && n <= |actions|
    ensures Legal(c, s, actions[..n]) && Solo(c, s, actions[..n])
    decreases n
  {
    if n > 0 {
      SoloPrefix(c, Next(c, s, actions[0]), actions[1..], n - 1);
      assert actions[..n][1..] == actions[1..][..n - 1];
    }
  }

  lemma ServedBetween(c: Config, actions: seq<Action>, m: nat, n: nat, d: DocId)
    requires Run(c, actions) && Solo(c, Initial, actions) && m <= n <= |actions|
    requires var s := StateAt(c, Initial, actions, m); d in s.db && s.db[d].doc.status == Extracted
    ensures d in StateAt(c, Initial, actions, n).db
    ensures SameClaim(StateAt(c, Initial, actions, m).db[d], StateAt(c, Initial, actions, n).db[d])
    ensures Sealed(StateAt(c, Initial, actions, m).db[d])
  {
    SoloBetween(c, Initial, actions, m, n);
    ServedThroughout(c, StateAt(c, Initial, actions, m), actions[m..n], d);
  }

  /** A poll all of whose queries find the same aggregate of an extracted document. */
  lemma SteadyPoll(views: seq<map<DocId, Record>>, d: DocId)
    requires |views| == 1 + PARTS && d in views[0] && views[0][d].doc.status == Extracted && views[0][d].extractions != []
    requires forall i :: 0 <= i <= PARTS ==> SameAggregate(views[0], views[i], d)
    ensures Poll(views, d) == Matricula(Current(views[0][d]).value, PARTS) == ByDocument(views[0], d)
  {
    QuietPoll(views[0], d);
    IntactIff(views[1..], d);
    assert SameAggregate(views[0], views[1], d) && SameAggregate(views[0], views[PARTS], d);
  }

  /**
   With one poller, a poll that finds the document extracted serves its whole aggregate, the last
   claim's, however far apart its six queries are; and every later poll serves the same.
   */
  lemma AnswerIsFinal(c: Config, actions: seq<Action>, at: seq<nat>, n: nat, d: DocId)
    requires Polling(c, actions, at) && Solo(c, Initial, actions) && at[0] <= n <= |actions|
    requires var rows := Views(c, actions, at)[0]; d in rows && rows[d].doc.status == Extracted
    ensures var rows := Views(c, actions, at)[0]; var answer := Poll(Views(c, actions, at), d);
      && rows[d].extractions != [] && answer == Matricula(Current(rows[d]).value, PARTS)
      && answer.extraction.attempt == rows[d].doc.extractionAttempts
      && answer == ByDocument(StateAt(c, Initial, actions, n).db, d)
  {
    var views := Views(c, actions, at);
    forall i | 0 <= i <= PARTS
      ensures SameAggregate(views[0], views[i], d)
    {
      ServedBetween(c, actions, at[0], at[i], d);
    }
    ServedBetween(c, actions, at[0], n, d);
    SteadyPoll(views, d);
    var later := StateAt(c, Initial, actions, n).db;
    SteadyPoll([later, later, later, later, later, later], d);
  }
}
