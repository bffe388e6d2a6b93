/**
 What every fair run brings about. After any run, however faulty, let nothing fail any more and no
 document be added, and let every activity go on and time pass: then each document is extracted or
 failed in the end, whatever the interleaving, the number of pollers and the answers of the LLM,
 exactly unless it is stranded in `uploaded`.
 */
module FairRuns {
  import opened Wrappers
  import opened Seqs
  import opened Aggregate
  import opened Schema
  import opened Normalize
  import opened Tables
  import opened Pipeline
  import opened PipelineInvariant
  import opened PipelineTheorems
  import opened Recovery
  import opened Stranded
  import FanOut

  // ---------- steps in which nothing fails ----------

  /** The LLM may answer anything or give up; what the schema rejects cannot be saved; the rest succeeds. */
  predicate QuietWork(w: WorkerPc, ch: Choice) {
    match w
    case Loading => ch == Read(true)
    case Asking => true
    case Saving(content) => ch == Sql(if Storable(content) then Fine else Outcome(false, false))
    case _ => ch == Sql(Fine)
  }

  /** No crash, no repeated delivery, no failing statement, and no new document. */
  ghost predicate Quiet(c: Config, s: State, a: Action)
    requires Enabled(c, s, a)
  {
    match a
    case StepWorker(pid, ch) => QuietWork(s.acts[pid].pc.worker, ch)
    case Claim(_, _, o) => o == Fine
    case _ => Faultless(c, s, a)
  }

  /** Whose move it is. */
  function Mover(a: Action): Option<Pid> {
    match a
    case CreateDocument(_, _, _, _) => None
    case Tick(_) => None
    case StartPoller(_) => None
    case Redeliver(_, _) => None
    case Crash(pid) => Some(pid)
    case StepFlow(pid, _, _) => Some(pid)
    case StepJob(pid, _, _) => Some(pid)
    case EndJob(pid, _) => Some(pid)
    case Claim(pid, _, _) => Some(pid)
    case ClaimNothing(pid) => Some(pid)
    case StepWorker(pid, _) => Some(pid)
    case Exhaust(pid, _) => Some(pid)
    case ListStuck(pid, _) => Some(pid)
    case NextEntry(pid, _) => Some(pid)
  }

  // ---------- fair runs ----------

  /** An infinite run: its states, and the action taken in each. */
  datatype Infinite = Infinite(state: nat -> State, action: nat -> Action)

  ghost predicate StepAt(c: Config, b: Infinite, n: nat) {
    && Enabled(c, b.state(n), b.action(n)) && Quiet(c, b.state(n), b.action(n))
    && b.state(n + 1) == Next(c, b.state(n), b.action(n))
  }

  ghost predicate Steps(c: Config, b: Infinite) {
    forall n: nat :: StepAt(c, b, n)
  }

  predicate MovesAt(b: Infinite, n: nat, m: nat, p: Pid) {
    n <= m && Mover(b.action(m)) == Some(p)
  }

  predicate LateAt(b: Infinite, n: nat, m: nat, time: Time) {
    n <= m && b.state(m).now >= time
  }

  /** Nobody is held up for ever. */
  ghost predicate Fair(b: Infinite) {
    forall n: nat, p: Pid :: p in b.state(n).acts ==> exists m: nat :: MovesAt(b, n, m, p)
  }

  ghost predicate TimeComes(b: Infinite, n: nat, time: Time) {
    exists m: nat :: LateAt(b, n, m, time)
  }

  ghost predicate TimePasses(b: Infinite) {
    forall n: nat, time: Time :: TimeComes(b, n, time)
  }

  /** Some run, faulty or not, leads here. */
  ghost predicate Reachable(c: Config, s: State) {
    exists actions :: Run(c, actions) && End(c, actions) == s
  }

  /** A fair run from a reachable state, with at least one poller. */
  ghost predicate FairRun(c: Config, b: Infinite) {
    && ValidConfig(c) && Reachable(c, b.state(0))
    && Steps(c, b) && Fair(b) && TimePasses(b)
    && (exists p :: IsPoller(b.state(0), p))
  }

  /** Fairness asks for nothing impossible: whoever is there has a move in which nothing fails. */
  lemma NobodyStuck(c: Config, s: State, p: Pid) returns (a: Action)
    requires ValidConfig(c) && Inv(c, s) && p in s.acts
    ensures Enabled(c, s, a) && Quiet(c, s, a) && Mover(a) == Some(p)
  {
    assert ActInv(s.acts[p], s.db);
    match s.acts[p] {
      case Upload(flow) => a := FlowCanMove(c, s, p);
      case Job(d, pages, fan) =>
        if fan.launcher.Returned? {
          a := EndJob(p, true);
        } else {
          var step := FanOut.NeverStuck(fan);
          a := StepJob(p, step, "");
        }
      case Poller(pc) => a := PollerCanMove(c, s, p);
    }
  }

  lemma FlowCanMove(c: Config, s: State, p: Pid) returns (a: Action)
    requires Inv(c, s) && p in s.acts && FlowOf(s.acts[p]).Some?
    ensures a.StepFlow? && a.pid == p && Enabled(c, s, a) && Quiet(c, s, a)
  {
    assert ActInv(s.acts[p], s.db);
    var flow := FlowOf(s.acts[p]).value;
    var job := FreshAbove(s.acts.Keys);
    a := StepFlow(p, FineFor(flow.pc, s.db[flow.doc]), job);
  }

  lemma PollerCanMove(c: Config, s: State, p: Pid) returns (a: Action)
    requires Inv(c, s) && IsPoller(s, p)
    ensures Enabled(c, s, a) && Quiet(c, s, a) && Mover(a) == Some(p)
  {
    assert ActInv(s.acts[p], s.db);
    match s.acts[p].pc {
      case Draining =>
        if QueueEmpty(c, s) {
          a := ClaimNothing(p);
        } else {
          var d :| d in s.db && Claimable(s.db[d].doc, c.maxAttempts, s.now);
          a := Claim(p, d, Fine);
        }
      case Working(d, attempt, w) => a := StepWorker(p, QuietChoice(w));
      case Exhausting => a := Exhaust(p, true);
      case Listing =>
        var todo := ListExists(c, s);
        a := ListStuck(p, todo);
      case Recovering(todo, flow) =>
        if todo != [] && flow.Some? {
          a := FlowCanMove(c, s, p);
        } else {
          assert todo != [] ==> EntryInv(todo[0], s.db);
          a := NextEntry(p, Fine);
        }
    }
  }

  function QuietChoice(w: WorkerPc): Choice {
    match w
    case Loading => Read(true)
    case Asking => AnswerError(true, "")
    case Saving(content) => Sql(if Storable(content) then Fine else Outcome(false, false))
    case _ => Sql(Fine)
  }

  // ---------- what holds throughout ----------

  lemma {:induction false} InvAt(c: Config, b: Infinite, n: nat)
    requires FairRun(c, b)
    ensures Inv(c, b.state(n))
  {
    if n > 0 {
      InvAt(c, b, n - 1);
      InvAfter(c, b, n - 1);
    } else {
      ReachableInv(c, b.state(0));
    }
  }

  lemma ReachableInv(c: Config, s: State)
    requires Reachable(c, s)
    ensures Inv(c, s) && UploadsInv(s)
  {
    var actions :| Run(c, actions) && End(c, actions) == s;
    EndInv(c, actions);
    UploadsInvReached(c, Initial, actions);
  }

  lemma InvAfter(c: Config, b: Infinite, n: nat)
    requires FairRun(c, b) && Inv(c, b.state(n))
    ensures Inv(c, b.state(n + 1))
  {
    assert StepAt(c, b, n);
    StepInv(c, b.state(n), b.action(n));
  }

  lemma {:induction false} KeysAt(c: Config, b: Infinite, n: nat, m: nat)
    requires FairRun(c, b) && n <= m
    ensures b.state(m).db.Keys == b.state(n).db.Keys
    decreases m - n
  {
    if n < m {
      assert StepAt(c, b, n);
      SameKeys(c, b.state(n), b.action(n));
      KeysAt(c, b, n + 1, m);
    }
  }

  lemma SameKeys(c: Config, s: State, a: Action)
    requires Enabled(c, s, a) && Quiet(c, s, a)
    ensures Next(c, s, a).db.Keys == s.db.Keys
  {}

  /** Whoever does not move stays where it is. */
  lemma OthersStay(c: Config, s: State, a: Action, p: Pid)
    requires Enabled(c, s, a) && Quiet(c, s, a) && p in s.acts && Mover(a) != Some(p)
    ensures p in Next(c, s, a).acts && Next(c, s, a).acts[p] == s.acts[p]
  {}

  /** The next move of p finds it where it is now. */
  lemma NextMove(c: Config, b: Infinite, p: Pid, n: nat) returns (m: nat)
    requires FairRun(c, b) && p in b.state(n).acts
    ensures n <= m && Mover(b.action(m)) == Some(p) && p in b.state(m).acts && b.state(m).acts[p] == b.state(n).acts[p]
  {
    var k: nat :| MovesAt(b, n, k, p);
    m := FirstMove(c, b, p, n, k);
  }

  lemma {:induction false} FirstMove(c: Config, b: Infinite, p: Pid, n: nat, k: nat) returns (m: nat)
    requires FairRun(c, b) && p in b.state(n).acts && MovesAt(b, n, k, p)
    ensures n <= m && Mover(b.action(m)) == Some(p) && p in b.state(m).acts && b.state(m).acts[p] == b.state(n).acts[p]
    decreases k - n
  {
    if Mover(b.action(n)) == Some(p) {
      m := n;
    } else {
      assert StepAt(c, b, n);
      OthersStay(c, b.state(n), b.action(n), p);
      m := FirstMove(c, b, p, n + 1, k);
    }
  }

  lemma {:induction false} TimeGoesOn(c: Config, b: Infinite, n: nat, m: nat)
    requires FairRun(c, b) && n <= m
    ensures b.state(n).now <= b.state(m).now
    decreases m - n
  {
    if n < m {
      assert StepAt(c, b, n);
      TimeGoesOn(c, b, n + 1, m);
    }
  }

  /** p is still a poller. */
  lemma {:induction false} PollerAt(c: Config, b: Infinite, p: Pid, n: nat)
    requires FairRun(c, b) && IsPoller(b.state(0), p)
    ensures IsPoller(b.state(n), p)
  {
    if n > 0 {
      PollerAt(c, b, p, n - 1);
      assert StepAt(c, b, n - 1);
      PollersStay(c, b.state(n - 1), b.action(n - 1), p);
    }
  }

  lemma PollersStay(c: Config, s: State, a: Action, p: Pid)
    requires Enabled(c, s, a) && Quiet(c, s, a) && IsPoller(s, p)
    ensures IsPoller(Next(c, s, a), p)
  {}

  lemma SomePoller(c: Config, b: Infinite) returns (p: Pid)
    requires FairRun(c, b)
    ensures IsPoller(b.state(0), p)
  {
    p :| IsPoller(b.state(0), p);
  }

  // ---------- the statuses settle ----------

  lemma PotentialStep(c: Config, s: State, a: Action, d: DocId)
    requires Enabled(c, s, a) && d in s.db
    ensures d in Next(c, s, a).db
    ensures var before, after := s.db[d].doc, Next(c, s, a).db[d].doc;
      && Potential(c.maxAttempts, after) <= Potential(c.maxAttempts, before)
      && (after.status != before.status ==> Potential(c.maxAttempts, after) < Potential(c.maxAttempts, before))
  {
    var stmt := StepStatement(c, s, a, d);
    if stmt.Some? {
      StatementLowersPotential(c.maxAttempts, stmt.value, s.now, s.db[d]);
    }
  }

  /** If the status changes at all between n and m, the potential has fallen. */
  lemma {:induction false} PotentialBetween(c: Config, b: Infinite, d: DocId, n: nat, m: nat)
    requires FairRun(c, b) && d in b.state(n).db && n <= m
    ensures d in b.state(m).db
    ensures Potential(c.maxAttempts, b.state(m).db[d].doc) <= Potential(c.maxAttempts, b.state(n).db[d].doc)
    ensures b.state(m).db[d].doc.status != b.state(n).db[d].doc.status ==>
      Potential(c.maxAttempts, b.state(m).db[d].doc) < Potential(c.maxAttempts, b.state(n).db[d].doc)
    decreases m - n
  {
    if n < m {
      assert StepAt(c, b, n);
      PotentialStep(c, b.state(n), b.action(n), d);
      PotentialBetween(c, b, d, n + 1, m);
    }
  }

  predicate SameStatus(s: State, t: State, d: DocId) {
    d in s.db && d in t.db && t.db[d].doc.status == s.db[d].doc.status
  }

  /** From n on the status of d never changes. */
  ghost predicate Settled(b: Infinite, n: nat, d: DocId) {
    forall m: nat :: m >= n ==> SameStatus(b.state(n), b.state(m), d)
  }

  lemma {:induction false} Settles(c: Config, b: Infinite, d: DocId, n: nat) returns (m: nat)
    requires FairRun(c, b) && d in b.state(n).db
    ensures m >= n && Settled(b, m, d)
    decreases Potential(c.maxAttempts, b.state(n).db[d].doc)
  {
    if Settled(b, n, d) {
      m := n;
    } else {
      var k: nat :| k >= n && !SameStatus(b.state(n), b.state(k), d);
      PotentialBetween(c, b, d, n, k);
      m := Settles(c, b, d, k);
    }
  }

  lemma SettledLater(b: Infinite, n: nat, m: nat, d: DocId)
    requires Settled(b, n, d) && n <= m
    ensures Settled(b, m, d)
  {
    assert SameStatus(b.state(n), b.state(m), d);
    forall k: nat | k >= m
      ensures SameStatus(b.state(m), b.state(k), d)
    {
      assert SameStatus(b.state(n), b.state(k), d);
    }
  }

  ghost predicate AllSettled(b: Infinite, n: nat) {
    forall d :: d in b.state(n).db ==> Settled(b, n, d)
  }

  lemma {:induction false} SomeSettle(c: Config, b: Infinite, docs: set<DocId>, n: nat) returns (m: nat)
    requires FairRun(c, b) && docs <= b.state(n).db.Keys
    ensures m >= n && forall d :: d in docs ==> Settled(b, m, d)
    decreases |docs|
  {
    if docs == {} {
      m := n;
    } else {
      var d :| d in docs;
      var k := Settles(c, b, d, n);
      KeysAt(c, b, n, k);
      m := SomeSettle(c, b, docs - {d}, k);
      SettledLater(b, k, m, d);
    }
  }

  lemma AllSettle(c: Config, b: Infinite) returns (n: nat)
    requires FairRun(c, b)
    ensures AllSettled(b, n)
  {
    n := SomeSettle(c, b, b.state(0).db.Keys, 0);
    KeysAt(c, b, 0, n);
  }

  // ---------- once nothing changes status ----------

  /** The run from some point on, where no status ever changes again. */
  ghost predicate Calm(c: Config, b: Infinite, n: nat) {
    FairRun(c, b) && AllSettled(b, n)
  }

  lemma CalmLater(c: Config, b: Infinite, n: nat, m: nat)
    requires Calm(c, b, n) && n <= m
    ensures Calm(c, b, m)
  {
    KeysAt(c, b, n, m);
    forall d | d in b.state(m).db
      ensures Settled(b, m, d)
    {
      SettledLater(b, n, m, d);
    }
  }

  /** A calm step changes no status. */
  lemma CalmStep(c: Config, b: Infinite, n: nat, m: nat, d: DocId)
    requires Calm(c, b, n) && n <= m && d in b.state(m).db
    ensures StepAt(c, b, m) && SameStatus(b.state(m), Next(c, b.state(m), b.action(m)), d)
  {
    KeysAt(c, b, n, m);
    assert Settled(b, n, d) && SameStatus(b.state(n), b.state(m), d) && SameStatus(b.state(n), b.state(m + 1), d);
    assert StepAt(c, b, m);
  }

  lemma CalmStatus(c: Config, b: Infinite, n: nat, m: nat, d: DocId)
    requires Calm(c, b, n) && n <= m && d in b.state(n).db
    ensures SameStatus(b.state(n), b.state(m), d)
  {
    assert Settled(b, n, d);
  }

  lemma NoClaim(c: Config, b: Infinite, n: nat, m: nat)
    requires Calm(c, b, n) && n <= m
    ensures !b.action(m).Claim?
  {
    assert StepAt(c, b, m);
    if b.action(m).Claim? {
      CalmStep(c, b, n, m, b.action(m).doc);
      assert false;
    }
  }

  // ---------- the poller goes round ----------

  function RankOfFlow(pc: FlowPc): nat {
    if pc.Starting? then 8 else FlowRank(pc)
  }

  function RankOfWorker(w: WorkerPc): nat {
    match w
    case Loading => 6
    case Asking => 5
    case Saving(_) => 4
    case Completing => 3
    case Requeueing => 2
    case Abandoning(_) => 1
  }

  /** The moves a poller makes, without a claim, until it lists the stuck documents. */
  function RankOfPoller(pc: PollerPc): nat {
    match pc
    case Listing => 0
    case Exhausting => 1
    case Draining => 2
    case Working(_, _, w) => 10 + RankOfWorker(w)
    case Recovering(todo, flow) =>
      20 + 10 * |todo| + (if todo != [] && flow.Some? then RankOfFlow(flow.value.pc) else 9)
  }

  lemma FlowRankDrops(pc: FlowPc, r: Record, ch: Choice, now: Time)
    requires FlowEnabled(pc, r, ch) && FineChoice(ch, pc != Converting || r.doc.pdfPages >= 1)
    ensures var next := NextFlow(pc, r, ch, now).next; next.Some? ==> RankOfFlow(next.value) < RankOfFlow(pc)
  {}

  lemma PollerRankDrops(c: Config, s: State, a: Action, p: Pid)
    requires Enabled(c, s, a) && Quiet(c, s, a) && IsPoller(s, p) && Mover(a) == Some(p) && !a.Claim? && !a.ListStuck?
    ensures IsPoller(Next(c, s, a), p)
    ensures RankOfPoller(Next(c, s, a).acts[p].pc) < RankOfPoller(s.acts[p].pc)
    ensures RankOfPoller(Next(c, s, a).acts[p].pc) >= 2 || RankOfPoller(Next(c, s, a).acts[p].pc) == RankOfPoller(s.acts[p].pc) - 1
  {
    if a.StepFlow? {
      var flow := FlowOf(s.acts[p]).value;
      FlowRankDrops(flow.pc, s.db[flow.doc], a.choice, s.now);
    }
  }

  /** In calm, a poller that stands at rank k or above comes to rank k, for each k up to draining. */
  lemma {:induction false} Descends(c: Config, b: Infinite, n: nat, p: Pid, k: nat) returns (m: nat)
    requires Calm(c, b, n) && IsPoller(b.state(n), p) && k <= 2 && RankOfPoller(b.state(n).acts[p].pc) >= k
    ensures m >= n && IsPoller(b.state(m), p) && RankOfPoller(b.state(m).acts[p].pc) == k && Mover(b.action(m)) == Some(p)
    decreases RankOfPoller(b.state(n).acts[p].pc)
  {
    var i := NextMove(c, b, p, n);
    if RankOfPoller(b.state(n).acts[p].pc) == k {
      m := i;
    } else {
      OneDown(c, b, n, i, p);
      CalmLater(c, b, n, i + 1);
      m := Descends(c, b, i + 1, p, k);
    }
  }

  lemma OneDown(c: Config, b: Infinite, n: nat, i: nat, p: Pid)
    requires Calm(c, b, n) && n <= i && IsPoller(b.state(i), p) && Mover(b.action(i)) == Some(p)
    requires RankOfPoller(b.state(i).acts[p].pc) > 0
    ensures IsPoller(b.state(i + 1), p)
    ensures RankOfPoller(b.state(i + 1).acts[p].pc) < RankOfPoller(b.state(i).acts[p].pc)
    ensures RankOfPoller(b.state(i + 1).acts[p].pc) >= 2
      || RankOfPoller(b.state(i + 1).acts[p].pc) == RankOfPoller(b.state(i).acts[p].pc) - 1
  {
    assert StepAt(c, b, i);
    NoClaim(c, b, n, i);
    PollerRankDrops(c, b.state(i), b.action(i), p);
  }

  /** Again and again a poller lists the stuck documents. */
  lemma ListsAgain(c: Config, b: Infinite, n: nat, p: Pid) returns (m: nat)
    requires Calm(c, b, n) && IsPoller(b.state(n), p)
    ensures m >= n && IsPoller(b.state(m), p) && b.action(m).ListStuck? && b.action(m).pid == p
  {
    m := Descends(c, b, n, p, 0);
    assert StepAt(c, b, m);
  }

  // ---------- a document in processing ----------

  /** An OCR job for d in which nothing has gone wrong. */
  predicate CleanJob(s: State, j: Pid, d: DocId) {
    j in s.acts && s.acts[j].Job? && s.acts[j].doc == d && FanOut.Clean(s.acts[j].fan)
  }

  lemma CleanKept(s: FanOut.State, a: FanOut.Action)
    requires FanOut.Clean(s) && FanOut.Enabled(s, a) && FanOut.Fine(a)
    ensures FanOut.Clean(FanOut.Apply(s, a))
  {}

  /** The steps a job can still take. */
  function JobWork(s: State, j: Pid): nat {
    if j in s.acts && s.acts[j].Job? && s.acts[j].fan.next <= s.acts[j].fan.total then FanOut.Work(s.acts[j].fan) else 0
  }

  predicate InProcessing(s: State, d: DocId) {
    d in s.db && s.db[d].doc.status == Processing
  }

  /** A move of a clean job brings it nearer its end, which flips the document. */
  lemma JobProgress(c: Config, s: State, a: Action, j: Pid, d: DocId)
    requires Inv(c, s) && Enabled(c, s, a) && Quiet(c, s, a) && CleanJob(s, j, d) && Mover(a) == Some(j)
    requires InProcessing(s, d) && InProcessing(Next(c, s, a), d)
    ensures CleanJob(Next(c, s, a), j, d) && JobWork(Next(c, s, a), j) < JobWork(s, j)
  {
    JobSound(c, s, j, d);
    if a.StepJob? {
      CleanKept(s.acts[j].fan, a.step);
      FanOut.StepUsesWork(s.acts[j].fan, a.step);
    }
  }

  lemma JobSound(c: Config, s: State, j: Pid, d: DocId)
    requires Inv(c, s) && CleanJob(s, j, d)
    ensures FanOut.Inv(s.acts[j].fan)
  {
    assert ActInv(s.acts[j], s.db);
  }

  lemma JobMoves(c: Config, b: Infinite, m: nat, j: Pid, d: DocId)
    requires FairRun(c, b) && CleanJob(b.state(m), j, d) && Mover(b.action(m)) == Some(j)
    requires InProcessing(b.state(m), d) && InProcessing(b.state(m + 1), d)
    ensures CleanJob(b.state(m + 1), j, d) && JobWork(b.state(m + 1), j) < JobWork(b.state(m), j)
  {
    InvAt(c, b, m);
    assert StepAt(c, b, m);
    JobProgress(c, b.state(m), b.action(m), j, d);
  }

  lemma SameJob(s: State, t: State, j: Pid, d: DocId)
    requires CleanJob(s, j, d) && j in t.acts && t.acts[j] == s.acts[j]
    ensures CleanJob(t, j, d) && JobWork(t, j) == JobWork(s, j)
  {}

  /** A clean job brings its document out of processing. */
  lemma {:induction false} CleanJobEnds(c: Config, b: Infinite, n: nat, j: Pid, d: DocId) returns (m: nat)
    requires FairRun(c, b) && CleanJob(b.state(n), j, d)
    ensures m >= n && !InProcessing(b.state(m), d)
    decreases JobWork(b.state(n), j)
  {
    m := NextMove(c, b, j, n);
    SameJob(b.state(n), b.state(m), j, d);
    if InProcessing(b.state(m), d) {
      if InProcessing(b.state(m + 1), d) {
        JobMoves(c, b, m, j, d);
        m := CleanJobEnds(c, b, m + 1, j, d);
      } else {
        m := m + 1;
      }
    }
  }

  predicate FlowAt(s: State, p: Pid, d: DocId) {
    p in s.acts && FlowOf(s.acts[p]).Some? && FlowOf(s.acts[p]).value.doc == d
  }

  /** A flow on d that has not posted its job. */
  predicate Unposted(s: State, p: Pid, d: DocId) {
    FlowAt(s, p, d) && !FlowOf(s.acts[p]).value.pc.Stamping?
  }

  function RankAt(s: State, p: Pid): nat {
    if p in s.acts && FlowOf(s.acts[p]).Some? then RankOfFlow(FlowOf(s.acts[p]).value.pc) else 0
  }

  lemma FreshIsClean(c: Config, d: DocId, pages: seq<PageRef>)
    ensures FanOut.Clean(NewJob(c, d, pages).fan)
  {}

  /** A move of such a flow starts a clean job, or brings it nearer its post, or fails the document. */
  lemma FlowProgress(c: Config, s: State, a: Action, p: Pid, d: DocId)
    requires Inv(c, s) && Enabled(c, s, a) && Quiet(c, s, a) && Unposted(s, p, d) && Mover(a) == Some(p) && a.StepFlow?
    requires InProcessing(s, d) && InProcessing(Next(c, s, a), d)
    ensures var t := Next(c, s, a);
      CleanJob(t, a.job, d) || (Unposted(t, p, d) && RankAt(t, p) < RankAt(s, p))
  {
    assert ActInv(s.acts[p], s.db);
    var flow := FlowOf(s.acts[p]).value;
    FlowStep(flow.pc, s.db[d], a.choice, s.now);
    FlowRankDrops(flow.pc, s.db[d], a.choice, s.now);
    var step := NextFlow(flow.pc, s.db[d], a.choice, s.now);
    if step.posted.Some? {
      FreshIsClean(c, d, step.posted.value);
    } else if step.next.Some? {
      FlowOfWithFlow(s.acts[p], d, step.next.value);
    }
  }

  lemma FlowStep(pc: FlowPc, r: Record, ch: Choice, now: Time)
    requires FlowEnabled(pc, r, ch) && FineChoice(ch, pc != Converting || r.doc.pdfPages >= 1)
    requires !pc.Stamping? && r.doc.status == Processing && FlowInv(pc, r)
    ensures var step := NextFlow(pc, r, ch, now);
      || step.rec.doc.status != Processing || step.posted.Some? || (step.next.Some? && !step.next.value.Stamping?)
  {
    if pc.LoadingPages? {
      assert 1 in r.pages;
      NonEmptyRows(r.pages);
    }
  }

  lemma FlowMovesFlow(c: Config, s: State, a: Action, p: Pid, d: DocId)
    requires Enabled(c, s, a) && FlowAt(s, p, d) && Mover(a) == Some(p)
    ensures a.StepFlow? || a.Crash?
  {}

  lemma FlowMoves(c: Config, b: Infinite, m: nat, p: Pid, d: DocId)
    requires FairRun(c, b) && Unposted(b.state(m), p, d) && Mover(b.action(m)) == Some(p)
    requires InProcessing(b.state(m), d) && InProcessing(b.state(m + 1), d)
    ensures (b.action(m).StepFlow? && CleanJob(b.state(m + 1), b.action(m).job, d))
      || (Unposted(b.state(m + 1), p, d) && RankAt(b.state(m + 1), p) < RankAt(b.state(m), p))
  {
    InvAt(c, b, m);
    assert StepAt(c, b, m);
    FlowMovesFlow(c, b.state(m), b.action(m), p, d);
    FlowProgress(c, b.state(m), b.action(m), p, d);
  }

  lemma SameFlow(s: State, t: State, p: Pid, d: DocId)
    requires Unposted(s, p, d) && p in t.acts && t.acts[p] == s.acts[p]
    ensures Unposted(t, p, d) && RankAt(t, p) == RankAt(s, p)
  {}

  /** So does a flow on it that has yet to post. */
  lemma {:induction false} UnpostedEnds(c: Config, b: Infinite, n: nat, p: Pid, d: DocId) returns (m: nat)
    requires FairRun(c, b) && Unposted(b.state(n), p, d)
    ensures m >= n && !InProcessing(b.state(m), d)
    decreases RankAt(b.state(n), p)
  {
    m := NextMove(c, b, p, n);
    SameFlow(b.state(n), b.state(m), p, d);
    if InProcessing(b.state(m), d) {
      if InProcessing(b.state(m + 1), d) {
        FlowMoves(c, b, m, p, d);
        if b.action(m).StepFlow? && CleanJob(b.state(m + 1), b.action(m).job, d) {
          m := CleanJobEnds(c, b, m + 1, b.action(m).job, d);
        } else {
          m := UnpostedEnds(c, b, m + 1, p, d);
        }
      } else {
        m := m + 1;
      }
    }
  }

  /** In calm there is none on a document in processing. */
  lemma NoUnposted(c: Config, b: Infinite, n: nat, p: Pid, d: DocId)
    requires Unposted(b.state(n), p, d) && InProcessing(b.state(n), d)
    ensures !Calm(c, b, n)
  {
    if Calm(c, b, n) {
      var m := UnpostedEnds(c, b, n, p, d);
      CalmStatus(c, b, n, m, d);
      assert false;
    }
  }

  // ---------- who may still write to a document ----------

  /** A poller that may yet start a flow on d: its list says d is in processing. */
  predicate MayStart(act: Activity, d: DocId) {
    act.Poller? && act.pc.Recovering? && exists e :: e in act.pc.todo && e.doc == d && e.status == Processing
  }

  /** The activities with a flow on d; if ahead, also those that may yet start one. */
  function Writers(s: State, d: DocId, ahead: bool): set<Pid> {
    set p | p in s.acts && (FlowAt(s, p, d) || (ahead && MayStart(s.acts[p], d)))
  }

  /** A flow begins with an entry of a janitor's list, at its first step. */
  lemma FlowOrigin(c: Config, s: State, a: Action, p: Pid, d: DocId)
    requires Enabled(c, s, a) && Quiet(c, s, a) && FlowAt(Next(c, s, a), p, d) && !FlowAt(s, p, d)
    ensures Unposted(Next(c, s, a), p, d) && p in s.acts && MayStart(s.acts[p], d)
  {
    if a.NextEntry? {
      assert s.acts[a.pid].pc.todo[0] in s.acts[a.pid].pc.todo;
    }
  }

  lemma MayStartOrigin(c: Config, s: State, a: Action, p: Pid, d: DocId)
    requires Enabled(c, s, a) && Quiet(c, s, a) && p in Next(c, s, a).acts && MayStart(Next(c, s, a).acts[p], d)
    requires d in s.db && s.db[d].doc.status != Processing
    ensures p in s.acts && MayStart(s.acts[p], d)
  {
    var e :| e in Next(c, s, a).acts[p].pc.todo && e.doc == d && e.status == Processing;
    if a.ListStuck? && a.pid == p {
      ListedStatus(c, s, a, e);
      assert false;
    }
  }

  lemma ListedStatus(c: Config, s: State, a: Action, e: Entry)
    requires Enabled(c, s, a) && a.ListStuck? && e in a.todo
    ensures e.doc in s.db && s.db[e.doc].doc.status == e.status
  {
    assert EntryAccurate(s, e);
  }

  /** In calm nobody new comes to write to d. */
  lemma WritersShrink(c: Config, b: Infinite, n: nat, m: nat, d: DocId)
    requires Calm(c, b, n) && n <= m && d in b.state(n).db
    ensures var ahead := b.state(n).db[d].doc.status != Processing;
      Writers(b.state(m + 1), d, ahead) <= Writers(b.state(m), d, ahead)
  {
    var ahead := b.state(n).db[d].doc.status != Processing;
    CalmStatus(c, b, n, m, d);
    CalmStatus(c, b, n, m + 1, d);
    CalmLater(c, b, n, m + 1);
    assert StepAt(c, b, m);
    forall p | p in Writers(b.state(m + 1), d, ahead)
      ensures p in Writers(b.state(m), d, ahead)
    {
      if FlowAt(b.state(m + 1), p, d) && !FlowAt(b.state(m), p, d) {
        FlowOrigin(c, b.state(m), b.action(m), p, d);
        if !ahead {
          NoUnposted(c, b, m + 1, p, d);
          assert false;
        }
      } else if !FlowAt(b.state(m + 1), p, d) {
        MayStartOrigin(c, b.state(m), b.action(m), p, d);
      }
    }
  }

  /** An upload comes to its end. */
  lemma {:induction false} UploadEnds(c: Config, b: Infinite, n: nat, p: Pid, d: DocId) returns (m: nat)
    requires FairRun(c, b) && FlowAt(b.state(n), p, d) && b.state(n).acts[p].Upload?
    ensures m >= n && p !in b.state(m).acts
    decreases RankAt(b.state(n), p)
  {
    var i := NextMove(c, b, p, n);
    UploadMoves(c, b, i, p, d);
    if p !in b.state(i + 1).acts {
      m := i + 1;
    } else {
      m := UploadEnds(c, b, i + 1, p, d);
    }
  }

  lemma UploadMoves(c: Config, b: Infinite, i: nat, p: Pid, d: DocId)
    requires FairRun(c, b) && FlowAt(b.state(i), p, d) && b.state(i).acts[p].Upload? && Mover(b.action(i)) == Some(p)
    ensures var t := b.state(i + 1);
      p in t.acts ==> FlowAt(t, p, d) && t.acts[p].Upload? && RankAt(t, p) < RankAt(b.state(i), p)
  {
    assert StepAt(c, b, i);
    UploadProgress(c, b.state(i), b.action(i), p, d);
  }

  lemma UploadProgress(c: Config, s: State, a: Action, p: Pid, d: DocId)
    requires Enabled(c, s, a) && Quiet(c, s, a) && FlowAt(s, p, d) && s.acts[p].Upload? && Mover(a) == Some(p)
    ensures var t := Next(c, s, a);
      p in t.acts ==> FlowAt(t, p, d) && t.acts[p].Upload? && RankAt(t, p) < RankAt(s, p)
  {
    FlowMovesFlow(c, s, a, p, d);
    var flow := FlowOf(s.acts[p]).value;
    FlowRankDrops(flow.pc, s.db[d], a.choice, s.now);
  }

  lemma NotAtListing(s: State, p: Pid, d: DocId, ahead: bool)
    requires IsPoller(s, p) && RankOfPoller(s.acts[p].pc) == 0
    ensures p !in Writers(s, d, ahead)
  {}

  /** And each of those there are comes to its end, or to its next list. */
  lemma WriterLeaves(c: Config, b: Infinite, n: nat, p: Pid, d: DocId, ahead: bool) returns (m: nat)
    requires Calm(c, b, n) && p in Writers(b.state(n), d, ahead)
    ensures m >= n && p !in Writers(b.state(m), d, ahead)
  {
    if b.state(n).acts[p].Upload? {
      m := UploadEnds(c, b, n, p, d);
    } else {
      m := Descends(c, b, n, p, 0);
      NotAtListing(b.state(m), p, d, ahead);
    }
  }

  lemma {:induction false} WritersShrinkTo(c: Config, b: Infinite, n: nat, m: nat, k: nat, d: DocId)
    requires Calm(c, b, n) && n <= m <= k && d in b.state(n).db
    ensures var ahead := b.state(n).db[d].doc.status != Processing;
      Writers(b.state(k), d, ahead) <= Writers(b.state(m), d, ahead)
    decreases k - m
  {
    if m < k {
      WritersShrink(c, b, n, m, d);
      WritersShrinkTo(c, b, n, m + 1, k, d);
    }
  }

  /** In the end nobody is left who may write to d. */
  lemma {:induction false} WritersGone(c: Config, b: Infinite, n: nat, m: nat, d: DocId) returns (k: nat)
    requires Calm(c, b, n) && n <= m && d in b.state(n).db
    ensures k >= m && Writers(b.state(k), d, b.state(n).db[d].doc.status != Processing) == {}
    decreases |Writers(b.state(m), d, b.state(n).db[d].doc.status != Processing)|
  {
    var ahead := b.state(n).db[d].doc.status != Processing;
    if Writers(b.state(m), d, ahead) == {} {
      k := m;
    } else {
      var p :| p in Writers(b.state(m), d, ahead);
      CalmLater(c, b, n, m);
      var i := WriterLeaves(c, b, m, p, d, ahead);
      WritersShrinkTo(c, b, n, m, i, d);
      SubsetSize(Writers(b.state(i), d, ahead), Writers(b.state(m), d, ahead) - {p});
      k := WritersGone(c, b, n, i, d);
    }
  }

  // ---------- a document that waits gets listed ----------

  predicate WaitsForJanitor(s: State, d: DocId) {
    d in s.db && (s.db[d].doc.status == Processing || s.db[d].doc.status == Extracting)
  }

  /** Only a flow touches updated_at without changing the status. */
  lemma QuietKeepsUpdatedAt(c: Config, s: State, a: Action, d: DocId, ahead: bool)
    requires Enabled(c, s, a) && Quiet(c, s, a) && WaitsForJanitor(s, d) && Writers(s, d, ahead) == {}
    requires SameStatus(s, Next(c, s, a), d)
    ensures Next(c, s, a).db[d].doc.updatedAt == s.db[d].doc.updatedAt
  {
    if a.StepFlow? {
      NoFlowAt(s, a.pid, d, ahead);
    }
  }

  lemma NoFlowAt(s: State, p: Pid, d: DocId, ahead: bool)
    requires Writers(s, d, ahead) == {}
    ensures !FlowAt(s, p, d)
  {
    assert p !in Writers(s, d, ahead);
  }

  lemma {:induction false} UpdatedAtKept(c: Config, b: Infinite, n: nat, m: nat, d: DocId)
    requires Calm(c, b, n) && n <= m && WaitsForJanitor(b.state(n), d)
    requires Writers(b.state(n), d, b.state(n).db[d].doc.status != Processing) == {}
    ensures SameStatus(b.state(n), b.state(m), d)
    ensures b.state(m).db[d].doc.updatedAt == b.state(n).db[d].doc.updatedAt
    decreases m - n
  {
    CalmStatus(c, b, n, m, d);
    if n < m {
      UpdatedAtKept(c, b, n, m - 1, d);
      UpdatedAtStep(c, b, n, m - 1, d);
    }
  }

  lemma UpdatedAtStep(c: Config, b: Infinite, n: nat, m: nat, d: DocId)
    requires Calm(c, b, n) && n <= m && WaitsForJanitor(b.state(n), d)
    requires Writers(b.state(n), d, b.state(n).db[d].doc.status != Processing) == {}
    ensures SameStatus(b.state(m), b.state(m + 1), d)
    ensures b.state(m + 1).db[d].doc.updatedAt == b.state(m).db[d].doc.updatedAt
  {
    CalmStatus(c, b, n, m, d);
    WritersShrinkTo(c, b, n, n, m, d);
    CalmStep(c, b, n, m, d);
    QuietKeepsUpdatedAt(c, b.state(m), b.action(m), d, b.state(n).db[d].doc.status != Processing);
  }

  /** The janitor's list says of d what is true of it. */
  predicate Lists(todo: seq<Entry>, d: DocId, status: Status) {
    exists i :: 0 <= i < |todo| && todo[i].doc == d && todo[i].status == status
  }

  lemma StuckIsListed(c: Config, s: State, a: Action, d: DocId)
    requires Enabled(c, s, a) && Quiet(c, s, a) && a.ListStuck?
    requires d in s.db && Stuck(c, s, s.db[d].doc)
    ensures Lists(a.todo, d, s.db[d].doc.status)
  {
    assert Listed(a.todo, d);
    var i :| 0 <= i < |a.todo| && a.todo[i].doc == d;
    assert EntryAccurate(s, a.todo[i]);
  }

  /** Some list of p's has a waiting document on it. */
  lemma ComesOnList(c: Config, b: Infinite, n: nat, p: Pid, d: DocId) returns (m: nat)
    requires Calm(c, b, n) && IsPoller(b.state(0), p) && WaitsForJanitor(b.state(n), d)
    ensures m >= n && b.action(m).ListStuck? && b.action(m).pid == p
    ensures Lists(b.action(m).todo, d, b.state(n).db[d].doc.status)
  {
    var k := WritersGone(c, b, n, n, d);
    CalmStatus(c, b, n, k, d);
    CalmLater(c, b, n, k);
    var late := WaitUntil(c, b, k, b.state(k).db[d].doc.updatedAt + c.stuckTimeout + 1);
    PollerAt(c, b, p, late);
    CalmLater(c, b, k, late);
    m := ListsAgain(c, b, late, p);
    UpdatedAtKept(c, b, k, m, d);
    TimeGoesOn(c, b, late, m);
    ListsStuckAt(c, b, m, d);
  }

  lemma WaitUntil(c: Config, b: Infinite, n: nat, time: Time) returns (m: nat)
    requires FairRun(c, b)
    ensures m >= n && b.state(m).now >= time
  {
    assert TimeComes(b, n, time);
    m :| LateAt(b, n, m, time);
  }

  lemma ListsStuckAt(c: Config, b: Infinite, m: nat, d: DocId)
    requires FairRun(c, b) && b.action(m).ListStuck? && WaitsForJanitor(b.state(m), d)
    requires b.state(m).now > b.state(m).db[d].doc.updatedAt + c.stuckTimeout
    ensures Lists(b.action(m).todo, d, b.state(m).db[d].doc.status)
  {
    assert StepAt(c, b, m);
    StuckIsListed(c, b.state(m), b.action(m), d);
  }

  // ---------- and its entry is dealt with ----------

  /** The poller has an entry for d ahead of it; the one whose flow is running is not meant. */
  predicate Awaits(act: Activity, d: DocId, status: Status) {
    && act.Poller? && act.pc.Recovering?
    && exists i :: (if act.pc.flow.Some? then 1 else 0) <= i < |act.pc.todo| && act.pc.todo[i].doc == d && act.pc.todo[i].status == status
  }

  /** The move deals with the entry for d. */
  predicate DealsWith(s: State, a: Action, d: DocId, status: Status) {
    && a.NextEntry? && IsPoller(s, a.pid) && s.acts[a.pid].pc.Recovering? && s.acts[a.pid].pc.todo != []
    && s.acts[a.pid].pc.todo[0].doc == d && s.acts[a.pid].pc.todo[0].status == status
  }

  lemma AwaitsKept(c: Config, s: State, a: Action, p: Pid, d: DocId, status: Status)
    requires Enabled(c, s, a) && Quiet(c, s, a) && p in s.acts && Awaits(s.acts[p], d, status) && Mover(a) == Some(p)
    ensures DealsWith(s, a, d, status) || (p in Next(c, s, a).acts && Awaits(Next(c, s, a).acts[p], d, status))
    ensures !a.Claim? && !a.ListStuck?
  {
    var pc := s.acts[p].pc;
    var i :| (if pc.flow.Some? then 1 else 0) <= i < |pc.todo| && pc.todo[i].doc == d && pc.todo[i].status == status;
    if i > 0 {
      assert pc.todo[1..][i - 1] == pc.todo[i];
    }
  }

  lemma {:induction false} EntryReached(c: Config, b: Infinite, n: nat, p: Pid, d: DocId, status: Status) returns (m: nat)
    requires FairRun(c, b) && IsPoller(b.state(n), p) && Awaits(b.state(n).acts[p], d, status)
    ensures m >= n && DealsWith(b.state(m), b.action(m), d, status)
    decreases RankOfPoller(b.state(n).acts[p].pc)
  {
    m := NextMove(c, b, p, n);
    EntryNearer(c, b, m, p, d, status);
    if !DealsWith(b.state(m), b.action(m), d, status) {
      m := EntryReached(c, b, m + 1, p, d, status);
    }
  }

  lemma EntryNearer(c: Config, b: Infinite, m: nat, p: Pid, d: DocId, status: Status)
    requires FairRun(c, b) && IsPoller(b.state(m), p) && Awaits(b.state(m).acts[p], d, status) && Mover(b.action(m)) == Some(p)
    ensures DealsWith(b.state(m), b.action(m), d, status)
      || (IsPoller(b.state(m + 1), p) && Awaits(b.state(m + 1).acts[p], d, status)
          && RankOfPoller(b.state(m + 1).acts[p].pc) < RankOfPoller(b.state(m).acts[p].pc))
  {
    assert StepAt(c, b, m);
    AwaitsKept(c, b.state(m), b.action(m), p, d, status);
    PollerRankDrops(c, b.state(m), b.action(m), p);
  }

  lemma ListedAwaits(c: Config, s: State, a: Action, d: DocId, status: Status)
    requires Enabled(c, s, a) && a.ListStuck? && Lists(a.todo, d, status)
    ensures IsPoller(Next(c, s, a), a.pid) && Awaits(Next(c, s, a).acts[a.pid], d, status)
  {
    var i :| 0 <= i < |a.todo| && a.todo[i].doc == d && a.todo[i].status == status;
    assert Next(c, s, a).acts[a.pid] == Poller(Recovering(a.todo, None));
  }

  /** So in the end the janitor deals with every waiting document. */
  lemma JanitorDeals(c: Config, b: Infinite, n: nat, p: Pid, d: DocId) returns (m: nat)
    requires Calm(c, b, n) && IsPoller(b.state(0), p) && WaitsForJanitor(b.state(n), d)
    ensures m >= n && DealsWith(b.state(m), b.action(m), d, b.state(n).db[d].doc.status)
  {
    var k := ComesOnList(c, b, n, p, d);
    AwaitsAfterList(c, b, k, p, d, b.state(n).db[d].doc.status);
    m := EntryReached(c, b, k + 1, p, d, b.state(n).db[d].doc.status);
  }

  lemma AwaitsAfterList(c: Config, b: Infinite, k: nat, p: Pid, d: DocId, status: Status)
    requires Steps(c, b) && b.action(k).ListStuck? && b.action(k).pid == p && Lists(b.action(k).todo, d, status)
    ensures IsPoller(b.state(k + 1), p) && Awaits(b.state(k + 1).acts[p], d, status)
  {
    assert StepAt(c, b, k);
    ListedAwaits(c, b.state(k), b.action(k), d, status);
  }

  /** Which changes its status, or starts a flow on it that has not posted. */
  lemma DealingMoves(c: Config, s: State, a: Action, d: DocId)
    requires Enabled(c, s, a) && Quiet(c, s, a) && WaitsForJanitor(s, d) && DealsWith(s, a, d, s.db[d].doc.status)
    ensures if s.db[d].doc.status == Extracting then !SameStatus(s, Next(c, s, a), d) else Unposted(Next(c, s, a), a.pid, d)
  {}

  lemma NobodyWaits(c: Config, b: Infinite, n: nat, d: DocId)
    requires WaitsForJanitor(b.state(n), d)
    ensures !Calm(c, b, n)
  {
    if Calm(c, b, n) {
      var m := FlowComes(c, b, n, d);
      NoUnposted(c, b, m + 1, b.action(m).pid, d);
      assert false;
    }
  }

  /** Dealing with it can only start a flow. */
  lemma FlowComes(c: Config, b: Infinite, n: nat, d: DocId) returns (m: nat)
    requires Calm(c, b, n) && WaitsForJanitor(b.state(n), d)
    ensures m >= n && Calm(c, b, m + 1) && b.action(m).NextEntry?
    ensures InProcessing(b.state(m + 1), d) && Unposted(b.state(m + 1), b.action(m).pid, d)
  {
    var p := SomePoller(c, b);
    m := JanitorDeals(c, b, n, p, d);
    DealtWith(c, b, n, m, d);
    CalmLater(c, b, n, m + 1);
  }

  lemma DealtWith(c: Config, b: Infinite, n: nat, m: nat, d: DocId)
    requires Calm(c, b, n) && n <= m && WaitsForJanitor(b.state(n), d)
    requires DealsWith(b.state(m), b.action(m), d, b.state(n).db[d].doc.status)
    ensures InProcessing(b.state(m + 1), d) && Unposted(b.state(m + 1), b.action(m).pid, d)
  {
    CalmStatus(c, b, n, m, d);
    CalmStatus(c, b, n, m + 1, d);
    CalmStep(c, b, n, m, d);
    DealingMoves(c, b.state(m), b.action(m), d);
  }

  // ---------- a document in the queue ----------

  predicate InQueue(s: State, d: DocId) {
    d in s.db && s.db[d].doc.status == OCRDone
  }

  lemma QuietKeepsQueue(c: Config, s: State, a: Action, d: DocId)
    requires Enabled(c, s, a) && InQueue(s, d) && InQueue(Next(c, s, a), d)
    ensures Next(c, s, a).db[d].doc.nextExtractionAt == s.db[d].doc.nextExtractionAt
    ensures Next(c, s, a).db[d].doc.extractionAttempts == s.db[d].doc.extractionAttempts
  {
    var stmt := StepStatement(c, s, a, d);
    if stmt.Some? {
      StatementKeepsQueue(c.maxAttempts, stmt.value, s.now, s.db[d]);
    }
  }

  lemma StatementKeepsQueue(M: nat, stmt: Stmt, now: Time, r: Record)
    requires InCode(M, stmt) && r.doc.status == OCRDone && Execute(stmt, now, r).doc.status == OCRDone
    ensures Execute(stmt, now, r).doc.nextExtractionAt == r.doc.nextExtractionAt
    ensures Execute(stmt, now, r).doc.extractionAttempts == r.doc.extractionAttempts
  {}

  lemma {:induction false} QueueKept(c: Config, b: Infinite, n: nat, m: nat, d: DocId)
    requires Calm(c, b, n) && n <= m && InQueue(b.state(n), d)
    ensures InQueue(b.state(m), d)
    ensures b.state(m).db[d].doc.nextExtractionAt == b.state(n).db[d].doc.nextExtractionAt
    ensures b.state(m).db[d].doc.extractionAttempts == b.state(n).db[d].doc.extractionAttempts
    decreases m - n
  {
    CalmStatus(c, b, n, m, d);
    if n < m {
      QueueKept(c, b, n, m - 1, d);
      assert StepAt(c, b, m - 1);
      QuietKeepsQueue(c, b.state(m - 1), b.action(m - 1), d);
    }
  }

  /** When a drain has found nothing after the backoff of d, d has no attempt left. */
  lemma DrainedIsExhausted(c: Config, b: Infinite, m: nat, p: Pid, d: DocId)
    requires FairRun(c, b) && IsPoller(b.state(m), p) && RankOfPoller(b.state(m).acts[p].pc) == 2 && Mover(b.action(m)) == Some(p)
    requires !b.action(m).Claim? && InQueue(b.state(m), d) && b.state(m).now >= NextClaim(b.state(m).db[d].doc)
    ensures b.state(m).db[d].doc.extractionAttempts >= c.maxAttempts
    ensures IsPoller(b.state(m + 1), p) && b.state(m + 1).acts[p].pc == Exhausting
  {
    assert StepAt(c, b, m);
  }

  lemma ExhaustFails(c: Config, s: State, a: Action, p: Pid, d: DocId)
    requires Enabled(c, s, a) && Quiet(c, s, a) && IsPoller(s, p) && s.acts[p].pc == Exhausting && Mover(a) == Some(p)
    requires InQueue(s, d) && s.db[d].doc.extractionAttempts >= c.maxAttempts
    ensures !SameStatus(s, Next(c, s, a), d)
  {}

  lemma NobodyQueues(c: Config, b: Infinite, n: nat, d: DocId)
    requires InQueue(b.state(n), d)
    ensures !Calm(c, b, n)
  {
    if Calm(c, b, n) {
      var p, k := ExhaustComes(c, b, n, d);
      ExhaustInCalm(c, b, n, k, p, d);
      assert false;
    }
  }

  /** Some drain finds nothing after the backoff of d, and then comes the update. */
  lemma ExhaustComes(c: Config, b: Infinite, n: nat, d: DocId) returns (p: Pid, k: nat)
    requires Calm(c, b, n) && InQueue(b.state(n), d)
    ensures k >= n && b.state(n).db[d].doc.extractionAttempts >= c.maxAttempts
    ensures IsPoller(b.state(k), p) && b.state(k).acts[p].pc == Exhausting && Mover(b.action(k)) == Some(p)
  {
    p := SomePoller(c, b);
    var m := DrainsAfter(c, b, n, p, NextClaim(b.state(n).db[d].doc));
    DrainedInCalm(c, b, n, m, p, d);
    k := NextMove(c, b, p, m + 1);
  }

  lemma DrainedInCalm(c: Config, b: Infinite, n: nat, m: nat, p: Pid, d: DocId)
    requires Calm(c, b, n) && n <= m && InQueue(b.state(n), d) && b.state(m).now >= NextClaim(b.state(n).db[d].doc)
    requires IsPoller(b.state(m), p) && RankOfPoller(b.state(m).acts[p].pc) == 2 && Mover(b.action(m)) == Some(p)
    ensures b.state(n).db[d].doc.extractionAttempts >= c.maxAttempts
    ensures IsPoller(b.state(m + 1), p) && b.state(m + 1).acts[p].pc == Exhausting
  {
    QueueKept(c, b, n, m, d);
    NoClaim(c, b, n, m);
    DrainedIsExhausted(c, b, m, p, d);
  }

  /** The update after a drain would fail the document. */
  lemma ExhaustInCalm(c: Config, b: Infinite, n: nat, k: nat, p: Pid, d: DocId)
    requires FairRun(c, b) && n <= k && InQueue(b.state(n), d) && b.state(n).db[d].doc.extractionAttempts >= c.maxAttempts
    requires IsPoller(b.state(k), p) && b.state(k).acts[p].pc == Exhausting && Mover(b.action(k)) == Some(p)
    ensures !Calm(c, b, n)
  {
    if Calm(c, b, n) {
      QueueKept(c, b, n, k, d);
      CalmStep(c, b, n, k, d);
      ExhaustFails(c, b.state(k), b.action(k), p, d);
      assert false;
    }
  }

  /** A poller ends a drain after any moment. */
  lemma DrainsAfter(c: Config, b: Infinite, n: nat, p: Pid, time: Time) returns (m: nat)
    requires Calm(c, b, n) && IsPoller(b.state(0), p)
    ensures m >= n && b.state(m).now >= time && IsPoller(b.state(m), p)
    ensures RankOfPoller(b.state(m).acts[p].pc) == 2 && Mover(b.action(m)) == Some(p)
  {
    var late := WaitUntil(c, b, n, time);
    PollerAt(c, b, p, late);
    CalmLater(c, b, n, late);
    var k := ListsAgain(c, b, late, p);
    AfterList(c, b, k, p);
    CalmLater(c, b, late, k + 1);
    m := Descends(c, b, k + 1, p, 2);
    TimeGoesOn(c, b, late, m);
  }

  lemma AfterList(c: Config, b: Infinite, k: nat, p: Pid)
    requires FairRun(c, b) && IsPoller(b.state(k), p) && b.action(k).ListStuck? && b.action(k).pid == p
    ensures IsPoller(b.state(k + 1), p) && RankOfPoller(b.state(k + 1).acts[p].pc) >= 2
  {
    assert StepAt(c, b, k);
  }

  // ---------- the end ----------

  lemma {:induction false} PastUploaded(c: Config, b: Infinite, n: nat, m: nat, d: DocId)
    requires FairRun(c, b) && n <= m && d in b.state(n).db && b.state(n).db[d].doc.status != Uploaded
    ensures d in b.state(m).db && b.state(m).db[d].doc.status != Uploaded
    decreases m - n
  {
    if n < m {
      assert StepAt(c, b, n);
      UploadedStable(c, b.state(n), b.action(n), d);
      PastUploaded(c, b, n + 1, m, d);
    }
  }

  /** Every document past uploaded is extracted or failed in the end. */
  lemma FairRunEnds(c: Config, b: Infinite, n: nat, d: DocId) returns (m: nat)
    requires FairRun(c, b) && d in b.state(n).db && b.state(n).db[d].doc.status != Uploaded
    ensures Ended(b.state(m), d)
  {
    var k := AllSettle(c, b);
    m := if k >= n then k else n;
    CalmLater(c, b, k, m);
    PastUploaded(c, b, n, m, d);
    if WaitsForJanitor(b.state(m), d) {
      NobodyWaits(c, b, m, d);
      assert false;
    } else if InQueue(b.state(m), d) {
      NobodyQueues(c, b, m, d);
      assert false;
    }
  }

  // ---------- exactly which documents ----------

  /** A pending ingest takes its first step. */
  lemma IngestMoves(c: Config, b: Infinite, d: DocId) returns (m: nat)
    requires FairRun(c, b) && IsUploaded(b.state(0).db, d) && IngestPending(b.state(0), d)
    ensures d in b.state(m).db && b.state(m).db[d].doc.status != Uploaded
  {
    var p :| p in b.state(0).acts && b.state(0).acts[p] == Upload(Flow(d, Starting));
    var i := NextMove(c, b, p, 0);
    KeysAt(c, b, 0, i);
    assert StepAt(c, b, i);
    FirstStepMoves(c, b.state(i), b.action(i), p, d);
    m := i + 1;
  }

  lemma FirstStepMoves(c: Config, s: State, a: Action, p: Pid, d: DocId)
    requires Enabled(c, s, a) && Quiet(c, s, a) && Mover(a) == Some(p) && d in s.db
    requires p in s.acts && s.acts[p] == Upload(Flow(d, Starting))
    ensures d in Next(c, s, a).db && Next(c, s, a).db[d].doc.status != Uploaded
  {}

  lemma {:induction false} LostAt(c: Config, b: Infinite, n: nat, d: DocId)
    requires Steps(c, b) && UploadsInv(b.state(0)) && Lost(b.state(0), d)
    ensures UploadsInv(b.state(n)) && Lost(b.state(n), d)
  {
    if n > 0 {
      LostAt(c, b, n - 1, d);
      LostAfter(c, b, n, d);
    }
  }

  lemma LostAfter(c: Config, b: Infinite, n: nat, d: DocId)
    requires Steps(c, b) && n > 0 && UploadsInv(b.state(n - 1)) && Lost(b.state(n - 1), d)
    ensures UploadsInv(b.state(n)) && Lost(b.state(n), d)
  {
    assert StepAt(c, b, n - 1);
    UploadsInvKept(c, b.state(n - 1), b.action(n - 1));
    LostKept(c, b.state(n - 1), b.action(n - 1), d);
  }

  /**
   In every fair run from any reachable state, a document is extracted or failed in the end exactly when
   it is past `uploaded` or its ingest goroutine has not started yet.
   */
  lemma FairRunEndsIff(c: Config, b: Infinite, d: DocId)
    requires FairRun(c, b) && d in b.state(0).db
    ensures (exists m: nat :: Ended(b.state(m), d)) <==>
      b.state(0).db[d].doc.status != Uploaded || IngestPending(b.state(0), d)
  {
    var s := b.state(0);
    ReachableInv(c, s);
    if s.db[d].doc.status != Uploaded {
      var m := FairRunEnds(c, b, 0, d);
    } else if IngestPending(s, d) {
      var k := IngestMoves(c, b, d);
      var m := FairRunEnds(c, b, k, d);
    } else if exists m: nat :: Ended(b.state(m), d) {
      var m: nat :| Ended(b.state(m), d);
      LostAt(c, b, m, d);
      assert false;
    }
  }
}
