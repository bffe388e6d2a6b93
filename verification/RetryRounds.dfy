/**
 Runs in which every extraction of a document fails transiently: M claims and M requeues. They show
 that the bound on status changes is attained by the whole system, and that the promised back-off is
 broken as soon as a 31st attempt is allowed.
 */
module RetryRounds {
  import opened Wrappers
  import opened Tables
  import opened Pipeline
  import opened PipelineInvariant
  import opened PipelineTheorems
  import opened Recovery
  import opened TwoPollers
  import Backoff

  // ---------- composing runs ----------

  predicate Goes(c: Config, s: State, actions: seq<Action>, t: State) {
    Legal(c, s, actions) && Reach(c, s, actions) == t
  }

  lemma GoesConcat(c: Config, s: State, a: seq<Action>, t: State, b: seq<Action>, u: State)
    requires Goes(c, s, a, t) && Goes(c, t, b, u)
    ensures Goes(c, s, a + b, u)
  {
    ReachSplit(c, s, a, b);
  }

  lemma GoesOne(c: Config, s: State, a: Action)
    requires Enabled(c, s, a)
    ensures Goes(c, s, [a], Next(c, s, a))
  {
    var t := Next(c, s, a);
    assert [a][1..] == [] && Legal(c, t, []) && Reach(c, t, []) == t;
  }

  // ---------- one round ----------

  /** The only document waits in the queue after some attempts; pid drains. */
  predicate Queued(s: State, d: DocId, pid: Pid, attempts: nat) {
    && Only(s, d) && DrainsAt(s, pid) && s.db[d].doc.status == OCRDone
    && s.db[d].doc.extractionAttempts == attempts
  }

  /** The worker of attempt a is about to give the document back. */
  predicate GivingBack(s: State, d: DocId, pid: Pid, a: nat) {
    && Only(s, d) && pid in s.acts && s.acts[pid] == Poller(Working(d, a, Requeueing))
    && s.db[d].doc.status == Extracting && s.db[d].doc.extractionAttempts == a
  }

  /** Wait out the delay. */
  lemma TickOn(c: Config, s: State, d: DocId, pid: Pid, attempts: nat) returns (run: seq<Action>, t: State)
    requires Queued(s, d, pid, attempts) && attempts < c.maxAttempts
    ensures Goes(c, s, run, t) && Queued(t, d, pid, attempts) && Claimable(t.db[d].doc, c.maxAttempts, t.now)
    ensures t.db == s.db
  {
    var until := NextClaim(s.db[d].doc);
    var time: nat := if until > s.now then until - s.now else 0;
    GoesOne(c, s, Tick(time));
    run, t := [Tick(time)], s.(now := s.now + time);
  }

  /** Claim, and fail to read the text. */
  lemma ClaimAndFail(c: Config, s: State, d: DocId, pid: Pid, attempts: nat) returns (run: seq<Action>, t: State)
    requires Queued(s, d, pid, attempts) && Claimable(s.db[d].doc, c.maxAttempts, s.now)
    ensures Goes(c, s, run, t) && GivingBack(t, d, pid, attempts + 1) && t.now == s.now
  {
    var claim := Claim(pid, d, Fine);
    GoesOne(c, s, claim);
    var u := Next(c, s, claim);
    var fail := StepWorker(pid, Read(false));
    GoesOne(c, u, fail);
    t := Next(c, u, fail);
    GoesConcat(c, s, [claim], u, [fail], t);
    run := [claim] + [fail];
  }

  function GiveBack(pid: Pid): Action {
    StepWorker(pid, Sql(Fine))
  }

  lemma GivesBack(c: Config, s: State, d: DocId, pid: Pid, a: nat)
    requires GivingBack(s, d, pid, a)
    ensures Enabled(c, s, GiveBack(pid)) && Requeues(c, s, GiveBack(pid), d, a)
    ensures var t := Next(c, s, GiveBack(pid));
      && Queued(t, d, pid, a) && t.now == s.now
      && t.db[d].doc.nextExtractionAt == Some(s.now + Backoff.RetryBackoff(a))
  {}

  /** From the queue to the worker that gives up on the next attempt. */
  lemma Failing(c: Config, s: State, d: DocId, pid: Pid, attempts: nat) returns (run: seq<Action>, t: State)
    requires Queued(s, d, pid, attempts) && attempts < c.maxAttempts
    ensures Goes(c, s, run, t) && GivingBack(t, d, pid, attempts + 1)
  {
    var a, u := TickOn(c, s, d, pid, attempts);
    var b;
    b, t := ClaimAndFail(c, u, d, pid, attempts);
    GoesConcat(c, s, a, u, b, t);
    run := a + b;
  }

  // ---------- counting status changes ----------

  lemma {:induction false} MovesSplit(c: Config, s: State, a: seq<Action>, b: seq<Action>, d: DocId)
    requires Legal(c, s, a) && Legal(c, Reach(c, s, a), b)
    ensures Legal(c, s, a + b)
    ensures StatusMoves(c, s, a + b, d) == StatusMoves(c, s, a, d) + StatusMoves(c, Reach(c, s, a), b, d)
    decreases |a|
  {
    ReachSplit(c, s, a, b);
    if a == [] {
      assert a + b == b;
    } else {
      assert (a + b)[0] == a[0] && (a + b)[1..] == a[1..] + b;
      MovesSplit(c, Next(c, s, a[0]), a[1..], b, d);
    }
  }

  /** A stretch between two different statuses changes the status at least once. */
  lemma {:induction false} MovesAtLeastOne(c: Config, s: State, a: seq<Action>, t: State, d: DocId)
    requires Goes(c, s, a, t) && d in s.db && d in t.db && s.db[d].doc.status != t.db[d].doc.status
    ensures StatusMoves(c, s, a, d) >= 1
    decreases |a|
  {
    var u := Next(c, s, a[0]);
    var stmt := StepStatement(c, s, a[0], d);
    if u.db[d].doc.status == s.db[d].doc.status {
      MovesAtLeastOne(c, u, a[1..], t, d);
    }
  }

  /** The run has made at least n status changes of d. */
  predicate Moved(c: Config, s: State, run: seq<Action>, t: State, d: DocId, n: nat) {
    Goes(c, s, run, t) && StatusMoves(c, s, run, d) >= n
  }

  lemma MovedThen(c: Config, s: State, a: seq<Action>, t: State, b: seq<Action>, u: State, d: DocId, n: nat)
    requires Moved(c, s, a, t, d, n) && Goes(c, t, b, u)
    requires d in t.db && d in u.db && t.db[d].doc.status != u.db[d].doc.status
    ensures Moved(c, s, a + b, u, d, n + 1)
  {
    GoesConcat(c, s, a, t, b, u);
    MovesSplit(c, s, a, b, d);
    MovesAtLeastOne(c, t, b, u, d);
  }

  lemma OneRound(c: Config, s: State, run: seq<Action>, t: State, d: DocId, pid: Pid, k: nat, n: nat)
    returns (more: seq<Action>, u: State)
    requires Moved(c, s, run, t, d, n) && Queued(t, d, pid, k) && k < c.maxAttempts
    ensures Moved(c, s, more, u, d, n + 2) && Queued(u, d, pid, k + 1)
  {
    var a, v := Failing(c, t, d, pid, k);
    MovedThen(c, s, run, t, a, v, d, n);
    GivesBack(c, v, d, pid, k + 1);
    GoesOne(c, v, GiveBack(pid));
    u := Next(c, v, GiveBack(pid));
    MovedThen(c, s, run + a, v, [GiveBack(pid)], u, d, n + 1);
    more := run + a + [GiveBack(pid)];
  }

  lemma {:induction false} Rounds(c: Config, s: State, run: seq<Action>, t: State, d: DocId, pid: Pid, k: nat, n: nat)
    returns (more: seq<Action>, u: State)
    requires Moved(c, s, run, t, d, n) && Queued(t, d, pid, 0) && k <= c.maxAttempts
    ensures Moved(c, s, more, u, d, n + 2 * k) && Queued(u, d, pid, k)
    decreases k
  {
    if k == 0 {
      more, u := run, t;
    } else {
      var a, v := Rounds(c, s, run, t, d, pid, k - 1, n);
      more, u := OneRound(c, s, a, v, d, pid, k - 1, n + 2 * (k - 1));
    }
  }

  // ---------- from the upload to the queue ----------

  lemma ToProcessing(c: Config, d: DocId) returns (run: seq<Action>, t: State)
    requires ValidConfig(c)
    ensures Moved(c, AfterCreate(d), run, t, d, 1) && Recognizing(c, t, d) && Inv(c, t)
  {
    var s := AfterCreate(d);
    var a, u := IngestFirst(c, d);
    var b, v := IngestSecond(c, u, d);
    LeadsConcat(c, s, a, u, b, v);
    var e;
    e, t := Dispatched(c, v, d);
    LeadsConcat(c, s, a + b, v, e, t);
    run := a + b + e;
    AfterCreateInv(c, d);
    LeadsInv(c, s, run, t);
    LeadsIsRun(c, s, run, t);
    MovesAtLeastOne(c, s, run, t, d);
  }

  lemma ToQueue(c: Config, d: DocId) returns (pid: Pid, run: seq<Action>, t: State)
    requires ValidConfig(c)
    ensures Moved(c, AfterCreate(d), run, t, d, 2) && Queued(t, d, pid, 0)
  {
    var s := AfterCreate(d);
    var a, u := ToProcessing(c, d);
    var b, v := Recognized(c, u, d);
    LeadsIsRun(c, u, b, v);
    var e;
    pid, e, t := StartMove(c, v);
    LeadsIsRun(c, v, e, t);
    GoesConcat(c, u, b, v, e, t);
    MovedThen(c, s, a, u, b + e, t, d, 1);
    run := a + (b + e);
  }

  // ---------- the bound on status changes is attained ----------

  lemma FailAtLast(c: Config, s: State, run: seq<Action>, t: State, d: DocId, pid: Pid, n: nat)
    returns (more: seq<Action>, u: State)
    requires Moved(c, s, run, t, d, n) && Queued(t, d, pid, c.maxAttempts)
    ensures Moved(c, s, more, u, d, n + 1)
  {
    GoesOne(c, t, ClaimNothing(pid));
    var v := Next(c, t, ClaimNothing(pid));
    GoesOne(c, v, Exhaust(pid, true));
    u := Next(c, v, Exhaust(pid, true));
    GoesConcat(c, t, [ClaimNothing(pid)], v, [Exhaust(pid, true)], u);
    MovedThen(c, s, run, t, [ClaimNothing(pid)] + [Exhaust(pid, true)], u, d, n);
    more := run + ([ClaimNothing(pid)] + [Exhaust(pid, true)]);
  }

  /** For every M there is a run of the whole system in which a document changes status exactly 2M + 3 times. */
  lemma BoundAttained(c: Config, d: DocId) returns (actions: seq<Action>)
    requires ValidConfig(c)
    ensures Run(c, actions) && StatusMoves(c, Initial, actions, d) == 2 * c.maxAttempts + 3
  {
    var pid, a, u := ToQueue(c, d);
    var b, v := Rounds(c, AfterCreate(d), a, u, d, pid, c.maxAttempts, 2);
    var e, w := FailAtLast(c, AfterCreate(d), b, v, d, pid, 2 + 2 * c.maxAttempts);
    CreateRuns(c, d);
    MovesSplit(c, Initial, [CreateDocument(d, 1, 0, true)], e, d);
    actions := [CreateDocument(d, 1, 0, true)] + e;
    RunsAreBounded(c, actions, d);
  }

  // ---------- exactly when the back-off is kept ----------

  /** Some claim comes sooner after a transient requeue than promised. */
  predicate TooSoon(c: Config, first: seq<Action>, requeue: Action, between: seq<Action>, claim: Action,
                    d: DocId, attempt: nat) {
    && Reclaims(c, first, requeue, between, claim, d, attempt)
    && Pause(c, first, requeue, between, claim, d, attempt) < Backoff.IdealBackoff(attempt)
  }

  /** With a 31st attempt allowed, attempt 30 is requeued with a negative delay and claimed at once. */
  lemma ThirtyFirstTooSoon(c: Config, d: DocId) returns (first: seq<Action>, requeue: Action, claim: Action)
    requires ValidConfig(c) && c.maxAttempts >= 31
    ensures TooSoon(c, first, requeue, [], claim, d, 30)
  {
    var pid, a, u := ToQueue(c, d);
    var b, v := Rounds(c, AfterCreate(d), a, u, d, pid, 29, 2);
    var e, w := Failing(c, v, d, pid, 29);
    CreateRuns(c, d);
    GoesConcat(c, AfterCreate(d), b, v, e, w);
    ReachSplit(c, Initial, [CreateDocument(d, 1, 0, true)], b + e);
    first, requeue, claim := [CreateDocument(d, 1, 0, true)] + (b + e), GiveBack(pid), Claim(pid, d, Fine);
    GivesBack(c, w, d, pid, 30);
    ClaimableAtOnce(c, w, d, pid);
  }

  lemma ClaimableAtOnce(c: Config, s: State, d: DocId, pid: Pid)
    requires GivingBack(s, d, pid, 30) && c.maxAttempts >= 31
    ensures Enabled(c, s, GiveBack(pid))
    ensures var t := Next(c, s, GiveBack(pid));
      Enabled(c, t, Claim(pid, d, Fine)) && Legal(c, t, []) && Reach(c, t, []) == t && t.now == s.now
    ensures Backoff.IdealBackoff(30) > 0
  {
    GivesBack(c, s, d, pid, 30);
    Backoff.ThirtiethDelayIsNegative();
    Backoff.BackoffGrows(1, 1);
  }

  /** The back-off is kept in every run exactly when at most 30 attempts are allowed. */
  lemma BackoffRespectedIff(c: Config)
    requires ValidConfig(c)
    ensures (forall first, requeue, between, claim, d, attempt ::
               !TooSoon(c, first, requeue, between, claim, d, attempt)) <==> c.maxAttempts <= 30
  {
    if c.maxAttempts <= 30 {
      forall first, requeue, between, claim, d, attempt
        ensures !TooSoon(c, first, requeue, between, claim, d, attempt)
      {
        if TooSoon(c, first, requeue, between, claim, d, attempt) {
          BackoffRespected(c, first, requeue, between, claim, d, attempt);
          assert false;
        }
      }
    } else {
      var first, requeue, claim := ThirtyFirstTooSoon(c, 0);
    }
  }
}
