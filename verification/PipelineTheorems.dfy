/** What the pipeline guarantees in every reachable state and over every run. */
module PipelineTheorems {
  import opened Wrappers
  import opened Seqs
  import opened Normalize
  import opened Schema
  import opened Tables
  import opened Pipeline
  import opened PipelineInvariant
  import Backoff

  /** A run of the whole system from the empty database. */
  predicate Run(c: Config, actions: seq<Action>) {
    ValidConfig(c) && Legal(c, Initial, actions)
  }

  function End(c: Config, actions: seq<Action>): State
    requires Run(c, actions)
  {
    Reach(c, Initial, actions)
  }

  lemma EndInv(c: Config, actions: seq<Action>)
    requires Run(c, actions)
    ensures Inv(c, End(c, actions))
  {
    InitialInv(c);
    RunInv(c, Initial, actions);
  }

  // ---------- page coverage ----------

  /**
   End-to-end page coverage: whatever the interleaving, a document past OCR has n >= 1 pages,
   page_count n, and rows exactly 1 to n in pages and in ocr_results, so the rows that
   `extract` reads are one section per page in ascending page order.
   */
  lemma PageCoverage(c: Config, actions: seq<Action>, d: DocId)
    requires Run(c, actions)
    requires d in End(c, actions).db && PostOCR(End(c, actions).db[d].doc.status)
    ensures var r := End(c, actions).db[d];
      && r.doc.pdfPages >= 1 && r.doc.pageCount == Some(r.doc.pdfPages)
      && (forall k :: k in r.pages <==> 1 <= k <= r.doc.pdfPages)
      && (forall k :: k in r.ocr <==> 1 <= k <= r.doc.pdfPages)
      && |OrderedValues(r.ocr)| == r.doc.pdfPages
      && (forall i :: 0 <= i < r.doc.pdfPages ==> OrderedValues(r.ocr)[i] == r.ocr[i + 1])
  {
    EndInv(c, actions);
    OrderedOCR(End(c, actions).db[d]);
  }

  /** No worker, however stale, takes the branch for a document without ocr_results rows. */
  lemma WorkersFindText(c: Config, actions: seq<Action>, pid: Pid)
    requires Run(c, actions)
    requires var s := End(c, actions);
      IsPoller(s, pid) && s.acts[pid].pc.Working? && s.acts[pid].pc.worker.Loading?
    ensures var s := End(c, actions); var pc := s.acts[pid].pc;
      pc.doc in s.db && NextWorker(Loading, pc.attempt, s.db[pc.doc], Read(true), s.now).next == Some(Asking)
  {
    EndInv(c, actions);
    var s := End(c, actions);
    assert ActInv(s.acts[pid], s.db);
    OrderedOCR(s.db[s.acts[pid].pc.doc]);
  }

  /**
   A stamped document has its full page list, so `Redispatch` never finds it empty: what it
   posts is, page for page, the job that `process` posts.
   */
  lemma RedispatchResendsTheJob(c: Config, actions: seq<Action>, pid: Pid)
    requires Run(c, actions)
    requires var s := End(c, actions);
      pid in s.acts && FlowOf(s.acts[pid]).Some? && FlowOf(s.acts[pid]).value.pc.LoadingPages?
    ensures var s := End(c, actions); var d := FlowOf(s.acts[pid]).value.doc;
      && d in s.db
      && NextFlow(LoadingPages, s.db[d], Read(true), s.now).next
           == Some(Posting(PageObjects(d, s.db[d].doc.pdfPages), 0, true))
      && s.db[d].doc.pdfPages >= 1
  {
    EndInv(c, actions);
    var s := End(c, actions);
    assert ActInv(s.acts[pid], s.db);
    OrderedPages(s.db[FlowOf(s.acts[pid]).value.doc]);
  }

  // ---------- extraction safety ----------

  lemma {:induction false} ImageSize<T(!new)>(s: set<T>, f: T -> nat, image: set<nat>)
    requires forall x, y :: x in s && y in s && f(x) == f(y) ==> x == y
    requires image == set x | x in s :: f(x)
    ensures |image| == |s|
  {
    if s != {} {
      var x :| x in s;
      var rest := set y | y in s - {x} :: f(y);
      ImageSize(s - {x}, f, rest);
      assert image == rest + {f(x)};
      assert f(x) !in rest;
    }
  }

  lemma RangeSize(s: set<nat>, n: nat)
    requires forall k :: k in s ==> 1 <= k <= n
    ensures |s| <= n
  {
    if n in s {
      RangeSize(s - {n}, n - 1);
    } else if n > 0 {
      RangeSize(s, n - 1);
    } else {
      assert s == {};
    }
  }

  function AttemptSet(rows: seq<Extraction>): set<nat> {
    set i | 0 <= i < |rows| :: rows[i].attempt
  }

  lemma {:induction false} DistinctCount(rows: seq<Extraction>)
    requires forall i, j :: 0 <= i < j < |rows| ==> rows[i].attempt != rows[j].attempt
    ensures |AttemptSet(rows)| == |rows|
  {
    if rows != [] {
      var n := |rows| - 1;
      DistinctCount(rows[..n]);
      assert forall i :: 0 <= i < n ==> rows[..n][i] == rows[i];
      assert AttemptSet(rows) == AttemptSet(rows[..n]) + {rows[n].attempt};
      assert rows[n].attempt !in AttemptSet(rows[..n]);
    }
  }

  lemma AttemptsCount(r: Record)
    requires ExtractionsSound(r)
    ensures |Attempts(r)| == |r.extractions|
  {
    DistinctCount(r.extractions);
    assert Attempts(r) == AttemptSet(r.extractions);
  }

  /** The live workers on d that have not saved under their token. */
  function LiveWorkers(s: State, d: DocId): set<Pid>
    requires d in s.db
  {
    set p | p in s.acts && s.acts[p].Poller? && s.acts[p].pc.Working? && s.acts[p].pc.doc == d
            && s.acts[p].pc.attempt !in Attempts(s.db[d])
  }

  function AttemptOf(s: State, p: Pid): nat {
    if p in s.acts && s.acts[p].Poller? && s.acts[p].pc.Working? then s.acts[p].pc.attempt else 0
  }

  function LiveTokens(s: State, d: DocId): set<nat>
    requires d in s.db
  {
    set p | p in LiveWorkers(s, d) :: AttemptOf(s, p)
  }

  lemma LiveTokensCount(s: State, d: DocId)
    requires d in s.db && TokensDistinct(s.acts)
    ensures |LiveTokens(s, d)| == |LiveWorkers(s, d)|
  {
    var live, f := LiveWorkers(s, d), (p: Pid) => AttemptOf(s, p);
    forall p, q | p in live && q in live && f(p) == f(q)
      ensures p == q
    {
      assert HoldsToken(s.acts[p], d, f(p)) && HoldsToken(s.acts[q], d, f(p));
    }
    ImageSize(live, f, LiveTokens(s, d));
  }

  lemma LiveTokensIssued(c: Config, s: State, d: DocId, k: nat)
    requires Inv(c, s) && d in s.db && k in LiveTokens(s, d)
    ensures 1 <= k <= s.db[d].doc.extractionAttempts && k !in Attempts(s.db[d])
  {
    var p :| p in LiveWorkers(s, d) && AttemptOf(s, p) == k;
    TokenIssued(c, s, p, d, k);
  }

  /**
   The committed extraction rows of a document and its live workers that have not saved, however
   stale, are together at most the attempts counted on the row, and those at most M.
   */
  lemma ExtractionsBounded(c: Config, s: State, d: DocId)
    requires Inv(c, s) && d in s.db
    ensures |s.db[d].extractions| + |LiveWorkers(s, d)| <= s.db[d].doc.extractionAttempts <= c.maxAttempts
  {
    var saved, tokens := Attempts(s.db[d]), LiveTokens(s, d);
    LiveTokensCount(s, d);
    AttemptsCount(s.db[d]);
    forall k | k in saved + tokens
      ensures 1 <= k <= s.db[d].doc.extractionAttempts && (k in tokens ==> k !in saved)
    {
      if k in tokens {
        LiveTokensIssued(c, s, d, k);
      } else {
        SavedToken(c.maxAttempts, s.db[d], k);
      }
    }
    RangeSize(saved + tokens, s.db[d].doc.extractionAttempts);
    assert saved !! tokens;
  }

  lemma SavedToken(M: nat, r: Record, k: nat)
    requires Sound(M, r) && k in Attempts(r)
    ensures 1 <= k <= r.doc.extractionAttempts
  {
    var i :| 0 <= i < |r.extractions| && r.extractions[i].attempt == k;
    assert RowSound(r.doc.extractionAttempts, r.extractions[i]);
  }

  /**
   Extraction safety in every reachable state, stale workers included: an extracted document has
   a stored aggregate; every stored aggregate is normalized and satisfies the schema; rows plus
   live workers never exceed the attempts, and attempts never exceed M.
   */
  lemma ExtractionSafety(c: Config, actions: seq<Action>, d: DocId)
    requires Run(c, actions) && d in End(c, actions).db
    ensures var s := End(c, actions); var r := s.db[d];
      && (r.doc.status == Extracted ==> Current(r).Some?)
      && (forall i :: 0 <= i < |r.extractions| ==>
            Normalized(r.extractions[i].content) == r.extractions[i].content && Storable(r.extractions[i].content))
      && |r.extractions| + |LiveWorkers(s, d)| <= r.doc.extractionAttempts <= c.maxAttempts
  {
    EndInv(c, actions);
    ExtractionsBounded(c, End(c, actions), d);
    var r := End(c, actions).db[d];
    forall i | 0 <= i < |r.extractions|
      ensures Normalized(r.extractions[i].content) == r.extractions[i].content && Storable(r.extractions[i].content)
    {
      assert RowSound(r.doc.extractionAttempts, r.extractions[i]);
    }
  }

  /** The token a claim step issues. */
  function TokenIssuedBy(c: Config, s: State, a: Action): nat
    requires a.Claim? && Enabled(c, s, a)
  {
    s.db[a.doc].doc.extractionAttempts + 1
  }

  lemma ClaimCounts(c: Config, s: State, a: Action)
    requires a.Claim? && a.o.applied && Enabled(c, s, a)
    ensures a.doc in Next(c, s, a).db
    ensures Next(c, s, a).db[a.doc].doc.extractionAttempts == TokenIssuedBy(c, s, a)
  {}

  lemma AttemptsNeverShrink(c: Config, s: State, actions: seq<Action>, d: DocId)
    requires ValidConfig(c) && Inv(c, s) && Legal(c, s, actions) && d in s.db
    ensures d in Reach(c, s, actions).db
    ensures s.db[d].doc.extractionAttempts <= Reach(c, s, actions).db[d].doc.extractionAttempts
  {
    RunInv(c, s, actions);
  }

  /** No claim token (document, attempt) is ever issued twice, even when a claim's reply is lost. */
  lemma TokensNeverReissued(c: Config, s: State, first: Action, between: seq<Action>, second: Action)
    requires ValidConfig(c) && Inv(c, s)
    requires first.Claim? && second.Claim? && first.doc == second.doc && first.o.applied
    requires Enabled(c, s, first) && Legal(c, Next(c, s, first), between)
    requires Enabled(c, Reach(c, Next(c, s, first), between), second)
    ensures TokenIssuedBy(c, s, first) < TokenIssuedBy(c, Reach(c, Next(c, s, first), between), second)
  {
    StepInv(c, s, first);
    ClaimCounts(c, s, first);
    AttemptsNeverShrink(c, Next(c, s, first), between, first.doc);
  }

  // ---------- every step is a statement ----------

  lemma FlowStatement(M: nat, pc: FlowPc, r: Record, ch: Choice, now: Time) returns (stmt: Option<Stmt>)
    requires FlowEnabled(pc, r, ch)
    ensures stmt.None? ==> NextFlow(pc, r, ch, now).rec == r
    ensures stmt.Some? ==> InCode(M, stmt.value) && NextFlow(pc, r, ch, now).rec == Execute(stmt.value, now, r)
  {
    stmt := None;
    if ch.Sql? && ch.o.applied {
      stmt := match pc
        case Starting => Some(UpdateStatus(Uploaded, Processing))
        case RecordingPages(objects) => Some(AddPages(objects))
        case RecordingCount(objects) => Some(SetPageCount(|objects|))
        case Stamping(_) => Some(SetOCRDispatched)
        case MarkingFailed(stage, message) => Some(MarkFailed(Processing, stage, message))
        case _ => None;
    }
  }

  lemma WorkerStatement(M: nat, w: WorkerPc, attempt: nat, r: Record, ch: Choice, now: Time) returns (stmt: Option<Stmt>)
    requires WorkerEnabled(w, r, ch)
    ensures stmt.None? ==> NextWorker(w, attempt, r, ch, now).rec == r
    ensures stmt.Some? ==> InCode(M, stmt.value) && NextWorker(w, attempt, r, ch, now).rec == Execute(stmt.value, now, r)
  {
    stmt := None;
    if ch.Sql? && ch.o.applied {
      stmt := match w
        case Saving(content) => Some(SaveAggregate(attempt, content))
        case Completing => Some(UpdateStatus(Extracting, Extracted))
        case Requeueing => Some(ReturnForRetry(Backoff.RetryBackoff(attempt)))
        case Abandoning(message) => Some(MarkFailed(Extracting, ExtractionStage, message))
        case _ => None;
    }
  }

  /** Each step changes a document by at most one of the statements in the code. */
  lemma StepStatement(c: Config, s: State, a: Action, d: DocId) returns (stmt: Option<Stmt>)
    requires Enabled(c, s, a) && d in s.db
    ensures d in Next(c, s, a).db
    ensures stmt.None? ==> Next(c, s, a).db[d] == s.db[d]
    ensures stmt.Some? ==> InCode(c.maxAttempts, stmt.value)
    ensures stmt.Some? ==> Next(c, s, a).db[d] == Execute(stmt.value, s.now, s.db[d])
  {
    stmt := None;
    match a {
      case Exhaust(_, applied) => stmt := if applied then Some(FailExhausted(c.maxAttempts)) else None;
      case StepFlow(pid, ch, _) =>
        var flow := FlowOf(s.acts[pid]).value;
        if flow.doc == d {
          stmt := FlowStatement(c.maxAttempts, flow.pc, s.db[d], ch, s.now);
        }
      case StepWorker(pid, ch) =>
        var pc := s.acts[pid].pc;
        if pc.doc == d {
          stmt := WorkerStatement(c.maxAttempts, pc.worker, pc.attempt, s.db[d], ch, s.now);
        }
      case StepJob(pid, step, text) =>
        var act := s.acts[pid];
        if act.doc == d && step.Upsert? && step.applied && step.page < |act.pages| {
          stmt := Some(UpsertPage(act.pages[step.page].number, text));
        }
      case EndJob(pid, applied) =>
        if s.acts[pid].doc == d && applied {
          stmt := JobVerdict(s.acts[pid].fan.launcher.result);
        }
      case Claim(_, doc, o) =>
        if doc == d && o.applied {
          stmt := Some(ClaimForExtraction(c.maxAttempts));
        }
      case NextEntry(pid, o) =>
        var todo := s.acts[pid].pc.todo;
        if todo != [] && todo[0].status != Processing && todo[0].doc == d && o.applied {
          stmt := Some(ReturnForRetry(0));
        }
      case _ =>
    }
  }

  // ---------- bounded runs ----------

  /** How often the status of d changes along the run. */
  function StatusMoves(c: Config, s: State, actions: seq<Action>, d: DocId): nat
    requires Legal(c, s, actions)
    decreases |actions|
  {
    if actions == [] then 0
    else
      var t := Next(c, s, actions[0]);
      (if d in s.db && d in t.db && t.db[d].doc.status != s.db[d].doc.status then 1 else 0)
      + StatusMoves(c, t, actions[1..], d)
  }

  lemma CreationPotential(c: Config, s: State, a: Action, d: DocId)
    requires Enabled(c, s, a) && d !in s.db && d in Next(c, s, a).db
    ensures Potential(c.maxAttempts, Next(c, s, a).db[d].doc) == 2 * c.maxAttempts + 3
  {}

  lemma {:induction false} MovesBounded(c: Config, s: State, actions: seq<Action>, d: DocId)
    requires Legal(c, s, actions)
    ensures StatusMoves(c, s, actions, d)
         <= if d in s.db then Potential(c.maxAttempts, s.db[d].doc) else 2 * c.maxAttempts + 3
    decreases |actions|
  {
    if actions != [] {
      var t := Next(c, s, actions[0]);
      MovesBounded(c, t, actions[1..], d);
      if d in s.db {
        var stmt := StepStatement(c, s, actions[0], d);
        if stmt.Some? {
          StatementLowersPotential(c.maxAttempts, stmt.value, s.now, s.db[d]);
        }
      } else if d in t.db {
        CreationPotential(c, s, actions[0], d);
      }
    }
  }

  /** In no run does the status of a document change more than 2M + 3 times. */
  lemma RunsAreBounded(c: Config, actions: seq<Action>, d: DocId)
    requires Run(c, actions)
    ensures StatusMoves(c, Initial, actions, d) <= 2 * c.maxAttempts + 3
  {
    MovesBounded(c, Initial, actions, d);
  }

  // ---------- backoff ----------

  /** No claim comes too early: the delay has passed, the row waits for it, or it can never be claimed again. */
  predicate Held(M: nat, s: State, d: DocId, until: Time) {
    d in s.db &&
    (s.now >= until
     || (s.db[d].doc.status == OCRDone && s.db[d].doc.nextExtractionAt == Some(until))
     || s.db[d].doc.status == Failed
     || s.db[d].doc.extractionAttempts >= M)
  }

  /** While the row waits, nothing alters next_extraction_at. */
  lemma WaitingKept(M: nat, stmt: Stmt, now: Time, r: Record, until: Time)
    requires InCode(M, stmt) && now < until
    requires r.doc.status == OCRDone && r.doc.nextExtractionAt == Some(until)
    ensures var d := Execute(stmt, now, r).doc;
      d.status == Failed || (d.status == OCRDone && d.nextExtractionAt == Some(until))
  {}

  lemma AttemptsGrow(stmt: Stmt, now: Time, r: Record)
    ensures Execute(stmt, now, r).doc.extractionAttempts >= r.doc.extractionAttempts
  {}

  lemma HeldKept(c: Config, s: State, a: Action, d: DocId, until: Time)
    requires Enabled(c, s, a) && Held(c.maxAttempts, s, d, until)
    ensures Held(c.maxAttempts, Next(c, s, a), d, until)
  {
    var stmt := StepStatement(c, s, a, d);
    if stmt.Some? {
      AttemptsGrow(stmt.value, s.now, s.db[d]);
      StatementLowersPotential(c.maxAttempts, stmt.value, s.now, s.db[d]);
      if s.now < until && s.db[d].doc.status == OCRDone && s.db[d].doc.nextExtractionAt == Some(until) {
        WaitingKept(c.maxAttempts, stmt.value, s.now, s.db[d], until);
      }
    }
  }

  lemma {:induction false} HeldThroughout(c: Config, s: State, actions: seq<Action>, d: DocId, until: Time)
    requires Legal(c, s, actions) && Held(c.maxAttempts, s, d, until)
    ensures Held(c.maxAttempts, Reach(c, s, actions), d, until)
    decreases |actions|
  {
    if actions != [] {
      HeldKept(c, s, actions[0], d, until);
      HeldThroughout(c, Next(c, s, actions[0]), actions[1..], d, until);
    }
  }

  /** A worker gives its document back after a transient failure, and the update takes effect. */
  predicate Requeues(c: Config, s: State, a: Action, d: DocId, attempt: nat) {
    && a.StepWorker? && Enabled(c, s, a)
    && s.acts[a.pid].pc.doc == d && s.acts[a.pid].pc.attempt == attempt && s.acts[a.pid].pc.worker.Requeueing?
    && a.choice.o.applied && s.db[d].doc.status == Extracting
  }

  /** With at most 30 attempts a transient requeue puts the ideal delay in force, or uses up the last attempt. */
  lemma RequeueHolds(c: Config, first: seq<Action>, requeue: Action, d: DocId, attempt: nat)
    requires Run(c, first) && c.maxAttempts <= 30 && Requeues(c, End(c, first), requeue, d, attempt)
    ensures Held(c.maxAttempts, Next(c, End(c, first), requeue), d, End(c, first).now + Backoff.IdealBackoff(attempt))
  {
    AttemptsWithin(c, first, requeue.pid, d, attempt);
    if attempt <= 29 {
      Backoff.BackoffIsIdealIff(attempt);
      RequeueDelays(c, End(c, first), requeue, d, attempt);
    } else {
      RequeueKeepsAttempts(c, End(c, first), requeue, d, attempt);
    }
  }

  /** A worker's attempt is one of those counted, and those are at most M. */
  lemma AttemptsWithin(c: Config, first: seq<Action>, pid: Pid, d: DocId, attempt: nat)
    requires Run(c, first) && pid in End(c, first).acts && HoldsToken(End(c, first).acts[pid], d, attempt)
    ensures d in End(c, first).db && attempt <= End(c, first).db[d].doc.extractionAttempts <= c.maxAttempts
  {
    EndInv(c, first);
    TokenIssued(c, End(c, first), pid, d, attempt);
    assert Sound(c.maxAttempts, End(c, first).db[d]);
  }

  lemma RequeueKeepsAttempts(c: Config, s: State, requeue: Action, d: DocId, attempt: nat)
    requires d in s.db && Requeues(c, s, requeue, d, attempt)
    ensures d in Next(c, s, requeue).db
    ensures Next(c, s, requeue).db[d].doc.extractionAttempts == s.db[d].doc.extractionAttempts
  {}

  lemma RequeueDelays(c: Config, s: State, requeue: Action, d: DocId, attempt: nat)
    requires d in s.db && Requeues(c, s, requeue, d, attempt)
    ensures Held(c.maxAttempts, Next(c, s, requeue), d, s.now + Backoff.RetryBackoff(attempt))
  {}

  /** After first, requeue takes effect on attempt k of d; after between, claim is possible. */
  predicate Reclaims(c: Config, first: seq<Action>, requeue: Action, between: seq<Action>, claim: Action,
                     d: DocId, attempt: nat) {
    && Run(c, first) && Requeues(c, End(c, first), requeue, d, attempt)
    && Legal(c, Next(c, End(c, first), requeue), between)
    && claim.Claim? && claim.doc == d && Enabled(c, Reach(c, Next(c, End(c, first), requeue), between), claim)
  }

  /** The time from the requeue to the claim. */
  function Pause(c: Config, first: seq<Action>, requeue: Action, between: seq<Action>, claim: Action,
                 d: DocId, attempt: nat): int
    requires Reclaims(c, first, requeue, between, claim, d, attempt)
  {
    Reach(c, Next(c, End(c, first), requeue), between).now - End(c, first).now
  }

  /**
   With at most 30 attempts, no claim of a document follows a transient requeue of its attempt k,
   by a current or a stale worker, sooner than 30s doubled k - 1 times and capped at ten minutes.
   */
  lemma BackoffRespected(c: Config, first: seq<Action>, requeue: Action, between: seq<Action>, claim: Action,
                         d: DocId, attempt: nat)
    requires Reclaims(c, first, requeue, between, claim, d, attempt) && c.maxAttempts <= 30
    ensures Pause(c, first, requeue, between, claim, d, attempt) >= Backoff.IdealBackoff(attempt)
  {
    RequeueHolds(c, first, requeue, d, attempt);
    HeldUntilClaim(c, Next(c, End(c, first), requeue), between, claim, d, End(c, first).now + Backoff.IdealBackoff(attempt));
  }

  lemma HeldUntilClaim(c: Config, s: State, between: seq<Action>, claim: Action, d: DocId, until: Time)
    requires Held(c.maxAttempts, s, d, until) && Legal(c, s, between)
    requires claim.Claim? && claim.doc == d && Enabled(c, Reach(c, s, between), claim)
    ensures Reach(c, s, between).now >= until
  {
    HeldThroughout(c, s, between, d, until);
    HeldIsPast(c, Reach(c, s, between), claim, d, until);
  }

  /** A claim is possible only when the time has come. */
  lemma HeldIsPast(c: Config, s: State, claim: Action, d: DocId, until: Time)
    requires Held(c.maxAttempts, s, d, until) && claim.Claim? && claim.doc == d && Enabled(c, s, claim)
    ensures s.now >= until
  {}

  // ---------- the limits of a job ----------

  predicate JobConfigured(c: Config, act: Activity) {
    act.Job? ==> act.fan.concurrency == c.concurrency && act.fan.needsImage == c.needsImage
  }

  predicate Configured(c: Config, acts: map<Pid, Activity>) {
    forall p :: p in acts ==> JobConfigured(c, acts[p])
  }

  lemma NewConfigured(c: Config, s: State, a: Action)
    requires Enabled(c, s, a) && !a.Tick? && !a.Exhaust?
    ensures var e := EffectOf(c, s, a); e.spawn.Some? ==> JobConfigured(c, e.spawn.value.1)
  {}

  lemma SameActivity(c: Config, s: State, a: Action)
    requires Enabled(c, s, a) && !a.Tick? && !a.Exhaust?
    ensures var e := EffectOf(c, s, a); e.act.Some? && e.act.value.Job? ==>
      && e.pid in s.acts && s.acts[e.pid].Job?
      && if a.StepJob? then e.act.value.fan == FanOut.Apply(s.acts[e.pid].fan, a.step) else e.act.value == s.acts[e.pid]
  {}

  lemma EffectConfigured(c: Config, s: State, a: Action)
    requires Enabled(c, s, a) && !a.Tick? && !a.Exhaust? && Configured(c, s.acts)
    ensures var e := EffectOf(c, s, a);
      && (e.act.Some? ==> JobConfigured(c, e.act.value))
      && (e.spawn.Some? ==> JobConfigured(c, e.spawn.value.1))
  {
    NewConfigured(c, s, a);
    SameActivity(c, s, a);
    if a.StepJob? {
      FanOut.SizeKept(s.acts[a.pid].fan, a.step);
    }
  }

  lemma StepConfigured(c: Config, s: State, a: Action)
    requires Enabled(c, s, a) && Configured(c, s.acts)
    ensures Configured(c, Next(c, s, a).acts)
  {
    if !a.Tick? && !a.Exhaust? {
      EffectConfigured(c, s, a);
    }
  }

  lemma {:induction false} RunConfigured(c: Config, s: State, actions: seq<Action>)
    requires Legal(c, s, actions) && Configured(c, s.acts)
    ensures Configured(c, Reach(c, s, actions).acts)
    decreases |actions|
  {
    if actions != [] {
      StepConfigured(c, s, actions[0]);
      RunConfigured(c, Next(c, s, actions[0]), actions[1..]);
    }
  }

  /** In every reachable state no job works on more pages at once than the worker is configured for. */
  lemma JobsBounded(c: Config, actions: seq<Action>, pid: Pid)
    requires Run(c, actions) && IsJob(End(c, actions), pid)
    ensures var fan := End(c, actions).acts[pid].fan;
      |FanOut.Live(fan.tasks)| <= c.concurrency && fan.needsImage == c.needsImage
  {
    EndInv(c, actions);
    RunConfigured(c, Initial, actions);
    assert ActInv(End(c, actions).acts[pid], End(c, actions).db);
    assert JobConfigured(c, End(c, actions).acts[pid]);
  }
}
