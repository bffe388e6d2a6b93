/**
 `recognizeAll`: bounded fan-out over the pages of one OCR job, as interleaved steps of the
 launching loop and the page goroutines. `sem` is a counter of tokens, the context is the
 pair of flags cancelled (by the first error) and expired (the job deadline).
 */
module FanOut {
  import opened Wrappers

  /** What a page error means to the caller; Expired is `ctx.Err()` with no page error. */
  datatype Failure = StoreFailure | PageFailure | Expired

  datatype TaskPc = Downloading | Recognizing | Upserting | Reporting(cause: Failure) | Releasing | Finishing

  /** Selecting: at the select. Checking: past it. */
  datatype LauncherPc = Selecting | Checking | Waiting | Returned(result: Option<Failure>)

  datatype State = State(
    total: nat,
    concurrency: nat,
    needsImage: bool,
    next: nat,                 // pages before this index have a goroutine or had one
    launcher: LauncherPc,
    tokens: nat,               // len(sem)
    held: bool,                // the launcher holds a token it has not handed to a goroutine
    tasks: map<nat, TaskPc>,   // goroutines that have not called wg.Done
    cancelled: bool,
    expired: bool,
    firstErr: Option<Failure>,
    upserted: set<nat>)        // pages whose row is in ocr_results

  function Initial(total: nat, concurrency: nat, needsImage: bool): State {
    State(total, concurrency, needsImage, 0, Selecting, 0, false, map[], false, false, None, {})
  }

  datatype Action =
    | Acquire                  // the select takes the semaphore
    | SeeDone                  // the select takes ctx.Done()
    | Check                    // ctx.Err(): break, or start the goroutine
    | EndLoop
    | Join                     // wg.Wait() returns
    | Download(page: nat, ok: bool)
    | Recognize(page: nat, ok: bool)
    | Upsert(page: nat, applied: bool, acked: bool)
    | Report(page: nat)
    | Release(page: nat)       // <-sem
    | Finish(page: nat)        // wg.Done()
    | Expire

  predicate Done(s: State) {
    s.cancelled || s.expired
  }

  predicate At(s: State, page: nat, pc: TaskPc) {
    page in s.tasks && s.tasks[page] == pc
  }

  predicate Enabled(s: State, a: Action) {
    match a
    case Acquire => s.launcher.Selecting? && s.next < s.total && s.tokens < s.concurrency
    case SeeDone => s.launcher.Selecting? && s.next < s.total && Done(s)
    case Check => s.launcher.Checking?
    case EndLoop => s.launcher.Selecting? && s.next >= s.total
    case Join => s.launcher.Waiting? && s.tasks == map[]
    case Download(p, _) => At(s, p, Downloading)
    case Recognize(p, _) => At(s, p, Recognizing)
    case Upsert(p, applied, acked) => At(s, p, Upserting) && (acked ==> applied)
    case Report(p) => p in s.tasks && s.tasks[p].Reporting?
    case Release(p) => At(s, p, Releasing) && s.tokens > 0
    case Finish(p) => At(s, p, Finishing)
    case Expire => !s.expired && !s.launcher.Returned?
  }

  function Move(s: State, page: nat, pc: TaskPc): State {
    s.(tasks := s.tasks[page := pc])
  }

  function Result(s: State): Option<Failure> {
    if s.firstErr.None? && Done(s) then Some(Expired) else s.firstErr
  }

  function Apply(s: State, a: Action): State
    requires Enabled(s, a)
  {
    match a
    case Acquire => s.(launcher := Checking, tokens := s.tokens + 1, held := true)
    case SeeDone => s.(launcher := Checking)
    case Check =>
      if Done(s) then s.(launcher := Waiting)
      else s.(launcher := Selecting, next := s.next + 1, held := false,
              tasks := s.tasks[s.next := if s.needsImage then Downloading else Recognizing])
    case EndLoop => s.(launcher := Waiting)
    case Join => s.(launcher := Returned(Result(s)))
    case Download(p, ok) => Move(s, p, if ok then Recognizing else Reporting(PageFailure))
    case Recognize(p, ok) => Move(s, p, if ok then Upserting else Reporting(PageFailure))
    case Upsert(p, applied, acked) =>
      Move(s, p, if acked then Releasing else Reporting(StoreFailure))
      .(upserted := if applied then s.upserted + {p} else s.upserted)
    case Report(p) =>
      if s.firstErr.None?
      then Move(s, p, Releasing).(firstErr := Some(s.tasks[p].cause), cancelled := true)
      else Move(s, p, Releasing)
    case Release(p) => Move(s, p, Finishing).(tokens := s.tokens - 1)
    case Finish(p) => s.(tasks := map q | q in s.tasks && q != p :: s.tasks[q])
    case Expire => s.(expired := true)
  }

  // ---------- the invariant ----------

  /** Goroutines that hold a semaphore token: every one that is still working on its page. */
  function Live(tasks: map<nat, TaskPc>): set<nat> {
    set p | p in tasks && tasks[p] != Finishing
  }

  /** A page whose goroutine is past its work was written, or an error was recorded. */
  predicate Settled(s: State, page: nat) {
    page in s.upserted || s.firstErr.Some?
  }

  predicate Started(pc: TaskPc) {
    pc.Downloading? || pc.Recognizing? || pc.Upserting? || pc.Reporting?
  }

  predicate TasksInv(s: State) {
    && (forall p :: p in s.tasks ==> p < s.next)
    && (forall p :: p in s.upserted ==> p < s.next)
    && (forall p :: 0 <= p < s.next ==> Settled(s, p) || (p in s.tasks && Started(s.tasks[p])))
  }

  predicate TokensInv(s: State) {
    && s.tokens == |Live(s.tasks)| + (if s.held then 1 else 0)
    && s.tokens <= s.concurrency
  }

  predicate LauncherInv(s: State) {
    && s.concurrency >= 1
    && s.next <= s.total
    && (s.cancelled <==> s.firstErr.Some?)
    && (s.launcher.Checking? ==> s.next < s.total)
    && (s.launcher.Checking? && !s.held ==> Done(s))
    && (s.launcher.Selecting? ==> !s.held)
    && (s.launcher.Waiting? ==> s.next == s.total || Done(s))
    && (s.launcher.Returned? ==> s.tasks == map[])
    && (s.launcher == Returned(None) ==> s.next == s.total && s.firstErr.None?)
  }

  predicate Inv(s: State) {
    TasksInv(s) && TokensInv(s) && LauncherInv(s)
  }

  lemma InitialInv(total: nat, concurrency: nat, needsImage: bool)
    requires concurrency >= 1
    ensures Inv(Initial(total, concurrency, needsImage))
  {
    assert Live(map[]) == {};
  }

  lemma LiveMove(tasks: map<nat, TaskPc>, p: nat, pc: TaskPc)
    ensures p in tasks && tasks[p] != Finishing && pc != Finishing ==> Live(tasks[p := pc]) == Live(tasks)
    ensures p in tasks && tasks[p] != Finishing && pc == Finishing ==>
      Live(tasks[p := pc]) == Live(tasks) - {p} && p in Live(tasks)
    ensures p !in tasks && pc != Finishing ==>
      Live(tasks[p := pc]) == Live(tasks) + {p} && p !in Live(tasks)
  {}

  lemma LiveRemove(tasks: map<nat, TaskPc>, p: nat)
    requires p in tasks && tasks[p] == Finishing
    ensures Live(map q | q in tasks && q != p :: tasks[q]) == Live(tasks)
  {}

  lemma TokensKept(s: State, a: Action)
    requires Inv(s) && Enabled(s, a)
    ensures TokensInv(Apply(s, a))
  {
    match a {
      case Check =>
        if !Done(s) {
          LiveMove(s.tasks, s.next, if s.needsImage then Downloading else Recognizing);
        }
      case Download(p, ok) => LiveMove(s.tasks, p, Apply(s, a).tasks[p]);
      case Recognize(p, ok) => LiveMove(s.tasks, p, Apply(s, a).tasks[p]);
      case Upsert(p, applied, acked) => LiveMove(s.tasks, p, Apply(s, a).tasks[p]);
      case Report(p) => LiveMove(s.tasks, p, Releasing);
      case Release(p) => LiveMove(s.tasks, p, Finishing);
      case Finish(p) => LiveRemove(s.tasks, p);
      case _ =>
    }
  }

  /** Every step of every goroutine keeps the invariant. */
  lemma InvKept(s: State, a: Action)
    requires Inv(s) && Enabled(s, a)
    ensures Inv(Apply(s, a))
  {
    TokensKept(s, a);
    TasksKept(s, a);
  }

  lemma TasksKept(s: State, a: Action)
    requires Inv(s) && Enabled(s, a)
    ensures TasksInv(Apply(s, a)) && LauncherInv(Apply(s, a))
  {
    var t := Apply(s, a);
    forall p | 0 <= p < t.next
      ensures Settled(t, p) || (p in t.tasks && Started(t.tasks[p]))
    {
      if p < s.next {
        assert Settled(s, p) || (p in s.tasks && Started(s.tasks[p]));
      }
    }
  }

  // ---------- what the caller gets ----------

  /** A run of steps from one state to another, in any interleaving. */
  predicate Run(s: State, actions: seq<Action>, t: State)
    decreases |actions|
  {
    if actions == [] then s == t
    else Enabled(s, actions[0]) && Run(Apply(s, actions[0]), actions[1..], t)
  }

  lemma SizeKept(s: State, a: Action)
    requires Enabled(s, a)
    ensures var t := Apply(s, a); t.total == s.total && t.concurrency == s.concurrency && t.needsImage == s.needsImage
  {}

  lemma {:induction false} RunKeepsInv(s: State, actions: seq<Action>, t: State)
    requires Inv(s) && Run(s, actions, t)
    ensures Inv(t) && t.total == s.total && t.concurrency == s.concurrency
    decreases |actions|
  {
    if actions != [] {
      InvKept(s, actions[0]);
      SizeKept(s, actions[0]);
      RunKeepsInv(Apply(s, actions[0]), actions[1..], t);
    }
  }

  /**
   In every reachable state at most `concurrency` pages are being worked on, the semaphore
   holds one token for each of them and at most one more for the launcher, nothing outlives
   the return, and a nil result means that every page of the request was written.
   */
  lemma FanOutCorrect(total: nat, concurrency: nat, needsImage: bool, actions: seq<Action>, t: State)
    requires concurrency >= 1 && Run(Initial(total, concurrency, needsImage), actions, t)
    ensures |Live(t.tasks)| <= concurrency
    ensures |Live(t.tasks)| <= t.tokens <= |Live(t.tasks)| + 1
    ensures t.launcher.Returned? ==> t.tasks == map[]
    ensures t.launcher == Returned(None) ==> forall p :: p in t.upserted <==> 0 <= p < total
  {
    InitialInv(total, concurrency, needsImage);
    RunKeepsInv(Initial(total, concurrency, needsImage), actions, t);
    if t.launcher == Returned(None) {
      NilMeansAll(t);
    }
  }

  lemma NilMeansAll(s: State)
    requires Inv(s) && s.launcher == Returned(None)
    ensures forall p :: p in s.upserted <==> 0 <= p < s.total
  {
    forall p | 0 <= p < s.total
      ensures p in s.upserted
    {
      assert p !in s.tasks;
      assert Settled(s, p);
    }
  }

  // ---------- what the result says ----------

  /** The image or the text of page p could not be had. */
  predicate PageBroke(past: seq<Action>, p: nat) {
    exists j :: 0 <= j < |past| && (past[j] == Download(p, false) || past[j] == Recognize(p, false))
  }

  /** The text of page p was not acknowledged by the store. */
  predicate StoreBroke(past: seq<Action>, p: nat) {
    exists j :: 0 <= j < |past| && past[j].Upsert? && past[j].page == p && !past[j].acked
  }

  /** The i-th step is the first report of an error, and it is about page p. */
  predicate FirstReport(past: seq<Action>, i: nat, p: nat) {
    i < |past| && past[i] == Report(p) && forall j :: 0 <= j < i ==> !past[j].Report?
  }

  predicate Reported(past: seq<Action>) {
    exists i :: 0 <= i < |past| && past[i].Report?
  }

  predicate Broke(past: seq<Action>, p: nat, f: Failure) {
    match f
    case PageFailure => PageBroke(past, p) && !StoreBroke(past, p)
    case StoreFailure => StoreBroke(past, p) && !PageBroke(past, p)
    case Expired => false
  }

  /** What the goroutine of page p is about to report is what went wrong with it. */
  predicate PageTold(past: seq<Action>, s: State, p: nat) {
    && !(PageBroke(past, p) && StoreBroke(past, p))
    && (p in s.tasks && s.tasks[p].Reporting? ==> Broke(past, p, s.tasks[p].cause))
    && ((p in s.tasks && (s.tasks[p].Downloading? || s.tasks[p].Recognizing? || s.tasks[p].Upserting?)) || p >= s.next ==>
        !PageBroke(past, p) && !StoreBroke(past, p))
  }

  /** The recorded error is the one that was reported first. */
  ghost predicate FirstTold(past: seq<Action>, s: State) {
    && (s.firstErr.Some? <==> Reported(past))
    && (s.firstErr.Some? ==> exists i: nat, p: nat :: FirstReport(past, i, p) && Broke(past[..i], p, s.firstErr.value))
    && (s.expired <==> Expire in past)
  }

  ghost predicate Told(past: seq<Action>, s: State) {
    FirstTold(past, s) && (forall p: nat :: PageTold(past, s, p))
      && (s.launcher.Returned? ==> s.launcher.result == Result(s))
  }

  lemma BrokeMore(past: seq<Action>, a: Action, p: nat)
    ensures PageBroke(past + [a], p) <==> PageBroke(past, p) || a == Download(p, false) || a == Recognize(p, false)
    ensures StoreBroke(past + [a], p) <==> StoreBroke(past, p) || (a.Upsert? && a.page == p && !a.acked)
    ensures Reported(past + [a]) <==> Reported(past) || a.Report?
    ensures Expire in past + [a] <==> Expire in past || a == Expire
  {
    var more := past + [a];
    assert more[|past|] == a && forall j :: 0 <= j < |past| ==> more[j] == past[j];
  }

  lemma PageToldMore(past: seq<Action>, s: State, a: Action, p: nat)
    requires Inv(s) && Enabled(s, a) && PageTold(past, s, p)
    ensures PageTold(past + [a], Apply(s, a), p)
  {
    BrokeMore(past, a, p);
  }

  lemma FirstToldMore(past: seq<Action>, s: State, a: Action)
    requires Enabled(s, a) && FirstTold(past, s) && (a.Report? ==> PageTold(past, s, a.page))
    ensures FirstTold(past + [a], Apply(s, a))
  {
    var more := past + [a];
    BrokeMore(past, a, 0);
    if s.firstErr.Some? {
      var i: nat, p: nat :| FirstReport(past, i, p) && Broke(past[..i], p, s.firstErr.value);
      assert more[..i] == past[..i] && FirstReport(more, i, p);
    } else if a.Report? {
      assert more[..|past|] == past && FirstReport(more, |past|, a.page);
    }
  }

  lemma ToldMore(past: seq<Action>, s: State, a: Action)
    requires Inv(s) && Told(past, s) && Enabled(s, a)
    ensures Told(past + [a], Apply(s, a))
  {
    FirstToldMore(past, s, a);
    forall p: nat
      ensures PageTold(past + [a], Apply(s, a), p)
    {
      PageToldMore(past, s, a, p);
    }
  }

  lemma {:induction false} RunTold(past: seq<Action>, s: State, actions: seq<Action>, t: State)
    requires Inv(s) && Told(past, s) && Run(s, actions, t)
    ensures Inv(t) && Told(past + actions, t)
    decreases |actions|
  {
    if actions == [] {
      assert past + actions == past;
    } else {
      var a := actions[0];
      InvKept(s, a);
      ToldMore(past, s, a);
      RunTold(past + [a], Apply(s, a), actions[1..], t);
      assert past + actions == past + [a] + actions[1..];
    }
  }

  lemma {:induction false} RunMore(s: State, actions: seq<Action>, t: State, a: Action)
    requires Run(s, actions, t) && Enabled(t, a)
    ensures Run(s, actions + [a], Apply(t, a))
    decreases |actions|
  {
    if actions != [] {
      RunMore(Apply(s, actions[0]), actions[1..], t, a);
      assert (actions + [a])[1..] == actions[1..] + [a];
    }
  }

  /** Which page is reported first is not in doubt. */
  lemma OneFirstReport(past: seq<Action>, i: nat, p: nat, j: nat, q: nat)
    requires FirstReport(past, i, p) && FirstReport(past, j, q)
    ensures i == j && p == q
  {}

  lemma FirstErrTells(past: seq<Action>, s: State)
    requires FirstTold(past, s)
    ensures s.firstErr == Some(StoreFailure) <==>
      exists i: nat, p: nat :: FirstReport(past, i, p) && StoreBroke(past[..i], p)
    ensures s.firstErr == Some(PageFailure) <==>
      exists i: nat, p: nat :: FirstReport(past, i, p) && PageBroke(past[..i], p)
    ensures s.firstErr != Some(Expired)
  {
    if s.firstErr.Some? {
      var i: nat, p: nat :| FirstReport(past, i, p) && Broke(past[..i], p, s.firstErr.value);
      forall j: nat, q: nat | FirstReport(past, j, q)
        ensures j == i && q == p
      {
        OneFirstReport(past, i, p, j, q);
      }
    }
  }

  /**
   The result of a job is the error that was reported first, and its class says what went wrong with that
   page: a store failure exactly when an upsert was not acknowledged, a page failure exactly when its
   image or its text could not be had. The deadline shows only when no page reports an error.
   */
  lemma ResultTells(total: nat, concurrency: nat, needsImage: bool, actions: seq<Action>, t: State)
    requires concurrency >= 1 && Run(Initial(total, concurrency, needsImage), actions, t) && t.launcher.Returned?
    ensures t.launcher.result == Some(StoreFailure) <==>
      exists i: nat, p: nat :: FirstReport(actions, i, p) && StoreBroke(actions[..i], p)
    ensures t.launcher.result == Some(PageFailure) <==>
      exists i: nat, p: nat :: FirstReport(actions, i, p) && PageBroke(actions[..i], p)
    ensures t.launcher.result == Some(Expired) <==> !Reported(actions) && Expire in actions
    ensures t.launcher.result == None <==> !Reported(actions) && Expire !in actions
  {
    InitialInv(total, concurrency, needsImage);
    RunTold([], Initial(total, concurrency, needsImage), actions, t);
    assert [] + actions == actions;
    FirstErrTells(actions, t);
  }

  // ---------- the order of the steps of a page ----------

  /** What has to have gone well for the goroutine of page p to be where it is. */
  predicate PageOrder(past: seq<Action>, s: State, p: nat) {
    && (p in s.tasks && s.tasks[p].Downloading? ==> s.needsImage)
    && (p in s.tasks && s.tasks[p].Recognizing? && s.needsImage ==> Download(p, true) in past)
    && (p in s.tasks && s.tasks[p].Upserting? ==> Recognize(p, true) in past)
  }

  predicate Ordered(past: seq<Action>, s: State) {
    forall p :: p in s.tasks ==> PageOrder(past, s, p)
  }

  /** The step is about a page for which the earlier steps went well. */
  predicate InOrder(past: seq<Action>, needsImage: bool, a: Action) {
    match a
    case Download(_, _) => needsImage
    case Recognize(p, _) => needsImage ==> Download(p, true) in past
    case Upsert(p, _, _) => Recognize(p, true) in past
    case _ => true
  }

  lemma OrderedMore(past: seq<Action>, s: State, a: Action)
    requires Ordered(past, s) && Enabled(s, a)
    ensures InOrder(past, s.needsImage, a)
    ensures Ordered(past + [a], Apply(s, a)) && Apply(s, a).needsImage == s.needsImage
  {
    var t := Apply(s, a);
    forall p | p in t.tasks
      ensures PageOrder(past + [a], t, p)
    {
      assert p in s.tasks ==> PageOrder(past, s, p);
    }
  }

  lemma {:induction false} RunInOrder(past: seq<Action>, s: State, actions: seq<Action>, t: State, i: nat)
    requires Ordered(past, s) && Run(s, actions, t) && i < |actions|
    ensures InOrder(past + actions[..i], s.needsImage, actions[i])
    decreases |actions|
  {
    var a := actions[0];
    OrderedMore(past, s, a);
    if i > 0 {
      RunInOrder(past + [a], Apply(s, a), actions[1..], t, i - 1);
      assert past + actions[..i] == past + [a] + actions[1..][..i - 1];
    } else {
      assert past + actions[..0] == past;
    }
  }

  /**
   A page's image is fetched only when the engine needs it, and then its text is read only after its image has
   come. A text is stored only after it has been read.
   */
  lemma PagesInOrder(total: nat, concurrency: nat, needsImage: bool, actions: seq<Action>, t: State, i: nat)
    requires Run(Initial(total, concurrency, needsImage), actions, t) && i < |actions|
    ensures InOrder(actions[..i], needsImage, actions[i])
  {
    RunInOrder([], Initial(total, concurrency, needsImage), actions, t, i);
    assert [] + actions[..i] == actions[..i];
  }

  lemma StartedBefore(s: State, a: Action)
    requires Done(s) && Enabled(s, a)
    ensures Done(Apply(s, a)) && Apply(s, a).next == s.next && Apply(s, a).tasks.Keys <= s.tasks.Keys
  {}

  /** After the first error or the deadline no further page is started. */
  lemma {:induction false} NothingStartsLate(s: State, actions: seq<Action>, t: State)
    requires Done(s) && Run(s, actions, t)
    ensures t.next == s.next && t.tasks.Keys <= s.tasks.Keys
    decreases |actions|
  {
    if actions != [] {
      StartedBefore(s, actions[0]);
      NothingStartsLate(Apply(s, actions[0]), actions[1..], t);
    }
  }

  /** The next step of the goroutine of page p; every outside call succeeds. */
  function TaskStep(pc: TaskPc, p: nat): Action {
    match pc
    case Downloading => Download(p, true)
    case Recognizing => Recognize(p, true)
    case Upserting => Upsert(p, true, true)
    case Reporting(_) => Report(p)
    case Releasing => Release(p)
    case Finishing => Finish(p)
  }

  lemma TaskCanStep(s: State, p: nat)
    requires Inv(s) && p in s.tasks
    ensures Enabled(s, TaskStep(s.tasks[p], p))
  {
    if s.tasks[p].Releasing? {
      assert p in Live(s.tasks);
    }
  }

  /** Steps of a run in which nothing goes wrong. */
  predicate Fine(a: Action) {
    match a
    case Download(_, ok) => ok
    case Recognize(_, ok) => ok
    case Upsert(_, applied, acked) => applied && acked
    case Expire => false
    case _ => true
  }

  /** No reachable state is stuck before the return: some step other than the deadline is enabled. */
  lemma NeverStuck(s: State) returns (a: Action)
    requires Inv(s) && !s.launcher.Returned?
    ensures Fine(a) && Enabled(s, a)
    ensures !Done(s) ==> !a.SeeDone?
  {
    if s.tasks != map[] {
      var p :| p in s.tasks;
      TaskCanStep(s, p);
      a := TaskStep(s.tasks[p], p);
    } else {
      assert Live(s.tasks) == {};
      a := match s.launcher
        case Selecting => if s.next < s.total then Acquire else EndLoop
        case Checking => Check
        case _ => Join;
    }
  }

  // ---------- it always returns ----------

  function Rank(pc: TaskPc): nat {
    match pc
    case Downloading => 6
    case Recognizing => 5
    case Upserting => 4
    case Reporting(_) => 3
    case Releasing => 2
    case Finishing => 1
  }

  /** The steps the goroutines of the first n pages can still take. */
  function TaskWork(tasks: map<nat, TaskPc>, n: nat): nat {
    if n == 0 then 0
    else TaskWork(tasks, n - 1) + (if n - 1 in tasks then Rank(tasks[n - 1]) else 0)
  }

  function LauncherWork(pc: LauncherPc): nat {
    match pc
    case Selecting => 3
    case Checking => 2
    case Waiting => 1
    case Returned(_) => 0
  }

  /** The steps left, apart from the deadline. */
  function Work(s: State): nat
    requires s.next <= s.total
  {
    8 * (s.total - s.next) + LauncherWork(s.launcher) + TaskWork(s.tasks, s.total)
  }

  lemma {:induction false} TaskWorkUpdate(s: map<nat, TaskPc>, t: map<nat, TaskPc>, n: nat, p: nat)
    requires p < n
    requires forall q :: q != p ==> (q in s <==> q in t) && (q in s ==> t[q] == s[q])
    ensures TaskWork(t, n) - TaskWork(s, n)
         == (if p in t then Rank(t[p]) else 0) - (if p in s then Rank(s[p]) else 0)
  {
    if p == n - 1 {
      TaskWorkSame(s, t, n - 1, p);
    } else {
      TaskWorkUpdate(s, t, n - 1, p);
    }
  }

  lemma {:induction false} TaskWorkSame(s: map<nat, TaskPc>, t: map<nat, TaskPc>, n: nat, p: nat)
    requires n <= p
    requires forall q :: q != p ==> (q in s <==> q in t) && (q in s ==> t[q] == s[q])
    ensures TaskWork(t, n) == TaskWork(s, n)
  {
    if n > 0 {
      TaskWorkSame(s, t, n - 1, p);
    }
  }

  function PageOf(a: Action): Option<nat> {
    match a
    case Download(p, _) => Some(p)
    case Recognize(p, _) => Some(p)
    case Upsert(p, _, _) => Some(p)
    case Report(p) => Some(p)
    case Release(p) => Some(p)
    case Finish(p) => Some(p)
    case _ => None
  }

  /** Every step but the deadline uses up work, so `recognizeAll` always returns. */
  lemma StepUsesWork(s: State, a: Action)
    requires Inv(s) && Enabled(s, a) && !a.Expire?
    ensures Inv(Apply(s, a)) && Work(Apply(s, a)) < Work(s)
  {
    InvKept(s, a);
    var t := Apply(s, a);
    match PageOf(a) {
      case Some(p) => TaskWorkUpdate(s.tasks, t.tasks, s.total, p);
      case None =>
        if a.Check? && !Done(s) {
          TaskWorkUpdate(s.tasks, t.tasks, s.total, s.next);
        }
    }
  }

  function Steps(actions: seq<Action>): nat {
    if actions == [] then 0
    else (if actions[0].Expire? then 0 else 1) + Steps(actions[1..])
  }

  /** No run over n pages takes more than 8n + 3 steps besides the deadline. */
  lemma {:induction false} RunIsBounded(s: State, actions: seq<Action>, t: State)
    requires Inv(s) && Run(s, actions, t)
    ensures Inv(t) && Steps(actions) + Work(t) <= Work(s)
    decreases |actions|
  {
    if actions != [] {
      var next := Apply(s, actions[0]);
      InvKept(s, actions[0]);
      if !actions[0].Expire? {
        StepUsesWork(s, actions[0]);
      }
      RunIsBounded(next, actions[1..], t);
    }
  }

  lemma InitialWork(total: nat, concurrency: nat, needsImage: bool)
    ensures Work(Initial(total, concurrency, needsImage)) == 8 * total + 3
  {
    NoTaskWork(total);
  }

  lemma NoTaskWork(n: nat)
    ensures TaskWork(map[], n) == 0
  {}

  /** A run that cannot go on has returned; every run from the start is at most this long. */
  lemma AlwaysReturns(total: nat, concurrency: nat, needsImage: bool, actions: seq<Action>, t: State)
    requires concurrency >= 1 && Run(Initial(total, concurrency, needsImage), actions, t)
    ensures Steps(actions) <= 8 * total + 3
    ensures (forall a: Action :: !a.Expire? ==> !Enabled(t, a)) ==> t.launcher.Returned?
  {
    var s := Initial(total, concurrency, needsImage);
    InitialInv(total, concurrency, needsImage);
    InitialWork(total, concurrency, needsImage);
    RunIsBounded(s, actions, t);
    if !t.launcher.Returned? {
      var a := NeverStuck(t);
    }
  }

  // ---------- a run in which nothing goes wrong ----------

  predicate Clean(s: State) {
    && s.firstErr.None? && !Done(s)
    && (forall p :: p in s.tasks ==> !s.tasks[p].Reporting?)
    && (s.launcher.Returned? ==> s.launcher == Returned(None))
  }

  /** The step that `NeverStuck` finds keeps a clean run clean. */
  lemma CleanStep(s: State) returns (a: Action)
    requires Inv(s) && Clean(s) && !s.launcher.Returned?
    ensures Fine(a) && Enabled(s, a) && Clean(Apply(s, a))
    ensures Inv(Apply(s, a)) && Work(Apply(s, a)) < Work(s)
  {
    a := NeverStuck(s);
    StepUsesWork(s, a);
  }
}
