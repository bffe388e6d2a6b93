/**
 The protocol and the aggregate store together: whatever the interleaving, the six tables hold exactly
 what the protocol calls the current aggregate of each document, and reading one gives its canonical form.
 */
module ServedAggregates {
  import opened Wrappers
  import opened Seqs
  import opened Aggregate
  import opened Schema
  import opened Tables
  import opened Pipeline
  import opened PipelineInvariant
  import opened PipelineTheorems
  import opened Polls
  import Rows = AggregateRows
  import Store = AggregateTables
  import opened TornReads
  import MatriculaStore

  /** The call of SaveAggregate that a step makes, and whether it commits. */
  function SaveOf(c: Config, s: State, a: Action, meta: Rows.Meta): seq<Store.Save>
    requires Enabled(c, s, a)
  {
    if a.StepWorker? && s.acts[a.pid].pc.worker.Saving?
    then [Store.Save(s.acts[a.pid].pc.doc, s.acts[a.pid].pc.worker.content, meta, a.choice.o.applied)]
    else []
  }

  /** All calls of SaveAggregate in a run, in their order. */
  function SavesOf(c: Config, s: State, actions: seq<Action>, meta: Rows.Meta): seq<Store.Save>
    requires Legal(c, s, actions)
    decreases |actions|
  {
    if actions == [] then []
    else SaveOf(c, s, actions[0], meta) + SavesOf(c, Next(c, s, actions[0]), actions[1..], meta)
  }

  function CurrentContent(db: map<DocId, Record>, d: DocId): Option<ExtractedMatricula> {
    if d in db && Current(db[d]).Some? then Some(Current(db[d]).value.content) else None
  }

  /** The last committed save of every document is the current aggregate of its rows. */
  ghost predicate Mirrors(history: seq<Store.Save>, db: map<DocId, Record>) {
    && (forall save :: save in history ==> Store.Wellformed(save))
    && (forall d :: Store.LastCommitted(history, d) == CurrentContent(db, d))
  }

  lemma LastCommittedMore(history: seq<Store.Save>, save: Store.Save, d: DocId)
    ensures Store.LastCommitted(history + [save], d)
         == if save.doc == d && save.committed then Some(save.content) else Store.LastCommitted(history, d)
  {
    assert (history + [save])[..|history|] == history;
  }

  predicate Commits(c: Config, s: State, a: Action, d: DocId)
    requires Enabled(c, s, a)
  {
    a.StepWorker? && s.acts[a.pid].pc.worker.Saving? && s.acts[a.pid].pc.doc == d && a.choice.o.applied
  }

  lemma OthersKeepExtractions(c: Config, s: State, a: Action, d: DocId)
    requires Enabled(c, s, a) && d in s.db && !Commits(c, s, a, d)
    ensures d in Next(c, s, a).db && Next(c, s, a).db[d].extractions == s.db[d].extractions
  {}

  lemma NewHasNone(c: Config, s: State, a: Action, d: DocId)
    requires Enabled(c, s, a) && d !in s.db && d in Next(c, s, a).db
    ensures Next(c, s, a).db[d].extractions == []
  {}

  lemma CommitAppends(c: Config, s: State, a: Action, d: DocId)
    requires Enabled(c, s, a) && Commits(c, s, a, d)
    ensures d in Next(c, s, a).db
    ensures Current(Next(c, s, a).db[d]) == Some(Extraction(s.acts[a.pid].pc.attempt, s.acts[a.pid].pc.worker.content))
  {}

  /** Only a committed save changes the current aggregate of a document, and only of its own. */
  lemma CurrentStep(c: Config, s: State, a: Action, d: DocId)
    requires Enabled(c, s, a)
    ensures CurrentContent(Next(c, s, a).db, d)
         == if Commits(c, s, a, d) then Some(s.acts[a.pid].pc.worker.content) else CurrentContent(s.db, d)
  {
    if Commits(c, s, a, d) {
      CommitAppends(c, s, a, d);
    } else if d in s.db {
      OthersKeepExtractions(c, s, a, d);
    } else if d in Next(c, s, a).db {
      NewHasNone(c, s, a, d);
    }
  }

  /** What a worker is about to save has ISO dates; what commits satisfies the schema. */
  lemma SaveWellformed(c: Config, s: State, a: Action, meta: Rows.Meta)
    requires Inv(c, s) && Enabled(c, s, a)
    ensures forall save :: save in SaveOf(c, s, a, meta) ==> Store.Wellformed(save)
  {
    if a.StepWorker? && s.acts[a.pid].pc.worker.Saving? {
      SavingIsNormal(c, s, a.pid);
    }
  }

  lemma SavingIsNormal(c: Config, s: State, p: Pid)
    requires Inv(c, s) && IsPoller(s, p) && s.acts[p].pc.Working? && s.acts[p].pc.worker.Saving?
    ensures DatesNormalized(s.acts[p].pc.worker.content)
  {
    assert ActInv(s.acts[p], s.db);
    NormalizedDatesAreISO(s.acts[p].pc.worker.content);
  }

  lemma MirrorsStep(c: Config, s: State, a: Action, meta: Rows.Meta, history: seq<Store.Save>)
    requires Inv(c, s) && Enabled(c, s, a) && Mirrors(history, s.db)
    ensures Mirrors(history + SaveOf(c, s, a, meta), Next(c, s, a).db)
  {
    var saves := SaveOf(c, s, a, meta);
    SaveWellformed(c, s, a, meta);
    forall d
      ensures Store.LastCommitted(history + saves, d) == CurrentContent(Next(c, s, a).db, d)
    {
      CurrentStep(c, s, a, d);
      if saves == [] {
        assert history + saves == history;
      } else {
        LastCommittedMore(history, saves[0], d);
      }
    }
  }

  lemma Regroup<T>(a: seq<T>, b: seq<T>, c: seq<T>)
    ensures a + b + c == a + (b + c)
  {}

  lemma {:induction false} MirrorsRun(c: Config, s: State, actions: seq<Action>, meta: Rows.Meta, history: seq<Store.Save>)
    requires ValidConfig(c) && Inv(c, s) && Legal(c, s, actions) && Mirrors(history, s.db)
    ensures Mirrors(history + SavesOf(c, s, actions, meta), Reach(c, s, actions).db)
    decreases |actions|
  {
    if actions == [] {
      assert history + [] == history;
    } else {
      var t := Next(c, s, actions[0]);
      var saves := SaveOf(c, s, actions[0], meta);
      StepInv(c, s, actions[0]);
      MirrorsStep(c, s, actions[0], meta, history);
      MirrorsRun(c, t, actions[1..], meta, history + saves);
      Regroup(history, saves, SavesOf(c, t, actions[1..], meta));
    }
  }

  /** The live aggregates of the store are the current aggregates of the protocol. */
  ghost predicate HoldsCurrent(log: seq<Rows.Entry>, db: map<DocId, Record>) {
    && (forall e :: e in log ==> CurrentContent(db, e.doc) == Some(e.content))
    && (forall d :: d in db ==> (Store.HasLive(log, d) <==> Current(db[d]).Some?))
  }

  /**
   In every reachable state, the tables that the run's saves have left hold one aggregate for each
   document that has a current one, with exactly its content, and no other row.
   */
  lemma TablesHoldCurrent(c: Config, actions: seq<Action>, meta: Rows.Meta) returns (log: seq<Rows.Entry>)
    requires Run(c, actions)
    ensures Store.Represents(Store.AfterAll(SavesOf(c, Initial, actions, meta)), log)
    ensures HoldsCurrent(log, End(c, actions).db)
  {
    var history := SavesOf(c, Initial, actions, meta);
    InitialInv(c);
    MirrorsRun(c, Initial, actions, meta, []);
    assert [] + history == history;
    Store.NoResidue(history);
    log := Store.LogOf(history);
    LiveIsCurrent(log, history, End(c, actions).db);
  }

  lemma LiveIsCurrent(log: seq<Rows.Entry>, history: seq<Store.Save>, db: map<DocId, Record>)
    requires Mirrors(history, db) && Store.LiveMatches(log, history)
    ensures HoldsCurrent(log, db)
  {
    forall d | d in db
      ensures Store.HasLive(log, d) <==> Current(db[d]).Some?
    {
      assert Store.LastCommitted(history, d) == CurrentContent(db, d);
    }
  }

  // ---------- a read and the run around it ----------

  lemma SliceShift<T>(first: seq<T>, later: seq<T>, a: nat, b: nat)
    requires |first| <= a <= b <= |first + later|
    ensures (first + later)[a..b] == later[a - |first|..b - |first|]
    ensures (first + later)[..a] == first + later[..a - |first|]
  {}

  lemma SliceSplit<T>(all: seq<T>, middle: seq<T>, j: nat, k: nat)
    requires j <= k <= |all| && all[..k] == all[..j] + middle
    ensures all[j..k] == middle
  {
    assert all[j..k] == all[..k][j..];
  }

  lemma {:induction false} SavesSplit(c: Config, s: State, first: seq<Action>, later: seq<Action>, meta: Rows.Meta)
    requires Legal(c, s, first) && Legal(c, Reach(c, s, first), later)
    ensures Legal(c, s, first + later)
    ensures SavesOf(c, s, first + later, meta) == SavesOf(c, s, first, meta) + SavesOf(c, Reach(c, s, first), later, meta)
    decreases |first|
  {
    ReachSplit(c, s, first, later);
    if first == [] {
      assert first + later == later;
    } else {
      assert (first + later)[0] == first[0] && (first + later)[1..] == first[1..] + later;
      SavesSplit(c, Next(c, s, first[0]), first[1..], later, meta);
      Regroup(SaveOf(c, s, first[0], meta), SavesOf(c, Next(c, s, first[0]), first[1..], meta),
        SavesOf(c, Reach(c, s, first), later, meta));
    }
  }

  /** The number of actions after which k saves have been called. */
  function MomentOf(c: Config, s: State, actions: seq<Action>, meta: Rows.Meta, k: nat): nat
    requires Legal(c, s, actions) && k <= |SavesOf(c, s, actions, meta)|
    decreases |actions|
  {
    if k == 0 then 0
    else 1 + MomentOf(c, Next(c, s, actions[0]), actions[1..], meta, k - |SaveOf(c, s, actions[0], meta)|)
  }

  lemma {:induction false} MomentSplits(c: Config, s: State, actions: seq<Action>, meta: Rows.Meta, k: nat)
    requires Legal(c, s, actions) && k <= |SavesOf(c, s, actions, meta)|
    ensures var n := MomentOf(c, s, actions, meta, k);
      && n <= |actions| && Legal(c, s, actions[..n])
      && SavesOf(c, s, actions[..n], meta) == SavesOf(c, s, actions, meta)[..k]
      && Reach(c, s, actions[..n]) == StateAt(c, s, actions, n)
    decreases |actions|
  {
    MomentWithin(c, s, actions, meta, k);
    var n := MomentOf(c, s, actions, meta, k);
    Between(c, s, actions, 0, n);
    assert actions[0..n] == actions[..n];
    if k > 0 {
      var t, saves := Next(c, s, actions[0]), SaveOf(c, s, actions[0], meta);
      MomentSplits(c, t, actions[1..], meta, k - |saves|);
      PrefixSaves(c, s, actions, meta, n);
      SliceShift(saves, SavesOf(c, t, actions[1..], meta), k, k);
    }
  }

  lemma {:induction false} MomentWithin(c: Config, s: State, actions: seq<Action>, meta: Rows.Meta, k: nat)
    requires Legal(c, s, actions) && k <= |SavesOf(c, s, actions, meta)|
    ensures MomentOf(c, s, actions, meta, k) <= |actions|
    decreases |actions|
  {
    if k > 0 {
      MomentWithin(c, Next(c, s, actions[0]), actions[1..], meta, k - |SaveOf(c, s, actions[0], meta)|);
    }
  }

  lemma PrefixSaves(c: Config, s: State, actions: seq<Action>, meta: Rows.Meta, n: nat)
    requires Legal(c, s, actions) && 0 < n <= |actions| && Legal(c, s, actions[..n])
    ensures Legal(c, Next(c, s, actions[0]), actions[1..][..n - 1])
    ensures SavesOf(c, s, actions[..n], meta)
         == SaveOf(c, s, actions[0], meta) + SavesOf(c, Next(c, s, actions[0]), actions[1..][..n - 1], meta)
  {
    assert actions[..n][1..] == actions[1..][..n - 1];
  }

  lemma {:induction false} MomentsMonotone(c: Config, s: State, actions: seq<Action>, meta: Rows.Meta, j: nat, k: nat)
    requires Legal(c, s, actions) && j <= k <= |SavesOf(c, s, actions, meta)|
    ensures MomentOf(c, s, actions, meta, j) <= MomentOf(c, s, actions, meta, k)
    decreases |actions|
  {
    if j > 0 {
      var saves := SaveOf(c, s, actions[0], meta);
      MomentsMonotone(c, Next(c, s, actions[0]), actions[1..], meta, j - |saves|, k - |saves|);
    }
  }

  lemma CommitGrows(c: Config, s: State, a: Action, d: DocId)
    requires Enabled(c, s, a) && Commits(c, s, a, d)
    ensures d in s.db && d in Next(c, s, a).db && |Next(c, s, a).db[d].extractions| == |s.db[d].extractions| + 1
  {}

  /** The current aggregate of a document changes exactly when a save of it commits. */
  lemma {:induction false} ChangedIffCommitted(c: Config, s: State, actions: seq<Action>, meta: Rows.Meta, d: DocId)
    requires ValidConfig(c) && Inv(c, s) && Legal(c, s, actions) && d in s.db
    ensures Store.LastCommitted(SavesOf(c, s, actions, meta), d).None? <==> SameAggregate(s.db, Reach(c, s, actions).db, d)
    decreases |actions|
  {
    if actions != [] {
      var t := Next(c, s, actions[0]);
      var saves := SaveOf(c, s, actions[0], meta);
      StepInv(c, s, actions[0]);
      RunInv(c, t, actions[1..]);
      LastOfBoth(saves, SavesOf(c, t, actions[1..], meta), d);
      if Commits(c, s, actions[0], d) {
        CommitGrows(c, s, actions[0], d);
        assert Grows(t.db[d], Reach(c, t, actions[1..]).db[d]);
        assert [saves[0]][..0] == [] && Store.LastCommitted(saves, d).Some?;
      } else {
        OthersKeepExtractions(c, s, actions[0], d);
        assert Store.LastCommitted(saves, d).None?;
        ChangedIffCommitted(c, t, actions[1..], meta, d);
      }
    }
  }

  lemma SavesBetween(c: Config, s: State, actions: seq<Action>, meta: Rows.Meta, j: nat, k: nat)
    requires Legal(c, s, actions) && j <= k <= |SavesOf(c, s, actions, meta)|
    ensures var m, n := MomentOf(c, s, actions, meta, j), MomentOf(c, s, actions, meta, k);
      && m <= n <= |actions| && Legal(c, s, actions[..m]) && Reach(c, s, actions[..m]) == StateAt(c, s, actions, m)
      && Legal(c, StateAt(c, s, actions, m), actions[m..n])
      && Reach(c, StateAt(c, s, actions, m), actions[m..n]) == StateAt(c, s, actions, n)
      && SavesOf(c, s, actions, meta)[j..k] == SavesOf(c, StateAt(c, s, actions, m), actions[m..n], meta)
  {
    var m, n := MomentOf(c, s, actions, meta, j), MomentOf(c, s, actions, meta, k);
    MomentSplits(c, s, actions, meta, j);
    MomentSplits(c, s, actions, meta, k);
    MomentsMonotone(c, s, actions, meta, j, k);
    Between(c, s, actions, m, n);
    SavesSplit(c, s, actions[..m], actions[m..n], meta);
    assert actions[..m] + actions[m..n] == actions[..n];
    SliceSplit(SavesOf(c, s, actions, meta), SavesOf(c, StateAt(c, s, actions, m), actions[m..n], meta), j, k);
  }

  /** Two moments of a run, and the saves that are called between them. */
  lemma Interval(c: Config, s: State, actions: seq<Action>, meta: Rows.Meta, j: nat, k: nat, d: DocId)
    requires ValidConfig(c) && Inv(c, s) && Legal(c, s, actions) && j <= k <= |SavesOf(c, s, actions, meta)|
    ensures var m, n := MomentOf(c, s, actions, meta, j), MomentOf(c, s, actions, meta, k);
      && m <= n <= |actions|
      && (d in StateAt(c, s, actions, m).db ==>
            (Store.LastCommitted(SavesOf(c, s, actions, meta)[j..k], d).None?
             <==> SameAggregate(StateAt(c, s, actions, m).db, StateAt(c, s, actions, n).db, d)))
  {
    var m, n := MomentOf(c, s, actions, meta, j), MomentOf(c, s, actions, meta, k);
    SavesBetween(c, s, actions, meta, j, k);
    var t := StateAt(c, s, actions, m);
    RunInv(c, s, actions[..m]);
    if d in t.db {
      ChangedIffCommitted(c, t, actions[m..n], meta, d);
    }
  }

  /** Where a run stands at each query of a read. */
  function MomentsOf(c: Config, s: State, actions: seq<Action>, meta: Rows.Meta, at: seq<nat>): (r: seq<nat>)
    requires Legal(c, s, actions) && Moments(at, 0, |SavesOf(c, s, actions, meta)|)
    ensures |r| == |at|
  {
    seq(|at|, (i: nat) requires i < |at| =>
      MomentsWithin(at, |SavesOf(c, s, actions, meta)|, i); MomentOf(c, s, actions, meta, at[i]))
  }

  lemma MomentsOfOrdered(c: Config, s: State, actions: seq<Action>, meta: Rows.Meta, at: seq<nat>)
    requires Legal(c, s, actions) && Moments(at, 0, |SavesOf(c, s, actions, meta)|)
    ensures Moments(MomentsOf(c, s, actions, meta, at), 0, |actions|)
  {
    var r := MomentsOf(c, s, actions, meta, at);
    forall i, j | 0 <= i < j < |r|
      ensures r[i] <= r[j]
    {
      MomentsMonotone(c, s, actions, meta, at[i], at[j]);
    }
    MomentSplits(c, s, actions, meta, at[|at| - 1]);
  }

  /** The rows at each query of a read, from state s on. */
  function RowsAt(c: Config, s: State, actions: seq<Action>, meta: Rows.Meta, at: seq<nat>): (r: seq<map<DocId, Record>>)
    requires Legal(c, s, actions) && Moments(at, 0, |SavesOf(c, s, actions, meta)|)
    ensures |r| == |at|
  {
    seq(|at|, (i: nat) requires i < |at| =>
      MomentsWithin(at, |SavesOf(c, s, actions, meta)|, i);
      MomentSplits(c, s, actions, meta, at[i]);
      StateAt(c, s, actions, MomentOf(c, s, actions, meta, at[i])).db)
  }

  /** A read of the tables finds as many parts as the protocol's poll. */
  lemma {:induction false} AnsweredIsIntact(c: Config, s: State, actions: seq<Action>, meta: Rows.Meta, at: seq<nat>, d: DocId)
    requires ValidConfig(c) && Inv(c, s) && Legal(c, s, actions) && Moments(at, 0, |SavesOf(c, s, actions, meta)|)
    requires d in RowsAt(c, s, actions, meta, at)[0]
    ensures Answered(SavesOf(c, s, actions, meta), at, d) == Intact(RowsAt(c, s, actions, meta, at), d)
    decreases |at|
  {
    var n := |at| - 1;
    if n > 0 {
      Interval(c, s, actions, meta, at[0], at[n], d);
      assert RowsAt(c, s, actions, meta, at)[..n] == RowsAt(c, s, actions, meta, at[..n]);
      AnsweredIsIntact(c, s, actions, meta, at[..n], d);
    }
  }

  /** The aggregate that the first query finds is the current one at that moment. */
  lemma FirstIsCurrent(c: Config, s: State, later: seq<Action>, meta: Rows.Meta, history: seq<Store.Save>, k: nat, d: DocId)
    requires ValidConfig(c) && Inv(c, s) && Legal(c, s, later) && Mirrors(history, s.db) && k <= |SavesOf(c, s, later, meta)|
    ensures var n := MomentOf(c, s, later, meta, k);
      && n <= |later|
      && Store.LastCommitted(history + SavesOf(c, s, later, meta)[..k], d) == CurrentContent(StateAt(c, s, later, n).db, d)
  {
    var n := MomentOf(c, s, later, meta, k);
    MomentSplits(c, s, later, meta, k);
    MirrorsRun(c, s, later[..n], meta, history);
  }

  function Shifted(at: seq<nat>, n: nat): (r: seq<nat>)
    requires forall i :: 0 <= i < |at| ==> at[i] >= n
    ensures |r| == |at|
  {
    seq(|at|, (i: nat) requires i < |at| => at[i] - n)
  }

  /** Only the saves since the first query matter. */
  lemma {:induction false} AnsweredShift(first: seq<Store.Save>, later: seq<Store.Save>, at: seq<nat>, doc: DocId)
    requires Moments(at, |first|, |first + later|)
    ensures Moments(Shifted(at, |first|), 0, |later|)
    ensures Answered(first + later, at, doc) == Answered(later, Shifted(at, |first|), doc)
    decreases |at|
  {
    var n := |at| - 1;
    ShiftedMoments(at, |first|, |first + later|);
    SliceShift(first, later, at[0], at[n]);
    if n > 0 {
      FewerMoments(at, |first|, |first + later|);
      AnsweredShift(first, later, at[..n], doc);
      assert Shifted(at, |first|)[..n] == Shifted(at[..n], |first|);
    }
  }

  lemma ShiftedMoments(at: seq<nat>, n: nat, end: nat)
    requires Moments(at, n, end)
    ensures n <= end && Moments(Shifted(at, n), 0, end - n)
  {}

  lemma FewerMoments(at: seq<nat>, start: nat, end: nat)
    requires Moments(at, start, end) && |at| > 1
    ensures Moments(at[..|at| - 1], start, end)
  {}

  lemma {:induction false} StateAtSplit(c: Config, s: State, first: seq<Action>, later: seq<Action>, n: nat)
    requires Legal(c, s, first) && Legal(c, Reach(c, s, first), later) && n <= |later|
    ensures Legal(c, s, first + later)
    ensures StateAt(c, s, first + later, |first| + n) == StateAt(c, Reach(c, s, first), later, n)
    decreases |first|
  {
    ReachSplit(c, s, first, later);
    if first == [] {
      assert first + later == later;
    } else {
      assert (first + later)[0] == first[0] && (first + later)[1..] == first[1..] + later;
      StateAtSplit(c, Next(c, s, first[0]), first[1..], later, n);
    }
  }

  /** What a read returns, as the protocol sees it: d's current aggregate at the first of these rows, its first parts. */
  ghost predicate Delivers(leq: MatriculaStore.Collation, rows: seq<map<DocId, Record>>, r: Option<MatriculaStore.Response>, d: DocId)
    requires rows != []
  {
    && (r.Some? <==> CurrentContent(rows[0], d).Some?)
    && (r.Some? ==>
          && r.value.doc == d
          && MatriculaStore.IsCanonical(leq, FirstParts(CurrentContent(rows[0], d).value, Intact(rows, d)), r.value.content))
  }

  /** A read after first, during later: its queries find the rows of some moments of later. */
  ghost predicate ServedAs(c: Config, first: seq<Action>, later: seq<Action>, leq: MatriculaStore.Collation,
                           r: Option<MatriculaStore.Response>, d: DocId) {
    exists at: seq<nat> ::
      && Run(c, first + later) && |at| == PARTS && Moments(at, |first|, |first + later|)
      && Delivers(leq, Views(c, first + later, at), r, d)
  }

  lemma ReadIsPoll(c: Config, s: State, later: seq<Action>, meta: Rows.Meta, history: seq<Store.Save>,
                   leq: MatriculaStore.Collation, r: Option<MatriculaStore.Response>, content: Option<ExtractedMatricula>,
                   at: seq<nat>, d: DocId)
    requires ValidConfig(c) && Inv(c, s) && Legal(c, s, later) && Mirrors(history, s.db)
    requires Moments(at, 0, |SavesOf(c, s, later, meta)|)
    requires content == Store.LastCommitted(history + SavesOf(c, s, later, meta)[..at[0]], d)
    requires r.Some? <==> content.Some?
    requires r.Some? ==> r.value.doc == d && MatriculaStore.IsCanonical(leq,
      FirstParts(content.value, Answered(SavesOf(c, s, later, meta), at, d)), r.value.content)
    ensures Delivers(leq, RowsAt(c, s, later, meta, at), r, d)
  {
    FirstIsCurrent(c, s, later, meta, history, at[0], d);
    if r.Some? {
      AnsweredIsIntact(c, s, later, meta, at, d);
    }
  }

  /** The rows of later's moments, counted from the start of the whole run. */
  lemma RowsAreViews(c: Config, first: seq<Action>, later: seq<Action>, meta: Rows.Meta, at: seq<nat>) returns (moments: seq<nat>)
    requires Run(c, first) && Legal(c, End(c, first), later) && Moments(at, 0, |SavesOf(c, End(c, first), later, meta)|)
    ensures Run(c, first + later) && |moments| == |at| && Moments(moments, |first|, |first + later|)
    ensures Views(c, first + later, moments) == RowsAt(c, End(c, first), later, meta, at)
  {
    ReachSplit(c, Initial, first, later);
    MomentsOfOrdered(c, End(c, first), later, meta, at);
    var local := MomentsOf(c, End(c, first), later, meta, at);
    moments := seq(|at|, (i: nat) requires i < |at| => |first| + local[i]);
    forall i | 0 <= i < |at|
      ensures moments[i] <= |first + later|
      ensures StateAt(c, Initial, first + later, moments[i]).db == RowsAt(c, End(c, first), later, meta, at)[i]
    {
      RowIsView(c, first, later, meta, at, i);
    }
  }

  lemma RowIsView(c: Config, first: seq<Action>, later: seq<Action>, meta: Rows.Meta, at: seq<nat>, i: nat)
    requires Run(c, first) && Legal(c, End(c, first), later) && Moments(at, 0, |SavesOf(c, End(c, first), later, meta)|)
    requires i < |at|
    ensures Run(c, first + later) && MomentsOf(c, End(c, first), later, meta, at)[i] <= |later|
    ensures StateAt(c, Initial, first + later, |first| + MomentsOf(c, End(c, first), later, meta, at)[i]).db
         == RowsAt(c, End(c, first), later, meta, at)[i]
  {
    MomentSplits(c, End(c, first), later, meta, at[i]);
    StateAtSplit(c, Initial, first, later, MomentsOf(c, End(c, first), later, meta, at)[i]);
  }

  /** What the queries of a read have found, as lengths of the history of saves. */
  ghost predicate ReadFrom(leq: MatriculaStore.Collation, history: seq<Store.Save>, at: seq<nat>,
                           r: Option<MatriculaStore.Response>, d: DocId) {
    && |at| == PARTS && Moments(at, 0, |history|)
    && var content := Store.LastCommitted(history[..at[0]], d);
    && (r.Some? <==> content.Some?)
    && (r.Some? ==>
          && r.value.doc == d
          && MatriculaStore.IsCanonical(leq, FirstParts(content.value, Answered(history, at, d)), r.value.content))
  }

  lemma MirrorsFirst(c: Config, actions: seq<Action>, meta: Rows.Meta)
    requires Run(c, actions)
    ensures Inv(c, End(c, actions)) && Mirrors(SavesOf(c, Initial, actions, meta), End(c, actions).db)
  {
    InitialInv(c);
    EndInv(c, actions);
    MirrorsRun(c, Initial, actions, meta, []);
    assert [] + SavesOf(c, Initial, actions, meta) == SavesOf(c, Initial, actions, meta);
  }

  lemma ReadAfter(saves: seq<Store.Save>, more: seq<Store.Save>, leq: MatriculaStore.Collation, at: seq<nat>,
                  r: Option<MatriculaStore.Response>, d: DocId) returns (local: seq<nat>)
    requires ReadFrom(leq, saves + more, at, r, d) && |saves| <= at[0]
    ensures |local| == PARTS && Moments(local, 0, |more|)
    ensures var content := Store.LastCommitted(saves + more[..local[0]], d);
      && (r.Some? <==> content.Some?)
      && (r.Some? ==>
            && r.value.doc == d
            && MatriculaStore.IsCanonical(leq, FirstParts(content.value, Answered(more, local, d)), r.value.content))
  {
    AnsweredShift(saves, more, at, d);
    local := Shifted(at, |saves|);
    SliceShift(saves, more, at[0], at[0]);
  }

  /** The read of a store whose saves are those of a run, seen from that run. */
  lemma ServedInRun(c: Config, first: seq<Action>, later: seq<Action>, meta: Rows.Meta, leq: MatriculaStore.Collation,
                    r: Option<MatriculaStore.Response>, at: seq<nat>, d: DocId)
    requires Run(c, first) && Run(c, first + later)
    requires ReadFrom(leq, SavesOf(c, Initial, first + later, meta), at, r, d) && |SavesOf(c, Initial, first, meta)| <= at[0]
    ensures ServedAs(c, first, later, leq, r, d)
  {
    var saves := SavesOf(c, Initial, first, meta);
    ReachSplit(c, Initial, first, later);
    SavesSplit(c, Initial, first, later, meta);
    MirrorsFirst(c, first, meta);
    var more := SavesOf(c, End(c, first), later, meta);
    var local := ReadAfter(saves, more, leq, at, r, d);
    ReadIsPoll(c, End(c, first), later, meta, saves, leq, r, Store.LastCommitted(saves + more[..local[0]], d), local, d);
    var moments := RowsAreViews(c, first, later, meta, local);
  }

  lemma ServedInAnyRun(c: Config, first: seq<Action>, meta: Rows.Meta, leq: MatriculaStore.Collation,
                       history: seq<Store.Save>, r: Option<MatriculaStore.Response>, at: seq<nat>, d: DocId)
    requires Run(c, first) && ReadFrom(leq, history, at, r, d) && |SavesOf(c, Initial, first, meta)| <= at[0]
    ensures forall later: seq<Action> ::
      Run(c, first + later) && history == SavesOf(c, Initial, first + later, meta) ==> ServedAs(c, first, later, leq, r, d)
  {
    forall later: seq<Action> | Run(c, first + later) && history == SavesOf(c, Initial, first + later, meta)
      ensures ServedAs(c, first, later, leq, r, d)
    {
      ServedInRun(c, first, later, meta, leq, r, at, d);
    }
  }

  /**
   Reading a document from the store in the middle of a run: whatever the run's other activities save
   meanwhile, the answer is the one of the protocol's poll at some moments of what follows.
   */
  method ServeExtracted(store: MatriculaStore.Matriculas, ghost c: Config, ghost actions: seq<Action>, ghost meta: Rows.Meta,
                        d: DocId) returns (r: Option<MatriculaStore.Response>)
    requires store.Valid() && Run(c, actions) && store.history == SavesOf(c, Initial, actions, meta)
    modifies store
    ensures store.Valid() && old(store.history) <= store.history
    ensures forall later: seq<Action> ::
      Run(c, actions + later) && store.history == SavesOf(c, Initial, actions + later, meta) ==>
        ServedAs(c, actions, later, store.collate, r, d)
  {
    ghost var e, at;
    r, e, at := store.GetByDocumentID(d);
    if r.None? {
      at := [at[0], at[0], at[0], at[0], at[0]];
    }
    assert ReadFrom(store.collate, store.history, at, r, d);
    ServedInAnyRun(c, actions, meta, store.collate, store.history, r, at, d);
  }
}
