/**
 The order of a tick in the protocol: when a claim fails or finds nothing, a poller fails the exhausted
 and lists the stuck before it claims again, whatever goes wrong in between.
 */
module TickOrder {
  import opened Wrappers
  import opened Tables
  import opened Pipeline
  import opened FairRuns

  lemma Unmoved(c: Config, s: State, a: Action, p: Pid)
    requires Enabled(c, s, a) && p in s.acts && Mover(a) != Some(p)
    ensures p in Next(c, s, a).acts && Next(c, s, a).acts[p] == s.acts[p]
  {}

  predicate EndsDrain(a: Action, p: Pid) {
    (a.Claim? && a.pid == p && !a.o.acked) || a == ClaimNothing(p)
  }

  /** The poller is past its drain; so many of the two statements are still to come. */
  predicate Past(act: Activity, left: nat) {
    act.Poller? && if left == 2 then act.pc.Exhausting? else if left == 1 then act.pc.Listing? else act.pc.Recovering?
  }

  lemma PollerMoves(c: Config, s: State, a: Action, p: Pid, left: nat)
    requires Enabled(c, s, a) && p in s.acts && Past(s.acts[p], left) && left <= 2 && Mover(a) == Some(p) && !a.Crash?
    ensures p in Next(c, s, a).acts
    ensures left == 2 ==> a.Exhaust? && Past(Next(c, s, a).acts[p], 1)
    ensures left == 1 ==> a.ListStuck? && Past(Next(c, s, a).acts[p], 0)
  {}

  predicate FailsExhausted(a: Action, p: Pid) {
    a.Exhaust? && a.pid == p
  }

  predicate ListsStuck(a: Action, p: Pid) {
    a.ListStuck? && a.pid == p
  }

  /** In these steps p fails the exhausted, lists the stuck, or does both in this order. */
  ghost predicate Does(actions: seq<Action>, p: Pid, left: nat) {
    if left == 2 then
      exists k, l :: 0 <= k < l < |actions| && FailsExhausted(actions[k], p) && ListsStuck(actions[l], p)
    else left == 1 ==> exists l :: 0 <= l < |actions| && ListsStuck(actions[l], p)
  }

  lemma DoesLater(a: Action, actions: seq<Action>, p: Pid)
    ensures Does(actions, p, 2) ==> Does([a] + actions, p, 2)
    ensures Does(actions, p, 1) ==> Does([a] + actions, p, 1)
    ensures Does(actions, p, 1) && FailsExhausted(a, p) ==> Does([a] + actions, p, 2)
    ensures ListsStuck(a, p) ==> Does([a] + actions, p, 1)
  {
    var more := [a] + actions;
    assert more[0] == a && forall i :: 0 <= i < |actions| ==> more[i + 1] == actions[i];
    if Does(actions, p, 1) {
      var l :| 0 <= l < |actions| && ListsStuck(actions[l], p);
      assert ListsStuck(more[l + 1], p);
    }
    if Does(actions, p, 2) {
      var k, l :| 0 <= k < l < |actions| && FailsExhausted(actions[k], p) && ListsStuck(actions[l], p);
      assert FailsExhausted(more[k + 1], p) && ListsStuck(more[l + 1], p);
    }
  }

  lemma {:induction false} StillToCome(c: Config, s: State, actions: seq<Action>, p: Pid, left: nat)
    requires Legal(c, s, actions) && p in s.acts && Past(s.acts[p], left) && left <= 2
    requires forall i :: 0 <= i < |actions| ==> actions[i] != Crash(p)
    requires var t := Reach(c, s, actions); p in t.acts && t.acts[p] == Poller(Draining)
    ensures Does(actions, p, left)
    decreases |actions|
  {
    if left > 0 {
      var a, rest := actions[0], actions[1..];
      assert actions == [a] + rest;
      DoesLater(a, rest, p);
      if Mover(a) == Some(p) {
        PollerMoves(c, s, a, p, left);
        StillToCome(c, Next(c, s, a), rest, p, left - 1);
      } else {
        Unmoved(c, s, a, p);
        StillToCome(c, Next(c, s, a), rest, p, left);
      }
    }
  }

  /** Between the end of a drain, with or without an error, and the next drain come both statements, in their order. */
  lemma TickCompletes(c: Config, s: State, a: Action, between: seq<Action>, p: Pid)
    requires Enabled(c, s, a) && EndsDrain(a, p) && Legal(c, Next(c, s, a), between)
    requires forall i :: 0 <= i < |between| ==> between[i] != Crash(p)
    requires var t := Reach(c, Next(c, s, a), between); p in t.acts && t.acts[p] == Poller(Draining)
    ensures exists k, l :: 0 <= k < l < |between| && FailsExhausted(between[k], p) && ListsStuck(between[l], p)
  {
    StillToCome(c, Next(c, s, a), between, p, 2);
  }
}
