/** Optional values and results, used for NULL columns, Go pointers and error returns. */
module Wrappers {

  datatype Option<+T> = None | Some(value: T)

  datatype Result<+T, +E> = Success(value: T) | Failure(error: E)
}

/** Mapping a function over a sequence, and positions in one. */
module Seqs {

  function Map<T, U>(f: T -> U, xs: seq<T>): (r: seq<U>)
    ensures |r| == |xs|
    ensures forall i :: 0 <= i < |xs| ==> r[i] == f(xs[i])
  {
    if xs == [] then [] else Map(f, xs[..|xs| - 1]) + [f(xs[|xs| - 1])]
  }

  lemma MapUnique<T, U>(f: T -> U, xs: seq<T>, ys: seq<U>)
    requires |ys| == |xs| && forall i :: 0 <= i < |xs| ==> ys[i] == f(xs[i])
    ensures ys == Map(f, xs)
  {}

  lemma MapIdempotent<T>(f: T -> T, xs: seq<T>)
    requires forall x :: x in xs ==> f(f(x)) == f(x)
    ensures Map(f, Map(f, xs)) == Map(f, xs)
  {
    forall i | 0 <= i < |xs|
      ensures Map(f, Map(f, xs))[i] == Map(f, xs)[i]
    {
      assert xs[i] in xs;
    }
  }

  /** A property of the images is a property of the originals. */
  lemma MapAll<T, U>(f: T -> U, xs: seq<T>, p: T -> bool, q: U -> bool)
    requires forall x :: x in xs ==> (p(x) <==> q(f(x)))
    ensures (forall x :: x in xs ==> p(x)) <==> (forall y :: y in Map(f, xs) ==> q(y))
  {
    if forall y :: y in Map(f, xs) ==> q(y) {
      forall x | x in xs
        ensures p(x)
      {
        var i :| 0 <= i < |xs| && xs[i] == x;
        assert Map(f, xs)[i] in Map(f, xs);
      }
    }
  }

  /** Moments in their order, between start and end. */
  predicate Moments(at: seq<nat>, start: nat, end: nat) {
    && at != [] && start <= at[0] && at[|at| - 1] <= end
    && forall i, j :: 0 <= i < j < |at| ==> at[i] <= at[j]
  }

  // ---------- ORDER BY a numeric key ----------

  predicate Increasing(xs: seq<nat>) {
    forall i, j :: 0 <= i < j < |xs| ==> xs[i] < xs[j]
  }

  lemma HasMin(s: set<nat>)
    requires s != {}
    ensures exists k :: k in s && forall j :: j in s ==> k <= j
  {
    var k :| k in s;
    if s - {k} != {} {
      HasMin(s - {k});
      var m :| m in s - {k} && forall j :: j in s - {k} ==> m <= j;
      assert forall j :: j in s ==> j == k || j in s - {k};
      var least := if k < m then k else m;
      assert least in s && forall j :: j in s ==> least <= j;
    } else {
      assert s == {k};
    }
  }

  function Ascending(s: set<nat>): (r: seq<nat>)
    ensures Increasing(r)
    ensures forall k :: k in r <==> k in s
  {
    if s == {} then []
    else
      HasMin(s);
      var k :| k in s && forall j :: j in s ==> k <= j;
      [k] + Ascending(s - {k})
  }

  lemma {:induction false} IncreasingUnique(a: seq<nat>, b: seq<nat>)
    requires Increasing(a) && Increasing(b) && forall k :: k in a <==> k in b
    ensures a == b
  {
    assert b != [] ==> b[0] in b;
    if a != [] {
      assert a[0] in b && b[0] in a;
      assert a == [a[0]] + a[1..] && b == [b[0]] + b[1..];
      assert a[0] == b[0];
      forall k
        ensures k in a[1..] <==> k in b[1..]
      {
        assert k in a <==> k in b;
        assert k in a[1..] ==> k > a[0];
        assert k in b[1..] ==> k > b[0];
      }
      IncreasingUnique(a[1..], b[1..]);
    }
  }

  /** The ascending order of the numbers 1 to n. */
  lemma AscendingRange(s: set<nat>, n: nat)
    requires forall k :: k in s <==> 1 <= k <= n
    ensures |Ascending(s)| == n && forall i :: 0 <= i < n ==> Ascending(s)[i] == i + 1
  {
    var range := seq(n, (i: nat) => i + 1);
    forall k
      ensures k in range <==> 1 <= k <= n
    {
      if 1 <= k <= n {
        assert range[k - 1] == k;
      }
    }
    IncreasingUnique(Ascending(s), range);
  }

  /** The values of a table keyed by number, in ascending order of the key. */
  function OrderedValues<T>(m: map<nat, T>): (r: seq<T>)
    ensures |r| == |Ascending(m.Keys)|
    ensures forall i :: 0 <= i < |r| ==> r[i] == m[Ascending(m.Keys)[i]]
  {
    var keys := Ascending(m.Keys);
    seq(|keys|, (i: nat) requires i < |keys| => m[keys[i]])
  }
}
