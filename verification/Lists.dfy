/** Filtering, concatenating and sorting lists of rows: the bulk operations of SQL on a table. */
module Lists {

  function Filter<T(!new)>(p: T -> bool, xs: seq<T>): (r: seq<T>)
    ensures |r| <= |xs|
    ensures forall x :: x in r <==> x in xs && p(x)
  {
    if xs == [] then []
    else
      var rest := Filter(p, xs[..|xs| - 1]);
      if p(xs[|xs| - 1]) then rest + [xs[|xs| - 1]] else rest
  }

  lemma {:induction false} FilterAppend<T(!new)>(p: T -> bool, xs: seq<T>, ys: seq<T>)
    ensures Filter(p, xs + ys) == Filter(p, xs) + Filter(p, ys)
  {
    if ys == [] {
      assert xs + ys == xs;
    } else {
      var n := |ys| - 1;
      assert (xs + ys)[..|xs + ys| - 1] == xs + ys[..n];
      FilterAppend(p, xs, ys[..n]);
    }
  }

  lemma {:induction false} FilterAll<T(!new)>(p: T -> bool, xs: seq<T>)
    requires forall x :: x in xs ==> p(x)
    ensures Filter(p, xs) == xs
  {
    if xs != [] {
      FilterAll(p, xs[..|xs| - 1]);
    }
  }

  lemma {:induction false} FilterNone<T(!new)>(p: T -> bool, xs: seq<T>)
    requires forall x :: x in xs ==> !p(x)
    ensures Filter(p, xs) == []
  {
    if xs != [] {
      FilterNone(p, xs[..|xs| - 1]);
    }
  }

  /** The rows of all the items, item after item. */
  function Flatten<E, T>(f: E -> seq<T>, items: seq<E>): seq<T> {
    if items == [] then [] else Flatten(f, items[..|items| - 1]) + f(items[|items| - 1])
  }

  lemma {:induction false} FlattenMember<E(!new), T(!new)>(f: E -> seq<T>, items: seq<E>, x: T)
    ensures x in Flatten(f, items) <==> exists e :: e in items && x in f(e)
  {
    if items != [] {
      FlattenMember(f, items[..|items| - 1], x);
      assert items == items[..|items| - 1] + [items[|items| - 1]];
    }
  }

  /** If the rows of an item are all kept or all dropped, filtering the rows filters the items. */
  lemma {:induction false} FilterFlatten<E(!new), T(!new)>(p: T -> bool, f: E -> seq<T>, keep: E -> bool, items: seq<E>)
    requires forall e, x :: e in items && x in f(e) ==> p(x) == keep(e)
    ensures Filter(p, Flatten(f, items)) == Flatten(f, Filter(keep, items))
  {
    if items != [] {
      var n := |items| - 1;
      var last := items[n];
      FilterFlatten(p, f, keep, items[..n]);
      FilterAppend(p, Flatten(f, items[..n]), f(last));
      if keep(last) {
        FilterAll(p, f(last));
        var kept := Filter(keep, items[..n]) + [last];
        assert kept[..|kept| - 1] == Filter(keep, items[..n]);
      } else {
        FilterNone(p, f(last));
      }
    }
  }

  lemma FlattenOne<E, T>(f: E -> seq<T>, e: E)
    ensures Flatten(f, [e]) == f(e)
  {
    assert [e][..0] == [];
  }

  lemma FlattenMore<E, T>(f: E -> seq<T>, items: seq<E>, e: E)
    ensures Flatten(f, items + [e]) == Flatten(f, items) + f(e)
  {
    assert (items + [e])[..|items|] == items;
  }

  // ---------- sorting ----------

  /** A total preorder: equal rank does not mean equal. */
  ghost predicate TotalPreorder<K(!new)>(leq: (K, K) -> bool) {
    && (forall a, b :: leq(a, b) || leq(b, a))
    && (forall a, b, c :: leq(a, b) && leq(b, c) ==> leq(a, c))
  }

  predicate SortedBy<T, K>(xs: seq<T>, key: T -> K, leq: (K, K) -> bool) {
    forall i, j :: 0 <= i < j < |xs| ==> leq(key(xs[i]), key(xs[j]))
  }

  /** One result of ORDER BY: the same rows, sorted; rows of equal rank may come in any order. */
  ghost predicate IsOrdering<T, K>(r: seq<T>, rows: seq<T>, key: T -> K, leq: (K, K) -> bool) {
    multiset(r) == multiset(rows) && SortedBy(r, key, leq)
  }

  method OrderBy<T(==), K(!new)>(rows: seq<T>, key: T -> K, leq: (K, K) -> bool) returns (r: seq<T>)
    requires TotalPreorder(leq)
    ensures IsOrdering(r, rows, key, leq)
  {
    r := [];
    for i := 0 to |rows|
      invariant multiset(r) == multiset(rows[..i]) && SortedBy(r, key, leq)
    {
      var k := Position(r, key, leq, rows[i]);
      assert rows[..i + 1] == rows[..i] + [rows[i]];
      InsertedSorted(r, key, leq, rows[i], k);
      r := r[..k] + [rows[i]] + r[k..];
    }
    assert rows[..|rows|] == rows;
  }

  lemma InsertedSorted<T, K>(r: seq<T>, key: T -> K, leq: (K, K) -> bool, x: T, k: nat)
    requires k <= |r| && SortedBy(r, key, leq)
    requires forall i :: 0 <= i < k ==> leq(key(r[i]), key(x))
    requires forall i :: k <= i < |r| ==> leq(key(x), key(r[i]))
    ensures SortedBy(r[..k] + [x] + r[k..], key, leq)
    ensures multiset(r[..k] + [x] + r[k..]) == multiset(r) + multiset{x}
  {
    var t := r[..k] + [x] + r[k..];
    forall i, j | 0 <= i < j < |t|
      ensures leq(key(t[i]), key(t[j]))
    {
      assert i < k ==> t[i] == r[i];
      assert i > k ==> t[i] == r[i - 1];
      assert j < k ==> t[j] == r[j];
      assert j > k ==> t[j] == r[j - 1];
    }
    assert r == r[..k] + r[k..];
  }

  method Position<T, K(!new)>(r: seq<T>, key: T -> K, leq: (K, K) -> bool, x: T) returns (k: nat)
    requires TotalPreorder(leq) && SortedBy(r, key, leq)
    ensures k <= |r|
    ensures forall i :: 0 <= i < k ==> leq(key(r[i]), key(x))
    ensures forall i :: k <= i < |r| ==> leq(key(x), key(r[i]))
  {
    k := |r|;
    while k > 0 && leq(key(x), key(r[k - 1]))
      invariant k <= |r| && forall i :: k <= i < |r| ==> leq(key(x), key(r[i]))
    {
      k := k - 1;
    }
    if k > 0 {
      assert leq(key(r[k - 1]), key(x));
      forall i | 0 <= i < k
        ensures leq(key(r[i]), key(x))
      {
        assert i < k - 1 ==> leq(key(r[i]), key(r[k - 1]));
      }
    }
  }

  /** Sorted with no two rows of equal rank. */
  predicate StrictlyBy<T, K>(xs: seq<T>, key: T -> K, leq: (K, K) -> bool) {
    forall i, j :: 0 <= i < j < |xs| ==> !leq(key(xs[j]), key(xs[i]))
  }

  lemma SameLast<T, K>(xs: seq<T>, ys: seq<T>, key: T -> K, leq: (K, K) -> bool)
    requires multiset(xs) == multiset(ys) && |xs| == |ys| > 0 && StrictlyBy(xs, key, leq) && SortedBy(ys, key, leq)
    ensures xs[|xs| - 1] == ys[|ys| - 1]
  {
    var n := |xs| - 1;
    assert ys[n] in multiset(ys) && xs[n] in multiset(xs);
    assert ys[n] in xs && xs[n] in ys;
    var j :| 0 <= j < |xs| && xs[j] == ys[n];
    var k :| 0 <= k < |ys| && ys[k] == xs[n];
    assert k < n ==> leq(key(ys[k]), key(ys[n]));
  }

  lemma SameRest<T>(xs: seq<T>, ys: seq<T>, n: nat)
    requires multiset(xs) == multiset(ys) && |xs| == |ys| == n + 1 && xs[n] == ys[n]
    ensures multiset(xs[..n]) == multiset(ys[..n])
  {
    assert xs == xs[..n] + [xs[n]] && ys == ys[..n] + [ys[n]];
    var last := multiset{xs[n]};
    assert multiset(xs) == multiset(xs[..n]) + last && multiset(ys) == multiset(ys[..n]) + last;
    assert multiset(xs[..n]) == multiset(xs) - last && multiset(ys[..n]) == multiset(ys) - last;
  }

  /** Rows of distinct rank have only one ordering. */
  lemma {:induction false} OrderingUnique<T, K>(xs: seq<T>, ys: seq<T>, key: T -> K, leq: (K, K) -> bool)
    requires IsOrdering(ys, xs, key, leq) && StrictlyBy(xs, key, leq)
    ensures xs == ys
  {
    assert |multiset(xs)| == |xs| && |multiset(ys)| == |ys|;
    if xs != [] {
      var n := |xs| - 1;
      SameLast(xs, ys, key, leq);
      SameRest(xs, ys, n);
      OrderingUnique(xs[..n], ys[..n], key, leq);
      assert xs == xs[..n] + [xs[n]] && ys == ys[..n] + [ys[n]];
    }
  }
}
