/**
 What the read queries find: the rows of one live aggregate, in an order that its ordinals fix for
 atos and partes and leave partly open for owners and encumbrances.
 */
module AggregateQueries {
  import opened Seqs
  import opened Aggregate
  import opened Lists
  import opened AggregateRows
  import opened AggregateTables

  // ---------- WHERE ----------

  function MatriculaOfDoc(doc: DocId): MatriculaRow -> bool {
    (r: MatriculaRow) => r.doc == doc
  }

  function MatriculaById(id: Id): MatriculaRow -> bool {
    (r: MatriculaRow) => r.id == id
  }

  function AtoOfMatricula(id: Id): AtoRow -> bool {
    (r: AtoRow) => r.matricula == id
  }

  /** `JOIN atos a ON a.id = p.ato_id WHERE a.matricula_id = id`; ids are unique, so no row is doubled. */
  function ParteOfMatricula(atos: seq<AtoRow>, id: Id): ParteRow -> bool {
    (r: ParteRow) => exists a :: a in atos && a.id == r.ato && a.matricula == id
  }

  function OwnerOfMatricula(id: Id): OwnerRow -> bool {
    (r: OwnerRow) => r.matricula == id
  }

  function OnusOfMatricula(id: Id): OnusRow -> bool {
    (r: OnusRow) => r.matricula == id
  }

  function Same(e: Entry): Entry -> bool {
    (f: Entry) => f == e
  }

  lemma {:induction false} FilterSame(log: seq<Entry>, e: Entry)
    requires Distinct(log) && e in log
    ensures Filter(Same(e), log) == [e]
  {
    var n := |log| - 1;
    if log[n] == e {
      forall f | f in log[..n]
        ensures f != e
      {
        var i :| 0 <= i < n && log[..n][i] == f;
        assert Apart(log[i], log[n]);
      }
      FilterNone(Same(e), log[..n]);
    } else {
      assert e in log[..n];
      FilterSame(log[..n], e);
    }
  }

  /** A condition that holds of exactly the rows of e selects exactly those, in table order. */
  lemma SelectsOne<T(!new)>(p: T -> bool, rowsOf: Entry -> seq<T>, log: seq<Entry>, e: Entry)
    requires Distinct(log) && e in log
    requires forall f, x :: f in log && x in rowsOf(f) ==> p(x) == Same(e)(f)
    ensures Filter(p, Flatten(rowsOf, log)) == rowsOf(e)
  {
    FilterFlatten(p, rowsOf, Same(e), log);
    FilterSame(log, e);
    FlattenOne(rowsOf, e);
  }

  lemma TheMatricula(s: Store, log: seq<Entry>, e: Entry)
    requires Represents(s, log) && e in log
    ensures Filter(MatriculaOfDoc(e.doc), s.matriculas) == [MatriculaRowOf(e)]
    ensures Filter(MatriculaById(e.matricula), s.matriculas) == [MatriculaRowOf(e)]
  {
    forall f, x | f in log && x in MatriculaRows(f)
      ensures MatriculaOfDoc(e.doc)(x) == Same(e)(f) && MatriculaById(e.matricula)(x) == Same(e)(f)
    {
      DistinctIds(log, e, f);
    }
    SelectsOne(MatriculaOfDoc(e.doc), MatriculaRows, log, e);
    SelectsOne(MatriculaById(e.matricula), MatriculaRows, log, e);
  }

  /** A row selected from matriculas is the row of a live aggregate. */
  lemma MatriculaOwner(s: Store, log: seq<Entry>, r: MatriculaRow) returns (e: Entry)
    requires Represents(s, log) && r in s.matriculas
    ensures e in log && r == MatriculaRowOf(e)
  {
    FlattenMember(MatriculaRows, log, r);
    e :| e in log && r in MatriculaRows(e);
  }

  lemma TheAtos(s: Store, log: seq<Entry>, e: Entry)
    requires Represents(s, log) && e in log
    ensures Filter(AtoOfMatricula(e.matricula), s.atos) == AtoRows(e)
  {
    forall f, x | f in log && x in AtoRows(f)
      ensures AtoOfMatricula(e.matricula)(x) == Same(e)(f)
    {
      AtoRowsMember(f, x);
      DistinctIds(log, e, f);
    }
    SelectsOne(AtoOfMatricula(e.matricula), AtoRows, log, e);
  }

  lemma ParteIsOf(s: Store, log: seq<Entry>, e: Entry, f: Entry, x: ParteRow)
    requires Represents(s, log) && e in log && f in log && x in ParteRows(f)
    ensures ParteOfMatricula(s.atos, e.matricula)(x) == (f == e)
  {
    ParteRowsMember(f.firstAto, f.content.atos, x);
    var row := AtoPresent(s, log, f, x.ato);
    DistinctIds(log, e, f);
    if ParteOfMatricula(s.atos, e.matricula)(x) {
      var a :| a in s.atos && a.id == x.ato && a.matricula == e.matricula;
      var g := AtoOwner(s, log, a);
      DistinctIds(log, f, g);
    }
  }

  lemma ThePartes(s: Store, log: seq<Entry>, e: Entry)
    requires Represents(s, log) && e in log
    ensures Filter(ParteOfMatricula(s.atos, e.matricula), s.partes) == ParteRows(e)
  {
    forall f, x | f in log && x in ParteRows(f)
      ensures ParteOfMatricula(s.atos, e.matricula)(x) == Same(e)(f)
    {
      ParteIsOf(s, log, e, f, x);
    }
    SelectsOne(ParteOfMatricula(s.atos, e.matricula), ParteRows, log, e);
  }

  lemma TheOwners(s: Store, log: seq<Entry>, e: Entry)
    requires Represents(s, log) && e in log
    ensures Filter(OwnerOfMatricula(e.matricula), s.owners) == OwnerRows(e)
  {
    forall f, x | f in log && x in OwnerRows(f)
      ensures OwnerOfMatricula(e.matricula)(x) == Same(e)(f)
    {
      OwnerRowsMember(f, x);
      DistinctIds(log, e, f);
    }
    SelectsOne(OwnerOfMatricula(e.matricula), OwnerRows, log, e);
  }

  lemma TheOnus(s: Store, log: seq<Entry>, e: Entry)
    requires Represents(s, log) && e in log
    ensures Filter(OnusOfMatricula(e.matricula), s.onus) == OnusRows(e)
  {
    forall f, x | f in log && x in OnusRows(f)
      ensures OnusOfMatricula(e.matricula)(x) == Same(e)(f)
    {
      OnusRowsMember(f, x);
      DistinctIds(log, e, f);
    }
    SelectsOne(OnusOfMatricula(e.matricula), OnusRows, log, e);
  }

  // ---------- ORDER BY seq ----------

  function NatLeq(a: nat, b: nat): bool {
    a <= b
  }

  function AtoOrdinal(r: AtoRow): nat {
    r.ordinal
  }

  lemma AtosInOrder(e: Entry, rows: seq<AtoRow>)
    requires IsOrdering(rows, AtoRows(e), AtoOrdinal, NatLeq)
    ensures rows == AtoRows(e)
  {
    OrderingUnique(AtoRows(e), rows, AtoOrdinal, NatLeq);
  }

  /** The ordinal of the ato with the given id. */
  function OrdinalOf(atos: seq<AtoRow>, id: Id): nat {
    if atos == [] then 0
    else
      var last := atos[|atos| - 1];
      if last.id == id then last.ordinal else OrdinalOf(atos[..|atos| - 1], id)
  }

  lemma {:induction false} OrdinalFrom(atos: seq<AtoRow>, id: Id)
    requires exists r :: r in atos && r.id == id
    ensures exists r :: r in atos && r.id == id && r.ordinal == OrdinalOf(atos, id)
  {
    var n := |atos| - 1;
    if atos[n].id != id {
      var r :| r in atos && r.id == id;
      assert r in atos[..n];
      OrdinalFrom(atos[..n], id);
      var q :| q in atos[..n] && q.id == id && q.ordinal == OrdinalOf(atos[..n], id);
      assert q in atos;
    } else {
      assert atos[n] in atos;
    }
  }

  lemma OrdinalIs(s: Store, log: seq<Entry>, e: Entry, id: Id)
    requires Represents(s, log) && e in log && AtoIdOf(e, id)
    ensures OrdinalOf(s.atos, id) == id - e.firstAto + 1
  {
    var row := AtoPresent(s, log, e, id);
    OrdinalFrom(s.atos, id);
    var r :| r in s.atos && r.id == id && r.ordinal == OrdinalOf(s.atos, id);
    var f := AtoOwner(s, log, r);
    DistinctIds(log, e, f);
  }

  datatype Rank = Rank(ato: nat, parte: nat)

  function RankLeq(a: Rank, b: Rank): bool {
    a.ato < b.ato || (a.ato == b.ato && a.parte <= b.parte)
  }

  lemma RankIsPreorder()
    ensures TotalPreorder(RankLeq) && TotalPreorder(NatLeq)
  {}

  /** `ORDER BY a.seq, p.seq` */
  function ParteRank(atos: seq<AtoRow>): ParteRow -> Rank {
    (r: ParteRow) => Rank(OrdinalOf(atos, r.ato), r.ordinal)
  }

  /** x comes strictly before y in an aggregate's partes. */
  predicate Before(x: ParteRow, y: ParteRow) {
    x.ato < y.ato || (x.ato == y.ato && x.ordinal < y.ordinal)
  }

  predicate InOrder(rows: seq<ParteRow>) {
    forall i, j :: 0 <= i < j < |rows| ==> Before(rows[i], rows[j])
  }

  lemma InOrderAppend(head: seq<ParteRow>, tail: seq<ParteRow>, bound: Id)
    requires InOrder(head) && InOrder(tail)
    requires forall r :: r in head ==> r.ato < bound
    requires forall r :: r in tail ==> r.ato >= bound
    ensures InOrder(head + tail)
  {
    var rows := head + tail;
    forall i, j | 0 <= i < j < |rows|
      ensures Before(rows[i], rows[j])
    {
      if j < |head| {
        assert rows[i] == head[i] && rows[j] == head[j];
      } else if i < |head| {
        assert rows[i] in head && rows[j] in tail;
      } else {
        assert rows[i] == tail[i - |head|] && rows[j] == tail[j - |head|];
      }
    }
  }

  lemma {:induction false} PartesOrdered(first: Id, atos: seq<Ato>)
    ensures InOrder(ParteRowsTo(first, atos))
  {
    if atos != [] {
      var n := |atos| - 1;
      PartesOrdered(first, atos[..n]);
      var head, tail := ParteRowsTo(first, atos[..n]), ParteRowsOf(first + n, atos[n].partes);
      forall r | r in head
        ensures r.ato < first + n
      {
        ParteRowsMember(first, atos[..n], r);
      }
      InOrderAppend(head, tail, first + n);
    }
  }

  lemma PartesInOrder(s: Store, log: seq<Entry>, e: Entry, rows: seq<ParteRow>)
    requires Represents(s, log) && e in log
    requires IsOrdering(rows, ParteRows(e), ParteRank(s.atos), RankLeq)
    ensures rows == ParteRows(e)
  {
    var own := ParteRows(e);
    PartesOrdered(e.firstAto, e.content.atos);
    forall i, j | 0 <= i < j < |own|
      ensures !RankLeq(ParteRank(s.atos)(own[j]), ParteRank(s.atos)(own[i]))
    {
      assert own[i] in own && own[j] in own;
      assert InOrder(own) && Before(own[i], own[j]);
      ParteRowsMember(e.firstAto, e.content.atos, own[i]);
      ParteRowsMember(e.firstAto, e.content.atos, own[j]);
      OrdinalIs(s, log, e, own[i].ato);
      OrdinalIs(s, log, e, own[j].ato);
    }
    OrderingUnique(own, rows, ParteRank(s.atos), RankLeq);
  }

  // ---------- grouping partes by ato ----------

  function ParteOfAto(id: Id): ParteRow -> bool {
    (r: ParteRow) => r.ato == id
  }

  /** The partes that the map by ato id holds for one ato. */
  function Grouped(rows: seq<ParteRow>, id: Id): seq<Parte> {
    Map(ParteOf, Filter(ParteOfAto(id), rows))
  }

  lemma GroupedMore(rows: seq<ParteRow>, r: ParteRow, id: Id)
    ensures Grouped(rows + [r], id) == if r.ato == id then Grouped(rows, id) + [ParteOf(r)] else Grouped(rows, id)
  {
    assert (rows + [r])[..|rows|] == rows;
    var kept := Filter(ParteOfAto(id), rows);
    assert (kept + [r])[..|kept|] == kept;
  }

  lemma PartesDecoded(ato: Id, partes: seq<Parte>)
    ensures Map(ParteOf, ParteRowsOf(ato, partes)) == partes
  {}

  lemma MapAppend<T, U>(f: T -> U, xs: seq<T>, ys: seq<T>)
    ensures Map(f, xs + ys) == Map(f, xs) + Map(f, ys)
  {
    MapUnique(f, xs + ys, Map(f, xs) + Map(f, ys));
  }

  lemma GroupedAppend(head: seq<ParteRow>, tail: seq<ParteRow>, id: Id)
    ensures Grouped(head + tail, id) == Grouped(head, id) + Grouped(tail, id)
  {
    FilterAppend(ParteOfAto(id), head, tail);
    MapAppend(ParteOf, Filter(ParteOfAto(id), head), Filter(ParteOfAto(id), tail));
  }

  lemma GroupedNone(rows: seq<ParteRow>, id: Id)
    requires forall r :: r in rows ==> r.ato != id
    ensures Grouped(rows, id) == []
  {
    FilterNone(ParteOfAto(id), rows);
  }

  lemma GroupedOwn(ato: Id, partes: seq<Parte>)
    ensures Grouped(ParteRowsOf(ato, partes), ato) == partes
  {
    FilterAll(ParteOfAto(ato), ParteRowsOf(ato, partes));
    PartesDecoded(ato, partes);
  }

  lemma GroupedStep(head: seq<ParteRow>, ato: Id, partes: seq<Parte>, id: Id)
    requires (forall r :: r in head ==> r.ato < ato) && id <= ato
    ensures Grouped(head + ParteRowsOf(ato, partes), id) == if id == ato then partes else Grouped(head, id)
  {
    var tail := ParteRowsOf(ato, partes);
    GroupedAppend(head, tail, id);
    if id == ato {
      GroupedNone(head, id);
      GroupedOwn(ato, partes);
    } else {
      GroupedNone(tail, id);
    }
  }

  /** What grouping gives one ato. */
  predicate GroupsTo(rows: seq<ParteRow>, id: Id, partes: seq<Parte>) {
    Grouped(rows, id) == partes
  }

  lemma ParteRowsLast(first: Id, atos: seq<Ato>) returns (head: seq<ParteRow>)
    requires atos != []
    ensures var n := |atos| - 1;
      && head == ParteRowsTo(first, atos[..n])
      && ParteRowsTo(first, atos) == head + ParteRowsOf(first + n, atos[n].partes)
      && forall r :: r in head ==> r.ato < first + n
  {
    var n := |atos| - 1;
    head := ParteRowsTo(first, atos[..n]);
    forall r | r in head
      ensures r.ato < first + n
    {
      ParteRowsMember(first, atos[..n], r);
    }
  }

  lemma GroupsStep(rows: seq<ParteRow>, head: seq<ParteRow>, ato: Id, partes: seq<Parte>, id: Id, own: seq<Parte>)
    requires rows == head + ParteRowsOf(ato, partes) && (forall r :: r in head ==> r.ato < ato) && id <= ato
    requires if id == ato then own == partes else GroupsTo(head, id, own)
    ensures GroupsTo(rows, id, own)
  {
    GroupedStep(head, ato, partes, id);
  }

  /** Grouping gives every ato its own partes, in their order. */
  lemma {:induction false} GroupedIs(first: Id, atos: seq<Ato>, rows: seq<ParteRow>, i: nat)
    requires i < |atos| && rows == ParteRowsTo(first, atos)
    ensures GroupsTo(rows, first + i, atos[i].partes)
  {
    var n := |atos| - 1;
    var head := ParteRowsLast(first, atos);
    if i < n {
      GroupedIs(first, atos[..n], head, i);
    }
    GroupsStep(rows, head, first + n, atos[n].partes, first + i, atos[i].partes);
  }

  // ---------- owners and encumbrances ----------

  lemma {:induction false} MapMultiset<T, U>(f: T -> U, xs: seq<T>, ys: seq<T>)
    requires multiset(xs) == multiset(ys)
    ensures multiset(Map(f, xs)) == multiset(Map(f, ys))
    decreases |xs|
  {
    assert |multiset(xs)| == |xs| && |multiset(ys)| == |ys|;
    if xs != [] {
      var n := |xs| - 1;
      assert xs[n] in multiset(xs);
      assert xs[n] in ys;
      var k :| 0 <= k < |ys| && ys[k] == xs[n];
      var rest := ys[..k] + ys[k + 1..];
      Without(ys, k);
      assert xs == xs[..n] + [xs[n]];
      assert multiset(xs[..n]) == multiset(xs) - multiset{xs[n]};
      MapMultiset(f, xs[..n], rest);
      MapWithout(f, ys, k);
    }
  }

  lemma Without<T>(ys: seq<T>, k: nat)
    requires k < |ys|
    ensures multiset(ys[..k] + ys[k + 1..]) == multiset(ys) - multiset{ys[k]}
  {
    assert ys == ys[..k] + [ys[k]] + ys[k + 1..];
  }

  lemma Removed<T, U>(f: T -> U, ys: seq<T>, all: seq<U>, k: nat)
    requires k < |ys| == |all| && forall i :: 0 <= i < |ys| ==> all[i] == f(ys[i])
    ensures var rest, images := ys[..k] + ys[k + 1..], all[..k] + all[k + 1..];
      |images| == |rest| && forall i :: 0 <= i < |rest| ==> images[i] == f(rest[i])
  {
    var rest := ys[..k] + ys[k + 1..];
    assert forall i :: 0 <= i < |rest| ==> rest[i] == ys[if i < k then i else i + 1];
  }

  lemma MapRemoved<T, U>(f: T -> U, ys: seq<T>, k: nat)
    requires k < |ys|
    ensures Map(f, ys)[..k] + Map(f, ys)[k + 1..] == Map(f, ys[..k] + ys[k + 1..])
  {
    var all := Map(f, ys);
    Removed(f, ys, all, k);
    MapUnique(f, ys[..k] + ys[k + 1..], all[..k] + all[k + 1..]);
  }

  lemma MapWithout<T, U>(f: T -> U, ys: seq<T>, k: nat)
    requires k < |ys|
    ensures multiset(Map(f, ys)) == multiset(Map(f, ys[..k] + ys[k + 1..])) + multiset{f(ys[k])}
  {
    MapRemoved(f, ys, k);
    AddBack(Map(f, ys), k);
  }

  lemma AddBack<T>(ys: seq<T>, k: nat)
    requires k < |ys|
    ensures multiset(ys) == multiset(ys[..k] + ys[k + 1..]) + multiset{ys[k]}
  {
    assert ys == ys[..k] + [ys[k]] + ys[k + 1..];
  }
}
