/**
 What other saves do to a read in progress. Reading an aggregate is five queries outside a
 transaction; each finds the rows of the aggregate that the first one found, or none of them, and
 once a save of that document has committed it is none.
 */
module TornReads {
  import opened Wrappers
  import opened Seqs
  import opened Aggregate
  import opened Lists
  import opened AggregateRows
  import opened AggregateTables
  import opened AggregateQueries

  ghost predicate AllWellformed(history: seq<Save>) {
    forall save :: save in history ==> Wellformed(save)
  }

  // ---------- committed saves of one document ----------

  lemma {:induction false} NoneCommitted(history: seq<Save>, doc: DocId)
    ensures LastCommitted(history, doc).None? <==> forall save :: save in history ==> !(save.committed && save.doc == doc)
  {
    if history != [] {
      var n := |history| - 1;
      NoneCommitted(history[..n], doc);
      assert history == history[..n] + [history[n]];
    }
  }

  lemma NoneInPart(history: seq<Save>, part: seq<Save>, doc: DocId)
    requires LastCommitted(history, doc).None? && forall save :: save in part ==> save in history
    ensures LastCommitted(part, doc).None?
  {
    NoneCommitted(history, doc);
    NoneCommitted(part, doc);
  }

  lemma {:induction false} LastOfBoth(first: seq<Save>, more: seq<Save>, doc: DocId)
    ensures LastCommitted(first + more, doc)
         == if LastCommitted(more, doc).Some? then LastCommitted(more, doc) else LastCommitted(first, doc)
  {
    if more == [] {
      assert first + more == first;
    } else {
      var n := |more| - 1;
      LastOfBoth(first, more[..n], doc);
      assert (first + more)[..|first + more| - 1] == first + more[..n];
    }
  }

  // ---------- what later saves leave of an aggregate ----------

  /** No live aggregate has this id. */
  ghost predicate Gone(log: seq<Entry>, id: Id) {
    forall f :: f in log ==> f.matricula != id
  }

  lemma LiveKeepsOrDrops(s: Store, log: seq<Entry>, e: Entry, f: Entry)
    requires Represents(s, log) && f.matricula > e.matricula
    ensures e in log && f.doc != e.doc ==> e in Live(log, f)
    ensures e in log && f.doc == e.doc ==> Gone(Live(log, f), e.matricula)
    ensures Gone(log, e.matricula) ==> Gone(Live(log, f), e.matricula)
  {
    if e in log {
      forall g | g in log && g.matricula == e.matricula
        ensures g == e
      {
        DistinctIds(log, e, g);
      }
    }
  }

  lemma NextGrows(s: Store, save: Save)
    ensures AggregateTables.After(s, save).next >= s.next
  {}

  /** More saves leave a live aggregate alone, or one of them replaces it and its id is never seen again. */
  lemma {:induction false} KeptOrGone(first: seq<Save>, more: seq<Save>, e: Entry)
    requires AllWellformed(first + more) && e in LogOf(first)
    ensures e.matricula < AfterAll(first + more).next
    ensures LastCommitted(more, e.doc).None? ==> e in LogOf(first + more)
    ensures LastCommitted(more, e.doc).Some? ==> Gone(LogOf(first + more), e.matricula)
  {
    if more == [] {
      assert first + more == first;
      NoResidue(first);
      assert Sane(AfterAll(first), e);
    } else {
      var n := |more| - 1;
      var before := first + more[..n];
      assert (first + more)[..|first + more| - 1] == before && (first + more)[|first + more| - 1] == more[n];
      KeptOrGone(first, more[..n], e);
      NoResidue(before);
      NextGrows(AfterAll(before), more[n]);
      LiveKeepsOrDrops(AfterAll(before), LogOf(before), e, NewEntry(AfterAll(before), more[n].doc, more[n].content));
    }
  }

  // ---------- queries by the id of a replaced aggregate ----------

  lemma {:induction false} FlattenNone<E(!new), T(!new)>(p: T -> bool, f: E -> seq<T>, items: seq<E>)
    requires forall e, x :: e in items && x in f(e) ==> !p(x)
    ensures Filter(p, Flatten(f, items)) == []
  {
    forall x | x in Flatten(f, items)
      ensures !p(x)
    {
      FlattenMember(f, items, x);
    }
    FilterNone(p, Flatten(f, items));
  }

  lemma NoAtos(s: Store, log: seq<Entry>, id: Id)
    requires Represents(s, log) && Gone(log, id)
    ensures Filter(AtoOfMatricula(id), s.atos) == []
  {
    forall f, x | f in log && x in AtoRows(f)
      ensures !AtoOfMatricula(id)(x)
    {
      AtoRowsMember(f, x);
    }
    FlattenNone(AtoOfMatricula(id), AtoRows, log);
  }

  lemma NoPartes(s: Store, log: seq<Entry>, id: Id)
    requires Represents(s, log) && Gone(log, id)
    ensures Filter(ParteOfMatricula(s.atos, id), s.partes) == []
  {
    forall x | x in s.partes
      ensures !ParteOfMatricula(s.atos, id)(x)
    {
      forall a | a in s.atos
        ensures a.matricula != id
      {
        var f := AtoOwner(s, log, a);
      }
    }
    FilterNone(ParteOfMatricula(s.atos, id), s.partes);
  }

  lemma NoOwners(s: Store, log: seq<Entry>, id: Id)
    requires Represents(s, log) && Gone(log, id)
    ensures Filter(OwnerOfMatricula(id), s.owners) == []
  {
    forall f, x | f in log && x in OwnerRows(f)
      ensures !OwnerOfMatricula(id)(x)
    {
      OwnerRowsMember(f, x);
    }
    FlattenNone(OwnerOfMatricula(id), OwnerRows, log);
  }

  lemma NoOnus(s: Store, log: seq<Entry>, id: Id)
    requires Represents(s, log) && Gone(log, id)
    ensures Filter(OnusOfMatricula(id), s.onus) == []
  {
    forall f, x | f in log && x in OnusRows(f)
      ensures !OnusOfMatricula(id)(x)
    {
      OnusRowsMember(f, x);
    }
    FlattenNone(OnusOfMatricula(id), OnusRows, log);
  }

  // ---------- how many queries find their rows ----------

  /**
   The number of queries before the first committed save of the document since the first query. The
   moment of a query is the number of saves called before it.
   */
  function Answered(history: seq<Save>, at: seq<nat>, doc: DocId): nat
    requires Moments(at, 0, |history|)
    decreases |at|
  {
    if |at| == 1 then 1
    else if LastCommitted(history[at[0]..at[|at| - 1]], doc).None? then |at|
    else
      assert Moments(at[..|at| - 1], 0, |history|);
      Answered(history, at[..|at| - 1], doc)
  }

  lemma {:induction false} AnsweredStable(history: seq<Save>, later: seq<Save>, at: seq<nat>, doc: DocId)
    requires Moments(at, 0, |history|) && history <= later
    ensures Moments(at, 0, |later|) && Answered(later, at, doc) == Answered(history, at, doc)
    decreases |at|
  {
    assert later[at[0]..at[|at| - 1]] == history[at[0]..at[|at| - 1]];
    if |at| > 1 {
      AnsweredStable(history, later, at[..|at| - 1], doc);
    }
  }

  lemma {:induction false} AnsweredBounds(history: seq<Save>, at: seq<nat>, doc: DocId)
    requires Moments(at, 0, |history|)
    ensures 1 <= Answered(history, at, doc) <= |at|
    decreases |at|
  {
    if |at| > 1 {
      AnsweredBounds(history, at[..|at| - 1], doc);
    }
  }

  /** All queries are answered exactly when no save of the document commits between the first and the last. */
  lemma AllAnsweredIff(history: seq<Save>, at: seq<nat>, doc: DocId)
    requires Moments(at, 0, |history|)
    ensures Answered(history, at, doc) == |at| <==> LastCommitted(history[at[0]..at[|at| - 1]], doc).None?
  {
    if |at| == 1 {
      assert history[at[0]..at[0]] == [];
    } else {
      AnsweredBounds(history, at[..|at| - 1], doc);
    }
  }

  /** Without any save since the first query, all are answered. */
  lemma NothingHappened(history: seq<Save>, at: seq<nat>, doc: DocId)
    requires Moments(at, |history|, |history|)
    ensures Answered(history, at, doc) == |at|
  {
    AllAnsweredIff(history, at, doc);
  }

  /** One more query, at the end of the history so far. */
  lemma OneMoreQuery(history: seq<Save>, at: seq<nat>, doc: DocId)
    requires Moments(at, 0, |history|)
    ensures Moments(at + [|history|], 0, |history|)
    ensures Answered(history, at + [|history|], doc)
         == if LastCommitted(history[at[0]..], doc).None? then |at| + 1 else Answered(history, at, doc)
    ensures LastCommitted(history[at[0]..], doc).None? ==> Answered(history, at, doc) == |at|
  {
    var more := at + [|history|];
    assert more[..|more| - 1] == at && history[at[0]..|history|] == history[at[0]..];
    AllAnsweredIff(history, at, doc);
    if LastCommitted(history[at[0]..], doc).None? {
      NoneInPart(history[at[0]..], history[at[0]..at[|at| - 1]], doc);
    }
  }
}
