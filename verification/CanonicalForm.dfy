/**
 The round trip through the tables: what is read is the canonical form of what was saved, a
 canonical value is saved without change, and exactly which values come back identical.
 */
module CanonicalForm {
  import opened Wrappers
  import opened Seqs
  import opened Aggregate
  import opened Schema
  import opened Lists
  import opened AggregateRows
  import opened AggregateTables
  import opened TornReads
  import opened MatriculaStore

  /**
   Save, then get: the document has an aggregate, and unless another save of it has committed in the
   meantime it is the one just saved, in its canonical form.
   */
  method SaveThenGet(store: Matriculas, doc: DocId, m: ExtractedMatricula, meta: Meta) returns (r: Option<Response>)
    requires store.Valid() && DatesNormalized(m) && Storable(m) && doc in store.documents
    modifies store`tables, store`history
    ensures store.Valid() && |store.history| > old(|store.history|)
    ensures r.Some? && r.value.doc == doc
    ensures LastCommitted(store.history[old(|store.history|) + 1..], doc).None? ==> IsCanonical(store.collate, m, r.value.content)
    ensures store.alone ==> IsCanonical(store.collate, m, r.value.content)
  {
    var saved := store.SaveAggregate(doc, m, meta, true);
    ghost var mine := store.history;
    ghost var e, at;
    r, e, at := store.GetByDocumentID(doc);
    ReadAfterSave(mine, store.history, at, doc);
    WholeIs(store.collate, e.value.content, Answered(store.history, at, doc), r.value.content);
  }

  lemma WholeIs(leq: Collation, m: ExtractedMatricula, k: nat, g: ExtractedMatricula)
    requires IsCanonical(leq, FirstParts(m, k), g)
    ensures k == PARTS ==> IsCanonical(leq, m, g)
  {}

  /** A read after a committed save, with at most saves of other documents since. */
  lemma ReadAfterSave(mine: seq<Save>, history: seq<Save>, at: seq<nat>, doc: DocId)
    requires mine != [] && mine <= history && Moments(at, |mine|, |history|)
    requires mine[|mine| - 1].committed && mine[|mine| - 1].doc == doc
    ensures LastCommitted(history[..at[0]], doc).Some?
    ensures history == mine ==> LastCommitted(history[|mine|..], doc).None?
    ensures LastCommitted(history[|mine|..], doc).None? ==>
      LastCommitted(history[..at[0]], doc) == Some(mine[|mine| - 1].content) && Answered(history, at, doc) == |at|
  {
    var since := history[|mine|..];
    assert history[..at[0]] == mine + since[..at[0] - |mine|];
    LastOfBoth(mine, since[..at[0] - |mine|], doc);
    if LastCommitted(since, doc).None? {
      NoneInPart(since, since[..at[0] - |mine|], doc);
      NoneInPart(since, history[at[0]..at[|at| - 1]], doc);
      AllAnsweredIff(history, at, doc);
    }
  }

  // ---------- saving what was read ----------

  predicate OwnerListed(atos: seq<Ato>, p: Proprietario) {
    p.atoAquisicao == "" || Names(atos, p.atoAquisicao)
  }

  predicate OnusListed(atos: seq<Ato>, o: Onus) {
    (o.atoConstituicao == "" || Names(atos, o.atoConstituicao)) && (o.atoCancelamento == "" || Names(atos, o.atoCancelamento))
  }

  /** Every reference is empty or names a listed ato. */
  predicate RefsListed(m: ExtractedMatricula) {
    && (forall p :: p in m.proprietarios ==> OwnerListed(m.atos, p))
    && (forall o :: o in m.onus ==> OnusListed(m.atos, o))
  }

  lemma KeptIffListed(atos: seq<Ato>, p: Proprietario, o: Onus)
    ensures KeptOwner(atos, p) == p <==> OwnerListed(atos, p)
    ensures KeptOnus(atos, o) == o <==> OnusListed(atos, o)
    ensures OwnerListed(atos, KeptOwner(atos, p)) && OnusListed(atos, KeptOnus(atos, o))
  {}

  lemma CanonicalRefsListed(leq: Collation, m: ExtractedMatricula, g: ExtractedMatricula)
    requires IsCanonical(leq, m, g)
    ensures RefsListed(g)
  {
    forall p | p in g.proprietarios
      ensures OwnerListed(g.atos, p)
    {
      StoredOwnerListed(m.atos, m.proprietarios, g.proprietarios, p);
    }
    forall o | o in g.onus
      ensures OnusListed(g.atos, o)
    {
      StoredOnusListed(m.atos, m.onus, g.onus, o);
    }
  }

  lemma ListedUnchanged(m: ExtractedMatricula)
    requires RefsListed(m)
    ensures Map(KeepOwner(m.atos), m.proprietarios) == m.proprietarios && Map(KeepOnus(m.atos), m.onus) == m.onus
  {
    forall p | p in m.proprietarios
      ensures KeepOwner(m.atos)(p) == p
    {
      KeptIffListed(m.atos, p, Onus("", "", "", "", "", None, "", ""));
    }
    forall o | o in m.onus
      ensures KeepOnus(m.atos)(o) == o
    {
      KeptIffListed(m.atos, Proprietario("", "", None, "", None, ""), o);
    }
    MapIdentity(KeepOwner(m.atos), m.proprietarios);
    MapIdentity(KeepOnus(m.atos), m.onus);
  }

  /**
   Saving a value that was read and reading it again changes nothing but, at most, the order of
   owners of equal nome rank and of encumbrances of equal tipo rank.
   */
  lemma SavedAgainUnchanged(leq: Collation, m: ExtractedMatricula, g: ExtractedMatricula, h: ExtractedMatricula)
    requires IsCanonical(leq, m, g) && IsCanonical(leq, g, h)
    ensures h == g.(proprietarios := h.proprietarios, onus := h.onus)
    ensures IsOrdering(h.proprietarios, g.proprietarios, OwnerName, leq) && IsOrdering(h.onus, g.onus, OnusType, leq)
    ensures StrictlyBy(g.proprietarios, OwnerName, leq) && StrictlyBy(g.onus, OnusType, leq) ==> h == g
  {
    CanonicalRefsListed(leq, m, g);
    ListedUnchanged(g);
    if StrictlyBy(g.proprietarios, OwnerName, leq) && StrictlyBy(g.onus, OnusType, leq) {
      OrderingUnique(g.proprietarios, h.proprietarios, OwnerName, leq);
      OrderingUnique(g.onus, h.onus, OnusType, leq);
    }
  }

  /** What was read can be saved: it satisfies the same constraints as what was saved. */
  lemma CanonicalStorable(leq: Collation, m: ExtractedMatricula, g: ExtractedMatricula)
    requires IsCanonical(leq, m, g) && Storable(m) && DatesNormalized(m)
    ensures Storable(g) && DatesNormalized(g)
  {
    forall p | p in g.proprietarios
      ensures OwnerChecks(p)
    {
      StoredOwnerListed(m.atos, m.proprietarios, g.proprietarios, p);
      var i :| 0 <= i < |m.proprietarios| && KeptOwner(m.atos, m.proprietarios[i]) == p;
      assert m.proprietarios[i] in m.proprietarios;
    }
    forall o | o in g.onus
      ensures StatusChecks(o)
    {
      StoredOnusListed(m.atos, m.onus, g.onus, o);
      var i :| 0 <= i < |m.onus| && KeptOnus(m.atos, m.onus[i]) == o;
      assert m.onus[i] in m.onus;
    }
  }

  // ---------- which values come back identical ----------

  /** Whatever has passed through the tables has listed references. */
  lemma StoredOwnerListed(atos: seq<Ato>, owners: seq<Proprietario>, read: seq<Proprietario>, p: Proprietario)
    requires multiset(read) == multiset(Map(KeepOwner(atos), owners)) && p in read
    ensures OwnerListed(atos, p)
    ensures exists i :: 0 <= i < |owners| && KeptOwner(atos, owners[i]) == p
  {
    assert p in multiset(read);
    assert p in Map(KeepOwner(atos), owners);
    var i :| 0 <= i < |owners| && Map(KeepOwner(atos), owners)[i] == p;
    assert KeptOwner(atos, owners[i]) == p;
  }

  lemma StoredOnusListed(atos: seq<Ato>, onus: seq<Onus>, read: seq<Onus>, o: Onus)
    requires multiset(read) == multiset(Map(KeepOnus(atos), onus)) && o in read
    ensures OnusListed(atos, o)
    ensures exists i :: 0 <= i < |onus| && KeptOnus(atos, onus[i]) == o
  {
    assert o in multiset(read);
    assert o in Map(KeepOnus(atos), onus);
    var i :| 0 <= i < |onus| && Map(KeepOnus(atos), onus)[i] == o;
    assert KeptOnus(atos, onus[i]) == o;
  }

  lemma UnchangedListed(m: ExtractedMatricula)
    requires multiset(m.proprietarios) == multiset(Map(KeepOwner(m.atos), m.proprietarios))
    requires multiset(m.onus) == multiset(Map(KeepOnus(m.atos), m.onus))
    ensures RefsListed(m)
  {
    forall p | p in m.proprietarios
      ensures OwnerListed(m.atos, p)
    {
      StoredOwnerListed(m.atos, m.proprietarios, m.proprietarios, p);
    }
    forall o | o in m.onus
      ensures OnusListed(m.atos, o)
    {
      StoredOnusListed(m.atos, m.onus, m.onus, o);
    }
  }

  /**
   A value is one of its own canonical forms exactly when its references are all empty or listed, its
   owners are sorted by nome, and its encumbrances by tipo. Repeated numeros do no harm.
   */
  lemma ComesBackIdenticalIff(leq: Collation, m: ExtractedMatricula)
    ensures IsCanonical(leq, m, m) <==>
      RefsListed(m) && SortedBy(m.proprietarios, OwnerName, leq) && SortedBy(m.onus, OnusType, leq)
  {
    if IsCanonical(leq, m, m) {
      UnchangedListed(m);
    }
    if RefsListed(m) {
      ListedUnchanged(m);
    }
  }

  /** All canonical forms of a value have the same owners and encumbrances; only ties may differ. */
  lemma CanonicalFormsAgree(leq: Collation, m: ExtractedMatricula, g: ExtractedMatricula, h: ExtractedMatricula)
    requires IsCanonical(leq, m, g) && IsCanonical(leq, m, h)
    ensures multiset(g.proprietarios) == multiset(h.proprietarios) && multiset(g.onus) == multiset(h.onus)
    ensures StrictlyBy(g.proprietarios, OwnerName, leq) && StrictlyBy(g.onus, OnusType, leq) ==> h == g
  {
    if StrictlyBy(g.proprietarios, OwnerName, leq) && StrictlyBy(g.onus, OnusType, leq) {
      OrderingUnique(g.proprietarios, h.proprietarios, OwnerName, leq);
      OrderingUnique(g.onus, h.onus, OnusType, leq);
    }
  }
}
