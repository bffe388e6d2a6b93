/**
 The tables of the aggregate store as a whole: what a delete cascades to, what a save leaves, and
 the representation invariant that every row belongs to exactly one live aggregate.
 */
module AggregateTables {
  import opened Wrappers
  import opened Seqs
  import opened Aggregate
  import opened Schema
  import opened Lists
  import opened AggregateRows

  // ---------- the invariant ----------

  /** Different documents, different matrículas, ato ids that do not overlap. */
  predicate Apart(a: Entry, b: Entry) {
    && a.doc != b.doc && a.matricula < b.matricula
    && a.firstAto + |a.content.atos| <= b.firstAto
  }

  ghost predicate Distinct(log: seq<Entry>) {
    forall i, j :: 0 <= i < j < |log| ==> Apart(log[i], log[j])
  }

  /** The document's latest extraction. */
  function LastExtraction(rows: seq<ExtractionRow>, doc: DocId): Option<Id> {
    if rows == [] then None
    else
      var n := |rows| - 1;
      if rows[n].doc == doc then Some(rows[n].id) else LastExtraction(rows[..n], doc)
  }

  predicate Sane(s: Store, e: Entry) {
    && e.matricula < s.next && e.firstAto + |e.content.atos| <= s.next
    && LastExtraction(s.extractions, e.doc) == Some(e.extraction)
    && DatesNormalized(e.content) && Storable(e.content)
  }

  /** The tables hold the rows of the live aggregates, aggregate after aggregate, and nothing else. */
  ghost predicate Represents(s: Store, log: seq<Entry>) {
    && s.matriculas == Flatten(MatriculaRows, log)
    && s.atos == Flatten(AtoRows, log)
    && s.partes == Flatten(ParteRows, log)
    && s.owners == Flatten(OwnerRows, log)
    && s.onus == Flatten(OnusRows, log)
    && Distinct(log)
    && (forall e :: e in log ==> Sane(s, e))
  }

  // ---------- whose row is it ----------

  predicate AtoIdOf(e: Entry, id: Id) {
    e.firstAto <= id < e.firstAto + |e.content.atos|
  }

  predicate RefOf(e: Entry, ref: Option<Id>) {
    ref.Some? ==> AtoIdOf(e, ref.value)
  }

  lemma AtoRowsMember(e: Entry, r: AtoRow)
    requires r in AtoRows(e)
    ensures r.matricula == e.matricula && AtoIdOf(e, r.id)
  {}

  lemma {:induction false} ParteRowsMember(first: Id, atos: seq<Ato>, r: ParteRow)
    requires r in ParteRowsTo(first, atos)
    ensures first <= r.ato < first + |atos|
  {
    var n := |atos| - 1;
    if r in ParteRowsTo(first, atos[..n]) {
      ParteRowsMember(first, atos[..n], r);
    }
  }

  lemma OwnerRowsMember(e: Entry, r: OwnerRow)
    requires r in OwnerRows(e)
    ensures r.matricula == e.matricula && RefOf(e, r.atoAquisicao)
  {
    AtoIdsFaithful(e.firstAto, e.content.atos);
  }

  lemma OnusRowsMember(e: Entry, r: OnusRow)
    requires r in OnusRows(e)
    ensures r.matricula == e.matricula && RefOf(e, r.atoConstituicao) && RefOf(e, r.atoCancelamento)
  {
    AtoIdsFaithful(e.firstAto, e.content.atos);
  }

  /** Live aggregates are told apart by their matrícula id and by any of their ato ids. */
  lemma DistinctIds(log: seq<Entry>, a: Entry, b: Entry)
    requires Distinct(log) && a in log && b in log
    ensures a.matricula == b.matricula ==> a == b
    ensures a.doc == b.doc ==> a == b
    ensures forall id :: AtoIdOf(a, id) && AtoIdOf(b, id) ==> a == b
  {
    var i :| 0 <= i < |log| && log[i] == a;
    var j :| 0 <= j < |log| && log[j] == b;
    assert i < j ==> Apart(log[i], log[j]);
    assert j < i ==> Apart(log[j], log[i]);
  }

  // ---------- DELETE FROM matriculas, with its cascades ----------

  function OtherDoc(doc: DocId): Entry -> bool {
    (e: Entry) => e.doc != doc
  }

  function MatriculaSurvives(doc: DocId): MatriculaRow -> bool {
    (r: MatriculaRow) => r.doc != doc
  }

  function AtoSurvives(mids: set<Id>): AtoRow -> bool {
    (r: AtoRow) => r.matricula !in mids
  }

  function ParteSurvives(aids: set<Id>): ParteRow -> bool {
    (r: ParteRow) => r.ato !in aids
  }

  function OwnerSurvives(mids: set<Id>): OwnerRow -> bool {
    (r: OwnerRow) => r.matricula !in mids
  }

  function OnusSurvives(mids: set<Id>): OnusRow -> bool {
    (r: OnusRow) => r.matricula !in mids
  }

  /** `ON DELETE SET NULL` */
  function Cleared(aids: set<Id>, ref: Option<Id>): Option<Id> {
    if ref.Some? && ref.value in aids then None else ref
  }

  function OwnerCleared(aids: set<Id>): OwnerRow -> OwnerRow {
    (r: OwnerRow) => r.(atoAquisicao := Cleared(aids, r.atoAquisicao))
  }

  function OnusCleared(aids: set<Id>): OnusRow -> OnusRow {
    (r: OnusRow) => r.(atoConstituicao := Cleared(aids, r.atoConstituicao), atoCancelamento := Cleared(aids, r.atoCancelamento))
  }

  function DeletedMatriculas(s: Store, doc: DocId): set<Id> {
    set r | r in s.matriculas && r.doc == doc :: r.id
  }

  function DeletedAtos(s: Store, mids: set<Id>): set<Id> {
    set r | r in s.atos && r.matricula in mids :: r.id
  }

  function Delete(s: Store, doc: DocId): Store {
    var mids := DeletedMatriculas(s, doc);
    var aids := DeletedAtos(s, mids);
    s.(matriculas := Filter(MatriculaSurvives(doc), s.matriculas),
       atos := Filter(AtoSurvives(mids), s.atos),
       partes := Filter(ParteSurvives(aids), s.partes),
       owners := Map(OwnerCleared(aids), Filter(OwnerSurvives(mids), s.owners)),
       onus := Map(OnusCleared(aids), Filter(OnusSurvives(mids), s.onus)))
  }

  lemma DeletedMatriculasAre(s: Store, log: seq<Entry>, doc: DocId, e: Entry)
    requires Represents(s, log) && e in log
    ensures e.matricula in DeletedMatriculas(s, doc) <==> e.doc == doc
  {
    FlattenMember(MatriculaRows, log, MatriculaRowOf(e));
    assert MatriculaRowOf(e) in MatriculaRows(e);
    if e.matricula in DeletedMatriculas(s, doc) {
      var r :| r in s.matriculas && r.doc == doc && r.id == e.matricula;
      FlattenMember(MatriculaRows, log, r);
      var f :| f in log && r in MatriculaRows(f);
      DistinctIds(log, e, f);
    }
  }

  /** Every ato row belongs to a live aggregate. */
  lemma AtoOwner(s: Store, log: seq<Entry>, r: AtoRow) returns (e: Entry)
    requires s.atos == Flatten(AtoRows, log) && r in s.atos
    ensures e in log && r in AtoRows(e) && r.matricula == e.matricula && AtoIdOf(e, r.id)
  {
    FlattenMember(AtoRows, log, r);
    e :| e in log && r in AtoRows(e);
    AtoRowsMember(e, r);
  }

  /** Every ato of a live aggregate has its row. */
  lemma AtoPresent(s: Store, log: seq<Entry>, e: Entry, id: Id) returns (r: AtoRow)
    requires s.atos == Flatten(AtoRows, log) && e in log && AtoIdOf(e, id)
    ensures r in s.atos && r in AtoRows(e) && r.id == id && r.matricula == e.matricula
  {
    r := AtoRows(e)[id - e.firstAto];
    assert r in AtoRows(e);
    FlattenMember(AtoRows, log, r);
  }

  lemma DeletedAtosAre(s: Store, log: seq<Entry>, doc: DocId, e: Entry, id: Id)
    requires Represents(s, log) && e in log && AtoIdOf(e, id)
    ensures id in DeletedAtos(s, DeletedMatriculas(s, doc)) <==> e.doc == doc
  {
    var mids := DeletedMatriculas(s, doc);
    DeletedMatriculasAre(s, log, doc, e);
    var row := AtoPresent(s, log, e, id);
    if id in DeletedAtos(s, mids) {
      var r :| r in s.atos && r.matricula in mids && r.id == id;
      var f := AtoOwner(s, log, r);
      DistinctIds(log, e, f);
    }
  }

  lemma MapIdentity<T>(f: T -> T, xs: seq<T>)
    requires forall x :: x in xs ==> f(x) == x
    ensures Map(f, xs) == xs
  {
    forall i | 0 <= i < |xs|
      ensures Map(f, xs)[i] == xs[i]
    {
      assert xs[i] in xs;
    }
  }

  lemma DeleteMatriculasAndAtos(s: Store, log: seq<Entry>, doc: DocId)
    requires Represents(s, log)
    ensures Delete(s, doc).matriculas == Flatten(MatriculaRows, Filter(OtherDoc(doc), log))
    ensures Delete(s, doc).atos == Flatten(AtoRows, Filter(OtherDoc(doc), log))
  {
    var mids := DeletedMatriculas(s, doc);
    FilterFlatten(MatriculaSurvives(doc), MatriculaRows, OtherDoc(doc), log);
    forall e, x | e in log && x in AtoRows(e)
      ensures AtoSurvives(mids)(x) == OtherDoc(doc)(e)
    {
      AtoRowsMember(e, x);
      DeletedMatriculasAre(s, log, doc, e);
    }
    FilterFlatten(AtoSurvives(mids), AtoRows, OtherDoc(doc), log);
  }

  lemma DeletePartes(s: Store, log: seq<Entry>, doc: DocId)
    requires Represents(s, log)
    ensures Delete(s, doc).partes == Flatten(ParteRows, Filter(OtherDoc(doc), log))
  {
    var aids := DeletedAtos(s, DeletedMatriculas(s, doc));
    forall e, x | e in log && x in ParteRows(e)
      ensures ParteSurvives(aids)(x) == OtherDoc(doc)(e)
    {
      ParteRowsMember(e.firstAto, e.content.atos, x);
      DeletedAtosAre(s, log, doc, e, x.ato);
    }
    FilterFlatten(ParteSurvives(aids), ParteRows, OtherDoc(doc), log);
  }

  /** No surviving row points at a deleted ato, so SET NULL changes nothing. */
  lemma NothingCleared(s: Store, log: seq<Entry>, doc: DocId, e: Entry, ref: Option<Id>)
    requires Represents(s, log) && e in log && e.doc != doc && RefOf(e, ref)
    ensures Cleared(DeletedAtos(s, DeletedMatriculas(s, doc)), ref) == ref
  {
    if ref.Some? {
      DeletedAtosAre(s, log, doc, e, ref.value);
    }
  }

  lemma DeleteOwners(s: Store, log: seq<Entry>, doc: DocId)
    requires Represents(s, log)
    ensures Delete(s, doc).owners == Flatten(OwnerRows, Filter(OtherDoc(doc), log))
  {
    var mids := DeletedMatriculas(s, doc);
    var aids := DeletedAtos(s, mids);
    forall e, x | e in log && x in OwnerRows(e)
      ensures OwnerSurvives(mids)(x) == OtherDoc(doc)(e)
    {
      OwnerRowsMember(e, x);
      DeletedMatriculasAre(s, log, doc, e);
    }
    FilterFlatten(OwnerSurvives(mids), OwnerRows, OtherDoc(doc), log);
    var kept := Filter(OwnerSurvives(mids), s.owners);
    forall x | x in kept
      ensures OwnerCleared(aids)(x) == x
    {
      FlattenMember(OwnerRows, Filter(OtherDoc(doc), log), x);
      var e :| e in Filter(OtherDoc(doc), log) && x in OwnerRows(e);
      OwnerRowsMember(e, x);
      NothingCleared(s, log, doc, e, x.atoAquisicao);
    }
    MapIdentity(OwnerCleared(aids), kept);
  }

  lemma DeleteOnus(s: Store, log: seq<Entry>, doc: DocId)
    requires Represents(s, log)
    ensures Delete(s, doc).onus == Flatten(OnusRows, Filter(OtherDoc(doc), log))
  {
    var mids := DeletedMatriculas(s, doc);
    var aids := DeletedAtos(s, mids);
    forall e, x | e in log && x in OnusRows(e)
      ensures OnusSurvives(mids)(x) == OtherDoc(doc)(e)
    {
      OnusRowsMember(e, x);
      DeletedMatriculasAre(s, log, doc, e);
    }
    FilterFlatten(OnusSurvives(mids), OnusRows, OtherDoc(doc), log);
    var kept := Filter(OnusSurvives(mids), s.onus);
    forall x | x in kept
      ensures OnusCleared(aids)(x) == x
    {
      FlattenMember(OnusRows, Filter(OtherDoc(doc), log), x);
      var e :| e in Filter(OtherDoc(doc), log) && x in OnusRows(e);
      OnusRowsMember(e, x);
      NothingCleared(s, log, doc, e, x.atoConstituicao);
      NothingCleared(s, log, doc, e, x.atoCancelamento);
    }
    MapIdentity(OnusCleared(aids), kept);
  }

  lemma {:induction false} FilterDistinct(p: Entry -> bool, log: seq<Entry>)
    requires Distinct(log)
    ensures Distinct(Filter(p, log))
  {
    if log != [] {
      var n := |log| - 1;
      FilterDistinct(p, log[..n]);
      forall e | e in Filter(p, log[..n])
        ensures Apart(e, log[n])
      {
        var i :| 0 <= i < n && log[..n][i] == e;
        assert Apart(log[i], log[n]);
      }
    }
  }

  /**
   Deleting a document's matrícula cascades to exactly the rows of its aggregate: what is left are
   the rows of the other live aggregates, all of them, unchanged and in place.
   */
  lemma DeleteRepresents(s: Store, log: seq<Entry>, doc: DocId)
    requires Represents(s, log)
    ensures Represents(Delete(s, doc), Filter(OtherDoc(doc), log))
  {
    DeleteMatriculasAndAtos(s, log, doc);
    DeletePartes(s, log, doc);
    DeleteOwners(s, log, doc);
    DeleteOnus(s, log, doc);
    FilterDistinct(OtherDoc(doc), log);
  }

  // ---------- a committed save ----------

  /** The ids a save is given: the next free ones. */
  function NewEntry(s: Store, doc: DocId, m: ExtractedMatricula): Entry {
    Entry(doc, s.next, s.next + 1, s.next + 2, m)
  }

  function Insert(s: Store, e: Entry): Store {
    s.(matriculas := s.matriculas + MatriculaRows(e), atos := s.atos + AtoRows(e), partes := s.partes + ParteRows(e),
       owners := s.owners + OwnerRows(e), onus := s.onus + OnusRows(e), next := s.next + 2 + |e.content.atos|)
  }

  /** The tables after a committed save: provenance appended, the old aggregate gone, the new one in. */
  function Saved(s: Store, doc: DocId, m: ExtractedMatricula, meta: Meta): Store {
    var t := s.(extractions := s.extractions + [ExtractionRow(s.next, doc, meta)]);
    Insert(Delete(t, doc), NewEntry(s, doc, m))
  }

  /** The live aggregates after a committed save. */
  function Live(log: seq<Entry>, e: Entry): seq<Entry> {
    Filter(OtherDoc(e.doc), log) + [e]
  }

  lemma InsertRepresents(t: Store, kept: seq<Entry>, e: Entry)
    requires Represents(t, kept) && e.doc !in (set f | f in kept :: f.doc)
    requires e.matricula == t.next + 1 && e.firstAto == t.next + 2
    requires LastExtraction(t.extractions, e.doc) == Some(e.extraction) && DatesNormalized(e.content) && Storable(e.content)
    ensures Represents(Insert(t, e), kept + [e])
  {
    FlattenMore(MatriculaRows, kept, e);
    FlattenMore(AtoRows, kept, e);
    FlattenMore(ParteRows, kept, e);
    FlattenMore(OwnerRows, kept, e);
    FlattenMore(OnusRows, kept, e);
    forall i, j | 0 <= i < j < |kept + [e]|
      ensures Apart((kept + [e])[i], (kept + [e])[j])
    {
      if j == |kept| {
        assert kept[i] in kept && Sane(t, kept[i]);
      } else {
        assert Apart(kept[i], kept[j]);
      }
    }
  }

  /** Provenance of a document that has no live aggregate disturbs nobody. */
  lemma ProvenanceRepresents(s: Store, log: seq<Entry>, r: ExtractionRow)
    requires Represents(s, log) && r.doc !in (set f | f in log :: f.doc)
    ensures Represents(s.(extractions := s.extractions + [r]), log)
    ensures LastExtraction(s.extractions + [r], r.doc) == Some(r.id)
  {
    var more := s.extractions + [r];
    assert more[..|s.extractions|] == s.extractions;
    forall e | e in log
      ensures Sane(s.(extractions := more), e)
    {
      assert Sane(s, e) && e.doc != r.doc;
    }
  }

  /** A committed save replaces the document's aggregate, touches no other, and appends its provenance. */
  lemma SavedRepresents(s: Store, log: seq<Entry>, doc: DocId, m: ExtractedMatricula, meta: Meta)
    requires Represents(s, log) && DatesNormalized(m) && Storable(m)
    ensures Represents(Saved(s, doc, m, meta), Live(log, NewEntry(s, doc, m)))
    ensures Saved(s, doc, m, meta).extractions == s.extractions + [ExtractionRow(s.next, doc, meta)]
  {
    var r := ExtractionRow(s.next, doc, meta);
    var rows := s.extractions + [r];
    DeleteRepresents(s, log, doc);
    var kept := Filter(OtherDoc(doc), log);
    ProvenanceRepresents(Delete(s, doc), kept, r);
    var t := Delete(s, doc).(extractions := rows);
    assert Delete(s.(extractions := rows), doc) == t;
    InsertRepresents(t, kept, NewEntry(s, doc, m));
  }

  // ---------- any sequence of saves ----------

  /** A call of SaveAggregate and whether it committed; the schema decides which cannot. */
  datatype Save = Save(doc: DocId, content: ExtractedMatricula, meta: Meta, committed: bool)

  predicate Wellformed(save: Save) {
    DatesNormalized(save.content) && (save.committed ==> Storable(save.content))
  }

  /** A call that does not commit leaves the tables as they were. */
  function After(s: Store, save: Save): Store {
    if save.committed then Saved(s, save.doc, save.content, save.meta) else s
  }

  function AfterAll(history: seq<Save>): Store {
    if history == [] then EMPTY else After(AfterAll(history[..|history| - 1]), history[|history| - 1])
  }

  function LastCommitted(history: seq<Save>, doc: DocId): Option<ExtractedMatricula> {
    if history == [] then None
    else
      var n := |history| - 1;
      if history[n].doc == doc && history[n].committed then Some(history[n].content)
      else LastCommitted(history[..n], doc)
  }

  function CommittedSaves(history: seq<Save>): nat {
    if history == [] then 0
    else CommittedSaves(history[..|history| - 1]) + (if history[|history| - 1].committed then 1 else 0)
  }

  /** The live aggregates after a sequence of saves. */
  function LogOf(history: seq<Save>): seq<Entry> {
    if history == [] then []
    else
      var n := |history| - 1;
      var save := history[n];
      if save.committed then Live(LogOf(history[..n]), NewEntry(AfterAll(history[..n]), save.doc, save.content))
      else LogOf(history[..n])
  }

  ghost predicate HasLive(log: seq<Entry>, doc: DocId) {
    exists e :: e in log && e.doc == doc
  }

  /** The live aggregates are the last committed contents, one for each document saved at all. */
  ghost predicate LiveMatches(log: seq<Entry>, history: seq<Save>) {
    && (forall e :: e in log ==> LastCommitted(history, e.doc) == Some(e.content))
    && (forall doc :: LastCommitted(history, doc).Some? ==> HasLive(log, doc))
  }

  lemma LiveMatchesStep(log: seq<Entry>, history: seq<Save>, e: Entry)
    requires history != [] && LiveMatches(log, history[..|history| - 1])
    requires var save := history[|history| - 1]; save.committed && e.doc == save.doc && e.content == save.content
    ensures LiveMatches(Live(log, e), history)
  {
    var next := Live(log, e);
    assert e in next;
    forall doc | LastCommitted(history, doc).Some?
      ensures HasLive(next, doc)
    {
      if doc != e.doc {
        assert LastCommitted(history[..|history| - 1], doc).Some?;
        assert HasLive(log, doc);
        var f :| f in log && f.doc == doc;
        assert f in next;
      }
    }
  }

  lemma LiveMatchesSkip(log: seq<Entry>, history: seq<Save>)
    requires history != [] && LiveMatches(log, history[..|history| - 1]) && !history[|history| - 1].committed
    ensures LiveMatches(log, history)
  {}

  /**
   Replacement leaves no residue: after any sequence of saves over any documents, the six tables
   are exactly the rows of the live aggregates; each document saved has one, with the content of
   its last committed save and the id of its last extraction row; and every committed save has
   left one extraction row.
   */
  lemma {:induction false} NoResidue(history: seq<Save>)
    requires forall save :: save in history ==> Wellformed(save)
    ensures Represents(AfterAll(history), LogOf(history)) && LiveMatches(LogOf(history), history)
    ensures |AfterAll(history).extractions| == CommittedSaves(history)
  {
    if history != [] {
      var n := |history| - 1;
      var save := history[n];
      assert Wellformed(save);
      NoResidue(history[..n]);
      var s, log := AfterAll(history[..n]), LogOf(history[..n]);
      if save.committed {
        SavedRepresents(s, log, save.doc, save.content, save.meta);
        LiveMatchesStep(log, history, NewEntry(s, save.doc, save.content));
      } else {
        LiveMatchesSkip(log, history);
      }
    }
  }

  // ---------- foreign keys ----------

  predicate HasMatricula(s: Store, id: Id) {
    exists r :: r in s.matriculas && r.id == id
  }

  predicate HasAto(s: Store, matricula: Id, id: Id) {
    exists r :: r in s.atos && r.id == id && r.matricula == matricula
  }

  predicate AtoRefResolves(s: Store, matricula: Id, ref: Option<Id>) {
    ref.Some? ==> HasAto(s, matricula, ref.value)
  }

  lemma HasTheMatricula(s: Store, log: seq<Entry>, e: Entry)
    requires Represents(s, log) && e in log
    ensures HasMatricula(s, e.matricula)
  {
    FlattenMember(MatriculaRows, log, MatriculaRowOf(e));
    assert MatriculaRowOf(e) in MatriculaRows(e);
  }

  lemma HasTheAto(s: Store, log: seq<Entry>, e: Entry, ref: Option<Id>)
    requires Represents(s, log) && e in log && RefOf(e, ref)
    ensures AtoRefResolves(s, e.matricula, ref)
  {
    if ref.Some? {
      var r := AtoPresent(s, log, e, ref.value);
    }
  }

  /** The foreign keys of an owner row resolve, and the ato belongs to the same matrícula. */
  lemma OwnerKeysResolve(s: Store, log: seq<Entry>, r: OwnerRow)
    requires Represents(s, log) && r in s.owners
    ensures HasMatricula(s, r.matricula) && AtoRefResolves(s, r.matricula, r.atoAquisicao)
  {
    FlattenMember(OwnerRows, log, r);
    var e :| e in log && r in OwnerRows(e);
    OwnerRowsMember(e, r);
    HasTheMatricula(s, log, e);
    HasTheAto(s, log, e, r.atoAquisicao);
  }

  lemma OnusKeysResolve(s: Store, log: seq<Entry>, r: OnusRow)
    requires Represents(s, log) && r in s.onus
    ensures HasMatricula(s, r.matricula)
    ensures AtoRefResolves(s, r.matricula, r.atoConstituicao) && AtoRefResolves(s, r.matricula, r.atoCancelamento)
  {
    FlattenMember(OnusRows, log, r);
    var e :| e in log && r in OnusRows(e);
    OnusRowsMember(e, r);
    HasTheMatricula(s, log, e);
    HasTheAto(s, log, e, r.atoConstituicao);
    HasTheAto(s, log, e, r.atoCancelamento);
  }

  lemma AtoKeysResolve(s: Store, log: seq<Entry>, r: AtoRow)
    requires Represents(s, log) && r in s.atos
    ensures HasMatricula(s, r.matricula)
  {
    var e := AtoOwner(s, log, r);
    HasTheMatricula(s, log, e);
  }

  lemma ParteKeysResolve(s: Store, log: seq<Entry>, r: ParteRow)
    requires Represents(s, log) && r in s.partes
    ensures exists a :: a in s.atos && a.id == r.ato
  {
    FlattenMember(ParteRows, log, r);
    var e :| e in log && r in ParteRows(e);
    ParteRowsMember(e.firstAto, e.content.atos, r);
    var a := AtoPresent(s, log, e, r.ato);
  }

  lemma {:induction false} LastIsThere(rows: seq<ExtractionRow>, doc: DocId)
    requires LastExtraction(rows, doc).Some?
    ensures exists r :: r in rows && r.id == LastExtraction(rows, doc).value && r.doc == doc
  {
    var n := |rows| - 1;
    if rows[n].doc != doc {
      LastIsThere(rows[..n], doc);
      var r :| r in rows[..n] && r.id == LastExtraction(rows[..n], doc).value && r.doc == doc;
      assert r in rows;
    } else {
      assert rows[n] in rows;
    }
  }

  /** A matrícula row is its document's only one, and its provenance is the document's last extraction. */
  lemma MatriculaKeysResolve(s: Store, log: seq<Entry>, r: MatriculaRow)
    requires Represents(s, log) && r in s.matriculas
    ensures LastExtraction(s.extractions, r.doc) == Some(r.extraction)
    ensures exists x :: x in s.extractions && x.id == r.extraction && x.doc == r.doc
    ensures forall q :: q in s.matriculas && q.doc == r.doc ==> q == r
  {
    FlattenMember(MatriculaRows, log, r);
    var e :| e in log && r in MatriculaRows(e);
    assert Sane(s, e);
    LastIsThere(s.extractions, r.doc);
    forall q | q in s.matriculas && q.doc == r.doc
      ensures q == r
    {
      FlattenMember(MatriculaRows, log, q);
      var f :| f in log && q in MatriculaRows(f);
      DistinctIds(log, e, f);
    }
  }
}
