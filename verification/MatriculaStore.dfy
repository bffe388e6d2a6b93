/**
 The aggregate store as the code runs it: a save shreds one nested value into rows inside a
 transaction, a read puts a value together again from five queries, between which others may save.
 The value read is the canonical form of the value saved, or of its first parts when a save of the
 same document has committed in between.
 */
module MatriculaStore {
  import opened Wrappers
  import opened Seqs
  import opened Dates
  import opened Aggregate
  import opened Schema
  import opened Lists
  import opened AggregateRows
  import opened AggregateTables
  import opened AggregateQueries
  import opened TornReads

  // ---------- the canonical form ----------

  function OwnerName(p: Proprietario): string {
    p.nome
  }

  function OnusType(o: Onus): string {
    o.tipo
  }

  function KeepOwner(atos: seq<Ato>): Proprietario -> Proprietario {
    (p: Proprietario) => KeptOwner(atos, p)
  }

  function KeepOnus(atos: seq<Ato>): Onus -> Onus {
    (o: Onus) => KeptOnus(atos, o)
  }

  type Collation = (string, string) -> bool

  /**
   g is what m is after it has been stored and read: header, atos and partes as they were, owners
   sorted by nome and encumbrances by tipo, and every reference to an ato kept if the ato is listed
   and emptied if not.
   */
  ghost predicate IsCanonical(leq: Collation, m: ExtractedMatricula, g: ExtractedMatricula) {
    && g == m.(proprietarios := g.proprietarios, onus := g.onus)
    && IsOrdering(g.proprietarios, Map(KeepOwner(m.atos), m.proprietarios), OwnerName, leq)
    && IsOrdering(g.onus, Map(KeepOnus(m.atos), m.onus), OnusType, leq)
  }

  // ---------- inserts, one row at a time ----------

  method Fault(fine: bool) returns (fails: bool)
    ensures fine ==> !fails
  {
    fails :| fine ==> !fails;
  }

  method InsertPartes(table: seq<ParteRow>, ato: Id, partes: seq<Parte>, fine: bool) returns (r: Option<seq<ParteRow>>)
    ensures r.Some? ==> (forall p :: p in partes ==> ParteChecks(p)) && r.value == table + ParteRowsOf(ato, partes)
    ensures fine && (forall p :: p in partes ==> ParteChecks(p)) ==> r.Some?
  {
    var rows: seq<ParteRow> := [];
    for j := 0 to |partes|
      invariant |rows| == j && forall k :: 0 <= k < j ==> rows[k] == ParteRowOf(ato, partes[k], k)
      invariant forall k :: 0 <= k < j ==> ParteChecks(partes[k])
    {
      var p := partes[j];
      var fails := Fault(fine);
      if fails || p.papel !in PAPEL_CHECK || !NullableCheck(NullStr(p.tipoPessoa), PESSOA_CHECK) {
        assert p in partes;
        return None;
      }
      rows := rows + [ParteRow(ato, p.papel, p.nome, NullStr(p.cpfCnpj), p.cpfCnpjValido, NullStr(p.tipoPessoa), j + 1)];
    }
    assert rows == ParteRowsOf(ato, partes);
    r := Some(table + rows);
  }

  /** An ato and its partes. */
  method InsertAto(tx: Store, matricula: Id, ato: Ato, i: nat, fine: bool) returns (r: Result<Store, string>)
    requires i <= tx.next
    ensures r.Success? ==>
      AtoOK(ato) && r.value == WithAto(tx, matricula, tx.next - i, ato, i)
    ensures fine && AtoOK(ato) ==> r.Success?
  {
    var id := tx.next;
    var fails := Fault(fine);
    if fails || ato.kind !in KIND_CHECK || !Castable(ato.data) {
      return Failure("insert ato " + ato.numero);
    }
    var row := AtoRow(id, matricula, ato.numero, ato.kind, NullStr(ato.tipo), Cast(ato.data),
      ato.valor, NullStr(ato.moeda), NullStr(ato.descricao), i + 1);
    var partes := InsertPartes(tx.partes, id, ato.partes, fine);
    if partes.None? {
      return Failure("insert parte of " + ato.numero);
    }
    r := Success(tx.(atos := tx.atos + [row], partes := partes.value, next := id + 1));
  }

  predicate AtoOK(a: Ato) {
    AtoChecks(a) && Castable(a.data)
  }

  predicate AtosOK(atos: seq<Ato>) {
    forall a :: a in atos ==> AtoOK(a)
  }

  function WithAto(tx: Store, matricula: Id, first: Id, ato: Ato, i: nat): Store {
    tx.(atos := tx.atos + [AtoRowOf(matricula, first, ato, i)], partes := tx.partes + ParteRowsOf(first + i, ato.partes),
        next := first + i + 1)
  }

  function WithAtos(tx: Store, matricula: Id, atos: seq<Ato>): Store {
    tx.(atos := tx.atos + AtoRowsTo(matricula, tx.next, atos), partes := tx.partes + ParteRowsTo(tx.next, atos),
        next := tx.next + |atos|)
  }

  lemma WithAtosMore(tx: Store, matricula: Id, atos: seq<Ato>, i: nat)
    requires i < |atos|
    ensures WithAtos(tx, matricula, atos[..i + 1])
         == WithAto(WithAtos(tx, matricula, atos[..i]), matricula, tx.next, atos[i], i)
  {
    assert atos[..i + 1][..i] == atos[..i];
  }

  lemma AtoIdsMore(first: Id, atos: seq<Ato>, i: nat)
    requires i < |atos|
    ensures AtoIds(first, atos[..i + 1]) == AtoIds(first, atos[..i])[atos[i].numero := first + i]
  {
    assert atos[..i + 1][..i] == atos[..i];
  }

  /** After the first i atos. */
  ghost predicate Inserted(tx: Store, matricula: Id, atos: seq<Ato>, i: nat, t: Store, ids: map<string, Id>)
    requires i <= |atos|
  {
    t == WithAtos(tx, matricula, atos[..i]) && ids == AtoIds(tx.next, atos[..i]) && AtosOK(atos[..i])
  }

  lemma InsertedMore(tx: Store, matricula: Id, atos: seq<Ato>, i: nat, t: Store, ids: map<string, Id>)
    requires i < |atos| && Inserted(tx, matricula, atos, i, t, ids) && AtoOK(atos[i])
    ensures t.next == tx.next + i
    ensures Inserted(tx, matricula, atos, i + 1, WithAto(t, matricula, tx.next, atos[i], i), ids[atos[i].numero := t.next])
  {
    WithAtosMore(tx, matricula, atos, i);
    AtoIdsMore(tx.next, atos, i);
    assert atos[..i + 1] == atos[..i] + [atos[i]];
  }

  lemma InsertedStart(tx: Store, matricula: Id, atos: seq<Ato>)
    ensures Inserted(tx, matricula, atos, 0, tx, map[])
  {}

  lemma InsertedAll(tx: Store, matricula: Id, atos: seq<Ato>, t: Store, ids: map<string, Id>)
    requires Inserted(tx, matricula, atos, |atos|, t, ids)
    ensures AtosOK(atos) && t == WithAtos(tx, matricula, atos) && ids == AtoIds(tx.next, atos)
  {
    assert atos[..|atos|] == atos;
  }

  /** The atos in order, and the map from numero to id that later references use. */
  method InsertAtos(tx: Store, matricula: Id, atos: seq<Ato>, fine: bool)
    returns (r: Result<Store, string>, ids: map<string, Id>)
    ensures r.Success? ==> AtosOK(atos) && r.value == WithAtos(tx, matricula, atos) && ids == AtoIds(tx.next, atos)
    ensures fine && AtosOK(atos) ==> r.Success?
  {
    var t := tx;
    ids := map[];
    InsertedStart(tx, matricula, atos);
    for i := 0 to |atos|
      invariant Inserted(tx, matricula, atos, i, t, ids)
      invariant t.next == tx.next + i
    {
      assert atos[i] in atos;
      var id := t.next;
      var inserted := InsertAto(t, matricula, atos[i], i, fine);
      if inserted.Failure? {
        return inserted, ids;
      }
      InsertedMore(tx, matricula, atos, i, t, ids);
      t := inserted.value;
      ids := ids[atos[i].numero := id];
    }
    InsertedAll(tx, matricula, atos, t, ids);
    r := Success(t);
  }

  method InsertOwners(tx: Store, matricula: Id, ids: map<string, Id>, owners: seq<Proprietario>, fine: bool)
    returns (r: Result<Store, string>)
    ensures r.Success? ==>
      && (forall p :: p in owners ==> OwnerChecks(p))
      && r.value == tx.(owners := tx.owners + Map(EncodeOwner(matricula, ids), owners))
    ensures fine && (forall p :: p in owners ==> OwnerChecks(p)) ==> r.Success?
  {
    var encode := EncodeOwner(matricula, ids);
    var rows: seq<OwnerRow> := [];
    for i := 0 to |owners|
      invariant |rows| == i && forall k :: 0 <= k < i ==> rows[k] == encode(owners[k])
      invariant forall k :: 0 <= k < i ==> OwnerChecks(owners[k])
    {
      var p := owners[i];
      var fails := Fault(fine);
      if fails || !NullableCheck(NullStr(p.tipoPessoa), PESSOA_CHECK) {
        assert p in owners;
        return Failure("insert proprietario " + p.nome);
      }
      rows := rows + [OwnerRow(matricula, p.nome, NullStr(p.cpfCnpj), p.cpfCnpjValido, NullStr(p.tipoPessoa),
        p.fracao, AtoRef(ids, p.atoAquisicao))];
    }
    MapUnique(encode, owners, rows);
    r := Success(tx.(owners := tx.owners + rows));
  }

  method InsertOnus(tx: Store, matricula: Id, ids: map<string, Id>, onus: seq<Onus>, fine: bool)
    returns (r: Result<Store, string>)
    ensures r.Success? ==>
      && (forall o :: o in onus ==> StatusChecks(o))
      && r.value == tx.(onus := tx.onus + Map(EncodeOnus(matricula, ids), onus))
    ensures fine && (forall o :: o in onus ==> StatusChecks(o)) ==> r.Success?
  {
    var encode := EncodeOnus(matricula, ids);
    var rows: seq<OnusRow> := [];
    for i := 0 to |onus|
      invariant |rows| == i && forall k :: 0 <= k < i ==> rows[k] == encode(onus[k])
      invariant forall k :: 0 <= k < i ==> StatusChecks(onus[k])
    {
      var o := onus[i];
      var fails := Fault(fine);
      if fails || o.status !in STATUS_CHECK {
        assert o in onus;
        return Failure("insert onus " + o.tipo);
      }
      rows := rows + [OnusRow(matricula, o.tipo, o.status, AtoRef(ids, o.atoConstituicao), AtoRef(ids, o.atoCancelamento),
        NullStr(o.credor), o.valor, NullStr(o.moeda), NullStr(o.descricao))];
    }
    MapUnique(encode, onus, rows);
    r := Success(tx.(onus := tx.onus + rows));
  }

  /** The rows of one aggregate appended to the tables. */
  function Shredded(tx: Store, e: Entry): Store {
    tx.(matriculas := tx.matriculas + MatriculaRows(e), atos := tx.atos + AtoRows(e), partes := tx.partes + ParteRows(e),
        owners := tx.owners + OwnerRows(e), onus := tx.onus + OnusRows(e), next := e.firstAto + |e.content.atos|)
  }

  predicate ContentOK(m: ExtractedMatricula) {
    && AtosOK(m.atos)
    && (forall p :: p in m.proprietarios ==> OwnerChecks(p))
    && (forall o :: o in m.onus ==> StatusChecks(o))
  }

  lemma SplitChecks(m: ExtractedMatricula)
    ensures Storable(m) <==> Castable(m.dataAbertura) && ContentOK(m)
  {
    assert AtosOK(m.atos) <==> (forall a :: a in m.atos ==> AtoChecks(a)) && (forall a :: a in m.atos ==> Castable(a.data)) by {
      if AtosOK(m.atos) {
        assert forall a :: a in m.atos ==> AtoOK(a);
      } else {
        var a :| a in m.atos && !AtoOK(a);
      }
    }
  }

  function WithContent(t: Store, matricula: Id, m: ExtractedMatricula): Store {
    var first, ids := t.next, AtoIds(t.next, m.atos);
    WithAtos(t, matricula, m.atos).(
      owners := t.owners + Map(EncodeOwner(matricula, ids), m.proprietarios),
      onus := t.onus + Map(EncodeOnus(matricula, ids), m.onus))
  }

  /** Everything below the matrícula row: atos with partes, owners, encumbrances. */
  method InsertContent(t: Store, matricula: Id, m: ExtractedMatricula, fine: bool) returns (r: Result<Store, string>)
    ensures r.Success? ==> ContentOK(m) && r.value == WithContent(t, matricula, m)
    ensures fine && ContentOK(m) ==> r.Success?
  {
    var step, ids := InsertAtos(t, matricula, m.atos, fine);
    if step.Failure? {
      return step;
    }
    step := InsertOwners(step.value, matricula, ids, m.proprietarios, fine);
    if step.Failure? {
      return step;
    }
    r := InsertOnus(step.value, matricula, ids, m.onus, fine);
  }

  method InsertMatricula(tx: Store, e: Entry, fine: bool) returns (r: Result<Store, string>)
    requires e.matricula == tx.next
    ensures r.Success? ==>
      && Castable(e.content.dataAbertura)
      && r.value == tx.(matriculas := tx.matriculas + [MatriculaRowOf(e)], next := tx.next + 1)
    ensures fine && Castable(e.content.dataAbertura) && Filter(MatriculaOfDoc(e.doc), tx.matriculas) == [] ==> r.Success?
  {
    var m := e.content;
    var fails := Fault(fine);
    if fails || !Castable(m.dataAbertura) || Filter(MatriculaOfDoc(e.doc), tx.matriculas) != [] {
      return Failure("insert matricula");
    }
    var row := MatriculaRow(e.matricula, e.doc, e.extraction, m.numero,
      NullStr(m.cartorio.nome), NullStr(m.cartorio.comarca), NullStr(m.cartorio.uf), Cast(m.dataAbertura),
      NullStr(m.imovel.descricao), NullStr(m.imovel.endereco), m.imovel.areaM2, NullStr(m.imovel.tipo));
    r := Success(tx.(matriculas := tx.matriculas + [row], next := tx.next + 1));
  }

  lemma WholeIsShredded(tx: Store, e: Entry)
    requires e.matricula == tx.next && e.firstAto == tx.next + 1
    ensures WithContent(tx.(matriculas := tx.matriculas + [MatriculaRowOf(e)], next := tx.next + 1), e.matricula, e.content)
         == Shredded(tx, e)
  {}

  method InsertAggregate(tx: Store, e: Entry, fine: bool) returns (r: Result<Store, string>)
    requires e.matricula == tx.next && e.firstAto == tx.next + 1
    ensures r.Success? ==> Storable(e.content) && r.value == Shredded(tx, e)
    ensures fine && Storable(e.content) && Filter(MatriculaOfDoc(e.doc), tx.matriculas) == [] ==> r.Success?
  {
    SplitChecks(e.content);
    r := InsertMatricula(tx, e, fine);
    if r.Success? {
      WholeIsShredded(tx, e);
      r := InsertContent(r.value, e.matricula, e.content, fine);
    }
  }

  lemma ShreddedIsSaved(s: Store, doc: DocId, m: ExtractedMatricula, meta: Meta)
    ensures var t := s.(extractions := s.extractions + [ExtractionRow(s.next, doc, meta)], next := s.next + 1);
      Shredded(Delete(t, doc), NewEntry(s, doc, m)) == Saved(s, doc, m, meta)
  {}

  lemma NoneAfterDelete(t: Store, doc: DocId)
    ensures Filter(MatriculaOfDoc(doc), Delete(t, doc).matriculas) == []
  {
    FilterNone(MatriculaOfDoc(doc), Delete(t, doc).matriculas);
  }

  /** What the statements of one save make of the tables, if all of them and the commit succeed. */
  method Transaction(s: Store, documents: set<DocId>, doc: DocId, m: ExtractedMatricula, meta: Meta, fine: bool)
    returns (r: Result<Store, string>)
    ensures r.Success? ==> Storable(m) && doc in documents && r.value == Saved(s, doc, m, meta)
    ensures fine ==> (r.Success? <==> Storable(m) && doc in documents)
  {
    var fails := Fault(fine);
    if fails || doc !in documents {
      return Failure("insert extraction");
    }
    var tx := s.(extractions := s.extractions + [ExtractionRow(s.next, doc, meta)], next := s.next + 1);
    fails := Fault(fine);
    if fails {
      return Failure("replace previous aggregate");
    }
    NoneAfterDelete(tx, doc);
    ShreddedIsSaved(s, doc, m, meta);
    tx := Delete(tx, doc);
    r := InsertAggregate(tx, Entry(doc, s.next, tx.next, tx.next + 1, m), fine);
    fails := Fault(fine);
    if fails {
      r := Failure("commit");
    }
  }

  /** The value a read returns. */
  datatype Response = Response(id: Id, doc: DocId, content: ExtractedMatricula)

  // ---------- scanning rows ----------

  function BareAto(r: AtoRow): Ato {
    AtoOf(r, [])
  }

  function RowId(r: AtoRow): Id {
    r.id
  }

  function NumerosOf(rows: seq<AtoRow>): map<Id, string> {
    if rows == [] then map[]
    else NumerosOf(rows[..|rows| - 1])[rows[|rows| - 1].id := rows[|rows| - 1].numero]
  }

  /** The atos of one matrícula, without partes yet, their ids, and the map from id to numero. */
  method ScanAtos(rows: seq<AtoRow>) returns (atos: seq<Ato>, ids: seq<Id>, numeros: map<Id, string>)
    ensures atos == Map(BareAto, rows) && ids == Map(RowId, rows) && numeros == NumerosOf(rows)
  {
    atos, ids, numeros := [], [], map[];
    for i := 0 to |rows|
      invariant |atos| == |ids| == i && numeros == NumerosOf(rows[..i])
      invariant forall k :: 0 <= k < i ==> ids[k] == rows[k].id && atos[k] == BareAto(rows[k])
    {
      assert rows[..i + 1][..i] == rows[..i];
      var a := AtoOf(rows[i], []);
      numeros := numeros[rows[i].id := a.numero];
      ids, atos := ids + [rows[i].id], atos + [a];
    }
    assert rows[..|rows|] == rows;
    MapUnique(BareAto, rows, atos);
    MapUnique(RowId, rows, ids);
  }

  /** What the map holds for an id, the empty list when it has no key. */
  function PartesAt(byAto: map<Id, seq<Parte>>, id: Id): seq<Parte> {
    if id in byAto then byAto[id] else []
  }

  ghost predicate GroupsAll(byAto: map<Id, seq<Parte>>, rows: seq<ParteRow>) {
    forall id :: PartesAt(byAto, id) == Grouped(rows, id)
  }

  lemma GroupsMore(byAto: map<Id, seq<Parte>>, rows: seq<ParteRow>, r: ParteRow)
    requires GroupsAll(byAto, rows)
    ensures GroupsAll(byAto[r.ato := PartesAt(byAto, r.ato) + [ParteOf(r)]], rows + [r])
  {
    forall id
      ensures PartesAt(byAto[r.ato := PartesAt(byAto, r.ato) + [ParteOf(r)]], id) == Grouped(rows + [r], id)
    {
      GroupedMore(rows, r, id);
      assert PartesAt(byAto, id) == Grouped(rows, id);
    }
  }

  method GroupPartes(rows: seq<ParteRow>) returns (byAto: map<Id, seq<Parte>>)
    ensures GroupsAll(byAto, rows)
  {
    byAto := map[];
    for k := 0 to |rows|
      invariant GroupsAll(byAto, rows[..k])
    {
      GroupsMore(byAto, rows[..k], rows[k]);
      assert rows[..k + 1] == rows[..k] + [rows[k]];
      byAto := byAto[rows[k].ato := PartesAt(byAto, rows[k].ato) + [ParteOf(rows[k])]];
    }
    assert rows[..|rows|] == rows;
  }

  method AttachPartes(bare: seq<Ato>, ids: seq<Id>, byAto: map<Id, seq<Parte>>) returns (atos: seq<Ato>)
    requires |bare| == |ids|
    ensures |atos| == |bare|
    ensures forall i :: 0 <= i < |atos| ==> atos[i] == bare[i].(partes := PartesAt(byAto, ids[i]))
  {
    atos := bare;
    for i := 0 to |ids|
      invariant |atos| == |bare|
      invariant forall k :: 0 <= k < i ==> atos[k] == bare[k].(partes := PartesAt(byAto, ids[k]))
      invariant forall k :: i <= k < |atos| ==> atos[k] == bare[k]
    {
      atos := atos[i := atos[i].(partes := PartesAt(byAto, ids[i]))];
    }
  }

  lemma {:induction false} NumerosOfRows(matricula: Id, first: Id, atos: seq<Ato>)
    ensures NumerosOf(AtoRowsTo(matricula, first, atos)) == Numeros(first, atos)
  {
    if atos != [] {
      var n := |atos| - 1;
      NumerosOfRows(matricula, first, atos[..n]);
      assert AtoRowsTo(matricula, first, atos)[..n] == AtoRowsTo(matricula, first, atos[..n]);
    }
  }

  lemma PartesDelivered(e: Entry, byAto: map<Id, seq<Parte>>, i: nat)
    requires GroupsAll(byAto, ParteRows(e)) && i < |e.content.atos|
    ensures PartesAt(byAto, e.firstAto + i) == e.content.atos[i].partes
  {
    GroupedIs(e.firstAto, e.content.atos, ParteRows(e), i);
  }

  lemma BareDecoded(matricula: Id, first: Id, a: Ato, i: nat)
    requires IsISO(a.data)
    ensures BareAto(AtoRowOf(matricula, first, a, i)).(partes := a.partes) == a
  {
    DateRoundTrip(a.data);
  }

  lemma AtoISO(m: ExtractedMatricula, i: nat)
    requires DatesNormalized(m) && i < |m.atos|
    ensures IsISO(m.atos[i].data)
  {
    assert m.atos[i] in m.atos;
  }

  lemma AtoDecoded(e: Entry, ato: Ato, row: AtoRow, byAto: map<Id, seq<Parte>>, i: nat)
    requires GroupsAll(byAto, ParteRows(e)) && i < |e.content.atos| && IsISO(e.content.atos[i].data)
    requires row == AtoRowOf(e.matricula, e.firstAto, e.content.atos[i], i)
    requires ato == BareAto(row).(partes := PartesAt(byAto, row.id))
    ensures ato == e.content.atos[i]
  {
    PartesDelivered(e, byAto, i);
    BareDecoded(e.matricula, e.firstAto, e.content.atos[i], i);
  }

  /** Scanning the rows of an aggregate and attaching the grouped partes gives its atos back. */
  lemma AtosDecoded(e: Entry, atos: seq<Ato>, rows: seq<AtoRow>, byAto: map<Id, seq<Parte>>)
    requires DatesNormalized(e.content) && GroupsAll(byAto, ParteRows(e)) && rows == AtoRows(e) && |atos| == |rows|
    requires forall i :: 0 <= i < |atos| ==> atos[i] == BareAto(rows[i]).(partes := PartesAt(byAto, rows[i].id))
    ensures atos == e.content.atos
  {
    forall i | 0 <= i < |atos|
      ensures atos[i] == e.content.atos[i]
    {
      AtoISO(e.content, i);
      AtoDecoded(e, atos[i], rows[i], byAto, i);
    }
  }

  method ScanOwners(rows: seq<OwnerRow>, numeros: map<Id, string>) returns (owners: seq<Proprietario>)
    ensures owners == Map(DecodeOwner(numeros), rows)
  {
    owners := [];
    for i := 0 to |rows|
      invariant |owners| == i && forall k :: 0 <= k < i ==> owners[k] == DecodeOwner(numeros)(rows[k])
    {
      var r := rows[i];
      var p := Proprietario(r.nome, Coalesce(r.cpfCnpj), r.cpfCnpjValido, Coalesce(r.tipoPessoa), r.fracao, "");
      if r.atoAquisicao.Some? && r.atoAquisicao.value in numeros {
        p := p.(atoAquisicao := numeros[r.atoAquisicao.value]);
      }
      owners := owners + [p];
    }
    MapUnique(DecodeOwner(numeros), rows, owners);
  }

  method ScanOnus(rows: seq<OnusRow>, numeros: map<Id, string>) returns (onus: seq<Onus>)
    ensures onus == Map(DecodeOnus(numeros), rows)
  {
    onus := [];
    for i := 0 to |rows|
      invariant |onus| == i && forall k :: 0 <= k < i ==> onus[k] == DecodeOnus(numeros)(rows[k])
    {
      var r := rows[i];
      var o := Onus(r.tipo, r.status, "", "", Coalesce(r.credor), r.valor, Coalesce(r.moeda), Coalesce(r.descricao));
      if r.atoConstituicao.Some? && r.atoConstituicao.value in numeros {
        o := o.(atoConstituicao := numeros[r.atoConstituicao.value]);
      }
      if r.atoCancelamento.Some? && r.atoCancelamento.value in numeros {
        o := o.(atoCancelamento := numeros[r.atoCancelamento.value]);
      }
      onus := onus + [o];
    }
    MapUnique(DecodeOnus(numeros), rows, onus);
  }

  function DecodeOwner(numeros: map<Id, string>): OwnerRow -> Proprietario {
    (r: OwnerRow) => OwnerOf(numeros, r)
  }

  function DecodeOnus(numeros: map<Id, string>): OnusRow -> Onus {
    (r: OnusRow) => OnusOf(numeros, r)
  }

  function RowName(r: OwnerRow): string {
    r.nome
  }

  function RowType(r: OnusRow): string {
    r.tipo
  }

  // ---------- from rows to the canonical value ----------

  lemma OwnersDecoded(e: Entry)
    ensures Map(DecodeOwner(Numeros(e.firstAto, e.content.atos)), OwnerRows(e)) == Map(KeepOwner(e.content.atos), e.content.proprietarios)
  {
    var decode, keep := DecodeOwner(Numeros(e.firstAto, e.content.atos)), KeepOwner(e.content.atos);
    var owners := e.content.proprietarios;
    forall i | 0 <= i < |owners|
      ensures Map(decode, OwnerRows(e))[i] == keep(owners[i])
    {
      OwnerRoundTrip(e.matricula, e.firstAto, e.content.atos, owners[i]);
    }
    MapUnique(keep, owners, Map(decode, OwnerRows(e)));
  }

  lemma OnusDecoded(e: Entry)
    ensures Map(DecodeOnus(Numeros(e.firstAto, e.content.atos)), OnusRows(e)) == Map(KeepOnus(e.content.atos), e.content.onus)
  {
    var decode, keep := DecodeOnus(Numeros(e.firstAto, e.content.atos)), KeepOnus(e.content.atos);
    var onus := e.content.onus;
    forall i | 0 <= i < |onus|
      ensures Map(decode, OnusRows(e))[i] == keep(onus[i])
    {
      OnusRoundTrip(e.matricula, e.firstAto, e.content.atos, onus[i]);
    }
    MapUnique(keep, onus, Map(decode, OnusRows(e)));
  }

  /** Decoding keeps the sort key, so it keeps an ordering. */
  lemma OwnersOrdered(leq: Collation, rows: seq<OwnerRow>, e: Entry)
    requires IsOrdering(rows, OwnerRows(e), RowName, leq)
    ensures IsOrdering(Map(DecodeOwner(Numeros(e.firstAto, e.content.atos)), rows),
      Map(KeepOwner(e.content.atos), e.content.proprietarios), OwnerName, leq)
  {
    var decode := DecodeOwner(Numeros(e.firstAto, e.content.atos));
    MapMultiset(decode, rows, OwnerRows(e));
    OwnersDecoded(e);
    forall i, j | 0 <= i < j < |rows|
      ensures leq(OwnerName(Map(decode, rows)[i]), OwnerName(Map(decode, rows)[j]))
    {
      assert leq(RowName(rows[i]), RowName(rows[j]));
    }
  }

  lemma OnusOrdered(leq: Collation, rows: seq<OnusRow>, e: Entry)
    requires IsOrdering(rows, OnusRows(e), RowType, leq)
    ensures IsOrdering(Map(DecodeOnus(Numeros(e.firstAto, e.content.atos)), rows),
      Map(KeepOnus(e.content.atos), e.content.onus), OnusType, leq)
  {
    var decode := DecodeOnus(Numeros(e.firstAto, e.content.atos));
    MapMultiset(decode, rows, OnusRows(e));
    OnusDecoded(e);
    forall i, j | 0 <= i < j < |rows|
      ensures leq(OnusType(Map(decode, rows)[i]), OnusType(Map(decode, rows)[j]))
    {
      assert leq(RowType(rows[i]), RowType(rows[j]));
    }
  }

  /** Any argument that the store's callers may pass: its dates are normalized. */
  type Normal = m: ExtractedMatricula | DatesNormalized(m)
    witness ExtractedMatricula("", Cartorio("", "", ""), "", Imovel("", "", None, ""), [], [], [])

  class Matriculas {
    var tables: Store
    /** The ids of the rows of documents, which extractions reference. */
    var documents: set<DocId>
    /** The order of text in the database: ranks may tie. */
    const collate: Collation
    /** Nobody else saves. */
    const alone: bool
    /** All calls of SaveAggregate so far. */
    ghost var history: seq<Save>

    constructor (collate: Collation, alone: bool)
      requires TotalPreorder(collate)
      ensures Valid() && history == [] && documents == {} && this.collate == collate && this.alone == alone
    {
      this.collate, this.alone, tables, documents, history := collate, alone, EMPTY, {}, [];
    }

    ghost predicate Valid()
      reads this
    {
      tables == AfterAll(history) && AllWellformed(history) && TotalPreorder(collate)
    }

    /**
     One transaction. It commits exactly when the document exists, the schema takes the content and
     nothing fails; then the document's aggregate is replaced and its provenance appended. If it
     does not commit, nothing has changed.
     */
    method SaveAggregate(doc: DocId, m: ExtractedMatricula, meta: Meta, fine: bool) returns (r: Result<Id, string>)
      requires Valid() && DatesNormalized(m)
      modifies this`tables, this`history
      ensures Valid() && history == old(history) + [Save(doc, m, meta, r.Success?)]
      ensures r.Failure? ==> tables == old(tables)
      ensures r.Success? ==> Storable(m) && doc in documents
      ensures r.Success? ==> tables == Saved(old(tables), doc, m, meta)
      ensures r.Success? ==> r.value == NewEntry(old(tables), doc, m).matricula
      ensures fine ==> (r.Success? <==> Storable(m) && doc in documents)
    {
      var tx := Transaction(tables, documents, doc, m, meta, fine);
      history := history + [Save(doc, m, meta, tx.Success?)];
      assert history[..|history| - 1] == old(history);
      if tx.Failure? {
        return Failure(tx.error);
      }
      r := Success(tables.next + 1);
      tables := tx.value;
    }

    /** Between two queries others may save, any number of aggregates. */
    method Elapse()
      requires Valid()
      modifies this`tables, this`history
      ensures Valid() && old(history) <= history && (alone ==> history == old(history))
    {
      if alone {
        return;
      }
      var saves: nat :| true;
      for i := 0 to saves
        invariant Valid() && old(history) <= history
      {
        var doc, m, meta := Someone();
        var r := SaveAggregate(doc, m, meta, false);
      }
    }

    static method Someone() returns (doc: DocId, m: Normal, meta: Meta)
    {
      doc, m, meta := *, *, *;
    }

    /** The rows of an aggregate that the first query has found, as a later query finds them. */
    method NextMoment(ghost e: Entry, ghost at: seq<nat>) returns (ghost more: seq<nat>, ghost there: bool)
      requires Reading(e, at)
      modifies this`tables, this`history
      ensures Reading(e, more) && more == at + [|history|] && old(history) <= history && (alone ==> history == old(history))
      ensures Represents(tables, LogOf(history))
      ensures if there then e in LogOf(history) else Gone(LogOf(history), e.matricula)
      ensures Parts(e, more) == if there then |more| else old(Parts(e, at))
      ensures there ==> old(Parts(e, at)) == |at|
    {
      Elapse();
      AnsweredStable(old(history), history, at, e.doc);
      there := LastCommitted(history[at[0]..], e.doc).None?;
      assert history == history[..at[0]] + history[at[0]..] && history[..at[0]] == old(history)[..at[0]];
      KeptOrGone(history[..at[0]], history[at[0]..], e);
      NoResidue(history);
      OneMoreQuery(history, at, e.doc);
      more := at + [|history|];
    }

    /** The queries made so far, the first of which found e. */
    ghost predicate Reading(e: Entry, at: seq<nat>)
      reads this
    {
      Valid() && Moments(at, 0, |history|) && e in LogOf(history[..at[0]])
    }

    /** How many of the queries have found their rows. */
    ghost function Parts(e: Entry, at: seq<nat>): nat
      reads this
      requires Moments(at, 0, |history|)
    {
      Answered(history, at, e.doc)
    }

    method QueryAtos(matricula: Id, ghost e: Entry, ghost at: seq<nat>)
      returns (bare: seq<Ato>, ids: seq<Id>, numeros: map<Id, string>, ghost more: seq<nat>, ghost there: bool)
      requires Reading(e, at) && |at| == 1 && e.matricula == matricula
      modifies this`tables, this`history
      ensures Reading(e, more) && |more| == 2 && more[0] == at[0] && old(history) <= history
      ensures alone ==> history == old(history)
      ensures Parts(e, more) == if there then 2 else 1
      ensures there ==> bare == Map(BareAto, AtoRows(e)) && ids == Map(RowId, AtoRows(e))
      ensures there ==> numeros == Numeros(e.firstAto, e.content.atos)
      ensures !there ==> bare == [] && ids == [] && numeros == map[]
    {
      RankIsPreorder();
      more, there := NextMoment(e, at);
      var rows := OrderBy(Filter(AtoOfMatricula(matricula), tables.atos), AtoOrdinal, NatLeq);
      if there {
        TheAtos(tables, LogOf(history), e);
        AtosInOrder(e, rows);
        NumerosOfRows(e.matricula, e.firstAto, e.content.atos);
      } else {
        NoAtos(tables, LogOf(history), matricula);
      }
      bare, ids, numeros := ScanAtos(rows);
    }

    method QueryPartes(matricula: Id, ghost e: Entry, ghost at: seq<nat>)
      returns (byAto: map<Id, seq<Parte>>, ghost more: seq<nat>, ghost there: bool)
      requires Reading(e, at) && |at| == 2 && e.matricula == matricula
      modifies this`tables, this`history
      ensures Reading(e, more) && |more| == 3 && more[0] == at[0] && old(history) <= history
      ensures alone ==> history == old(history)
      ensures Parts(e, more) == if there then 3 else old(Parts(e, at))
      ensures there ==> old(Parts(e, at)) == 2
      ensures GroupsAll(byAto, if there then ParteRows(e) else [])
    {
      RankIsPreorder();
      more, there := NextMoment(e, at);
      var rows := OrderBy(Filter(ParteOfMatricula(tables.atos, matricula), tables.partes), ParteRank(tables.atos), RankLeq);
      if there {
        ThePartes(tables, LogOf(history), e);
        PartesInOrder(tables, LogOf(history), e, rows);
      } else {
        NoPartes(tables, LogOf(history), matricula);
      }
      byAto := GroupPartes(rows);
    }

    /** The atos with their partes, as far as the two queries find them. */
    method LoadAtos(matricula: Id, ghost e: Entry, ghost at: seq<nat>)
      returns (atos: seq<Ato>, numeros: map<Id, string>, ghost more: seq<nat>)
      requires Reading(e, at) && |at| == 1 && e.matricula == matricula && DatesNormalized(e.content)
      modifies this`tables, this`history
      ensures Reading(e, more) && |more| == 3 && more[0] == at[0] && old(history) <= history
      ensures alone ==> history == old(history)
      ensures atos == FirstParts(e.content, Parts(e, more)).atos && Parts(e, more) <= 3
      ensures numeros == if Parts(e, more) >= 2 then Numeros(e.firstAto, e.content.atos) else map[]
    {
      var bare, ids;
      ghost var two, listed;
      bare, ids, numeros, two, listed := QueryAtos(matricula, e, at);
      var byAto;
      ghost var grouped;
      byAto, more, grouped := QueryPartes(matricula, e, two);
      atos := AttachPartes(bare, ids, byAto);
      if grouped {
        AtosDecoded(e, atos, AtoRows(e), byAto);
      } else if listed {
        AtosBare(e, atos, AtoRows(e), byAto);
      }
    }

    method LoadOwners(matricula: Id, numeros: map<Id, string>, ghost e: Entry, ghost at: seq<nat>)
      returns (owners: seq<Proprietario>, ghost more: seq<nat>)
      requires Reading(e, at) && |at| == 3 && e.matricula == matricula
      requires Parts(e, at) == 3 ==> numeros == Numeros(e.firstAto, e.content.atos)
      modifies this`tables, this`history
      ensures Reading(e, more) && |more| == 4 && more[0] == at[0] && old(history) <= history
      ensures alone ==> history == old(history)
      ensures Parts(e, more) == 4 || Parts(e, more) == old(Parts(e, at))
      ensures Parts(e, more) == 4 ==> old(Parts(e, at)) == 3
      ensures IsOrdering(owners, Map(KeepOwner(e.content.atos), FirstParts(e.content, Parts(e, more)).proprietarios), OwnerName, collate)
    {
      ghost var there;
      more, there := NextMoment(e, at);
      AnsweredBounds(old(history), at, e.doc);
      var rows := OrderBy(Filter(OwnerOfMatricula(matricula), tables.owners), RowName, collate);
      owners := ScanOwners(rows, numeros);
      if there {
        TheOwners(tables, LogOf(history), e);
        OwnersOrdered(collate, rows, e);
      } else {
        NoOwners(tables, LogOf(history), matricula);
      }
    }

    method LoadOnus(matricula: Id, numeros: map<Id, string>, ghost e: Entry, ghost at: seq<nat>)
      returns (onus: seq<Onus>, ghost more: seq<nat>)
      requires Reading(e, at) && |at| == 4 && e.matricula == matricula
      requires Parts(e, at) == 4 ==> numeros == Numeros(e.firstAto, e.content.atos)
      modifies this`tables, this`history
      ensures Reading(e, more) && |more| == 5 && more[0] == at[0] && old(history) <= history
      ensures alone ==> history == old(history)
      ensures Parts(e, more) == 5 || Parts(e, more) == old(Parts(e, at))
      ensures Parts(e, more) == 5 ==> old(Parts(e, at)) == 4
      ensures IsOrdering(onus, Map(KeepOnus(e.content.atos), FirstParts(e.content, Parts(e, more)).onus), OnusType, collate)
    {
      ghost var there;
      more, there := NextMoment(e, at);
      AnsweredBounds(old(history), at, e.doc);
      var rows := OrderBy(Filter(OnusOfMatricula(matricula), tables.onus), RowType, collate);
      onus := ScanOnus(rows, numeros);
      if there {
        TheOnus(tables, LogOf(history), e);
        OnusOrdered(collate, rows, e);
      } else {
        NoOnus(tables, LogOf(history), matricula);
      }
    }

    /** The four queries that follow the matrícula's own. */
    method LoadParts(matricula: Id, ghost e: Entry, ghost start: seq<nat>)
      returns (atos: seq<Ato>, owners: seq<Proprietario>, onus: seq<Onus>, ghost at: seq<nat>)
      requires Reading(e, start) && |start| == 1 && e.matricula == matricula && DatesNormalized(e.content)
      modifies this`tables, this`history
      ensures Reading(e, at) && |at| == PARTS && at[0] == start[0] && old(history) <= history
      ensures alone ==> history == old(history)
      ensures IsCanonical(collate, FirstParts(e.content, Parts(e, at)),
        e.content.(atos := atos, proprietarios := owners, onus := onus))
    {
      var numeros;
      atos, numeros, at := LoadAtos(matricula, e, start);
      ghost var listed := Parts(e, at);
      owners, at := LoadOwners(matricula, numeros, e, at);
      ghost var owned := Parts(e, at);
      onus, at := LoadOnus(matricula, numeros, e, at);
      PartsAssembled(collate, e.content, e.content.(atos := atos, proprietarios := owners, onus := onus),
        listed, owned, Parts(e, at));
    }

    /** Puts one aggregate together from its matrícula row and four more queries. */
    method Load(row: MatriculaRow, ghost e: Entry) returns (r: Response, ghost at: seq<nat>)
      requires Valid() && e in LogOf(history) && row == MatriculaRowOf(e)
      modifies this`tables, this`history
      ensures Reading(e, at) && at[0] == old(|history|) && |at| == PARTS && old(history) <= history
      ensures alone ==> history == old(history)
      ensures r.id == e.matricula && r.doc == e.doc && IsCanonical(collate, FirstParts(e.content, Parts(e, at)), r.content)
    {
      EntrySane(history, e);
      assert history[..|history|] == history;
      var atos, owners, onus;
      atos, owners, onus, at := LoadParts(row.id, e, [|history|]);
      HeaderDecoded(e);
      r := Response(row.id, row.doc, ExtractedMatricula(row.numero,
        Cartorio(Coalesce(row.cartorioNome), Coalesce(row.cartorioComarca), Coalesce(row.cartorioUF)),
        IsoDate(row.dataAbertura),
        Imovel(Coalesce(row.imovelDescricao), Coalesce(row.imovelEndereco), row.imovelAreaM2, Coalesce(row.imovelTipo)),
        atos, owners, onus));
    }

    /** What a read has found: the aggregate e at its first query, and its first parts altogether. */
    ghost predicate Answer(r: Option<Response>, e: Option<Entry>, at: seq<nat>)
      reads this
    {
      && Valid() && Moments(at, 0, |history|) && (r.Some? <==> e.Some?)
      && (r.Some? ==>
          && |at| == PARTS && e.value in LogOf(history[..at[0]])
          && r.value.doc == e.value.doc && r.value.id == e.value.matricula
          && IsCanonical(collate, FirstParts(e.value.content, Parts(e.value, at)), r.value.content))
    }

    /** The first matrícula row that meets the condition, with the rest of its aggregate. */
    method Get(where: MatriculaRow -> bool) returns (r: Option<Response>, ghost e: Option<Entry>, ghost at: seq<nat>)
      requires Valid()
      modifies this`tables, this`history
      ensures Answer(r, e, at) && old(|history|) <= at[0] && old(history) <= history && (alone ==> history == old(history))
      ensures alone && r.Some? ==> Parts(e.value, at) == PARTS
      ensures r.Some? ==> where(MatriculaRowOf(e.value))
      ensures r.None? ==> Filter(where, AfterAll(history[..at[0]]).matriculas) == []
    {
      Elapse();
      ghost var first := history;
      assert first[..|first|] == first;
      var rows := Filter(where, tables.matriculas);
      if rows == [] {
        return None, None, [|first|];
      }
      assert rows[0] in rows;
      ghost var owner := RowOwner(first, rows[0]);
      e := Some(owner);
      var found;
      found, at := Load(rows[0], e.value);
      assert history[..at[0]] == first;
      if alone {
        NothingHappened(history, at, owner.doc);
      }
      r := Some(found);
    }

    /**
     Finds an aggregate exactly when the document has one at the first query, and returns the canonical
     form of as many of its parts as are queried before the next save of the document commits.
     */
    method GetByDocumentID(doc: DocId) returns (r: Option<Response>, ghost e: Option<Entry>, ghost at: seq<nat>)
      requires Valid()
      modifies this`tables, this`history
      ensures Answer(r, e, at) && old(|history|) <= at[0] && old(history) <= history && (alone ==> history == old(history))
      ensures alone && r.Some? ==> Parts(e.value, at) == PARTS
      ensures r.Some? <==> LastCommitted(history[..at[0]], doc).Some?
      ensures r.Some? ==> r.value.doc == doc && LastCommitted(history[..at[0]], doc) == Some(e.value.content)
    {
      r, e, at := Get(MatriculaOfDoc(doc));
      LookedUpByDocument(history[..at[0]], doc, e);
    }

    /** The same by matrícula id; the id of a replaced aggregate finds nothing. */
    method GetByID(id: Id) returns (r: Option<Response>, ghost e: Option<Entry>, ghost at: seq<nat>)
      requires Valid()
      modifies this`tables, this`history
      ensures Answer(r, e, at) && old(|history|) <= at[0] && old(history) <= history && (alone ==> history == old(history))
      ensures alone && r.Some? ==> Parts(e.value, at) == PARTS
      ensures r.Some? <==> !Gone(LogOf(history[..at[0]]), id)
      ensures r.Some? ==> r.value.id == id
    {
      r, e, at := Get(MatriculaById(id));
      LookedUpById(history[..at[0]], id, e);
    }
  }

  // ---------- lemmas of a read ----------

  lemma RowOwner(history: seq<Save>, row: MatriculaRow) returns (e: Entry)
    requires AllWellformed(history) && row in AfterAll(history).matriculas
    ensures e in LogOf(history) && row == MatriculaRowOf(e)
  {
    NoResidue(history);
    e := MatriculaOwner(AfterAll(history), LogOf(history), row);
  }

  lemma EntrySane(history: seq<Save>, e: Entry)
    requires AllWellformed(history) && e in LogOf(history)
    ensures DatesNormalized(e.content)
  {
    NoResidue(history);
    assert Sane(AfterAll(history), e);
  }

  lemma HeaderDecoded(e: Entry)
    requires DatesNormalized(e.content)
    ensures var row := MatriculaRowOf(e);
      && row.id == e.matricula && row.doc == e.doc && row.numero == e.content.numero
      && Cartorio(Coalesce(row.cartorioNome), Coalesce(row.cartorioComarca), Coalesce(row.cartorioUF)) == e.content.cartorio
      && IsoDate(row.dataAbertura) == e.content.dataAbertura
      && Imovel(Coalesce(row.imovelDescricao), Coalesce(row.imovelEndereco), row.imovelAreaM2, Coalesce(row.imovelTipo)) == e.content.imovel
  {
    DateRoundTrip(e.content.dataAbertura);
  }

  lemma LookedUpByDocument(history: seq<Save>, doc: DocId, e: Option<Entry>)
    requires AllWellformed(history)
    requires e.None? ==> Filter(MatriculaOfDoc(doc), AfterAll(history).matriculas) == []
    requires e.Some? ==> e.value in LogOf(history) && MatriculaOfDoc(doc)(MatriculaRowOf(e.value))
    ensures e.Some? <==> LastCommitted(history, doc).Some?
    ensures e.Some? ==> e.value.doc == doc && LastCommitted(history, doc) == Some(e.value.content)
  {
    NoResidue(history);
    if e.None? {
      NotThere(AfterAll(history), LogOf(history), doc);
    }
  }

  lemma LookedUpById(history: seq<Save>, id: Id, e: Option<Entry>)
    requires AllWellformed(history)
    requires e.None? ==> Filter(MatriculaById(id), AfterAll(history).matriculas) == []
    requires e.Some? ==> e.value in LogOf(history) && MatriculaById(id)(MatriculaRowOf(e.value))
    ensures e.Some? <==> !Gone(LogOf(history), id)
    ensures e.Some? ==> e.value.matricula == id
  {
    NoResidue(history);
    if e.None? {
      NoSuchId(AfterAll(history), LogOf(history), id);
    }
  }

  /** Atos whose partes have gone come back without them. */
  lemma AtosBare(e: Entry, atos: seq<Ato>, rows: seq<AtoRow>, byAto: map<Id, seq<Parte>>)
    requires DatesNormalized(e.content) && rows == AtoRows(e) && |atos| == |rows| && GroupsAll(byAto, [])
    requires forall i :: 0 <= i < |atos| ==> atos[i] == BareAto(rows[i]).(partes := PartesAt(byAto, rows[i].id))
    ensures atos == Map(WithoutPartes, e.content.atos)
  {
    forall i | 0 <= i < |atos|
      ensures atos[i] == WithoutPartes(e.content.atos[i])
    {
      AtoISO(e.content, i);
      BareDecoded(e.matricula, e.firstAto, e.content.atos[i], i);
      assert PartesAt(byAto, rows[i].id) == Grouped([], rows[i].id) == [];
    }
    MapUnique(WithoutPartes, e.content.atos, atos);
  }

  /** The parts of three loads, the later ones no further than the earlier ones were complete. */
  lemma PartsAssembled(leq: Collation, m: ExtractedMatricula, g: ExtractedMatricula, listed: nat, owned: nat, k: nat)
    requires listed <= 3 && (owned == 4 || owned == listed) && (owned == 4 ==> listed == 3)
    requires (k == 5 || k == owned) && (k == 5 ==> owned == 4)
    requires g == m.(atos := FirstParts(m, listed).atos, proprietarios := g.proprietarios, onus := g.onus)
    requires IsOrdering(g.proprietarios, Map(KeepOwner(m.atos), FirstParts(m, owned).proprietarios), OwnerName, leq)
    requires IsOrdering(g.onus, Map(KeepOnus(m.atos), FirstParts(m, k).onus), OnusType, leq)
    ensures IsCanonical(leq, FirstParts(m, k), g)
  {}

  /** A read delivers the whole aggregate exactly when nothing of it is missing. */
  lemma WholeReadIff(leq: Collation, m: ExtractedMatricula, k: nat, g: ExtractedMatricula)
    requires IsCanonical(leq, FirstParts(m, k), g)
    ensures IsCanonical(leq, m, g) <==> Complete(m, k)
  {
    CompleteIff(m, k);
    if IsCanonical(leq, m, g) {
      assert |multiset(g.proprietarios)| == |Map(KeepOwner(m.atos), m.proprietarios)|;
      assert |multiset(g.onus)| == |Map(KeepOnus(m.atos), m.onus)|;
      assert FirstParts(m, k) == m;
    }
  }

  lemma NotThere(s: Store, log: seq<Entry>, doc: DocId)
    requires Represents(s, log) && Filter(MatriculaOfDoc(doc), s.matriculas) == []
    ensures !HasLive(log, doc)
  {
    if HasLive(log, doc) {
      var e :| e in log && e.doc == doc;
      TheMatricula(s, log, e);
    }
  }

  lemma NoSuchId(s: Store, log: seq<Entry>, id: Id)
    requires Represents(s, log) && Filter(MatriculaById(id), s.matriculas) == []
    ensures Gone(log, id)
  {
    forall f | f in log
      ensures f.matricula != id
    {
      TheMatricula(s, log, f);
    }
  }
}
