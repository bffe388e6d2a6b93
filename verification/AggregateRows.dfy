/**
 The relational form of the matrícula aggregate: how one saved aggregate is spelled as rows of six
 tables, and how rows are read back. Ids are primary keys; a reference to an ato by its numero
 becomes a foreign key.
 */
module AggregateRows {
  import opened Wrappers
  import opened Seqs
  import opened Dates
  import opened Aggregate

  type Id = nat
  type DocId = nat

  /** Provenance of one LLM run. */
  datatype Meta = Meta(model: string, promptVersion: string, rawResponse: string, inputTokens: int, outputTokens: int)

  datatype ExtractionRow = ExtractionRow(id: Id, doc: DocId, meta: Meta)

  datatype MatriculaRow = MatriculaRow(
    id: Id, doc: DocId, extraction: Id, numero: string,
    cartorioNome: Option<string>, cartorioComarca: Option<string>, cartorioUF: Option<string>,
    dataAbertura: Option<Date>,
    imovelDescricao: Option<string>, imovelEndereco: Option<string>, imovelAreaM2: Option<real>, imovelTipo: Option<string>)

  datatype AtoRow = AtoRow(
    id: Id, matricula: Id, numero: string, kind: string, tipo: Option<string>, data: Option<Date>,
    valor: Option<real>, moeda: Option<string>, descricao: Option<string>, ordinal: nat)

  datatype ParteRow = ParteRow(
    ato: Id, papel: string, nome: string, cpfCnpj: Option<string>, cpfCnpjValido: Option<bool>,
    tipoPessoa: Option<string>, ordinal: nat)

  datatype OwnerRow = OwnerRow(
    matricula: Id, nome: string, cpfCnpj: Option<string>, cpfCnpjValido: Option<bool>,
    tipoPessoa: Option<string>, fracao: Option<real>, atoAquisicao: Option<Id>)

  datatype OnusRow = OnusRow(
    matricula: Id, tipo: string, status: string, atoConstituicao: Option<Id>, atoCancelamento: Option<Id>,
    credor: Option<string>, valor: Option<real>, moeda: Option<string>, descricao: Option<string>)

  /** The tables; next is an id not used yet. */
  datatype Store = Store(
    extractions: seq<ExtractionRow>, matriculas: seq<MatriculaRow>, atos: seq<AtoRow>, partes: seq<ParteRow>,
    owners: seq<OwnerRow>, onus: seq<OnusRow>, next: Id)

  const EMPTY := Store([], [], [], [], [], [], 0)

  /** A committed save that nothing has replaced, with the ids it was given; ato i has id firstAto + i. */
  datatype Entry = Entry(doc: DocId, extraction: Id, matricula: Id, firstAto: Id, content: ExtractedMatricula)

  // ---------- dates ----------

  /** `nullStr(s)::date` */
  function Cast(s: string): Option<Date> {
    if s == "" then None else Parse(ISO, s)
  }

  function IsoDate(d: Option<Date>): string {
    if d.Some? && ValidDate(d.value) then Print(ISO, d.value) else ""
  }

  lemma DateRoundTrip(s: string)
    requires IsISO(s)
    ensures IsoDate(Cast(s)) == s
  {
    if s != "" {
      ParseIsPrintInverse(ISO, s);
    }
  }

  // ---------- references to atos ----------

  /** The map that the save loop fills: numero to id, the last ato of a numero winning. */
  function AtoIds(first: Id, atos: seq<Ato>): map<string, Id> {
    if atos == [] then map[]
    else
      var n := |atos| - 1;
      AtoIds(first, atos[..n])[atos[n].numero := first + n]
  }

  /** NULL when the reference is empty or names no listed ato. */
  function AtoRef(ids: map<string, Id>, numero: string): Option<Id> {
    if numero != "" && numero in ids then Some(ids[numero]) else None
  }

  predicate Names(atos: seq<Ato>, numero: string) {
    exists i :: 0 <= i < |atos| && atos[i].numero == numero
  }

  /** What a reference is after it has been stored and read: itself if it names a listed ato, else empty. */
  function KeptRef(atos: seq<Ato>, numero: string): string {
    if Names(atos, numero) then numero else ""
  }

  /** Every id in the map is the id of an ato with that numero, and every listed numero is in it. */
  lemma {:induction false} AtoIdsFaithful(first: Id, atos: seq<Ato>)
    ensures forall numero :: numero in AtoIds(first, atos) <==> Names(atos, numero)
    ensures forall numero :: numero in AtoIds(first, atos) ==>
      var id := AtoIds(first, atos)[numero];
      first <= id < first + |atos| && atos[id - first].numero == numero
  {
    if atos != [] {
      var n := |atos| - 1;
      AtoIdsFaithful(first, atos[..n]);
      forall numero
        ensures Names(atos, numero) <==> Names(atos[..n], numero) || atos[n].numero == numero
      {
        if Names(atos, numero) {
          var i :| 0 <= i < |atos| && atos[i].numero == numero;
          assert i < n ==> atos[..n][i].numero == numero;
        }
      }
    }
  }

  // ---------- encoding ----------

  function MatriculaRowOf(e: Entry): MatriculaRow {
    var m := e.content;
    MatriculaRow(e.matricula, e.doc, e.extraction, m.numero,
      NullStr(m.cartorio.nome), NullStr(m.cartorio.comarca), NullStr(m.cartorio.uf), Cast(m.dataAbertura),
      NullStr(m.imovel.descricao), NullStr(m.imovel.endereco), m.imovel.areaM2, NullStr(m.imovel.tipo))
  }

  function AtoRowOf(matricula: Id, first: Id, a: Ato, i: nat): AtoRow {
    AtoRow(first + i, matricula, a.numero, a.kind, NullStr(a.tipo), Cast(a.data),
      a.valor, NullStr(a.moeda), NullStr(a.descricao), i + 1)
  }

  function ParteRowOf(ato: Id, p: Parte, j: nat): ParteRow {
    ParteRow(ato, p.papel, p.nome, NullStr(p.cpfCnpj), p.cpfCnpjValido, NullStr(p.tipoPessoa), j + 1)
  }

  function OwnerRowOf(matricula: Id, ids: map<string, Id>, p: Proprietario): OwnerRow {
    OwnerRow(matricula, p.nome, NullStr(p.cpfCnpj), p.cpfCnpjValido, NullStr(p.tipoPessoa), p.fracao,
      AtoRef(ids, p.atoAquisicao))
  }

  function OnusRowOf(matricula: Id, ids: map<string, Id>, o: Onus): OnusRow {
    OnusRow(matricula, o.tipo, o.status, AtoRef(ids, o.atoConstituicao), AtoRef(ids, o.atoCancelamento),
      NullStr(o.credor), o.valor, NullStr(o.moeda), NullStr(o.descricao))
  }

  function AtoRowsTo(matricula: Id, first: Id, atos: seq<Ato>): (r: seq<AtoRow>)
    ensures |r| == |atos|
    ensures forall i :: 0 <= i < |atos| ==> r[i] == AtoRowOf(matricula, first, atos[i], i)
  {
    if atos == [] then []
    else
      var n := |atos| - 1;
      AtoRowsTo(matricula, first, atos[..n]) + [AtoRowOf(matricula, first, atos[n], n)]
  }

  function ParteRowsOf(ato: Id, partes: seq<Parte>): (r: seq<ParteRow>)
    ensures |r| == |partes|
    ensures forall j :: 0 <= j < |partes| ==> r[j] == ParteRowOf(ato, partes[j], j)
  {
    if partes == [] then []
    else
      var n := |partes| - 1;
      ParteRowsOf(ato, partes[..n]) + [ParteRowOf(ato, partes[n], n)]
  }

  function ParteRowsTo(first: Id, atos: seq<Ato>): seq<ParteRow> {
    if atos == [] then []
    else
      var n := |atos| - 1;
      ParteRowsTo(first, atos[..n]) + ParteRowsOf(first + n, atos[n].partes)
  }

  function Ids(e: Entry): map<string, Id> {
    AtoIds(e.firstAto, e.content.atos)
  }

  function MatriculaRows(e: Entry): seq<MatriculaRow> {
    [MatriculaRowOf(e)]
  }

  function AtoRows(e: Entry): seq<AtoRow> {
    AtoRowsTo(e.matricula, e.firstAto, e.content.atos)
  }

  function ParteRows(e: Entry): seq<ParteRow> {
    ParteRowsTo(e.firstAto, e.content.atos)
  }

  function EncodeOwner(matricula: Id, ids: map<string, Id>): Proprietario -> OwnerRow {
    (p: Proprietario) => OwnerRowOf(matricula, ids, p)
  }

  function EncodeOnus(matricula: Id, ids: map<string, Id>): Onus -> OnusRow {
    (o: Onus) => OnusRowOf(matricula, ids, o)
  }

  function OwnerRows(e: Entry): seq<OwnerRow> {
    Map(EncodeOwner(e.matricula, Ids(e)), e.content.proprietarios)
  }

  function OnusRows(e: Entry): seq<OnusRow> {
    Map(EncodeOnus(e.matricula, Ids(e)), e.content.onus)
  }

  // ---------- decoding ----------

  function AtoOf(r: AtoRow, partes: seq<Parte>): Ato {
    Ato(r.numero, r.kind, Coalesce(r.tipo), IsoDate(r.data), r.valor, Coalesce(r.moeda), Coalesce(r.descricao), partes)
  }

  function ParteOf(r: ParteRow): Parte {
    Parte(r.papel, r.nome, Coalesce(r.cpfCnpj), r.cpfCnpjValido, Coalesce(r.tipoPessoa))
  }

  /** The numero of the ato that a foreign key points at; a Go map answers "" for an unknown key. */
  function NumeroOf(numeros: map<Id, string>, ref: Option<Id>): string {
    if ref.Some? && ref.value in numeros then numeros[ref.value] else ""
  }

  function OwnerOf(numeros: map<Id, string>, r: OwnerRow): Proprietario {
    Proprietario(r.nome, Coalesce(r.cpfCnpj), r.cpfCnpjValido, Coalesce(r.tipoPessoa), r.fracao,
      NumeroOf(numeros, r.atoAquisicao))
  }

  function OnusOf(numeros: map<Id, string>, r: OnusRow): Onus {
    Onus(r.tipo, r.status, NumeroOf(numeros, r.atoConstituicao), NumeroOf(numeros, r.atoCancelamento),
      Coalesce(r.credor), r.valor, Coalesce(r.moeda), Coalesce(r.descricao))
  }

  /** ato id to numero, for every ato of the matrícula. */
  function Numeros(first: Id, atos: seq<Ato>): map<Id, string> {
    if atos == [] then map[]
    else
      var n := |atos| - 1;
      Numeros(first, atos[..n])[first + n := atos[n].numero]
  }

  lemma {:induction false} NumerosAt(first: Id, atos: seq<Ato>)
    ensures forall id :: id in Numeros(first, atos) <==> first <= id < first + |atos|
    ensures forall i :: 0 <= i < |atos| ==> Numeros(first, atos)[first + i] == atos[i].numero
  {
    if atos != [] {
      NumerosAt(first, atos[..|atos| - 1]);
    }
  }

  // ---------- one aggregate, there and back ----------

  lemma RefRoundTrip(first: Id, atos: seq<Ato>, numero: string)
    ensures NumeroOf(Numeros(first, atos), AtoRef(AtoIds(first, atos), numero)) == KeptRef(atos, numero)
  {
    AtoIdsFaithful(first, atos);
    NumerosAt(first, atos);
    if numero in AtoIds(first, atos) {
      var id := AtoIds(first, atos)[numero];
      assert Numeros(first, atos)[first + (id - first)] == atos[id - first].numero;
    }
  }

  function KeptOwner(atos: seq<Ato>, p: Proprietario): Proprietario {
    p.(atoAquisicao := KeptRef(atos, p.atoAquisicao))
  }

  function KeptOnus(atos: seq<Ato>, o: Onus): Onus {
    o.(atoConstituicao := KeptRef(atos, o.atoConstituicao), atoCancelamento := KeptRef(atos, o.atoCancelamento))
  }

  lemma OwnerRoundTrip(matricula: Id, first: Id, atos: seq<Ato>, p: Proprietario)
    ensures OwnerOf(Numeros(first, atos), OwnerRowOf(matricula, AtoIds(first, atos), p)) == KeptOwner(atos, p)
  {
    RefRoundTrip(first, atos, p.atoAquisicao);
  }

  lemma OnusRoundTrip(matricula: Id, first: Id, atos: seq<Ato>, o: Onus)
    ensures OnusOf(Numeros(first, atos), OnusRowOf(matricula, AtoIds(first, atos), o)) == KeptOnus(atos, o)
  {
    RefRoundTrip(first, atos, o.atoConstituicao);
    RefRoundTrip(first, atos, o.atoCancelamento);
  }
}
