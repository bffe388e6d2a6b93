/**
 `Normalize`: the in-place clean-up of an LLM extraction. The class holds the aggregate the
 Go code mutates through pointers; the functions say what each field becomes.
 */
module Normalize {
  import opened Wrappers
  import opened Seqs
  import opened Text
  import opened Dates
  import opened CheckDigits
  import opened Aggregate

  // ---------- what each field becomes ----------

  predicate DocChar(c: char) {
    '0' <= c <= '9' || 'A' <= c <= 'Z'
  }

  /** The characters of s that may occur in a CPF or CNPJ, in order. */
  function Kept(s: string): string {
    if s == "" then ""
    else Kept(s[..|s| - 1]) + (if DocChar(s[|s| - 1]) then [s[|s| - 1]] else "")
  }

  predicate ValidDoc(doc: string) {
    (|doc| == 11 && ValidCPF(doc)) || (|doc| == 14 && ValidCNPJ(doc))
  }

  function NormalizedDoc(s: string): (string, Option<bool>) {
    var doc := Kept(ToUpper(s));
    if doc == "" then ("", None) else (doc, Some(ValidDoc(doc)))
  }

  function NormalizedParte(p: Parte): Parte {
    var (doc, valid) := NormalizedDoc(p.cpfCnpj);
    p.(papel := Fold(p.papel), tipoPessoa := Fold(p.tipoPessoa), cpfCnpj := doc, cpfCnpjValido := valid)
  }

  function NormalizedMoeda(valor: Option<real>, moeda: string): string {
    if valor.Some? && moeda == "" then "BRL" else moeda
  }

  function NormalizedAto(a: Ato): Ato {
    a.(kind := Fold(a.kind), tipo := Fold(a.tipo), data := NormalizedDate(a.data),
       moeda := NormalizedMoeda(a.valor, a.moeda),
       partes := Map(NormalizedParte, a.partes))
  }

  function NormalizedProprietario(p: Proprietario): Proprietario {
    var (doc, valid) := NormalizedDoc(p.cpfCnpj);
    p.(tipoPessoa := Fold(p.tipoPessoa), cpfCnpj := doc, cpfCnpjValido := valid)
  }

  function NormalizedOnus(o: Onus): Onus {
    o.(tipo := Fold(o.tipo), moeda := NormalizedMoeda(o.valor, o.moeda),
       status := if o.atoCancelamento != "" then "cancelado" else if o.status == "" then "ativo" else o.status)
  }

  function Normalized(m: ExtractedMatricula): ExtractedMatricula {
    m.(dataAbertura := NormalizedDate(m.dataAbertura),
       cartorio := m.cartorio.(uf := FoldUpper(m.cartorio.uf)),
       atos := Map(NormalizedAto, m.atos),
       proprietarios := Map(NormalizedProprietario, m.proprietarios),
       onus := Map(NormalizedOnus, m.onus))
  }

  // ---------- the loops ----------

  method NormalizeDoc(s: string) returns (doc: string, valid: Option<bool>)
    ensures (doc, valid) == NormalizedDoc(s)
  {
    var upper := ToUpper(s);
    doc := "";
    for i := 0 to |upper|
      invariant doc == Kept(upper[..i])
    {
      assert upper[..i + 1][..i] == upper[..i];
      if '0' <= upper[i] <= '9' || 'A' <= upper[i] <= 'Z' {
        doc := doc + [upper[i]];
      }
    }
    assert upper[..|upper|] == upper;
    if doc == "" {
      return "", None;
    }
    var ok := false;
    if |doc| == 11 {
      ok := CheckCPF(doc);
    } else if |doc| == 14 {
      ok := CheckCNPJ(doc);
    }
    return doc, Some(ok);
  }

  class ExtractionDraft {
    var numero: string
    var cartorio: Cartorio
    var dataAbertura: string
    var imovel: Imovel
    var atos: seq<Ato>
    var proprietarios: seq<Proprietario>
    var onus: seq<Onus>

    constructor (m: ExtractedMatricula)
      ensures Value() == m
    {
      numero, cartorio, dataAbertura, imovel := m.numero, m.cartorio, m.dataAbertura, m.imovel;
      atos, proprietarios, onus := m.atos, m.proprietarios, m.onus;
    }

    function Value(): ExtractedMatricula
      reads this
    {
      ExtractedMatricula(numero, cartorio, dataAbertura, imovel, atos, proprietarios, onus)
    }

    method Normalize()
      modifies this
      ensures Value() == Normalized(old(Value()))
    {
      dataAbertura := Dates.NormalizeDate(dataAbertura);
      cartorio := cartorio.(uf := FoldUpper(cartorio.uf));
      NormalizeAtos();
      NormalizeProprietarios();
      NormalizeOnus();
    }

    method NormalizeAtos()
      modifies this`atos
      ensures atos == Map(NormalizedAto, old(atos))
    {
      for i := 0 to |atos|
        invariant |atos| == |old(atos)|
        invariant forall k :: 0 <= k < i ==> atos[k] == NormalizedAto(old(atos)[k])
        invariant forall k :: i <= k < |atos| ==> atos[k] == old(atos)[k]
      {
        var a := NormalizeAto(atos[i]);
        atos := atos[i := a];
      }
      MapUnique(NormalizedAto, old(atos), atos);
    }

    method NormalizeProprietarios()
      modifies this`proprietarios
      ensures proprietarios == Map(NormalizedProprietario, old(proprietarios))
    {
      for i := 0 to |proprietarios|
        invariant |proprietarios| == |old(proprietarios)|
        invariant forall k :: 0 <= k < i ==> proprietarios[k] == NormalizedProprietario(old(proprietarios)[k])
        invariant forall k :: i <= k < |proprietarios| ==> proprietarios[k] == old(proprietarios)[k]
      {
        var p := proprietarios[i];
        p := p.(tipoPessoa := Fold(p.tipoPessoa));
        var doc, valid := NormalizeDoc(p.cpfCnpj);
        p := p.(cpfCnpj := doc, cpfCnpjValido := valid);
        proprietarios := proprietarios[i := p];
      }
      MapUnique(NormalizedProprietario, old(proprietarios), proprietarios);
    }

    method NormalizeOnus()
      modifies this`onus
      ensures onus == Map(NormalizedOnus, old(onus))
    {
      for i := 0 to |onus|
        invariant |onus| == |old(onus)|
        invariant forall k :: 0 <= k < i ==> onus[k] == NormalizedOnus(old(onus)[k])
        invariant forall k :: i <= k < |onus| ==> onus[k] == old(onus)[k]
      {
        var o := onus[i];
        o := o.(tipo := Fold(o.tipo));
        if o.valor.Some? && o.moeda == "" {
          o := o.(moeda := "BRL");
        }
        // A cancelling act decides the status; otherwise an empty one becomes active.
        if o.atoCancelamento != "" {
          o := o.(status := "cancelado");
        } else if o.status == "" {
          o := o.(status := "ativo");
        }
        onus := onus[i := o];
      }
      MapUnique(NormalizedOnus, old(onus), onus);
    }
  }

  method NormalizeAto(ato: Ato) returns (a: Ato)
    ensures a == NormalizedAto(ato)
  {
    a := ato;
    a := a.(kind := Fold(a.kind));
    a := a.(tipo := Fold(a.tipo));
    var data := Dates.NormalizeDate(a.data);
    a := a.(data := data);
    if a.valor.Some? && a.moeda == "" {
      a := a.(moeda := "BRL");
    }
    var partes := NormalizePartes(a.partes);
    a := a.(partes := partes);
  }

  method NormalizePartes(ps: seq<Parte>) returns (partes: seq<Parte>)
    ensures partes == Map(NormalizedParte, ps)
  {
    partes := ps;
    for j := 0 to |partes|
      invariant |partes| == |ps|
      invariant forall k :: 0 <= k < j ==> partes[k] == NormalizedParte(ps[k])
      invariant forall k :: j <= k < |ps| ==> partes[k] == ps[k]
    {
      var p := partes[j];
      p := p.(papel := Fold(p.papel));
      p := p.(tipoPessoa := Fold(p.tipoPessoa));
      var doc, valid := NormalizeDoc(p.cpfCnpj);
      p := p.(cpfCnpj := doc, cpfCnpjValido := valid);
      partes := partes[j := p];
    }
    MapUnique(NormalizedParte, ps, partes);
  }

  // ---------- a second pass changes nothing ----------

  predicate AllDocChars(s: string) {
    forall i :: 0 <= i < |s| ==> DocChar(s[i])
  }

  lemma {:induction false} KeptDocChars(s: string)
    ensures AllDocChars(Kept(s))
    ensures AllDocChars(s) ==> Kept(s) == s
  {
    if s != "" {
      KeptDocChars(s[..|s| - 1]);
      assert s == s[..|s| - 1] + [s[|s| - 1]];
    }
  }

  lemma UpperKeepsDocChars(s: string)
    requires AllDocChars(s)
    ensures ToUpper(s) == s
  {
    CaseCharacters(s);
  }

  lemma DocIdempotent(s: string)
    ensures NormalizedDoc(NormalizedDoc(s).0) == NormalizedDoc(s)
  {
    var doc := Kept(ToUpper(s));
    KeptDocChars(ToUpper(s));
    UpperKeepsDocChars(doc);
    KeptDocChars(doc);
  }

  lemma ParteIdempotent(p: Parte)
    ensures NormalizedParte(NormalizedParte(p)) == NormalizedParte(p)
  {
    FoldIdempotent(p.papel);
    FoldIdempotent(p.tipoPessoa);
    DocIdempotent(p.cpfCnpj);
  }

  lemma AtoIdempotent(a: Ato)
    ensures NormalizedAto(NormalizedAto(a)) == NormalizedAto(a)
  {
    FoldIdempotent(a.kind);
    FoldIdempotent(a.tipo);
    NormalizedDateFixedPoints(a.data);
    forall p | p in a.partes
      ensures NormalizedParte(NormalizedParte(p)) == NormalizedParte(p)
    {
      ParteIdempotent(p);
    }
    MapIdempotent(NormalizedParte, a.partes);
  }

  lemma ProprietarioIdempotent(p: Proprietario)
    ensures NormalizedProprietario(NormalizedProprietario(p)) == NormalizedProprietario(p)
  {
    FoldIdempotent(p.tipoPessoa);
    DocIdempotent(p.cpfCnpj);
  }

  lemma OnusIdempotent(o: Onus)
    ensures NormalizedOnus(NormalizedOnus(o)) == NormalizedOnus(o)
  {
    FoldIdempotent(o.tipo);
  }

  /** `Normalize` is idempotent on every aggregate. */
  lemma NormalizeIdempotent(m: ExtractedMatricula)
    ensures Normalized(Normalized(m)) == Normalized(m)
  {
    NormalizedDateFixedPoints(m.dataAbertura);
    FoldIdempotent(m.cartorio.uf);
    AtosIdempotent(m.atos);
    ProprietariosIdempotent(m.proprietarios);
    OnusListIdempotent(m.onus);
  }

  lemma AtosIdempotent(atos: seq<Ato>)
    ensures Map(NormalizedAto, Map(NormalizedAto, atos)) == Map(NormalizedAto, atos)
  {
    forall a | a in atos
      ensures NormalizedAto(NormalizedAto(a)) == NormalizedAto(a)
    {
      AtoIdempotent(a);
    }
    MapIdempotent(NormalizedAto, atos);
  }

  lemma ProprietariosIdempotent(ps: seq<Proprietario>)
    ensures Map(NormalizedProprietario, Map(NormalizedProprietario, ps)) == Map(NormalizedProprietario, ps)
  {
    forall p | p in ps
      ensures NormalizedProprietario(NormalizedProprietario(p)) == NormalizedProprietario(p)
    {
      ProprietarioIdempotent(p);
    }
    MapIdempotent(NormalizedProprietario, ps);
  }

  lemma OnusListIdempotent(os: seq<Onus>)
    ensures Map(NormalizedOnus, Map(NormalizedOnus, os)) == Map(NormalizedOnus, os)
  {
    forall o | o in os
      ensures NormalizedOnus(NormalizedOnus(o)) == NormalizedOnus(o)
    {
      OnusIdempotent(o);
    }
    MapIdempotent(NormalizedOnus, os);
  }

  /** The documents kept are the alphanumeric characters, so formatting does not matter. */
  lemma {:induction false} KeptConcat(s: string, t: string)
    ensures Kept(s + t) == Kept(s) + Kept(t)
  {
    if t == "" {
      assert s + t == s;
    } else {
      var u := t[..|t| - 1];
      assert (s + t)[..|s + t| - 1] == s + u;
      KeptConcat(s, u);
    }
  }

  lemma IgnoredCharacter(s: string, c: char, t: string)
    requires !DocChar(UpperChar(c))
    ensures Kept(ToUpper(s + [c] + t)) == Kept(ToUpper(s + t))
  {
    UpperConcat(s + [c], t);
    UpperConcat(s, [c]);
    UpperConcat(s, t);
    KeptConcat(ToUpper(s) + ToUpper([c]), ToUpper(t));
    KeptConcat(ToUpper(s), ToUpper([c]));
    KeptConcat(ToUpper(s), ToUpper(t));
    CaseCharacters([c]);
    assert ToUpper([c]) == [UpperChar(c)];
    assert Kept([UpperChar(c)]) == "";
    assert Kept(ToUpper(s)) + "" == Kept(ToUpper(s));
  }

  /** Punctuation and spaces anywhere in a document change neither the stored text nor its flag. */
  lemma FormattingIgnored(s: string, c: char, t: string)
    requires !DocChar(UpperChar(c))
    ensures NormalizedDoc(s + [c] + t) == NormalizedDoc(s + t)
  {
    IgnoredCharacter(s, c, t);
  }
}
