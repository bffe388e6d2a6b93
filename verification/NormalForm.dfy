/**
 What a normalized aggregate looks like, said of the aggregate alone: the fixed points of `Normalize`
 are exactly the aggregates in this form, and `Normalize` always ends in it.
 */
module NormalForm {
  import opened Wrappers
  import opened Seqs
  import opened Text
  import opened Dates
  import opened CheckDigits
  import opened Aggregate
  import opened Normalize

  /** No surrounding blanks and no capital letter. */
  predicate IsFolded(s: string) {
    Trimmed(s) && forall i :: 0 <= i < |s| ==> LowerChar(s[i]) == s[i]
  }

  predicate IsFoldedUpper(s: string) {
    Trimmed(s) && forall i :: 0 <= i < |s| ==> UpperChar(s[i]) == s[i]
  }

  /** Letters and digits only, with a flag exactly when there are any, true exactly for a valid CPF or CNPJ. */
  predicate IsCleanDoc(doc: string, valid: Option<bool>) {
    && (forall i :: 0 <= i < |doc| ==> DocChar(doc[i]))
    && valid == if doc == "" then None else Some(ValidDoc(doc))
  }

  predicate HasCurrency(valor: Option<real>, moeda: string) {
    valor.Some? ==> moeda != ""
  }

  predicate NormalParte(p: Parte) {
    IsFolded(p.papel) && IsFolded(p.tipoPessoa) && IsCleanDoc(p.cpfCnpj, p.cpfCnpjValido)
  }

  predicate NormalAto(a: Ato) {
    && IsFolded(a.kind) && IsFolded(a.tipo) && IsISO(a.data) && HasCurrency(a.valor, a.moeda)
    && forall p :: p in a.partes ==> NormalParte(p)
  }

  predicate NormalProprietario(p: Proprietario) {
    IsFolded(p.tipoPessoa) && IsCleanDoc(p.cpfCnpj, p.cpfCnpjValido)
  }

  /** A cancelling act means cancelled, and the status is never missing. */
  predicate NormalOnus(o: Onus) {
    && IsFolded(o.tipo) && HasCurrency(o.valor, o.moeda)
    && (if o.atoCancelamento != "" then o.status == "cancelado" else o.status != "")
  }

  predicate Normal(m: ExtractedMatricula) {
    && IsISO(m.dataAbertura) && IsFoldedUpper(m.cartorio.uf)
    && (forall a :: a in m.atos ==> NormalAto(a))
    && (forall p :: p in m.proprietarios ==> NormalProprietario(p))
    && (forall o :: o in m.onus ==> NormalOnus(o))
  }

  // ---------- field by field ----------

  lemma FoldFixed(s: string)
    ensures Fold(s) == s <==> IsFolded(s)
  {
    TrimSpaceTrims(s);
    if IsFolded(s) {
      CaseCharacters(s);
    } else if Fold(s) == s {
      FoldTrimmed(s);
      CaseCharacters(TrimSpace(s));
      assert false;
    }
  }

  lemma FoldUpperFixed(s: string)
    ensures FoldUpper(s) == s <==> IsFoldedUpper(s)
  {
    TrimSpaceTrims(s);
    if IsFoldedUpper(s) {
      CaseCharacters(s);
    } else if FoldUpper(s) == s {
      FoldTrimmed(s);
      CaseCharacters(TrimSpace(s));
      assert false;
    }
  }

  lemma DocFixed(doc: string, valid: Option<bool>)
    ensures NormalizedDoc(doc) == (doc, valid) <==> IsCleanDoc(doc, valid)
  {
    KeptDocChars(ToUpper(doc));
    if IsCleanDoc(doc, valid) {
      UpperKeepsDocChars(doc);
    }
  }

  lemma MapFixed<T(!new)>(f: T -> T, xs: seq<T>, normal: T -> bool)
    requires forall x :: x in xs ==> (f(x) == x <==> normal(x))
    ensures Map(f, xs) == xs <==> forall x :: x in xs ==> normal(x)
  {
    if forall x :: x in xs ==> normal(x) {
      forall i | 0 <= i < |xs|
        ensures Map(f, xs)[i] == xs[i]
      {
        assert xs[i] in xs;
      }
    }
    if Map(f, xs) == xs {
      forall x | x in xs
        ensures normal(x)
      {
        var i :| 0 <= i < |xs| && xs[i] == x;
        assert Map(f, xs)[i] == f(xs[i]);
      }
    }
  }

  lemma ParteFixed(p: Parte)
    ensures NormalizedParte(p) == p <==> NormalParte(p)
  {
    FoldFixed(p.papel);
    FoldFixed(p.tipoPessoa);
    DocFixed(p.cpfCnpj, p.cpfCnpjValido);
  }

  lemma AtoFixed(a: Ato)
    ensures NormalizedAto(a) == a <==> NormalAto(a)
  {
    FoldFixed(a.kind);
    FoldFixed(a.tipo);
    NormalizedDateFixedPoints(a.data);
    forall p | p in a.partes
      ensures NormalizedParte(p) == p <==> NormalParte(p)
    {
      ParteFixed(p);
    }
    MapFixed(NormalizedParte, a.partes, NormalParte);
  }

  lemma ProprietarioFixed(p: Proprietario)
    ensures NormalizedProprietario(p) == p <==> NormalProprietario(p)
  {
    FoldFixed(p.tipoPessoa);
    DocFixed(p.cpfCnpj, p.cpfCnpjValido);
  }

  lemma OnusFixed(o: Onus)
    ensures NormalizedOnus(o) == o <==> NormalOnus(o)
  {
    FoldFixed(o.tipo);
  }

  lemma ListsFixed(m: ExtractedMatricula)
    ensures Map(NormalizedAto, m.atos) == m.atos <==> forall a :: a in m.atos ==> NormalAto(a)
    ensures Map(NormalizedProprietario, m.proprietarios) == m.proprietarios
      <==> forall p :: p in m.proprietarios ==> NormalProprietario(p)
    ensures Map(NormalizedOnus, m.onus) == m.onus <==> forall o :: o in m.onus ==> NormalOnus(o)
  {
    forall a | a in m.atos
      ensures NormalizedAto(a) == a <==> NormalAto(a)
    {
      AtoFixed(a);
    }
    MapFixed(NormalizedAto, m.atos, NormalAto);
    forall p | p in m.proprietarios
      ensures NormalizedProprietario(p) == p <==> NormalProprietario(p)
    {
      ProprietarioFixed(p);
    }
    MapFixed(NormalizedProprietario, m.proprietarios, NormalProprietario);
    forall o | o in m.onus
      ensures NormalizedOnus(o) == o <==> NormalOnus(o)
    {
      OnusFixed(o);
    }
    MapFixed(NormalizedOnus, m.onus, NormalOnus);
  }

  /** The aggregates that `Normalize` leaves alone are exactly those in normal form. */
  lemma FixedPointsIff(m: ExtractedMatricula)
    ensures Normalized(m) == m <==> Normal(m)
  {
    NormalizedDateFixedPoints(m.dataAbertura);
    FoldUpperFixed(m.cartorio.uf);
    ListsFixed(m);
  }

  // ---------- what normalization leaves alone ----------

  /** The free text of an ato and of its partes, which the LLM transcribed and nobody may alter. */
  predicate SameAtoText(a: Ato, b: Ato) {
    && b.numero == a.numero && b.valor == a.valor && b.descricao == a.descricao
    && (a.moeda != "" ==> b.moeda == a.moeda)
    && |b.partes| == |a.partes| && forall i :: 0 <= i < |a.partes| ==> b.partes[i].nome == a.partes[i].nome
  }

  predicate SameOnusText(o: Onus, n: Onus) {
    && n.atoConstituicao == o.atoConstituicao && n.atoCancelamento == o.atoCancelamento
    && n.credor == o.credor && n.valor == o.valor && n.descricao == o.descricao
    && (o.moeda != "" ==> n.moeda == o.moeda)
    && (o.atoCancelamento == "" && o.status != "" ==> n.status == o.status)
  }

  /** Names, numbers, references, amounts and descriptions are the same, list by list and in order. */
  predicate SameText(m: ExtractedMatricula, n: ExtractedMatricula) {
    && n.numero == m.numero && n.imovel == m.imovel
    && n.cartorio.nome == m.cartorio.nome && n.cartorio.comarca == m.cartorio.comarca
    && |n.atos| == |m.atos| && (forall i :: 0 <= i < |m.atos| ==> SameAtoText(m.atos[i], n.atos[i]))
    && |n.proprietarios| == |m.proprietarios|
    && (forall i :: 0 <= i < |m.proprietarios| ==>
          && n.proprietarios[i].nome == m.proprietarios[i].nome
          && n.proprietarios[i].fracao == m.proprietarios[i].fracao
          && n.proprietarios[i].atoAquisicao == m.proprietarios[i].atoAquisicao)
    && |n.onus| == |m.onus| && (forall i :: 0 <= i < |m.onus| ==> SameOnusText(m.onus[i], n.onus[i]))
  }

  lemma TextSurvives(m: ExtractedMatricula)
    ensures SameText(m, Normalized(m))
  {}

  /** `Normalize` always ends in normal form and leaves the transcribed text alone. */
  lemma NormalizedIsNormal(m: ExtractedMatricula)
    ensures Normal(Normalized(m)) && SameText(m, Normalized(m))
  {
    NormalizeIdempotent(m);
    FixedPointsIff(Normalized(m));
    TextSurvives(m);
  }

  // ---------- what normalization makes of each field ----------

  /** t is s without the blanks at its ends, every character in lower case. */
  predicate Folds(s: string, t: string) {
    |t| == |TrimSpace(s)| && forall i :: 0 <= i < |t| ==> t[i] == LowerChar(TrimSpace(s)[i])
  }

  predicate FoldsUpper(s: string, t: string) {
    |t| == |TrimSpace(s)| && forall i :: 0 <= i < |t| ==> t[i] == UpperChar(TrimSpace(s)[i])
  }

  const DIGITS := "0123456789"

  /** The characters of a CPF or a CNPJ are the ten digits and the capital letters. */
  lemma DocCharIff(c: char)
    ensures DocChar(c) <==> c in DIGITS || c in CAPITALS
  {
    Alphabet(c);
    if '0' <= c <= '9' {
      assert DIGITS[c as int - '0' as int] == c;
    }
  }

  /** doc consists of the characters of s at these places, in upper case: all its letters and digits. */
  ghost predicate Picks(s: string, doc: string, at: seq<nat>) {
    && |at| == |doc| && Increasing(at)
    && (forall k :: k in at <==> 0 <= k < |s| && DocChar(UpperChar(s[k])))
    && forall i :: 0 <= i < |doc| ==> at[i] < |s| && doc[i] == UpperChar(s[at[i]])
  }

  predicate IsCPF(doc: string) {
    |doc| == 11 && ValidCPF(doc)
  }

  predicate IsCNPJ(doc: string) {
    |doc| == 14 && ValidCNPJ(doc)
  }

  /** The letters and digits of s, with a flag exactly when there are any, true exactly for a CPF or a CNPJ. */
  ghost predicate CleansDoc(s: string, doc: string, valid: Option<bool>) {
    && (exists at :: Picks(s, doc, at))
    && (valid.None? <==> doc == "")
    && (valid.Some? ==> (valid.value <==> IsCPF(doc) || IsCNPJ(doc)))
  }

  /** An amount without a currency is in reais; nothing else gets one. */
  predicate GivesCurrency(valor: Option<real>, moeda: string, given: string) {
    && (moeda == "" && valor.Some? ==> given == "BRL")
    && (moeda != "" || valor.None? ==> given == moeda)
  }

  ghost predicate TidiesParte(p: Parte, q: Parte) {
    && q.nome == p.nome && Folds(p.papel, q.papel) && Folds(p.tipoPessoa, q.tipoPessoa)
    && CleansDoc(p.cpfCnpj, q.cpfCnpj, q.cpfCnpjValido)
  }

  ghost predicate TidiesAto(a: Ato, b: Ato) {
    && b.numero == a.numero && b.valor == a.valor && b.descricao == a.descricao
    && Folds(a.kind, b.kind) && Folds(a.tipo, b.tipo) && Restates(a.data, b.data) && GivesCurrency(a.valor, a.moeda, b.moeda)
    && |b.partes| == |a.partes| && forall i :: 0 <= i < |a.partes| ==> TidiesParte(a.partes[i], b.partes[i])
  }

  ghost predicate TidiesProprietario(p: Proprietario, q: Proprietario) {
    && q.nome == p.nome && q.fracao == p.fracao && q.atoAquisicao == p.atoAquisicao
    && Folds(p.tipoPessoa, q.tipoPessoa) && CleansDoc(p.cpfCnpj, q.cpfCnpj, q.cpfCnpjValido)
  }

  /**
   An encumbrance with a cancelling act is cancelled; without one it keeps the status it has, and is active
   if it has none.
   */
  predicate TidiesOnus(o: Onus, n: Onus) {
    && n.atoConstituicao == o.atoConstituicao && n.atoCancelamento == o.atoCancelamento
    && n.credor == o.credor && n.valor == o.valor && n.descricao == o.descricao
    && Folds(o.tipo, n.tipo) && GivesCurrency(o.valor, o.moeda, n.moeda)
    && (o.atoCancelamento != "" ==> n.status == "cancelado")
    && (o.atoCancelamento == "" && o.status == "" ==> n.status == "ativo")
    && (o.atoCancelamento == "" && o.status != "" ==> n.status == o.status)
  }

  ghost predicate Tidies(m: ExtractedMatricula, n: ExtractedMatricula) {
    && n.numero == m.numero && n.imovel == m.imovel && Restates(m.dataAbertura, n.dataAbertura)
    && n.cartorio.nome == m.cartorio.nome && n.cartorio.comarca == m.cartorio.comarca
    && FoldsUpper(m.cartorio.uf, n.cartorio.uf)
    && |n.atos| == |m.atos| && (forall i :: 0 <= i < |m.atos| ==> TidiesAto(m.atos[i], n.atos[i]))
    && |n.proprietarios| == |m.proprietarios|
    && (forall i :: 0 <= i < |m.proprietarios| ==> TidiesProprietario(m.proprietarios[i], n.proprietarios[i]))
    && |n.onus| == |m.onus| && (forall i :: 0 <= i < |m.onus| ==> TidiesOnus(m.onus[i], n.onus[i]))
  }

  lemma FoldIff(s: string, t: string)
    ensures t == Fold(s) <==> Folds(s, t)
    ensures t == FoldUpper(s) <==> FoldsUpper(s, t)
  {
    CaseCharacters(TrimSpace(s));
  }

  lemma PicksMore(s: string, c: char, doc: string, at: seq<nat>)
    requires Picks(s, doc, at)
    ensures DocChar(UpperChar(c)) ==> Picks(s + [c], doc + [UpperChar(c)], at + [|s|])
    ensures !DocChar(UpperChar(c)) ==> Picks(s + [c], doc, at)
  {
    var t := s + [c];
    assert forall k :: 0 <= k < |s| ==> t[k] == s[k];
    forall k
      ensures k in at + [|s|] <==> k in at || k == |s|
    {}
    assert forall k :: k in at ==> k < |s|;
    assert forall i :: 0 <= i < |at| ==> at[i] in at;
  }

  lemma {:induction false} KeptPicks(s: string) returns (at: seq<nat>)
    ensures Picks(s, Kept(ToUpper(s)), at)
  {
    if s == "" {
      return [];
    }
    var n := |s| - 1;
    var before := KeptPicks(s[..n]);
    PicksMore(s[..n], s[n], Kept(ToUpper(s[..n])), before);
    assert s == s[..n] + [s[n]];
    assert ToUpper(s)[..|ToUpper(s)| - 1] == ToUpper(s[..n]);
    at := if DocChar(UpperChar(s[n])) then before + [n] else before;
  }

  lemma PicksOnce(s: string, doc: string, at: seq<nat>, doc2: string, at2: seq<nat>)
    requires Picks(s, doc, at) && Picks(s, doc2, at2)
    ensures doc == doc2
  {
    IncreasingUnique(at, at2);
  }

  lemma DocIff(s: string, doc: string, valid: Option<bool>)
    ensures NormalizedDoc(s) == (doc, valid) <==> CleansDoc(s, doc, valid)
  {
    var at := KeptPicks(s);
    if at2 :| Picks(s, doc, at2) {
      PicksOnce(s, Kept(ToUpper(s)), at, doc, at2);
    }
  }

  lemma ParteIff(p: Parte, q: Parte)
    ensures q == NormalizedParte(p) <==> TidiesParte(p, q)
  {
    FoldIff(p.papel, q.papel);
    FoldIff(p.tipoPessoa, q.tipoPessoa);
    DocIff(p.cpfCnpj, q.cpfCnpj, q.cpfCnpjValido);
  }

  lemma MapIff<T(!new), U(!new)>(f: T -> U, xs: seq<T>, ys: seq<U>, rel: (T, U) -> bool)
    requires forall x, y :: y == f(x) <==> rel(x, y)
    ensures ys == Map(f, xs) <==> |ys| == |xs| && forall i :: 0 <= i < |xs| ==> rel(xs[i], ys[i])
  {
    if |ys| == |xs| && forall i :: 0 <= i < |xs| ==> rel(xs[i], ys[i]) {
      MapUnique(f, xs, ys);
    }
  }

  lemma AtoIff(a: Ato, b: Ato)
    ensures b == NormalizedAto(a) <==> TidiesAto(a, b)
  {
    FoldIff(a.kind, b.kind);
    FoldIff(a.tipo, b.tipo);
    NormalizedDateIff(a.data, b.data);
    forall p, q
      ensures q == NormalizedParte(p) <==> TidiesParte(p, q)
    {
      ParteIff(p, q);
    }
    MapIff(NormalizedParte, a.partes, b.partes, TidiesParte);
  }

  lemma ProprietarioIff(p: Proprietario, q: Proprietario)
    ensures q == NormalizedProprietario(p) <==> TidiesProprietario(p, q)
  {
    FoldIff(p.tipoPessoa, q.tipoPessoa);
    DocIff(p.cpfCnpj, q.cpfCnpj, q.cpfCnpjValido);
  }

  lemma OnusIff(o: Onus, n: Onus)
    ensures n == NormalizedOnus(o) <==> TidiesOnus(o, n)
  {
    FoldIff(o.tipo, n.tipo);
  }

  lemma ListsIff(m: ExtractedMatricula, n: ExtractedMatricula)
    ensures n.atos == Map(NormalizedAto, m.atos) <==>
      |n.atos| == |m.atos| && forall i :: 0 <= i < |m.atos| ==> TidiesAto(m.atos[i], n.atos[i])
    ensures n.proprietarios == Map(NormalizedProprietario, m.proprietarios) <==>
      && |n.proprietarios| == |m.proprietarios|
      && forall i :: 0 <= i < |m.proprietarios| ==> TidiesProprietario(m.proprietarios[i], n.proprietarios[i])
    ensures n.onus == Map(NormalizedOnus, m.onus) <==>
      |n.onus| == |m.onus| && forall i :: 0 <= i < |m.onus| ==> TidiesOnus(m.onus[i], n.onus[i])
  {
    forall a, b
      ensures b == NormalizedAto(a) <==> TidiesAto(a, b)
    {
      AtoIff(a, b);
    }
    MapIff(NormalizedAto, m.atos, n.atos, TidiesAto);
    forall p, q
      ensures q == NormalizedProprietario(p) <==> TidiesProprietario(p, q)
    {
      ProprietarioIff(p, q);
    }
    MapIff(NormalizedProprietario, m.proprietarios, n.proprietarios, TidiesProprietario);
    forall o, p
      ensures p == NormalizedOnus(o) <==> TidiesOnus(o, p)
    {
      OnusIff(o, p);
    }
    MapIff(NormalizedOnus, m.onus, n.onus, TidiesOnus);
  }

  /** One aggregate tidies another exactly when it is its normalization: the demands on each field decide the result. */
  lemma NormalizationIff(m: ExtractedMatricula, n: ExtractedMatricula)
    ensures n == Normalized(m) <==> Tidies(m, n)
  {
    NormalizedDateIff(m.dataAbertura, n.dataAbertura);
    FoldIff(m.cartorio.uf, n.cartorio.uf);
    ListsIff(m, n);
  }

  /** After normalization an encumbrance is cancelled only if an act cancels it or it was called so before. */
  lemma CancelledIff(m: ExtractedMatricula, i: nat)
    requires i < |m.onus|
    ensures Normalized(m).onus[i].status == "cancelado" <==> m.onus[i].atoCancelamento != "" || m.onus[i].status == "cancelado"
    ensures Normalized(m).onus[i].status == "ativo" <==>
      m.onus[i].atoCancelamento == "" && (m.onus[i].status == "" || m.onus[i].status == "ativo")
  {
    NormalizationIff(m, Normalized(m));
    assert TidiesOnus(m.onus[i], Normalized(m).onus[i]);
  }
}
