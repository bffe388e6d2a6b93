/**
 The closed vocabularies, seen from three sides: the validator that runs on the LLM output,
 the normalizer, and the CHECK constraints of the tables.
 */
module Schema {
  import opened Wrappers
  import opened Seqs
  import opened Text
  import opened Dates
  import opened Aggregate
  import opened Normalize

  const KINDS := ["registro", "averbacao"]
  const PAPEIS := ["transmitente", "adquirente", "credor", "devedor", "interessado"]
  const PESSOAS := ["fisica", "juridica"]
  const STATUSES := ["ativo", "cancelado"]

  // ---------- the validator ----------

  predicate EnumOK(v: string, optional: bool, allowed: seq<string>) {
    if Fold(v) == "" then optional else Fold(v) in allowed
  }

  predicate ParteAccepted(p: Parte) {
    EnumOK(p.papel, false, PAPEIS) && EnumOK(p.tipoPessoa, true, PESSOAS)
  }

  predicate AtoAccepted(a: Ato) {
    EnumOK(a.kind, false, KINDS) && forall p :: p in a.partes ==> ParteAccepted(p)
  }

  predicate OwnerAccepted(p: Proprietario) {
    EnumOK(p.tipoPessoa, true, PESSOAS)
  }

  predicate ActsAndOwnersAccepted(m: ExtractedMatricula) {
    && (forall a :: a in m.atos ==> AtoAccepted(a))
    && (forall p :: p in m.proprietarios ==> OwnerAccepted(p))
  }

  predicate StatusAccepted(o: Onus) {
    EnumOK(o.status, true, STATUSES)
  }

  predicate Accepted(m: ExtractedMatricula) {
    && ActsAndOwnersAccepted(m)
    && (forall o :: o in m.onus ==> StatusAccepted(o))
  }

  datatype EnumError =
    | BadKind(ato: Ato)
    | BadPapel(ato: Ato, parte: Parte)
    | BadParteTipo(ato: Ato, parte: Parte)
    | BadProprietarioTipo(proprietario: Proprietario)
    | BadOnusStatus(onus: Onus)

  predicate AtoOffends(e: EnumError, a: Ato) {
    match e
    case BadKind(b) => b == a && !EnumOK(a.kind, false, KINDS)
    case BadPapel(b, p) => b == a && p in a.partes && !EnumOK(p.papel, false, PAPEIS)
    case BadParteTipo(b, p) => b == a && p in a.partes && !EnumOK(p.tipoPessoa, true, PESSOAS)
    case _ => false
  }

  /** The error names a value of m that is outside its vocabulary. */
  predicate Offends(e: EnumError, m: ExtractedMatricula) {
    match e
    case BadProprietarioTipo(p) => p in m.proprietarios && !EnumOK(p.tipoPessoa, true, PESSOAS)
    case BadOnusStatus(o) => o in m.onus && !EnumOK(o.status, true, STATUSES)
    case _ => e.ato in m.atos && AtoOffends(e, e.ato)
  }

  method CheckEnum(v: string, optional: bool, allowed: seq<string>) returns (ok: bool)
    ensures ok == EnumOK(v, optional, allowed)
  {
    var folded := Fold(v);
    if folded == "" {
      return optional;
    }
    for i := 0 to |allowed|
      invariant folded !in allowed[..i]
    {
      if folded == allowed[i] {
        return true;
      }
    }
    assert allowed[..|allowed|] == allowed;
    return false;
  }

  method ValidateAto(a: Ato) returns (err: Option<EnumError>)
    ensures err.None? <==> AtoAccepted(a)
    ensures err.Some? ==> AtoOffends(err.value, a)
  {
    var ok := CheckEnum(a.kind, false, KINDS);
    if !ok {
      return Some(BadKind(a));
    }
    for j := 0 to |a.partes|
      invariant forall k :: 0 <= k < j ==> ParteAccepted(a.partes[k])
    {
      assert a.partes[j] in a.partes;
      ok := CheckEnum(a.partes[j].papel, false, PAPEIS);
      if !ok {
        assert !ParteAccepted(a.partes[j]);
        return Some(BadPapel(a, a.partes[j]));
      }
      ok := CheckEnum(a.partes[j].tipoPessoa, true, PESSOAS);
      if !ok {
        return Some(BadParteTipo(a, a.partes[j]));
      }
    }
    return None;
  }

  /** No error exactly when every value folds into its vocabulary; an error names an offender. */
  method ValidateEnums(m: ExtractedMatricula) returns (err: Option<EnumError>)
    ensures err.None? <==> Accepted(m)
    ensures err.Some? ==> Offends(err.value, m)
  {
    for i := 0 to |m.atos|
      invariant forall k :: 0 <= k < i ==> AtoAccepted(m.atos[k])
    {
      err := ValidateAto(m.atos[i]);
      if err.Some? {
        return;
      }
    }
    for i := 0 to |m.proprietarios|
      invariant forall k :: 0 <= k < i ==> OwnerAccepted(m.proprietarios[k])
    {
      assert m.proprietarios[i] in m.proprietarios;
      var ok := CheckEnum(m.proprietarios[i].tipoPessoa, true, PESSOAS);
      if !ok {
        assert !OwnerAccepted(m.proprietarios[i]);
        return Some(BadProprietarioTipo(m.proprietarios[i]));
      }
    }
    for i := 0 to |m.onus|
      invariant forall k :: 0 <= k < i ==> StatusAccepted(m.onus[k])
    {
      assert m.onus[i] in m.onus;
      var ok := CheckEnum(m.onus[i].status, true, STATUSES);
      if !ok {
        return Some(BadOnusStatus(m.onus[i]));
      }
    }
    return None;
  }

  // ---------- the CHECK constraints ----------

  const KIND_CHECK := {"registro", "averbacao"}
  const PAPEL_CHECK := {"transmitente", "adquirente", "credor", "devedor", "interessado"}
  const PESSOA_CHECK := {"fisica", "juridica"}
  const STATUS_CHECK := {"ativo", "cancelado"}

  /** A CHECK on a nullable column passes on NULL. */
  predicate NullableCheck(v: Option<string>, allowed: set<string>) {
    v.Some? ==> v.value in allowed
  }

  predicate ParteChecks(p: Parte) {
    p.papel in PAPEL_CHECK && NullableCheck(NullStr(p.tipoPessoa), PESSOA_CHECK)
  }

  predicate AtoChecks(a: Ato) {
    a.kind in KIND_CHECK && forall p :: p in a.partes ==> ParteChecks(p)
  }

  predicate OwnerChecks(p: Proprietario) {
    NullableCheck(NullStr(p.tipoPessoa), PESSOA_CHECK)
  }

  predicate ActsAndOwnersChecks(m: ExtractedMatricula) {
    && (forall a :: a in m.atos ==> AtoChecks(a))
    && (forall p :: p in m.proprietarios ==> OwnerChecks(p))
  }

  predicate StatusChecks(o: Onus) {
    o.status in STATUS_CHECK
  }

  predicate ChecksHold(m: ExtractedMatricula) {
    ActsAndOwnersChecks(m) && forall o :: o in m.onus ==> StatusChecks(o)
  }

  /** The text a date column accepts: NULL, or an ISO date. PostgreSQL has no year 0. */
  predicate Castable(s: string) {
    s == "" || (Parse(ISO, s).Some? && Parse(ISO, s).value.year >= 1)
  }

  predicate DatesCastable(m: ExtractedMatricula) {
    Castable(m.dataAbertura) && forall a :: a in m.atos ==> Castable(a.data)
  }

  /** The dates are as `SaveAggregate` asks its callers to pass them. */
  predicate DatesNormalized(m: ExtractedMatricula) {
    IsISO(m.dataAbertura) && forall a :: a in m.atos ==> IsISO(a.data)
  }

  /** No insert of `SaveAggregate` violates a constraint or a cast. */
  predicate Storable(m: ExtractedMatricula) {
    ChecksHold(m) && DatesCastable(m)
  }

  // ---------- agreement ----------

  /** The validator's lists and the constraints' are the same vocabularies. */
  lemma VocabulariesAgree(v: string)
    ensures v in KINDS <==> v in KIND_CHECK
    ensures v in PAPEIS <==> v in PAPEL_CHECK
    ensures v in PESSOAS <==> v in PESSOA_CHECK
    ensures v in STATUSES <==> v in STATUS_CHECK
  {}

  lemma RequiredAgrees(v: string, allowed: seq<string>, check: set<string>)
    requires "" !in check && (Fold(v) in allowed <==> Fold(v) in check)
    ensures EnumOK(v, false, allowed) <==> Fold(v) in check
  {}

  lemma OptionalAgrees(v: string, allowed: seq<string>, check: set<string>)
    requires Fold(v) in allowed <==> Fold(v) in check
    ensures EnumOK(v, true, allowed) <==> NullableCheck(NullStr(Fold(v)), check)
  {}

  lemma ParteAgrees(p: Parte)
    ensures ParteAccepted(p) <==> ParteChecks(NormalizedParte(p))
  {
    VocabulariesAgree(Fold(p.papel));
    RequiredAgrees(p.papel, PAPEIS, PAPEL_CHECK);
    VocabulariesAgree(Fold(p.tipoPessoa));
    OptionalAgrees(p.tipoPessoa, PESSOAS, PESSOA_CHECK);
  }

  lemma AtoAgrees(a: Ato)
    ensures AtoAccepted(a) <==> AtoChecks(NormalizedAto(a))
  {
    VocabulariesAgree(Fold(a.kind));
    RequiredAgrees(a.kind, KINDS, KIND_CHECK);
    forall p | p in a.partes
      ensures ParteAccepted(p) <==> ParteChecks(NormalizedParte(p))
    {
      ParteAgrees(p);
    }
    MapAll(NormalizedParte, a.partes, ParteAccepted, ParteChecks);
  }

  lemma AtosAgree(atos: seq<Ato>)
    ensures (forall a :: a in atos ==> AtoAccepted(a)) <==> (forall a :: a in Map(NormalizedAto, atos) ==> AtoChecks(a))
  {
    forall a | a in atos
      ensures AtoAccepted(a) <==> AtoChecks(NormalizedAto(a))
    {
      AtoAgrees(a);
    }
    MapAll(NormalizedAto, atos, AtoAccepted, AtoChecks);
  }

  lemma OwnersAgree(ps: seq<Proprietario>)
    ensures (forall p :: p in ps ==> OwnerAccepted(p))
       <==> (forall p :: p in Map(NormalizedProprietario, ps) ==> OwnerChecks(p))
  {
    forall p | p in ps
      ensures OwnerAccepted(p) <==> OwnerChecks(NormalizedProprietario(p))
    {
      VocabulariesAgree(Fold(p.tipoPessoa));
      OptionalAgrees(p.tipoPessoa, PESSOAS, PESSOA_CHECK);
    }
    MapAll(NormalizedProprietario, ps, OwnerAccepted, OwnerChecks);
  }

  /**
   For kind, papel and tipo_pessoa the validator accepts exactly the aggregates whose
   normalized, null-encoded values satisfy the CHECK constraints.
   */
  lemma ValidatorAgreesWithSchema(m: ExtractedMatricula)
    ensures ActsAndOwnersAccepted(m) <==> ActsAndOwnersChecks(Normalized(m))
  {
    AtosAgree(m.atos);
    OwnersAgree(m.proprietarios);
  }

  /** The ônus statuses that survive normalization: it neither trims nor folds this field. */
  predicate StatusSurvives(o: Onus) {
    o.atoCancelamento != "" || o.status == "" || o.status in STATUS_CHECK
  }

  lemma StatusCheckIff(o: Onus)
    ensures StatusChecks(NormalizedOnus(o)) <==> StatusSurvives(o)
  {
    assert "cancelado" in STATUS_CHECK && "ativo" in STATUS_CHECK;
  }

  /**
   So an accepted aggregate satisfies every CHECK after normalization exactly when each
   ônus has a cancelling act or a status that is literally empty, ativo or cancelado.
   */
  lemma AcceptedIsCheckedIff(m: ExtractedMatricula)
    requires Accepted(m)
    ensures ChecksHold(Normalized(m)) <==> forall o :: o in m.onus ==> StatusSurvives(o)
  {
    ValidatorAgreesWithSchema(m);
    forall o | o in m.onus
      ensures StatusSurvives(o) <==> StatusChecks(NormalizedOnus(o))
    {
      StatusCheckIff(o);
    }
    MapAll(NormalizedOnus, m.onus, StatusSurvives, StatusChecks);
  }

  lemma CapitalStatus()
    ensures Fold("Ativo") == "ativo"
  {
    TrimSpaceTrims("Ativo");
    CaseCharacters("Ativo");
  }

  /** An aggregate the validator accepts and the schema rejects: one ônus with status "Ativo". */
  lemma StatusGapExample() returns (m: ExtractedMatricula)
    ensures Accepted(m) && !ChecksHold(Normalized(m))
  {
    var o := Onus("penhora", "Ativo", "", "", "", None, "", "");
    m := ExtractedMatricula("1", Cartorio("", "", ""), "", Imovel("", "", None, ""), [], [], [o]);
    CapitalStatus();
    assert "ativo" == STATUSES[0];
    assert "Ativo"[0] != "ativo"[0];
    assert |"Ativo"| != |"cancelado"|;
    assert !StatusSurvives(o) && o in m.onus;
    AcceptedIsCheckedIff(m);
  }

  lemma AtoDateISO(a: Ato)
    ensures IsISO(NormalizedAto(a).data)
  {
    NormalizedDateFixedPoints(a.data);
  }

  /** The output of `Normalize` is what `SaveAggregate` asks for: every date is ISO or empty. */
  lemma NormalizedDatesAreISO(m: ExtractedMatricula)
    ensures DatesNormalized(Normalized(m))
  {
    NormalizedDateFixedPoints(m.dataAbertura);
    var atos := Map(NormalizedAto, m.atos);
    forall i | 0 <= i < |m.atos|
      ensures IsISO(atos[i].data)
    {
      AtoDateISO(m.atos[i]);
    }
  }
}
