/**
 The extracted matrícula aggregate: the one shape shared by the LLM output, the
 persistence layer and the read API. Numbers are opaque to every operation modelled here.
 */
module Aggregate {
  import opened Wrappers
  import opened Seqs

  datatype Cartorio = Cartorio(nome: string, comarca: string, uf: string)

  datatype Imovel = Imovel(descricao: string, endereco: string, areaM2: Option<real>, tipo: string)

  datatype Parte = Parte(
    papel: string, nome: string, cpfCnpj: string, cpfCnpjValido: Option<bool>, tipoPessoa: string)

  datatype Ato = Ato(
    numero: string, kind: string, tipo: string, data: string, valor: Option<real>,
    moeda: string, descricao: string, partes: seq<Parte>)

  datatype Proprietario = Proprietario(
    nome: string, cpfCnpj: string, cpfCnpjValido: Option<bool>, tipoPessoa: string,
    fracao: Option<real>, atoAquisicao: string)

  datatype Onus = Onus(
    tipo: string, status: string, atoConstituicao: string, atoCancelamento: string,
    credor: string, valor: Option<real>, moeda: string, descricao: string)

  datatype ExtractedMatricula = ExtractedMatricula(
    numero: string, cartorio: Cartorio, dataAbertura: string, imovel: Imovel,
    atos: seq<Ato>, proprietarios: seq<Proprietario>, onus: seq<Onus>)

  // ---------- an aggregate read in parts ----------

  /** A read is five queries: the header, the atos, their partes, the owners, the encumbrances. */
  const PARTS: nat := 5

  function WithoutPartes(a: Ato): Ato {
    a.(partes := [])
  }

  /** What is left of m when only the first k queries find its rows. */
  function FirstParts(m: ExtractedMatricula, k: nat): ExtractedMatricula {
    m.(atos := if k >= 3 then m.atos else if k == 2 then Map(WithoutPartes, m.atos) else [],
       proprietarios := if k >= 4 then m.proprietarios else [],
       onus := if k >= 5 then m.onus else [])
  }

  /** Nothing of m is missing after k queries: the others would have found no rows anyway. */
  predicate Complete(m: ExtractedMatricula, k: nat) {
    && (k < 5 ==> m.onus == []) && (k < 4 ==> m.proprietarios == [])
    && (k < 3 ==> forall a :: a in m.atos ==> a.partes == []) && (k < 2 ==> m.atos == [])
  }

  lemma CompleteIff(m: ExtractedMatricula, k: nat)
    ensures FirstParts(m, k) == m <==> Complete(m, k)
  {
    if k == 2 {
      if FirstParts(m, k) == m {
        forall a | a in m.atos
          ensures a.partes == []
        {
          var i :| 0 <= i < |m.atos| && m.atos[i] == a;
          assert Map(WithoutPartes, m.atos)[i] == WithoutPartes(a);
        }
      }
      if Complete(m, k) {
        forall i | 0 <= i < |m.atos|
          ensures Map(WithoutPartes, m.atos)[i] == m.atos[i]
        {
          assert m.atos[i] in m.atos;
        }
        MapUnique(WithoutPartes, m.atos, m.atos);
      }
    }
  }

  /** The empty string stands for NULL in every optional text column. */
  function NullStr(s: string): Option<string> {
    if s == "" then None else Some(s)
  }

  /** `COALESCE(column, '')`. */
  function Coalesce(s: Option<string>): string {
    match s
    case Some(v) => v
    case None => ""
  }
}
