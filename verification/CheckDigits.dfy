/**
 CPF and CNPJ check digits: the loops of `validCPF` and `validCNPJ`, and what the two
 digits are for. The modulus 11 catches every single wrong digit and the usual swaps,
 except where two residues share the digit 0.
 */
module CheckDigits {
  import opened Dates

  const CPF_WEIGHTS_1 := [10, 9, 8, 7, 6, 5, 4, 3, 2]
  const CPF_WEIGHTS_2 := [11, 10, 9, 8, 7, 6, 5, 4, 3, 2]
  const CNPJ_WEIGHTS := [6, 5, 4, 3, 2, 9, 8, 7, 6, 5, 4, 3, 2]

  predicate AllDigits(s: string) {
    forall i :: 0 <= i < |s| ==> IsDigit(s[i])
  }

  predicate AllSame(s: string) {
    forall i :: 0 <= i < |s| ==> s[i] == s[0]
  }

  /** The weighted sum of the first k characters. */
  function Sum(s: string, w: seq<int>, k: nat): int
    requires k <= |s| && k <= |w|
  {
    if k == 0 then 0 else Sum(s, w, k - 1) + DigitValue(s[k - 1]) * w[k - 1]
  }

  function CPFDigit(sum: int): int {
    sum * 10 % 11 % 10
  }

  function CNPJDigit(sum: int): int {
    var dv := 11 - sum % 11;
    if dv >= 10 then 0 else dv
  }

  predicate ValidCPF(s: string)
    requires |s| == 11
  {
    && !AllSame(s) && AllDigits(s)
    && DigitValue(s[9]) == CPFDigit(Sum(s, CPF_WEIGHTS_1, 9))
    && DigitValue(s[10]) == CPFDigit(Sum(s, CPF_WEIGHTS_2, 10))
  }

  predicate ValidCNPJ(s: string)
    requires |s| == 14
  {
    && !AllSame(s) && AllDigits(s)
    && DigitValue(s[12]) == CNPJDigit(Sum(s, CNPJ_WEIGHTS[1..], 12))
    && DigitValue(s[13]) == CNPJDigit(Sum(s, CNPJ_WEIGHTS, 13))
  }

  // ---------- the loops ----------

  method IsAllDigits(s: string) returns (r: bool)
    ensures r == AllDigits(s)
  {
    for i := 0 to |s|
      invariant forall k :: 0 <= k < i ==> IsDigit(s[k])
    {
      if s[i] < '0' || s[i] > '9' {
        return false;
      }
    }
    return true;
  }

  method IsAllSame(s: string) returns (r: bool)
    ensures r == AllSame(s)
  {
    var i := 1;
    while i < |s|
      invariant 1 <= i
      invariant forall k :: 0 <= k < i && k < |s| ==> s[k] == s[0]
    {
      if s[i] != s[0] {
        return false;
      }
      i := i + 1;
    }
    return true;
  }

  method CheckCPF(cpf: string) returns (valid: bool)
    requires |cpf| == 11
    ensures valid == ValidCPF(cpf)
  {
    var same := IsAllSame(cpf);
    var digits := IsAllDigits(cpf);
    if same || !digits {
      return false;
    }
    for n := 9 to 11
      invariant n >= 10 ==> DigitValue(cpf[9]) == CPFDigit(Sum(cpf, CPF_WEIGHTS_1, 9))
      invariant n == 11 ==> DigitValue(cpf[10]) == CPFDigit(Sum(cpf, CPF_WEIGHTS_2, 10))
    {
      var sum := 0;
      for i := 0 to n
        invariant sum == Sum(cpf, if n == 9 then CPF_WEIGHTS_1 else CPF_WEIGHTS_2, i)
      {
        assert (n + 1 - i) == (if n == 9 then CPF_WEIGHTS_1 else CPF_WEIGHTS_2)[i];
        sum := sum + DigitValue(cpf[i]) * (n + 1 - i);
      }
      var dv := sum * 10 % 11 % 10;
      if dv != DigitValue(cpf[n]) {
        return false;
      }
    }
    return true;
  }

  method CheckCNPJ(cnpj: string) returns (valid: bool)
    requires |cnpj| == 14
    ensures valid == ValidCNPJ(cnpj)
  {
    var same := IsAllSame(cnpj);
    var digits := IsAllDigits(cnpj);
    if same || !digits {
      return false;
    }
    var weights := CNPJ_WEIGHTS;
    for n := 12 to 14
      invariant n >= 13 ==> DigitValue(cnpj[12]) == CNPJDigit(Sum(cnpj, CNPJ_WEIGHTS[1..], 12))
      invariant n == 14 ==> DigitValue(cnpj[13]) == CNPJDigit(Sum(cnpj, CNPJ_WEIGHTS, 13))
    {
      var sum := 0;
      assert CNPJ_WEIGHTS[0..] == CNPJ_WEIGHTS;
      for i := 0 to n
        invariant sum == Sum(cnpj, CNPJ_WEIGHTS[13 - n..], i)
      {
        assert CNPJ_WEIGHTS[13 - n..][i] == weights[|weights| - n + i];
        sum := sum + DigitValue(cnpj[i]) * weights[|weights| - n + i];
      }
      var dv := 11 - sum % 11;
      if dv >= 10 {
        dv := 0;
      }
      if dv != DigitValue(cnpj[n]) {
        return false;
      }
    }
    return true;
  }

  // ---------- arithmetic modulo 11 ----------

  /** The CPF formula and the CNPJ formula are the same function of the sum. */
  lemma FormulasAgree(sum: int)
    ensures CPFDigit(sum) == CNPJDigit(sum)
  {
    var q, r := sum / 11, sum % 11;
    assert sum * 10 == 11 * (10 * q) + 10 * r;
    assert sum * 10 % 11 == 10 * r % 11;
  }

  /** Away from 0 the digit determines the residue of the sum. */
  lemma NonZeroDigitFixesResidue(a: int, b: int)
    requires CNPJDigit(a) == CNPJDigit(b) != 0
    ensures (a - b) % 11 == 0
  {
    assert a % 11 == b % 11;
  }

  /** A weight of 2 to 10 times a difference of two digits is never a multiple of 11. */
  lemma ProductNotMultiple(w: int, d: int)
    requires -10 <= w <= 10 && w != 0 && -9 <= d <= 9 && d != 0
    ensures (w * d) % 11 != 0
    decreases w < 0, d < 0
  {
    if w < 0 {
      ProductNotMultiple(-w, -d);
      assert w * d == (-w) * (-d);
    } else if d < 0 {
      ProductNotMultiple(w, -d);
      assert w * d == -(w * -d);
    } else {
      assert w == 1 || w == 2 || w == 3 || w == 4 || w == 5 || w == 6 || w == 7 || w == 8 || w == 9 || w == 10;
    }
  }

  /** What replacing one character does to the weighted sum. */
  lemma {:induction false} SumReplace(s: string, w: seq<int>, k: nat, p: nat, c: char)
    requires k <= |s| && k <= |w| && p < |s|
    ensures Sum(s[p := c], w, k)
         == Sum(s, w, k) + if p < k then w[p] * (DigitValue(c) - DigitValue(s[p])) else 0
  {
    if k > 0 {
      SumReplace(s, w, k - 1, p, c);
      if p == k - 1 {
        assert DigitValue(c) * w[p] == DigitValue(s[p]) * w[p] + w[p] * (DigitValue(c) - DigitValue(s[p]));
      }
    }
  }

  /** The text with the characters at positions i and j exchanged. */
  function Swap(s: string, i: nat, j: nat): (r: string)
    requires i < |s| && j < |s|
    ensures |r| == |s|
  {
    s[i := s[j]][j := s[i]]
  }

  lemma SumSwap(s: string, w: seq<int>, k: nat, i: nat, j: nat)
    requires k <= |s| && k <= |w| && i < j < k
    ensures Sum(Swap(s, i, j), w, k)
         == Sum(s, w, k) + (w[i] - w[j]) * (DigitValue(s[j]) - DigitValue(s[i]))
  {
    SumReplace(s, w, k, i, s[j]);
    SumReplace(s[i := s[j]], w, k, j, s[i]);
    var d := DigitValue(s[j]) - DigitValue(s[i]);
    assert w[j] * (DigitValue(s[i]) - DigitValue(s[j])) == -(w[j] * d);
    assert (w[i] - w[j]) * d == w[i] * d - w[j] * d;
  }

  /** Two sums that differ by a detectable amount cannot both have the same non-zero digit. */
  lemma DetectedByFirstDigit(a: int, b: int, w: int, d: int)
    requires b == a + w * d
    requires -10 <= w <= 10 && w != 0 && -9 <= d <= 9 && d != 0
    requires CNPJDigit(a) != 0
    ensures CNPJDigit(b) != CNPJDigit(a)
  {
    ProductNotMultiple(w, d);
    if CNPJDigit(b) == CNPJDigit(a) {
      NonZeroDigitFixesResidue(b, a);
      assert false;
    }
  }

  // ---------- errors a CPF catches ----------

  /** Replacing any one digit of a CPF whose first check digit is not 0 makes it invalid. */
  lemma CPFCatchesWrongDigit(s: string, p: nat, c: char)
    requires |s| == 11 && ValidCPF(s) && s[9] != '0'
    requires p < 11 && c != s[p]
    ensures !ValidCPF(s[p := c])
  {
    var t := s[p := c];
    if IsDigit(c) {
      SumReplace(s, CPF_WEIGHTS_1, 9, p, c);
      SumReplace(s, CPF_WEIGHTS_2, 10, p, c);
      if p < 9 {
        var a, b := Sum(s, CPF_WEIGHTS_1, 9), Sum(t, CPF_WEIGHTS_1, 9);
        FormulasAgree(a);
        FormulasAgree(b);
        DetectedByFirstDigit(a, b, CPF_WEIGHTS_1[p], DigitValue(c) - DigitValue(s[p]));
      }
    } else {
      assert !IsDigit(t[p]);
    }
  }

  /** So does exchanging any two different digits among the first nine. */
  lemma CPFCatchesSwap(s: string, i: nat, j: nat)
    requires |s| == 11 && ValidCPF(s) && s[9] != '0'
    requires i < j < 9 && s[i] != s[j]
    ensures !ValidCPF(Swap(s, i, j))
  {
    SumSwap(s, CPF_WEIGHTS_1, 9, i, j);
    var a, b := Sum(s, CPF_WEIGHTS_1, 9), Sum(Swap(s, i, j), CPF_WEIGHTS_1, 9);
    FormulasAgree(a);
    FormulasAgree(b);
    DetectedByFirstDigit(a, b, CPF_WEIGHTS_1[i] - CPF_WEIGHTS_1[j], DigitValue(s[j]) - DigitValue(s[i]));
  }

  // ---------- errors a CNPJ catches ----------

  /** Replacing any one digit of a CNPJ whose first check digit is not 0 makes it invalid. */
  lemma CNPJCatchesWrongDigit(s: string, p: nat, c: char)
    requires |s| == 14 && ValidCNPJ(s) && s[12] != '0'
    requires p < 14 && c != s[p]
    ensures !ValidCNPJ(s[p := c])
  {
    var t := s[p := c];
    if IsDigit(c) {
      SumReplace(s, CNPJ_WEIGHTS[1..], 12, p, c);
      SumReplace(s, CNPJ_WEIGHTS, 13, p, c);
      if p < 12 {
        var a, b := Sum(s, CNPJ_WEIGHTS[1..], 12), Sum(t, CNPJ_WEIGHTS[1..], 12);
        DetectedByFirstDigit(a, b, CNPJ_WEIGHTS[1..][p], DigitValue(c) - DigitValue(s[p]));
      }
    } else {
      assert !IsDigit(t[p]);
    }
  }

  /** So does exchanging two different neighbours among the first twelve. */
  lemma CNPJCatchesAdjacentSwap(s: string, i: nat)
    requires |s| == 14 && ValidCNPJ(s) && s[12] != '0'
    requires i + 1 < 12 && s[i] != s[i + 1]
    ensures !ValidCNPJ(Swap(s, i, i + 1))
  {
    var w := CNPJ_WEIGHTS[1..];
    SumSwap(s, w, 12, i, i + 1);
    var a, b := Sum(s, w, 12), Sum(Swap(s, i, i + 1), w, 12);
    DetectedByFirstDigit(a, b, w[i] - w[i + 1], DigitValue(s[i + 1]) - DigitValue(s[i]));
  }

  // ---------- the errors that slip through ----------

  /** Two sums share a check digit when their residues agree or both are among 0 and 1. */
  lemma SameDigit(a: int, b: int)
    ensures CNPJDigit(a) == CNPJDigit(b) <==> (a % 11 == b % 11 || (a % 11 <= 1 && b % 11 <= 1))
  {}

  lemma ShiftedSum(a: int, b: int, w: int, d: int)
    requires b == a + w * d && -10 <= w <= 10 && w != 0 && -9 <= d <= 9 && d != 0
    ensures CNPJDigit(a) == CNPJDigit(b) <==> (a % 11 <= 1 && b % 11 <= 1)
  {
    ProductNotMultiple(w, d);
    if a % 11 == b % 11 {
      EqualResidues(a, b);
      assert false;
    }
    SameDigit(a, b);
  }

  lemma EqualResidues(a: int, b: int)
    requires a % 11 == b % 11
    ensures (b - a) % 11 == 0
  {}

  /**
   Exactly which wrong digits in the body of a valid CPF are accepted: the first weighted sum
   moves between the residues 0 and 1, which share the digit 0, and so does the second sum,
   unless the wrong digit is the first, whose second weight is 11.
   */
  lemma CPFWrongDigitAcceptedIff(s: string, p: nat, c: char)
    requires |s| == 11 && ValidCPF(s) && p < 9 && c != s[p] && IsDigit(c)
    ensures var t := s[p := c];
      ValidCPF(t) <==>
        && !AllSame(t)
        && Sum(s, CPF_WEIGHTS_1, 9) % 11 <= 1 && Sum(t, CPF_WEIGHTS_1, 9) % 11 <= 1
        && (p == 0 || (Sum(s, CPF_WEIGHTS_2, 10) % 11 <= 1 && Sum(t, CPF_WEIGHTS_2, 10) % 11 <= 1))
  {
    var t, d := s[p := c], DigitValue(c) - DigitValue(s[p]);
    SumReplace(s, CPF_WEIGHTS_1, 9, p, c);
    SumReplace(s, CPF_WEIGHTS_2, 10, p, c);
    FirstCPFDigitKept(Sum(s, CPF_WEIGHTS_1, 9), Sum(t, CPF_WEIGHTS_1, 9), CPF_WEIGHTS_1[p], d);
    SecondCPFDigitKept(Sum(s, CPF_WEIGHTS_2, 10), Sum(t, CPF_WEIGHTS_2, 10), CPF_WEIGHTS_2[p], d);
    assert t[9] == s[9] && t[10] == s[10] && AllDigits(t);
  }

  lemma FirstCPFDigitKept(a: int, b: int, w: int, d: int)
    requires b == a + w * d && 2 <= w <= 10 && -9 <= d <= 9 && d != 0
    ensures CPFDigit(a) == CPFDigit(b) <==> (a % 11 <= 1 && b % 11 <= 1)
  {
    FormulasAgree(a);
    FormulasAgree(b);
    ShiftedSum(a, b, w, d);
  }

  lemma ElevenTimes(a: int, d: int)
    ensures CPFDigit(a + 11 * d) == CPFDigit(a)
  {
    FormulasAgree(a);
    FormulasAgree(a + 11 * d);
  }

  lemma SecondCPFDigitKept(a: int, b: int, w: int, d: int)
    requires b == a + w * d && 2 <= w <= 11 && -9 <= d <= 9 && d != 0
    ensures CPFDigit(a) == CPFDigit(b) <==> (w == 11 || (a % 11 <= 1 && b % 11 <= 1))
  {
    if w == 11 {
      ElevenTimes(a, d);
    } else {
      FirstCPFDigitKept(a, b, w, d);
    }
  }

  /** The same for a CNPJ, where no second weight of the body is a multiple of 11. */
  lemma CNPJWrongDigitAcceptedIff(s: string, p: nat, c: char)
    requires |s| == 14 && ValidCNPJ(s) && p < 12 && c != s[p] && IsDigit(c)
    ensures var t := s[p := c];
      ValidCNPJ(t) <==>
        && !AllSame(t)
        && Sum(s, CNPJ_WEIGHTS[1..], 12) % 11 <= 1 && Sum(t, CNPJ_WEIGHTS[1..], 12) % 11 <= 1
        && Sum(s, CNPJ_WEIGHTS, 13) % 11 <= 1 && Sum(t, CNPJ_WEIGHTS, 13) % 11 <= 1
  {
    var t, d := s[p := c], DigitValue(c) - DigitValue(s[p]);
    SumReplace(s, CNPJ_WEIGHTS[1..], 12, p, c);
    SumReplace(s, CNPJ_WEIGHTS, 13, p, c);
    ShiftedSum(Sum(s, CNPJ_WEIGHTS[1..], 12), Sum(t, CNPJ_WEIGHTS[1..], 12), CNPJ_WEIGHTS[1..][p], d);
    ShiftedSum(Sum(s, CNPJ_WEIGHTS, 13), Sum(t, CNPJ_WEIGHTS, 13), CNPJ_WEIGHTS[p], d);
    assert t[12] == s[12] && t[13] == s[13];
  }

  /** Exactly which swaps in the body of a valid CPF are accepted: both sums stay among the residues 0 and 1. */
  lemma CPFSwapAcceptedIff(s: string, i: nat, j: nat)
    requires |s| == 11 && ValidCPF(s) && i < j < 9 && s[i] != s[j]
    ensures var t := Swap(s, i, j);
      ValidCPF(t) <==>
        && Sum(s, CPF_WEIGHTS_1, 9) % 11 <= 1 && Sum(t, CPF_WEIGHTS_1, 9) % 11 <= 1
        && Sum(s, CPF_WEIGHTS_2, 10) % 11 <= 1 && Sum(t, CPF_WEIGHTS_2, 10) % 11 <= 1
  {
    var t := Swap(s, i, j);
    SwapKeeps(s, i, j);
    CPFSwapDigits(s, i, j);
    assert t[9] == s[9] && t[10] == s[10];
  }

  /** Swapping unequal digits leaves a text of digits, not all the same, and the rest in place. */
  lemma SwapKeeps(s: string, i: nat, j: nat)
    requires AllDigits(s) && i < j < |s| && s[i] != s[j]
    ensures AllDigits(Swap(s, i, j)) && !AllSame(Swap(s, i, j)) && |Swap(s, i, j)| == |s|
    ensures forall k :: 0 <= k < |s| && k != i && k != j ==> Swap(s, i, j)[k] == s[k]
  {
    var t := Swap(s, i, j);
    assert t[i] == s[j] && t[j] == s[i];
  }

  lemma CPFWeightSteps(i: nat, j: nat)
    requires i < j < 9
    ensures CPF_WEIGHTS_1[i] - CPF_WEIGHTS_1[j] == j - i
    ensures CPF_WEIGHTS_2[i] - CPF_WEIGHTS_2[j] == j - i
  {}

  /** A swap moves either sum by the distance of the places times the difference of the digits. */
  lemma CPFSwapSum(s: string, w: seq<int>, k: nat, i: nat, j: nat)
    requires k <= |s| && k <= |w| && i < j < k && AllDigits(s) && s[i] != s[j] && j - i <= 10
    requires w[i] - w[j] == j - i
    ensures var (a, b) := (Sum(s, w, k), Sum(Swap(s, i, j), w, k));
      CPFDigit(a) == CPFDigit(b) <==> (a % 11 <= 1 && b % 11 <= 1)
  {
    SumSwap(s, w, k, i, j);
    CPFDigitKept(Sum(s, w, k), Sum(Swap(s, i, j), w, k), j - i, DigitValue(s[j]) - DigitValue(s[i]));
  }

  lemma CPFSwapDigits(s: string, i: nat, j: nat)
    requires |s| == 11 && AllDigits(s) && i < j < 9 && s[i] != s[j]
    ensures var t := Swap(s, i, j);
      var (a, b) := (Sum(s, CPF_WEIGHTS_1, 9), Sum(t, CPF_WEIGHTS_1, 9));
      CPFDigit(a) == CPFDigit(b) <==> (a % 11 <= 1 && b % 11 <= 1)
    ensures var t := Swap(s, i, j);
      var (a, b) := (Sum(s, CPF_WEIGHTS_2, 10), Sum(t, CPF_WEIGHTS_2, 10));
      CPFDigit(a) == CPFDigit(b) <==> (a % 11 <= 1 && b % 11 <= 1)
  {
    CPFWeightSteps(i, j);
    CPFSwapSum(s, CPF_WEIGHTS_1, 9, i, j);
    CPFSwapSum(s, CPF_WEIGHTS_2, 10, i, j);
  }

  lemma CPFDigitKept(a: int, b: int, w: int, d: int)
    requires b == a + w * d && -10 <= w <= 10 && w != 0 && -9 <= d <= 9 && d != 0
    ensures CPFDigit(a) == CPFDigit(b) <==> (a % 11 <= 1 && b % 11 <= 1)
  {
    FormulasAgree(a);
    FormulasAgree(b);
    ShiftedSum(a, b, w, d);
  }

  /** The same for neighbours in the body of a CNPJ. */
  lemma CNPJAdjacentSwapAcceptedIff(s: string, i: nat)
    requires |s| == 14 && ValidCNPJ(s) && i + 1 < 12 && s[i] != s[i + 1]
    ensures var t := Swap(s, i, i + 1);
      ValidCNPJ(t) <==>
        && Sum(s, CNPJ_WEIGHTS[1..], 12) % 11 <= 1 && Sum(t, CNPJ_WEIGHTS[1..], 12) % 11 <= 1
        && Sum(s, CNPJ_WEIGHTS, 13) % 11 <= 1 && Sum(t, CNPJ_WEIGHTS, 13) % 11 <= 1
  {
    var t := Swap(s, i, i + 1);
    SwapKeeps(s, i, i + 1);
    CNPJSwapDigits(s, i);
    assert t[12] == s[12] && t[13] == s[13];
  }

  lemma CNPJSwapDigits(s: string, i: nat)
    requires |s| == 14 && AllDigits(s) && i + 1 < 12 && s[i] != s[i + 1]
    ensures var t := Swap(s, i, i + 1);
      var (a, b) := (Sum(s, CNPJ_WEIGHTS[1..], 12), Sum(t, CNPJ_WEIGHTS[1..], 12));
      CNPJDigit(a) == CNPJDigit(b) <==> (a % 11 <= 1 && b % 11 <= 1)
    ensures var t := Swap(s, i, i + 1);
      var (a, b) := (Sum(s, CNPJ_WEIGHTS, 13), Sum(t, CNPJ_WEIGHTS, 13));
      CNPJDigit(a) == CNPJDigit(b) <==> (a % 11 <= 1 && b % 11 <= 1)
  {
    var t, d := Swap(s, i, i + 1), DigitValue(s[i + 1]) - DigitValue(s[i]);
    NeighbourWeights(i);
    SumSwap(s, CNPJ_WEIGHTS[1..], 12, i, i + 1);
    SumSwap(s, CNPJ_WEIGHTS, 13, i, i + 1);
    ShiftedSum(Sum(s, CNPJ_WEIGHTS[1..], 12), Sum(t, CNPJ_WEIGHTS[1..], 12), CNPJ_WEIGHTS[1..][i] - CNPJ_WEIGHTS[1..][i + 1], d);
    ShiftedSum(Sum(s, CNPJ_WEIGHTS, 13), Sum(t, CNPJ_WEIGHTS, 13), CNPJ_WEIGHTS[i] - CNPJ_WEIGHTS[i + 1], d);
  }

  lemma NeighbourWeights(i: nat)
    requires i + 1 < 12
    ensures CNPJ_WEIGHTS[i] - CNPJ_WEIGHTS[i + 1] in {1, -7}
    ensures CNPJ_WEIGHTS[1..][i] - CNPJ_WEIGHTS[1..][i + 1] in {1, -7}
  {}

  /** A wrong check digit is always caught, whatever the first one is. */
  lemma WrongCheckDigitCaught(cpf: string, cnpj: string, p: nat, c: char)
    requires |cpf| == 11 && ValidCPF(cpf) && |cnpj| == 14 && ValidCNPJ(cnpj) && p < 2
    ensures c != cpf[9 + p] ==> !ValidCPF(cpf[9 + p := c])
    ensures c != cnpj[12 + p] ==> !ValidCNPJ(cnpj[12 + p := c])
  {
    SumReplace(cpf, CPF_WEIGHTS_1, 9, 9 + p, c);
    SumReplace(cpf, CPF_WEIGHTS_2, 10, 9 + p, c);
    SumReplace(cnpj, CNPJ_WEIGHTS[1..], 12, 12 + p, c);
    SumReplace(cnpj, CNPJ_WEIGHTS, 13, 12 + p, c);
  }

  // ---------- existence and uniqueness of the check digits ----------

  lemma {:induction false} SumPrefix(s: string, t: string, w: seq<int>, k: nat)
    requires k <= |s| && k <= |t| && k <= |w| && s[..k] == t[..k]
    ensures Sum(s, w, k) == Sum(t, w, k)
  {
    if k > 0 {
      assert s[..k - 1] == s[..k][..k - 1] == t[..k][..k - 1] == t[..k - 1];
      assert s[k - 1] == s[..k][k - 1] == t[..k][k - 1] == t[k - 1];
      SumPrefix(s, t, w, k - 1);
    }
  }

  /** A nine-digit body followed by the two digits its sums ask for. */
  function CompleteCPF(body: string): (r: string)
    requires |body| == 9
    ensures |r| == 11 && r[..9] == body
  {
    var first := body + [DigitChar(CPFDigit(Sum(body, CPF_WEIGHTS_1, 9)))];
    first + [DigitChar(CPFDigit(Sum(first, CPF_WEIGHTS_2, 10)))]
  }

  function CompleteCNPJ(body: string): (r: string)
    requires |body| == 12
    ensures |r| == 14 && r[..12] == body
  {
    var first := body + [DigitChar(CNPJDigit(Sum(body, CNPJ_WEIGHTS[1..], 12)))];
    first + [DigitChar(CNPJDigit(Sum(first, CNPJ_WEIGHTS, 13)))]
  }

  lemma DigitInjective(c: char, d: char)
    requires IsDigit(c) && IsDigit(d) && DigitValue(c) == DigitValue(d)
    ensures c == d
  {}

  /** The digit equations of a CPF say that it is the completion of its body. */
  lemma CPFEquations(s: string)
    requires |s| == 11 && AllDigits(s)
    ensures s == CompleteCPF(s[..9]) <==>
      && DigitValue(s[9]) == CPFDigit(Sum(s, CPF_WEIGHTS_1, 9))
      && DigitValue(s[10]) == CPFDigit(Sum(s, CPF_WEIGHTS_2, 10))
  {
    var body := s[..9];
    var first := body + [DigitChar(CPFDigit(Sum(body, CPF_WEIGHTS_1, 9)))];
    SumPrefix(s, body, CPF_WEIGHTS_1, 9);
    assert CompleteCPF(body)[9] == first[9];
    if DigitValue(s[9]) == CPFDigit(Sum(s, CPF_WEIGHTS_1, 9)) {
      DigitInjective(s[9], first[9]);
      assert s[..10] == first == first[..10];
      SumPrefix(s, first, CPF_WEIGHTS_2, 10);
      if DigitValue(s[10]) == CPFDigit(Sum(s, CPF_WEIGHTS_2, 10)) {
        DigitInjective(s[10], CompleteCPF(body)[10]);
        assert s == s[..10] + [s[10]];
      }
    }
  }

  lemma CNPJEquations(s: string)
    requires |s| == 14 && AllDigits(s)
    ensures s == CompleteCNPJ(s[..12]) <==>
      && DigitValue(s[12]) == CNPJDigit(Sum(s, CNPJ_WEIGHTS[1..], 12))
      && DigitValue(s[13]) == CNPJDigit(Sum(s, CNPJ_WEIGHTS, 13))
  {
    var body := s[..12];
    var first := body + [DigitChar(CNPJDigit(Sum(body, CNPJ_WEIGHTS[1..], 12)))];
    SumPrefix(s, body, CNPJ_WEIGHTS[1..], 12);
    assert CompleteCNPJ(body)[12] == first[12];
    if DigitValue(s[12]) == CNPJDigit(Sum(s, CNPJ_WEIGHTS[1..], 12)) {
      DigitInjective(s[12], first[12]);
      assert s[..13] == first == first[..13];
      SumPrefix(s, first, CNPJ_WEIGHTS, 13);
      if DigitValue(s[13]) == CNPJDigit(Sum(s, CNPJ_WEIGHTS, 13)) {
        DigitInjective(s[13], CompleteCNPJ(body)[13]);
        assert s == s[..13] + [s[13]];
      }
    }
  }

  /** The weighted sum of k equal digits. */
  lemma {:induction false} UniformSum(s: string, w: seq<int>, k: nat)
    requires 0 < |s| && k <= |s| && k <= |w| && AllSame(s)
    ensures Sum(s, w, k) == DigitValue(s[0]) * Total(w, k)
  {
    if k > 0 {
      UniformSum(s, w, k - 1);
      assert s[k - 1] == s[0];
      var x := DigitValue(s[0]);
      assert x * (Total(w, k - 1) + w[k - 1]) == x * Total(w, k - 1) + x * w[k - 1];
    }
  }

  function Total(w: seq<int>, k: nat): int
    requires k <= |w|
  {
    if k == 0 then 0 else Total(w, k - 1) + w[k - 1]
  }

  lemma WeightTotals()
    ensures Total(CPF_WEIGHTS_1, 9) == 54 && Total(CPF_WEIGHTS_2, 10) == 65
    ensures Total(CNPJ_WEIGHTS[1..], 12) == 58 && Total(CNPJ_WEIGHTS, 13) == 64
  {
    TotalSteps(CPF_WEIGHTS_1);
    TotalSteps(CPF_WEIGHTS_2);
    TotalSteps(CNPJ_WEIGHTS[1..]);
    TotalSteps(CNPJ_WEIGHTS);
  }

  lemma TotalSteps(w: seq<int>)
    requires 9 <= |w| <= 13
    ensures Total(w, 9) == w[0] + w[1] + w[2] + w[3] + w[4] + w[5] + w[6] + w[7] + w[8]
    ensures |w| >= 10 ==> Total(w, 10) == Total(w, 9) + w[9]
    ensures |w| >= 12 ==> Total(w, 12) == Total(w, 9) + w[9] + w[10] + w[11]
    ensures |w| >= 13 ==> Total(w, 13) == Total(w, 12) + w[12]
  {
    assert Total(w, 1) == w[0];
    assert Total(w, 2) == w[0] + w[1];
    assert Total(w, 4) == Total(w, 2) + w[2] + w[3];
    assert Total(w, 6) == Total(w, 4) + w[4] + w[5];
    assert Total(w, 8) == Total(w, 6) + w[6] + w[7];
    if |w| >= 12 {
      assert Total(w, 11) == Total(w, 9) + w[9] + w[10];
    }
  }

  /** The completion of a uniform CPF body is uniform. */
  lemma UniformCPFCompletion(s: string)
    requires |s| == 11 && AllDigits(s) && AllSame(s[..9]) && s == CompleteCPF(s[..9])
    ensures AllSame(s)
  {
    WeightTotals();
    var x := DigitValue(s[0]);
    assert s[..9][0] == s[0] && forall i :: 0 <= i < 9 ==> s[i] == s[..9][i];
    UniformSum(s[..9], CPF_WEIGHTS_1, 9);
    SumPrefix(s, s[..9], CPF_WEIGHTS_1, 9);
    CPFEquations(s);
    assert x * 54 * 10 == 11 * (49 * x) + x;
    DigitInjective(s[9], s[0]);
    assert s[..10] == s[..9] + [s[9]];
    UniformSum(s[..10], CPF_WEIGHTS_2, 10);
    SumPrefix(s, s[..10], CPF_WEIGHTS_2, 10);
    assert x * 65 * 10 == 11 * (59 * x) + x;
    DigitInjective(s[10], s[0]);
  }

  /** The accepted CPFs are exactly the completions of the non-uniform bodies. */
  lemma CPFAcceptedIffCompletion(s: string)
    requires |s| == 11 && AllDigits(s)
    ensures ValidCPF(s) <==> s == CompleteCPF(s[..9]) && !AllSame(s[..9])
  {
    CPFEquations(s);
    if s == CompleteCPF(s[..9]) {
      if AllSame(s[..9]) {
        UniformCPFCompletion(s);
      }
      if AllSame(s) {
        assert forall i :: 0 <= i < 9 ==> s[..9][i] == s[..9][0];
      }
    }
  }

  /** The only uniform completion of a CNPJ body is that of twelve zeros. */
  lemma UniformCNPJIsZero(s: string)
    requires |s| == 14 && AllDigits(s) && AllSame(s) && s == CompleteCNPJ(s[..12])
    ensures s[0] == '0'
  {
    WeightTotals();
    var x := DigitValue(s[0]);
    UniformSum(s, CNPJ_WEIGHTS[1..], 12);
    CNPJEquations(s);
    assert s[12] == s[0];
    assert x * 58 == 11 * (5 * x) + 3 * x;
    assert x * 58 % 11 == 3 * x % 11;
    DigitInjective(s[0], '0');
  }

  lemma ZeroCNPJCompletion(s: string)
    requires |s| == 14 && AllDigits(s) && s == CompleteCNPJ(s[..12])
    requires forall i :: 0 <= i < 12 ==> s[i] == '0'
    ensures AllSame(s)
  {
    CNPJEquations(s);
    assert AllSame(s[..12]);
    UniformSum(s[..12], CNPJ_WEIGHTS[1..], 12);
    SumPrefix(s, s[..12], CNPJ_WEIGHTS[1..], 12);
    DigitInjective(s[12], '0');
    assert s[..13] == s[..12] + [s[12]];
    assert AllSame(s[..13]);
    UniformSum(s[..13], CNPJ_WEIGHTS, 13);
    SumPrefix(s, s[..13], CNPJ_WEIGHTS, 13);
    DigitInjective(s[13], '0');
  }

  /** The accepted CNPJs are exactly the completions of the bodies other than all zeros. */
  lemma CNPJAcceptedIffCompletion(s: string)
    requires |s| == 14 && AllDigits(s)
    ensures ValidCNPJ(s) <==> s == CompleteCNPJ(s[..12]) && exists i :: 0 <= i < 12 && s[i] != '0'
  {
    CNPJEquations(s);
    if s == CompleteCNPJ(s[..12]) {
      if forall i :: 0 <= i < 12 ==> s[i] == '0' {
        ZeroCNPJCompletion(s);
      }
      if AllSame(s) {
        UniformCNPJIsZero(s);
      }
    }
  }

  /** A body with digits always completes to digits, so completions exist. */
  lemma CompletionIsDigits(cpf: string, cnpj: string)
    requires |cpf| == 9 && AllDigits(cpf) && |cnpj| == 12 && AllDigits(cnpj)
    ensures AllDigits(CompleteCPF(cpf)) && AllDigits(CompleteCNPJ(cnpj))
  {
    forall i | 0 <= i < 11
      ensures IsDigit(CompleteCPF(cpf)[i])
    {
      if i < 9 {
        assert CompleteCPF(cpf)[i] == cpf[i];
      }
    }
    forall i | 0 <= i < 14
      ensures IsDigit(CompleteCNPJ(cnpj)[i])
    {
      if i < 12 {
        assert CompleteCNPJ(cnpj)[i] == cnpj[i];
      }
    }
  }

  /** s is a valid CPF with the given first nine characters. */
  predicate CompletesCPF(s: string, body: string) {
    |s| == 11 && |body| == 9 && s[..9] == body && ValidCPF(s)
  }

  predicate CompletesCNPJ(s: string, body: string) {
    |s| == 14 && |body| == 12 && s[..12] == body && ValidCNPJ(s)
  }

  lemma CPFBodyDigits(s: string, body: string)
    requires CompletesCPF(s, body)
    ensures AllDigits(body) && !AllSame(body) && s == CompleteCPF(body)
  {
    CPFAcceptedIffCompletion(s);
    assert forall i :: 0 <= i < 9 ==> body[i] == s[i];
  }

  /**
   A body of nine characters has a valid completion exactly when it is nine digits that are not all
   the same, and then exactly one, whose check digits both formulas give.
   */
  lemma CPFBodyHasOneCompletion(body: string)
    requires |body| == 9
    ensures (exists s :: CompletesCPF(s, body)) <==> AllDigits(body) && !AllSame(body)
    ensures AllDigits(body) && !AllSame(body) ==> CompletesCPF(CompleteCPF(body), body)
    ensures forall s :: CompletesCPF(s, body) ==> s == CompleteCPF(body)
    ensures DigitValue(CompleteCPF(body)[9]) == CNPJDigit(Sum(body, CPF_WEIGHTS_1, 9))
    ensures DigitValue(CompleteCPF(body)[10]) == CNPJDigit(Sum(CompleteCPF(body)[..10], CPF_WEIGHTS_2, 10))
  {
    forall s | CompletesCPF(s, body)
      ensures s == CompleteCPF(body) && AllDigits(body) && !AllSame(body)
    {
      CPFBodyDigits(s, body);
    }
    if AllDigits(body) && !AllSame(body) {
      CompletionIsDigits(body, "000000000000");
      CPFAcceptedIffCompletion(CompleteCPF(body));
      assert CompletesCPF(CompleteCPF(body), body);
    }
    FormulasAgree(Sum(body, CPF_WEIGHTS_1, 9));
    FormulasAgree(Sum(CompleteCPF(body)[..10], CPF_WEIGHTS_2, 10));
    CPFLastDigits(body);
  }

  lemma CPFLastDigits(body: string)
    requires |body| == 9
    ensures DigitValue(CompleteCPF(body)[9]) == CPFDigit(Sum(body, CPF_WEIGHTS_1, 9))
    ensures DigitValue(CompleteCPF(body)[10]) == CPFDigit(Sum(CompleteCPF(body)[..10], CPF_WEIGHTS_2, 10))
  {
    var first := body + [DigitChar(CPFDigit(Sum(body, CPF_WEIGHTS_1, 9)))];
    assert CompleteCPF(body)[..10] == first;
  }

  predicate AllZeros(body: string) {
    forall i :: 0 <= i < |body| ==> body[i] == '0'
  }

  lemma CNPJBodyDigits(s: string, body: string)
    requires CompletesCNPJ(s, body)
    ensures AllDigits(body) && !AllZeros(body) && s == CompleteCNPJ(body)
  {
    CNPJAcceptedIffCompletion(s);
    assert forall i :: 0 <= i < 12 ==> body[i] == s[i];
  }

  lemma CNPJCompletionValid(body: string)
    requires |body| == 12 && AllDigits(body) && !AllZeros(body)
    ensures CompletesCNPJ(CompleteCNPJ(body), body)
  {
    CompletionIsDigits("000000000", body);
    var s := CompleteCNPJ(body);
    assert forall i :: 0 <= i < 12 ==> s[i] == s[..12][i];
    CNPJAcceptedIffCompletion(s);
  }

  /**
   A body of twelve characters has a valid completion exactly when it is twelve digits that are not
   all zero, and then exactly one. Uniform bodies other than zeros are no exception.
   */
  lemma CNPJBodyHasOneCompletion(body: string)
    requires |body| == 12
    ensures (exists s :: CompletesCNPJ(s, body)) <==> AllDigits(body) && !AllZeros(body)
    ensures AllDigits(body) && !AllZeros(body) ==> CompletesCNPJ(CompleteCNPJ(body), body)
    ensures forall s :: CompletesCNPJ(s, body) ==> s == CompleteCNPJ(body)
  {
    forall s | CompletesCNPJ(s, body)
      ensures s == CompleteCNPJ(body) && AllDigits(body) && !AllZeros(body)
    {
      CNPJBodyDigits(s, body);
    }
    if AllDigits(body) && !AllZeros(body) {
      CNPJCompletionValid(body);
    }
  }

  /**
   The condition that the first check digit is not 0 is needed: a wrong first digit, and a
   swap, of valid documents with first check digit 0 that stay valid.
   */
  lemma ZeroCheckDigitHidesErrors()
    ensures ValidCPF("00000000604") && ValidCPF("00000000604"[0 := '1'])
    ensures ValidCPF("00000019100") && ValidCPF(Swap("00000019100", 5, 6))
    ensures ValidCNPJ("00000000003700") && ValidCNPJ("00000000003700"[0 := '2'])
    ensures ValidCNPJ("33000010100300") && ValidCNPJ(Swap("33000010100300", 6, 7))
  {
    assert "00000000604"[0 := '1'] == "10000000604";
    assert Swap("00000019100", 5, 6) == "00000109100";
    assert "00000000003700"[0 := '2'] == "20000000003700";
    SixIsValid("00000000604");
    SixIsValid("10000000604");
    NinesAreValid("00000019100");
    NinesAreValid("00000109100");
    CNPJWitness("00000000003700");
    CNPJWitness("20000000003700");
    assert Swap("33000010100300", 6, 7) == "33000001100300";
    NeighboursAreValid("33000010100300");
    NeighboursAreValid("33000001100300");
  }

  lemma NeighboursAreValid(s: string)
    requires s == "33000010100300" || s == "33000001100300"
    ensures ValidCNPJ(s)
  {
    SumSteps(s, CNPJ_WEIGHTS[1..]);
    SumSteps(s, CNPJ_WEIGHTS);
    assert Sum(s, CNPJ_WEIGHTS[1..], 12) == (if s[6] == '1' then 45 else 44);
    assert Sum(s, CNPJ_WEIGHTS, 13) == (if s[6] == '1' then 56 else 55);
    assert s[0] != s[9];
  }

  lemma SixIsValid(s: string)
    requires s == "00000000604" || s == "10000000604"
    ensures ValidCPF(s)
  {
    SumSteps(s, CPF_WEIGHTS_1);
    SumSteps(s, CPF_WEIGHTS_2);
    assert Sum(s, CPF_WEIGHTS_1, 9) == (if s[0] == '1' then 22 else 12);
    assert Sum(s, CPF_WEIGHTS_2, 10) == (if s[0] == '1' then 29 else 18);
    assert s[8] != s[9];
  }

  lemma NinesAreValid(s: string)
    requires s == "00000019100" || s == "00000109100"
    ensures ValidCPF(s)
  {
    SumSteps(s, CPF_WEIGHTS_1);
    SumSteps(s, CPF_WEIGHTS_2);
    assert s[7] != s[0];
  }

  lemma CNPJWitness(s: string)
    requires s == "00000000003700" || s == "20000000003700"
    ensures ValidCNPJ(s)
  {
    SumSteps(s, CNPJ_WEIGHTS[1..]);
    SumSteps(s, CNPJ_WEIGHTS);
    assert Sum(s, CNPJ_WEIGHTS[1..], 12) == (if s[0] == '2' then 33 else 23);
    assert Sum(s, CNPJ_WEIGHTS, 13) == (if s[0] == '2' then 45 else 33);
    assert s[10] != s[9];
  }

  lemma KnownCPF(s: string)
    requires s == "52998224725" || s == "12345678909"
    ensures ValidCPF(s)
  {
    SumSteps(s, CPF_WEIGHTS_1);
    SumSteps(s, CPF_WEIGHTS_2);
    assert Sum(s, CPF_WEIGHTS_1, 9) == (if s[0] == '5' then 295 else 210);
    assert Sum(s, CPF_WEIGHTS_2, 10) == (if s[0] == '5' then 347 else 255);
    assert s[0] != s[1];
  }

  lemma WrongCPF(s: string)
    requires s == "12345678900"
    ensures !ValidCPF(s)
  {
    SumSteps(s, CPF_WEIGHTS_2);
    assert Sum(s, CPF_WEIGHTS_2, 10) == 255;
  }

  lemma KnownCNPJ(s: string)
    requires s == "11222333000181"
    ensures ValidCNPJ(s)
  {
    SumSteps(s, CNPJ_WEIGHTS[1..]);
    SumSteps(s, CNPJ_WEIGHTS);
    assert Sum(s, CNPJ_WEIGHTS[1..], 12) == 102;
    assert Sum(s, CNPJ_WEIGHTS, 13) == 120;
    assert s[0] != s[2];
  }

  lemma WrongCNPJ(s: string)
    requires s == "60111222000133"
    ensures !ValidCNPJ(s)
  {
    SumSteps(s, CNPJ_WEIGHTS[1..]);
    assert Sum(s, CNPJ_WEIGHTS[1..], 12) == 88;
  }

  /** The CPFs and CNPJs that the repository's own tests name. */
  lemma KnownDocuments(s: string)
    ensures s == "52998224725" || s == "12345678909" ==> |s| == 11 && ValidCPF(s)
    ensures s == "12345678900" || s == "11111111111" ==> |s| == 11 && !ValidCPF(s)
    ensures s == "11222333000181" ==> |s| == 14 && ValidCNPJ(s)
    ensures s == "60111222000133" ==> |s| == 14 && !ValidCNPJ(s)
  {
    if s == "52998224725" || s == "12345678909" {
      KnownCPF(s);
    } else if s == "12345678900" {
      WrongCPF(s);
    } else if s == "11222333000181" {
      KnownCNPJ(s);
    } else if s == "60111222000133" {
      WrongCNPJ(s);
    }
  }

  /** The sums of nine, ten, twelve and thirteen terms written out, for evaluating literals. */
  lemma SumSteps(s: string, w: seq<int>)
    requires 9 <= |w| <= |s|
    ensures Sum(s, w, 9) == Three(s, w, 0) + Three(s, w, 3) + Three(s, w, 6)
    ensures |w| >= 10 ==> Sum(s, w, 10) == Sum(s, w, 9) + DigitValue(s[9]) * w[9]
    ensures |w| >= 12 ==> Sum(s, w, 12) == Sum(s, w, 9) + Three(s, w, 9)
    ensures |w| >= 13 ==> Sum(s, w, 13) == Sum(s, w, 12) + DigitValue(s[12]) * w[12]
  {
    assert Sum(s, w, 1) == DigitValue(s[0]) * w[0];
    assert Sum(s, w, 2) == DigitValue(s[0]) * w[0] + DigitValue(s[1]) * w[1];
    assert Sum(s, w, 5) == Sum(s, w, 3) + DigitValue(s[3]) * w[3] + DigitValue(s[4]) * w[4];
    assert Sum(s, w, 8) == Sum(s, w, 6) + DigitValue(s[6]) * w[6] + DigitValue(s[7]) * w[7];
    if |w| >= 12 {
      assert Sum(s, w, 11) == Sum(s, w, 9) + DigitValue(s[9]) * w[9] + DigitValue(s[10]) * w[10];
    }
  }

  function Three(s: string, w: seq<int>, k: nat): int
    requires k + 3 <= |w| && k + 3 <= |s|
  {
    DigitValue(s[k]) * w[k] + DigitValue(s[k + 1]) * w[k + 1] + DigitValue(s[k + 2]) * w[k + 2]
  }
}
