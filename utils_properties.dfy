/**
 What `isValidCPFOrCNPJ` accepts, stated independently of the folds that
 compute it: normalisation keeps exactly the digits, the verdict depends only
 on them, only 11-digit inputs can be accepted, the CPF branch is a weighted
 sum with weights 12 down to 2 tested modulo 11, and the CNPJ branch rejects
 every input.
 */
module UtilsProperties {
  import opened JsNumber
  import opened Utils

  // ---------------------------------------------------------------------------
  // Normalisation

  /** Stripping the non-digits of a concatenation strips each part. */
  lemma {:induction false} RemoveNonNumericConcat(a: string, b: string)
    ensures RemoveNonNumeric(a + b) == RemoveNonNumeric(a) + RemoveNonNumeric(b)
  {
    if a == [] {
      assert a + b == b;
    } else {
      assert (a + b)[0] == a[0];
      assert (a + b)[1..] == a[1..] + b;
      RemoveNonNumericConcat(a[1..], b);
    }
  }

  /** Every digit of the input occurs as often in the cleaned string, and no other character does. */
  lemma {:induction false} RemoveNonNumericCount(value: string, c: char)
    ensures multiset(RemoveNonNumeric(value))[c] == if IsDigit(c) then multiset(value)[c] else 0
  {
    if value != [] {
      RemoveNonNumericCount(value[1..], c);
      assert value == [value[0]] + value[1..];
    }
  }

  /** Normalising a second time changes nothing. */
  lemma RemoveNonNumericIdempotent(value: string)
    ensures RemoveNonNumeric(RemoveNonNumeric(value)) == RemoveNonNumeric(value)
  {
  }

  // ---------------------------------------------------------------------------
  // Formatting invariance and length dispatch

  /** The verdict depends only on the digit sequence. */
  lemma SameDigitsSameVerdict(s1: string, s2: string)
    requires RemoveNonNumeric(s1) == RemoveNonNumeric(s2)
    ensures IsValidCPFOrCNPJ(s1) == IsValidCPFOrCNPJ(s2)
  {
  }

  /** Inserting separators (periods, slashes, hyphens, spaces, any non-digit) anywhere leaves the digits unchanged. */
  lemma SeparatorsRemoved(a: string, separator: string, b: string)
    requires NoDigits(separator)
    ensures RemoveNonNumeric(a + separator + b) == RemoveNonNumeric(a + b)
  {
    RemoveNonNumericConcat(a + separator, b);
    RemoveNonNumericConcat(a, separator);
    RemoveNonNumericConcat(a, b);
    assert RemoveNonNumeric(separator) == [];
    assert RemoveNonNumeric(a) + [] == RemoveNonNumeric(a);
  }

  /** Hence inserting separators anywhere leaves the verdict unchanged. */
  lemma SeparatorsIgnored(a: string, separator: string, b: string)
    requires NoDigits(separator)
    ensures IsValidCPFOrCNPJ(a + separator + b) == IsValidCPFOrCNPJ(a + b)
  {
    SeparatorsRemoved(a, separator, b);
  }

  /** Appending a run of non-digits leaves the cleaned string unchanged. */
  lemma AppendSeparator(prefix: string, separator: string)
    requires NoDigits(separator)
    ensures RemoveNonNumeric(prefix + separator) == RemoveNonNumeric(prefix)
  {
    RemoveNonNumericConcat(prefix, separator);
    assert RemoveNonNumeric(prefix) + [] == RemoveNonNumeric(prefix);
  }

  /** Appending a run of digits appends it to the cleaned string. */
  lemma AppendDigits(prefix: string, group: string)
    requires AllDigits(group)
    ensures RemoveNonNumeric(prefix + group) == RemoveNonNumeric(prefix) + group
  {
    RemoveNonNumericConcat(prefix, group);
  }

  /** The CPF mask "ddd.ddd.ddd-dd" strips to its digits. */
  lemma CpfMaskStripped(a: string, b: string, c: string, d: string)
    requires AllDigits(a) && AllDigits(b) && AllDigits(c) && AllDigits(d)
    ensures RemoveNonNumeric(a + "." + b + "." + c + "-" + d) == a + b + c + d
  {
    assert NoDigits(".") && NoDigits("-");
    AppendSeparator(a, ".");
    AppendDigits(a + ".", b);
    AppendSeparator(a + "." + b, ".");
    AppendDigits(a + "." + b + ".", c);
    AppendSeparator(a + "." + b + "." + c, "-");
    AppendDigits(a + "." + b + "." + c + "-", d);
  }

  /** The CNPJ mask "dd.ddd.ddd/dddd-dd" strips to its digits. */
  lemma CnpjMaskStripped(a: string, b: string, c: string, d: string, e: string)
    requires AllDigits(a) && AllDigits(b) && AllDigits(c) && AllDigits(d) && AllDigits(e)
    ensures RemoveNonNumeric(a + "." + b + "." + c + "/" + d + "-" + e) == a + b + c + d + e
  {
    assert NoDigits(".") && NoDigits("/") && NoDigits("-");
    AppendSeparator(a, ".");
    AppendDigits(a + ".", b);
    AppendSeparator(a + "." + b, ".");
    AppendDigits(a + "." + b + ".", c);
    AppendSeparator(a + "." + b + "." + c, "/");
    AppendDigits(a + "." + b + "." + c + "/", d);
    AppendSeparator(a + "." + b + "." + c + "/" + d, "-");
    AppendDigits(a + "." + b + "." + c + "/" + d + "-", e);
  }

  /** A CPF written with its mask gets the same verdict as its bare digits. */
  lemma FormattedCpfSameVerdict(a: string, b: string, c: string, d: string)
    requires AllDigits(a) && AllDigits(b) && AllDigits(c) && AllDigits(d)
    ensures IsValidCPFOrCNPJ(a + "." + b + "." + c + "-" + d) == IsValidCPFOrCNPJ(a + b + c + d)
  {
    CpfMaskStripped(a, b, c, d);
    assert AllDigits(a + b + c + d);
  }

  /** Only an input with exactly 11 digits can be accepted: any other count, including none, is rejected. */
  lemma WrongLengthRejected(s: string)
    requires |RemoveNonNumeric(s)| != 11
    ensures !IsValidCPFOrCNPJ(s)
  {
    if |RemoveNonNumeric(s)| == 14 {
      CnpjBranchRejects(s);
    }
  }

  // ---------------------------------------------------------------------------
  // The CPF branch

  /** An independent reference for a weighted digit sum: the first digit times the first weight, plus the rest. */
  function WeightedSum(digits: string, weights: seq<int>): int
    requires AllDigits(digits) && |weights| == |digits|
  {
    if digits == [] then 0
    else ParseDigit(digits[0]) * weights[0] + WeightedSum(digits[1..], weights[1..])
  }

  /** The CPF weights for a cleaned string of length `n`: position `i` weighs `n + 1 - i`. */
  function CpfWeights(n: nat): seq<int>
  {
    seq(n, i => n + 1 - i)
  }

  function Total(weights: seq<int>): int
  {
    if weights == [] then 0 else weights[0] + Total(weights[1..])
  }

  /** For 11 digits the CPF weights `length + 1 - index` run from 12 down to 2. */
  lemma CpfWeightsOfEleven()
    ensures CpfWeights(11) == [12, 11, 10, 9, 8, 7, 6, 5, 4, 3, 2]
  {
  }

  /** The eleven CPF weights add up to 77, a multiple of 11. */
  lemma CpfWeightsTotal()
    ensures Total(CpfWeights(11)) == 77
  {
    CpfWeightsOfEleven();
    var w := CpfWeights(11);
    assert w[1..] == [11, 10, 9, 8, 7, 6, 5, 4, 3, 2];
    assert w[2..] == [10, 9, 8, 7, 6, 5, 4, 3, 2];
    assert w[3..] == [9, 8, 7, 6, 5, 4, 3, 2];
    assert w[4..] == [8, 7, 6, 5, 4, 3, 2];
    assert w[5..] == [7, 6, 5, 4, 3, 2];
    assert w[6..] == [6, 5, 4, 3, 2];
    assert w[7..] == [5, 4, 3, 2];
    assert w[8..] == [4, 3, 2];
    assert w[9..] == [3, 2];
    assert w[10..] == [2];
    assert w[11..] == [];
  }

  /** The CPF fold from position `index` adds to its accumulator the weighted sum of the digits from `index` on. */
  lemma {:induction false} CpfReduceIsWeightedSum(cleaned: string, index: nat, acc: int)
    requires index <= |cleaned| && AllDigits(cleaned)
    ensures CpfReduce(cleaned, index, acc) == acc + WeightedSum(cleaned[index..], CpfWeights(|cleaned|)[index..])
    decreases |cleaned| - index
  {
    var w := CpfWeights(|cleaned|);
    if index < |cleaned| {
      var acc' := acc + ParseDigit(cleaned[index]) * (|cleaned| + 1 - index);
      CpfReduceIsWeightedSum(cleaned, index + 1, acc');
      assert cleaned[index..][1..] == cleaned[index + 1..];
      assert w[index..][1..] == w[index + 1..];
    }
  }

  /** Multiplying by 10 does not change divisibility by 11, because 10 and 11 are coprime. */
  lemma TimesTenDivisibleByEleven(x: int)
    ensures (x * 10) % 11 == 0 <==> x % 11 == 0
  {
    if (x * 10) % 11 == 0 {
      var m := (x * 10) / 11;
      assert x * 10 == 11 * m;
      assert x == 11 * (10 * m - 9 * x);
    }
    if x % 11 == 0 {
      var k := x / 11;
      assert x * 10 == 11 * (10 * k);
    }
  }

  /**
   For an input with 11 digits the verdict is the source's arithmetic on the
   weighted sum with weights 12 down to 2, `(sum * 10) % 11 === 0`, and equally
   the plain test `sum % 11 == 0`.
   */
  lemma CpfVerdict(s: string)
    requires |RemoveNonNumeric(s)| == 11
    ensures IsValidCPFOrCNPJ(s) <==> JsRem(WeightedSum(RemoveNonNumeric(s), CpfWeights(11)) * 10, 11) == 0
    ensures IsValidCPFOrCNPJ(s) <==> WeightedSum(RemoveNonNumeric(s), CpfWeights(11)) % 11 == 0
  {
    var cleaned := RemoveNonNumeric(s);
    CpfReduceIsWeightedSum(cleaned, 0, 0);
    assert cleaned[0..] == cleaned;
    assert CpfWeights(11)[0..] == CpfWeights(11);
    var sum := WeightedSum(cleaned, CpfWeights(11));
    JsRemElevenZero(sum * 10);
    TimesTenDivisibleByEleven(sum);
  }

  /** The weighted sum of a digit string whose digits all have the value `v` is `v` times the total weight. */
  lemma {:induction false} WeightedSumOfRepdigit(digits: string, weights: seq<int>, v: int)
    requires AllDigits(digits) && |weights| == |digits|
    requires forall i :: 0 <= i < |digits| ==> ParseDigit(digits[i]) == v
    ensures WeightedSum(digits, weights) == v * Total(weights)
  {
    if digits != [] {
      WeightedSumOfRepdigit(digits[1..], weights[1..], v);
    }
  }

  /** The weighted sum of two digit strings put end to end, under their weights put end to end, is the sum of the two. */
  lemma {:induction false} WeightedSumConcat(a: string, wa: seq<int>, b: string, wb: seq<int>)
    requires AllDigits(a) && |wa| == |a| && AllDigits(b) && |wb| == |b|
    ensures AllDigits(a + b)
    ensures WeightedSum(a + b, wa + wb) == WeightedSum(a, wa) + WeightedSum(b, wb)
  {
    assert AllDigits(a + b);
    if a == [] {
      assert a + b == b && wa + wb == wb;
    } else {
      assert (a + b)[1..] == a[1..] + b && (wa + wb)[1..] == wa[1..] + wb;
      assert (a + b)[0] == a[0] && (wa + wb)[0] == wa[0];
      WeightedSumConcat(a[1..], wa[1..], b, wb);
    }
  }

  /** Every 11-digit repdigit ("00000000000" through "99999999999") is accepted, since its sum is a multiple of 77. */
  lemma RepdigitAccepted(c: char)
    requires IsDigit(c)
    ensures IsValidCPFOrCNPJ(seq(11, _ => c))
  {
    var s := seq(11, _ => c);
    var v := ParseDigit(c);
    assert AllDigits(s);
    assert WeightedSum(s, CpfWeights(11)) == 11 * (7 * v) by {
      WeightedSumOfRepdigit(s, CpfWeights(11), v);
      CpfWeightsTotal();
    }
    CpfVerdict(s);
  }

  /** The verdict on every input: accepted exactly when it has 11 digits whose weighted sum (weights 12 down to 2) is divisible by 11. */
  lemma Characterization(s: string)
    ensures IsValidCPFOrCNPJ(s) <==>
      |RemoveNonNumeric(s)| == 11 && WeightedSum(RemoveNonNumeric(s), CpfWeights(11)) % 11 == 0
  {
    if |RemoveNonNumeric(s)| == 11 {
      CpfVerdict(s);
    } else {
      WrongLengthRejected(s);
    }
  }

  // ---------------------------------------------------------------------------
  // The CNPJ branch

  /** Once the accumulator is NaN, the CNPJ fold stays NaN. */
  lemma {:induction false} CnpjReduceFromNaN(cleaned: string, index: nat)
    requires index <= |cleaned| && AllDigits(cleaned)
    ensures CnpjReduce(cleaned, index, NaN) == NaN
    decreases |cleaned| - index
  {
    if index < |cleaned| {
      CnpjReduceFromNaN(cleaned, index + 1);
    }
  }

  /**
   When the cleaned string is longer than the 13-entry weights table, the CNPJ
   fold reaches position 13, reads an undefined weight, and ends in NaN
   whatever it started from.
   */
  lemma {:induction false} CnpjReduceOverruns(cleaned: string, index: nat, acc: Num)
    requires index <= |CnpjWeights| < |cleaned| && AllDigits(cleaned)
    ensures CnpjReduce(cleaned, index, acc) == NaN
    decreases |CnpjWeights| - index
  {
    var acc' := Add(acc, Mul(Finite(ParseDigit(cleaned[index])), ToNumber(Lookup(CnpjWeights, index))));
    if index == |CnpjWeights| {
      assert acc' == NaN;
      CnpjReduceFromNaN(cleaned, index + 1);
    } else {
      CnpjReduceOverruns(cleaned, index + 1, acc');
    }
  }

  /** Every input with 14 digits is rejected: the sum is NaN, and `NaN % 11 === 0` is false. */
  lemma CnpjBranchRejects(s: string)
    requires |RemoveNonNumeric(s)| == 14
    ensures !IsValidCPFOrCNPJ(s)
  {
    CnpjReduceOverruns(RemoveNonNumeric(s), 0, Finite(0));
  }

  /** A CNPJ written with its mask "dd.ddd.ddd/dddd-dd" is rejected. */
  lemma FormattedCnpjRejected(a: string, b: string, c: string, d: string, e: string)
    requires AllDigits(a) && AllDigits(b) && AllDigits(c) && AllDigits(d) && AllDigits(e)
    requires |a| == 2 && |b| == 3 && |c| == 3 && |d| == 4 && |e| == 2
    ensures !IsValidCPFOrCNPJ(a + "." + b + "." + c + "/" + d + "-" + e)
  {
    CnpjMaskStripped(a, b, c, d, e);
    CnpjBranchRejects(a + "." + b + "." + c + "/" + d + "-" + e);
  }

  // ---------------------------------------------------------------------------
  // Concrete inputs

  /** "11111111111" is accepted: its weighted sum is 77. */
  lemma OnesAccepted()
    ensures IsValidCPFOrCNPJ("11111111111")
  {
    RepdigitAccepted('1');
    assert seq(11, _ => '1') == "11111111111";
  }

  /** The weighted sums of the groups of "11122233344" under their weights: 33·1, 24·2, 15·3 and 5·4. */
  lemma CpfExampleGroupSums()
    ensures AllDigits("111") && AllDigits("222") && AllDigits("333") && AllDigits("44")
    ensures WeightedSum("111", [12, 11, 10]) == 33
    ensures WeightedSum("222", [9, 8, 7]) == 48
    ensures WeightedSum("333", [6, 5, 4]) == 45
    ensures WeightedSum("44", [3, 2]) == 20
  {
    assert AllDigits("111") && AllDigits("222") && AllDigits("333") && AllDigits("44");
    WeightedSumOfRepdigit("111", [12, 11, 10], 1);
    WeightedSumOfRepdigit("222", [9, 8, 7], 2);
    WeightedSumOfRepdigit("333", [6, 5, 4], 3);
    WeightedSumOfRepdigit("44", [3, 2], 4);
  }

  /** The weighted sum of "11122233344" is 146, which leaves 3 modulo 11. */
  lemma BareCpfSum()
    ensures AllDigits("11122233344")
    ensures WeightedSum("11122233344", CpfWeights(11)) == 146
  {
    var w1, w2, w3, w4 := [12, 11, 10], [9, 8, 7], [6, 5, 4], [3, 2];
    assert CpfWeights(11) == w1 + w2 + w3 + w4 by {
      CpfWeightsOfEleven();
    }
    assert "111" + "222" + "333" + "44" == "11122233344";
    CpfExampleGroupSums();
    WeightedSumConcat("111", w1, "222", w2);
    WeightedSumConcat("111" + "222", w1 + w2, "333", w3);
    WeightedSumConcat("111" + "222" + "333", w1 + w2 + w3, "44", w4);
  }

  /** Every input whose digits are 11122233344, however it is formatted, is rejected. */
  lemma CpfExampleDigitsRejected(s: string)
    requires RemoveNonNumeric(s) == "11122233344"
    ensures !IsValidCPFOrCNPJ(s)
  {
    BareCpfSum();
    CpfVerdict(s);
  }

  // A proof step for FormattedCpfDigits: the literal written as its digit groups and mask separators.
  lemma CpfExampleParts()
    ensures "111" + "." + "222" + "." + "333" + "-" + "44" == "111.222.333-44"
    ensures "111" + "222" + "333" + "44" == "11122233344"
  {
  }

  /** "111.222.333-44" strips to "11122233344". */
  lemma FormattedCpfDigits()
    ensures RemoveNonNumeric("111.222.333-44") == "11122233344"
  {
    CpfMaskStripped("111", "222", "333", "44");
    CpfExampleParts();
  }

  /** "111.222.333-44" and "11122233344" get the same verdict: both are rejected. */
  lemma FormattedCpfExample()
    ensures IsValidCPFOrCNPJ("111.222.333-44") == IsValidCPFOrCNPJ("11122233344")
    ensures !IsValidCPFOrCNPJ("111.222.333-44")
  {
    FormattedCpfDigits();
    CpfExampleDigitsRejected("111.222.333-44");
    assert AllDigits("11122233344");
    CpfExampleDigitsRejected("11122233344");
  }

  /** The commonly used CNPJ test value "11222333000181" is rejected. */
  lemma CnpjExample()
    ensures !IsValidCPFOrCNPJ("11222333000181")
  {
    assert AllDigits("11222333000181");
    CnpjBranchRejects("11222333000181");
  }
}
