/**
 The Brazilian taxpayer-identifier check `isValidCPFOrCNPJ` of src/lib/utils.ts,
 which the producer form applies to its CPF/CNPJ field.

 The check strips every character that is not an ASCII digit, then dispatches
 on the number of digits left: 11 digits take the CPF branch, 14 the CNPJ
 branch, and any other count is rejected. Each branch is a `reduce` over the
 digit characters that folds a weighted sum, followed by a test modulo 11.
 Each fold is modelled as a function that mirrors `reduce`: it carries the
 index and the accumulator and visits every position of the cleaned string.
 */
module Utils {
  import opened JsNumber

  /** The characters the pattern `\d` matches (without the `u` flag): ASCII digits only. */
  predicate IsDigit(c: char)
  {
    '0' <= c <= '9'
  }

  predicate AllDigits(s: string)
  {
    forall i :: 0 <= i < |s| ==> IsDigit(s[i])
  }

  predicate NoDigits(s: string)
  {
    forall i :: 0 <= i < |s| ==> !IsDigit(s[i])
  }

  /** `value.replace(/\D/g, "")`: drops every character that is not an ASCII digit, keeping the rest in order. */
  function RemoveNonNumeric(value: string): (cleaned: string)
    ensures |cleaned| <= |value|
    ensures AllDigits(cleaned)
    ensures AllDigits(value) ==> cleaned == value
    ensures NoDigits(value) ==> cleaned == []
  {
    if value == [] then []
    else if IsDigit(value[0]) then [value[0]] + RemoveNonNumeric(value[1..])
    else RemoveNonNumeric(value[1..])
  }

  /** `parseInt(digit, 10)` on a one-character digit string: its decimal value. */
  function ParseDigit(digit: char): (n: int)
    requires IsDigit(digit)
    ensures 0 <= n <= 9
    ensures ('0' as int + n) as char == digit
  {
    digit as int - '0' as int
  }

  /**
   The CPF `reduce`, from position `index` on with accumulator `acc`: each
   digit is multiplied by the weight `cleaned.length + 1 - index` and added.
   */
  function CpfReduce(cleaned: string, index: nat, acc: int): int
    requires index <= |cleaned|
    requires AllDigits(cleaned)
    decreases |cleaned| - index
  {
    if index == |cleaned| then acc
    else
      var weight := |cleaned| + 1 - index;
      CpfReduce(cleaned, index + 1, acc + ParseDigit(cleaned[index]) * weight)
  }

  /** The weights table of the CNPJ branch. It has 13 entries. */
  const CnpjWeights: seq<int> := [6, 5, 4, 3, 2, 9, 8, 7, 6, 5, 4, 3, 2]

  /**
   The CNPJ `reduce`, from position `index` on with accumulator `acc`: each
   digit is multiplied by `weights[index]` and added. The fold visits every
   position of the cleaned string, so a position past the end of the table
   reads `undefined`, and the product and every sum after it are NaN.
   */
  function CnpjReduce(cleaned: string, index: nat, acc: Num): Num
    requires index <= |cleaned|
    requires AllDigits(cleaned)
    decreases |cleaned| - index
  {
    if index == |cleaned| then acc
    else
      var weight := ToNumber(Lookup(CnpjWeights, index));
      CnpjReduce(cleaned, index + 1, Add(acc, Mul(Finite(ParseDigit(cleaned[index])), weight)))
  }

  /** `isValidCPFOrCNPJ(cpfCnpj)`: total on every string; every rejection is `false`. */
  function IsValidCPFOrCNPJ(cpfCnpj: string): bool
  {
    var cleanedValue := RemoveNonNumeric(cpfCnpj);
    if |cleanedValue| == 11 then
      JsRem(CpfReduce(cleanedValue, 0, 0) * 10, 11) == 0
    else if |cleanedValue| == 14 then
      Rem(CnpjReduce(cleanedValue, 0, Finite(0)), Finite(11)) == Finite(0)
    else
      false
  }
}
