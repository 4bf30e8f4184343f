# Taxpayer-identifier validator of farmersFront, in Dafny

farmersFront is a dashboard front-end for agricultural-producer records. The
producer form checks the producer's Brazilian taxpayer identifier with one
predicate, `isValidCPFOrCNPJ` (src/lib/utils.ts). That predicate is modelled
here, together with proofs of what it accepts.

The predicate works in three steps:

1. It strips every character that is not an ASCII digit (`replace(/\D/g, "")`).
2. It dispatches on the number of digits left. 11 digits take the CPF branch
   (individual taxpayer). 14 digits take the CNPJ branch (company). Any other
   count gives `false`.
3. Each branch is a `reduce` over the digit characters. It folds a weighted
   sum and tests it modulo 11.

Neither branch is the official two-check-digit algorithm. The official CPF
check computes two check digits, with weights 10 down to 2 over the first nine
digits and 11 down to 2 over the first ten. The official CNPJ check uses the
weights 5,4,3,2,9,8,7,6,5,4,3,2 over the first twelve digits and
6,5,4,3,2,9,8,7,6,5,4,3,2 over the first thirteen. The code does something
else, and the model follows the code as written:

- **CPF weights.** The weight at position `i` is `cleanedValue.length + 1 - i`.
  For 11 digits that runs from 12 down to 2, over all eleven digits, in one
  sum. The test is `(sum * 10) % 11 === 0`. Because 10 and 11 are coprime, this
  is the same as `sum % 11 == 0`.
- **CNPJ overrun.** The weights table has 13 entries, but `reduce` visits all 14
  digits. At position 13 the weight is `undefined`, so the product is NaN. That
  NaN carries through the sum, and `NaN % 11 === 0` is false. So **every
  14-digit input is rejected**, whatever its digits.

Files:

- `js_number.dfy`, module `JsNumber`: the JavaScript semantics the predicate
  relies on. `Num` is a number that is either an exact integer or NaN. `Slot`
  is an array read that is either an element or `undefined`. `Add`, `Mul` and
  `Rem` propagate NaN. `JsRem` is JavaScript's `%`, whose remainder takes the
  sign of the dividend.
- `utils.dfy`, module `Utils`: the predicate itself. `RemoveNonNumeric` is the
  inner `removeNonNumeric`. `ParseDigit` is `parseInt(digit, 10)`. `CpfReduce`
  and `CnpjReduce` mirror the two `reduce` calls, index and accumulator
  included. `IsValidCPFOrCNPJ` is the dispatch. It has no precondition, so it
  is defined on every string. Dafny functions are deterministic and have no
  side effects, so the verdict can never depend on anything but the argument.
- `utils_properties.dfy`, module `UtilsProperties`: the lemmas. `WeightedSum`,
  which recurses on the head, is an independent reference for the CPF fold,
  which carries an accumulator. `Characterization` gives the whole verdict in
  closed form.

## Model

| member | source | states |
|---|---|---|
| `Utils.IsValidCPFOrCNPJ` | src/lib/utils.ts:8-41 | the dispatch: strip, then the CPF test for 11 digits, the CNPJ test for 14, `false` otherwise; defined on every string (no precondition). Its contract is carried by `UtilsProperties.Characterization` (the verdict in closed form), `UtilsProperties.SameDigitsSameVerdict` (depends only on the digits), `UtilsProperties.WrongLengthRejected` and `UtilsProperties.CnpjBranchRejects` |
| `Utils.CpfReduce` | src/lib/utils.ts:14-19 | the CPF `reduce` with its index and accumulator, weight `cleanedValue.length + 1 - index`; its contract is carried by `UtilsProperties.CpfReduceIsWeightedSum` (it equals the accumulator plus the independent `WeightedSum` of the rest) |
| `Utils.CnpjReduce` | src/lib/utils.ts:27-32 | the CNPJ `reduce` over the 13-entry table `Utils.CnpjWeights`, reading `weights[index]` at every position; its contract is carried by `UtilsProperties.CnpjReduceOverruns` (more than 13 digits end in NaN) and `UtilsProperties.CnpjReduceFromNaN` (NaN persists) |
| `JsNumber.Lookup` | src/lib/utils.ts:30 | `weights[index]`: the element inside the table, `undefined` past its end; used by `Utils.CnpjReduce`, and its `undefined` case is what `UtilsProperties.CnpjReduceOverruns` reaches at index 13 |
| `JsNumber.ToNumber` | src/lib/utils.ts:31 | the numeric conversion `*` applies to its operand: `undefined` becomes NaN; see `UtilsProperties.CnpjReduceOverruns` |
| `JsNumber.Mul` | src/lib/utils.ts:31 | `parseInt(digit, 10) * weight`: NaN if either operand is NaN; see `UtilsProperties.CnpjReduceOverruns` |
| `JsNumber.Add` | src/lib/utils.ts:31 | `acc + …`: NaN if either operand is NaN; `UtilsProperties.CnpjReduceFromNaN` proves a NaN accumulator stays NaN through the fold |
| `JsNumber.Rem` | src/lib/utils.ts:29-35 | `sum % 11`: NaN in, NaN out, otherwise `JsNumber.JsRem`; so `NaN % 11 === 0` is false, as `UtilsProperties.CnpjBranchRejects` uses |
| `JsNumber.JsRem` | src/lib/utils.ts:19-21 | JavaScript `%`: the dividend equals the divisor times the quotient rounded toward zero, plus the remainder; the remainder is smaller than the divisor in magnitude and is zero or has the dividend's sign |
| `JsNumber.JsRemElevenZero` | src/lib/utils.ts:19-22 | `x % 11 === 0` in JavaScript holds exactly when 11 divides `x` |
| `Utils.RemoveNonNumeric` | src/lib/utils.ts:9-10 | the cleaned string holds only ASCII digits and is no longer than the input; an all-digit input is returned unchanged; an input with no digit becomes empty |
| `Utils.ParseDigit` | src/lib/utils.ts:17 | `parseInt` of a digit character is a value in 0..9 that maps back to that character |
| `UtilsProperties.RemoveNonNumericConcat` | src/lib/utils.ts:9 | stripping a concatenation strips each part and keeps their order |
| `UtilsProperties.RemoveNonNumericCount` | src/lib/utils.ts:9 | each digit occurs in the cleaned string as often as in the input; no other character occurs in it |
| `UtilsProperties.RemoveNonNumericIdempotent` | src/lib/utils.ts:9 | stripping a second time changes nothing |
| `UtilsProperties.SameDigitsSameVerdict` | src/lib/utils.ts:10-25 | two inputs with the same digit sequence get the same verdict |
| `UtilsProperties.SeparatorsRemoved` | src/lib/utils.ts:9 | inserting a run of non-digits anywhere leaves the cleaned string unchanged |
| `UtilsProperties.SeparatorsIgnored` | src/lib/utils.ts:10-25 | inserting a run of non-digits anywhere leaves the verdict unchanged |
| `UtilsProperties.AppendSeparator` | src/lib/utils.ts:9 | appending non-digits leaves the cleaned string unchanged |
| `UtilsProperties.AppendDigits` | src/lib/utils.ts:9 | appending digits appends them to the cleaned string |
| `UtilsProperties.CpfMaskStripped` | src/lib/utils.ts:9 | the CPF mask `ddd.ddd.ddd-dd` strips to its digits |
| `UtilsProperties.CnpjMaskStripped` | src/lib/utils.ts:9 | the CNPJ mask `dd.ddd.ddd/dddd-dd` strips to its digits |
| `UtilsProperties.FormattedCpfSameVerdict` | src/lib/utils.ts:10-24 | a CPF written with its mask gets the same verdict as its bare digits |
| `UtilsProperties.WrongLengthRejected` | src/lib/utils.ts:12-40 | every input whose digit count is not 11 is rejected: no digits, 14 digits, any other count |
| `UtilsProperties.CpfWeightsOfEleven` | src/lib/utils.ts:16 | for 11 digits the weights `length + 1 - index` are 12, 11, …, 2 |
| `UtilsProperties.CpfWeightsTotal` | src/lib/utils.ts:16 | the eleven CPF weights add up to 77 |
| `UtilsProperties.CpfReduceIsWeightedSum` | src/lib/utils.ts:15-19 | the CPF `reduce` from any index adds to its accumulator the weighted sum of the remaining digits |
| `UtilsProperties.TimesTenDivisibleByEleven` | src/lib/utils.ts:19-22 | multiplying by 10 does not change divisibility by 11 |
| `UtilsProperties.CpfVerdict` | src/lib/utils.ts:12-24 | for 11 digits the verdict is `(Σ d[i]·(12−i)) · 10 % 11 === 0`, and equally `Σ d[i]·(12−i) % 11 == 0` |
| `UtilsProperties.WeightedSumOfRepdigit` | src/lib/utils.ts:15-19 | a weighted sum of equal digits is the digit times the total weight |
| `UtilsProperties.WeightedSumConcat` | src/lib/utils.ts:15-19 | the weighted sum splits over concatenated digit strings |
| `UtilsProperties.RepdigitAccepted` | src/lib/utils.ts:14-24 | every 11-digit repdigit, from "00000000000" to "99999999999", is accepted |
| `UtilsProperties.Characterization` | src/lib/utils.ts:8-41 | an input is accepted exactly when it has 11 digits whose weighted sum, with weights 12 down to 2, is divisible by 11 |
| `UtilsProperties.CnpjReduceFromNaN` | src/lib/utils.ts:29-32 | once the CNPJ sum is NaN, it stays NaN to the end of the fold |
| `UtilsProperties.CnpjReduceOverruns` | src/lib/utils.ts:27-32 | when the digits outnumber the 13 weights, the CNPJ fold reads `undefined` at index 13 and ends in NaN |
| `UtilsProperties.CnpjBranchRejects` | src/lib/utils.ts:25-37 | every 14-digit input is rejected |
| `UtilsProperties.FormattedCnpjRejected` | src/lib/utils.ts:25-37 | every CNPJ written with its mask `dd.ddd.ddd/dddd-dd` is rejected |
| `UtilsProperties.OnesAccepted` | src/lib/utils.ts:14-24 | "11111111111" is accepted |
| `UtilsProperties.CpfExampleGroupSums` | src/lib/utils.ts:15-19 | the digit groups of "11122233344" weigh 33, 48, 45 and 20 |
| `UtilsProperties.BareCpfSum` | src/lib/utils.ts:15-19 | the weighted sum of "11122233344" is 146 |
| `UtilsProperties.CpfExampleDigitsRejected` | src/lib/utils.ts:12-24 | every input whose digits are 11122233344 is rejected |
| `UtilsProperties.FormattedCpfDigits` | src/lib/utils.ts:9-10 | "111.222.333-44" strips to "11122233344" |
| `UtilsProperties.FormattedCpfExample` | src/lib/utils.ts:10-24 | "111.222.333-44" and "11122233344" get the same verdict, and both are rejected |
| `UtilsProperties.CnpjExample` | src/lib/utils.ts:25-37 | "11222333000181" is rejected |

## Left out

- `cn` (src/lib/utils.ts:4-6): a thin wrapper over the external `clsx` and `tailwind-merge` libraries.
- src/App.tsx: React state, the HTTP calls to the farmers and metrics API, toasts and layout. `handleEditFarmer` is a lookup by id that feeds UI state.
- src/components/Register.tsx: the form schema and its network calls. It uses the validator only as a predicate on the CPF/CNPJ field. Its other rules depend on the form library's number coercion.
- src/components/charts/*.tsx: chart rendering, with floating-point label placement and rounding.
- JavaScript numbers are doubles. The model uses exact integers, because every sum here is a small non-negative integer, far below 2^53.
- JavaScript strings are UTF-16 code units. The model uses Dafny `char`. `\d` without the `u` flag matches only `'0'..'9'`, so both agree on which characters are kept.
