# SIMM 2.0 delta weighting and credit-qualifying concentration risk

A Dafny model of two pieces of the ISDA SIMM 2.0 delta-weighting step
(Appendix 1 of the ISDA SIMM 2.0 methodology):

- **Credit-qualifying concentration risk.** A bucket identifier is sorted into
  one of three threshold groups. Sovereign is buckets "1" and "7". Corporate is
  buckets "2" to "6" and "8" to "12". Not classified is "Residual", matched
  ignoring case. Any other bucket is an error. The delta threshold is
  0.95·MM for sovereign buckets and 0.29·MM for the other two groups. The vega
  threshold is the constant 290·MM. The concentration factor of a qualifier is
  the square-root step `divideSqrtMax(sum, threshold)`. Here `sum` is the signed
  sum of the amounts of every item whose qualifier equals the given one.
- **Delta weighting.** A list of sensitivities is mapped, in order, to weighted
  sensitivities. Each weighted value is `riskWeight × amountUsd × factor`. The
  factor is computed against the entire input list. If any lookup fails, no
  list is returned.

Files:

- `sensitivity.dfy` (module `Sensitivities`): the sensitivity and weighted
  sensitivity values, the risk classes, the `Result` type that replaces the
  Java runtime exceptions, and the `MM` constant.
- `concentration_sum.dfy` (module `ConcentrationSum`): the filtered signed sum
  that both concentration factors are built from. The lemmas show that the sum
  is the plain signed sum over the kept items,
  splits over concatenation, sees only the kept items, and does not depend on
  the order of the list.
- `credit_qualifying_concentration.dfy` (module `CreditQualifyingConcentration`):
  bucket classification, the threshold tables, and the delta and vega
  concentration factors. The classification is proved against an independent
  description of the bucket space. Bucket numbers are canonical decimal
  numerals (no sign, blank or leading zero) with values 1 to 12. The residual
  bucket is "residual" in any mix of cases.
- `delta_margin_weight.dfy` (module `DeltaMarginWeight`): weighting one
  sensitivity and weighting a whole list.

The collaborators whose code is not part of this model are passed in as
function-valued parameters. These are the square-root step
`RiskConcentrationUtil.divideSqrtMax`, the risk-weight table
`RiskWeight.getRiskWeight`, and the per-risk-class dispatcher
`RiskConcentration.getDeltaConcentrationRisk`. The two lookups return a
`Result`, so either may fail. `MM` is taken to be 1,000,000: its definition in
`RiskConcentrationUtil` is not part of this model. Amounts are exact `real`s,
so the `BigDecimal` sums and products are exact.

Two points about the order and form of the computation:

- In `DeltaMarginWeightUtils.java:41` the concentration factor is an argument to
  `weightSensitivity`, so it is computed first. The risk weight is looked up
  inside, at line 46. So when both fail for the same sensitivity, the
  concentration error is the one reported (`ElementError`).
- The SIMM factor is `max(1, sqrt(|sum| / threshold))`. The code only calls
  `divideSqrtMax` with the signed sum, so the model assumes nothing about
  that function, including how it treats a negative sum.

## Model

| member | source | states |
|---|---|---|
| `CreditQualifyingConcentration.EqualsIgnoreCase` | simm-model/src/main/java/com/acadiasoft/simm/model/cq/CreditQualifyingConcentrationRiskV2_0.java:93-94 | two strings match ignoring case exactly when they have the same length and agree position by position once ASCII letters are lower-cased |
| `CreditQualifyingConcentration.DetermineGroup` | simm-model/src/main/java/com/acadiasoft/simm/model/cq/CreditQualifyingConcentrationRiskV2_0.java:88-98 | a rejected bucket is reported with that bucket as an `UnclassifiableBucket` error |
| `CreditQualifyingConcentration.SovereignListIsNumbers` | simm-model/src/main/java/com/acadiasoft/simm/model/cq/CreditQualifyingConcentrationRiskV2_0.java:45 | a string is in the sovereign list (exact, case-sensitive) exactly when it is the canonical numeral of 1 or 7 |
| `CreditQualifyingConcentration.CorporateListIsNumbers` | simm-model/src/main/java/com/acadiasoft/simm/model/cq/CreditQualifyingConcentrationRiskV2_0.java:46 | a string is in the corporate list exactly when it is the canonical numeral of 2 to 12 other than 7 |
| `CreditQualifyingConcentration.ResidualSpelling` | simm-model/src/main/java/com/acadiasoft/simm/model/cq/CreditQualifyingConcentrationRiskV2_0.java:93-94 | matching "Residual" ignoring case holds exactly when the string lower-cases to "residual" |
| `CreditQualifyingConcentration.DetermineGroupSpec` | simm-model/src/main/java/com/acadiasoft/simm/model/cq/CreditQualifyingConcentrationRiskV2_0.java:88-98 | sovereign exactly for the numerals 1 and 7; corporate exactly for 2 to 12 other than 7; not classified exactly for any case variant of "residual"; an error exactly for every other bucket (both directions of each) |
| `CreditQualifyingConcentration.GroupsDisjoint` | simm-model/src/main/java/com/acadiasoft/simm/model/cq/CreditQualifyingConcentrationRiskV2_0.java:45-47 | no bucket is in two groups, so the sovereign, corporate, residual test order never changes the group a bucket gets |
| `CreditQualifyingConcentration.RejectedBuckets` | simm-model/src/main/java/com/acadiasoft/simm/model/cq/CreditQualifyingConcentrationRiskV2_0.java:95-96 | "0", "13", "99", "01" and " 1" are rejected with an error naming the bucket |
| `CreditQualifyingConcentration.ResidualAnyCase` | simm-model/src/main/java/com/acadiasoft/simm/model/cq/CreditQualifyingConcentrationRiskV2_0.java:93-94 | "RESIDUAL", "residual" and "ReSiDuAl" are all not classified |
| `CreditQualifyingConcentration.GroupDeltaThreshold` | simm-model/src/main/java/com/acadiasoft/simm/model/cq/CreditQualifyingConcentrationRiskV2_0.java:49-58 | the delta threshold table: 950,000 for the sovereign group, 290,000 for the corporate and the not-classified group |
| `CreditQualifyingConcentration.DeltaThreshold` | simm-model/src/main/java/com/acadiasoft/simm/model/cq/CreditQualifyingConcentrationRiskV2_0.java:80-82 | the threshold exists exactly for classifiable buckets; 950,000 for sovereign buckets, 290,000 for corporate and residual ones; otherwise the error names the bucket |
| `CreditQualifyingConcentration.DeltaThresholdByGroup` | simm-model/src/main/java/com/acadiasoft/simm/model/cq/CreditQualifyingConcentrationRiskV2_0.java:52-58 | two buckets in the same group get the same delta threshold |
| `CreditQualifyingConcentration.VegaThreshold` | simm-model/src/main/java/com/acadiasoft/simm/model/cq/CreditQualifyingConcentrationRiskV2_0.java:84-86 | the vega threshold is 290,000,000 and takes no qualifier, bucket or list |
| `CreditQualifyingConcentration.DeltaConcentration` | simm-model/src/main/java/com/acadiasoft/simm/model/cq/CreditQualifyingConcentrationRiskV2_0.java:61-69 | a factor exists exactly for classifiable buckets; it is `divideSqrtMax` of the qualifier's net delta sum and 950,000 (sovereign) or 290,000 (otherwise); an unclassifiable bucket gives its error |
| `CreditQualifyingConcentration.VegaConcentration` | simm-model/src/main/java/com/acadiasoft/simm/model/cq/CreditQualifyingConcentrationRiskV2_0.java:71-78 | the factor is `divideSqrtMax` of the qualifier's net weighted vega sum and 290,000,000, for every list |
| `CreditQualifyingConcentration.DeltaSumOfMatching` | simm-model/src/main/java/com/acadiasoft/simm/model/cq/CreditQualifyingConcentrationRiskV2_0.java:64-66 | the delta sum is the plain signed sum of `amountUsd` over a list holding every sensitivity whose qualifier equals the argument, as often as the input holds it, and no other |
| `CreditQualifyingConcentration.DeltaConcentrationPermutation` | simm-model/src/main/java/com/acadiasoft/simm/model/cq/CreditQualifyingConcentrationRiskV2_0.java:61-69 | reordering the list never changes the delta factor or error |
| `CreditQualifyingConcentration.DeltaConcentrationIgnoresOthers` | simm-model/src/main/java/com/acadiasoft/simm/model/cq/CreditQualifyingConcentrationRiskV2_0.java:64 | inserting a sensitivity with another qualifier anywhere leaves the delta factor unchanged |
| `CreditQualifyingConcentration.VegaSumOfMatching` | simm-model/src/main/java/com/acadiasoft/simm/model/cq/CreditQualifyingConcentrationRiskV2_0.java:73-75 | the vega sum is the plain signed sum of `weightedValue` over a list holding every weighted sensitivity whose qualifier equals the argument, as often as the input holds it, and no other |
| `CreditQualifyingConcentration.VegaConcentrationPermutation` | simm-model/src/main/java/com/acadiasoft/simm/model/cq/CreditQualifyingConcentrationRiskV2_0.java:71-78 | reordering the list never changes the vega factor |
| `CreditQualifyingConcentration.VegaConcentrationIgnoresOthers` | simm-model/src/main/java/com/acadiasoft/simm/model/cq/CreditQualifyingConcentrationRiskV2_0.java:73 | inserting a weighted sensitivity with another qualifier anywhere leaves the vega factor unchanged |
| `CreditQualifyingConcentration.WorkedExamples` | simm-model/src/main/java/com/acadiasoft/simm/model/cq/CreditQualifyingConcentrationRiskV2_0.java:61-69 | bucket "1" with net 1,900,000 uses threshold 950,000; "Residual" with 100,000 uses 290,000; bucket "99" gives an error |
| `ConcentrationSum.CalcSumIsSumOfKept` | simm-model/src/main/java/com/acadiasoft/simm/model/cq/CreditQualifyingConcentrationRiskV2_0.java:66 | `CalcSum`, the filtered sum behind both factors, equals the plain signed sum of `convert` over the kept items, in input order |
| `ConcentrationSum.FilterCounts` | simm-model/src/main/java/com/acadiasoft/simm/model/cq/CreditQualifyingConcentrationRiskV2_0.java:64 | the filter keeps each kept item exactly as often as the list holds it, and drops every other item |
| `ConcentrationSum.FilterPermutation` | simm-model/src/main/java/com/acadiasoft/simm/model/cq/CreditQualifyingConcentrationRiskV2_0.java:73 | filtering two lists with the same contents gives two lists with the same contents |
| `ConcentrationSum.SumPermutation` | simm-model/src/main/java/com/acadiasoft/simm/model/cq/CreditQualifyingConcentrationRiskV2_0.java:75 | the plain sum does not depend on the order of the list |
| `ConcentrationSum.SameKeptSameSum` | simm-model/src/main/java/com/acadiasoft/simm/model/cq/CreditQualifyingConcentrationRiskV2_0.java:75 | two lists with the same kept items in the same order have the same sum |
| `ConcentrationSum.CalcSumSkipsUnkept` | simm-model/src/main/java/com/acadiasoft/simm/model/cq/CreditQualifyingConcentrationRiskV2_0.java:64-66 | an item that fails the filter, inserted anywhere, does not change the sum |
| `ConcentrationSum.CalcSumPermutation` | simm-model/src/main/java/com/acadiasoft/simm/model/cq/CreditQualifyingConcentrationRiskV2_0.java:73-75 | any permutation of the list has the same filtered sum |
| `DeltaMarginWeight.WeightSensitivity` | simm-engine/src/main/java/com/acadiasoft/simm/engine/margin/delta/DeltaMarginWeightUtils.java:45-49 | succeeds exactly when the risk weight is found, otherwise returns the lookup's error; the result wraps the given sensitivity with value risk weight × amount × factor, which is 0 for a zero amount |
| `DeltaMarginWeight.WeightFrom` | simm-engine/src/main/java/com/acadiasoft/simm/engine/margin/delta/DeltaMarginWeightUtils.java:40-43 | weighting the suffix from an index succeeds exactly when every element there succeeds; entry k wraps input from+k, with its concentration taken against the entire list |
| `DeltaMarginWeight.WeightSensitivities` | simm-engine/src/main/java/com/acadiasoft/simm/engine/margin/delta/DeltaMarginWeightUtils.java:40-43 | succeeds exactly when both lookups succeed for every element; output length equals input length; output i wraps input i with risk weight × amount × the factor computed against the whole input list; zero amounts weigh 0 |
| `DeltaMarginWeight.WeightFromFailure` | simm-engine/src/main/java/com/acadiasoft/simm/engine/margin/delta/DeltaMarginWeightUtils.java:41 | a failed suffix reports the error of its first failing element |
| `DeltaMarginWeight.WeightSensitivitiesFailure` | simm-engine/src/main/java/com/acadiasoft/simm/engine/margin/delta/DeltaMarginWeightUtils.java:41-42 | a failed batch returns no list and reports the error of the first failing input, the concentration error before the risk-weight error |
| `DeltaMarginWeight.CreditQualifyingFactorShared` | simm-engine/src/main/java/com/acadiasoft/simm/engine/margin/delta/DeltaMarginWeightUtils.java:41 | when dispatch reaches the credit-qualifying resolver, sensitivities with equal qualifier and bucket get the same factor, however the list is reordered |
| `DeltaMarginWeight.CreditQualifyingBatchSharesFactor` | simm-engine/src/main/java/com/acadiasoft/simm/engine/margin/delta/DeltaMarginWeightUtils.java:41 | in one credit-qualifying batch, two inputs with equal qualifier and bucket are weighted with one and the same factor |

## Left out

- `RiskConcentrationUtil.divideSqrtMax`: its code is not part of this model, and its square root over `BigDecimal` has unknown precision and rounding. It is a parameter; no property of it (at least 1, monotone) is assumed or proved.
- `RiskConcentrationUtil.calcSum`: its code is not part of this model. `CalcSum` is the signed filtered sum the call sites describe.
- `RiskWeight.getRiskWeight` and `RiskConcentration.getDeltaConcentrationRisk`: these tables and dispatchers are not part of this model. They are parameters that may fail. The credit-qualifying case of the dispatcher is captured by the predicate `DispatchesCreditQualifying`.
- `MM`: its value is not visible; it is taken to be 1,000,000.
- `BigDecimal` scale and precision: amounts are exact reals.
- `EqualsIgnoreCase`: models `StringUtils.equalsIgnoreCase` with ASCII case folding only. Non-ASCII case mappings are out of scope, e.g. dotless i, long s, and capital I with dot above, which Java matches against "i" through lower-casing.
- Null values are not modelled, because Dafny strings and sequences cannot be null. A null list, or a list element with a null qualifier (`CreditQualifyingConcentrationRiskV2_0.java:64`), raises a `NullPointerException` in the source. A null bucket is not a separate case there: it fails all three group tests and ends in the "not in groups" error at line 96, which is the `UnclassifiableBucket` path for any other unknown bucket.
- The commented-out `VEGA_THRESHOLD` map is dead code.
- The static initialiser and the stream and collector machinery: the threshold table is the constant function `GroupDeltaThreshold`, and the stream map is the recursive `WeightFrom`.
- That the input list is not modified and that repeated calls give identical output hold by construction: sequences are values and every operation is a function.
- The `RiskClass` enumeration's source is not part of this model; the six SIMM risk classes are listed.
