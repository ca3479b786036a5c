/**
 * Concentration risk for the credit-qualifying risk class under ISDA SIMM 2.0.
 *
 * A bucket is sorted into one of three threshold groups (sovereign, corporate,
 * not classified); the delta threshold is looked up per group, the vega
 * threshold is one constant. The concentration factor is the external
 * square-root step applied to the signed sum of the amounts that share the
 * qualifier, and to the threshold. That step's code is not part of this
 * model, so every operation here takes it as the parameter `divideSqrtMax`.
 */
module CreditQualifyingConcentration {
  import opened Sensitivities
  import opened ConcentrationSum

  /** The concentration-threshold groups of the credit-qualifying buckets. */
  datatype Group = Sovereign | Corporate | NotClassified

  const SovereignBuckets: seq<string> := ["1", "7"]
  const CorporateBuckets: seq<string> := ["2", "3", "4", "5", "6", "8", "9", "10", "11", "12"]
  const NotClassifiedBuckets: seq<string> := ["Residual"]

  // ---------------------------------------------------------------------------
  // Case-insensitive comparison (ASCII letters only)
  // ---------------------------------------------------------------------------

  function UpperAscii(c: char): char {
    if 'a' <= c <= 'z' then (c as int - 32) as char else c
  }

  function LowerAscii(c: char): char {
    if 'A' <= c <= 'Z' then (c as int + 32) as char else c
  }

  /** Two characters match ignoring case: equal, or equal once both are upper- or lower-cased. */
  predicate CharEqualsIgnoreCase(c: char, d: char) {
    c == d || UpperAscii(c) == UpperAscii(d) || LowerAscii(c) == LowerAscii(d)
  }

  /**
   * Same length and every position matches ignoring case; for ASCII text that
   * is the same as the two strings agreeing once lower-cased.
   */
  predicate EqualsIgnoreCase(a: string, b: string): (r: bool)
    ensures r <==> |a| == |b| && forall i :: 0 <= i < |a| ==> LowerAscii(a[i]) == LowerAscii(b[i])
  {
    |a| == |b| && forall i :: 0 <= i < |a| ==> CharEqualsIgnoreCase(a[i], b[i])
  }

  // ---------------------------------------------------------------------------
  // Bucket classification
  // ---------------------------------------------------------------------------

  /**
   * The group of a bucket, testing sovereign, then corporate (both exact,
   * case-sensitive list membership), then "Residual" ignoring case. Any other
   * bucket is an error that names the bucket.
   */
  function DetermineGroup(bucket: string): (r: Result<Group>)
    ensures r.Err? ==> r.error == UnclassifiableBucket(bucket)
  {
    if bucket in SovereignBuckets then Ok(Sovereign)
    else if bucket in CorporateBuckets then Ok(Corporate)
    else if EqualsIgnoreCase(bucket, NotClassifiedBuckets[0]) then Ok(NotClassified)
    else Err(UnclassifiableBucket(bucket))
  }

  // An independent description of the legal bucket space: a bucket number is
  // the canonical decimal spelling (no sign, no blanks, no leading zero) of a
  // number; the residual bucket is "residual" in any mix of cases.

  predicate IsDigit(c: char) {
    '0' <= c <= '9'
  }

  predicate AllDigits(s: string) {
    forall i :: 0 <= i < |s| ==> IsDigit(s[i])
  }

  predicate IsCanonicalNumeral(s: string) {
    |s| > 0 && s[0] != '0' && AllDigits(s)
  }

  /** The number a string of decimal digits spells. */
  function NumeralValue(s: string): nat
    requires AllDigits(s)
    decreases |s|
  {
    if |s| == 0 then 0
    else 10 * NumeralValue(s[..|s| - 1]) + (s[|s| - 1] as int - '0' as int)
  }

  /** Sovereign buckets are the numbers 1 and 7. */
  predicate IsSovereignBucket(b: string) {
    IsCanonicalNumeral(b) && (NumeralValue(b) == 1 || NumeralValue(b) == 7)
  }

  /** Corporate buckets are the numbers 2 to 12 other than 7. */
  predicate IsCorporateBucket(b: string) {
    IsCanonicalNumeral(b) && 2 <= NumeralValue(b) <= 12 && NumeralValue(b) != 7
  }

  /** The residual bucket: "residual" in any mix of upper and lower case. */
  predicate IsResidualBucket(b: string) {
    |b| == 8 && forall i :: 0 <= i < 8 ==> LowerAscii(b[i]) == "residual"[i]
  }

  /** A canonical numeral has value at least 1, at least 10 with two digits, at least 100 with three. */
  lemma {:induction false} NumeralLowerBound(s: string)
    requires IsCanonicalNumeral(s)
    ensures NumeralValue(s) >= 1
    ensures |s| >= 2 ==> NumeralValue(s) >= 10
    ensures |s| >= 3 ==> NumeralValue(s) >= 100
    decreases |s|
  {
    if |s| >= 2 {
      var p := s[..|s| - 1];
      assert p[0] == s[0];
      NumeralLowerBound(p);
    }
  }

  /** The canonical numerals up to 12 are exactly one-digit strings and "10", "11", "12". */
  lemma {:induction false} NumeralShape(s: string)
    requires IsCanonicalNumeral(s) && NumeralValue(s) <= 12
    ensures |s| == 1 ==> s == [s[0]] && '1' <= s[0] <= '9' && NumeralValue(s) == s[0] as int - '0' as int
    ensures |s| != 1 ==> s == ['1', s[1]] && '0' <= s[1] <= '2' && NumeralValue(s) == 10 + (s[1] as int - '0' as int)
  {
    NumeralLowerBound(s);
  }

  /** List membership for the sovereign bucket list agrees with the numeric description. */
  lemma SovereignListIsNumbers(b: string)
    ensures b in SovereignBuckets <==> IsSovereignBucket(b)
  {
    if IsSovereignBucket(b) {
      NumeralShape(b);
    }
    if b in SovereignBuckets {
      assert b[..0] == [];
    }
  }

  /** List membership for the corporate bucket list agrees with the numeric description. */
  lemma CorporateListIsNumbers(b: string)
    ensures b in CorporateBuckets <==> IsCorporateBucket(b)
  {
    if IsCorporateBucket(b) {
      NumeralShape(b);
      if |b| == 1 {
        assert b == [b[0]];
      } else {
        assert b == ['1', b[1]];
      }
    }
    if b in CorporateBuckets {
      assert b[..0] == [];
      if |b| == 2 {
        assert b[..1] == "1";
        assert b[..1][..0] == [];
      }
    }
  }

  /** Matching "Residual" ignoring case is the same as lower-casing to "residual". */
  lemma ResidualSpelling(b: string)
    ensures EqualsIgnoreCase(b, NotClassifiedBuckets[0]) <==> IsResidualBucket(b)
  {
  }

  /**
   * The classification, stated against the independent description: each
   * group is chosen exactly for its own buckets, and every bucket outside the
   * three is rejected.
   */
  lemma DetermineGroupSpec(b: string)
    ensures DetermineGroup(b) == Ok(Sovereign) <==> IsSovereignBucket(b)
    ensures DetermineGroup(b) == Ok(Corporate) <==> IsCorporateBucket(b)
    ensures DetermineGroup(b) == Ok(NotClassified) <==> IsResidualBucket(b)
    ensures DetermineGroup(b).Err? <==> !IsSovereignBucket(b) && !IsCorporateBucket(b) && !IsResidualBucket(b)
  {
    SovereignListIsNumbers(b);
    CorporateListIsNumbers(b);
    ResidualSpelling(b);
  }

  /**
   * The three groups are pairwise disjoint, so the order in which the
   * classification tests them never changes the group a bucket receives.
   */
  lemma GroupsDisjoint(b: string)
    ensures !(b in SovereignBuckets && b in CorporateBuckets)
    ensures !(b in SovereignBuckets && EqualsIgnoreCase(b, NotClassifiedBuckets[0]))
    ensures !(b in CorporateBuckets && EqualsIgnoreCase(b, NotClassifiedBuckets[0]))
  {
  }

  /** Buckets that look numeric but are not in the table, and a blank-prefixed one, are rejected. */
  lemma RejectedBuckets()
    ensures forall b :: b in ["0", "13", "99", "01", " 1"] ==> DetermineGroup(b) == Err(UnclassifiableBucket(b))
  {
  }

  /** Upper-, lower- and mixed-case spellings of "Residual" are all accepted as not classified. */
  lemma ResidualAnyCase(b: string)
    requires b in ["RESIDUAL", "residual", "ReSiDuAl"]
    ensures DetermineGroup(b) == Ok(NotClassified)
  {
  }

  // ---------------------------------------------------------------------------
  // Thresholds
  // ---------------------------------------------------------------------------

  /** The delta threshold table: one entry per group. */
  function GroupDeltaThreshold(g: Group): (t: real)
    ensures t == if g == Sovereign then 950_000.0 else 290_000.0
  {
    match g
    case Sovereign => 0.95 * MM
    case Corporate => 0.29 * MM
    case NotClassified => 0.29 * MM
  }

  /**
   * The delta threshold of a bucket: 950,000 for a sovereign bucket, 290,000
   * for a corporate or residual one, an error for any other bucket.
   */
  function DeltaThreshold(bucket: string): (r: Result<real>)
    ensures r.Ok? <==> IsSovereignBucket(bucket) || IsCorporateBucket(bucket) || IsResidualBucket(bucket)
    ensures r.Err? ==> r.error == UnclassifiableBucket(bucket)
    ensures r.Ok? ==> r.value == if IsSovereignBucket(bucket) then 950_000.0 else 290_000.0
  {
    DetermineGroupSpec(bucket);
    var g :- DetermineGroup(bucket);
    Ok(GroupDeltaThreshold(g))
  }

  /** The threshold depends on the bucket only through its group. */
  lemma DeltaThresholdByGroup(b1: string, b2: string)
    requires DetermineGroup(b1).Ok? && DetermineGroup(b1) == DetermineGroup(b2)
    ensures DeltaThreshold(b1) == DeltaThreshold(b2)
  {
  }

  /** The single vega threshold of the risk class: 290 million, whatever the qualifier or bucket. */
  function VegaThreshold(): (t: real)
    ensures t == 290_000_000.0
  {
    290.0 * MM
  }

  // ---------------------------------------------------------------------------
  // Concentration factors
  // ---------------------------------------------------------------------------

  /** Selects the sensitivities with exactly this qualifier. */
  function DeltaFilter(qualifier: string): Sensitivity -> bool {
    (s: Sensitivity) => s.qualifier == qualifier
  }

  function DeltaAmount(): Sensitivity -> real {
    (s: Sensitivity) => s.amountUsd
  }

  /** Selects the weighted sensitivities whose sensitivity has exactly this qualifier. */
  function VegaFilter(qualifier: string): WeightedSensitivity -> bool {
    (ws: WeightedSensitivity) => ws.sensitivity.qualifier == qualifier
  }

  function VegaAmount(): WeightedSensitivity -> real {
    (ws: WeightedSensitivity) => ws.weightedValue
  }

  /** The net delta amount of one qualifier across the whole list. */
  function DeltaSum(qualifier: string, all: seq<Sensitivity>): real {
    CalcSum(DeltaFilter(qualifier), DeltaAmount(), all)
  }

  /** The net weighted vega amount of one qualifier across the whole list. */
  function VegaSum(qualifier: string, all: seq<WeightedSensitivity>): real {
    CalcSum(VegaFilter(qualifier), VegaAmount(), all)
  }

  /**
   * Delta concentration factor of a qualifier in a bucket: the square-root
   * step applied to the qualifier's net amount and the bucket's threshold.
   * Unclassifiable buckets produce no factor.
   */
  function DeltaConcentration(qualifier: string, bucket: string, all: seq<Sensitivity>,
                              divideSqrtMax: (real, real) -> real): (r: Result<real>)
    ensures r.Ok? <==> IsSovereignBucket(bucket) || IsCorporateBucket(bucket) || IsResidualBucket(bucket)
    ensures r.Err? ==> r.error == UnclassifiableBucket(bucket)
    ensures r.Ok? ==> r.value == divideSqrtMax(DeltaSum(qualifier, all),
                                               if IsSovereignBucket(bucket) then 950_000.0 else 290_000.0)
  {
    var sum := DeltaSum(qualifier, all);
    var threshold :- DeltaThreshold(bucket);
    Ok(divideSqrtMax(sum, threshold))
  }

  /** Vega concentration factor of a qualifier: the square-root step against the constant threshold. */
  function VegaConcentration(qualifier: string, all: seq<WeightedSensitivity>,
                             divideSqrtMax: (real, real) -> real): (r: real)
    ensures r == divideSqrtMax(VegaSum(qualifier, all), 290_000_000.0)
  {
    var sum := VegaSum(qualifier, all);
    divideSqrtMax(sum, VegaThreshold())
  }

  /**
   * The delta sum is the plain sum of `amountUsd` over a list that holds every
   * sensitivity with this qualifier exactly as often as the input does, and
   * nothing else.
   */
  lemma DeltaSumOfMatching(qualifier: string, all: seq<Sensitivity>)
    ensures DeltaSum(qualifier, all) == Sum(DeltaAmount(), Filter(DeltaFilter(qualifier), all))
    ensures forall s :: multiset(Filter(DeltaFilter(qualifier), all))[s]
                        == if s.qualifier == qualifier then multiset(all)[s] else 0
  {
    CalcSumIsSumOfKept(DeltaFilter(qualifier), DeltaAmount(), all);
    forall s ensures multiset(Filter(DeltaFilter(qualifier), all))[s]
                     == if s.qualifier == qualifier then multiset(all)[s] else 0 {
      FilterCounts(DeltaFilter(qualifier), all, s);
    }
  }

  /** Reordering the sensitivities never changes a delta concentration factor. */
  lemma DeltaConcentrationPermutation(qualifier: string, bucket: string, all: seq<Sensitivity>,
                                      reordered: seq<Sensitivity>, divideSqrtMax: (real, real) -> real)
    requires multiset(all) == multiset(reordered)
    ensures DeltaConcentration(qualifier, bucket, all, divideSqrtMax)
         == DeltaConcentration(qualifier, bucket, reordered, divideSqrtMax)
  {
    CalcSumPermutation(DeltaFilter(qualifier), DeltaAmount(), all, reordered);
  }

  /** A sensitivity with another qualifier, inserted anywhere, does not change the delta factor. */
  lemma DeltaConcentrationIgnoresOthers(qualifier: string, bucket: string, before: seq<Sensitivity>,
                                        other: Sensitivity, after: seq<Sensitivity>,
                                        divideSqrtMax: (real, real) -> real)
    requires other.qualifier != qualifier
    ensures DeltaConcentration(qualifier, bucket, before + [other] + after, divideSqrtMax)
         == DeltaConcentration(qualifier, bucket, before + after, divideSqrtMax)
  {
    CalcSumSkipsUnkept(DeltaFilter(qualifier), DeltaAmount(), before, other, after);
  }

  /**
   * The vega sum is the plain sum of `weightedValue` over a list that holds
   * every weighted sensitivity with this qualifier exactly as often as the
   * input does, and nothing else.
   */
  lemma VegaSumOfMatching(qualifier: string, all: seq<WeightedSensitivity>)
    ensures VegaSum(qualifier, all) == Sum(VegaAmount(), Filter(VegaFilter(qualifier), all))
    ensures forall ws :: multiset(Filter(VegaFilter(qualifier), all))[ws]
                         == if ws.sensitivity.qualifier == qualifier then multiset(all)[ws] else 0
  {
    CalcSumIsSumOfKept(VegaFilter(qualifier), VegaAmount(), all);
    forall ws ensures multiset(Filter(VegaFilter(qualifier), all))[ws]
                      == if ws.sensitivity.qualifier == qualifier then multiset(all)[ws] else 0 {
      FilterCounts(VegaFilter(qualifier), all, ws);
    }
  }

  /** Reordering the weighted sensitivities never changes a vega concentration factor. */
  lemma VegaConcentrationPermutation(qualifier: string, all: seq<WeightedSensitivity>,
                                     reordered: seq<WeightedSensitivity>, divideSqrtMax: (real, real) -> real)
    requires multiset(all) == multiset(reordered)
    ensures VegaConcentration(qualifier, all, divideSqrtMax) == VegaConcentration(qualifier, reordered, divideSqrtMax)
  {
    CalcSumPermutation(VegaFilter(qualifier), VegaAmount(), all, reordered);
  }

  /** A weighted sensitivity with another qualifier, inserted anywhere, does not change the vega factor. */
  lemma VegaConcentrationIgnoresOthers(qualifier: string, before: seq<WeightedSensitivity>,
                                       other: WeightedSensitivity, after: seq<WeightedSensitivity>,
                                       divideSqrtMax: (real, real) -> real)
    requires other.sensitivity.qualifier != qualifier
    ensures VegaConcentration(qualifier, before + [other] + after, divideSqrtMax)
         == VegaConcentration(qualifier, before + after, divideSqrtMax)
  {
    CalcSumSkipsUnkept(VegaFilter(qualifier), VegaAmount(), before, other, after);
  }

  /**
   * Worked cases: a sovereign qualifier netting to 1,900,000 meets the
   * 950,000 threshold; a residual qualifier with 100,000 meets the 290,000
   * threshold; bucket "99" yields no factor at all.
   */
  lemma WorkedExamples(divideSqrtMax: (real, real) -> real)
    ensures DeltaConcentration("Issuer-A", "1",
              [Sensitivity(CreditQualifying, "Issuer-A", "1", 1_200_000.0),
               Sensitivity(CreditQualifying, "Issuer-B", "1", 5_000_000.0),
               Sensitivity(CreditQualifying, "Issuer-A", "7", 700_000.0)], divideSqrtMax)
            == Ok(divideSqrtMax(1_900_000.0, 950_000.0))
    ensures DeltaConcentration("Issuer-C", "Residual",
              [Sensitivity(CreditQualifying, "Issuer-C", "Residual", 100_000.0)], divideSqrtMax)
            == Ok(divideSqrtMax(100_000.0, 290_000.0))
    ensures DeltaConcentration("Issuer-A", "99", [], divideSqrtMax) == Err(UnclassifiableBucket("99"))
  {
  }
}
