/**
 * The delta weighting step of ISDA SIMM 2.0 (Appendix 1 of the methodology):
 * every sensitivity becomes a weighted sensitivity whose value is
 * risk weight × amount × concentration factor, where the concentration factor
 * is computed against the whole input list.
 *
 * The risk-weight table and the per-risk-class concentration dispatcher are
 * not part of this model; they are passed in as `Collaborators`, and either
 * may fail.
 */
module DeltaMarginWeight {
  import opened Sensitivities
  import CQ = CreditQualifyingConcentration

  /** The external lookups the weighting step consults. */
  datatype Collaborators = Collaborators(
    /** The risk weight of a sensitivity in its risk class. */
    riskWeight: (RiskClass, Sensitivity) -> Result<real>,
    /** The delta concentration factor of a sensitivity against the whole list of its risk class. */
    deltaConcentration: (RiskClass, Sensitivity, seq<Sensitivity>) -> Result<real>)

  /**
   * Weights one sensitivity with a given concentration factor. Fails exactly
   * when the risk weight cannot be found, with the lookup's own error.
   */
  function WeightSensitivity(riskClass: RiskClass, sensitivity: Sensitivity, concentrationFactor: real,
                             riskWeight: (RiskClass, Sensitivity) -> Result<real>): (r: Result<WeightedSensitivity>)
    ensures r.Ok? <==> riskWeight(riskClass, sensitivity).Ok?
    ensures r.Err? ==> r.error == riskWeight(riskClass, sensitivity).error
    ensures r.Ok? ==> r.value.sensitivity == sensitivity
    ensures r.Ok? ==> r.value.weightedValue
                      == riskWeight(riskClass, sensitivity).value * sensitivity.amountUsd * concentrationFactor
    ensures r.Ok? && sensitivity.amountUsd == 0.0 ==> r.value.weightedValue == 0.0
  {
    var weight :- riskWeight(riskClass, sensitivity);
    Ok(WeightedSensitivity(sensitivity, weight * sensitivity.amountUsd * concentrationFactor))
  }

  /** Both lookups succeed for the element at index `i`, its concentration taken against all of `all`. */
  predicate ElementSucceeds(c: Collaborators, riskClass: RiskClass, all: seq<Sensitivity>, i: nat)
    requires i < |all|
  {
    c.deltaConcentration(riskClass, all[i], all).Ok? && c.riskWeight(riskClass, all[i]).Ok?
  }

  /** The error the element at `i` raises: the concentration lookup runs first, then the risk weight. */
  function ElementError(c: Collaborators, riskClass: RiskClass, all: seq<Sensitivity>, i: nat): SimmError
    requires i < |all| && !ElementSucceeds(c, riskClass, all, i)
  {
    var factor := c.deltaConcentration(riskClass, all[i], all);
    if factor.Err? then factor.error else c.riskWeight(riskClass, all[i]).error
  }

  /** `i` is the first failing element at or after `from`, and `e` is its error. */
  predicate FirstFailure(c: Collaborators, riskClass: RiskClass, all: seq<Sensitivity>, from: nat, i: nat, e: SimmError)
  {
    && from <= i < |all|
    && (forall j :: from <= j < i ==> ElementSucceeds(c, riskClass, all, j))
    && !ElementSucceeds(c, riskClass, all, i)
    && e == ElementError(c, riskClass, all, i)
  }

  /** Weights `all[from..]` in order, each against the whole of `all`. */
  function WeightFrom(c: Collaborators, riskClass: RiskClass, all: seq<Sensitivity>, from: nat)
    : (r: Result<seq<WeightedSensitivity>>)
    requires from <= |all|
    ensures r.Ok? <==> forall i :: from <= i < |all| ==> ElementSucceeds(c, riskClass, all, i)
    ensures r.Ok? ==> |r.value| == |all| - from
    ensures r.Ok? ==> forall i :: from <= i < |all| ==>
              && ElementSucceeds(c, riskClass, all, i)
              && r.value[i - from] == WeightedSensitivity(all[i],
                c.riskWeight(riskClass, all[i]).value * all[i].amountUsd
                * c.deltaConcentration(riskClass, all[i], all).value)
    decreases |all| - from
  {
    if from == |all| then Ok([])
    else
      assert ElementSucceeds(c, riskClass, all, from)
          <==> c.deltaConcentration(riskClass, all[from], all).Ok? && c.riskWeight(riskClass, all[from]).Ok?;
      var factor :- c.deltaConcentration(riskClass, all[from], all);
      var weighted :- WeightSensitivity(riskClass, all[from], factor, c.riskWeight);
      var rest :- WeightFrom(c, riskClass, all, from + 1);
      Ok([weighted] + rest)
  }

  /**
   * Weights every sensitivity of one risk class. The result has one entry
   * per input, in input order, each holding the input it came from and
   * risk weight × amount × the concentration factor computed against the
   * entire input list. If any lookup fails there is no result list at all.
   */
  function WeightSensitivities(riskClass: RiskClass, sensitivities: seq<Sensitivity>, c: Collaborators)
    : (r: Result<seq<WeightedSensitivity>>)
    ensures r.Ok? <==> forall i :: 0 <= i < |sensitivities| ==> ElementSucceeds(c, riskClass, sensitivities, i)
    ensures r.Ok? ==> |r.value| == |sensitivities|
    ensures r.Ok? ==> forall i :: 0 <= i < |sensitivities| ==>
              && ElementSucceeds(c, riskClass, sensitivities, i)
              && r.value[i].sensitivity == sensitivities[i]
              && r.value[i].weightedValue
                 == c.riskWeight(riskClass, sensitivities[i]).value * sensitivities[i].amountUsd
                    * c.deltaConcentration(riskClass, sensitivities[i], sensitivities).value
    ensures r.Ok? ==> forall i :: 0 <= i < |sensitivities| && sensitivities[i].amountUsd == 0.0 ==>
              r.value[i].weightedValue == 0.0
  {
    WeightFrom(c, riskClass, sensitivities, 0)
  }

  /** When weighting fails, the error is that of the first failing element. */
  lemma {:induction false} WeightFromFailure(c: Collaborators, riskClass: RiskClass, all: seq<Sensitivity>, from: nat)
    requires from <= |all| && WeightFrom(c, riskClass, all, from).Err?
    ensures exists i :: FirstFailure(c, riskClass, all, from, i, WeightFrom(c, riskClass, all, from).error)
    decreases |all| - from
  {
    var e := WeightFrom(c, riskClass, all, from).error;
    if ElementSucceeds(c, riskClass, all, from) {
      WeightFromFailure(c, riskClass, all, from + 1);
      var i :| FirstFailure(c, riskClass, all, from + 1, i, e);
      assert FirstFailure(c, riskClass, all, from, i, e);
    } else {
      assert FirstFailure(c, riskClass, all, from, from, e);
    }
  }

  /**
   * A failed batch reports the error of its first failing sensitivity, in
   * input order; for that sensitivity a failed concentration lookup takes
   * precedence over a failed risk-weight lookup.
   */
  lemma WeightSensitivitiesFailure(riskClass: RiskClass, sensitivities: seq<Sensitivity>, c: Collaborators)
    requires WeightSensitivities(riskClass, sensitivities, c).Err?
    ensures exists i :: FirstFailure(c, riskClass, sensitivities, 0, i, WeightSensitivities(riskClass, sensitivities, c).error)
  {
    WeightFromFailure(c, riskClass, sensitivities, 0);
  }

  /** The dispatcher sends credit-qualifying sensitivities to the credit-qualifying resolver. */
  ghost predicate DispatchesCreditQualifying(c: Collaborators, divideSqrtMax: (real, real) -> real) {
    forall s: Sensitivity, all: seq<Sensitivity> ::
      c.deltaConcentration(CreditQualifying, s, all) == CQ.DeltaConcentration(s.qualifier, s.bucket, all, divideSqrtMax)
  }

  /**
   * For credit-qualifying sensitivities the concentration factor depends only
   * on the qualifier, the bucket and the contents of the whole list: two
   * sensitivities sharing qualifier and bucket get the same factor, in any
   * reordering of the list.
   */
  lemma CreditQualifyingFactorShared(c: Collaborators, divideSqrtMax: (real, real) -> real,
                                     s: Sensitivity, all: seq<Sensitivity>,
                                     t: Sensitivity, reordered: seq<Sensitivity>)
    requires DispatchesCreditQualifying(c, divideSqrtMax)
    requires s.qualifier == t.qualifier && s.bucket == t.bucket
    requires multiset(all) == multiset(reordered)
    ensures c.deltaConcentration(CreditQualifying, s, all) == c.deltaConcentration(CreditQualifying, t, reordered)
  {
    CQ.DeltaConcentrationPermutation(s.qualifier, s.bucket, all, reordered, divideSqrtMax);
  }

  /**
   * Within one credit-qualifying batch, two inputs with equal qualifier and
   * bucket are weighted with one and the same concentration factor.
   */
  lemma CreditQualifyingBatchSharesFactor(c: Collaborators, divideSqrtMax: (real, real) -> real,
                                          sensitivities: seq<Sensitivity>, i: nat, j: nat)
    requires DispatchesCreditQualifying(c, divideSqrtMax)
    requires i < |sensitivities| && j < |sensitivities|
    requires sensitivities[i].qualifier == sensitivities[j].qualifier
    requires sensitivities[i].bucket == sensitivities[j].bucket
    requires WeightSensitivities(CreditQualifying, sensitivities, c).Ok?
    ensures ElementSucceeds(c, CreditQualifying, sensitivities, i)
    ensures ElementSucceeds(c, CreditQualifying, sensitivities, j)
    ensures c.deltaConcentration(CreditQualifying, sensitivities[i], sensitivities)
         == c.deltaConcentration(CreditQualifying, sensitivities[j], sensitivities)
    ensures var factor := c.deltaConcentration(CreditQualifying, sensitivities[i], sensitivities).value;
            var out := WeightSensitivities(CreditQualifying, sensitivities, c).value;
            && out[i].weightedValue
               == c.riskWeight(CreditQualifying, sensitivities[i]).value * sensitivities[i].amountUsd * factor
            && out[j].weightedValue
               == c.riskWeight(CreditQualifying, sensitivities[j]).value * sensitivities[j].amountUsd * factor
  {
  }
}
