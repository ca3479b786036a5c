/**
 * The values that flow through the SIMM delta-weighting step: sensitivities
 * as they arrive from ingestion, the weighted sensitivities the engine emits,
 * and the typed errors that replace the Java runtime exceptions.
 *
 * Amounts are exact decimals in the source (BigDecimal); here they are
 * mathematical reals, so sums and products are exact.
 */
module Sensitivities {

  /** The SIMM risk classes a sensitivity can belong to. */
  datatype RiskClass =
    | InterestRate
    | CreditQualifying
    | CreditNonQualifying
    | Equity
    | Commodity
    | Fx

  /** One raw sensitivity: only the fields the weighting step reads. */
  datatype Sensitivity = Sensitivity(
    riskClass: RiskClass,
    qualifier: string,
    bucket: string,
    amountUsd: real)

  /** A sensitivity together with its risk-weighted, concentration-adjusted value. */
  datatype WeightedSensitivity = WeightedSensitivity(
    sensitivity: Sensitivity,
    weightedValue: real)

  /** Why a computation produced no value. */
  datatype SimmError =
    /** The bucket belongs to none of the resolver's threshold groups. */
    | UnclassifiableBucket(bucket: string)
    /** An external table (risk weights, concentration dispatch) had no entry. */
    | LookupFailure(riskClass: RiskClass, qualifier: string)

  /** Success value or error, usable with `:-`. */
  datatype Result<+T> = Ok(value: T) | Err(error: SimmError) {
    predicate IsFailure() { Err? }

    function PropagateFailure<U>(): Result<U>
      requires Err?
    {
      Err(error)
    }

    function Extract(): T
      requires Ok?
    {
      value
    }
  }

  /** One million: the `MM` unit the threshold tables are written in. */
  const MM: real := 1_000_000.0
}
