/** The parameter-validation contract that guards ALNS.iterate: which
    combinations of operator-pool sizes and run parameters are accepted
    before any search iteration executes, and which constraint each
    rejected combination breaks. */
module Validation {

  /** One constraint on the inputs of iterate; each broken one is a reason
      for iterate to raise ValueError. */
  datatype Violation =
    | NoDestroyOperator            // no destroy operator registered
    | NoRepairOperator             // no repair operator registered
    | OperatorDecayOutOfRange      // operator_decay not in (0, 1)
    | TooFewWeights                // fewer than four weights
    | NonPositiveWeight            // some weight is <= 0
    | NonPositiveIterations        // num_iterations <= 0
    | TemperatureDecayOutOfRange   // temperature_decay not in (0, 1)

  /** Number of weights iterate needs: one per iteration outcome (new global
      best, better than current, accepted although worse, rejected). */
  const NumOutcomes: nat := 4

  /** Value iterate uses for num_iterations when the caller passes none. */
  const DefaultNumIterations: int := 10000

  /** Value iterate uses for temperature_decay when the caller passes none. */
  const DefaultTemperatureDecay: real := 0.99

  /** x lies strictly between zero and one; both boundaries are excluded. */
  predicate InOpenUnitInterval(x: real) {
    0.0 < x < 1.0
  }

  /** Every weight is strictly positive. */
  predicate AllPositive(weights: seq<real>) {
    forall i :: 0 <= i < |weights| ==> weights[i] > 0.0
  }

  /** The conjunction of all constraints iterate checks: iterate runs the
      search exactly when this holds. */
  predicate ValidParams(nDestroy: nat, nRepair: nat, weights: seq<real>,
                        operatorDecay: real, numIterations: int,
                        temperatureDecay: real)
  {
    && nDestroy > 0
    && nRepair > 0
    && InOpenUnitInterval(operatorDecay)
    && |weights| >= NumOutcomes
    && AllPositive(weights)
    && numIterations > 0
    && InOpenUnitInterval(temperatureDecay)
  }

  /** Every constraint the given inputs break, each stated on its own. */
  function Violations(nDestroy: nat, nRepair: nat, weights: seq<real>,
                      operatorDecay: real, numIterations: int,
                      temperatureDecay: real): (vs: set<Violation>)
    ensures vs == {} <==> ValidParams(nDestroy, nRepair, weights, operatorDecay,
                                      numIterations, temperatureDecay)
  {
    (if nDestroy == 0 then {NoDestroyOperator} else {})
    + (if nRepair == 0 then {NoRepairOperator} else {})
    + (if !InOpenUnitInterval(operatorDecay) then {OperatorDecayOutOfRange} else {})
    + (if |weights| < NumOutcomes then {TooFewWeights} else {})
    + (if !AllPositive(weights) then {NonPositiveWeight} else {})
    + (if numIterations <= 0 then {NonPositiveIterations} else {})
    + (if !InOpenUnitInterval(temperatureDecay) then {TemperatureDecayOutOfRange} else {})
  }

  /** The defaults of num_iterations and temperature_decay are themselves
      acceptable, so a caller who leaves them out is never rejected for them. */
  lemma DefaultsValid()
    ensures DefaultNumIterations > 0
    ensures InOpenUnitInterval(DefaultTemperatureDecay)
  {
  }

  /** A missing destroy or repair operator is rejected whatever the other
      parameters are. */
  lemma MissingOperatorRejected(nDestroy: nat, nRepair: nat, weights: seq<real>,
                                operatorDecay: real, numIterations: int,
                                temperatureDecay: real)
    requires nDestroy == 0 || nRepair == 0
    ensures !ValidParams(nDestroy, nRepair, weights, operatorDecay, numIterations, temperatureDecay)
    ensures nDestroy == 0 ==>
      NoDestroyOperator in Violations(nDestroy, nRepair, weights, operatorDecay, numIterations, temperatureDecay)
    ensures nRepair == 0 ==>
      NoRepairOperator in Violations(nDestroy, nRepair, weights, operatorDecay, numIterations, temperatureDecay)
  {
  }

  /** When everything else is acceptable, each single parameter decides the
      outcome on its own: the operator pools by being non-empty, the decays
      by lying in (0, 1), the weights by being at least four and all
      positive, the iteration count by being positive. */
  lemma EachConstraintDecides(nDestroy: nat, nRepair: nat, weights: seq<real>,
                              operatorDecay: real, numIterations: int,
                              temperatureDecay: real)
    ensures nRepair > 0 && InOpenUnitInterval(operatorDecay) && |weights| >= NumOutcomes
            && AllPositive(weights) && numIterations > 0 && InOpenUnitInterval(temperatureDecay)
            ==> (ValidParams(nDestroy, nRepair, weights, operatorDecay, numIterations, temperatureDecay)
                 <==> nDestroy > 0)
    ensures nDestroy > 0 && InOpenUnitInterval(operatorDecay) && |weights| >= NumOutcomes
            && AllPositive(weights) && numIterations > 0 && InOpenUnitInterval(temperatureDecay)
            ==> (ValidParams(nDestroy, nRepair, weights, operatorDecay, numIterations, temperatureDecay)
                 <==> nRepair > 0)
    ensures nDestroy > 0 && nRepair > 0 && |weights| >= NumOutcomes
            && AllPositive(weights) && numIterations > 0 && InOpenUnitInterval(temperatureDecay)
            ==> (ValidParams(nDestroy, nRepair, weights, operatorDecay, numIterations, temperatureDecay)
                 <==> InOpenUnitInterval(operatorDecay))
    ensures nDestroy > 0 && nRepair > 0 && InOpenUnitInterval(operatorDecay)
            && numIterations > 0 && InOpenUnitInterval(temperatureDecay)
            ==> (ValidParams(nDestroy, nRepair, weights, operatorDecay, numIterations, temperatureDecay)
                 <==> |weights| >= NumOutcomes && AllPositive(weights))
    ensures nDestroy > 0 && nRepair > 0 && InOpenUnitInterval(operatorDecay) && |weights| >= NumOutcomes
            && AllPositive(weights) && InOpenUnitInterval(temperatureDecay)
            ==> (ValidParams(nDestroy, nRepair, weights, operatorDecay, numIterations, temperatureDecay)
                 <==> numIterations > 0)
    ensures nDestroy > 0 && nRepair > 0 && InOpenUnitInterval(operatorDecay) && |weights| >= NumOutcomes
            && AllPositive(weights) && numIterations > 0
            ==> (ValidParams(nDestroy, nRepair, weights, operatorDecay, numIterations, temperatureDecay)
                 <==> InOpenUnitInterval(temperatureDecay))
  {
  }

  /** Four weights is a minimum, not an exact count: appending further
      positive weights to an accepted configuration keeps it accepted. */
  lemma ExtraWeightsAccepted(nDestroy: nat, nRepair: nat, weights: seq<real>,
                             extra: seq<real>, operatorDecay: real,
                             numIterations: int, temperatureDecay: real)
    requires ValidParams(nDestroy, nRepair, weights, operatorDecay, numIterations, temperatureDecay)
    requires AllPositive(extra)
    ensures ValidParams(nDestroy, nRepair, weights + extra, operatorDecay, numIterations, temperatureDecay)
  {
  }
}
