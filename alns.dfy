/** The ALNS object: the registry of destroy and repair operators and the
    entry gate of iterate, which refuses to start a search whose
    configuration breaks any constraint of module Validation. */
module Engine {
  import opened Validation

  /** What iterate does: either it runs the search, or it raises ValueError
      (naming one constraint the call breaks) before any iteration. */
  datatype Result = Ok | ValueError(reason: Violation)

  /** An ALNS search. Operators are opaque values of type Op; the two pools
      only grow, each registration appending one operator. */
  class ALNS<Op> {
    var destroyOperators: seq<Op>
    var repairOperators: seq<Op>

    /** A fresh search has no operators registered. */
    constructor ()
      ensures destroyOperators == [] && repairOperators == []
    {
      destroyOperators := [];
      repairOperators := [];
    }

    /** Appends one operator to the destroy pool; the repair pool is untouched. */
    method AddDestroyOperator(op: Op)
      modifies this
      ensures destroyOperators == old(destroyOperators) + [op]
      ensures repairOperators == old(repairOperators)
    {
      destroyOperators := destroyOperators + [op];
    }

    /** Appends one operator to the repair pool; the destroy pool is untouched. */
    method AddRepairOperator(op: Op)
      modifies this
      ensures repairOperators == old(repairOperators) + [op]
      ensures destroyOperators == old(destroyOperators)
    {
      repairOperators := repairOperators + [op];
    }

    /** The validation gate of iterate. It raises ValueError exactly when the
        registered pools and the given parameters break some constraint, and
        the reason it names is one of the constraints broken; otherwise it
        proceeds. It changes nothing either way. The initial state is not
        inspected by the gate. */
    method Iterate<State>(initialState: State, weights: seq<real>, operatorDecay: real,
                          numIterations: int := DefaultNumIterations,
                          temperatureDecay: real := DefaultTemperatureDecay)
      returns (r: Result)
      ensures r.Ok? <==> ValidParams(|destroyOperators|, |repairOperators|, weights,
                                     operatorDecay, numIterations, temperatureDecay)
      ensures r.ValueError? ==>
        r.reason in Violations(|destroyOperators|, |repairOperators|, weights,
                               operatorDecay, numIterations, temperatureDecay)
    {
      if |destroyOperators| == 0 {
        return ValueError(NoDestroyOperator);
      }
      if |repairOperators| == 0 {
        return ValueError(NoRepairOperator);
      }
      if !InOpenUnitInterval(operatorDecay) {
        return ValueError(OperatorDecayOutOfRange);
      }
      var i := 0;
      while i < |weights|
        invariant 0 <= i <= |weights|
        invariant forall j :: 0 <= j < i ==> weights[j] > 0.0
      {
        if weights[i] <= 0.0 {
          return ValueError(NonPositiveWeight);
        }
        i := i + 1;
      }
      if |weights| < NumOutcomes {
        return ValueError(TooFewWeights);
      }
      if numIterations <= 0 {
        return ValueError(NonPositiveIterations);
      }
      if !InOpenUnitInterval(temperatureDecay) {
        return ValueError(TemperatureDecayOutOfRange);
      }
      return Ok;
    }
  }

  /** Registering one more operator, destroy or repair, never turns a call
      that iterate accepts into one it rejects: the same call made after the
      registration is accepted too. */
  method RegistrationKeepsAccepted<Op, State>(alns: ALNS<Op>, op: Op, asDestroy: bool,
                                              initialState: State, weights: seq<real>,
                                              operatorDecay: real, numIterations: int,
                                              temperatureDecay: real)
    returns (before: Result, after: Result)
    modifies alns
    ensures before.Ok? ==> after.Ok?
  {
    before := alns.Iterate(initialState, weights, operatorDecay, numIterations, temperatureDecay);
    if asDestroy {
      alns.AddDestroyOperator(op);
    } else {
      alns.AddRepairOperator(op);
    }
    after := alns.Iterate(initialState, weights, operatorDecay, numIterations, temperatureDecay);
  }
}
