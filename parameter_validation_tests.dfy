/** The scenarios of alns/tests/test_alns_parameter_validation.py as client
    code of module Engine: each method builds a search, registers operators
    and calls Iterate the way the test does, and its postcondition states
    what the test asserts (ValueError, or no error), pinned down to the one
    constraint the call breaks. */
module ParameterValidationTests {
  import opened Validation
  import opened Engine

  /** The two problem states of the tests. */
  datatype TestState = One | Zero

  /** The operators the tests register: a lambda returning None, and one
      returning One(). */
  datatype TestOperator = ReturnsNone | ReturnsOne

  method RaisesMissingDestroyOperator() returns (r: Result)
    ensures r == ValueError(NoDestroyOperator)
  {
    var alns := new ALNS<TestOperator>();
    alns.AddRepairOperator(ReturnsNone);
    r := alns.Iterate(One, [1.0, 1.0, 1.0, 1.0], 0.95);
  }

  method RaisesMissingRepairOperator() returns (r: Result)
    ensures r == ValueError(NoRepairOperator)
  {
    var alns := new ALNS<TestOperator>();
    alns.AddDestroyOperator(ReturnsNone);
    r := alns.Iterate(One, [1.0, 1.0, 1.0, 1.0], 0.95);
  }

  /** A search with one destroy and one repair operator, as most tests set up. */
  method NewConfiguredSearch() returns (alns: ALNS<TestOperator>)
    ensures fresh(alns)
    ensures |alns.destroyOperators| == 1 && |alns.repairOperators| == 1
  {
    alns := new ALNS<TestOperator>();
    alns.AddRepairOperator(ReturnsNone);
    alns.AddDestroyOperator(ReturnsNone);
  }

  method RaisesNegativeOperatorDecay() returns (r: Result)
    ensures r == ValueError(OperatorDecayOutOfRange)
  {
    var alns := NewConfiguredSearch();
    r := alns.Iterate(One, [1.0, 1.0, 1.0, 1.0], -0.5);
  }

  method RaisesExplosiveOperatorDecay() returns (r: Result)
    ensures r == ValueError(OperatorDecayOutOfRange)
  {
    var alns := NewConfiguredSearch();
    r := alns.Iterate(One, [1.0, 1.0, 1.0, 1.0], 1.2);
  }

  method RaisesBoundaryOperatorDecay() returns (atZero: Result, atOne: Result)
    ensures atZero == ValueError(OperatorDecayOutOfRange)
    ensures atOne == ValueError(OperatorDecayOutOfRange)
  {
    var alns := NewConfiguredSearch();
    atZero := alns.Iterate(One, [1.0, 1.0, 1.0, 1.0], 0.0);
    atOne := alns.Iterate(One, [1.0, 1.0, 1.0, 1.0], 1.0);
  }

  method RaisesInsufficientWeights() returns (r: Result)
    ensures r == ValueError(TooFewWeights)
  {
    var alns := NewConfiguredSearch();
    r := alns.Iterate(One, [1.0, 1.0, 1.0], 0.5);
  }

  method RaisesNonPositiveWeights() returns (zeroWeight: Result, negativeWeight: Result)
    ensures zeroWeight == ValueError(NonPositiveWeight)
    ensures negativeWeight == ValueError(NonPositiveWeight)
  {
    var alns := NewConfiguredSearch();
    var withZero, withNegative := [1.0, 1.0, 0.0, 1.0], [1.0, 1.0, -5.0, 1.0];
    assert withZero[2] <= 0.0 && withNegative[2] <= 0.0;
    zeroWeight := alns.Iterate(One, withZero, 0.5);
    negativeWeight := alns.Iterate(One, withNegative, 0.5);
  }

  method RaisesNonPositiveIterations() returns (zeroIterations: Result, negativeIterations: Result)
    ensures zeroIterations == ValueError(NonPositiveIterations)
    ensures negativeIterations == ValueError(NonPositiveIterations)
  {
    var alns := NewConfiguredSearch();
    zeroIterations := alns.Iterate(One, [1.0, 1.0, 1.0, 1.0], 0.5, 0);
    negativeIterations := alns.Iterate(One, [1.0, 1.0, 1.0, 1.0], 0.5, -5);
  }

  method RaisesNegativeTemperatureDecay() returns (r: Result)
    ensures r == ValueError(TemperatureDecayOutOfRange)
  {
    var alns := NewConfiguredSearch();
    r := alns.Iterate(One, [1.0, 1.0, 1.0, 1.0], 0.5, temperatureDecay := -0.5);
  }

  method RaisesExplosiveTemperatureDecay() returns (r: Result)
    ensures r == ValueError(TemperatureDecayOutOfRange)
  {
    var alns := NewConfiguredSearch();
    r := alns.Iterate(One, [1.0, 1.0, 1.0, 1.0], 0.5, temperatureDecay := 2.5);
  }

  method RaisesBoundaryTemperatureDecay() returns (atZero: Result, atOne: Result)
    ensures atZero == ValueError(TemperatureDecayOutOfRange)
    ensures atOne == ValueError(TemperatureDecayOutOfRange)
  {
    var alns := NewConfiguredSearch();
    atZero := alns.Iterate(One, [1.0, 1.0, 1.0, 1.0], 0.5, temperatureDecay := 0.0);
    atOne := alns.Iterate(One, [1.0, 1.0, 1.0, 1.0], 0.5, temperatureDecay := 1.0);
  }

  method DoesNotRaise() returns (r: Result)
    ensures r == Ok
  {
    var alns := new ALNS<TestOperator>();
    alns.AddRepairOperator(ReturnsOne);
    alns.AddDestroyOperator(ReturnsOne);
    r := alns.Iterate(Zero, [1.0, 1.0, 1.0, 1.0], 0.5, 100);
  }
}
