# ALNS: operator registry and the parameter gate of `iterate`

A Dafny model of the entry contract of the Adaptive Large Neighbourhood
Search engine (`ALNS`). The user registers destroy and repair operators on an
`ALNS` object (two pools that only grow). Then the user calls
`iterate(initial_state, weights, operator_decay, num_iterations,
temperature_decay)`. Before any search iteration runs, `iterate` raises
`ValueError` if any of these hold:

- the destroy pool is empty, or the repair pool is empty;
- `operator_decay` is not strictly between 0 and 1;
- fewer than four weights are given (one per iteration outcome);
- some weight is zero or negative;
- `num_iterations` is zero or negative;
- `temperature_decay` is not strictly between 0 and 1.

When none of these hold, it does not raise.

Files:

- `validation.dfy`, module `Validation`: the constraints as a predicate
  `ValidParams` over the pool sizes and the parameters. It also defines the set
  `Violations` of constraints that a call breaks, the defaults of the two
  optional parameters, and lemmas about them.
- `alns.dfy`, module `Engine`: class `ALNS<Op>`. It holds the two operator
  pools as `seq` fields and has the registration methods. Its `Iterate` method
  scans the weights one by one and returns `Ok` or `ValueError(reason)`.
  It is proved to fail exactly when `ValidParams` does not hold, and then to
  name a constraint the call breaks. `RegistrationKeepsAccepted` shows that
  registering one more operator never makes an accepted call rejected.
- `parameter_validation_tests.dfy`, module `ParameterValidationTests`: each
  scenario of `alns/tests/test_alns_parameter_validation.py` written as a
  client of `ALNS`. Each postcondition pins the result down to the one
  constraint that the call breaks, or to `Ok`.

Operators and problem states are opaque values: `Op` and `State` are type
parameters. The tests' lambdas and their `One`/`Zero` states are small
enumerations.

The docstring at alns/tests/test_alns_parameter_validation.py:80 asks for at least four weights, so the model accepts more than four (`Validation.ExtraWeightsAccepted`).

## Model

| member | source | states |
|---|---|---|
| `Validation.Violations` | alns/tests/test_alns_parameter_validation.py:10-177 | The set of broken constraints is empty exactly when every constraint of `ValidParams` holds: non-empty pools, decays in (0, 1), at least four weights, all weights positive, positive iteration count |
| `Validation.DefaultsValid` | alns/tests/test_alns_parameter_validation.py:168-177 | The default `num_iterations` is positive and the default `temperature_decay` lies in (0, 1), so a call that leaves them out is not rejected because of them |
| `Validation.MissingOperatorRejected` | alns/tests/test_alns_parameter_validation.py:10-31 | An empty destroy pool or an empty repair pool is rejected whatever the other parameters are, and the matching violation is among those reported |
| `Validation.EachConstraintDecides` | alns/tests/test_alns_parameter_validation.py:10-165 | When all other parameters are acceptable, each single one decides acceptance: a pool by being non-empty, each decay by lying strictly inside (0, 1), the weights by being at least four and all positive, the iteration count by being positive |
| `Validation.ExtraWeightsAccepted` | alns/tests/test_alns_parameter_validation.py:78-89 | Four weights is a minimum: appending positive weights to an accepted configuration keeps it accepted |
| `Engine.ALNS.constructor` | alns/tests/test_alns_parameter_validation.py:14 | A new search starts with both operator pools empty |
| `Engine.ALNS.AddDestroyOperator` | alns/tests/test_alns_parameter_validation.py:28 | Appends the operator to the destroy pool and leaves the repair pool unchanged |
| `Engine.ALNS.AddRepairOperator` | alns/tests/test_alns_parameter_validation.py:16 | Appends the operator to the repair pool and leaves the destroy pool unchanged |
| `Engine.RegistrationKeepsAccepted` | alns/tests/test_alns_parameter_validation.py:172-177 | Registering one more destroy or repair operator on a search never turns a call of `iterate` that was accepted into one that is rejected |
| `Engine.ALNS.Iterate` | alns/tests/test_alns_parameter_validation.py:10-177 | Returns `Ok` exactly when the pools and parameters satisfy `ValidParams`; otherwise raises `ValueError` naming one of the broken constraints; optional parameters default to valid values |
| `ParameterValidationTests.RaisesMissingDestroyOperator` | alns/tests/test_alns_parameter_validation.py:10-19 | With only a repair operator registered and all else valid, `iterate` raises `ValueError` for the missing destroy operator |
| `ParameterValidationTests.RaisesMissingRepairOperator` | alns/tests/test_alns_parameter_validation.py:22-31 | With only a destroy operator registered and all else valid, `iterate` raises `ValueError` for the missing repair operator |
| `ParameterValidationTests.NewConfiguredSearch` | alns/tests/test_alns_parameter_validation.py:39-42 | A fresh search with one repair and one destroy operator registered holds exactly one operator in each pool |
| `ParameterValidationTests.RaisesNegativeOperatorDecay` | alns/tests/test_alns_parameter_validation.py:34-45 | `operator_decay` -0.5 raises `ValueError` for the operator decay |
| `ParameterValidationTests.RaisesExplosiveOperatorDecay` | alns/tests/test_alns_parameter_validation.py:48-59 | `operator_decay` 1.2 raises `ValueError` for the operator decay |
| `ParameterValidationTests.RaisesBoundaryOperatorDecay` | alns/tests/test_alns_parameter_validation.py:62-75 | `operator_decay` 0 and 1 both raise `ValueError` for the operator decay |
| `ParameterValidationTests.RaisesInsufficientWeights` | alns/tests/test_alns_parameter_validation.py:78-89 | Three weights raise `ValueError` for too few weights |
| `ParameterValidationTests.RaisesNonPositiveWeights` | alns/tests/test_alns_parameter_validation.py:92-105 | A zero weight and a negative weight each raise `ValueError` for a non-positive weight |
| `ParameterValidationTests.RaisesNonPositiveIterations` | alns/tests/test_alns_parameter_validation.py:108-121 | `num_iterations` 0 and -5 each raise `ValueError` for the iteration count |
| `ParameterValidationTests.RaisesNegativeTemperatureDecay` | alns/tests/test_alns_parameter_validation.py:124-135 | `temperature_decay` -0.5 raises `ValueError` for the temperature decay |
| `ParameterValidationTests.RaisesExplosiveTemperatureDecay` | alns/tests/test_alns_parameter_validation.py:138-149 | `temperature_decay` 2.5 raises `ValueError` for the temperature decay |
| `ParameterValidationTests.RaisesBoundaryTemperatureDecay` | alns/tests/test_alns_parameter_validation.py:152-165 | `temperature_decay` 0 and 1 both raise `ValueError` for the temperature decay |
| `ParameterValidationTests.DoesNotRaise` | alns/tests/test_alns_parameter_validation.py:168-177 | One destroy and one repair operator, weights [1, 1, 1, 1], `operator_decay` 0.5, 100 iterations and the default `temperature_decay` give `Ok` |

## Left out

- The search loop that `iterate` runs after the gate: operator selection, destroy and repair application, the simulated-annealing acceptance test, weight updates and best-state tracking. `alns/ALNS.py` is not part of this model. `Engine.ALNS.Iterate` returns `Ok` where the library would go on to run that loop and return its result.
- The values of the two defaults, `DefaultNumIterations` (10000) and `DefaultTemperatureDecay` (0.99), are this model's choice, because the library's own values are not part of this model. Only their validity matters here, and `Validation.DefaultsValid` proves it.
- The order in which `iterate` checks its constraints is not known. When several constraints are broken, `Engine.ALNS.Iterate` promises only that the reason it names is one of them.
- The exception message text is not modelled; only the exception kind (`ValueError`) and the broken constraint are.
- Randomness (`numpy.random.RandomState`) and the `rnd` argument passed to operators, because they are foreign code.
- The operator lambdas and the `One`/`Zero` states, because they are opaque collaborators. They are uninterpreted tokens here.
- Floating-point behaviour: weights and decays are Dafny `real`s, because the gate only compares them with 0 and 1. Python values that are not numbers (NaN, non-numeric arguments) are not modelled.
