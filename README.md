# A verified model of the VSC simulator's engine

This project models, in Dafny, the per-step numerical engine of a simulator for a voltage-source converter (VSC) in dq coordinates, together with the small validating and reshaping rules around it.

The engine has these parts:
- the RMS model: the dynamic right-hand side `f(x, y)` over the states `id`, `iq`, `Vdc`, and the algebraic residual `g(x, y)` over `Idc`, `P_ac`, `Q_ac`;
- their closed-form Jacobians;
- the Newton-Raphson (NR) solver, with its dense Gaussian elimination, which resolves the algebraic unknowns at each step;
- the explicit integrators (Euler, RK1, RK2, RK4) and their selection by name;
- the adaptive step-size rule;
- the outer (PQ / VdcQ) and inner (proportional) controllers and the voltage saturation;
- `run_step`, which composes these stages;
- the fixed-step driver `run_simulation`.

Around the engine the project models:
- the loaders of parameters, scenario and initial conditions;
- the batch runner;
- the exporter's flat rows and CSV content;
- the structured logger;
- the dashboard's run-id, file-selection and CSV-reading rules;
- the helpers of the advanced example scripts.

## Modelling conventions

- Python floats are `real`: exact arithmetic with no rounding and no overflow.
- The engine's dicts of floats are `map<string, real>`.
  - Configuration dicts, whose order and value types matter, are insertion-ordered association lists of a small Python `Value` type.
- Each Python exception is the error of a `Result`, modelled by its kind: `KeyError(key)`, `ValueError`, `TypeError`, `ZeroDivisionError`, `FileExistsError`, `FileNotFoundError`, `AttributeError`.
  - A subscript of a missing key raises `KeyError` in the order the source performs its reads.
  - An unguarded division by zero raises `ZeroDivisionError`.
  - The model therefore needs no preconditions on `L`, `Cdc` or `Vdc`.
- Square root and the fractional power `ratio ** (1/order)` are function parameters.
  - Properties that need them assume only that the parameter is a square root, or is positive.
- Callbacks are parameters, each a function of the values that change during the loop:
  - the residual and Jacobian that NR receives;
  - the derivative an RK integrator receives.
- The source's own mutable objects are classes whose methods state their new state:
  - the adaptive timestepper;
  - the logger and the module-wide logger slot;
  - the example scripts' configuration dicts.
- Everything else is values.
  - "The input is not mutated" therefore holds by construction wherever the source copies its inputs.
- File system access, pandas and the clock are parameters or left out.
  - Parameters include whether a file exists, the files rglob yields, the records of a CSV file, and the result of a Parquet read.

Where the repository's documentation and its code differ, the model follows the code:
- `newton_raphson` uses its fixed limit of 20 iterations and tolerance 1e-8 and ignores `nr_tol` / `nr_max_iter` in the parameters.
- `run_step` takes no integrator name.
- `run_simulation` has no `integrator` or `adaptive` keyword, and there is no adaptive driver.

## Model

| member | source | states |
|---|---|---|
| Common.Lookup | src/vscsim/vsc/control_external.py:106-109 | `m[k]` gives the stored value iff k is present, KeyError naming k otherwise |
| Common.FirstMissing | src/vscsim/model/dae.py:59-77 | when some subscription fails, the key it names is one the subscription looks up and that its dict lacks |
| Common.Div | src/vscsim/model/jacobian.py:62 | a / b fails with ZeroDivisionError iff b is zero; otherwise the quotient q with q * b == a |
| Common.ShiftY | src/vscsim/solver/nr.py:197-198 | each algebraic unknown i moves by delta[i]; every other key keeps its value; the same keys |
| Common.ValueOr | src/vscsim/utils/logger.py:153-154 | `m.get(k, d)`: the stored value when present, the default otherwise |
| Common.ToFloat | src/vscsim/io/initial_conditions.py:78-80 | float(v): a number is itself; None, lists and dicts raise TypeError; a str that is no numeral raises ValueError |
| Common.ParseDecimal | src/vscsim/io/parameters.py:75 | float() of a str: the empty string fails, a string of digits gives its value |
| Common.Put | src/vscsim/utils/exporter.py:223 | `d[k] = v`: k then holds v, every other key keeps its value; an existing key keeps its place, a new key goes last |
| Common.PutUnique | src/vscsim/utils/exporter.py:223 | storing a key keeps the keys distinct |
| Common.GetAt | src/vscsim/utils/exporter.py:222 | in a dict with distinct keys, the key of entry i finds entry i's value |
| Common.PutAllFacts | src/vscsim/utils/logger.py:87-88 | after `d.update(src)`, a key of src holds src's value and every other key d's value |
| Common.PutAllUnique | src/vscsim/utils/logger.py:87-88 | update keeps the keys distinct |
| Common.PutAllHasKey | src/vscsim/utils/logger.py:87-88 | after update a key is present iff it was in d or in src |
| Common.PutAllKeysPrefix | src/vscsim/utils/logger.py:86-88 | update keeps d's keys first, in their order |
| Common.Lower | src/vscsim/utils/logger.py:50 | str.lower(): same length, each character lower-cased |
| Saturation.ApplyVoltageSaturation | src/vscsim/vsc/saturation.py:19-59 | a reference inside the circle of radius V_max (or zero) is returned unchanged; outside it both components are multiplied by V_max / sqrt(d^2 + q^2) |
| Saturation.SaturatedOnCircle | src/vscsim/vsc/saturation.py:28-32 | outside the circle the saturated reference lies exactly on it: d^2 + q^2 = V_max^2 |
| Saturation.WithinCircle | src/vscsim/vsc/saturation.py:4-5 | every result satisfies d^2 + q^2 <= V_max^2 |
| Saturation.ScaleInUnitInterval | src/vscsim/vsc/saturation.py:54-57 | for V_max > 0 a saturated reference is scaled by a factor strictly between 0 and 1, so its magnitude strictly decreases and its direction is kept |
| Saturation.Idempotent | src/vscsim/vsc/saturation.py:50-52 | saturating an already saturated reference returns it unchanged |
| LinearSolve.SwapPreserves | src/vscsim/solver/nr.py:80-83 | exchanging two equations (matrix rows and right-hand side together) keeps exactly the same solutions |
| LinearSolve.ElimPreserves | src/vscsim/solver/nr.py:86-90 | subtracting factor times the pivot equation from another equation keeps exactly the same solutions |
| LinearSolve.FindPivot | src/vscsim/solver/nr.py:74 | the pivot row lies in k..n-1, has the largest absolute entry in column k, and is the first such row (Python's max keeps the first maximum) |
| LinearSolve.SubtractRow | src/vscsim/solver/nr.py:89-90 | entries before column k are kept and every entry from k on becomes row[j] - factor * pivot[j] |
| LinearSolve.EliminateColumn | src/vscsim/solver/nr.py:85-90 | rows up to k are unchanged, column k is zero below the diagonal, earlier zeros are kept, and the system has the same solutions as before |
| LinearSolve.KernelVector | src/vscsim/solver/nr.py:77-78 | when the pivot search finds only zeros in column k, the matrix has a non-zero kernel vector, so the ValueError is raised only for singular matrices |
| LinearSolve.BackSubstitute | src/vscsim/solver/nr.py:92-100 | on an upper-triangular matrix with a non-zero diagonal the returned x has length n and solves M x = rhs |
| LinearSolve.SolveLinearSystem | src/vscsim/solver/nr.py:54-100 | on success x has length n and A x = b holds for the original A and b; the ValueError is raised exactly when A is singular, so a singular A never yields a solution |
| LinearSolve.TriangularKernelTrivial | src/vscsim/solver/nr.py:84-98 | an upper-triangular matrix with a non-zero diagonal, as elimination leaves it, has only the zero vector in its kernel |
| Nr.MaxNorm | src/vscsim/solver/nr.py:49-51 | the result bounds every absolute entry, is attained by one entry of a non-empty vector, and is 0.0 for the empty vector |
| Nr.MaxNormZero | src/vscsim/solver/nr.py:49-51 | the max-norm is zero exactly when every entry is zero |
| Nr.ResidualVector | src/vscsim/solver/nr.py:178 | the residual vector lists g's values in the order Idc, P_ac, Q_ac |
| Nr.Negate | src/vscsim/solver/nr.py:193 | the right-hand side is the entrywise negation of the residual vector |
| Nr.AddCorrection | src/vscsim/solver/nr.py:196-198 | when y holds all three algebraic keys the result is y shifted by delta in key order; otherwise the KeyError names the first missing key |
| Nr.Iterate | src/vscsim/solver/nr.py:169-200 | one loop body stops exactly when the residual is converged; it raises only the errors the source raises (residual error, key-set mismatch, Jacobian error or size, ValueError for a singular Jacobian, and a missing key only for a non-singular one); otherwise it performs a Newton step J d = -g, y := y + d with a non-singular 3x3 J |
| Nr.NewtonRaphson | src/vscsim/solver/nr.py:103-203 | the run is a trace from y0 of Newton steps, each through a non-singular Jacobian; a result reached in fewer than 20 iterations is converged (max-norm below 1e-8), the count is the number of corrections and at most 20, and after 20 unconverged iterations the last y is returned; every error is raised by the iteration at the last point |
| Nr.StopsWhenConverged | src/vscsim/solver/nr.py:180-184 | once an iterate is converged the loop returns it with the count of corrections so far |
| Nr.ContinuesWhenNoFailure | src/vscsim/solver/nr.py:168 | an unconverged iterate below the iteration limit from which no error can be raised is followed by a further correction |
| Timestepper.Clamp | src/vscsim/solver/timestepper.py:46-49 | the clamped value is one of lo, hi or v, never below lo, and never above hi when lo <= hi |
| Timestepper.ClampInside | src/vscsim/solver/timestepper.py:48 | a value already inside the bounds is unchanged |
| Timestepper.ClampIdempotent | src/vscsim/solver/timestepper.py:48 | clamping twice gives the same as clamping once |
| Timestepper.ClampMonotone | src/vscsim/solver/timestepper.py:48 | clamping preserves the order of two values |
| Timestepper.RawFactor | src/vscsim/solver/timestepper.py:81-88 | the factor before its clamp fails exactly when the error is non-zero and order is 0 (ZeroDivisionError in 1.0 / order) |
| Timestepper.Factor | src/vscsim/solver/timestepper.py:81-90 | the factor fails exactly when the error is non-zero and order is 0; otherwise it lies in [shrink_factor_min, growth_factor_max], and a zero error gives growth_factor_max |
| Timestepper.NextDt | src/vscsim/solver/timestepper.py:92-93 | the next dt always lies in [dt_min, dt_max] |
| Timestepper.FactorSaturatesHigh | src/vscsim/solver/timestepper.py:90 | a raw factor at or above growth_factor_max is clamped to it |
| Timestepper.FactorSaturatesLow | src/vscsim/solver/timestepper.py:90 | a raw factor at or below shrink_factor_min is clamped to it |
| Timestepper.ScaleMonotone | src/vscsim/solver/timestepper.py:92 | scaling by a non-negative factor preserves order |
| Timestepper.ScaleGrows | src/vscsim/solver/timestepper.py:92 | a factor of at least 1 never shrinks a non-negative dt |
| Timestepper.ScaleShrinks | src/vscsim/solver/timestepper.py:92 | a factor in [0, 1] never grows a non-negative dt |
| Timestepper.GrowStep | src/vscsim/solver/timestepper.py:92-93 | one growing update keeps dt at least min(dt_max, bound * factor) when it started at least min(dt_max, bound) |
| Timestepper.RepeatGrows | src/vscsim/solver/timestepper.py:92-93 | n updates with a factor >= 1 keep dt <= dt_max and at least min(dt_max, dt * factor^n) |
| Timestepper.ReachesMax | src/vscsim/solver/timestepper.py:92-93 | once dt * factor^n reaches dt_max, n growing updates leave dt exactly at dt_max |
| Timestepper.ShrinkStep | src/vscsim/solver/timestepper.py:92-93 | one shrinking update keeps dt at most max(dt_min, bound * factor) when it started at most max(dt_min, bound) |
| Timestepper.RepeatShrinks | src/vscsim/solver/timestepper.py:92-93 | n updates with a factor in [0, 1] keep dt >= dt_min and at most max(dt_min, dt * factor^n) |
| Timestepper.ReachesMin | src/vscsim/solver/timestepper.py:92-93 | once dt * factor^n falls to dt_min, n shrinking updates leave dt exactly at dt_min |
| Timestepper.AdaptiveTimestepper.constructor | src/vscsim/solver/timestepper.py:34-40 | every field holds the value it was constructed with |
| Timestepper.AdaptiveTimestepper.ClampDt | src/vscsim/solver/timestepper.py:46-49 | dt becomes max(dt_min, min(dt_max, dt)) and is returned; it lies in [dt_min, dt_max] |
| Timestepper.AdaptiveTimestepper.Update | src/vscsim/solver/timestepper.py:51-93 | tol <= 0 or a negative error raise ValueError with dt untouched; order 0 with a non-zero error raises ZeroDivisionError with dt untouched; otherwise dt becomes NextDt(dt, Factor(..)) and is returned |
| Timestepper.ClampsToMax | tests/test_timestepper_adaptive.py:44-59 | with the test's settings an error of 1e-9 gives factor 2.0 and five updates bring dt = 0.5 to dt_max = 0.6 |
| Timestepper.ClampsToMin | tests/test_timestepper_adaptive.py:61-65 | an error of 1.0 gives factor 0.5 and five updates bring dt = 0.6 to dt_min = 0.1 |
| Integrator.StepForward | src/vscsim/solver/integrator.py:17-60 | the result has exactly the keys of x and equals x + dt * x_dot key by key, a missing derivative counting as 0.0 |
| Integrator.EulerZeroStep | src/vscsim/solver/integrator.py:25 | a zero step reproduces x |
| Integrator.Euler | src/vscsim/solver/integrator.py:53-58 | the step has the keys of x, and a key without a derivative keeps its value |
| Integrator.EulerPerKey | src/vscsim/solver/integrator.py:55-58 | a key without a derivative keeps its value; otherwise its change is dt * x_dot[key] |
| Integrator.EulerIgnoresExtraKeys | src/vscsim/solver/integrator.py:55-57 | derivatives of keys that are not in x have no effect |
| IntegratorRk.DictNorm | src/vscsim/solver/integrator_rk.py:82-86 | the result bounds every absolute value, is attained by one value of a non-empty dict, and is 0.0 for an empty dict |
| IntegratorRk.AdvanceAt | src/vscsim/solver/integrator_rk.py:151-157 | each key of a stage state is value + c * derivative |
| IntegratorRk.CombineAt | src/vscsim/solver/integrator_rk.py:256-265 | each key of the RK4 result is value + dt/6 (d1 + 2 d2 + 2 d3 + d4) |
| IntegratorRk.AddScaled | src/vscsim/solver/integrator_rk.py:118-123 | when the derivative covers every state key the loop yields state + c * k; otherwise it raises KeyError for a state key the derivative lacks |
| IntegratorRk.Rk1Step | src/vscsim/solver/integrator_rk.py:98-125 | f is evaluated once, on the state; the result is x + dt k1, and a missing derivative raises KeyError naming a state key absent from k1 |
| IntegratorRk.Rk1 | src/vscsim/solver/integrator_rk.py:98-125 | RK1 succeeds exactly when k1 has every state key, and its result has exactly the state keys |
| IntegratorRk.Rk2 | src/vscsim/solver/integrator_rk.py:141-180 | a successful RK2 step had every state key in k1 and returns exactly the state keys |
| IntegratorRk.Rk4 | src/vscsim/solver/integrator_rk.py:201-267 | a successful RK4 step had every state key in k1 and returns exactly the state keys |
| IntegratorRk.Rk2Step | src/vscsim/solver/integrator_rk.py:141-180 | on success f is evaluated on the state and on the midpoint x + dt/2 k1 and the result is x + dt k2; otherwise KeyError for a state key |
| IntegratorRk.CombineStages | src/vscsim/solver/integrator_rk.py:256-267 | when all four derivatives cover the state the result is the RK4 combination; otherwise KeyError for a state key one of them lacks |
| IntegratorRk.Rk4Step | src/vscsim/solver/integrator_rk.py:201-267 | on success f is evaluated four times, first on the state, and the result is the classical RK4 step; otherwise KeyError for a state key |
| IntegratorRk.Rk1IsEuler | tests/test_integrator_rk_equivalence.py:25-73 | RK1 is step_forward with x_dot = f(x) whenever it does not raise |
| IntegratorRk.ZeroStep | src/vscsim/solver/integrator_rk.py:117-123 | a zero step leaves the state unchanged for RK1, RK2 and RK4 |
| IntegratorRk.Rk1Linear | tests/test_integrator_rk2.py:17-36 | on x' = a x one RK1 step multiplies every state by 1 + h, h = a dt |
| IntegratorRk.Rk2Linear | tests/test_integrator_rk2.py:17-58 | on x' = a x one RK2 step multiplies every state by 1 + h + h^2/2 |
| IntegratorRk.Rk4Linear | tests/test_integrator_rk4.py:18-66 | on x' = a x one RK4 step multiplies every state by 1 + h + h^2/2 + h^3/6 + h^4/24, the Taylor polynomial of exp(h) |
| IntegratorRk.Rk4FromStages | src/vscsim/solver/integrator_rk.py:188-198 | the RK4 step is the combination of the four stage derivatives k1 = f(x), k2 = f(x + dt/2 k1), k3 = f(x + dt/2 k2), k4 = f(x + dt k3) |
| IntegratorFactory.GetIntegrator | src/vscsim/solver/integrator_factory.py:20-52 | "rk1" and "euler" select RK1, "rk2" RK2, "rk4" RK4, and every other name raises ValueError |
| IntegratorFactory.Name | src/vscsim/solver/integrator_factory.py:17 | every scheme has an accepted name |
| IntegratorFactory.NameRoundTrip | src/vscsim/solver/integrator_factory.py:44-49 | looking a scheme up by its name gives it back |
| IntegratorFactory.ConfigIgnored | src/vscsim/solver/integrator_factory.py:31-32 | the config argument has no effect on the selection |
| IntegratorFactory.Step | src/vscsim/solver/integrator_rk.py:52-79 | a step on the selected integrator succeeds exactly when its scheme succeeds, with the scheme's result, and otherwise raises KeyError for a state key |
| IntegratorFactory.EulerAliasIsEuler | src/vscsim/solver/integrator_factory.py:29-30 | "euler" selects the same integrator as "rk1", whose step is explicit Euler with x_dot = f(x) |
| Dae.FReadsPresent | src/vscsim/model/dae.py:59-77 | the subscriptions f_rhs performs all succeed exactly when every key it reads is present |
| Dae.FRhs | src/vscsim/model/dae.py:33-88 | f_rhs succeeds exactly when all keys are present and L and Cdc are non-zero (KeyError or ZeroDivisionError otherwise); the result has keys id, iq, Vdc and satisfies L did/dt = v_conv_d - R id + omega L iq - v_pcc_d, L diq/dt = v_conv_q - R iq - omega L id - v_pcc_q, Cdc dVdc/dt = Idc |
| Dae.FRhsVdcOnlyFromIdc | src/vscsim/model/dae.py:82 | dVdc/dt depends only on Idc and Cdc |
| Dae.FRhsSimpleCase | tests/test_model_dae.py:11-26 | the unit test's operating point gives f = (1, 0, 3) |
| Dae.GReadsPresent | src/vscsim/model/dae.py:128-140 | the subscriptions g_residual performs all succeed exactly when every key it reads is present |
| Dae.GResidual | src/vscsim/model/dae.py:91-158 | g_residual succeeds exactly when all keys are present and Vdc is non-zero; the result has keys Idc, P_ac, Q_ac, and each residual is zero exactly when its equation holds (P_ac and Q_ac from the PCC power formulas, Idc Vdc = P_ac) |
| Dae.PCalc | src/vscsim/model/dae.py:143-144 | with v_q = 0 the active power is 1.5 v_d id, and zero currents give zero power |
| Dae.QCalc | src/vscsim/model/dae.py:143-144 | with v_q = 0 the reactive power is -1.5 v_d iq, and zero currents give zero power |
| Dae.PowerIsComplexProduct | src/vscsim/model/dae.py:143-144 | at every operating point P and Q are the real and imaginary parts of the complex power 1.5 v conj(i) |
| Dae.GResidualIgnoresParams | src/vscsim/model/dae.py:125-126 | the residual does not depend on params |
| Dae.ConsistentY | src/vscsim/model/dae.py:100-104 | the consistent algebraic point keeps y's keys and adds Idc, P_ac, Q_ac |
| Dae.ResidualZeroIffConsistent | tests/test_model_dae.py:27-51 | the residual is zero in all three components exactly when y is the consistent point |
| Jacobian.DfDx | src/vscsim/model/jacobian.py:23-75 | df_dx succeeds exactly when L, R and omega are present and L is non-zero (KeyError or ZeroDivisionError otherwise) and is then a 3 x 3 matrix |
| Jacobian.DfDxEntries | src/vscsim/model/jacobian.py:62-75 | the entries are [[-R/L, omega, 0], [-omega, -R/L, 0], [0, 0, 0]] |
| Jacobian.DfDxIsExact | src/vscsim/model/jacobian.py:29-55 | df_dx is the exact derivative of f_rhs: moving state j by h moves component i of f by exactly h * df_dx[i][j] |
| Jacobian.DgDx | src/vscsim/model/jacobian.py:78-157 | dg_dx succeeds exactly when Vdc, P_ac and the PCC voltages are present and Vdc is non-zero, and is then a 3 x 3 matrix |
| Jacobian.DgDxEntries | src/vscsim/model/jacobian.py:135-157 | the entries are [[0, 0, P_ac/Vdc^2], [-1.5 v_pcc_d, -1.5 v_pcc_q, 0], [-1.5 v_pcc_q, 1.5 v_pcc_d, 0]] |
| Jacobian.DgDxMatchesResidual | src/vscsim/model/jacobian.py:84-122 | dg_dx is the derivative of g_residual: the power rows and the id, iq columns are exact, and in the Vdc column of the Idc row the remainder times Vdc^2 (Vdc + h) is the second-order term -h^2 P_ac |
| Jacobian.DgDy | src/vscsim/model/jacobian.py:160-223 | dg_dy succeeds exactly when Vdc is present and non-zero; it is unit upper-triangular with -1/Vdc at (Idc, P_ac) as its only off-diagonal entry |
| Jacobian.DgDyEntries | src/vscsim/model/jacobian.py:202-223 | the entries are the identity except -1/Vdc at row Idc, column P_ac |
| Jacobian.ResidualAffineInY | src/vscsim/model/jacobian.py:166-198 | g is affine in y and dg_dy is its exact Jacobian: g(x, y + d) = g(x, y) + dg_dy d, component by component |
| Jacobian.JacobiansIgnoreConverterVoltages | src/vscsim/model/jacobian.py:9-12 | none of the three Jacobians depends on v_conv_d or v_conv_q |
| ControlInner.VoltageReferences | src/vscsim/vsc/control_inner.py:20-83 | reading id then iq from x raises KeyError for the first one missing; otherwise the references have exactly the keys v_conv_d_ref and v_conv_q_ref and the controller state is returned as a copy (empty when None) |
| ControlInner.VoltagesFollowErrors | src/vscsim/vsc/control_inner.py:67-74 | v_conv_d_ref = Kp_id (id_ref - id) and v_conv_q_ref = Kp_iq (iq_ref - iq), a missing gain counting as 0.0 |
| ControlInner.AxisVoltage | src/vscsim/vsc/control_inner.py:70-74 | with a non-zero gain an axis asks for zero voltage exactly when its current equals its reference |
| ControlInner.AxisVoltageAtReference | src/vscsim/vsc/control_inner.py:70-74 | no error gives no voltage, whatever the gain |
| ControlInner.AxisVoltageZeroGain | src/vscsim/vsc/control_inner.py:67-68 | a zero gain (the default for a missing gain) gives zero voltage |
| ControlInner.AxisVoltageSign | src/vscsim/vsc/control_inner.py:30-33 | with a positive gain the voltage is positive exactly when the current is below its reference and negative exactly when it is above |
| ControlInner.AxisVoltageLinear | src/vscsim/vsc/control_inner.py:30-33 | the law is additive in reference and measurement |
| ControlInner.ZeroErrorZeroVoltage | src/vscsim/vsc/control_inner.py:70-79 | when both currents equal their references both voltage references are zero |
| ControlInner.MissingGainsGiveZero | src/vscsim/vsc/control_inner.py:67-68 | without Kp_id and Kp_iq in params both references are zero |
| ControlInner.AxesDecoupled | src/vscsim/vsc/control_inner.py:73-74 | the d reference does not depend on the q channel and the q reference does not depend on the d channel |
| ControlExternal.CurrentsFromPq | src/vscsim/vsc/control_external.py:24-69 | a zero determinant (both PCC voltages zero) gives zero currents |
| ControlExternal.DetNegative | src/vscsim/vsc/control_external.py:54 | a non-zero PCC voltage makes the determinant -(v_d^2 + v_q^2) strictly negative |
| ControlExternal.DetZero | src/vscsim/vsc/control_external.py:54-59 | the determinant is zero exactly when both PCC voltages are zero, so the degenerate branch is taken only then |
| ControlExternal.CurrentsNonSingular | src/vscsim/vsc/control_external.py:61-67 | away from a zero determinant the currents are the inverse matrix applied to (P_ref/1.5, Q_ref/1.5) |
| ControlExternal.NumeratorIdentities | src/vscsim/vsc/control_external.py:63-67 | the matrix A times the adjugate numerators gives det times (sP, sQ) |
| ControlExternal.PqRoundTrip | src/vscsim/vsc/control_external.py:30-38 | for a non-zero PCC voltage the computed currents produce exactly P_ref and Q_ref through the model's power equations |
| ControlExternal.PqUnique | src/vscsim/vsc/control_external.py:30-38 | any currents producing P_ref and Q_ref at a non-zero PCC voltage are the computed ones |
| ControlExternal.Numeric | src/vscsim/vsc/control_external.py:40-46 | numbers and bools can enter the float arithmetic; any other value raises TypeError |
| ControlExternal.ComputeCurrentReferences | src/vscsim/vsc/control_external.py:72-127 | a successful result has exactly the keys id_ref and iq_ref; an unknown mode gives zero currents; VdcQ passes id_ref and iq_ref through or raises KeyError for the first one missing |
| ControlExternal.PqReferencesDeliverPower | src/vscsim/vsc/control_external.py:103-117 | in PQ mode (explicit or by default) with a non-zero PCC voltage the references deliver the scenario's P_ref and Q_ref |
| ControlExternal.PqErrors | src/vscsim/vsc/control_external.py:105-117 | in PQ mode the call succeeds exactly when P_ref, Q_ref, v_pcc_d and v_pcc_q are present and numeric; a missing key raises KeyError for the first one in reading order |
| Parameters.MissingParams | src/vscsim/io/parameters.py:67 | the missing list holds exactly the required parameters absent from the configuration, so it is empty exactly when all seven are present |
| Parameters.ConvertRequired | src/vscsim/io/parameters.py:74-75 | the copy succeeds exactly when every required parameter converts with float(), and then holds all seven, each with its converted value; otherwise the error is that of the first required parameter, in _REQUIRED_PARAMS order, whose value float() rejects |
| Parameters.CopyExtras | src/vscsim/io/parameters.py:80-82 | with the seven required parameters already copied, the copy succeeds exactly when every other entry converts, and then holds every configuration key with its converted value; otherwise the error is that of the first other entry, in configuration order, whose value float() rejects |
| Parameters.LoadParameters | src/vscsim/io/parameters.py:32-84 | a missing required parameter raises ValueError; the load succeeds exactly when all seven are present and every value converts with float(), and the result holds exactly the configuration's keys, each with float() of its value; otherwise the error is the first conversion that raises: the required parameters in _REQUIRED_PARAMS order, then the other entries in configuration order |
| Parameters.LoadedParamsUnique | src/vscsim/io/parameters.py:32-84 | a dict with the configuration's keys and the float() of each value is exactly the dict the loader defines |
| Parameters.LoadedFacts | src/vscsim/io/parameters.py:77-84 | a dict loaded from every key holds exactly the configuration's keys with their converted values |
| Parameters.RequiredErrorFromFacts | src/vscsim/io/parameters.py:74-75 | the scan of the required parameters finds no error exactly when each of them converts, and an error it finds is one of theirs |
| Parameters.ExtraErrorFromFacts | src/vscsim/io/parameters.py:80-82 | the scan of the other entries finds no error exactly when each of them converts, and an error it finds is one of theirs |
| Parameters.FirstFloatErrorFacts | src/vscsim/io/parameters.py:74-82 | the first float() error is absent exactly when every value of the configuration converts, and when present it is the error of one of its values |
| Scenario.ModeText | src/vscsim/io/scenario.py:87 | only a string mode can read as "PQ" or "VdcQ" after str() |
| Scenario.ModeKeys | src/vscsim/io/scenario.py:94-117 | "PQ" requires P_ref and Q_ref, "VdcQ" requires id_ref and iq_ref, and every other mode is unsupported |
| Scenario.PairError | src/vscsim/io/scenario.py:102-103 | there is no error exactly when float() accepts both values |
| Scenario.ConvertPair | src/vscsim/io/scenario.py:91-92 | both values are converted with float(), and the first one float() rejects raises its error |
| Scenario.CopyExtraEntries | src/vscsim/io/scenario.py:119-124 | the result holds the loader's own entries unchanged plus every configuration key, each other entry with its value as given |
| Scenario.ValidatedKept | src/vscsim/io/scenario.py:122-124 | copying the extra entries never overwrites a validated entry |
| Scenario.EntriesAt | src/vscsim/io/scenario.py:88-113 | the loader's own entries hold the mode, the two PCC voltages and the mode's two references |
| Scenario.ValidatedEntriesFacts | src/vscsim/io/scenario.py:87-113 | the loader's own entries have exactly the validated keys and hold the mode as given and the float() of the four numeric values |
| Scenario.ValidateScenario | src/vscsim/io/scenario.py:80-117 | the validation fails exactly when the configuration has a failure, with that failure, and otherwise returns the loader's own entries |
| Scenario.LoadScenario | src/vscsim/io/scenario.py:38-126 | the load fails exactly when a check or conversion fails, with the first failure in the loader's order; a loaded scenario has exactly the configuration's keys, the validated entries converted and every other entry as given |
| Scenario.LoadedScenarioUnique | src/vscsim/io/scenario.py:38-126 | the entry-by-entry description of a loaded scenario pins it down to the one dict the loader defines |
| Scenario.ValidatedKeysPresent | src/vscsim/io/scenario.py:80-113 | every key the loader sets is a key of a configuration that loads |
| Scenario.ErrorOrder | src/vscsim/io/scenario.py:80-117 | a missing common key, then a PCC voltage float() rejects, then an unsupported mode, then a missing reference, then a reference float() rejects; a configuration passing all of these loads |
| InitialConditions.Contains | src/vscsim/io/initial_conditions.py:77 | `name in group` tests the keys of a dict group and raises TypeError for None, bool and number groups |
| InitialConditions.Item | src/vscsim/io/initial_conditions.py:78 | `group[name]` after a successful membership test yields the dict's value; on a list or string it raises TypeError |
| InitialConditions.InitialValue | src/vscsim/io/initial_conditions.py:76-83 | a name in the group is float() of the group's value, otherwise float() of the top-level value, otherwise 0.0 |
| InitialConditions.LoadValue | src/vscsim/io/initial_conditions.py:77-83 | the loop body stores the name's initial value or raises its error |
| InitialConditions.LoadGroup | src/vscsim/io/initial_conditions.py:76-83 | the loop succeeds exactly when every name loads, holding exactly the names with their values; otherwise it raises the error of the first name that fails |
| InitialConditions.LoadInitialConditions | src/vscsim/io/initial_conditions.py:22-103 | x0 is loaded over id, iq, Vdc from "x0" and y0 over Idc, P_ac, Q_ac from "y0"; an x0 failure is raised before any y0 failure; an empty configuration gives all six values 0.0 |
| InitialConditions.LoadedGroupUnique | src/vscsim/io/initial_conditions.py:22-103 | a dict with exactly the group's names, each with its loaded value, is the one dict the loader defines for that group |
| InitialConditions.EmptyGroup | src/vscsim/io/initial_conditions.py:81-83 | without any configuration every name loads as 0.0 |
| InitialConditions.LoadedKeys | src/vscsim/io/initial_conditions.py:63-67 | the loaded x0 and y0 carry exactly the three state keys and the three algebraic keys |
| Simulation.DgDyNonsingular | src/vscsim/solver/simulation.py:166-178 | the Jacobian handed to Newton-Raphson is never singular, so its linear solve never raises |
| Simulation.DgDyKernelTrivial | src/vscsim/model/jacobian.py:219-223 | the only solution of dg_dy z = 0 is z = 0 |
| Simulation.CorrectedComponent | src/vscsim/solver/nr.py:192-198 | after one Newton correction on g every residual component is exactly zero |
| Simulation.ConsistentYAfterShift | src/vscsim/model/dae.py:100-104 | the consistent point does not depend on the algebraic values it starts from |
| Simulation.NewtonStepIsConsistent | src/vscsim/solver/simulation.py:184-191 | one Newton step on g lands exactly on the consistent algebraic point, where the residual is zero and the convergence test passes |
| Simulation.NoFailureOnDae | src/vscsim/solver/simulation.py:147-178 | where g itself is defined no iteration of the loop raises |
| Simulation.NrOnDaeConverged | src/vscsim/solver/nr.py:180-184 | an already converged start is returned unchanged with count 0 |
| Simulation.NrOnDaeCorrected | src/vscsim/solver/simulation.py:184-191 | an unconverged start takes exactly one correction, to the consistent point |
| Simulation.NrOnDaeFails | src/vscsim/solver/nr.py:170 | when g raises at the start the loop raises the same error |
| Simulation.NrOnDaeClosedForm | src/vscsim/solver/simulation.py:184-191 | every outcome of newton_raphson on this DAE is the closed form: g's error, the start when converged, the consistent point otherwise |
| Simulation.NrOnDaeConverges | src/vscsim/solver/simulation.py:184-191 | the returned algebraic point passes the convergence test and keeps y's keys |
| Simulation.ConsistentIsFixed | src/vscsim/model/dae.py:100-104 | the consistent point of a consistent point is itself |
| Simulation.BuildInputs | src/vscsim/solver/simulation.py:30-48 | the inputs have exactly the four keys, carry the saturated converter voltages, take v_pcc_d and v_pcc_q from the scenario with defaults 1.0 and 0.0, and fail only when float() rejects a PCC voltage |
| Simulation.ApplyScenarioLimits | src/vscsim/solver/simulation.py:51-61 | the limits stage is the identity on x and y |
| Simulation.ConverterInputs | src/vscsim/solver/simulation.py:104-145 | the DAE input dict built from control and saturation has exactly the four input keys |
| Simulation.ConverterInputsWithinLimit | src/vscsim/solver/simulation.py:128-136 | the converter voltages handed to the DAE never lie outside the circle of radius params.get("V_max", 1.0) |
| Simulation.RunStep | src/vscsim/solver/simulation.py:64-217 | run_step equals the closed-form step: external control, inner control, saturation, the algebraic point Newton-Raphson returns, f at that point, one Euler step and the identity limits, with each stage's error propagated |
| Simulation.StepOutcome | src/vscsim/solver/simulation.py:64-217 | a successful step returns states with exactly the keys it was given |
| Simulation.StepConsistent | src/vscsim/solver/simulation.py:184-217 | a successful step keeps the state keys and the algebraic keys, and its algebraic point passes the convergence test for the step's inputs |
| Simulation.StepZeroDt | src/vscsim/solver/simulation.py:206-210 | a step of length zero leaves the states where they were |
| ApiSimulation.Trajectory | src/vscsim/api/simulation.py:149-157 | a successful run of n calls of run_step yields n + 1 pairs (x, y), starting from the loaded pair |
| ApiSimulation.TrajectoryNext | src/vscsim/api/simulation.py:149-158 | one more call of run_step extends the trajectory by its result, or fails with its error |
| ApiSimulation.FailurePersists | src/vscsim/api/simulation.py:149-157 | once a call of run_step raises, every longer run raises the same error |
| ApiSimulation.WithAlgebraicDefaults | src/vscsim/api/simulation.py:104-108 | y gains every algebraic variable it lacks, set to 0.0, and keeps its own values |
| ApiSimulation.FillAlgebraic | src/vscsim/api/simulation.py:106-108 | the fill loop's result is y with the missing algebraic variables set to 0.0 |
| ApiSimulation.Record | src/vscsim/api/simulation.py:160-166 | each history gains exactly the current value of its variable at the end |
| ApiSimulation.RecordStep | src/vscsim/api/simulation.py:160-166 | appending a state to every history keeps each history equal to its variable along the trajectory |
| ApiSimulation.Start | src/vscsim/api/simulation.py:113-133 | before the loop t = 0, times = [0.0] and every history holds the loaded value |
| ApiSimulation.TimesStep | src/vscsim/api/simulation.py:158-160 | the clock and the list of times advance together: the k-th time is k increments of dt |
| ApiSimulation.HistoriesStep | src/vscsim/api/simulation.py:161-166 | both histories take the values of the appended pair |
| ApiSimulation.StepKeys | src/vscsim/solver/simulation.py:196-217 | a successful run_step returns maps with the keys it was given |
| ApiSimulation.ReportsShaped | src/vscsim/api/simulation.py:168-172 | the returned dict has n + 1 times and n + 1 values for each of id, iq, Vdc, Idc, P_ac and Q_ac |
| ApiSimulation.Iterate | src/vscsim/api/simulation.py:150-166 | one iteration succeeds exactly when run_step does, raises its error otherwise, and on success keeps the variables in step with the trajectory |
| ApiSimulation.TimeLoop | src/vscsim/api/simulation.py:149-166 | the loop succeeds exactly when the n-call trajectory does, with its error otherwise, and the histories report that trajectory |
| ApiSimulation.Simulate | src/vscsim/api/simulation.py:101-172 | with n = floor(t_end / dt) the result reports the n-call trajectory from the loaded states with algebraic defaults, or raises its error |
| ApiSimulation.NonNegativeSteps | src/vscsim/api/simulation.py:144 | int(t_end / dt) is a non-negative step count |
| ApiSimulation.LoadInputs | src/vscsim/api/simulation.py:97-99 | the loaders succeed exactly when each accepts its configuration, and then return exactly the parameters, scenario and initial conditions the three loaders define for those configurations; otherwise the error is the first loader's failure, in the order parameters (a missing required one, then the first value float() rejects, required parameters before the other entries), scenario, a non-dict "initial_conditions" (AttributeError), initial values |
| ApiSimulation.RunSimulation | src/vscsim/api/simulation.py:30-172 | dt <= 0 or t_end < 0 raise ValueError before anything is loaded; then the first loader error, pinned down to the first failing conversion inside each loader; otherwise, with n = floor(t_end / dt) >= 0, the call succeeds exactly when the n-call run_step trajectory from the loaded inputs does, raises its error otherwise, and the returned dict reports that trajectory (times k dt and each variable along it) |
| ApiSimulation.LoadedStateKeys | src/vscsim/api/simulation.py:99-102 | the x0 the loaders return carries exactly id, iq and Vdc |
| ApiSimulation.ReportsAtZero | src/vscsim/api/simulation.py:125-142 | a dict reporting the zero-step trajectory is exactly the initial report: time [0.0] and one value per variable, the loaded state and the filled algebraic variables |
| ApiSimulation.RunAtZero | src/vscsim/api/simulation.py:136-142 | with dt > 0, t_end = 0 and loadable inputs run_simulation succeeds and returns only the initial state |
| ApiSimulation.RunShaped | src/vscsim/api/simulation.py:168-172 | a successful run had dt > 0, t_end >= 0 and loadable inputs, and its dict has floor(t_end / dt) + 1 times 0, dt, 2 dt, ... and that many values per variable |
| ApiSimulation.TimesIsProduct | src/vscsim/api/simulation.py:51-53 | the time after k steps is k * dt |
| ApiSimulation.LastTimeWithinEnd | src/vscsim/api/simulation.py:49-55 | the last recorded time, n_steps * dt, never passes t_end |
| Batch.Failed | src/vscsim/api/batch.py:76-77 | an exception becomes a result with the case's id, ok = False, no data and the exception |
| Batch.RunSingleCaseWith | src/vscsim/api/batch.py:60-77 | a keyword run_simulation does not declare makes the call raise TypeError, which is caught into a failed result; with declared keywords only, the result carries the case id, ok exactly when there is data and no error, and the data or the exception are exactly what run_simulation returns or raises for the case |
| Batch.RunSingleCaseAsWritten | src/vscsim/api/batch.py:65-77 | as written, passing integrator= and adaptive= makes every case fail with TypeError |
| Batch.AsWrittenRejectsLoadableCase | src/vscsim/api/simulation.py:30-35 | the keywords passed are not all declared, while every loader accepts the nominal case and its t_end is 0, so the corrected runner succeeds on it and the as-written one fails |
| Batch.RunSingleCase | src/vscsim/api/batch.py:65-77 | with the four declared keywords: the case id; ok exactly when there is data and no error; the data is exactly the dict run_simulation returns for the case, the error exactly the exception it raises (ValueError for a bad dt or t_end, the first loader error, or the first failing step) |
| Batch.ReportedAtZero | src/vscsim/api/batch.py:65-74 | a case whose configurations load, run with dt > 0 to t_end = 0, is reported ok with the initial state as its data |
| Batch.RunBatch | src/vscsim/api/batch.py:106-111 | one result per case, in the order of the cases, each carrying its case's id and what _run_single_case reports for it |
| Exporter.EnsureCanWrite | src/vscsim/utils/exporter.py:45-52 | FileExistsError exactly when the file exists and overwrite is off; no error otherwise |
| Exporter.NormalizeRows | src/vscsim/utils/exporter.py:55-65 | one row per input row, in order, each equal to its input |
| Exporter.RowKeys | src/vscsim/utils/exporter.py:216-232 | a flat row has distinct names, "t" first, and a name exactly when it is "t", a state name or an algebraic name |
| Exporter.Row | src/vscsim/utils/exporter.py:216-232 | a flat row is never empty and its first column is "t", whatever x and y hold |
| Exporter.RowHasKey | src/vscsim/utils/exporter.py:219-230 | a name is in the row iff it is "t", a name of x, or a name of y when y is given |
| Exporter.RowFirstColumn | src/vscsim/utils/exporter.py:219 | every row's names are distinct and its first column is "t", whatever x and y hold |
| Exporter.RowValues | src/vscsim/utils/exporter.py:219-230 | on a name collision y's value overwrites x's, which overwrites the time; otherwise each name has its own snapshot's value |
| Exporter.RowWithin | src/vscsim/utils/exporter.py:216-232 | a row whose snapshots use only a reference row's names has only fields of the reference row's header |
| Exporter.BuildRow | src/vscsim/utils/exporter.py:217-232 | the loop over x then y builds exactly the row Row(t, x, y) |
| Exporter.BuildTimeseriesRows | src/vscsim/utils/exporter.py:176-234 | ValueError iff x_history or a given y_history does not have one entry per time; otherwise one row per time, row i flattening times[i], x_history[i], y_history[i] |
| Exporter.RecordOf | src/vscsim/utils/exporter.py:110-111 | the written record has one cell per header column, holding the row's value for that column or nothing |
| Exporter.ExportCsv | src/vscsim/utils/exporter.py:73-111 | FileExistsError before anything else; no rows gives an empty file without header; otherwise success iff every row's fields lie within the first row's names, the header being the first row's names in order and each record that row's cells |
| Exporter.SimulationTable | src/vscsim/utils/exporter.py:249-250 | aligned non-empty histories give a table with one record per time |
| Exporter.ExportSimulationCsv | src/vscsim/utils/exporter.py:237-250 | a length mismatch raises ValueError before the overwrite check; then FileExistsError when the file exists and overwrite is off; otherwise no times give an empty file, and with times the export succeeds exactly when every row's fields are in row 0's header (ValueError otherwise) and then writes the simulation table |
| Exporter.RowsWithinHeader | src/vscsim/utils/exporter.py:105-111 | when every snapshot uses only the first snapshot's names, every row fits the header taken from row 0, so export_csv cannot raise ValueError on them |
| DashboardIo.LastDot | dashboard/io.py:44 | the position of the last dot of a name, or -1 when it has none |
| DashboardIo.SuffixStart | dashboard/io.py:44 | where the name splits into stem and suffix, within the name |
| DashboardIo.Suffix | dashboard/io.py:44 | Path.suffix is empty or an extension: a dot followed by at least one character and no further dot |
| DashboardIo.Stem | dashboard/io.py:44 | Path.stem followed by Path.suffix is the name again, and the stem is empty only for an empty name |
| DashboardIo.ExtensionSplit | dashboard/io.py:44 | a non-empty base followed by an extension has exactly that stem and that suffix |
| DashboardIo.Underscored | dashboard/io.py:44 | each space replaced by an underscore, every other character kept, length unchanged |
| DashboardIo.CanonicalForm | dashboard/io.py:44 | replacing spaces and lower-casing yields a string with one character per input character and no space or upper-case letter |
| DashboardIo.BuildRunId | dashboard/io.py:36-44 | build_run_id has one character per character of the stem and no space or upper-case letter |
| DashboardIo.CanonicalFixed | dashboard/io.py:44 | the id transformation leaves a canonical string unchanged |
| DashboardIo.RunIdOfNamedFile | dashboard/io.py:36-44 | a file named after a canonical id, with any extension and in any directory, has that id |
| DashboardIo.CsvAndParquetShareId | dashboard/io.py:40-42 | base.csv and base.parquet have the same run id, whatever their directories |
| DashboardIo.RunIdIdempotent | dashboard/io.py:36-44 | a CSV file named after a run id has that run id again |
| DashboardIo.RunIdsOf | dashboard/io.py:57-58 | one run id per file, in order |
| DashboardIo.FirstIndex | dashboard/io.py:79-81 | the first position holding the id, or the length when the id is absent |
| DashboardIo.FirstIndexAt | dashboard/io.py:79-81 | a position holding the id with no earlier occurrence is the first index |
| DashboardIo.Chosen | dashboard/io.py:70-89 | the file find_run_file returns has the id and is one of the CSV files, or with pandas one of the Parquet files |
| DashboardIo.ChosenFacts | dashboard/io.py:70-89 | a file is found iff some CSV file, or with pandas some Parquet file, has the id; the found file has the id; it is the first CSV file with the id whenever one exists |
| DashboardIo.HasIdInIds | dashboard/io.py:57-65 | an id is among the files' ids iff some file has it |
| DashboardIo.FindRunFile | dashboard/io.py:70-89 | returns the first CSV file with the id, else with pandas the first Parquet file with it, else FileNotFoundError |
| DashboardIo.StrLessIrreflexive | dashboard/io.py:67 | no run id sorts before itself |
| DashboardIo.StrLessTotal | dashboard/io.py:67 | of two different ids one sorts before the other |
| DashboardIo.StrLessTransitive | dashboard/io.py:67 | the order on ids is transitive |
| DashboardIo.Insert | dashboard/io.py:67 | inserting adds exactly one entry and keeps all others |
| DashboardIo.InsertSorted | dashboard/io.py:67 | inserting a new id into an id-sorted list keeps it strictly sorted |
| DashboardIo.InsertIds | dashboard/io.py:67 | inserting adds exactly the new entry's id to the ids |
| DashboardIo.InsertStep | dashboard/io.py:67 | one insertion step keeps the list sorted and moves one key from the remaining keys into the list |
| DashboardIo.SortedItems | dashboard/io.py:67 | sorted(runs.items()): strictly sorted by id, one entry per key, each with its mapped path |
| DashboardIo.ListRuns | dashboard/io.py:47-67 | strictly sorted by id; an id is listed iff find_run_file would find a file for it, and with exactly that file |
| DashboardIo.CollectCsv | dashboard/io.py:56-59 | setdefault over the CSV files maps exactly their ids, each to the first CSV file with it |
| DashboardIo.CollectParquet | dashboard/io.py:61-65 | setdefault over the Parquet files keeps every CSV entry and adds the other Parquet ids, each to the file find_run_file chooses |
| DashboardIo.LastIndex | dashboard/io.py:120-132 | the last column with a name (the one DictReader's row keeps on duplicate names), or -1 |
| DashboardIo.ColumnLength | dashboard/io.py:130-150 | each signal gets one value per kept time |
| DashboardIo.KeptTimesWithoutColumn | dashboard/io.py:132-137 | a header without the time column keeps no record |
| DashboardIo.KeptTimesAll | dashboard/io.py:130-138 | records whose times all parse keep exactly those times, in order |
| DashboardIo.OtherCols | dashboard/io.py:125 | exactly the header's names other than the time column; distinct when the header is |
| DashboardIo.ListSignalsFromCsv | dashboard/io.py:204-211 | [] for an empty file; otherwise exactly the header's names other than the time column |
| DashboardIo.AppendSignals | dashboard/io.py:141-150 | the same signal names; each other column gets that record's value appended, the rest unchanged |
| DashboardIo.KeptStep | dashboard/io.py:130-150 | one more record adds its time and its values exactly when it is kept |
| DashboardIo.LoadCsvTimeseries | dashboard/io.py:105-152 | the times of the kept records; one signal per non-time column; with distinct names, each signal the column's values with one entry per time |
| DashboardIo.FormatOf | dashboard/io.py:195-201 | CSV for ".csv", Parquet for ".parquet"/".pq", ignoring case; ValueError otherwise |
| DashboardIo.FormatOfNamed | dashboard/io.py:195-201 | the reader depends only on the lower-cased extension, with all three outcomes |
| DashboardIo.FormatOfUpperCase | dashboard/io.py:195 | ".CSV" and ".PQ" are read like their lower-case forms |
| DashboardIo.NoSuffixRejected | dashboard/io.py:195-201 | a name without a dot is refused with ValueError |
| DashboardIo.LoadTimeseries | dashboard/io.py:188-201 | ValueError for an unsupported suffix; the Parquet reader's result for Parquet; for CSV the kept times and the non-time signals, and with distinct header names each signal is its column's values, one per kept time |
| DashboardIo.ListSignals | dashboard/io.py:226-234 | ValueError for an unsupported suffix; for CSV the header's non-time names; for Parquet the Parquet listing |
| DashboardIo.ExportedHeader | src/vscsim/utils/exporter.py:219 | an exported header starts with "t", has no other "t" and no "time" column |
| DashboardIo.DefaultColumnDropsExportedRows | dashboard/io.py:105-107 | as written: reading an exported file with the default "time" column yields no times at all |
| DashboardIo.ExportColumnRecoversTimes | dashboard/io.py:130-138 | read with the exporter's "t" column, an exported file yields exactly the exported times |
| DashboardIo.LoadExportedRun | dashboard/app.py:77-81 | the dashboard's read of a run with the "t" column: ValueError for an unsupported suffix; the Parquet reader's result for Parquet; for CSV the times of the "t" column and, with distinct header names, each signal its column's values |
| Logging.PassesIffAsSevere | src/vscsim/utils/logger.py:25-30 | for the four level names, a message passes a threshold exactly when its level is at least as severe (error > warning > info > debug) |
| Logging.LevelValue | src/vscsim/utils/logger.py:25-30 | a name has a level exactly when it is one of debug, info, warning, error, and the levels are 10, 20, 30, 40 in that order |
| Logging.Record | src/vscsim/utils/logger.py:86-88 | the record's first two keys are "level" and "message", whatever the extras are |
| Logging.Logger.ShouldLog | src/vscsim/utils/logger.py:58-59 | an error message passes every known threshold; a debug message passes exactly at the debug threshold |
| Logging.RecordFacts | src/vscsim/utils/logger.py:86-88 | the record has distinct keys, "level" then "message" first with the values given, and every extra with its value |
| Logging.Outcome | src/vscsim/utils/logger.py:75-81 | log fails only with TypeError (a keyword "self", "level" or "message", which Python binds to a declared parameter) or ValueError (unknown level) |
| Logging.Emitted | src/vscsim/utils/logger.py:75-90 | at most one record is emitted, and only by a call that does not fail |
| Logging.LevelCaseInsensitive | src/vscsim/utils/logger.py:79-81 | "INFO" is accepted or refused exactly as "info" |
| Logging.EmittedCaseInsensitive | src/vscsim/utils/logger.py:79-90 | "Error" emits exactly what "error" emits, at every threshold |
| Logging.ErrorAlwaysEmitted | src/vscsim/utils/logger.py:58-59 | an error message is emitted at every known threshold |
| Logging.DebugOnlyAtDebug | src/vscsim/utils/logger.py:58-59 | a debug message is emitted iff the threshold is "debug" |
| Logging.LowerFixed | src/vscsim/utils/logger.py:50 | lower() leaves a string without upper-case letters unchanged |
| Logging.LowerIdempotent | src/vscsim/utils/logger.py:50 | lower() applied twice equals lower() once |
| Logging.Logger.constructor | src/vscsim/utils/logger.py:46-53 | keeps the level as given and the JSON flag, sets the numeric threshold of the lower-cased level, nothing emitted |
| Logging.Logger.New | src/vscsim/utils/logger.py:49-53 | ValueError iff the lower-cased level is not one of the four names; otherwise a fresh logger with that level and flag |
| Logging.Logger.Log | src/vscsim/utils/logger.py:75-90 | returns Outcome and appends exactly the Emitted records to the output |
| Logging.Logger.LogError | src/vscsim/utils/logger.py:92-93 | a keyword "self" or "msg" raises TypeError and emits nothing; otherwise log("error", msg) |
| Logging.Logger.LogWarning | src/vscsim/utils/logger.py:95-96 | a keyword "self" or "msg" raises TypeError and emits nothing; otherwise log("warning", msg) |
| Logging.Logger.LogInfo | src/vscsim/utils/logger.py:98-99 | a keyword "self" or "msg" raises TypeError and emits nothing; otherwise log("info", msg) |
| Logging.Logger.LogDebug | src/vscsim/utils/logger.py:101-102 | a keyword "self" or "msg" raises TypeError and emits nothing; otherwise log("debug", msg) |
| Logging.ConfigLevel | src/vscsim/utils/logger.py:153 | "info" when the configuration has no log_level |
| Logging.Registry.constructor | src/vscsim/utils/logger.py:109 | no global logger at import |
| Logging.Registry.SetGlobalLogger | src/vscsim/utils/logger.py:119-124 | the given logger becomes the global logger |
| Logging.Registry.GlobalLog | src/vscsim/utils/logger.py:127-133 | TypeError for a keyword "level" or "msg"; nothing without a global logger; otherwise the global logger's log (where a keyword "self" raises TypeError), its output growing by exactly the emitted records; the global logger stays the same object, and its level, JSON flag and threshold are unchanged, so the emitted records are filtered by the threshold it had before the call |
| Logging.Registry.ConfigureGlobalLoggerFromConfig | src/vscsim/utils/logger.py:140-157 | None or {} changes nothing; otherwise success iff the configured level names a level, installing a fresh logger with that level and JSON flag; on ValueError the global logger is kept |
| Logging.LoggerFromConfig | src/vscsim/utils/logger.py:153-156 | success iff the configured (lower-cased, default "info") level is known; the logger then has that level and bool(log_json) |
| AdvancedExamples.CellOkAtZero | examples/advanced/case_adaptive_dt.py:91 | a column that can be read at row 0 (a list, a str, or a dict read past its end) can be read at every row |
| AdvancedExamples.Snapshot | examples/advanced/case_adaptive_dt.py:91 | row i succeeds iff every column can be read at i; it then has the dict's keys in order, each with that column's entry i or None past its end |
| AdvancedExamples.Expand | examples/advanced/case_adaptive_dt.py:90-93 | on success, n rows, row i being Snapshot(d, i) |
| AdvancedExamples.ExpandFailsAtFirstRow | examples/advanced/case_adaptive_dt.py:90-93 | expanding n > 0 rows fails iff row 0 fails, and with row 0's error |
| AdvancedExamples.ListColumnsExpand | examples/advanced/export_utils.py:19-23 | a dict of lists always expands, every row holding each key's entry or None past the list's end |
| AdvancedExamples.EmptyDictExpand | examples/advanced/export_utils.py:19-23 | an empty dict expands to n empty rows |
| AdvancedExamples.AsValues | examples/advanced/export_utils.py:20-23 | the converted rows as dict values, one per row, in order |
| AdvancedExamples.NormalizeOne | examples/advanced/export_utils.py:16-24 | a list is kept as is; a dict gives its n rows when they can be built; anything else raises TypeError |
| AdvancedExamples.NormalizeHistory | examples/advanced/export_utils.py:10-26 | succeeds iff both histories convert, giving both conversions; x's error comes first |
| AdvancedExamples.SnapshotsOne | examples/advanced/case_adaptive_dt.py:79-95 | a falsy history gives []; a non-empty list is kept if its first element is a dict, else TypeError; a dict gives its n rows; it fails only on a truthy history |
| AdvancedExamples.HistoryToSnapshots | examples/advanced/case_adaptive_dt.py:62-97 | succeeds iff both histories convert, giving both conversions; x's error comes first |
| AdvancedExamples.ConvertersAgree | examples/advanced/case_adaptive_dt.py:79-95 | on a non-empty dict, or a list starting with a dict, the scripts' converter and normalize_history give the same result |
| AdvancedExamples.ConvertersDiffer | examples/advanced/export_utils.py:16-24 | they differ elsewhere: {} gives n empty rows against [], and a list of non-dicts is kept against TypeError |
| AdvancedExamples.ListOf | examples/advanced/case_adaptive_dt.py:180 | list(v): a list's items, one entry per character of a str or per key of a dict, TypeError exactly for None, bools and numbers |
| AdvancedExamples.ExtractSeries | examples/advanced/case_adaptive_dt.py:173-180 | a list of dicts gives each snapshot's value or None; other lists raise AttributeError; a dict gives list() of its column or [] when the key is absent; {} and "" give [] |
| AdvancedExamples.PaddedTo | examples/advanced/case_adaptive_dt.py:91 | a column cut or padded with None to exactly n entries |
| AdvancedExamples.RowGet | examples/advanced/case_adaptive_dt.py:91 | row i of a dict of lists holds under each key that column's entry i, or None past its end |
| AdvancedExamples.ExtractFromRows | examples/advanced/case_adaptive_dt.py:173-180 | round trip: expanding a dict of lists into rows, then extracting a key, gives that column cut or padded to n |
| AdvancedExamples.ListColumnsRowZero | examples/advanced/case_adaptive_dt.py:91 | row 0 of a dict of lists can always be built |
| AdvancedExamples.ExtractFromColumns | examples/advanced/case_adaptive_dt.py:173-180 | for a column of length n, extracting from the dict and from its expanded rows agree, both giving the column |
| AdvancedExamples.DtSeries | examples/advanced/case_adaptive_dt.py:183-186 | [] for fewer than two times; otherwise one step per consecutive pair, each the difference of the pair |
| AdvancedExamples.DtSeriesTelescopes | examples/advanced/case_adaptive_dt.py:183-186 | the first time plus the sum of the steps is the last time |
| AdvancedExamples.DtSeriesPositive | examples/advanced/case_adaptive_dt.py:183-186 | all steps are positive iff the times strictly increase |
| AdvancedExamples.Shifted | examples/advanced/case_step_pref.py:188 | each segment-2 time moved forward by exactly t_step |
| AdvancedExamples.ShiftKeepsSteps | examples/advanced/case_step_pref.py:188 | the shift leaves the dt series unchanged |
| AdvancedExamples.SecondSegmentEnd | examples/advanced/case_step_pref.py:166 | the segment-2 end is non-negative, at least t_end - t_step, and one of the two |
| AdvancedExamples.SegmentsCoverHorizon | examples/advanced/case_step_pref.py:150-168 | the shifted segment 2 ends at t_end when t_step <= t_end (else at t_step), and all its times lie between t_step and that end |
| AdvancedExamples.OrZero | examples/advanced/case_current_limit.py:213 | `x or 0.0`: falsy values give 0, a number itself; TypeError exactly for a non-empty str, list or dict |
| AdvancedExamples.Magnitudes | examples/advanced/case_current_limit.py:213-214 | succeeds iff every sample converts; then m magnitudes, each sqrt(id^2 + iq^2) of the converted samples |
| AdvancedExamples.RootAt | examples/advanced/case_current_limit.py:213 | a square root of id^2 + iq^2 is non-negative and bounds both |id| and |iq| |
| AdvancedExamples.NormI | examples/advanced/case_current_limit.py:210-214 | [] when either series is empty; otherwise one magnitude per index of the shorter series, each the norm of the converted samples, bounding both; series of numbers and None never fail |
| AdvancedExamples.Without | examples/advanced/case_adaptive_dt.py:134 | pop(k, None): k is gone, every other key keeps its value, a dict without k is unchanged |
| AdvancedExamples.StripStringsGet | examples/advanced/case_adaptive_dt.py:130-134 | exactly the listed keys holding a str are removed; every other key keeps its value |
| AdvancedExamples.NoStringLeft | examples/advanced/case_adaptive_dt.py:129-134 | after the clean-up neither nr_norm nor nr_verbose holds a str |
| AdvancedExamples.WithPref | examples/advanced/case_step_pref.py:54-64 | P_ref is set in params if it has the key, else in the scenario if it has it, else nowhere; no key is created and no other value changes |
| AdvancedExamples.Config.Copy | examples/advanced/case_adaptive_dt.py:125-127 | dict(base): a new dict with the same entries |
| AdvancedExamples.Config.Pop | examples/advanced/case_adaptive_dt.py:134 | the entries become Without(old entries, k) |
| AdvancedExamples.Config.Set | examples/advanced/case_adaptive_dt.py:157 | the entries become the old ones with k set to v |
| AdvancedExamples.StripNrStrings | examples/advanced/case_adaptive_dt.py:130-134 | the dict loses exactly its str-valued nr_norm and nr_verbose |
| AdvancedExamples.SetPref | examples/advanced/case_step_pref.py:54-64 | the two dicts become WithPref of their old entries; when both are one dict, only the params branch applies |
| AdvancedExamples.AdaptiveDtConfigs | examples/advanced/case_adaptive_dt.py:124-163 | three fresh, distinct dicts: two cleaned params copies and the scenario copy; without the adaptive keyword the second copy has adaptive = True |
| AdvancedExamples.StepPrefSegments | examples/advanced/case_step_pref.py:136-168 | separate cleaned copies per segment with P_ref set to P0 and P1; segment 1 ends at t_step, segment 2 at max(t_end - t_step, 0) |
| AdvancedExamples.CurrentLimitConfigs | examples/advanced/case_current_limit.py:133-164 | separate cleaned copies for the nominal and high cases, with P_ref set to P_nominal and P_alto |
| AdvancedExamples.PrefLandsOnce | examples/advanced/case_step_pref.py:54-64 | when either base dict has P_ref, the case's value lands in params if it has the key, otherwise in the scenario, and the other dict is unchanged |

## Left out

- Floating point: every float is an exact `real`, with no rounding, overflow, NaN or infinity. This includes the accumulation `t = t + dt` of the driver, `floor(t_end / dt)`, and the convergence test `< 1e-8`.
- `math.sqrt` and `**` are function parameters, so no property depends on their numeric values beyond being a square root or positive.
- Common.ToFloat: a str is parsed only as an optionally signed decimal numeral with at most one point. Exponents (`"1e-3"`), surrounding whitespace, underscores, `"inf"` and `"nan"` give ValueError in the model, although Python's float() accepts them.
- Common.Lower: only ASCII letters are lower-cased; Unicode case mapping is not modelled.
- Exception messages: each exception is modelled by its kind (and, for KeyError, the key), not by its text.
- Tuples, bytes and other Python objects are not in the value model. Configuration dicts are assumed to have distinct keys, as every Python dict does.
- IntegratorRk: the stage evaluations (1, 2 and 4 calls of the derivative function per step) are stated through a ghost call log that the step methods Rk1Step, Rk2Step and Rk4Step append to themselves at each call; the derivative function is a pure parameter, so nothing observes its calls from outside. The debug logging of stage norms has no numeric effect and is not modelled.
- Simulation.RunStep: `run_step` receives a time `t` that it only passes along to the outer controller, which ignores it; the model drops it.
- Parallel batch: the multiprocessing branch of `run_batch` is not modelled; only the sequential branch is.
- CLI: `src/vscsim/cli/main.py` is not part of this model.
- Exporter: opening, writing and closing the file, and the Parquet export through pandas, are not modelled. The CSV result is the header and records `csv.DictWriter` would write.
- Logging: the text or JSON-line rendering in `_emit` is not modelled. A logger's output is the list of records it emits.
- Logging.ConfigLevel: a non-string `log_level` is modelled as naming no level. Its `str()` text ("none", "true", a number) names none of the four levels, so the outcome, ValueError, is the same.
- Logging: `get_logger` builds a logger exactly as `Logger.New` does and has no row of its own.
- DashboardIo: `iter_csv_files` / `iter_parquet_files` (rglob under the data directory) become the lists of files they yield. `ensure_data_dir` and the directory walk are not modelled.
- DashboardIo: a CSV file is given as the records `csv.reader` yields for it; tokenising (quotes, delimiters, line endings) is not modelled.
- DashboardIo: reading and listing a Parquet file (`load_parquet_timeseries`, `list_signals_from_parquet`) go through pandas. Their outcome is a parameter.
- DashboardIo: the suffix rule is pathlib's (the last dot, not counting a leading one). Its older behaviour on names ending in a dot is not modelled.
- DashboardIo.LoadCsvTimeseries: the signal values are stated only when the header's names are distinct. With a repeated name, DictReader's row keeps the last cell, and only the key set and the times are stated.
- DashboardIo: signals are a map from name to values; the order of the signal dict is not kept (the list order is stated by ListSignalsFromCsv).
- DashboardIo: `find_run_csv` is an alias of `find_run_file` and has no row of its own.
- Dashboard HTTP layer: `dashboard/app.py`, `dashboard/main.py` and the schemas are not part of this model. The one call that matters for the time column is LoadExportedRun.
- AdvancedExamples: the scripts' `run_simulation` calls, their JSON loading, `_get_project_root`, the plotting with matplotlib and `export_results` are not composed. The model states the configurations each case passes, the conversions, and the plotted series.
- AdvancedExamples: `_RUN_SIM_HAS_ADAPTIVE` (a signature inspection) is the parameter `hasAdaptiveKeyword`. For this repository's `run_simulation` it is false.
- AdvancedExamples: `validate_advanced_cases.py` is not part of this model.
- Timestepper: `current_dt` only returns the field `dt`; the model reads the field and has no separate member for it.
- ControlExternal: `scenario.get("control_mode", "PQ")` is Common.ValueOr with the constant DefaultMode (the string "PQ") and has no member of its own.
- Scenario: `str(control_mode)` is modelled for string modes; other values are not in the model's mode text.

## Findings

| source | as written | input that shows it | evidently intended | confidence | as-written member | corrected member |
|---|---|---|---|---|---|---|
| src/vscsim/api/batch.py:66-73 | `_run_single_case` calls `run_simulation` with `integrator=` and `adaptive=`, which `run_simulation` (src/vscsim/api/simulation.py:30-35) does not declare; the call raises TypeError before running and every case is reported failed | any case, e.g. a PQ case the loaders accept with t_end = 0 and dt = 0.001 | each case is run by `run_simulation` and its outcome (results or the exception) reported; the batch test only passes because it replaces `run_simulation` with a stub that accepts the two keywords | not executed | Batch.RunSingleCaseAsWritten, with Batch.AsWrittenRejectsLoadableCase | Batch.RunSingleCase, used by Batch.RunBatch |
| dashboard/io.py:105-137 | `load_csv_timeseries` defaults the time column to "time", while the exporter names it "t" (src/vscsim/utils/exporter.py:219); every exported record then has no time cell and is skipped | any exported run with at least one instant, read as the dashboard reads it (dashboard/app.py:81) | an exported run is read back with its times | not executed | DashboardIo.DefaultColumnDropsExportedRows | DashboardIo.ExportColumnRecoversTimes, with DashboardIo.LoadExportedRun |
