// One simulation step (src/vscsim/solver/simulation.py): the input map, the
// identity limits stage, and the composition external control -> inner
// control -> saturation -> Newton-Raphson on g -> f -> Euler -> limits.
// The Newton-Raphson stage is solved in closed form: g is affine in y and
// dg_dy is unit upper-triangular, so one correction lands on the consistent
// algebraic point.

module Simulation {
  import opened Common
  import opened Dae
  import opened Jacobian
  import opened LinearSolve
  import opened Nr
  import opened Integrator
  import ControlExternal
  import ControlInner
  import Saturation

  /** The residual callback run_step hands to newton_raphson. */
  function ResidualOf(x: map<string, real>, params: map<string, real>, inputs: map<string, real>): Residual
  {
    y => GResidual(x, y, params, inputs)
  }

  /** The Jacobian callback run_step hands to newton_raphson. */
  function JacobianOf(x: map<string, real>, params: map<string, real>, inputs: map<string, real>): JacobianFn
  {
    y => DgDy(x, y, params, inputs)
  }

  /** The only solution of dg_dy z = 0 is z = 0. */
  lemma DgDyKernelTrivial(x: map<string, real>, y: map<string, real>,
                          params: map<string, real>, inputs: map<string, real>, z: seq<real>)
    requires DgDy(x, y, params, inputs).Ok? && |z| == 3
    requires Solves(DgDy(x, y, params, inputs).value, z, Zeros(3))
    ensures z == Zeros(3)
  {
    var jac := DgDy(x, y, params, inputs).value;
    Dot3(jac[0], z);
    Dot3(jac[1], z);
    Dot3(jac[2], z);
    assert z[2] == 0.0 && z[1] == 0.0 && z[0] == 0.0;
  }

  /** dg_dy is never singular. */
  lemma DgDyNonsingular(x: map<string, real>, y: map<string, real>,
                        params: map<string, real>, inputs: map<string, real>)
    requires DgDy(x, y, params, inputs).Ok?
    ensures !Singular(DgDy(x, y, params, inputs).value)
  {
    var jac := DgDy(x, y, params, inputs).value;
    forall z | |z| == |jac| && Solves(jac, z, Zeros(|jac|)) ensures z == Zeros(|jac|) {
      DgDyKernelTrivial(x, y, params, inputs, z);
    }
  }

  /** Component i of g after a Newton correction d is zero. */
  lemma CorrectedComponent(x: map<string, real>, y: map<string, real>,
                           params: map<string, real>, inputs: map<string, real>,
                           d: seq<real>, i: nat)
    requires GResidual(x, y, params, inputs).Ok? && |d| == 3 && i < 3
    requires DgDy(x, y, params, inputs).Ok?
    requires Solves(DgDy(x, y, params, inputs).value, d,
                    Negate(ResidualVector(GResidual(x, y, params, inputs).value)))
    ensures GResidual(x, ShiftY(y, d), params, inputs).Ok?
    ensures GResidual(x, ShiftY(y, d), params, inputs).value[AlgebraicKeys[i]] == 0.0
  {
    ResidualAffineInY(x, y, params, inputs, d, i);
    Dot3(DgDy(x, y, params, inputs).value[i], d);
  }

  /** consistent_y overwrites every algebraic key, so moving those keys first
      does not change it. */
  lemma ConsistentYAfterShift(x: map<string, real>, y: map<string, real>, inputs: map<string, real>, d: seq<real>)
    requires HasKeys(x, StateKeys) && "v_pcc_d" in inputs && "v_pcc_q" in inputs && x["Vdc"] != 0.0
    requires |d| == 3 && HasKeys(y, AlgebraicKeys)
    ensures ConsistentY(x, ShiftY(y, d), inputs) == ConsistentY(x, y, inputs)
  {
    var a, b := ConsistentY(x, ShiftY(y, d), inputs), ConsistentY(x, y, inputs);
    forall k | k in a ensures a[k] == b[k] {
      if k !in AlgebraicKeys {
        assert k != "Idc" && k != "P_ac" && k != "Q_ac";
      }
    }
  }

  /** One Newton step on g from y lands exactly on the consistent point,
      where the loop then stops. */
  lemma NewtonStepIsConsistent(x: map<string, real>, params: map<string, real>, inputs: map<string, real>,
                               y: map<string, real>, d: seq<real>, y1: map<string, real>)
    requires GResidual(x, y, params, inputs).Ok?
    requires NewtonStep(ResidualOf(x, params, inputs), JacobianOf(x, params, inputs), y, d, y1)
    ensures y1 == ConsistentY(x, y, inputs)
    ensures GResidual(x, y1, params, inputs) == Ok(map["Idc" := 0.0, "P_ac" := 0.0, "Q_ac" := 0.0])
    ensures Converged(ResidualOf(x, params, inputs), y1)
  {
    CorrectedComponent(x, y, params, inputs, d, 0);
    CorrectedComponent(x, y, params, inputs, d, 1);
    CorrectedComponent(x, y, params, inputs, d, 2);
    var z := map["Idc" := 0.0, "P_ac" := 0.0, "Q_ac" := 0.0];
    var g1 := GResidual(x, y1, params, inputs).value;
    assert g1.Keys == z.Keys;
    assert g1 == z;
    ResidualZeroIffConsistent(x, y1, params, inputs);
    ConsistentYAfterShift(x, y, inputs, d);
    assert ResidualVector(g1) == [0.0, 0.0, 0.0];
  }

  /** No iteration of the loop on g raises where g itself is defined. */
  lemma NoFailureOnDae(x: map<string, real>, params: map<string, real>, inputs: map<string, real>,
                       y: map<string, real>)
    requires GResidual(x, y, params, inputs).Ok?
    ensures forall e :: !FailsAt(ResidualOf(x, params, inputs), JacobianOf(x, params, inputs), y, e)
  {
    DgDyNonsingular(x, y, params, inputs);
    assert HasKeys(y, AlgebraicKeys);
  }

  /** An already converged start is returned unchanged with count 0. */
  lemma NrOnDaeConverged(x: map<string, real>, params: map<string, real>, inputs: map<string, real>,
                         y0: map<string, real>, ys: seq<map<string, real>>, ds: seq<seq<real>>,
                         r: Result<(map<string, real>, nat)>)
    requires Converged(ResidualOf(x, params, inputs), y0)
    requires NrOutcome(y0, ResidualOf(x, params, inputs), JacobianOf(x, params, inputs), ys, ds, r)
    ensures r == Ok((y0, 0))
  {
    StopsWhenConverged(y0, ResidualOf(x, params, inputs), JacobianOf(x, params, inputs), ys, ds, r, 0);
  }

  /** An unconverged start takes exactly one correction, to the consistent point. */
  lemma NrOnDaeCorrected(x: map<string, real>, params: map<string, real>, inputs: map<string, real>,
                         y0: map<string, real>, ys: seq<map<string, real>>, ds: seq<seq<real>>,
                         r: Result<(map<string, real>, nat)>)
    requires GResidual(x, y0, params, inputs).Ok? && !Converged(ResidualOf(x, params, inputs), y0)
    requires NrOutcome(y0, ResidualOf(x, params, inputs), JacobianOf(x, params, inputs), ys, ds, r)
    ensures r == Ok((ConsistentY(x, y0, inputs), 1))
  {
    var res, jac := ResidualOf(x, params, inputs), JacobianOf(x, params, inputs);
    NoFailureOnDae(x, params, inputs, y0);
    ContinuesWhenNoFailure(y0, res, jac, ys, ds, r, 0);
    NewtonStepIsConsistent(x, params, inputs, y0, ds[0], ys[1]);
    StopsWhenConverged(y0, res, jac, ys, ds, r, 1);
  }

  /** An unconverged-or-failing start: when g itself raises at y0 the loop
      raises the same error before any correction. */
  lemma NrOnDaeFails(x: map<string, real>, params: map<string, real>, inputs: map<string, real>,
                     y0: map<string, real>, ys: seq<map<string, real>>, ds: seq<seq<real>>,
                     r: Result<(map<string, real>, nat)>)
    requires GResidual(x, y0, params, inputs).Err?
    requires NrOutcome(y0, ResidualOf(x, params, inputs), JacobianOf(x, params, inputs), ys, ds, r)
    ensures r == Err(GResidual(x, y0, params, inputs).error)
  {
    var res, jac := ResidualOf(x, params, inputs), JacobianOf(x, params, inputs);
    assert 0 < |ds| ==> NewtonStep(res, jac, ys[0], ds[0], ys[1]);
    assert r.Ok? ==> Converged(res, ys[0]);
  }

  /** The algebraic point newton_raphson returns for this DAE, in closed
      form: g's own error, the start itself when it is already converged,
      and otherwise the consistent point. */
  ghost function NrOnDae(x: map<string, real>, params: map<string, real>, inputs: map<string, real>,
                         y0: map<string, real>): Result<map<string, real>>
  {
    match GResidual(x, y0, params, inputs)
    case Err(e) => Err(e)
    case Ok(_) =>
      if Converged(ResidualOf(x, params, inputs), y0) then Ok(y0)
      else Ok(ConsistentY(x, y0, inputs))
  }

  /** Every outcome of newton_raphson on g is the closed form. */
  lemma NrOnDaeClosedForm(x: map<string, real>, params: map<string, real>, inputs: map<string, real>,
                          y0: map<string, real>, ys: seq<map<string, real>>, ds: seq<seq<real>>,
                          r: Result<(map<string, real>, nat)>)
    requires NrOutcome(y0, ResidualOf(x, params, inputs), JacobianOf(x, params, inputs), ys, ds, r)
    ensures r.Ok? <==> NrOnDae(x, params, inputs, y0).Ok?
    ensures r.Ok? ==> r.value.0 == NrOnDae(x, params, inputs, y0).value
    ensures r.Err? ==> r.error == NrOnDae(x, params, inputs, y0).error
  {
    if GResidual(x, y0, params, inputs).Err? {
      NrOnDaeFails(x, params, inputs, y0, ys, ds, r);
    } else if Converged(ResidualOf(x, params, inputs), y0) {
      NrOnDaeConverged(x, params, inputs, y0, ys, ds, r);
    } else {
      NrOnDaeCorrected(x, params, inputs, y0, ys, ds, r);
    }
  }

  /** The point newton_raphson returns satisfies the convergence test, and
      keeps the keys of the start. */
  lemma NrOnDaeConverges(x: map<string, real>, params: map<string, real>, inputs: map<string, real>,
                         y0: map<string, real>)
    requires NrOnDae(x, params, inputs, y0).Ok?
    ensures Converged(ResidualOf(x, params, inputs), NrOnDae(x, params, inputs, y0).value)
    ensures NrOnDae(x, params, inputs, y0).value.Keys == y0.Keys
  {
    if !Converged(ResidualOf(x, params, inputs), y0) {
      var c := ConsistentY(x, y0, inputs);
      ConsistentIsFixed(x, y0, inputs);
      ResidualZeroIffConsistent(x, c, params, inputs);
      assert ResidualVector(GResidual(x, c, params, inputs).value) == [0.0, 0.0, 0.0];
    }
  }

  /** consistent_y of a consistent point is that point. */
  lemma ConsistentIsFixed(x: map<string, real>, y: map<string, real>, inputs: map<string, real>)
    requires HasKeys(x, StateKeys) && "v_pcc_d" in inputs && "v_pcc_q" in inputs && x["Vdc"] != 0.0
    ensures ConsistentY(x, ConsistentY(x, y, inputs), inputs) == ConsistentY(x, y, inputs)
  {
  }

  // ---------------------------------------------------------------------
  // run_step
  // ---------------------------------------------------------------------

  /** The keys of the DAE input dict. */
  const InputKeys: set<string> := {"v_conv_d", "v_conv_q", "v_pcc_d", "v_pcc_q"}

  /** _build_inputs: the saturated converter voltages and the PCC voltages
      float(scenario.get("v_pcc_d", 1.0)) and float(scenario.get("v_pcc_q", 0.0)). */
  function BuildInputs(scenario: map<string, Value>, vConvD: real, vConvQ: real): (r: Result<map<string, real>>)
    ensures r.Ok? <==> ToFloat(ValueOr(scenario, "v_pcc_d", VNum(1.0))).Ok?
                       && ToFloat(ValueOr(scenario, "v_pcc_q", VNum(0.0))).Ok?
    ensures r.Ok? ==> r.value.Keys == InputKeys
    ensures r.Ok? ==> r.value["v_conv_d"] == vConvD && r.value["v_conv_q"] == vConvQ
    ensures "v_pcc_d" !in scenario && "v_pcc_q" !in scenario
            ==> r == Ok(map["v_conv_d" := vConvD, "v_conv_q" := vConvQ, "v_pcc_d" := 1.0, "v_pcc_q" := 0.0])
    ensures r.Ok? && "v_pcc_d" in scenario && scenario["v_pcc_d"].VNum? ==> r.value["v_pcc_d"] == scenario["v_pcc_d"].x
    ensures r.Ok? && "v_pcc_q" in scenario && scenario["v_pcc_q"].VNum? ==> r.value["v_pcc_q"] == scenario["v_pcc_q"].x
    ensures r.Err? ==> r.error == TypeError || r.error == ValueError
  {
    var vPccD :- ToFloat(ValueOr(scenario, "v_pcc_d", VNum(1.0)));
    var vPccQ :- ToFloat(ValueOr(scenario, "v_pcc_q", VNum(0.0)));
    Ok(map["v_conv_d" := vConvD, "v_conv_q" := vConvQ, "v_pcc_d" := vPccD, "v_pcc_q" := vPccQ])
  }

  /** _apply_scenario_limits: the identity on x and y; the scenario is not read. */
  function ApplyScenarioLimits(x: map<string, real>, y: map<string, real>, scenario: map<string, Value>)
    : (r: (map<string, real>, map<string, real>))
    ensures r == (x, y)
  {
    (x, y)
  }

  /** Steps 1 and 2 of run_step: external control, the float of each
      current reference (0.0 when absent), and inner control; the result is
      the unsaturated converter voltage reference (v_conv_d_ref, v_conv_q_ref). */
  function VoltageReferences(x: map<string, real>, scenario: map<string, Value>, params: map<string, real>)
    : (r: Result<(real, real)>)
  {
    var refs :- ControlExternal.ComputeCurrentReferences(scenario);
    var idRef :- ToFloat(ValueOr(refs, "id_ref", VNum(0.0)));
    var iqRef :- ToFloat(ValueOr(refs, "iq_ref", VNum(0.0)));
    var out :- ControlInner.VoltageReferences(idRef, iqRef, x, params, None);
    Ok((out.0["v_conv_d_ref"], out.0["v_conv_q_ref"]))
  }

  /** Step 3 of run_step and the input dict: saturation against
      params.get("V_max", 1.0), then _build_inputs. */
  function ConverterInputs(x: map<string, real>, scenario: map<string, Value>, params: map<string, real>,
                           sqrt: Saturation.Sqrt): (r: Result<map<string, real>>)
    requires Saturation.IsSqrt(sqrt)
    ensures r.Ok? ==> r.value.Keys == InputKeys
  {
    var v :- VoltageReferences(x, scenario, params);
    assert Saturation.IsSqrtAt(sqrt, Saturation.SquaredNorm(v.0, v.1));
    var sat := Saturation.ApplyVoltageSaturation(v.0, v.1, GetOr(params, "V_max", 1.0), sqrt);
    BuildInputs(scenario, sat.0, sat.1)
  }

  /** The converter voltages handed to the DAE never lie outside the circle
      of radius V_max. */
  lemma ConverterInputsWithinLimit(x: map<string, real>, scenario: map<string, Value>, params: map<string, real>,
                                   sqrt: Saturation.Sqrt)
    requires Saturation.IsSqrt(sqrt)
    requires ConverterInputs(x, scenario, params, sqrt).Ok?
    ensures var inputs := ConverterInputs(x, scenario, params, sqrt).value;
            var vMax := GetOr(params, "V_max", 1.0);
            Saturation.InsideCircle(inputs["v_conv_d"], inputs["v_conv_q"], vMax)
  {
    var v := VoltageReferences(x, scenario, params).value;
    assert Saturation.IsSqrtAt(sqrt, Saturation.SquaredNorm(v.0, v.1));
    Saturation.WithinCircle(v.0, v.1, GetOr(params, "V_max", 1.0), sqrt);
  }

  /** run_step in closed form: the inputs, the algebraic point newton_raphson
      returns, f at that point, one Euler step of x, and the identity limits. */
  ghost function StepOutcome(dt: real, x: map<string, real>, y: map<string, real>, scenario: map<string, Value>,
                             params: map<string, real>, sqrt: Saturation.Sqrt)
    : (r: Result<(map<string, real>, map<string, real>)>)
    requires Saturation.IsSqrt(sqrt)
    ensures r.Ok? ==> r.value.0.Keys == x.Keys
  {
    var inputs :- ConverterInputs(x, scenario, params, sqrt);
    var yNext :- NrOnDae(x, params, inputs, y);
    var xDot :- FRhs(x, yNext, params, inputs);
    Ok(ApplyScenarioLimits(Euler(x, xDot, dt), yNext, scenario))
  }

  /** run_step(t, dt, x, y, scenario, params): the time t is never read and
      is not a parameter; math.sqrt is passed in as sqrt. */
  method RunStep(dt: real, x: map<string, real>, y: map<string, real>, scenario: map<string, Value>,
                 params: map<string, real>, sqrt: Saturation.Sqrt)
    returns (r: Result<(map<string, real>, map<string, real>)>)
    requires Saturation.IsSqrt(sqrt)
    ensures r == StepOutcome(dt, x, y, scenario, params, sqrt)
  {
    var inputs :- ConverterInputs(x, scenario, params, sqrt);
    var res, jac := ResidualOf(x, params, inputs), JacobianOf(x, params, inputs);
    var nr;
    ghost var ys, ds;
    nr, ys, ds := NewtonRaphson(y, res, jac);
    NrOnDaeClosedForm(x, params, inputs, y, ys, ds, nr);
    var solved :- nr;
    var yNext := solved.0;
    var xDot :- FRhs(x, yNext, params, inputs);
    var xNext := StepForward(x, xDot, dt);
    r := Ok(ApplyScenarioLimits(xNext, yNext, scenario));
  }

  /** A successful step keeps the state keys and the algebraic keys, and
      its algebraic point passes the Newton-Raphson convergence test for
      the step's inputs. */
  lemma StepConsistent(dt: real, x: map<string, real>, y: map<string, real>, scenario: map<string, Value>,
                       params: map<string, real>, sqrt: Saturation.Sqrt)
    requires Saturation.IsSqrt(sqrt)
    requires StepOutcome(dt, x, y, scenario, params, sqrt).Ok?
    ensures var inputs := ConverterInputs(x, scenario, params, sqrt).value;
            var next := StepOutcome(dt, x, y, scenario, params, sqrt).value;
            next.0.Keys == x.Keys && next.1.Keys == y.Keys
            && Converged(ResidualOf(x, params, inputs), next.1)
  {
    var inputs := ConverterInputs(x, scenario, params, sqrt).value;
    NrOnDaeConverges(x, params, inputs, y);
  }

  /** A step of length zero leaves the states where they were. */
  lemma StepZeroDt(x: map<string, real>, y: map<string, real>, scenario: map<string, Value>,
                   params: map<string, real>, sqrt: Saturation.Sqrt)
    requires Saturation.IsSqrt(sqrt)
    requires StepOutcome(0.0, x, y, scenario, params, sqrt).Ok?
    ensures StepOutcome(0.0, x, y, scenario, params, sqrt).value.0 == x
  {
    var inputs := ConverterInputs(x, scenario, params, sqrt).value;
    var yNext := NrOnDae(x, params, inputs, y).value;
    EulerZeroStep(x, FRhs(x, yNext, params, inputs).value);
  }
}
