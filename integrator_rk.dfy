// Runge-Kutta integrators RK1, RK2 and RK4 over a key -> value state
// (src/vscsim/solver/integrator_rk.py).  The derivative function f is a
// parameter; its context argument is fixed during a step and folded into f.
// The debug logging of the stage norms has no numeric effect and is left out.

module IntegratorRk {
  import opened Common
  import opened Integrator

  /** f(state, context) with the context fixed. */
  type Rhs = map<string, real> -> map<string, real>

  /** _dict_norm: the infinity norm of a numeric dict, 0 when it is empty.
      The values are visited in an arbitrary order. */
  method DictNorm(d: map<string, real>) returns (r: real)
    ensures r >= 0.0
    ensures forall k :: k in d ==> Abs(d[k]) <= r
    ensures d != map[] ==> exists k :: k in d && r == Abs(d[k])
    ensures d == map[] ==> r == 0.0
  {
    r := 0.0;
    var rest := d.Keys;
    while rest != {}
      invariant rest <= d.Keys && r >= 0.0
      invariant forall k :: k in d && k !in rest ==> Abs(d[k]) <= r
      invariant rest == d.Keys ==> r == 0.0
      invariant rest != d.Keys ==> exists k :: k in d && k !in rest && r == Abs(d[k])
      decreases rest
    {
      var key :| key in rest;
      if rest == d.Keys || Abs(d[key]) > r {
        r := Abs(d[key]);
      }
      rest := rest - {key};
    }
    if d != map[] {
      var k :| k in d;
    }
  }

  /** One value moved by c along the derivative d. */
  function Stage(v: real, c: real, d: real): real
  {
    v + c * d
  }

  /** state + c * k over the keys of state. */
  function Advance(state: map<string, real>, k: map<string, real>, c: real): map<string, real>
    requires state.Keys <= k.Keys
  {
    map key | key in state :: Stage(state[key], c, k[key])
  }

  lemma AdvanceAt(state: map<string, real>, d: map<string, real>, c: real, key: string)
    requires state.Keys <= d.Keys && key in state
    ensures key in Advance(state, d, c) && Advance(state, d, c)[key] == Stage(state[key], c, d[key])
  {
  }

  /** The RK4 update of one value. */
  function Rk4Value(v: real, d1: real, d2: real, d3: real, d4: real, dt: real): real
  {
    v + (dt / 6.0) * (d1 + 2.0 * d2 + 2.0 * d3 + d4)
  }

  /** The RK4 combination state + dt/6 (k1 + 2 k2 + 2 k3 + k4). */
  function Combine(state: map<string, real>, k1: map<string, real>, k2: map<string, real>,
                   k3: map<string, real>, k4: map<string, real>, dt: real): map<string, real>
    requires state.Keys <= k1.Keys && state.Keys <= k2.Keys && state.Keys <= k3.Keys && state.Keys <= k4.Keys
  {
    map key | key in state :: Rk4Value(state[key], k1[key], k2[key], k3[key], k4[key], dt)
  }

  lemma CombineAt(state: map<string, real>, k1: map<string, real>, k2: map<string, real>,
                  k3: map<string, real>, k4: map<string, real>, dt: real, key: string)
    requires state.Keys <= k1.Keys && state.Keys <= k2.Keys && state.Keys <= k3.Keys && state.Keys <= k4.Keys
    requires key in state
    ensures Combine(state, k1, k2, k3, k4, dt)[key] == Rk4Value(state[key], k1[key], k2[key], k3[key], k4[key], dt)
  {
  }

  /** One RK1 step, None when k1 lacks a state key. */
  function Rk1(f: Rhs, state: map<string, real>, dt: real): (r: Option<map<string, real>>)
    ensures r.Some? <==> state.Keys <= f(state).Keys
    ensures r.Some? ==> r.value.Keys == state.Keys
  {
    var k1 := f(state);
    if state.Keys <= k1.Keys then Some(Advance(state, k1, dt)) else None
  }

  /** One RK2 (midpoint) step, None when k1 or k2 lacks a state key. */
  function Rk2(f: Rhs, state: map<string, real>, dt: real): (r: Option<map<string, real>>)
    ensures r.Some? ==> state.Keys <= f(state).Keys && r.value.Keys == state.Keys
  {
    var k1 := f(state);
    if !(state.Keys <= k1.Keys) then None
    else
      var k2 := f(Advance(state, k1, 0.5 * dt));
      if !(state.Keys <= k2.Keys) then None
      else Some(Advance(state, k2, dt))
  }

  /** One classical RK4 step, None when a stage derivative lacks a state key. */
  function Rk4(f: Rhs, state: map<string, real>, dt: real): (r: Option<map<string, real>>)
    ensures r.Some? ==> state.Keys <= f(state).Keys && r.value.Keys == state.Keys
  {
    var k1 := f(state);
    if !(state.Keys <= k1.Keys) then None
    else
      var k2 := f(Advance(state, k1, 0.5 * dt));
      if !(state.Keys <= k2.Keys) then None
      else
        var k3 := f(Advance(state, k2, 0.5 * dt));
        if !(state.Keys <= k3.Keys) then None
        else
          var k4 := f(Advance(state, k3, dt));
          if !(state.Keys <= k4.Keys) then None
          else Some(Combine(state, k1, k2, k3, k4, dt))
  }

  /** The stage loop `new[key] = value + c * k[key]`; the first state key
      missing from k raises KeyError. */
  method AddScaled(state: map<string, real>, k: map<string, real>, c: real) returns (r: Result<map<string, real>>)
    ensures state.Keys <= k.Keys ==> r == Ok(Advance(state, k, c))
    ensures !(state.Keys <= k.Keys) ==> r.Err? && r.error.KeyError? && r.error.key in state && r.error.key !in k
  {
    var next: map<string, real> := map[];
    var rest := state.Keys;
    while rest != {}
      invariant rest <= state.Keys
      invariant next.Keys == state.Keys - rest && next.Keys <= k.Keys
      invariant forall key :: key in next ==> next[key] == Stage(state[key], c, k[key])
      decreases rest
    {
      var key :| key in rest;
      if key !in k {
        return Err(KeyError(key));
      }
      next := next[key := Stage(state[key], c, k[key])];
      rest := rest - {key};
    }
    var spec := Advance(state, k, c);
    forall key | key in state ensures next[key] == spec[key] {
      AdvanceAt(state, k, c, key);
    }
    assert next == spec;
    return Ok(next);
  }

  /** RK1Integrator.step: f is called once, on the state. */
  method Rk1Step(f: Rhs, state: map<string, real>, dt: real)
    returns (r: Result<map<string, real>>, ghost evals: seq<map<string, real>>)
    ensures evals == [state]
    ensures r.Ok? <==> Rk1(f, state, dt).Some?
    ensures r.Ok? ==> r.value == Rk1(f, state, dt).value
    ensures r.Err? ==> r.error.KeyError? && r.error.key in state && r.error.key !in f(state)
  {
    var k1 := f(state);
    evals := [state];
    r := AddScaled(state, k1, dt);
  }

  /** RK2Integrator.step: f is called twice, on the state and on the midpoint. */
  method Rk2Step(f: Rhs, state: map<string, real>, dt: real)
    returns (r: Result<map<string, real>>, ghost evals: seq<map<string, real>>)
    ensures r.Ok? <==> Rk2(f, state, dt).Some?
    ensures r.Ok? ==> r.value == Rk2(f, state, dt).value
    ensures r.Ok? ==> evals == [state, Advance(state, f(state), 0.5 * dt)]
    ensures r.Err? ==> r.error.KeyError? && r.error.key in state
  {
    var k1 := f(state);
    evals := [state];
    var mid := AddScaled(state, k1, 0.5 * dt);
    if mid.Err? {
      return mid, evals;
    }
    var k2 := f(mid.value);
    evals := evals + [mid.value];
    r := AddScaled(state, k2, dt);
  }

  /** The final RK4 loop: every state key needs all four derivatives. */
  method CombineStages(state: map<string, real>, k1: map<string, real>, k2: map<string, real>,
                       k3: map<string, real>, k4: map<string, real>, dt: real)
    returns (r: Result<map<string, real>>)
    ensures (state.Keys <= k1.Keys && state.Keys <= k2.Keys && state.Keys <= k3.Keys && state.Keys <= k4.Keys)
            ==> r == Ok(Combine(state, k1, k2, k3, k4, dt))
    ensures !(state.Keys <= k1.Keys && state.Keys <= k2.Keys && state.Keys <= k3.Keys && state.Keys <= k4.Keys)
            ==> r.Err? && r.error.KeyError? && r.error.key in state
  {
    var next: map<string, real> := map[];
    var rest := state.Keys;
    while rest != {}
      invariant rest <= state.Keys
      invariant next.Keys == state.Keys - rest
      invariant next.Keys <= k1.Keys && next.Keys <= k2.Keys && next.Keys <= k3.Keys && next.Keys <= k4.Keys
      invariant forall key :: key in next ==> next[key] == Rk4Value(state[key], k1[key], k2[key], k3[key], k4[key], dt)
      decreases rest
    {
      var key :| key in rest;
      if key !in k1 || key !in k2 || key !in k3 || key !in k4 {
        return Err(KeyError(key));
      }
      next := next[key := Rk4Value(state[key], k1[key], k2[key], k3[key], k4[key], dt)];
      rest := rest - {key};
    }
    var spec := Combine(state, k1, k2, k3, k4, dt);
    forall key | key in state ensures next[key] == spec[key] {
      CombineAt(state, k1, k2, k3, k4, dt, key);
    }
    assert next == spec;
    return Ok(next);
  }

  /** RK4Integrator.step: f is called four times, on the state and on the
      three stage states at dt/2, dt/2 and dt. */
  method Rk4Step(f: Rhs, state: map<string, real>, dt: real)
    returns (r: Result<map<string, real>>, ghost evals: seq<map<string, real>>)
    ensures r.Ok? <==> Rk4(f, state, dt).Some?
    ensures r.Ok? ==> r.value == Rk4(f, state, dt).value
    ensures r.Ok? ==> |evals| == 4 && evals[0] == state
                      && evals[1] == Advance(state, f(evals[0]), 0.5 * dt)
                      && evals[2] == Advance(state, f(evals[1]), 0.5 * dt)
                      && evals[3] == Advance(state, f(evals[2]), dt)
    ensures r.Err? ==> r.error.KeyError? && r.error.key in state
  {
    var k1 := f(state);
    evals := [state];
    var s2 := AddScaled(state, k1, 0.5 * dt);
    if s2.Err? {
      return s2, evals;
    }
    var k2 := f(s2.value);
    evals := evals + [s2.value];
    var s3 := AddScaled(state, k2, 0.5 * dt);
    if s3.Err? {
      return s3, evals;
    }
    var k3 := f(s3.value);
    evals := evals + [s3.value];
    var s4 := AddScaled(state, k3, dt);
    if s4.Err? {
      return s4, evals;
    }
    var k4 := f(s4.value);
    evals := evals + [s4.value];
    r := CombineStages(state, k1, k2, k3, k4, dt);
  }

  // ---------------------------------------------------------------------
  // Properties of the schemes
  // ---------------------------------------------------------------------

  /** RK1 is step_forward with x_dot = f(x) whenever it does not raise. */
  lemma Rk1IsEuler(f: Rhs, state: map<string, real>, dt: real)
    requires state.Keys <= f(state).Keys
    ensures Rk1(f, state, dt) == Some(Euler(state, f(state), dt))
  {
    var k1 := f(state);
    var lhs, rhs := Advance(state, k1, dt), Euler(state, k1, dt);
    forall k | k in state ensures lhs[k] == rhs[k] {
      AdvanceAt(state, k1, dt, k);
      assert GetOr(k1, k, 0.0) == k1[k];
    }
    assert lhs == rhs;
  }

  /** A zero step leaves every key where it was, for all three schemes. */
  lemma ZeroStep(f: Rhs, state: map<string, real>)
    ensures Rk1(f, state, 0.0).Some? ==> Rk1(f, state, 0.0).value == state
    ensures Rk2(f, state, 0.0).Some? ==> Rk2(f, state, 0.0).value == state
    ensures Rk4(f, state, 0.0).Some? ==> Rk4(f, state, 0.0).value == state
  {
    if Rk1(f, state, 0.0).Some? {
      assert Rk1(f, state, 0.0).value.Keys == state.Keys;
    }
    if Rk2(f, state, 0.0).Some? {
      assert Rk2(f, state, 0.0).value.Keys == state.Keys;
    }
    if Rk4(f, state, 0.0).Some? {
      assert Rk4(f, state, 0.0).value.Keys == state.Keys;
    }
  }

  /** x * y, kept as a function so that products of the per-key proofs are
      matched as terms. */
  function Mul(x: real, y: real): real
  {
    x * y
  }

  /** Every state scaled by the same factor g. */
  function Scaled(state: map<string, real>, g: real): map<string, real>
  {
    map k | k in state :: Mul(state[k], g)
  }

  /** f(x) = a x, component by component. */
  function Linear(a: real): Rhs
  {
    s => Scaled(s, a)
  }

  /** RK1's growth factor 1 + h for f = a x and h = a dt. */
  function Rk1Gain(h: real): real
  {
    1.0 + h
  }

  /** RK2's growth factor 1 + h + h^2/2. */
  function Rk2Gain(h: real): real
  {
    1.0 + h + h * h / 2.0
  }

  /** RK4's growth factor 1 + h + h^2/2 + h^3/6 + h^4/24. */
  function Rk4Gain(h: real): real
  {
    1.0 + h + h * h / 2.0 + h * h * h / 6.0 + h * h * h * h / 24.0
  }

  lemma ScaledAt(state: map<string, real>, g: real, k: string)
    requires k in state
    ensures k in Scaled(state, g) && Scaled(state, g)[k] == Mul(state[k], g)
  {
  }

  lemma ScaledTwice(state: map<string, real>, g: real, m: real)
    ensures Scaled(Scaled(state, g), m) == Scaled(state, Mul(g, m))
  {
    var lhs, rhs := Scaled(Scaled(state, g), m), Scaled(state, Mul(g, m));
    forall k | k in state ensures lhs[k] == rhs[k] {
      ScaledAt(state, g, k);
      ScaledAt(Scaled(state, g), m, k);
      ScaledAt(state, Mul(g, m), k);
      MulAssoc(state[k], g, m);
    }
  }

  lemma MulAssoc(v: real, g: real, m: real)
    ensures Mul(Mul(v, g), m) == Mul(v, Mul(g, m))
  {
  }

  /** A stage on a scaled value is the value scaled by the stage on 1. */
  lemma StageHomogeneous(v: real, c: real, m: real)
    ensures Stage(v, c, Mul(v, m)) == Mul(v, Stage(1.0, c, m))
  {
  }

  /** A stage from the state scaled by g, for f = a x, lands on the state
      scaled by 1 + c g a. */
  lemma StageLinear(state: map<string, real>, a: real, g: real, c: real)
    ensures Advance(state, Linear(a)(Scaled(state, g)), c) == Scaled(state, Stage(1.0, c, Mul(g, a)))
  {
    ScaledTwice(state, g, a);
    var k := Scaled(state, Mul(g, a));
    assert Linear(a)(Scaled(state, g)) == k;
    var lhs, rhs := Advance(state, k, c), Scaled(state, Stage(1.0, c, Mul(g, a)));
    forall key | key in state ensures lhs[key] == rhs[key] {
      AdvanceAt(state, k, c, key);
      ScaledAt(state, Mul(g, a), key);
      ScaledAt(state, Stage(1.0, c, Mul(g, a)), key);
      StageHomogeneous(state[key], c, Mul(g, a));
    }
  }

  /** The first stage, from the state itself. */
  lemma FirstStageLinear(state: map<string, real>, a: real, c: real)
    ensures Advance(state, Linear(a)(state), c) == Scaled(state, Stage(1.0, c, a))
  {
    var k := Scaled(state, a);
    assert Linear(a)(state) == k;
    var lhs, rhs := Advance(state, k, c), Scaled(state, Stage(1.0, c, a));
    forall key | key in state ensures lhs[key] == rhs[key] {
      AdvanceAt(state, k, c, key);
      ScaledAt(state, a, key);
      ScaledAt(state, Stage(1.0, c, a), key);
      StageHomogeneous(state[key], c, a);
    }
  }

  /** The RK4 update is homogeneous in the state value. */
  lemma Rk4ValueHomogeneous(v: real, m1: real, m2: real, m3: real, m4: real, dt: real)
    ensures Rk4Value(v, Mul(v, m1), Mul(v, m2), Mul(v, m3), Mul(v, m4), dt)
            == Mul(v, Rk4Value(1.0, m1, m2, m3, m4, dt))
  {
    var sum := m1 + 2.0 * m2 + 2.0 * m3 + m4;
    assert v * m1 + 2.0 * (v * m2) + 2.0 * (v * m3) + v * m4 == v * sum;
    assert (dt / 6.0) * (v * sum) == v * ((dt / 6.0) * sum);
  }

  lemma CombineScaled(state: map<string, real>, m1: real, m2: real, m3: real, m4: real, dt: real)
    ensures Combine(state, Scaled(state, m1), Scaled(state, m2), Scaled(state, m3), Scaled(state, m4), dt)
            == Scaled(state, Rk4Value(1.0, m1, m2, m3, m4, dt))
  {
    var lhs := Combine(state, Scaled(state, m1), Scaled(state, m2), Scaled(state, m3), Scaled(state, m4), dt);
    var rhs := Scaled(state, Rk4Value(1.0, m1, m2, m3, m4, dt));
    forall k | k in state ensures lhs[k] == rhs[k] {
      CombineAt(state, Scaled(state, m1), Scaled(state, m2), Scaled(state, m3), Scaled(state, m4), dt, k);
      ScaledAt(state, m1, k);
      ScaledAt(state, m2, k);
      ScaledAt(state, m3, k);
      ScaledAt(state, m4, k);
      ScaledAt(state, Rk4Value(1.0, m1, m2, m3, m4, dt), k);
      Rk4ValueHomogeneous(state[k], m1, m2, m3, m4, dt);
    }
  }

  /** For f = a x and h = a dt, RK1 multiplies every state by 1 + h. */
  lemma Rk1Linear(state: map<string, real>, a: real, dt: real)
    ensures Rk1(Linear(a), state, dt) == Some(Scaled(state, Rk1Gain(a * dt)))
  {
    FirstStageLinear(state, a, dt);
    assert Stage(1.0, dt, a) == Rk1Gain(a * dt);
  }

  lemma Rk2GainIs(a: real, dt: real)
    ensures Stage(1.0, dt, Mul(Stage(1.0, 0.5 * dt, a), a)) == Rk2Gain(a * dt)
  {
  }

  /** For f = a x and h = a dt, RK2 multiplies every state by 1 + h + h^2/2. */
  lemma Rk2Linear(state: map<string, real>, a: real, dt: real)
    ensures Rk2(Linear(a), state, dt) == Some(Scaled(state, Rk2Gain(a * dt)))
  {
    var g1 := Stage(1.0, 0.5 * dt, a);
    FirstStageLinear(state, a, 0.5 * dt);
    StageLinear(state, a, g1, dt);
    Rk2GainIs(a, dt);
  }

  lemma Rk4GainIs(a: real, dt: real, g2: real, g3: real, g4: real)
    requires g2 == Stage(1.0, 0.5 * dt, a)
    requires g3 == Stage(1.0, 0.5 * dt, Mul(g2, a))
    requires g4 == Stage(1.0, dt, Mul(g3, a))
    ensures Rk4Value(1.0, a, Mul(g2, a), Mul(g3, a), Mul(g4, a), dt) == Rk4Gain(a * dt)
  {
    var h := a * dt;
    assert g2 == 1.0 + h / 2.0;
    assert g3 == 1.0 + h / 2.0 + h * h / 4.0;
    assert g4 == 1.0 + h + h * h / 2.0 + h * h * h / 4.0;
  }

  /** The stage derivatives of f = a x from the state scaled by g. */
  lemma LinearAtScaled(state: map<string, real>, a: real, g: real)
    ensures Linear(a)(Scaled(state, g)) == Scaled(state, Mul(g, a))
  {
    ScaledTwice(state, g, a);
  }

  /** Rk4 read off from the four stage derivatives. */
  lemma Rk4FromStages(f: Rhs, state: map<string, real>, dt: real,
                      k1: map<string, real>, k2: map<string, real>, k3: map<string, real>, k4: map<string, real>)
    requires state.Keys <= k1.Keys && state.Keys <= k2.Keys && state.Keys <= k3.Keys && state.Keys <= k4.Keys
    requires k1 == f(state)
    requires k2 == f(Advance(state, k1, 0.5 * dt))
    requires k3 == f(Advance(state, k2, 0.5 * dt))
    requires k4 == f(Advance(state, k3, dt))
    ensures Rk4(f, state, dt) == Some(Combine(state, k1, k2, k3, k4, dt))
  {
  }

  /** For f = a x and h = a dt, RK4 multiplies every state by
      1 + h + h^2/2 + h^3/6 + h^4/24. */
  lemma Rk4Linear(state: map<string, real>, a: real, dt: real)
    ensures Rk4(Linear(a), state, dt) == Some(Scaled(state, Rk4Gain(a * dt)))
  {
    var g2 := Stage(1.0, 0.5 * dt, a);
    var g3 := Stage(1.0, 0.5 * dt, Mul(g2, a));
    var g4 := Stage(1.0, dt, Mul(g3, a));
    var k1, k2 := Scaled(state, a), Scaled(state, Mul(g2, a));
    var k3, k4 := Scaled(state, Mul(g3, a)), Scaled(state, Mul(g4, a));
    assert Linear(a)(state) == k1;
    FirstStageLinear(state, a, 0.5 * dt);
    LinearAtScaled(state, a, g2);
    StageLinear(state, a, g2, 0.5 * dt);
    LinearAtScaled(state, a, g3);
    StageLinear(state, a, g3, dt);
    LinearAtScaled(state, a, g4);
    Rk4FromStages(Linear(a), state, dt, k1, k2, k3, k4);
    CombineScaled(state, a, Mul(g2, a), Mul(g3, a), Mul(g4, a), dt);
    Rk4GainIs(a, dt, g2, g3, g4);
  }
}
