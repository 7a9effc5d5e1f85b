// Explicit Euler on the dynamic states (src/vscsim/solver/integrator.py).

module Integrator {
  import opened Common

  /** x + dt * x_dot over the keys of x; a key missing from x_dot has
      derivative 0 and keys of x_dot outside x are never read. */
  function Euler(x: map<string, real>, xDot: map<string, real>, dt: real): (r: map<string, real>)
    ensures r.Keys == x.Keys
    ensures forall k :: k in x && k !in xDot ==> r[k] == x[k]
  {
    map k | k in x :: x[k] + dt * GetOr(xDot, k, 0.0)
  }

  /** step_forward: fills x_next key by key; x itself is not changed (Dafny
      maps are values).  Dict iteration order is not modelled: keys are
      visited in an arbitrary order, which cannot change the result. */
  method StepForward(x: map<string, real>, xDot: map<string, real>, dt: real) returns (xNext: map<string, real>)
    ensures xNext.Keys == x.Keys
    ensures xNext == Euler(x, xDot, dt)
  {
    xNext := map[];
    var rest := x.Keys;
    while rest != {}
      invariant rest <= x.Keys
      invariant xNext.Keys == x.Keys - rest
      invariant forall k :: k in xNext ==> xNext[k] == x[k] + dt * GetOr(xDot, k, 0.0)
      decreases rest
    {
      var key :| key in rest;
      var dxDt := GetOr(xDot, key, 0.0);
      xNext := xNext[key := x[key] + dt * dxDt];
      rest := rest - {key};
    }
    var spec := Euler(x, xDot, dt);
    forall k | k in x ensures xNext[k] == spec[k] {
    }
    assert xNext == spec;
  }

  /** A zero step reproduces x. */
  lemma EulerZeroStep(x: map<string, real>, xDot: map<string, real>)
    ensures Euler(x, xDot, 0.0) == x
  {
    assert Euler(x, xDot, 0.0).Keys == x.Keys;
  }

  /** A state with no derivative stays where it is; one with a derivative
      moves by dt times it. */
  lemma EulerPerKey(x: map<string, real>, xDot: map<string, real>, dt: real, k: string)
    requires k in x
    ensures k !in xDot ==> Euler(x, xDot, dt)[k] == x[k]
    ensures k in xDot ==> Euler(x, xDot, dt)[k] - x[k] == dt * xDot[k]
  {
  }

  /** Only the derivatives of keys of x are read: two derivative maps that
      agree there give the same step. */
  lemma EulerIgnoresExtraKeys(x: map<string, real>, d1: map<string, real>, d2: map<string, real>, dt: real)
    requires forall k :: k in x ==> (k in d1 <==> k in d2)
    requires forall k :: k in x && k in d1 ==> d1[k] == d2[k]
    ensures Euler(x, d1, dt) == Euler(x, d2, dt)
  {
    forall k | k in x ensures Euler(x, d1, dt)[k] == Euler(x, d2, dt)[k] {
      assert GetOr(d1, k, 0.0) == GetOr(d2, k, 0.0);
    }
  }
}
