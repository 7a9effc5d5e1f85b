// The bounded Newton-Raphson loop that solves g(x, y) = 0 for y with x held
// fixed (src/vscsim/solver/nr.py).  The residual and Jacobian callbacks are
// parameters; x, params and inputs are constant during the loop, so each
// callback is a function of y alone.

module Nr {
  import opened Common
  import opened LinearSolve

  /** _DEFAULT_MAX_ITER: the loop runs at most this many iterations. */
  const MaxIter: nat := 20

  /** _DEFAULT_TOL: convergence needs a residual max-norm strictly below it. */
  const Tol: real := 0.00000001

  /** The keys a residual must return, as a set. */
  const AlgebraicKeySet: set<string> := {"Idc", "P_ac", "Q_ac"}

  type Residual = map<string, real> -> Result<map<string, real>>
  type JacobianFn = map<string, real> -> Result<Matrix>

  /** _max_norm: the largest |v[i]|, 0 for an empty vector. */
  function MaxNorm(v: seq<real>): (r: real)
    ensures r >= 0.0
    ensures forall i :: 0 <= i < |v| ==> Abs(v[i]) <= r
    ensures v != [] ==> exists i :: 0 <= i < |v| && r == Abs(v[i])
    ensures v == [] ==> r == 0.0
  {
    if v == [] then 0.0
    else
      var rest := MaxNorm(v[1..]);
      assert forall i :: 1 <= i < |v| ==> v[i] == v[1..][i - 1];
      if Abs(v[0]) >= rest then Abs(v[0]) else rest
  }

  /** The max-norm is zero exactly on the zero vector. */
  lemma MaxNormZero(v: seq<real>)
    ensures MaxNorm(v) == 0.0 <==> forall i :: 0 <= i < |v| ==> v[i] == 0.0
  {
    if MaxNorm(v) == 0.0 {
      forall i | 0 <= i < |v| ensures v[i] == 0.0 {
        assert Abs(v[i]) <= 0.0;
      }
    }
  }

  /** r_vec = [g[key] for key in keys]. */
  function ResidualVector(g: map<string, real>): (r: seq<real>)
    requires g.Keys == AlgebraicKeySet
    ensures |r| == 3 && forall i :: 0 <= i < 3 ==> r[i] == g[AlgebraicKeys[i]]
  {
    [g["Idc"], g["P_ac"], g["Q_ac"]]
  }

  function Negate(v: seq<real>): (r: seq<real>)
    ensures |r| == |v| && forall i :: 0 <= i < |v| ==> r[i] == -v[i]
  {
    seq(|v|, i requires 0 <= i < |v| => -v[i])
  }

  /** The first algebraic key missing from y. */
  function FirstAbsent(y: map<string, real>): (k: string)
    requires !HasKeys(y, AlgebraicKeys)
    ensures k in AlgebraicKeys && k !in y
  {
    if "Idc" !in y then "Idc" else if "P_ac" !in y then "P_ac" else "Q_ac"
  }

  /** The residual at y has the right keys and its max-norm is below Tol. */
  ghost predicate Converged(residual: Residual, y: map<string, real>)
  {
    residual(y).Ok? && residual(y).value.Keys == AlgebraicKeySet
    && MaxNorm(ResidualVector(residual(y).value)) < Tol
  }

  /** One full iteration from y: not converged, a non-singular 3x3 Jacobian
      J, J d = -r, and y2 = y + d. */
  ghost predicate NewtonStep(residual: Residual, jacobian: JacobianFn,
                             y: map<string, real>, d: seq<real>, y2: map<string, real>)
  {
    residual(y).Ok? && residual(y).value.Keys == AlgebraicKeySet
    && !(MaxNorm(ResidualVector(residual(y).value)) < Tol)
    && jacobian(y).Ok? && Is3x3(jacobian(y).value) && !Singular(jacobian(y).value)
    && |d| == 3 && Solves(jacobian(y).value, d, Negate(ResidualVector(residual(y).value)))
    && HasKeys(y, AlgebraicKeys) && y2 == ShiftY(y, d)
  }

  /** The iteration at y raises e: the residual's own error, a key-set
      mismatch, the Jacobian's own error, a non-3x3 Jacobian, a singular
      Jacobian (ValueError), or, only for a non-singular one, a missing
      algebraic key in y. */
  ghost predicate FailsAt(residual: Residual, jacobian: JacobianFn, y: map<string, real>, e: Error)
  {
    match residual(y)
    case Err(e0) => e == e0
    case Ok(g) =>
      if g.Keys != AlgebraicKeySet then e == ValueError
      else if MaxNorm(ResidualVector(g)) < Tol then false
      else
        match jacobian(y)
        case Err(e1) => e == e1
        case Ok(jac) =>
          if !Is3x3(jac) then e == ValueError
          else if Singular(jac) then e == ValueError
          else !HasKeys(y, AlgebraicKeys) && e == KeyError(FirstAbsent(y))
  }

  /** Every recorded iteration of a trace is a Newton step. */
  ghost predicate Steps(residual: Residual, jacobian: JacobianFn,
                        ys: seq<map<string, real>>, ds: seq<seq<real>>)
    requires |ys| == |ds| + 1
  {
    forall m :: 0 <= m < |ds| ==> NewtonStep(residual, jacobian, ys[m], ds[m], ys[m + 1])
  }

  /** A trace of Newton steps extended by one more step is one. */
  lemma StepsSnoc(residual: Residual, jacobian: JacobianFn,
                  ys: seq<map<string, real>>, ds: seq<seq<real>>, d: seq<real>, y2: map<string, real>)
    requires |ys| == |ds| + 1 && Steps(residual, jacobian, ys, ds)
    requires NewtonStep(residual, jacobian, ys[|ds|], d, y2)
    ensures Steps(residual, jacobian, ys + [y2], ds + [d])
  {
    var ys2, ds2 := ys + [y2], ds + [d];
    forall m | 0 <= m < |ds2| ensures NewtonStep(residual, jacobian, ys2[m], ds2[m], ys2[m + 1]) {
      if m < |ds| {
        assert ys2[m] == ys[m] && ys2[m + 1] == ys[m + 1] && ds2[m] == ds[m];
      }
    }
  }

  /** The run of newton_raphson from y0 as a trace ys (ys[0] = y0) with the
      corrections ds: every recorded iteration is a Newton step; a result
      below MaxIter iterations is converged; an error is raised by the
      iteration at the last point. */
  ghost predicate NrOutcome(y0: map<string, real>, residual: Residual, jacobian: JacobianFn,
                            ys: seq<map<string, real>>, ds: seq<seq<real>>,
                            r: Result<(map<string, real>, nat)>)
  {
    |ys| == |ds| + 1 && ys[0] == y0 && |ds| <= MaxIter
    && Steps(residual, jacobian, ys, ds)
    && (r.Ok? ==> r.value == (ys[|ds|], |ds|) && (|ds| < MaxIter ==> Converged(residual, ys[|ds|])))
    && (r.Err? ==> |ds| < MaxIter && FailsAt(residual, jacobian, ys[|ds|], r.error))
  }

  /** Once an iterate is converged the loop stops there: it is the result
      and its index is the iteration count. */
  lemma StopsWhenConverged(y0: map<string, real>, residual: Residual, jacobian: JacobianFn,
                           ys: seq<map<string, real>>, ds: seq<seq<real>>,
                           r: Result<(map<string, real>, nat)>, m: nat)
    requires NrOutcome(y0, residual, jacobian, ys, ds, r)
    requires m <= |ds| && Converged(residual, ys[m])
    ensures m == |ds| && r == Ok((ys[m], m))
  {
    assert m < |ds| ==> NewtonStep(residual, jacobian, ys[m], ds[m], ys[m + 1]);
    assert forall e :: !FailsAt(residual, jacobian, ys[m], e);
  }

  /** An unconverged iterate from which the iteration cannot raise, reached
      before MaxIter, is always followed by another Newton step. */
  lemma ContinuesWhenNoFailure(y0: map<string, real>, residual: Residual, jacobian: JacobianFn,
                               ys: seq<map<string, real>>, ds: seq<seq<real>>,
                               r: Result<(map<string, real>, nat)>, m: nat)
    requires NrOutcome(y0, residual, jacobian, ys, ds, r)
    requires m <= |ds| && m < MaxIter && !Converged(residual, ys[m])
    requires forall e :: !FailsAt(residual, jacobian, ys[m], e)
    ensures m < |ds|
  {
  }

  /** `for i, key in enumerate(keys): y[key] = y[key] + delta[i]`; the first
      algebraic key missing from y raises KeyError. */
  method AddCorrection(y: map<string, real>, delta: seq<real>) returns (r: Result<map<string, real>>)
    requires |delta| == 3
    ensures HasKeys(y, AlgebraicKeys) ==> r == Ok(ShiftY(y, delta))
    ensures !HasKeys(y, AlgebraicKeys) ==> r == Err(KeyError(FirstAbsent(y)))
  {
    var y2 := y;
    var i := 0;
    while i < 3
      invariant 0 <= i <= 3 && y2.Keys == y.Keys
      invariant forall m :: 0 <= m < i ==> AlgebraicKeys[m] in y
      invariant forall m :: 0 <= m < i ==> y2[AlgebraicKeys[m]] == y[AlgebraicKeys[m]] + delta[m]
      invariant forall k :: k in y && k !in AlgebraicKeys[..i] ==> y2[k] == y[k]
    {
      var key := AlgebraicKeys[i];
      if key !in y2 {
        return Err(KeyError(key));
      }
      y2 := y2[key := y2[key] + delta[i]];
      i := i + 1;
    }
    assert AlgebraicKeys[..3] == AlgebraicKeys;
    var s := ShiftY(y, delta);
    forall k | k in y2 ensures y2[k] == s[k] {
      if k in AlgebraicKeys {
        assert k == AlgebraicKeys[0] || k == AlgebraicKeys[1] || k == AlgebraicKeys[2];
      }
    }
    assert y2 == s;
    return Ok(y2);
  }

  /** How one iteration of the loop ends. */
  datatype IterationEnd = ConvergedHere | Raised(error: Error) | Corrected

  /** One pass of the loop body at y: the convergence test, the Jacobian
      solve and the correction. */
  method Iterate(y: map<string, real>, residual: Residual, jacobian: JacobianFn)
    returns (status: IterationEnd, y2: map<string, real>, ghost d: seq<real>)
    ensures status == ConvergedHere <==> Converged(residual, y)
    ensures status.Raised? ==> FailsAt(residual, jacobian, y, status.error)
    ensures status == Corrected ==> NewtonStep(residual, jacobian, y, d, y2)
  {
    y2, d := y, [];
    var gr := residual(y);
    if gr.Err? {
      return Raised(gr.error), y2, d;
    }
    var g := gr.value;
    if g.Keys != AlgebraicKeySet {
      return Raised(ValueError), y2, d;
    }
    var rVec := ResidualVector(g);
    var normR := MaxNorm(rVec);
    if normR < Tol {
      return ConvergedHere, y2, d;
    }
    var jr := jacobian(y);
    if jr.Err? {
      return Raised(jr.error), y2, d;
    }
    var jac := jr.value;
    if !Is3x3(jac) {
      return Raised(ValueError), y2, d;
    }
    var rhs := Negate(rVec);
    var sol := SolveLinearSystem(jac, rhs);
    if sol.Err? {
      return Raised(sol.error), y2, d;
    }
    var delta := sol.value;
    var next := AddCorrection(y, delta);
    if next.Err? {
      return Raised(next.error), y2, d;
    }
    return Corrected, next.value, delta;
  }

  /** newton_raphson(x, y0, residual, jacobian): y0 is copied, never changed;
      the count is the number of corrections applied, at most MaxIter; after
      MaxIter unconverged iterations the last y is returned without error. */
  method NewtonRaphson(y0: map<string, real>, residual: Residual, jacobian: JacobianFn)
    returns (r: Result<(map<string, real>, nat)>, ghost ys: seq<map<string, real>>, ghost ds: seq<seq<real>>)
    ensures NrOutcome(y0, residual, jacobian, ys, ds, r)
    ensures r.Ok? ==> r.value.1 <= MaxIter
  {
    var y := y0;
    ys, ds := [y0], [];
    var k := 0;
    while k < MaxIter
      invariant 0 <= k <= MaxIter && |ds| == k && |ys| == k + 1 && ys[0] == y0 && ys[k] == y
      invariant Steps(residual, jacobian, ys, ds)
    {
      var status, next, delta := Iterate(y, residual, jacobian);
      if status == ConvergedHere {
        return Ok((y, k)), ys, ds;
      } else if status.Raised? {
        return Err(status.error), ys, ds;
      }
      StepsSnoc(residual, jacobian, ys, ds, delta, next);
      y := next;
      ys, ds := ys + [y], ds + [delta];
      k := k + 1;
    }
    return Ok((y, k)), ys, ds;
  }
}
