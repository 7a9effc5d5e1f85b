// Saturation of the converter voltage references on the circle of radius
// V_max (src/vscsim/vsc/saturation.py).  math.sqrt is a parameter; the
// model needs it to be a square root only at the point where it is called.

module Saturation {

  /** math.sqrt, supplied by the caller. */
  type Sqrt = real -> real

  /** sqrt is a square root at v. */
  predicate IsSqrtAt(sqrt: Sqrt, v: real)
  {
    sqrt(v) >= 0.0 && sqrt(v) * sqrt(v) == v
  }

  /** sqrt is a square root on every non-negative real. */
  ghost predicate IsSqrt(sqrt: Sqrt)
  {
    forall v :: v >= 0.0 ==> IsSqrtAt(sqrt, v)
  }

  /** d^2 + q^2. */
  function SquaredNorm(d: real, q: real): (r: real)
    ensures r >= 0.0
  {
    d * d + q * q
  }

  /** x * y, kept as a function so that scaled components are matched as terms. */
  function Mul(x: real, y: real): real
  {
    x * y
  }

  /** (d, q) lies on or inside the circle of radius vMax. */
  predicate InsideCircle(d: real, q: real, vMax: real)
  {
    SquaredNorm(d, q) <= vMax * vMax
  }

  /** True when the reference is left as it is: inside the circle, or zero. */
  predicate WithinLimit(d: real, q: real, vMax: real)
  {
    SquaredNorm(d, q) <= vMax * vMax || SquaredNorm(d, q) == 0.0
  }

  /** The scale V_max / sqrt(d^2 + q^2) applied outside the circle. */
  function SaturationScale(d: real, q: real, vMax: real, sqrt: Sqrt): (s: real)
    requires IsSqrtAt(sqrt, SquaredNorm(d, q)) && SquaredNorm(d, q) != 0.0
  {
    assert sqrt(SquaredNorm(d, q)) != 0.0;
    vMax / sqrt(SquaredNorm(d, q))
  }

  /** apply_voltage_saturation(v_conv_d_ref, v_conv_q_ref, v_max). */
  function ApplyVoltageSaturation(d: real, q: real, vMax: real, sqrt: Sqrt): (r: (real, real))
    requires IsSqrtAt(sqrt, SquaredNorm(d, q))
    ensures WithinLimit(d, q, vMax) ==> r == (d, q)
    ensures d == 0.0 && q == 0.0 ==> r == (0.0, 0.0)
    ensures !WithinLimit(d, q, vMax) ==>
              var s := SaturationScale(d, q, vMax, sqrt);
              r == (Mul(d, s), Mul(q, s))
  {
    if WithinLimit(d, q, vMax) then (d, q)
    else
      var s := SaturationScale(d, q, vMax, sqrt);
      (Mul(d, s), Mul(q, s))
  }

  /** (d s)^2 + (q s)^2 = s^2 (d^2 + q^2). */
  lemma SquaredNormScaled(d: real, q: real, s: real)
    ensures SquaredNorm(Mul(d, s), Mul(q, s)) == s * s * SquaredNorm(d, q)
  {
  }

  /** s = V_max / r with r * r = n gives s^2 n = V_max^2. */
  lemma ScaleSquared(vMax: real, root: real, n: real)
    requires root != 0.0 && root * root == n
    ensures (vMax / root) * (vMax / root) * n == vMax * vMax
  {
    var s := vMax / root;
    assert s * root == vMax;
    calc {
      s * s * n;
      == s * s * (root * root);
      == (s * root) * (s * root);
      == vMax * vMax;
    }
  }

  /** Outside the circle the result lies exactly on it: d^2 + q^2 = V_max^2. */
  lemma SaturatedOnCircle(d: real, q: real, vMax: real, sqrt: Sqrt)
    requires IsSqrtAt(sqrt, SquaredNorm(d, q)) && !WithinLimit(d, q, vMax)
    ensures var r := ApplyVoltageSaturation(d, q, vMax, sqrt);
            SquaredNorm(r.0, r.1) == vMax * vMax
  {
    var n := SquaredNorm(d, q);
    var s := SaturationScale(d, q, vMax, sqrt);
    SquaredNormScaled(d, q, s);
    ScaleSquared(vMax, sqrt(n), n);
  }

  /** The result never lies outside the circle. */
  lemma WithinCircle(d: real, q: real, vMax: real, sqrt: Sqrt)
    requires IsSqrtAt(sqrt, SquaredNorm(d, q))
    ensures var r := ApplyVoltageSaturation(d, q, vMax, sqrt);
            InsideCircle(r.0, r.1, vMax)
  {
    if !WithinLimit(d, q, vMax) {
      SaturatedOnCircle(d, q, vMax, sqrt);
    }
  }

  /** For V_max > 0 a saturated reference is shrunk by a factor in (0, 1),
      so its direction is kept and its magnitude decreases. */
  lemma ScaleInUnitInterval(d: real, q: real, vMax: real, sqrt: Sqrt)
    requires IsSqrtAt(sqrt, SquaredNorm(d, q)) && !WithinLimit(d, q, vMax) && vMax > 0.0
    ensures 0.0 < SaturationScale(d, q, vMax, sqrt) < 1.0
    ensures var r := ApplyVoltageSaturation(d, q, vMax, sqrt);
            SquaredNorm(r.0, r.1) < SquaredNorm(d, q)
  {
    var n := SquaredNorm(d, q);
    var root := sqrt(n);
    assert root > 0.0;
    RootAboveLimit(vMax, root, n);
    var s := SaturationScale(d, q, vMax, sqrt);
    assert s == vMax / root;
    UnitRatio(vMax, root);
    SaturatedOnCircle(d, q, vMax, sqrt);
  }

  /** A root whose square is above V_max^2 is above V_max. */
  lemma RootAboveLimit(vMax: real, root: real, n: real)
    requires vMax > 0.0 && root > 0.0 && root * root == n && n > vMax * vMax
    ensures root > vMax
  {
  }

  lemma UnitRatio(a: real, b: real)
    requires 0.0 < a < b
    ensures 0.0 < a / b < 1.0
  {
    var r := a / b;
    assert r * b == a;
    if r >= 1.0 {
      assert false;
    }
  }

  /** Saturating a saturated reference changes nothing. */
  lemma Idempotent(d: real, q: real, vMax: real, sqrt: Sqrt)
    requires IsSqrtAt(sqrt, SquaredNorm(d, q))
    ensures var r := ApplyVoltageSaturation(d, q, vMax, sqrt);
            IsSqrtAt(sqrt, SquaredNorm(r.0, r.1)) ==> ApplyVoltageSaturation(r.0, r.1, vMax, sqrt) == r
  {
    WithinCircle(d, q, vMax, sqrt);
  }
}
