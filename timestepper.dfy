// The adaptive step-size rule (src/vscsim/solver/timestepper.py).  The
// fractional power ratio ** (1 / order) is a parameter: the model holds for
// any power function, and the lemmas that need its values take them as
// hypotheses.

module Timestepper {
  import opened Common

  /** x ** y, supplied by the caller. */
  type Pow = (real, real) -> real

  /** Bounds on tol / error before the power is taken. */
  const RatioMin: real := 0.000000000001
  const RatioMax: real := 1000000000000.0

  function Min(a: real, b: real): real
  {
    if a <= b then a else b
  }

  function Max(a: real, b: real): real
  {
    if a >= b then a else b
  }

  /** max(lo, min(hi, v)): the expression of clamp_dt and of the factor clamp. */
  function Clamp(v: real, lo: real, hi: real): (r: real)
    ensures r == lo || r == hi || r == v
    ensures r >= lo
    ensures lo <= hi ==> r <= hi
  {
    Max(lo, Min(hi, v))
  }

  /** Inside the bounds the clamp is the identity. */
  lemma ClampInside(v: real, lo: real, hi: real)
    requires lo <= v <= hi
    ensures Clamp(v, lo, hi) == v
  {
  }

  /** Clamping twice is clamping once. */
  lemma ClampIdempotent(v: real, lo: real, hi: real)
    ensures Clamp(Clamp(v, lo, hi), lo, hi) == Clamp(v, lo, hi)
  {
  }

  /** Clamping is monotone in the value. */
  lemma ClampMonotone(u: real, v: real, lo: real, hi: real)
    requires u <= v
    ensures Clamp(u, lo, hi) <= Clamp(v, lo, hi)
  {
  }

  /** The factor of update before its own clamp: growth_factor_max for a
      zero error, otherwise safety * ratio ** (1 / order) with the ratio
      tol / error clamped to [RatioMin, RatioMax]; 1 / order divides by
      zero when order is 0. */
  function RawFactor(error: real, tol: real, safety: real, growthFactorMax: real, order: real, pow: Pow): (r: Result<real>)
    requires error >= 0.0 && tol > 0.0
    ensures r.Err? <==> error != 0.0 && order == 0.0
    ensures r.Err? ==> r.error == ZeroDivisionError
  {
    if error == 0.0 then Ok(growthFactorMax)
    else if order == 0.0 then Err(ZeroDivisionError)
    else Ok(safety * pow(Clamp(tol / error, RatioMin, RatioMax), 1.0 / order))
  }

  /** The factor dt is multiplied by, clamped to [shrink_factor_min, growth_factor_max]. */
  function Factor(error: real, tol: real, safety: real, shrinkFactorMin: real,
                  growthFactorMax: real, order: real, pow: Pow): (r: Result<real>)
    requires error >= 0.0 && tol > 0.0
    ensures r.Err? <==> error != 0.0 && order == 0.0
    ensures r.Ok? ==> r.value >= shrinkFactorMin
    ensures r.Ok? && shrinkFactorMin <= growthFactorMax ==> r.value <= growthFactorMax
    ensures error == 0.0 && shrinkFactorMin <= growthFactorMax ==> r == Ok(growthFactorMax)
  {
    var raw :- RawFactor(error, tol, safety, growthFactorMax, order, pow);
    Ok(Clamp(raw, shrinkFactorMin, growthFactorMax))
  }

  /** dt * factor. */
  function Scale(dt: real, factor: real): real
  {
    dt * factor
  }

  /** The dt after one update: dt * factor, clamped to [dt_min, dt_max]. */
  function NextDt(dt: real, factor: real, dtMin: real, dtMax: real): (r: real)
    ensures dtMin <= dtMax ==> dtMin <= r <= dtMax
  {
    Clamp(Scale(dt, factor), dtMin, dtMax)
  }

  /** A raw factor at or above the growth limit saturates there. */
  lemma FactorSaturatesHigh(error: real, tol: real, safety: real, shrinkFactorMin: real,
                            growthFactorMax: real, order: real, pow: Pow)
    requires error > 0.0 && tol > 0.0 && order != 0.0 && shrinkFactorMin <= growthFactorMax
    requires safety * pow(Clamp(tol / error, RatioMin, RatioMax), 1.0 / order) >= growthFactorMax
    ensures Factor(error, tol, safety, shrinkFactorMin, growthFactorMax, order, pow) == Ok(growthFactorMax)
  {
  }

  /** A raw factor at or below the shrink limit saturates there. */
  lemma FactorSaturatesLow(error: real, tol: real, safety: real, shrinkFactorMin: real,
                           growthFactorMax: real, order: real, pow: Pow)
    requires error > 0.0 && tol > 0.0 && order != 0.0 && shrinkFactorMin <= growthFactorMax
    requires safety * pow(Clamp(tol / error, RatioMin, RatioMax), 1.0 / order) <= shrinkFactorMin
    ensures Factor(error, tol, safety, shrinkFactorMin, growthFactorMax, order, pow) == Ok(shrinkFactorMin)
  {
  }

  /** n updates with the same factor. */
  function Repeat(dt: real, factor: real, dtMin: real, dtMax: real, n: nat): real
  {
    if n == 0 then dt else NextDt(Repeat(dt, factor, dtMin, dtMax, n - 1), factor, dtMin, dtMax)
  }

  /** factor ** n. */
  function Power(factor: real, n: nat): real
  {
    if n == 0 then 1.0 else Scale(Power(factor, n - 1), factor)
  }

  lemma ScaleMonotone(a: real, b: real, factor: real)
    requires a <= b && factor >= 0.0
    ensures Scale(a, factor) <= Scale(b, factor)
  {
    assert (b - a) * factor >= 0.0;
  }

  lemma ScaleGrows(a: real, factor: real)
    requires a >= 0.0 && factor >= 1.0
    ensures Scale(a, factor) >= a
  {
    assert a * (factor - 1.0) >= 0.0;
  }

  lemma ScaleShrinks(a: real, factor: real)
    requires a >= 0.0 && 0.0 <= factor <= 1.0
    ensures Scale(a, factor) <= a
  {
    assert a * (1.0 - factor) >= 0.0;
  }

  lemma ScaleAssoc(dt: real, p: real, factor: real)
    ensures Scale(Scale(dt, p), factor) == Scale(dt, Scale(p, factor))
  {
  }

  lemma GrowStep(prev: real, bound: real, factor: real, dtMin: real, dtMax: real)
    requires 0.0 <= dtMin <= dtMax && factor >= 1.0 && prev <= dtMax
    requires prev >= Min(dtMax, bound)
    ensures NextDt(prev, factor, dtMin, dtMax) >= Min(dtMax, Scale(bound, factor))
  {
    if prev >= dtMax {
      ScaleGrows(prev, factor);
    } else {
      ScaleMonotone(bound, prev, factor);
    }
  }

  /** With a factor of at least 1 the step grows at least geometrically
      until it reaches dt_max. */
  lemma {:induction false} RepeatGrows(dt: real, factor: real, dtMin: real, dtMax: real, n: nat)
    requires 0.0 <= dtMin <= dt <= dtMax && factor >= 1.0
    ensures Repeat(dt, factor, dtMin, dtMax, n) <= dtMax
    ensures Repeat(dt, factor, dtMin, dtMax, n) >= Min(dtMax, Scale(dt, Power(factor, n)))
  {
    if n == 0 {
      assert Scale(dt, 1.0) == dt;
    } else {
      RepeatGrows(dt, factor, dtMin, dtMax, n - 1);
      GrowStep(Repeat(dt, factor, dtMin, dtMax, n - 1), Scale(dt, Power(factor, n - 1)), factor, dtMin, dtMax);
      ScaleAssoc(dt, Power(factor, n - 1), factor);
    }
  }

  /** Repeated small errors drive dt to exactly dt_max once dt * factor^n
      passes it. */
  lemma ReachesMax(dt: real, factor: real, dtMin: real, dtMax: real, n: nat)
    requires 0.0 <= dtMin <= dt <= dtMax && factor >= 1.0 && Scale(dt, Power(factor, n)) >= dtMax
    ensures Repeat(dt, factor, dtMin, dtMax, n) == dtMax
  {
    RepeatGrows(dt, factor, dtMin, dtMax, n);
  }

  lemma ShrinkStep(prev: real, bound: real, factor: real, dtMin: real, dtMax: real)
    requires 0.0 <= dtMin <= dtMax && 0.0 <= factor <= 1.0 && prev >= dtMin
    requires prev <= Max(dtMin, bound)
    ensures NextDt(prev, factor, dtMin, dtMax) <= Max(dtMin, Scale(bound, factor))
  {
    if prev <= dtMin {
      ScaleShrinks(prev, factor);
    } else {
      ScaleMonotone(prev, bound, factor);
    }
  }

  /** With a factor in [0, 1] the step shrinks at least geometrically
      until it reaches dt_min. */
  lemma {:induction false} RepeatShrinks(dt: real, factor: real, dtMin: real, dtMax: real, n: nat)
    requires 0.0 <= dtMin <= dt <= dtMax && 0.0 <= factor <= 1.0
    ensures Repeat(dt, factor, dtMin, dtMax, n) >= dtMin
    ensures Repeat(dt, factor, dtMin, dtMax, n) <= Max(dtMin, Scale(dt, Power(factor, n)))
  {
    if n == 0 {
      assert Scale(dt, 1.0) == dt;
    } else {
      RepeatShrinks(dt, factor, dtMin, dtMax, n - 1);
      ShrinkStep(Repeat(dt, factor, dtMin, dtMax, n - 1), Scale(dt, Power(factor, n - 1)), factor, dtMin, dtMax);
      ScaleAssoc(dt, Power(factor, n - 1), factor);
    }
  }

  /** Repeated large errors drive dt to exactly dt_min once dt * factor^n
      falls below it. */
  lemma ReachesMin(dt: real, factor: real, dtMin: real, dtMax: real, n: nat)
    requires 0.0 <= dtMin <= dt <= dtMax && 0.0 <= factor <= 1.0 && Scale(dt, Power(factor, n)) <= dtMin
    ensures Repeat(dt, factor, dtMin, dtMax, n) == dtMin
  {
    RepeatShrinks(dt, factor, dtMin, dtMax, n);
  }

  /** AdaptiveTimestepper: dt is the only field the methods change. */
  class AdaptiveTimestepper {
    var dt: real
    const dtMin: real
    const dtMax: real
    const safety: real
    const growthFactorMax: real
    const shrinkFactorMin: real
    const order: real

    /** The dataclass constructor; safety 0.9, growth 2.0, shrink 0.5 and
        order 2.0 are the field defaults. */
    constructor (dt: real, dtMin: real, dtMax: real, safety: real, growthFactorMax: real,
                 shrinkFactorMin: real, order: real)
      ensures this.dt == dt && this.dtMin == dtMin && this.dtMax == dtMax
      ensures this.safety == safety && this.growthFactorMax == growthFactorMax
      ensures this.shrinkFactorMin == shrinkFactorMin && this.order == order
    {
      this.dt := dt;
      this.dtMin := dtMin;
      this.dtMax := dtMax;
      this.safety := safety;
      this.growthFactorMax := growthFactorMax;
      this.shrinkFactorMin := shrinkFactorMin;
      this.order := order;
    }

    /** clamp_dt: stores and returns dt clamped to [dt_min, dt_max]. */
    method ClampDt() returns (r: real)
      modifies this
      ensures dt == Clamp(old(dt), dtMin, dtMax) && r == dt
      ensures dtMin <= dtMax ==> dtMin <= r <= dtMax
    {
      dt := Max(dtMin, Min(dtMax, dt));
      r := dt;
    }

    /** update(error_estimate, tol): ValueError, with dt untouched, for
        tol <= 0 or a negative error; otherwise dt is scaled by the clamped
        factor and clamped, and the new dt is returned. */
    method Update(errorEstimate: real, tol: real, pow: Pow) returns (r: Result<real>)
      modifies this
      ensures tol <= 0.0 ==> r == Err(ValueError) && dt == old(dt)
      ensures tol > 0.0 && errorEstimate < 0.0 ==> r == Err(ValueError) && dt == old(dt)
      ensures tol > 0.0 && errorEstimate >= 0.0 ==>
                var factor := Factor(errorEstimate, tol, safety, shrinkFactorMin, growthFactorMax, order, pow);
                (factor.Err? ==> r == Err(ZeroDivisionError) && dt == old(dt))
                && (factor.Ok? ==> r == Ok(dt) && dt == NextDt(old(dt), factor.value, dtMin, dtMax))
    {
      if tol <= 0.0 {
        return Err(ValueError);
      }
      if errorEstimate < 0.0 {
        return Err(ValueError);
      }
      var factor;
      if errorEstimate == 0.0 {
        factor := growthFactorMax;
      } else {
        var ratio := tol / errorEstimate;
        ratio := Max(RatioMin, Min(RatioMax, ratio));
        if order == 0.0 {
          return Err(ZeroDivisionError);
        }
        factor := safety * pow(ratio, 1.0 / order);
      }
      factor := Max(shrinkFactorMin, Min(growthFactorMax, factor));
      dt := dt * factor;
      var clamped := ClampDt();
      return Ok(clamped);
    }
  }

  /** The first half of the bounds test: from dt = 0.5 in [0.1, 0.6], five
      updates with an error of 1e-9 against tol 1e-3 reach dt_max, given
      that 0.9 * sqrt(1e6) is at least the growth limit 2. */
  lemma ClampsToMax(pow: Pow)
    requires 0.9 * pow(1000000.0, 0.5) >= 2.0
    ensures Factor(0.000000001, 0.001, 0.9, 0.5, 2.0, 2.0, pow) == Ok(2.0)
    ensures Repeat(0.5, 2.0, 0.1, 0.6, 5) == 0.6
  {
    assert Clamp(0.001 / 0.000000001, RatioMin, RatioMax) == 1000000.0;
    FactorSaturatesHigh(0.000000001, 0.001, 0.9, 0.5, 2.0, 2.0, pow);
    assert Power(2.0, 1) == 2.0;
    ReachesMax(0.5, 2.0, 0.1, 0.6, 1);
    assert Repeat(0.5, 2.0, 0.1, 0.6, 1) == 0.6;
    assert Repeat(0.5, 2.0, 0.1, 0.6, 2) == 0.6;
    assert Repeat(0.5, 2.0, 0.1, 0.6, 3) == 0.6;
    assert Repeat(0.5, 2.0, 0.1, 0.6, 4) == 0.6;
  }

  /** The second half: five updates with an error of 1.0 bring dt = 0.6 to
      dt_min, given that 0.9 * sqrt(1e-3) is at most the shrink limit 0.5. */
  lemma ClampsToMin(pow: Pow)
    requires 0.9 * pow(0.001, 0.5) <= 0.5
    ensures Factor(1.0, 0.001, 0.9, 0.5, 2.0, 2.0, pow) == Ok(0.5)
    ensures Repeat(0.6, 0.5, 0.1, 0.6, 5) == 0.1
  {
    assert Clamp(0.001 / 1.0, RatioMin, RatioMax) == 0.001;
    FactorSaturatesLow(1.0, 0.001, 0.9, 0.5, 2.0, 2.0, pow);
    assert Power(0.5, 3) == 0.125;
    ReachesMin(0.6, 0.5, 0.1, 0.6, 3);
    assert Repeat(0.6, 0.5, 0.1, 0.6, 4) == 0.1;
  }
}
