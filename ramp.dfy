/**
 * The triangular ramp that `logAllEntriesInRange` walks
 * (GlucoseMocker/ViewModels/GlucoseLoggerViewModel.swift:89-110): start at the
 * lower bound, climb by `step` until the upper bound is reached or passed,
 * clamp and turn, descend until the lower bound is reached or passed, clamp
 * and turn again.
 */
module Ramp {

  /** The loop's two ramp variables, `currentValue` and `increasing`. */
  datatype RampState = RampState(value: real, increasing: bool)

  /** One turn of the value update in the loop body. */
  function Next(s: RampState, lo: real, hi: real, step: real): (r: RampState)
    ensures lo <= s.value <= hi && 0.0 <= step ==> lo <= r.value <= hi
  {
    if s.increasing then
      var v := s.value + step;
      if v >= hi then RampState(hi, false) else RampState(v, true)
    else
      var v := s.value - step;
      if v <= lo then RampState(lo, true) else RampState(v, false)
  }

  /**
   * The ramp after k turns, starting from `autoMinGlucose` going up: the
   * value the loop writes in its k-th iteration (counting from 0). With a
   * non-empty range and a non-negative step every value stays in range.
   */
  function RampAt(k: nat, lo: real, hi: real, step: real): (r: RampState)
    ensures lo <= hi && 0.0 <= step ==> lo <= r.value <= hi
  {
    if k == 0 then RampState(lo, true) else Next(RampAt(k - 1, lo, hi, step), lo, hi, step)
  }

  /** The first value written is the lower bound, on the way up. */
  lemma RampStartsAtMin(lo: real, hi: real, step: real)
    ensures RampAt(0, lo, hi, step) == RampState(lo, true)
  {
  }

  /**
   * The direction changes exactly at a clamp: going up it turns when the value
   * reaches or passes the upper bound, and the value is then the upper bound;
   * going down likewise at the lower bound. Without a turn the value has moved
   * by exactly one step.
   */
  lemma FlipsOnlyAtClamp(k: nat, lo: real, hi: real, step: real)
    ensures var s, r := RampAt(k, lo, hi, step), RampAt(k + 1, lo, hi, step);
      && (s.increasing && !r.increasing <==> s.increasing && s.value + step >= hi)
      && (!s.increasing && r.increasing <==> !s.increasing && s.value - step <= lo)
      && (r.increasing != s.increasing ==> r.value == (if s.increasing then hi else lo))
      && (r.increasing == s.increasing ==> r.value == (if s.increasing then s.value + step else s.value - step))
  {
  }

  /** With min == max every value is that constant. */
  lemma FlatRampIsConstant(k: nat, level: real, step: real)
    requires 0.0 <= step
    ensures RampAt(k, level, level, step).value == level
  {
  }

  /**
   * A step that covers the whole range makes the value alternate between the
   * two bounds, turning every sample.
   */
  lemma {:induction false} WideStepAlternates(k: nat, lo: real, hi: real, step: real)
    requires lo <= hi && hi - lo <= step
    ensures RampAt(k, lo, hi, step) == if k % 2 == 0 then RampState(lo, true) else RampState(hi, false)
  {
    if k > 0 {
      WideStepAlternates(k - 1, lo, hi, step);
    }
  }

  /** `lo` raised by p whole steps, one addition at a time. */
  function Climb(lo: real, p: nat, step: real): real
  {
    if p == 0 then lo else Climb(lo, p - 1, step) + step
  }

  /**
   * Reference definition of a triangular wave that climbs from lo in m steps
   * of `step` and descends in m steps: its state at phase p of a period 2m.
   */
  function TrianglePhase(p: nat, m: nat, lo: real, step: real): RampState
    requires p < 2 * m
  {
    if p < m then RampState(Climb(lo, p, step), true)
    else RampState(Climb(lo, 2 * m - p, step), false)
  }

  /** The phase of sample k in a period of 2m: one further per sample, back to 0 after 2m - 1. */
  function Phase(k: nat, m: nat): (p: nat)
    requires 1 <= m
    ensures p < 2 * m
  {
    if k == 0 then 0
    else if Phase(k - 1, m) + 1 < 2 * m then Phase(k - 1, m) + 1
    else 0
  }

  /** The triangular wave at sample k. */
  function Triangle(k: nat, m: nat, lo: real, step: real): RampState
    requires 1 <= m
  {
    TrianglePhase(Phase(k, m), m, lo, step)
  }

  /** Climbing p steps is adding p times the step. */
  lemma {:induction false} ClimbIsLinear(lo: real, p: nat, step: real)
    ensures Climb(lo, p, step) == lo + p as real * step
  {
    if p > 0 {
      ClimbIsLinear(lo, p - 1, step);
      assert (p - 1) as real * step + step == p as real * step;
    }
  }

  /** With a positive step, more steps climb strictly higher. */
  lemma {:induction false} ClimbMonotone(lo: real, a: nat, b: nat, step: real)
    requires 0.0 < step && a < b
    ensures Climb(lo, a, step) < Climb(lo, b, step)
  {
    if a < b - 1 {
      ClimbMonotone(lo, a, b - 1, step);
    }
  }

  /** Multiplying by a non-negative n keeps the order of a and b. */
  lemma MulMonotone(a: int, b: int, n: int)
    requires a <= b && 0 <= n
    ensures a * n <= b * n
  {
    assert b * n - a * n == (b - a) * n;
  }

  /** A positive multiple of n is at least n. */
  lemma MulAtLeast(d: int, n: int)
    requires 1 <= d && 0 < n
    ensures n <= d * n
  {
    assert d * n == (d - 1) * n + n;
    assert (d - 1) * n >= 0;
  }

  /** Euclidean division: k is its quotient times n plus its remainder, which lies in [0, n). */
  lemma DivMod(k: int, n: int)
    requires 0 < n
    ensures (k / n) * n + k % n == k && 0 <= k % n < n
    ensures 0 <= k ==> 0 <= k / n
  {
    if 0 <= k && k / n < 0 {
      MulMonotone(k / n, -1, n);
    }
  }

  /** Quotient and remainder are the unique q, r with k == q * n + r, 0 <= r < n. */
  lemma DivModUnique(k: int, n: int, q: int, r: int)
    requires 0 < n && 0 <= r < n && k == q * n + r
    ensures k / n == q && k % n == r
  {
    var q', r' := k / n, k % n;
    assert k == q' * n + r';
    assert (q - q') * n == r' - r;
    if q > q' {
      MulAtLeast(q - q', n);
    } else if q < q' {
      MulAtLeast(q' - q, n);
    }
  }

  /** One turn of the ramp moves the triangular wave on by one phase. */
  lemma TriangleStep(p: nat, m: nat, lo: real, hi: real, step: real)
    requires p < 2 * m && 0.0 < step && hi == Climb(lo, m, step)
    ensures Next(TrianglePhase(p, m, lo, step), lo, hi, step)
         == TrianglePhase(if p + 1 < 2 * m then p + 1 else 0, m, lo, step)
  {
    if p < m {
      TriangleStepUp(p, m, lo, hi, step);
    } else {
      TriangleStepDown(p, m, lo, hi, step);
    }
  }

  /** On the way up the value climbs one step, turning at the upper bound. */
  lemma TriangleStepUp(p: nat, m: nat, lo: real, hi: real, step: real)
    requires p < m && 0.0 < step && hi == Climb(lo, m, step)
    ensures Next(TrianglePhase(p, m, lo, step), lo, hi, step) == TrianglePhase(p + 1, m, lo, step)
  {
    assert Climb(lo, p, step) + step == Climb(lo, p + 1, step);
    if p + 1 < m {
      ClimbMonotone(lo, p + 1, m, step);
    } else {
      assert TrianglePhase(p + 1, m, lo, step) == RampState(hi, false);
    }
  }

  /** On the way down the value falls one step, turning at the lower bound. */
  lemma TriangleStepDown(p: nat, m: nat, lo: real, hi: real, step: real)
    requires m <= p < 2 * m && 0.0 < step && hi == Climb(lo, m, step)
    ensures Next(TrianglePhase(p, m, lo, step), lo, hi, step)
         == TrianglePhase(if p + 1 < 2 * m then p + 1 else 0, m, lo, step)
  {
    var d := 2 * m - p;
    assert TrianglePhase(p, m, lo, step) == RampState(Climb(lo, d, step), false);
    assert Climb(lo, d, step) - step == Climb(lo, d - 1, step);
    if p + 1 < 2 * m {
      ClimbMonotone(lo, 0, d - 1, step);
      assert TrianglePhase(p + 1, m, lo, step) == RampState(Climb(lo, d - 1, step), false);
    } else {
      assert TrianglePhase(0, m, lo, step) == RampState(lo, true);
    }
  }

  /** Within the first period the phase counts the samples. */
  lemma {:induction false} PhaseCounts(k: nat, m: nat)
    requires 1 <= m && k < 2 * m
    ensures Phase(k, m) == k
  {
    if k > 0 {
      PhaseCounts(k - 1, m);
    }
  }

  /** The phase repeats every 2m samples. */
  lemma {:induction false} PhasePeriodic(k: nat, m: nat)
    requires 1 <= m
    ensures Phase(k + 2 * m, m) == Phase(k, m)
  {
    if k == 0 {
      PhaseCounts(2 * m - 1, m);
    } else {
      PhasePeriodic(k - 1, m);
    }
  }

  /** After q whole periods the phase is back where it started. */
  lemma {:induction false} PhaseAfterPeriods(q: nat, r: nat, m: nat)
    requires 1 <= m && r < 2 * m
    ensures Phase(q * (2 * m) + r, m) == r
  {
    if q == 0 {
      PhaseCounts(r, m);
    } else {
      PhaseAfterPeriods(q - 1, r, m);
      assert q * (2 * m) + r == ((q - 1) * (2 * m) + r) + 2 * m;
      PhasePeriodic((q - 1) * (2 * m) + r, m);
    }
  }

  /** In closed form, the phase of sample k is k modulo 2m. */
  lemma PhaseIsRemainder(k: nat, m: nat)
    requires 1 <= m
    ensures Phase(k, m) == k % (2 * m)
  {
    var n := 2 * m;
    DivMod(k, n);
    var q: nat, r: nat := k / n, k % n;
    PhaseAfterPeriods(q, r, m);
  }

  /** One turn of the ramp moves the triangular wave from sample k to sample k + 1. */
  lemma TriangleSucc(k: nat, m: nat, lo: real, hi: real, step: real)
    requires 1 <= m && 0.0 < step && hi == Climb(lo, m, step)
    ensures Next(Triangle(k, m, lo, step), lo, hi, step) == Triangle(k + 1, m, lo, step)
  {
    TriangleStep(Phase(k, m), m, lo, hi, step);
  }

  /** The ramp follows the triangular wave whose top is m climbs above lo. */
  lemma {:induction false} RampFollowsTriangle(k: nat, m: nat, lo: real, hi: real, step: real)
    requires 1 <= m && 0.0 < step && hi == Climb(lo, m, step)
    ensures RampAt(k, lo, hi, step) == Triangle(k, m, lo, step)
  {
    if k > 0 {
      RampFollowsTriangle(k - 1, m, lo, hi, step);
      TriangleSucc(k - 1, m, lo, hi, step);
      assert RampAt(k, lo, hi, step) == Next(RampAt(k - 1, lo, hi, step), lo, hi, step);
    }
  }

  /**
   * When the range is a whole number m of steps, the ramp is exactly the
   * triangular wave of half-period m.
   */
  lemma RampIsTriangleWave(k: nat, m: nat, lo: real, hi: real, step: real)
    requires 1 <= m && 0.0 < step && hi == lo + m as real * step
    ensures RampAt(k, lo, hi, step) == Triangle(k, m, lo, step)
  {
    ClimbIsLinear(lo, m, step);
    RampFollowsTriangle(k, m, lo, hi, step);
  }

  /** Such a ramp repeats with period 2m. */
  lemma RampIsPeriodic(k: nat, m: nat, lo: real, hi: real, step: real)
    requires 1 <= m && 0.0 < step && hi == lo + m as real * step
    ensures RampAt(k + 2 * m, lo, hi, step) == RampAt(k, lo, hi, step)
  {
    RampIsTriangleWave(k, m, lo, hi, step);
    RampIsTriangleWave(k + 2 * m, m, lo, hi, step);
    PhasePeriodic(k, m);
  }
}
