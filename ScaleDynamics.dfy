/**
 * The scale dynamics of the particle field (components/ParticleSystem.tsx,
 * `useFrame`): the two gesture targets, the unclamped lerp step toward them,
 * and how the scale settles while a gesture is held.
 */
module ScaleDynamics {
  import opened Types

  /** The scale an OPEN hand expands to. */
  const EXPANDED: real := 2.5
  /** The scale every other gesture contracts to. */
  const CONTRACTED: real := 0.5
  /** Smoothing rate: the lerp factor is `delta * 5`. */
  const SMOOTHING: real := 5.0

  function Abs(x: real): real { if x < 0.0 then -x else x }

  /** The gesture's target scale: 2.5 exactly for OPEN, 0.5 for CLOSED and UNKNOWN alike. */
  function TargetScale(g: HandGesture): (r: real)
    ensures r == EXPANDED <==> g == Open
    ensures r == CONTRACTED <==> g != Open
  {
    if g == Open then EXPANDED else CONTRACTED
  }

  /** `THREE.MathUtils.lerp(x, y, t)`, which does not clamp `t`. */
  function Lerp(x: real, y: real, t: real): real {
    (1.0 - t) * x + t * y
  }

  /**
   * What one step does: it moves from `x` by the fraction `t` of the way to
   * `y`, so the offset from `y` is multiplied by `1 - t` (which for `t`
   * outside [0, 2] makes it grow).
   */
  lemma LerpOffset(x: real, y: real, t: real)
    ensures Lerp(x, y, t) - x == t * (y - x)
    ensures Lerp(x, y, t) - y == (1.0 - t) * (x - y)
    ensures t == 0.0 ==> Lerp(x, y, t) == x
    ensures t == 1.0 ==> Lerp(x, y, t) == y
  {
  }

  lemma MulNonneg(a: real, b: real)
    requires 0.0 <= a && 0.0 <= b
    ensures 0.0 <= a * b
  {
  }

  lemma MulPos(a: real, b: real)
    requires 0.0 < a && 0.0 < b
    ensures 0.0 < a * b
  {
  }

  lemma MulAssoc(a: real, b: real, c: real)
    ensures a * (b * c) == (a * b) * c
  {
  }

  /**
   * For a factor in [0, 1] one step lands between the old value and the
   * target, and its distance to the target shrinks by the factor `1 - t`.
   */
  lemma LerpApproaches(x: real, y: real, t: real)
    requires 0.0 <= t <= 1.0
    ensures (x <= Lerp(x, y, t) <= y) || (y <= Lerp(x, y, t) <= x)
    ensures Abs(Lerp(x, y, t) - y) == (1.0 - t) * Abs(x - y)
    ensures Abs(Lerp(x, y, t) - y) <= Abs(x - y)
    ensures Abs(Lerp(x, y, t) - x) == t * Abs(y - x)
  {
    if x <= y {
      MulNonneg(1.0 - t, y - x);
      MulNonneg(t, y - x);
      assert Lerp(x, y, t) - x == t * (y - x);
      assert y - Lerp(x, y, t) == (1.0 - t) * (y - x);
    } else {
      MulNonneg(1.0 - t, x - y);
      MulNonneg(t, x - y);
      assert x - Lerp(x, y, t) == t * (x - y);
      assert Lerp(x, y, t) - y == (1.0 - t) * (x - y);
    }
  }

  /** The lerp is unclamped: a factor above 1 carries the value past the target. */
  lemma LerpOvershoots(x: real, y: real, t: real)
    requires t > 1.0 && x != y
    ensures x < y ==> Lerp(x, y, t) > y
    ensures x > y ==> Lerp(x, y, t) < y
  {
    if x < y {
      MulPos(t - 1.0, y - x);
      assert Lerp(x, y, t) - y == (t - 1.0) * (y - x);
    } else {
      MulPos(t - 1.0, x - y);
      assert y - Lerp(x, y, t) == (t - 1.0) * (x - y);
    }
  }

  /**
   * Frame after frame with factors in [0, 1] the current scale never leaves
   * the band [0.5, 2.5] of the two targets, whatever the gestures.
   */
  lemma ScaleStaysInBand(current: real, g: HandGesture, t: real)
    requires CONTRACTED <= current <= EXPANDED
    requires 0.0 <= t <= 1.0
    ensures CONTRACTED <= Lerp(current, TargetScale(g), t) <= EXPANDED
  {
    LerpApproaches(current, TargetScale(g), t);
  }

  function Pow(b: real, n: nat): real
    decreases n
  {
    if n == 0 then 1.0 else b * Pow(b, n - 1)
  }

  lemma {:induction false} PowAdd(b: real, m: nat, n: nat)
    decreases m
    ensures Pow(b, m + n) == Pow(b, m) * Pow(b, n)
  {
    if m > 0 {
      PowAdd(b, m - 1, n);
      MulAssoc(b, Pow(b, m - 1), Pow(b, n));
    }
  }

  /** The current scale after `n` frames at factor `t` toward a held target. */
  function Settle(current: real, target: real, t: real, n: nat): real
    decreases n
  {
    if n == 0 then current else Settle(Lerp(current, target, t), target, t, n - 1)
  }

  /** A held gesture: the offset from the target scales by `1 - t` each frame, whatever `t`. */
  lemma {:induction false} SettleOffset(current: real, target: real, t: real, n: nat)
    decreases n
    ensures Settle(current, target, t, n) - target == Pow(1.0 - t, n) * (current - target)
  {
    if n > 0 {
      var next := Lerp(current, target, t);
      SettleOffset(next, target, t, n - 1);
      MulAssoc(Pow(1.0 - t, n - 1), 1.0 - t, current - target);
    }
  }

  /** `|y| = p |x|` where `y = p x` and `p >= 0`. */
  lemma AbsScale(p: real, x: real, y: real)
    requires 0.0 <= p && y == p * x
    ensures Abs(y) == p * Abs(x)
  {
    if x < 0.0 {
      MulNonneg(p, -x);
    } else {
      MulNonneg(p, x);
    }
  }

  /** For a factor in [0, 1] the distance to a held target decays geometrically, by `(1 - t)^n`. */
  lemma SettleDistance(current: real, target: real, t: real, n: nat)
    requires 0.0 <= t <= 1.0
    ensures Abs(Settle(current, target, t, n) - target) == Pow(1.0 - t, n) * Abs(current - target)
  {
    SettleOffset(current, target, t, n);
    PowUnit(1.0 - t, n);
    AbsScale(Pow(1.0 - t, n), current - target, Settle(current, target, t, n) - target);
  }

  /** (11/12)^60 < 0.0125, squared up from (11/12)^1. */
  lemma DecayOverOneSecond(b: real)
    requires b == 11.0 / 12.0
    ensures 0.0 <= Pow(b, 60) <= 0.0125
  {
    assert Pow(b, 1) == b;
    PowAdd(b, 1, 1);
    PowAdd(b, 2, 2);
    PowAdd(b, 4, 4);
    PowAdd(b, 8, 4);
    PowAdd(b, 12, 12);
    PowAdd(b, 24, 24);
    PowAdd(b, 48, 12);
  }

  lemma MulBound(p: real, a: real, pMax: real, aMax: real)
    requires 0.0 <= p <= pMax && 0.0 <= a <= aMax
    ensures p * a <= pMax * aMax
  {
    MulNonneg(pMax - p, a);
    MulNonneg(pMax, aMax - a);
  }

  /** Powers of a factor in [0, 1] stay in [0, 1]. */
  lemma {:induction false} PowUnit(b: real, n: nat)
    requires 0.0 <= b <= 1.0
    decreases n
    ensures 0.0 <= Pow(b, n) <= 1.0
  {
    if n > 0 {
      PowUnit(b, n - 1);
      MulBound(b, Pow(b, n - 1), 1.0, 1.0);
      MulNonneg(b, Pow(b, n - 1));
    }
  }

  /** `b^n = b^m b^(n - m)` for `m <= n`. */
  lemma PowSplit(b: real, n: nat, m: nat)
    requires m <= n
    ensures Pow(b, n) == Pow(b, m) * Pow(b, n - m)
  {
    PowAdd(b, m, n - m);
  }

  /** Sixty frames or more at factor 1/12 leave at most 1.25% of the distance. */
  lemma DecayAfterOneSecond(b: real, frames: nat)
    requires b == 11.0 / 12.0 && frames >= 60
    ensures 0.0 <= Pow(b, frames) <= 0.0125
  {
    DecayOverOneSecond(b);
    PowSplit(b, frames, 60);
    PowUnit(b, frames - 60);
    MulNonneg(Pow(b, 60), Pow(b, frames - 60));
    MulBound(Pow(b, 60), Pow(b, frames - 60), 0.0125, 1.0);
  }

  /**
   * Held for at least one second of a 60 Hz clock (sixty frames or more)
   * after an OPEN arrives, from any scale in the band, the current scale is
   * within 1% of 2.5.
   */
  lemma OneSecondOpen(current: real, delta: real, frames: nat)
    requires CONTRACTED <= current <= EXPANDED
    requires delta == 1.0 / 60.0 && frames >= 60
    ensures Abs(Settle(current, TargetScale(Open), delta * SMOOTHING, frames) - EXPANDED) <= EXPANDED / 100.0
  {
    var t := delta * SMOOTHING;
    assert t == 1.0 / 12.0;
    SettleDistance(current, EXPANDED, t, frames);
    DecayAfterOneSecond(1.0 - t, frames);
    MulBound(Pow(1.0 - t, frames), Abs(current - EXPANDED), 0.0125, 2.0);
  }
}
