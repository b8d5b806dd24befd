/**
 The exponential moving average that the tuner loop applies to every accepted
 pitch estimate, held in the smoother register (`smoothedPitchRef`).
 */
module Smoothing {
  import opened Wrappers

  /** The smoothing factor: lower is smoother, higher is more responsive. */
  const Alpha: real := 0.15

  /** `x` lies between `a` and `b`, inclusive, whichever of the two is larger. */
  predicate Between(x: real, a: real, b: real)
  {
    (a <= x <= b) || (b <= x <= a)
  }

  /**
   One smoothing step: an empty register takes the estimate as it is;
   otherwise the register moves by `Alpha` of the way toward the estimate.
   */
  function Smooth(prev: Option<real>, pitch: real): (s: real)
    ensures prev.None? ==> s == pitch
    ensures prev.Some? ==> Between(s, prev.value, pitch)
    ensures prev.Some? && prev.value != pitch ==> s != prev.value && s != pitch
  {
    match prev
    case None => pitch
    case Some(p) => p + Alpha * (pitch - p)
  }

  /** The register after `k` confident ticks that all report the same `pitch`. */
  function Repeat(start: real, pitch: real, k: nat): real
  {
    if k == 0 then start else Smooth(Some(Repeat(start, pitch, k - 1)), pitch)
  }

  /** `(1 - Alpha)^k`: the share of the initial distance left after `k` steps. */
  function Remaining(k: nat): (f: real)
    ensures 0.0 < f <= 1.0
  {
    if k == 0 then 1.0 else (1.0 - Alpha) * Remaining(k - 1)
  }

  /** Repeated identical inputs close the distance geometrically. */
  lemma {:induction false} RepeatDistance(start: real, pitch: real, k: nat)
    ensures Repeat(start, pitch, k) - pitch == Remaining(k) * (start - pitch)
  {
    if k > 0 {
      RepeatDistance(start, pitch, k - 1);
      var prev, r, d := Repeat(start, pitch, k - 1), Remaining(k - 1), start - pitch;
      assert Repeat(start, pitch, k) - pitch == (1.0 - Alpha) * (prev - pitch);
      assert Remaining(k) * d == (1.0 - Alpha) * (r * d);
    }
  }

  /**
   Repeated identical inputs move the register monotonically toward the input
   and never past it.
   */
  lemma {:induction false} RepeatMonotone(start: real, pitch: real, k: nat)
    ensures start <= pitch ==> start <= Repeat(start, pitch, k) <= Repeat(start, pitch, k + 1) <= pitch
    ensures pitch <= start ==> pitch <= Repeat(start, pitch, k + 1) <= Repeat(start, pitch, k) <= start
  {
    if k > 0 {
      RepeatMonotone(start, pitch, k - 1);
    }
  }

  /** Unless it is already there, every step strictly shortens the distance to the input. */
  lemma {:induction false} RepeatApproaches(start: real, pitch: real, k: nat)
    requires start != pitch
    ensures Repeat(start, pitch, k) != pitch
    ensures start < pitch ==> Repeat(start, pitch, k) < Repeat(start, pitch, k + 1)
    ensures pitch < start ==> Repeat(start, pitch, k + 1) < Repeat(start, pitch, k)
  {
    if k > 0 {
      RepeatApproaches(start, pitch, k - 1);
    }
    RepeatMonotone(start, pitch, k);
  }
}
