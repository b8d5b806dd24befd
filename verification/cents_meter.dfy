/**
 The cents meter widget's arithmetic: the displayed offset is clamped to
 [-50, 50], turned into the needle's horizontal position in percent, and
 tested for being in tune, which picks the needle's colour.
 */
module CentsMeter {
  import opened Wrappers

  /** `Math.max` and `Math.min` on the model's real numbers. */
  function Max(a: real, b: real): real { if a >= b then a else b }
  function Min(a: real, b: real): real { if a <= b then a else b }

  function Abs(x: real): real { if x < 0.0 then -x else x }

  /** The needle's colour class, without its styling detail. */
  datatype NeedleColour = Neutral | Green | Red

  /** The offset the needle shows: no reading shows as 0, others are clamped to [-50, 50]. */
  function Clamped(cents: Option<real>): (r: real)
    ensures -50.0 <= r <= 50.0
    ensures cents.None? ==> r == 0.0
    ensures cents.Some? && -50.0 <= cents.value <= 50.0 ==> r == cents.value
    ensures cents.Some? && cents.value > 50.0 ==> r == 50.0
    ensures cents.Some? && cents.value < -50.0 ==> r == -50.0
  {
    if cents.None? then 0.0 else Max(-50.0, Min(50.0, cents.value))
  }

  /** The needle's position, in percent of the bar's width from its left edge. */
  function LeftPct(cents: Option<real>): (p: real)
    ensures p == Clamped(cents) + 50.0
    ensures 0.0 <= p <= 100.0
    ensures cents.None? ==> p == 50.0
  {
    ((Clamped(cents) + 50.0) / 100.0) * 100.0
  }

  /** The reading counts as in tune when the clamped offset is under 5 cents either way. */
  function IsInTune(cents: Option<real>): (b: bool)
    ensures b <==> -5.0 < Clamped(cents) < 5.0
  {
    Abs(Clamped(cents)) < 5.0
  }

  function Colour(cents: Option<real>): (c: NeedleColour)
    ensures c == Neutral <==> cents.None?
    ensures cents.Some? ==> (c == Green <==> IsInTune(cents))
    ensures cents.Some? ==> (c == Red <==> !IsInTune(cents))
  {
    if cents.None? then Neutral else if IsInTune(cents) then Green else Red
  }

  /** Clamping a clamped value changes nothing. */
  lemma ClampIdempotent(cents: Option<real>)
    ensures Clamped(Some(Clamped(cents))) == Clamped(cents)
  {
  }

  /** A larger offset never puts the needle further left. */
  lemma LeftPctMonotone(x: real, y: real)
    requires x <= y
    ensures LeftPct(Some(x)) <= LeftPct(Some(y))
  {
  }

  /** Clamping does not affect the in-tune test: it depends on the raw offset alone. */
  lemma InTuneIffNear(x: real)
    ensures IsInTune(Some(x)) <==> -5.0 < x < 5.0
    ensures x > 50.0 || x < -50.0 ==> !IsInTune(Some(x))
  {
  }

  /** No reading clamps to 0, which would count as in tune, yet its needle is neutral. */
  lemma AbsentReadingIsNeutral()
    ensures IsInTune(None)
    ensures Colour(None) == Neutral
  {
  }
}
