/** What the engine's operations promise, and the invariants they keep. */
module TunerProperties {
  import opened Wrappers
  import NoteMapping
  import Smoothing
  import opened Tuner

  // ---------------------------------------------------------------------
  // stop
  // ---------------------------------------------------------------------

  /** `stop` ends idle with every reading and the smoother cleared, and keeps the error and the reference pitch. */
  lemma StopResets(e: Engine)
    ensures Stopped(e).status == Idle && NoReadings(Stopped(e))
    ensures Stopped(e).error == e.error && Stopped(e).a4 == e.a4
    ensures Stopped(e).owner.None?
  {
  }

  /** Stopping twice is the same as stopping once. */
  lemma StopIdempotent(e: Engine)
    ensures Stopped(Stopped(e)) == Stopped(e)
  {
  }

  /** `stop` cancels at most one loop: the one whose frame is pending. */
  lemma StopCancelsOwner(e: Engine)
    requires WellFormed(e)
    ensures e.owner.Some? ==> |Stopped(e).loops| == |e.loops| - 1
    ensures e.owner.None? ==> Stopped(e).loops == e.loops
    ensures e.owner.Some? ==> var o := e.owner.value;
      && (forall i :: 0 <= i < o ==> Stopped(e).loops[i] == e.loops[i])
      && (forall i :: o < i < |e.loops| ==> Stopped(e).loops[i - 1] == e.loops[i])
  {
  }

  lemma StopKeepsSettled(e: Engine)
    requires WellFormed(e)
    ensures Settled(Stopped(e))
  {
  }

  /** With at most one loop, stopping leaves no loop alive and the engine as it started, but for the error and the reference pitch. */
  lemma StopReturnsToInitial(e: Engine)
    requires SingleLoop(e)
    ensures SingleLoop(Stopped(e))
    ensures Stopped(e) == Initial().(error := e.error, a4 := e.a4)
  {
  }

  // ---------------------------------------------------------------------
  // start
  // ---------------------------------------------------------------------

  /**
   A failed start records the message and, because its handler calls `stop`
   after setting `Error`, ends idle with all readings cleared.
   */
  lemma FailedStartEndsIdle(e: Engine, secure: bool, capture: Capture)
    requires !secure || capture.Rejected?
    ensures Started(e, secure, capture).status == Idle
    ensures NoReadings(Started(e, secure, capture))
    ensures Started(e, secure, capture).error ==
      if !secure then InsecureContextMessage else capture.message
    ensures Started(e, secure, capture).a4 == e.a4
    ensures Started(e, secure, capture).loops == Stopped(e).loops
    ensures Started(e, secure, capture).owner.None?
  {
  }

  /** An insecure context fails before capture is asked: its outcome does not matter. */
  lemma InsecureIgnoresCapture(e: Engine, c1: Capture, c2: Capture)
    ensures Started(e, false, c1) == Started(e, false, c2)
  {
  }

  /**
   A successful start sets `Running` and launches one loop that captures the
   current reference pitch; the error message and the readings are left as
   they were.
   */
  lemma StartSucceeds(e: Engine)
    ensures Started(e, true, Granted).status == Running
    ensures Started(e, true, Granted).loops == e.loops + [e.a4]
    ensures Started(e, true, Granted).error == e.error
    ensures Started(e, true, Granted).owner == Some(|e.loops|)
    ensures Started(e, true, Granted).(status := e.status, loops := e.loops, owner := e.owner) == e
  {
  }

  lemma StartKeepsSettled(e: Engine, secure: bool, capture: Capture)
    requires WellFormed(e)
    ensures Settled(Started(e, secure, capture))
  {
  }

  /** Starting when not running keeps the single-loop discipline, with an empty smoother. */
  lemma StartKeepsSingleLoop(e: Engine, secure: bool, capture: Capture)
    requires SingleLoop(e) && e.status != Running
    ensures SingleLoop(Started(e, secure, capture))
    ensures Started(e, secure, capture).smoothed.None?
  {
  }

  /**
   The hook does not refuse a start while running. A restart followed by a
   stop leaves the earlier loop alive while the engine reports `Idle`, and its
   next frame publishes a clarity again.
   */
  lemma RestartOrphansLoop(e: Engine, pitch: real, c: real, log2: real -> real)
    requires SingleLoop(e) && e.status == Running
    ensures var s := Stopped(Started(e, true, Granted));
      && s.status == Idle
      && |s.loops| == 1
      && s.loops == [e.loops[0]]
      && Ticked(s, 0, pitch, c, log2).status == Idle
      && Ticked(s, 0, pitch, c, log2).clarity == Some(c)
  {
    var r := Started(e, true, Granted);
    assert r.loops == [e.loops[0], e.a4] && r.owner == Some(1);
    assert Stopped(r).loops == [e.loops[0]];
  }

  // ---------------------------------------------------------------------
  // one tick
  // ---------------------------------------------------------------------

  /** On a tick that is not confident only the clarity changes. */
  lemma UnconfidentTickOnlyClarity(e: Engine, k: nat, pitch: real, c: real, log2: real -> real)
    requires k < |e.loops| && e.loops[k] > 0.0
    requires !(c > ConfidenceThreshold && pitch > 0.0)
    ensures Ticked(e, k, pitch, c, log2) == e.(clarity := Some(c), owner := Some(k))
  {
  }

  /**
   On a confident tick the smoother takes the estimate and the published
   pitch, note and cents follow the new smoothed value against the reference
   pitch the loop captured; nothing else but the clarity changes.
   */
  lemma ConfidentTickPublishes(e: Engine, k: nat, pitch: real, c: real, log2: real -> real)
    requires k < |e.loops| && e.loops[k] > 0.0
    requires c > ConfidenceThreshold && pitch > 0.0
    ensures var r := Ticked(e, k, pitch, c, log2);
      var s := Smoothing.Smooth(e.smoothed, pitch);
      var n := NoteMapping.NoteNumber(s, e.loops[k], log2);
      && r.smoothed == Some(s) && r.pitchHz == Some(s)
      && r.note == Some(NoteMapping.NoteLabel(NoteMapping.JsRound(n)))
      && r.cents == Some(NoteMapping.CentsOffset(n))
      && r.owner == Some(k)
      && r.(pitchHz := e.pitchHz, note := e.note, cents := e.cents, clarity := e.clarity,
            smoothed := e.smoothed, owner := e.owner) == e
  {
  }

  /** Every tick publishes the clarity it was given. */
  lemma TickSetsClarity(e: Engine, k: nat, pitch: real, c: real, log2: real -> real)
    requires k < |e.loops| && e.loops[k] > 0.0
    ensures Ticked(e, k, pitch, c, log2).clarity == Some(c)
  {
  }

  /** A smoothed pitch lies between the register's previous value and the estimate. */
  lemma TickSmoothsWithoutOvershoot(e: Engine, k: nat, pitch: real, c: real, log2: real -> real)
    requires k < |e.loops| && e.loops[k] > 0.0
    requires c > ConfidenceThreshold && pitch > 0.0 && e.smoothed.Some?
    ensures Smoothing.Between(Ticked(e, k, pitch, c, log2).smoothed.value, e.smoothed.value, pitch)
  {
  }

  /** A tick never changes the status, so an engine that reports no error keeps reporting none. */
  lemma TickKeepsSettled(e: Engine, k: nat, pitch: real, c: real, log2: real -> real)
    requires Settled(e) && k < |e.loops|
    ensures Settled(Ticked(e, k, pitch, c, log2))
    ensures Ticked(e, k, pitch, c, log2).status == e.status
  {
  }

  lemma TickKeepsSingleLoop(e: Engine, k: nat, pitch: real, c: real, log2: real -> real)
    requires SingleLoop(e) && k < |e.loops|
    ensures SingleLoop(Ticked(e, k, pitch, c, log2))
  {
  }

  /**
   A loop maps against the reference pitch it captured at start: changing
   the setting while it runs does not change what its ticks publish.
   */
  lemma ReferenceCapturedAtStart(e: Engine, v: real, k: nat, pitch: real, c: real, log2: real -> real)
    requires k < |e.loops| && e.loops[k] > 0.0
    ensures Ticked(WithA4(e, v), k, pitch, c, log2) == WithA4(Ticked(e, k, pitch, c, log2), v)
  {
  }

  lemma SetA4KeepsSingleLoop(e: Engine, v: real)
    requires SingleLoop(e) && v > 0.0
    ensures SingleLoop(WithA4(e, v))
  {
  }

  // ---------------------------------------------------------------------
  // runs of ticks
  // ---------------------------------------------------------------------

  /** The estimates one loop sees over several frames: (pitch, clarity). */
  function Run(e: Engine, k: nat, frames: seq<(real, real)>, log2: real -> real): (r: Engine)
    requires k < |e.loops| && e.loops[k] > 0.0
    ensures r.status == e.status && r.error == e.error && r.a4 == e.a4 && r.loops == e.loops
    ensures frames != [] ==> r.clarity == Some(frames[|frames| - 1].1)
  {
    if frames == [] then e
    else Ticked(Run(e, k, frames[..|frames| - 1], log2), k, frames[|frames| - 1].0, frames[|frames| - 1].1, log2)
  }

  /** A confident estimate: the readings and the smoother change only on one. */
  predicate Confident(frame: (real, real))
  {
    frame.1 > ConfidenceThreshold && frame.0 > 0.0
  }

  /** Frames without a confident estimate leave pitch, note, cents and the smoother as they were. */
  lemma {:induction false} UnconfidentRunFreezesReadings(e: Engine, k: nat, frames: seq<(real, real)>, log2: real -> real)
    requires k < |e.loops| && e.loops[k] > 0.0
    requires forall i :: 0 <= i < |frames| ==> !Confident(frames[i])
    ensures var r := Run(e, k, frames, log2);
      r.pitchHz == e.pitchHz && r.note == e.note && r.cents == e.cents && r.smoothed == e.smoothed
  {
    if frames != [] {
      UnconfidentRunFreezesReadings(e, k, frames[..|frames| - 1], log2);
    }
  }

  /**
   A run of confident frames that all report the same pitch drives the
   smoother register exactly as repeated smoothing does, so it approaches that
   pitch monotonically and never passes it.
   */
  lemma {:induction false} SteadyRunSmooths(e: Engine, k: nat, pitch: real, c: real, n: nat, log2: real -> real)
    requires k < |e.loops| && e.loops[k] > 0.0
    requires c > ConfidenceThreshold && pitch > 0.0 && e.smoothed.Some?
    ensures Run(e, k, seq(n, _ => (pitch, c)), log2).smoothed ==
      Some(Smoothing.Repeat(e.smoothed.value, pitch, n))
  {
    if n > 0 {
      var frames := seq(n, _ => (pitch, c));
      assert frames[..n - 1] == seq(n - 1, _ => (pitch, c));
      SteadyRunSmooths(e, k, pitch, c, n - 1, log2);
    }
  }
}
