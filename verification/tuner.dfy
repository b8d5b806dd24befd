/**
 The tuner engine of the `useTuner` hook: lifecycle status, the last error
 message, the published readings (pitch, note, cents, clarity), the smoother
 register and the reference pitch, driven by `start`, `stop`, one tick of the
 animation-frame loop and the reference-pitch setter.

 The engine's state is given twice: as the value `Engine`, on which each
 operation is a function (`Stopped`, `Started`, `Ticked`, `WithA4`) and the
 properties are lemmas, and as the class `TunerEngine`, whose methods assign
 the fields in the source's order and are proved to produce those functions'
 results.

 Every `start` that succeeds launches a self-rescheduling frame loop whose
 closure captured the reference pitch in effect when `start` was called
 (the model takes it when `start` completes; see the README's Left out list). The hook does not refuse
 a `start` while it is running, so several loops can be alive at once; `loops`
 holds the captured reference pitch of each live loop, in launch order, and
 `owner` is the loop whose pending frame id is the one the frame-id ref holds
 (`None` once that frame has been cancelled). `stop` cancels only that frame.
 */
module Tuner {
  import opened Wrappers
  import NoteMapping
  import Smoothing

  datatype Status = Idle | Running | Error

  /**
   What the microphone request (`getUserMedia`, creating and resuming the
   audio context) does when `start` makes it: it succeeds, or fails with the
   message of the error it raised.
   */
  datatype Capture = Granted | Rejected(message: string)

  /** A tick is confident when the clarity exceeds this and the pitch is positive. */
  const ConfidenceThreshold: real := 0.9

  /** The reference pitch for A4 before the user changes it. */
  const DefaultA4: real := 440.0

  const InsecureContextMessage: string := "Microphone access requires a secure context (HTTPS)."

  datatype Engine = Engine(
    status: Status,
    error: string,
    pitchHz: Option<real>,
    note: Option<string>,
    cents: Option<real>,
    clarity: Option<real>,
    smoothed: Option<real>,
    a4: real,
    loops: seq<real>,
    owner: Option<nat>)

  /** The readings are all absent and the smoother register is empty. */
  predicate NoReadings(e: Engine)
  {
    e.pitchHz.None? && e.note.None? && e.cents.None? && e.clarity.None? && e.smoothed.None?
  }

  /**
   What holds of the engine between any two steps of any operation: the
   reference pitches are positive, the frame-id ref names a live loop if any,
   the published pitch is the smoother register, and pitch, note and cents are
   present together, with a well-formed label and an offset under half a
   semitone.
   */
  ghost predicate WellFormed(e: Engine)
  {
    && e.a4 > 0.0
    && (forall i :: 0 <= i < |e.loops| ==> e.loops[i] > 0.0)
    && (e.owner.Some? ==> e.owner.value < |e.loops|)
    && (e.status == Running ==> e.owner.Some?)
    && e.pitchHz == e.smoothed
    && (e.pitchHz.Some? ==> e.pitchHz.value > 0.0)
    && e.note.Some? == e.pitchHz.Some?
    && e.cents.Some? == e.pitchHz.Some?
    && (e.note.Some? ==> NoteMapping.ParseNote(e.note.value).Some?)
    && (e.cents.Some? ==> -50.0 <= e.cents.value < 50.0)
  }

  /** What holds after every complete operation: moreover, `Error` is never the status. */
  ghost predicate Settled(e: Engine)
  {
    WellFormed(e) && e.status != Error
  }

  /**
   The engine with at most one loop, alive exactly while running and always
   owning the pending frame, and no readings while idle. Starts that each
   complete before the next begins, and only while not running, keep it; the
   page's Start button is disabled only once the status is running, so two
   starts issued while a microphone request is pending do not.
   */
  ghost predicate SingleLoop(e: Engine)
  {
    && Settled(e)
    && |e.loops| <= 1
    && (e.status == Running <==> |e.loops| == 1)
    && (|e.loops| == 1 ==> e.owner == Some(0))
    && (e.status == Idle ==> NoReadings(e))
  }

  function Initial(): Engine
  {
    Engine(Idle, "", None, None, None, None, None, DefaultA4, [], None)
  }

  /** `stop`: cancel the pending frame, release capture, clear every reading. */
  function Stopped(e: Engine): Engine
  {
    var loops :=
      if e.owner.Some? && e.owner.value < |e.loops|
      then e.loops[..e.owner.value] + e.loops[e.owner.value + 1..]
      else e.loops;
    e.(status := Idle, pitchHz := None, note := None, cents := None, clarity := None,
       smoothed := None, loops := loops, owner := None)
  }

  /** The failure handler of `start`: record the message, set `Error`, then `stop`. */
  function Failed(e: Engine, message: string): Engine
  {
    Stopped(e.(error := message, status := Error))
  }

  /** `start`, given whether the context is secure and what capture would do. */
  function Started(e: Engine, secure: bool, capture: Capture): Engine
  {
    if !secure then Failed(e, InsecureContextMessage)
    else
      match capture
      case Rejected(message) => Failed(e, message)
      case Granted => e.(status := Running, loops := e.loops + [e.a4], owner := Some(|e.loops|))
  }

  /**
   One frame of loop `k`, given the estimator's pitch and clarity: a confident
   estimate goes through the smoother and is mapped against the reference
   pitch the loop captured; any other estimate only updates the clarity.
   Either way the loop schedules its next frame.
   */
  function Ticked(e: Engine, k: nat, pitch: real, c: real, log2: real -> real): Engine
    requires k < |e.loops| && e.loops[k] > 0.0
  {
    var published :=
      if c > ConfidenceThreshold && pitch > 0.0 then
        var s := Smoothing.Smooth(e.smoothed, pitch);
        var reading := NoteMapping.MapNote(NoteMapping.NoteNumber(s, e.loops[k], log2));
        e.(smoothed := Some(s), pitchHz := Some(s), clarity := Some(c),
           note := Some(reading.note), cents := Some(reading.cents))
      else
        e.(clarity := Some(c));
    published.(owner := Some(k))
  }

  /** The reference-pitch setter. */
  function WithA4(e: Engine, a4: real): Engine
  {
    e.(a4 := a4)
  }

  class TunerEngine {
    var status: Status
    var error: string
    var pitchHz: Option<real>
    var note: Option<string>
    var cents: Option<real>
    var clarity: Option<real>
    /** The smoother register. */
    var smoothed: Option<real>
    var a4: real
    var loops: seq<real>
    var owner: Option<nat>
    /** The host's base-2 logarithm. */
    const log2: real -> real

    function Snapshot(): Engine
      reads this
    {
      Engine(status, error, pitchHz, note, cents, clarity, smoothed, a4, loops, owner)
    }

    ghost predicate Valid()
      reads this
    {
      WellFormed(Snapshot())
    }

    constructor (log2: real -> real)
      ensures Valid() && Snapshot() == Initial() && this.log2 == log2
    {
      status, error := Idle, "";
      pitchHz, note, cents, clarity := None, None, None, None;
      smoothed := None;
      a4 := DefaultA4;
      loops, owner := [], None;
      this.log2 := log2;
    }

    method Stop()
      requires Valid()
      modifies this
      ensures Valid() && Snapshot() == Stopped(old(Snapshot()))
    {
      if owner.Some? {
        loops := loops[..owner.value] + loops[owner.value + 1..];
        owner := None;
      }
      status := Idle;
      pitchHz := None;
      note := None;
      cents := None;
      clarity := None;
      smoothed := None;
    }

    /** Returns whether the microphone was requested at all. */
    method Start(secure: bool, capture: Capture) returns (requested: bool)
      requires Valid()
      modifies this
      ensures Valid() && Snapshot() == Started(old(Snapshot()), secure, capture)
      ensures requested == secure
    {
      if !secure {
        requested := false;
        error := InsecureContextMessage;
        status := Error;
        Stop();
        return;
      }
      requested := true;
      match capture
      case Rejected(message) =>
        error := message;
        status := Error;
        Stop();
      case Granted =>
        status := Running;
        loops := loops + [a4];
        owner := Some(|loops| - 1);
    }

    /** The note label and cents offset of `freq` against the reference `refA4`. */
    method UpdateNoteData(freq: real, refA4: real)
      requires refA4 > 0.0
      modifies this`note, this`cents
      ensures note == Some(NoteMapping.MapNote(NoteMapping.NoteNumber(freq, refA4, log2)).note)
      ensures cents == Some(NoteMapping.MapNote(NoteMapping.NoteNumber(freq, refA4, log2)).cents)
    {
      var noteNumber := NoteMapping.NoteNumber(freq, refA4, log2);
      var nearest := NoteMapping.JsRound(noteNumber);
      var noteIndex := NoteMapping.NoteIndex(nearest);
      var octave := NoteMapping.Octave(nearest);
      note := Some(NoteMapping.NoteNames[noteIndex] + NoteMapping.IntToString(octave));
      cents := Some(NoteMapping.CentsOffset(noteNumber));
    }

    /** One frame of loop `k`, the estimator having reported `pitch` with clarity `c`. */
    method Tick(k: nat, pitch: real, c: real)
      requires Valid() && k < |loops|
      modifies this
      ensures Valid() && Snapshot() == Ticked(old(Snapshot()), k, pitch, c, log2)
    {
      if c > ConfidenceThreshold && pitch > 0.0 {
        var prev := smoothed;
        var s := Smoothing.Smooth(prev, pitch);
        smoothed := Some(s);
        pitchHz := Some(s);
        clarity := Some(c);
        ghost var reading := NoteMapping.MapNote(NoteMapping.NoteNumber(s, loops[k], log2));
        UpdateNoteData(s, loops[k]);
        assert note == Some(reading.note) && cents == Some(reading.cents);
        assert NoteMapping.ParseNote(reading.note).Some? && -50.0 <= reading.cents < 50.0;
      } else {
        clarity := Some(c);
      }
      owner := Some(k);
    }

    method SetA4(v: real)
      requires Valid() && v > 0.0
      modifies this`a4
      ensures Valid() && Snapshot() == WithA4(old(Snapshot()), v)
    {
      a4 := v;
    }
  }
}
