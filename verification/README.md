# Web Tuner: a Dafny model of the tuner engine and the cents meter

This project models the core of a browser guitar tuner. Its `useTuner` hook
runs the tuner engine. The engine has a lifecycle status (idle, running,
error), keeps the last error message, publishes the readings (smoothed pitch
in Hz, note label, cents offset, clarity), and keeps a smoother register. Each
animation frame it takes the pitch detector's `(pitch, clarity)` pair and
gates it by confidence (`clarity > 0.9` and `pitch > 0`). It smooths an
accepted pitch with an exponential moving average (α = 0.15). It then maps
the smoothed pitch to the nearest equal-tempered note against the A4
reference pitch. The `CentsMeter` widget clamps the cents offset to
[-50, 50], turns it into a needle position, and colours the needle by an
in-tune test.

Modules:

- `NoteMapping` (`note_mapping.dfy`) holds the note arithmetic of
  `updateNoteData`. It models JavaScript's truncating `%` and `Math.round`
  (ties upward) explicitly. It proves that the pitch-class index is in 0..11
  and equals the Euclidean remainder, and that the cents offset is in
  [-50, 50). It also gives a parser for note labels and proves that a label
  names exactly the note number it was built from.
- `Smoothing` (`smoothing.dfy`) holds the moving average and what repeated
  identical inputs do to it.
- `CentsMeter` (`cents_meter.dfy`) holds the clamp, the needle position, the
  in-tune test and the needle colour.
- `Tuner` (`tuner.dfy`) holds the engine in two forms. The value `Engine`
  carries one function per operation. The class `TunerEngine` has the same
  fields, and its methods assign them in the source's order. Each method is
  proved to produce its function's result.
- `TunerProperties` (`tuner_properties.dfy`) holds the lemmas about those
  functions and the invariants they keep.

The estimator, `Math.log2` and the audio hardware are inputs. `Tick`
receives the `(pitch, clarity)` pair. The engine's `log2` is a constant given
to its constructor. `Start` receives whether the context is secure and what
the microphone request (`getUserMedia`, creating and resuming the audio
context) would do (`Granted`, or `Rejected(message)`), and it reports whether
the microphone was requested at all.

Every successful `start` launches a self-rescheduling frame loop. Its closure
fixes the reference pitch in effect when `start` was called (the model takes
it when `start` completes; see the `Tuner.TunerEngine.Start` line under
"## Left out"). The hook does not refuse
a `start` while it is running. The page disables its Start button only once
the status is running, which happens after the microphone request has
completed, so two clicks while the request is pending also launch two loops.
The model therefore keeps a list of live loops. Each entry is the reference pitch
that loop captured. The model also keeps `owner`: the loop whose pending
frame id is stored in the frame-id ref. `stop` cancels only that frame.

Behaviours of the code worth stating plainly:

- The `Error` status is never observable. A failed `start` sets `Error`, then
  calls `stop`, which sets `Idle` (`Settled` holds after every operation).
- The error message is never cleared by `stop` or by a successful `start`.
- A successful `start` does not reset the smoother register. When every
  start begins from idle and completes before the next, it is already empty (`StartKeepsSingleLoop`).
- Changing the reference pitch does not re-map a running loop. The loop keeps
  the pitch it captured at start (`ReferenceCapturedAtStart`).
- A `start` while running is neither rejected nor idempotent. It launches a
  second loop. A later `stop` cancels only one of them (`RestartOrphansLoop`).

## Model

| member | source | states |
|---|---|---|
| `NoteMapping.JsRem` | src/hooks/useTuner.ts:36 | JavaScript `%`: a = q·d + r for the truncated quotient q (`JsQuot`); a non-negative dividend gives r in [0, \|d\|), a negative one r in (-\|d\|, 0] |
| `NoteMapping.NoteIndex` | src/hooks/useTuner.ts:36 | for every integer, negatives included, `((n % 12) + 12) % 12` with truncating `%` lies in 0..11 and equals the Euclidean remainder |
| `NoteMapping.JsRound` | src/hooks/useTuner.ts:35 | `Math.round(x)` is an integer r with x − r in [-0.5, 0.5) |
| `NoteMapping.RoundUnique` | src/hooks/useTuner.ts:35 | that bound determines the rounded value: any integer within it is the result |
| `NoteMapping.RoundTiesUp` | src/hooks/useTuner.ts:35 | a value exactly halfway between k and k + 1 rounds to k + 1 |
| `NoteMapping.Octave` | src/hooks/useTuner.ts:37 | `floor(n / 12) - 1` is the o with 12(o+1) ≤ n < 12(o+2) |
| `NoteMapping.IntToString` | src/hooks/useTuner.ts:41 | the octave's spelling is non-empty, starts with a digit or a minus sign (never `#`), starts with a minus sign exactly for negative numbers, and has no leading zero: "0" alone, and a negative number's first digit is not 0 |
| `NoteMapping.DigitsRoundTrip` | src/hooks/useTuner.ts:41 | reading back the decimal digits of a natural number gives that number |
| `NoteMapping.IntRoundTrip` | src/hooks/useTuner.ts:41 | reading back the spelling of any integer octave, negatives included, gives that octave |
| `NoteMapping.NameIndexed` | src/hooks/useTuner.ts:5 | the twelve names are distinct: looking up name i finds index i |
| `NoteMapping.PartsDetermineNote` | src/hooks/useTuner.ts:36-37 | 12·(octave + 1) + index recovers the nearest note number |
| `NoteMapping.NoteFromParts` | src/hooks/useTuner.ts:36-37 | every (octave, index) with index in 0..11 comes from exactly that note number |
| `NoteMapping.LabelRoundTrip` | src/hooks/useTuner.ts:36-41 | parsing the label `NOTE_NAMES[index]` + octave gives back the note number it was made from |
| `NoteMapping.LabelInjective` | src/hooks/useTuner.ts:41 | two note numbers with the same label are equal |
| `NoteMapping.KnownLabels` | src/hooks/useTuner.ts:33-43 | 69 is "A4", 60 is "C4", 57 is "A3", 70 is "A#4", -1 is "B-2", 12 is "C0" |
| `NoteMapping.NoteNumber` | src/hooks/useTuner.ts:34 | `69 + 12·log2(freq / a4)` with the host's logarithm; no contract of its own, its use is stated by `MapNote` |
| `NoteMapping.NoteLabel` | src/hooks/useTuner.ts:41 | `NOTE_NAMES[noteIndex]` followed by the octave; stated by `LabelRoundTrip`, `LabelInjective` and `KnownLabels` |
| `NoteMapping.CentsOffset` | src/hooks/useTuner.ts:38-39 | in exact arithmetic the cents offset lies in [-50, 50), and removing it (noteNumber − c/100) lands on an integer, the nearest note |
| `NoteMapping.MapNote` | src/hooks/useTuner.ts:33-42 | the published label is the label of the rounded note number and names it, the cents are in [-50, 50), and that note plus cents/100 is the note number again |
| `Smoothing.Smooth` | src/hooks/useTuner.ts:102-104 | an empty register stores the pitch as is; otherwise the result lies between the previous value and the pitch, strictly inside when they differ |
| `Smoothing.RepeatDistance` | src/hooks/useTuner.ts:103 | after k identical inputs the distance to the input is (1 − α)^k times the initial distance |
| `Smoothing.RepeatMonotone` | src/hooks/useTuner.ts:103 | repeated identical inputs move the register monotonically toward the input, never past it |
| `Smoothing.RepeatApproaches` | src/hooks/useTuner.ts:103 | unless the register already equals the input, every step strictly shortens the distance and never reaches it |
| `CentsMeter.Clamped` | src/components/CentsMeter.tsx:5 | the clamped value is in [-50, 50]: null gives 0, values in range are kept, values beyond saturate at ±50 |
| `CentsMeter.ClampIdempotent` | src/components/CentsMeter.tsx:5 | clamping twice equals clamping once |
| `CentsMeter.LeftPct` | src/components/CentsMeter.tsx:8 | the needle position is clamped + 50 and lies in [0, 100]; null cents gives the centre, 50 |
| `CentsMeter.LeftPctMonotone` | src/components/CentsMeter.tsx:5-8 | the needle position is non-decreasing in cents |
| `CentsMeter.IsInTune` | src/components/CentsMeter.tsx:11 | in tune exactly when -5 < clamped < 5 |
| `CentsMeter.InTuneIffNear` | src/components/CentsMeter.tsx:5-11 | a reading is in tune exactly when the raw offset is in (-5, 5); values beyond ±50 never are |
| `CentsMeter.Colour` | src/components/CentsMeter.tsx:12 | neutral exactly for null cents; otherwise green exactly when in tune and red exactly when not |
| `CentsMeter.AbsentReadingIsNeutral` | src/components/CentsMeter.tsx:5-12 | null cents clamps to 0, which counts as in tune, yet the needle is neutral |
| `Tuner.Initial` | src/hooks/useTuner.ts:8-29 | the hook's initial state; stated by `StopReturnsToInitial` |
| `Tuner.Stopped` | src/hooks/useTuner.ts:46-58 | `stop` on the engine value; stated by `StopResets`, `StopIdempotent`, `StopCancelsOwner` |
| `Tuner.Failed` | src/hooks/useTuner.ts:119-123 | the failure handler: error message, `Error`, then `stop`; stated by `FailedStartEndsIdle` |
| `Tuner.Started` | src/hooks/useTuner.ts:61-124 | `start` on the engine value: the insecure throw, a rejected request through error-then-stop, or a new loop owning the pending frame; stated by `FailedStartEndsIdle`, `InsecureIgnoresCapture`, `StartSucceeds`, `StartKeepsSettled`, `StartKeepsSingleLoop` |
| `Tuner.Ticked` | src/hooks/useTuner.ts:93-116 | one frame of a loop on the engine value; stated by `UnconfidentTickOnlyClarity`, `ConfidentTickPublishes`, `TickSetsClarity`, `TickSmoothsWithoutOvershoot`, `TickKeepsSettled`, `TickKeepsSingleLoop`, `ReferenceCapturedAtStart` |
| `Tuner.WithA4` | src/hooks/useTuner.ts:18 | the reference-pitch setter; stated by `ReferenceCapturedAtStart` and `SetA4KeepsSingleLoop` |
| `Tuner.TunerEngine.constructor` | src/hooks/useTuner.ts:8-29 | the engine starts idle with no error, no readings, an empty smoother, A4 at 440 Hz and no loop |
| `Tuner.TunerEngine.Stop` | src/hooks/useTuner.ts:46-58 | cancels the pending frame, sets idle and clears pitch, note, cents, clarity and the smoother register |
| `Tuner.TunerEngine.Start` | src/hooks/useTuner.ts:61-124 | the state becomes `Started` of the old one; capture is asked exactly when the context is secure |
| `Tuner.TunerEngine.UpdateNoteData` | src/hooks/useTuner.ts:33-43 | sets note and cents to the mapping of the frequency against the given reference pitch, and touches nothing else |
| `Tuner.TunerEngine.Tick` | src/hooks/useTuner.ts:93-116 | the state becomes `Ticked` of the old one, for the loop's captured reference pitch |
| `Tuner.TunerEngine.SetA4` | src/hooks/useTuner.ts:18 | changes only the reference-pitch setting |
| `TunerProperties.StopResets` | src/hooks/useTuner.ts:52-57 | stop ends idle with every reading and the register cleared, and keeps the error and the reference pitch |
| `TunerProperties.StopIdempotent` | src/hooks/useTuner.ts:46-58 | stopping twice gives the same state as stopping once |
| `TunerProperties.StopCancelsOwner` | src/hooks/useTuner.ts:47 | stop removes exactly the loop whose frame is pending, if any, and keeps every other loop in order |
| `TunerProperties.StopKeepsSettled` | src/hooks/useTuner.ts:46-58 | from any well-formed state, stop leaves a well-formed state that is not in error |
| `TunerProperties.StopReturnsToInitial` | src/hooks/useTuner.ts:46-58 | with at most one loop, stop leaves no loop and the initial state except the error and the reference pitch |
| `TunerProperties.FailedStartEndsIdle` | src/hooks/useTuner.ts:119-123 | a failed start records the message (the secure-context one when insecure) and ends idle with all readings cleared; its `stop` cancels the pending frame's loop, leaving no pending frame |
| `TunerProperties.InsecureIgnoresCapture` | src/hooks/useTuner.ts:63-65 | an insecure context fails before the stream is requested: the capture outcome has no effect |
| `TunerProperties.StartSucceeds` | src/hooks/useTuner.ts:90-117 | a successful start sets running and launches one loop capturing the current A4; its frame becomes the pending one; error and readings are unchanged |
| `TunerProperties.StartKeepsSettled` | src/hooks/useTuner.ts:61-124 | after any start the engine is well-formed and not in error |
| `TunerProperties.StartKeepsSingleLoop` | src/hooks/useTuner.ts:61-124 | starting when not running keeps at most one loop, and the smoother register is empty |
| `TunerProperties.RestartOrphansLoop` | src/hooks/useTuner.ts:93-117 | a start while running, then a stop, leaves the earlier loop alive while idle, and its next frame publishes a clarity |
| `TunerProperties.UnconfidentTickOnlyClarity` | src/hooks/useTuner.ts:110-113 | a tick that fails the gate changes only the clarity (and re-schedules its loop) |
| `TunerProperties.ConfidentTickPublishes` | src/hooks/useTuner.ts:100-109 | a confident tick smooths the pitch and publishes it with its label and cents against the loop's A4; the ticking loop's frame becomes the pending one; status, error and loops do not change |
| `TunerProperties.TickSetsClarity` | src/hooks/useTuner.ts:107-112 | every tick publishes the clarity it was given, gated or not |
| `TunerProperties.TickSmoothsWithoutOvershoot` | src/hooks/useTuner.ts:102-104 | the new smoothed pitch lies between the previous register and the estimate |
| `TunerProperties.TickKeepsSettled` | src/hooks/useTuner.ts:93-116 | a tick keeps the state well-formed and never changes the status |
| `TunerProperties.TickKeepsSingleLoop` | src/hooks/useTuner.ts:93-116 | a tick keeps the single-loop discipline |
| `TunerProperties.ReferenceCapturedAtStart` | src/hooks/useTuner.ts:93-124 | changing A4 while a loop runs does not change what its ticks publish |
| `TunerProperties.SetA4KeepsSingleLoop` | src/hooks/useTuner.ts:18 | setting a positive A4 keeps the single-loop discipline |
| `TunerProperties.Run` | src/hooks/useTuner.ts:93-116 | a run of frames changes no status, error, A4 or loop, and leaves the last frame's clarity |
| `TunerProperties.UnconfidentRunFreezesReadings` | src/hooks/useTuner.ts:100-113 | frames without a confident estimate leave pitch, note, cents and the register unchanged |
| `TunerProperties.SteadyRunSmooths` | src/hooks/useTuner.ts:102-104 | confident frames with one pitch drive the register exactly as repeated smoothing does |

## Left out

- The pitch detector (`PitchDetector.forFloat32Array` and `findPitch` from the `pitchy` library) is not part of this model. Its `(pitch, clarity)` result is an input of `Tick`.
- The Web Audio and media plumbing is modelled only as a `Capture` outcome. This covers `getUserMedia`, `AudioContext`, the analyser, time-domain sampling, stopping tracks, disconnecting and closing. Releasing a partly acquired stream on failure is not modelled.
- `requestAnimationFrame` scheduling is not modelled. One call of `Tick(k, …)` is one frame of the live loop k. Which live loop runs next is the caller's choice.
- The loop's guard on its refs (src/hooks/useTuner.ts:94) is left out. Once a loop exists, those refs are set and are never cleared again, so the guard never fires for a live loop.
- `Math.log2` is the engine's `log2` parameter. `Math.pow` and all floating-point rounding, NaN and infinities are not modelled. Numbers are exact reals.
- NoteMapping.CentsOffset: the cents are taken as 100 × (note number − nearest), which is what `1200·log2(freq / targetFreq)` equals in exact arithmetic. It is not computed through `Math.pow` and a second `Math.log2`.
- Tuner.TunerEngine.Start: modelled as one atomic step taken when the source's `start` completes. The source is asynchronous: nothing modelled changes until the awaited microphone request and `audioCtx.resume()` (src/hooks/useTuner.ts:65, 77) have returned, and starts that overlap in that window appear here as a start while running. The new loop captures the reference pitch at completion, whereas the source's closure holds the one in effect when `start` was called; a change of reference pitch during the pending request is not modelled.
- Tuner.TunerEngine.SetA4: requires a positive reference pitch. The source accepts any number (a stored value read back with `parseFloat` may be 0, negative or NaN). The model needs a non-zero divisor for `freq / a4`.
- NoteMapping.IntToString: writes every integer in plain decimal. JavaScript writes integers of magnitude 10^21 and above in exponent notation.
- React hook mechanics (`useState`, `useRef`, `useCallback`, render batching) are not modelled. Setters and refs are fields assigned in program order. The unmount effect (src/hooks/useTuner.ts:126-128) only calls `stop`.
- src/app/tuner/page.tsx is not modelled: rendering, stored settings, device listing and controls. `SingleLoop` holds while every start begins when not running and completes before the next begins; the page's button does not guarantee that (see the `Tuner.TunerEngine.Start` line).
- The cents meter's markup, class strings and `toFixed` readout (src/components/CentsMeter.tsx:14-39) are rendering and are not modelled. The colour classes become `Neutral`, `Green` and `Red`.
