/**
 The frequency-to-note arithmetic of the tuner hook (`updateNoteData`): the
 note number relative to A4, its rounding to the nearest equal-tempered note,
 the pitch-class index, the octave, the displayed label and the cents offset.
 */
module NoteMapping {
  import opened Wrappers

  /** The chromatic name table, indexed from C. */
  const NoteNames: seq<string> := ["C", "C#", "D", "D#", "E", "F", "F#", "G", "G#", "A", "A#", "B"]

  /** MIDI number of A4, the note the reference pitch names. */
  const A4Number: int := 69

  function Abs(a: int): nat { if a < 0 then -a else a }

  /**
   JavaScript's `%` on integers: the quotient is truncated toward zero, so the
   remainder takes the sign of the dividend (Dafny's own `%` is Euclidean).
   */
  function JsRem(a: int, d: int): (r: int)
    requires d != 0
    ensures a >= 0 ==> 0 <= r < Abs(d)
    ensures a < 0 ==> -(Abs(d) as int) < r <= 0
    ensures a == JsQuot(a, d) * d + r
  {
    var m := Abs(a) % Abs(d);
    assert Abs(a) == (Abs(a) / Abs(d)) * Abs(d) + m;
    if a < 0 then -m else m
  }

  /** The quotient `Math.trunc(a / d)` that goes with JsRem. */
  function JsQuot(a: int, d: int): int
    requires d != 0
  {
    var q := Abs(a) / Abs(d);
    if (a < 0) == (d < 0) then q else -q
  }

  /**
   `Math.round`: rounds to the nearest integer, ties upward. The result is the
   unique integer whose distance below `x` lies in [-0.5, 0.5).
   */
  function JsRound(x: real): (r: int)
    ensures -0.5 <= x - r as real < 0.5
  {
    (x + 0.5).Floor
  }

  /** The rounding is determined by its bound: no other integer is as close. */
  lemma RoundUnique(x: real, k: int)
    requires -0.5 <= x - k as real < 0.5
    ensures JsRound(x) == k
  {
  }

  /** Halfway between two notes, the upper one is taken. */
  lemma RoundTiesUp(k: int)
    ensures JsRound(k as real + 0.5) == k + 1
  {
  }

  /** The pitch-class index `((n % 12) + 12) % 12` with JavaScript's `%`. */
  function NoteIndex(n: int): (i: int)
    ensures 0 <= i < 12
    ensures i == n % 12
  {
    var r := JsRem(n, 12);
    assert (n - r) % 12 == 0;
    assert (r + 12) % 12 == n % 12 by {
      assert (r + 12) - n == 12 - (n - r);
    }
    JsRem(r + 12, 12)
  }

  /** The octave `Math.floor(n / 12) - 1`, with `/` the division of real numbers. */
  function Octave(n: int): (o: int)
    ensures 12 * (o + 1) <= n < 12 * (o + 2)
  {
    ((n as real) / 12.0).Floor - 1
  }

  /** The decimal spelling of an integer, as a template literal writes it. */
  function IntToString(i: int): (s: string)
    ensures |s| >= 1
    ensures s[0] == '-' || IsDigit(s[0])
    ensures s[0] == '0' ==> s == "0"
    ensures s[0] == '-' <==> i < 0
    ensures i < 0 ==> |s| >= 2 && s[0] == '-' && s[1] != '0'
  {
    if i < 0 then "-" + NatToString(-i) else NatToString(i)
  }

  predicate IsDigit(ch: char) { '0' as int <= ch as int <= '9' as int }

  predicate AllDigits(s: string) { forall k :: 0 <= k < |s| ==> IsDigit(s[k]) }

  function DigitValue(ch: char): (d: nat)
    requires IsDigit(ch)
    ensures d < 10
  {
    ch as int - '0' as int
  }

  function DigitChar(d: int): (ch: char)
    requires 0 <= d < 10
    ensures IsDigit(ch) && DigitValue(ch) == d
  {
    "0123456789"[d]
  }

  function NatToString(n: nat): (s: string)
    ensures |s| >= 1
    ensures AllDigits(s)
    ensures s[0] == '0' ==> n == 0 && s == "0"
  {
    if n < 10 then [DigitChar(n)] else NatToString(n / 10) + [DigitChar(n % 10)]
  }

  /** The label `${NOTE_NAMES[noteIndex]}${octave}` of the note numbered `n`. */
  function NoteLabel(n: int): string
  {
    NoteNames[NoteIndex(n)] + IntToString(Octave(n))
  }

  /** `69 + 12 * log2(freq / a4)`, with the host's base-2 logarithm passed in. */
  function NoteNumber(freq: real, a4: real, log2: real -> real): real
    requires a4 != 0.0
  {
    A4Number as real + 12.0 * log2(freq / a4)
  }

  /**
   The cents offset from the nearest note. The source computes
   `1200 * log2(freq / targetFreq)` with `targetFreq = a4 * 2^((nearest - 69) / 12)`;
   in exact arithmetic that is 100 times the distance from the note number to
   the nearest integer, which is what is modelled here.
   */
  function CentsOffset(noteNumber: real): (c: real)
    ensures -50.0 <= c < 50.0
    ensures (noteNumber - c / 100.0).Floor as real == noteNumber - c / 100.0
  {
    var nearest := JsRound(noteNumber);
    var c := 100.0 * (noteNumber - nearest as real);
    assert noteNumber - c / 100.0 == nearest as real;
    c
  }

  /** What `updateNoteData` publishes: the note label and the cents offset. */
  datatype NoteReading = NoteReading(note: string, cents: real)

  function MapNote(noteNumber: real): (r: NoteReading)
    ensures -50.0 <= r.cents < 50.0
    ensures r.note == NoteLabel(JsRound(noteNumber))
    ensures ParseNote(r.note) == Some(JsRound(noteNumber))
    ensures noteNumber == ParseNote(r.note).value as real + r.cents / 100.0
  {
    var nearest := JsRound(noteNumber);
    LabelRoundTrip(nearest);
    NoteReading(NoteLabel(nearest), CentsOffset(noteNumber))
  }

  // ---------------------------------------------------------------------
  // Reading a label back: the partner of NoteLabel.
  // ---------------------------------------------------------------------

  function DigitsValue(s: string): nat
    requires AllDigits(s)
  {
    if s == [] then 0 else DigitsValue(s[..|s| - 1]) * 10 + DigitValue(s[|s| - 1])
  }

  /** Reads an optionally negative decimal integer. */
  function ParseInt(s: string): Option<int>
  {
    if |s| >= 2 && s[0] == '-' && AllDigits(s[1..]) then Some(-(DigitsValue(s[1..]) as int))
    else if |s| >= 1 && AllDigits(s) then Some(DigitsValue(s))
    else None
  }

  function IndexOfName(name: string, k: nat): Option<nat>
    requires k <= |NoteNames|
    decreases |NoteNames| - k
  {
    if k == |NoteNames| then None
    else if NoteNames[k] == name then Some(k)
    else IndexOfName(name, k + 1)
  }

  /** The note number that a label names, if it is a well-formed label. */
  function ParseNote(s: string): Option<int>
  {
    var nameLength := if |s| >= 2 && s[1] == '#' then 2 else 1;
    if |s| < nameLength then None
    else
      match (IndexOfName(s[..nameLength], 0), ParseInt(s[nameLength..]))
      case (Some(i), Some(o)) => Some(12 * (o + 1) + i)
      case _ => None
  }

  lemma {:induction false} DigitsRoundTrip(n: nat)
    ensures DigitsValue(NatToString(n)) == n
  {
    var s := NatToString(n);
    if n >= 10 {
      DigitsRoundTrip(n / 10);
      assert s[..|s| - 1] == NatToString(n / 10);
    }
  }

  lemma ParseDigits(digits: string)
    requires |digits| >= 1 && AllDigits(digits)
    ensures ParseInt(digits) == Some(DigitsValue(digits) as int)
  {
    assert digits[0] != '-';
  }

  lemma ParseNegative(digits: string)
    requires |digits| >= 1 && AllDigits(digits)
    ensures ParseInt("-" + digits) == Some(-(DigitsValue(digits) as int))
  {
    assert ("-" + digits)[1..] == digits;
  }

  lemma IntRoundTrip(i: int)
    ensures ParseInt(IntToString(i)) == Some(i)
  {
    if i < 0 {
      NegativeRoundTrip(-i);
    } else {
      NonNegativeRoundTrip(i);
    }
  }

  lemma NegativeRoundTrip(n: nat)
    ensures ParseInt("-" + NatToString(n)) == Some(-(n as int))
  {
    DigitsRoundTrip(n);
    ParseNegative(NatToString(n));
  }

  lemma NonNegativeRoundTrip(n: nat)
    ensures ParseInt(NatToString(n)) == Some(n as int)
  {
    DigitsRoundTrip(n);
    ParseDigits(NatToString(n));
  }

  lemma NameIndexed(i: nat)
    requires i < 12
    ensures IndexOfName(NoteNames[i], 0) == Some(i)
  {
  }

  /** Pitch class and octave together recover the note number. */
  lemma PartsDetermineNote(n: int)
    ensures 12 * (Octave(n) + 1) + NoteIndex(n) == n
  {
    var o := Octave(n);
    assert n / 12 == o + 1 by {
      DivisionFromBounds(n, o + 1);
    }
  }

  lemma DivisionFromBounds(n: int, q: int)
    requires 12 * q <= n < 12 * q + 12
    ensures n / 12 == q
  {
  }

  /** Every pitch class and octave is reached, by exactly one note number. */
  lemma NoteFromParts(octave: int, index: int)
    requires 0 <= index < 12
    ensures NoteIndex(12 * (octave + 1) + index) == index
    ensures Octave(12 * (octave + 1) + index) == octave
  {
    var n := 12 * (octave + 1) + index;
    DivisionFromBounds(n, octave + 1);
    var o := Octave(n);
    assert 12 * (o + 1) <= n < 12 * (o + 2);
  }

  /** The label names exactly the note it was made from. */
  lemma {:induction false} LabelRoundTrip(n: int)
    ensures ParseNote(NoteLabel(n)) == Some(n)
  {
    var i, o := NoteIndex(n), Octave(n);
    var name, digits := NoteNames[i], IntToString(o);
    var s := NoteLabel(n);
    assert s == name + digits;
    var nameLength := if |s| >= 2 && s[1] == '#' then 2 else 1;
    assert nameLength == |name| by {
      if |name| == 1 { assert s[1] == digits[0]; }
    }
    assert s[..nameLength] == name;
    assert s[nameLength..] == digits;
    NameIndexed(i);
    IntRoundTrip(o);
    PartsDetermineNote(n);
  }

  /** Two notes with the same label are the same note. */
  lemma LabelInjective(m: int, n: int)
    requires NoteLabel(m) == NoteLabel(n)
    ensures m == n
  {
    LabelRoundTrip(m);
    LabelRoundTrip(n);
  }

  lemma KnownLabels()
    ensures NoteLabel(69) == "A4"
    ensures NoteLabel(60) == "C4"
    ensures NoteLabel(57) == "A3"
    ensures NoteLabel(70) == "A#4"
    ensures NoteLabel(-1) == "B-2"
    ensures NoteLabel(12) == "C0"
  {
  }
}
