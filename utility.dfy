/** The numeric helpers of the synthesizer: the amplitude clamp, the
    first-octave note table, note frequencies and pitch changes. */
module Utility {
  import opened Exceptions
  import opened PyMath

  /** Samples per second of every generated buffer. */
  const SampleRate: nat := 11250

  /** Clamps a value into [-1, 1]: `max(min(amplitude, 1.0), -1.0)`. */
  function LimitAmplitude(amplitude: real): (r: real)
    ensures -1.0 <= r <= 1.0
    ensures -1.0 <= amplitude <= 1.0 ==> r == amplitude
    ensures amplitude > 1.0 ==> r == 1.0
    ensures amplitude < -1.0 ==> r == -1.0
  {
    var upper := if amplitude < 1.0 then amplitude else 1.0;
    if upper > -1.0 then upper else -1.0
  }

  /** Clamping twice is clamping once. */
  lemma LimitAmplitudeIdempotent(x: real)
    ensures LimitAmplitude(LimitAmplitude(x)) == LimitAmplitude(x)
  {
  }

  /** The clamp preserves order. */
  lemma LimitAmplitudeMonotone(x: real, y: real)
    requires x <= y
    ensures LimitAmplitude(x) <= LimitAmplitude(y)
  {
  }

  /** The note names of one octave, in ascending pitch. */
  const Octave1Notes: seq<string> := ["C", "Db", "D", "Eb", "E", "F", "Gb", "G", "Ab", "A", "Bb", "B"]

  /** The frequencies, in Hz, of the notes of the first octave, position by position. */
  const Octave1Frequencies: seq<real> :=
    [32.70, 34.65, 36.71, 38.89, 41.20, 43.65, 46.25, 49.00, 51.91, 55.00, 58.27, 61.74]

  /** `notes.index(x)`: the first position of `x`, or ValueError when it is absent. */
  function IndexOf(notes: seq<string>, x: string): (r: Result<nat>)
    ensures r.Ok? ==> r.value < |notes| && notes[r.value] == x
    ensures r.Ok? ==> forall j :: 0 <= j < r.value ==> notes[j] != x
    ensures r.Err? ==> r.error == ValueError && x !in notes
  {
    if |notes| == 0 then Err(ValueError)
    else if notes[0] == x then Ok(0)
    else match IndexOf(notes[1..], x)
      case Ok(i) => Ok(i + 1)
      case Err(e) => Err(e)
  }

  /** No note name occurs twice in the table. */
  lemma NotesDistinct(i: nat, j: nat)
    requires i < j < |Octave1Notes|
    ensures Octave1Notes[i] != Octave1Notes[j]
  {
    var notes := Octave1Notes;
    assert notes[0] == "C" && notes[1] == "Db" && notes[2] == "D" && notes[3] == "Eb";
    assert notes[4] == "E" && notes[5] == "F" && notes[6] == "Gb" && notes[7] == "G";
    assert notes[8] == "Ab" && notes[9] == "A" && notes[10] == "Bb" && notes[11] == "B";
  }

  ghost predicate Distinct(notes: seq<string>)
  {
    forall i, j :: 0 <= i < j < |notes| ==> notes[i] != notes[j]
  }

  /** In a table without repeats, every entry is found at its own position. */
  lemma IndexOfDistinct(notes: seq<string>, i: nat)
    requires Distinct(notes) && i < |notes|
    ensures IndexOf(notes, notes[i]) == Ok(i)
  {
    assert IndexOf(notes, notes[i]).Ok?;
  }

  lemma NotesAreDistinct()
    ensures Distinct(Octave1Notes)
  {
    forall j, k | 0 <= j < k < |Octave1Notes|
      ensures Octave1Notes[j] != Octave1Notes[k]
    {
      NotesDistinct(j, k);
    }
  }

  /** Each note name is found at its own position. */
  lemma IndexOfNote(i: nat)
    requires i < |Octave1Notes|
    ensures IndexOf(Octave1Notes, Octave1Notes[i]) == Ok(i)
  {
    NotesAreDistinct();
    IndexOfDistinct(Octave1Notes, i);
  }

  /** 2 to a natural power. */
  function Pow2Nat(n: nat): (r: nat)
    ensures r >= 1
  {
    if n == 0 then 1 else 2 * Pow2Nat(n - 1)
  }

  /** `2 ** e` for an integer `e`; a negative exponent gives a fraction. */
  function Pow2(e: int): (r: real)
    ensures r > 0.0
    ensures e == 0 ==> r == 1.0
    ensures e >= 0 ==> r == Pow2Nat(e) as real
  {
    if e >= 0 then Pow2Nat(e) as real else 1.0 / Pow2Nat(-e) as real
  }

  /** Raising the exponent by one doubles the power, for every integer exponent. */
  lemma Pow2Succ(e: int)
    ensures Pow2(e + 1) == 2.0 * Pow2(e)
  {
    if e < -1 {
      var p := Pow2Nat(-e - 1) as real;
      assert Pow2Nat(-e) as real == 2.0 * p;
      calc {
        2.0 * Pow2(e);
        2.0 * (1.0 / (2.0 * p));
        1.0 / p;
      }
    }
  }

  /** Opposite exponents give reciprocal powers. */
  lemma Pow2Reciprocal(e: int)
    ensures Pow2(e) * Pow2(-e) == 1.0
  {
    var p := Pow2Nat(if e >= 0 then e else -e) as real;
    assert p > 0.0;
    assert Pow2(e) * Pow2(-e) == p * (1.0 / p);
  }

  /** `octave1Dict[noteChar]`: the table frequency paired with a note name,
      or KeyError for a name missing from the table. */
  function BaseFrequency(noteChar: string): (r: Result<real>)
    ensures r.Err? <==> noteChar !in Octave1Notes
    ensures r.Err? ==> r.error == KeyError
    ensures r.Ok? ==> r.value == Octave1Frequencies[IndexOf(Octave1Notes, noteChar).value]
  {
    match IndexOf(Octave1Notes, noteChar)
    case Ok(i) => Ok(Octave1Frequencies[i])
    case Err(_) => Err(KeyError)
  }

  /** `dict(zip(octave1Notes, octave1Frequencies))` pairs each name with the
      frequency at the same position. */
  lemma BaseFrequencyOfNote(i: nat)
    requires i < |Octave1Notes|
    ensures BaseFrequency(Octave1Notes[i]) == Ok(Octave1Frequencies[i])
  {
    IndexOfNote(i);
  }

  /** The frequency in `octave` of a note whose octave-1 frequency is `base`:
      `base * 2 ** (octave - 1)`. */
  function OctaveFrequency(base: real, octave: int): (r: real)
    ensures octave == 1 ==> r == base
    ensures base > 0.0 ==> r > 0.0
  {
    base * Pow2(octave - 1)
  }

  /** One octave up doubles the frequency (the comment in `getNoteFrequency`:
      the frequency of C2 is twice that of C1). */
  lemma OctaveFrequencyDoubles(base: real, octave: int)
    ensures OctaveFrequency(base, octave + 1) == 2.0 * OctaveFrequency(base, octave)
  {
    var p := Pow2(octave - 1);
    Pow2Succ(octave - 1);
    assert base * (2.0 * p) == 2.0 * (base * p);
  }

  /** `getNoteFrequency`: the first-octave frequency of the note scaled to
      `octave`; KeyError for a name missing from the table. */
  function NoteFrequency(noteChar: string, octave: int): (r: Result<real>)
    ensures r.Err? <==> noteChar !in Octave1Notes
    ensures r.Err? ==> r.error == KeyError
  {
    match BaseFrequency(noteChar)
    case Ok(base) => Ok(OctaveFrequency(base, octave))
    case Err(e) => Err(e)
  }

  /** In octave 1 a note sounds at its table frequency. */
  lemma NoteFrequencyFirstOctave(i: nat)
    requires i < |Octave1Notes|
    ensures NoteFrequency(Octave1Notes[i], 1) == Ok(Octave1Frequencies[i])
  {
    BaseFrequencyOfNote(i);
  }

  /** The same note one octave higher has twice the frequency. */
  lemma NoteFrequencyNextOctave(noteChar: string, octave: int)
    requires noteChar in Octave1Notes
    ensures NoteFrequency(noteChar, octave + 1).value == 2.0 * NoteFrequency(noteChar, octave).value
  {
    OctaveFrequencyDoubles(BaseFrequency(noteChar).value, octave);
  }

  /** `getPitchChangedData` over a given one-octave table of note names. The
      octave moves by `halfSteps // 12` and the note name by `halfSteps % 12`
      positions within the table, with no wrap into the next octave: a
      position past the end raises IndexError, an unknown name ValueError. */
  function PitchChangedIn(notes: seq<string>, noteChar: string, octave: int, halfSteps: int)
    : (r: Result<(string, int)>)
    ensures r.Err? <==>
              noteChar !in notes || IndexOf(notes, noteChar).value + Mod(halfSteps, 12) >= |notes|
    ensures r.Err? ==> r.error == if noteChar in notes then IndexError else ValueError
    ensures r.Ok? ==> r.value.0 in notes && r.value.1 == octave + FloorDiv(halfSteps, 12)
  {
    var octaveChange := FloorDiv(halfSteps, 12);
    var noteTypeChange := Mod(halfSteps, 12);
    var newOctave := octave + octaveChange;
    match IndexOf(notes, noteChar)
    case Err(e) => Err(e)
    case Ok(i) =>
      if i + noteTypeChange < |notes| then Ok((notes[i + noteTypeChange], newOctave))
      else Err(IndexError)
  }

  /** `getPitchChangedData`, over the module's table `octave1Notes`. */
  function PitchChanged(noteChar: string, octave: int, halfSteps: int): (r: Result<(string, int)>)
    ensures r.Err? <==>
              noteChar !in Octave1Notes || IndexOf(Octave1Notes, noteChar).value + Mod(halfSteps, 12) >= 12
    ensures r.Err? ==> r.error == if noteChar in Octave1Notes then IndexError else ValueError
    ensures r.Ok? ==> r.value.0 in Octave1Notes && r.value.1 == octave + FloorDiv(halfSteps, 12)
  {
    PitchChangedIn(Octave1Notes, noteChar, octave, halfSteps)
  }

  /** Where a successful pitch change lands: the new name sits exactly
      `halfSteps % 12` places after the old one in the table (the table has
      no repeated names, so the place is well defined), and the octave has
      moved by `halfSteps // 12`. */
  lemma PitchChangedSpec(noteChar: string, octave: int, halfSteps: int)
    requires PitchChanged(noteChar, octave, halfSteps).Ok?
    ensures var (newChar, newOctave) := PitchChanged(noteChar, octave, halfSteps).value;
            IndexOf(Octave1Notes, newChar).value == IndexOf(Octave1Notes, noteChar).value + Mod(halfSteps, 12) &&
            newOctave == octave + FloorDiv(halfSteps, 12)
  {
    NotesAreDistinct();
    IndexOfDistinct(Octave1Notes, IndexOf(Octave1Notes, noteChar).value + Mod(halfSteps, 12));
  }

  lemma PitchChangedInSemitones(notes: seq<string>, noteChar: string, octave: int, halfSteps: int)
    requires Distinct(notes)
    requires PitchChangedIn(notes, noteChar, octave, halfSteps).Ok?
    ensures var (newChar, newOctave) := PitchChangedIn(notes, noteChar, octave, halfSteps).value;
            newChar in notes &&
            newOctave * 12 + IndexOf(notes, newChar).value
              == octave * 12 + IndexOf(notes, noteChar).value + halfSteps
  {
    var i := IndexOf(notes, noteChar).value;
    IndexOfDistinct(notes, i + Mod(halfSteps, 12));
  }

  /** A successful pitch change moves the note by exactly `halfSteps`
      semitones: counting 12 semitones per octave, the new position is the
      old one plus `halfSteps`. */
  lemma PitchChangedSemitones(noteChar: string, octave: int, halfSteps: int)
    requires PitchChanged(noteChar, octave, halfSteps).Ok?
    ensures var (newChar, newOctave) := PitchChanged(noteChar, octave, halfSteps).value;
            newChar in Octave1Notes &&
            newOctave * 12 + IndexOf(Octave1Notes, newChar).value
              == octave * 12 + IndexOf(Octave1Notes, noteChar).value + halfSteps
  {
    NotesAreDistinct();
    PitchChangedInSemitones(Octave1Notes, noteChar, octave, halfSteps);
  }

  /** Zero half steps leave the note and the octave as they are. */
  lemma PitchChangedZero(noteChar: string, octave: int)
    requires noteChar in Octave1Notes
    ensures PitchChanged(noteChar, octave, 0) == Ok((noteChar, octave))
  {
    PitchChangedInOctaves(Octave1Notes, noteChar, octave, 0);
  }

  lemma PitchChangedInOctaves(notes: seq<string>, noteChar: string, octave: int, k: int)
    requires noteChar in notes
    ensures PitchChangedIn(notes, noteChar, octave, 12 * k) == Ok((noteChar, octave + k))
  {
    DivModOfMultiple(12, k);
  }

  /** A whole number of octaves keeps the note name and moves only the octave. */
  lemma PitchChangedOctaves(noteChar: string, octave: int, k: int)
    requires noteChar in Octave1Notes
    ensures PitchChanged(noteChar, octave, 12 * k) == Ok((noteChar, octave + k))
  {
    PitchChangedInOctaves(Octave1Notes, noteChar, octave, k);
  }

  /** A note whose position plus `halfSteps % 12` runs past the table raises
      IndexError rather than wrapping into the next octave. */
  lemma PitchChangedNoWrap(noteChar: string, octave: int, halfSteps: int)
    requires noteChar in Octave1Notes
    requires IndexOf(Octave1Notes, noteChar).value + Mod(halfSteps, 12) >= |Octave1Notes|
    ensures PitchChanged(noteChar, octave, halfSteps) == Err(IndexError)
  {
  }

  /** Raising "B" by one half step runs past the table instead of giving "C"
      of the next octave. */
  lemma PitchUpFromB()
    ensures PitchChanged("B", 1, 1) == Err(IndexError)
  {
    IndexOfNote(11);
    PitchChangedNoWrap("B", 1, 1);
  }

  /** The pitch change as evidently intended, over a given table: the note's
      position plus `halfSteps`, counted in semitones across octaves, so a
      position past the end of the table carries into the next octave. An
      unknown name still raises ValueError. */
  function PitchShiftedIn(notes: seq<string>, noteChar: string, octave: int, halfSteps: int)
    : (r: Result<(string, int)>)
    ensures r.Err? <==> noteChar !in notes
    ensures r.Err? ==> r.error == ValueError
    ensures r.Ok? ==> r.value.0 in notes
  {
    match IndexOf(notes, noteChar)
    case Err(e) => Err(e)
    case Ok(i) =>
      var position := i + halfSteps;
      Ok((notes[Mod(position, |notes|)], octave + FloorDiv(position, |notes|)))
  }

  /** The intended pitch change, over `octave1Notes`. */
  function PitchShifted(noteChar: string, octave: int, halfSteps: int): (r: Result<(string, int)>)
    ensures r.Err? <==> noteChar !in Octave1Notes
    ensures r.Err? ==> r.error == ValueError
    ensures r.Ok? ==> r.value.0 in Octave1Notes
  {
    PitchShiftedIn(Octave1Notes, noteChar, octave, halfSteps)
  }

  lemma PitchShiftedInSemitones(notes: seq<string>, noteChar: string, octave: int, halfSteps: int)
    requires Distinct(notes) && noteChar in notes
    ensures PitchShiftedIn(notes, noteChar, octave, halfSteps).Ok?
    ensures var (newChar, newOctave) := PitchShiftedIn(notes, noteChar, octave, halfSteps).value;
            newChar in notes &&
            newOctave * |notes| + IndexOf(notes, newChar).value
              == octave * |notes| + IndexOf(notes, noteChar).value + halfSteps
  {
    var i := IndexOf(notes, noteChar).value;
    var m := |notes|;
    var k, q := Mod(i + halfSteps, m), FloorDiv(i + halfSteps, m);
    assert PitchShiftedIn(notes, noteChar, octave, halfSteps) == Ok((notes[k], octave + q));
    IndexOfDistinct(notes, k);
    OctaveCarry(m, octave, i + halfSteps);
  }

  /** Splitting a semitone offset into whole octaves and a remainder loses
      nothing. */
  lemma OctaveCarry(m: int, octave: int, offset: int)
    requires m > 0
    ensures (octave + FloorDiv(offset, m)) * m + Mod(offset, m) == octave * m + offset
  {
    var q := FloorDiv(offset, m);
    assert (octave + q) * m == octave * m + q * m;
  }

  /** Every known note can be moved by any number of half steps, and it moves
      by exactly that many semitones, 12 to the octave. */
  lemma PitchShiftedSemitones(noteChar: string, octave: int, halfSteps: int)
    requires noteChar in Octave1Notes
    ensures PitchShifted(noteChar, octave, halfSteps).Ok?
    ensures var (newChar, newOctave) := PitchShifted(noteChar, octave, halfSteps).value;
            newChar in Octave1Notes &&
            newOctave * 12 + IndexOf(Octave1Notes, newChar).value
              == octave * 12 + IndexOf(Octave1Notes, noteChar).value + halfSteps
  {
    NotesAreDistinct();
    PitchShiftedInSemitones(Octave1Notes, noteChar, octave, halfSteps);
  }

  /** A semitone count and a position within the octave fix the octave and
      the position. */
  lemma SemitoneCountUnique(m: nat, o1: int, i1: int, o2: int, i2: int)
    requires 0 <= i1 < m && 0 <= i2 < m && o1 * m + i1 == o2 * m + i2
    ensures o1 == o2 && i1 == i2
  {
    var a := o1 * m + i1;
    DivModUnique(a, m, o1, i1);
    DivModUnique(a, m, o2, i2);
  }

  lemma PitchShiftedInInverse(notes: seq<string>, noteChar: string, octave: int, halfSteps: int)
    requires Distinct(notes) && noteChar in notes
    ensures PitchShiftedIn(notes, noteChar, octave, halfSteps).Ok?
    ensures var (newChar, newOctave) := PitchShiftedIn(notes, noteChar, octave, halfSteps).value;
            PitchShiftedIn(notes, newChar, newOctave, -halfSteps) == Ok((noteChar, octave))
  {
    PitchShiftedInSemitones(notes, noteChar, octave, halfSteps);
    var (newChar, newOctave) := PitchShiftedIn(notes, noteChar, octave, halfSteps).value;
    PitchShiftedInSemitones(notes, newChar, newOctave, -halfSteps);
    var (backChar, backOctave) := PitchShiftedIn(notes, newChar, newOctave, -halfSteps).value;
    SemitoneCountUnique(|notes|, backOctave, IndexOf(notes, backChar).value, octave, IndexOf(notes, noteChar).value);
  }

  /** Moving up and then down by the same number of half steps gives the
      note back. */
  lemma PitchShiftedInverse(noteChar: string, octave: int, halfSteps: int)
    requires noteChar in Octave1Notes
    ensures PitchShifted(noteChar, octave, halfSteps).Ok?
    ensures var (newChar, newOctave) := PitchShifted(noteChar, octave, halfSteps).value;
            PitchShifted(newChar, newOctave, -halfSteps) == Ok((noteChar, octave))
  {
    NotesAreDistinct();
    PitchShiftedInInverse(Octave1Notes, noteChar, octave, halfSteps);
  }

  lemma PitchShiftedInAgrees(notes: seq<string>, noteChar: string, octave: int, halfSteps: int)
    requires |notes| == 12
    requires PitchChangedIn(notes, noteChar, octave, halfSteps).Ok?
    ensures PitchShiftedIn(notes, noteChar, octave, halfSteps) == PitchChangedIn(notes, noteChar, octave, halfSteps)
  {
    var i := IndexOf(notes, noteChar).value;
    var q, k := FloorDiv(halfSteps, 12), Mod(halfSteps, 12);
    DivModUnique(i + halfSteps, 12, q, i + k);
  }

  /** Wherever the pitch change as written succeeds, the intended one gives
      the same note and octave. */
  lemma PitchShiftedAgrees(noteChar: string, octave: int, halfSteps: int)
    requires PitchChanged(noteChar, octave, halfSteps).Ok?
    ensures PitchShifted(noteChar, octave, halfSteps) == PitchChanged(noteChar, octave, halfSteps)
  {
    PitchShiftedInAgrees(Octave1Notes, noteChar, octave, halfSteps);
  }

  /** The intended change raises "B" by one half step to "C" of the next
      octave. */
  lemma PitchShiftedFromB()
    ensures PitchShifted("B", 1, 1) == Ok(("C", 2))
  {
    IndexOfNote(11);
    DivModUnique(12, 12, 1, 0);
  }
}
