# bleepbloop sound algebra, modelled in Dafny

This project models the core of a small Python synthesiser. `SoundGenerator` in `bleep.py` holds a buffer of audio samples at 11 250 samples per second, together with a wave type, frequency, amplitude and duration. It generates sine, square, sawtooth, constant and white-noise buffers. It also combines sounds with an algebra:

- `+`, `-` and `*` mix two buffers over the shorter one's length and clamp the result;
- `*` by a number scales a sound;
- `^` joins two sounds;
- `**` modulates one sound by another, tiling the shorter buffer first;
- `shift_by` delays a sound.

The helpers in `utility.py` are modelled too: `limit_amplitude`, note frequencies and pitch changes.

Modules, one file each:

- `Exceptions` (`exceptions.dfy`): the Python exceptions the core can raise, and a `Result` type that reports them.
- `PyMath` (`pymath.dfy`): `int()` on a float, `//` and `%` by a positive divisor, `math.gcd`, `abs`, `np.sign`.
- `Utility` (`utility.dfy`): `utility.py`'s clamp, note tables, `getNoteFrequency` and `getPitchChangedData`.
- `Buffers` (`buffers.dfy`): numpy's `resize`, `roll`, `max` and `zeros` on one-dimensional arrays. Also the prefix overlay of `combine_sounds`, as an array loop, and the buffers that the operators produce.
- `Waveform` (`waveform.dfy`): the wave generators and the dispatch that `__init__` performs.
- `Bleep` (`bleep.dfy`): the `SoundGenerator` class. Its constant metadata fields and its one mutable field, `sound`, are kept as in the source. Each operator is a method that builds a fresh object and leaves its operands unchanged.

Samples, frequencies and durations are exact `real`s. An exception the source raises becomes an `Err` result that carries the exception's kind.

These choices follow numpy's behaviour:

- **`np.resize`** uses numpy's algorithm. An empty source gives zeros. Otherwise, ceil(n / len) copies are concatenated and cut to length.
- **`np.roll`** moves the last `shift % len` samples to the front.
- **`np.vectorize`** refuses an empty array. **`np.max`** refuses an empty array.
- **`np.sign(0)`** is 0.
- **`math.pi`** is the double 3.141592653589793.
- **`np.sin` and the draws of `np.random.uniform(-1, 1)`** are not computed. They are parameters (`Waveform.Numerics`). All the model assumes about them (`Waveform.Sane`) is that a sine stays in [-1, 1] and a draw in [-1, 1).

**Where the code does something other than what its formulas and comments suggest, the model follows the code:**

- **Combined and joined frequency:** the formula suggests the usual lcm, `abs(a * b) / gcd(a, b)`. But `int(fa) * int(fb) / gcd(...)` has no absolute value, so the result keeps the sign of the product. Up to that sign it is the least common multiple (`Bleep.CombinedFrequencyIsLeast`).
- **Division by zero:** it happens only when *both* frequencies truncate to zero. If just one is zero, `gcd` is the other's magnitude and the frequency is 0.
- **Empty buffers:** combining two empty buffers raises ValueError, because `np.vectorize` refuses empty input. Joining or modulating two empty buffers raises ValueError at `np.max`. If only one buffer is empty, everything is defined.
- **Generated buffers are not clamped.** They stay in [-1, 1] only because the amplitude is clamped and the library is well behaved (`Waveform.Generate`).
- **Sample count:** it is `int(duration * 11250)`, which truncates rather than rounds. A negative count raises ValueError, but only for the generated wave types. A zero frequency raises ZeroDivisionError for the three periodic types. A cycle shorter than one sample (a negative frequency, or one above 11 250 Hz) gives an empty phase array. The sine and square waves then fall silent, because `np.resize` of an empty array gives zeros. The sawtooth raises ValueError, because `np.vectorize` refuses the empty array.
- **Shift:** `shift_by(n)` with `n` larger than the buffer gives `n` zeros, so the buffer gets *longer*.
- **Modulation tiling:** `**` tiles the shorter buffer cyclically (`np.resize`).
- **Subtraction:** `a - b` with a longer `b` computes `b - a` on the overlap, because the longer buffer is always the left operand.

## Model

| member | source | states |
|---|---|---|
| PyMath.Trunc | bleep.py:43 | `int()` of a float rounds toward zero: floor bounds for non-negative input, ceiling bounds for negative input |
| PyMath.FloorDiv | utility.py:64 | `halfSteps // 12` is the largest multiple of 12 not above `halfSteps` |
| PyMath.Mod | utility.py:65 | `halfSteps % 12` lies in [0, 12) and completes the floor division to `halfSteps` |
| PyMath.Gcd | bleep.py:106-110 | `math.gcd` is zero exactly when both arguments are zero |
| PyMath.GcdDivides | bleep.py:106-110 | `math.gcd` divides both of its arguments |
| PyMath.GcdBezout | bleep.py:106-110 | `math.gcd(x, y)` is an integer combination `s * x + t * y` (Bezout's identity), whatever the signs |
| PyMath.GcdGreatest | bleep.py:106-110 | every common divisor of the arguments divides `math.gcd`, so it is the greatest one |
| PyMath.LcmDividesCommonMultiple | bleep.py:106-110 | `(x / gcd(x, y)) * y` divides every common multiple `x * k1 == y * k2` |
| PyMath.Sign | bleep.py:61 | `np.sign` is -1, 0 or 1 and has the sign of its argument |
| Utility.LimitAmplitude | utility.py:78-80 | the clamp lands in [-1, 1], is the identity on [-1, 1] and saturates at -1 and 1 outside |
| Utility.LimitAmplitudeIdempotent | utility.py:78-80 | clamping twice is clamping once |
| Utility.LimitAmplitudeMonotone | utility.py:78-80 | the clamp preserves order |
| Utility.IndexOf | utility.py:68 | `list.index` gives the first position holding the name, and ValueError exactly when the name is absent |
| Utility.IndexOfNote | utility.py:14 | each note name of `octave1Notes` is found at its own position (no name repeats) |
| Utility.BaseFrequencyOfNote | utility.py:31 | the dictionary maps note `i` of `octave1Notes` to frequency `i` of `octave1Frequencies` |
| Utility.BaseFrequency | utility.py:55 | the dictionary lookup raises KeyError exactly for an unknown name, and otherwise gives the table frequency |
| Utility.Pow2 | utility.py:56 | `2 ** e` is positive, is 1 at exponent 0 and is the whole power `2^e` for a non-negative exponent |
| Utility.Pow2Reciprocal | utility.py:56 | `2 ** e * 2 ** -e == 1`: a negative exponent gives the reciprocal |
| Utility.Pow2Succ | utility.py:56 | `2 ** (e + 1)` is twice `2 ** e` for every integer exponent, negative ones included |
| Utility.OctaveFrequency | utility.py:56 | `base * 2 ** (octave - 1)` is the base frequency itself in octave 1, and positive for a positive base |
| Utility.OctaveFrequencyDoubles | utility.py:56 | one octave up doubles `base * 2 ** (octave - 1)` |
| Utility.NoteFrequency | utility.py:51-57 | `getNoteFrequency` raises KeyError exactly for an unknown note name |
| Utility.NoteFrequencyFirstOctave | utility.py:51-57 | in octave 1 every note has its table frequency |
| Utility.NoteFrequencyNextOctave | utility.py:53-56 | the same note one octave higher has twice the frequency |
| Utility.PitchChangedIn | utility.py:60-70 | over any note table: the change fails exactly for an unknown name (ValueError) or when `index + halfSteps % 12` runs past the table (IndexError). Otherwise it gives a name from the table and the octave moved by `halfSteps // 12` |
| Utility.PitchChanged | utility.py:60-70 | `getPitchChangedData` fails exactly for an unknown name (ValueError) or when `index + halfSteps % 12` reaches 12 (IndexError). Otherwise it gives a known name and the octave moved by `halfSteps // 12` |
| Utility.PitchChangedSpec | utility.py:64-68 | on success the new name sits exactly `halfSteps % 12` places after the old one in `octave1Notes`, and the octave has moved by `halfSteps // 12` |
| Utility.PitchChangedSemitones | utility.py:60-70 | a successful change moves the note by exactly `halfSteps` semitones, 12 to the octave, onto a known name |
| Utility.PitchChangedZero | utility.py:60-70 | zero half steps change nothing |
| Utility.PitchChangedOctaves | utility.py:64-68 | `12 * k` half steps keep the name and move the octave by `k` |
| Utility.PitchChangedNoWrap | utility.py:68 | a position past the end of the table raises IndexError instead of wrapping into the next octave |
| Utility.PitchUpFromB | utility.py:68 | "B" raised by one half step raises IndexError |
| Utility.PitchShiftedIn | utility.py:60-70 | the corrected pitch change fails, with ValueError, exactly for an unknown name, and otherwise gives a name from the table |
| Utility.PitchShifted | utility.py:60-70 | the corrected change over `octave1Notes` fails, with ValueError, exactly for an unknown name, and otherwise gives a known name |
| Utility.PitchShiftedSemitones | utility.py:60-70 | the corrected change succeeds for every known note and moves it by exactly `halfSteps` semitones |
| Utility.PitchShiftedInverse | utility.py:60-70 | moving up and then down by the same number of half steps gives the note back |
| Utility.PitchShiftedAgrees | utility.py:60-70 | wherever the code as written succeeds, the corrected change agrees with it |
| Utility.PitchShiftedFromB | utility.py:60-70 | the corrected change raises "B" of octave 1 by one half step to "C" of octave 2 |
| Buffers.Zeros | bleep.py:230 | `np.zeros(n)` is `n` samples of 0 |
| Buffers.Resize | bleep.py:57 | `np.resize(s, n)` has length `n` and wraps `s` around cyclically (`s[i % len(s)]`), or is all zeros for an empty `s` |
| Buffers.ResizeToOwnLength | bleep.py:57 | resizing a buffer to its own length gives it back |
| Buffers.ResizePeriodic | bleep.py:57 | a resized buffer repeats with the period of its source |
| Buffers.Roll | bleep.py:229 | `np.roll(s, k)` keeps the length and moves every sample `k` places right, cyclically, for any integer `k` |
| Buffers.RollInverse | bleep.py:229 | rolling back by `-k` undoes a roll by `k` |
| Buffers.Shifted | bleep.py:229-231 | for `n <= len`: the length is kept, the first `n` samples are 0 and sample `i >= n` is the old sample `i - n`. For a longer `n` the result is `n` zeros |
| Buffers.ShiftedByZero | bleep.py:229-231 | shifting by 0 changes nothing |
| Buffers.ShiftedTwice | bleep.py:229-231 | two shifts that stay within the buffer add up |
| Buffers.ShiftedBounded | bleep.py:229-231 | shifting keeps an in-range buffer in range |
| Buffers.Longer | bleep.py:87-92 | the base of `combine_sounds` is one of the two buffers and at least as long as either; on a tie it is `self`'s |
| Buffers.Shorter | bleep.py:176-182 | the other operand is one of the two buffers and no longer than either; on a tie it is `sound_obj`'s |
| Buffers.Overlay | bleep.py:95-100 | the prefix as long as the overlay is combined element-wise, with the base on the left of the operator; the tail of the base is kept |
| Buffers.OverlayPrefix | bleep.py:87-100 | the copy of the base, updated in place sample by sample by a loop, ends as the overlay of the two |
| Buffers.LimitAll | bleep.py:103 | the vectorised clamp keeps the length, clamps each sample and leaves every sample in [-1, 1] |
| Buffers.LimitAllOfBounded | bleep.py:103 | clamping an in-range buffer changes nothing |
| Buffers.CombinedSamples | bleep.py:85-103 | the mix is as long as the longer operand and in [-1, 1]. Each sample is the clamped value of `base op overlay` on the overlap, where the base is the longer operand (`self` on a tie), and the clamped base sample after it |
| Buffers.SubtractLongerReverses | bleep.py:87-98 | subtracting a longer buffer yields `b - a` on the overlap |
| Buffers.CombineCommutes | bleep.py:85-103 | `+` and `*` of two sounds give the same buffer in either order |
| Buffers.AddThenSubtract | bleep.py:126-130 | without saturation, adding and then subtracting `b` gives `a` back on `a`'s whole length |
| Buffers.Modulated | bleep.py:174-201 | `**` is as long as the longer operand and in [-1, 1]. Sample `i` is the clamped product of the longer sample `i` with the shorter buffer's sample `i % len(shorter)`, or 0 for an empty shorter buffer |
| Buffers.ModulatedCommutes | bleep.py:174-201 | `a ** b` and `b ** a` give the same buffer |
| Buffers.MaxOf | bleep.py:112 | `np.max` of a non-empty buffer is one of its samples and is not below any of them |
| Buffers.Max | bleep.py:160 | `np.max` raises ValueError exactly for an empty buffer |
| Buffers.MaxOfBounded | bleep.py:112 | the loudest sample of an in-range buffer is in range, so the clamp keeps it |
| Buffers.MaxOfConcat | bleep.py:151-161 | the loudest sample of a join is the louder of the two parts' loudest samples |
| Buffers.JoinBounded | bleep.py:151 | joining in-range buffers gives an in-range buffer |
| Buffers.Scale | bleep.py:144 | `sound * scale_factor` keeps the length; a factor of 1 changes nothing and a factor of 0 gives silence |
| Buffers.ScaleBounded | bleep.py:144 | scaling by a factor in [0, 1] keeps an in-range buffer in range |
| Waveform.SampleCount | bleep.py:42-43 | `int(duration * SAMPLE_RATE)` is the number of whole samples in a non-negative duration, and is not positive for a negative one |
| Waveform.PhaseArray | bleep.py:45-49 | computing the cycle length divides by zero exactly at frequency 0 |
| Waveform.PhaseArrayLength | bleep.py:45-49 | for a positive frequency there are as many phases as whole samples fit in one cycle, `SAMPLE_RATE / frequency`; a negative frequency gives none |
| Waveform.PhaseArrayAt | bleep.py:45-49 | phase `k` is `k * 2 pi frequency / SAMPLE_RATE` and lies in [0, 2 pi) |
| Waveform.SineWave | bleep.py:51-57 | the sine wave fails with ZeroDivisionError at frequency 0 and ValueError for a negative sample count. Otherwise, sample `i` is the scaled sine at the phase of `i % cycle`, or silence for a cycle shorter than one sample. It never exceeds the amplitude |
| Waveform.SineCycle | bleep.py:55 | one cycle `amplitude * np.sin(phase_array)` has a sample per phase and, with a well-behaved sine, stays within the amplitude |
| Waveform.SquareSample | bleep.py:59-61 | a square sample is one of `-abs(amplitude)`, 0 and `abs(amplitude)` |
| Waveform.SquareWave | bleep.py:59-61 | the square wave fails exactly as the sine wave does. Sample `i` is `abs(amplitude)` times the sign of the sine under it |
| Waveform.Saw | bleep.py:67-68 | the sawtooth `1 - x / pi` is 1 at phase 0 and stays in (-1, 1] over one turn |
| Waveform.SawtoothCycle | bleep.py:67-69 | one cycle `amplitude * saw(phase_array)` has a sample per phase and, over phases within one turn, stays within the amplitude |
| Waveform.SawAtPhase | bleep.py:63-71 | pi cancels out of the sawtooth: at the phase of sample `k` it is `1 - 2 k frequency / SAMPLE_RATE`, and over one turn it stays in (-1, 1] |
| Waveform.SawtoothWave | bleep.py:63-71 | the sawtooth fails exactly at frequency 0 (ZeroDivisionError), for a cycle shorter than one sample (ValueError, as `np.vectorize` refuses the empty phase array) and for a negative sample count (ValueError). Otherwise sample `i` lies at place `i % cycle` of its cycle and drops from the amplitude by `2 * amplitude * frequency / SAMPLE_RATE` per sample. It never exceeds the amplitude |
| Waveform.ConstantWave | bleep.py:73-79 | the constant wave is `n` copies of the amplitude, or ValueError for a negative `n` |
| Waveform.NoiseWave | bleep.py:81-83 | white noise is `n` successive uniform draws in [-1, 1), ignoring the amplitude, or ValueError for a negative `n` |
| Waveform.Generate | bleep.py:29-40 | generation succeeds unless a periodic type has frequency 0 (ZeroDivisionError), a sawtooth has a cycle shorter than one sample (ValueError) or a generated type has a negative sample count (ValueError). The amplitude and library values do not affect success. A generated buffer has the sample count's length; any other wave type gets an empty buffer. An amplitude in [-1, 1] keeps the buffer in [-1, 1] |
| Bleep.CombinedFrequency | bleep.py:106-110 | the combined frequency divides by zero exactly when both frequencies truncate to 0 |
| Bleep.CombinedFrequencyIsCommonMultiple | bleep.py:106-110 | the combined frequency is a whole multiple of each truncated frequency, `(x / g) * y == x * (y / g)` |
| Bleep.CombinedFrequencyIsLeast | bleep.py:106-110 | every common multiple of the truncated frequencies is a whole multiple of the combined frequency, so it is the least common multiple up to sign |
| Bleep.CombinedFrequencySame | bleep.py:106-110 | combining two sounds of the same whole frequency keeps its magnitude, e.g. 100 for the "Temp" sounds of `**` |
| Bleep.BufferDuration | bleep.py:111 | a buffer's duration, `len / SAMPLE_RATE`, gives back exactly the buffer's length as its sample count |
| Bleep.ScaleFactor | bleep.py:134-136 | the scalar factor lies in [0, 1]: the number itself inside [0, 1], 0 below it and 1 above it |
| Bleep.SoundGenerator.Valid | bleep.py:17-40 | what every object keeps: under it, regenerating the buffer for the object's metadata succeeds whatever the library, as the scalar product and `shift_by` need |
| Bleep.SoundGenerator.Create | bleep.py:17-40 | construction clamps the amplitude, fixes the sample count and generates the buffer for the wave type, or raises the generator's error. With a well-behaved library the buffer is in [-1, 1] |
| Bleep.SoundGenerator.WithSound | bleep.py:17-27 | construction followed by `set_sound`: the metadata as given, the amplitude clamped, the buffer replaced |
| Bleep.SoundGenerator.GetSound | bleep.py:215-216 | `get_sound` returns the buffer the object holds |
| Bleep.SoundGenerator.SetSound | bleep.py:218-219 | `set_sound` replaces the buffer and nothing else |
| Bleep.SoundGenerator.CombineSounds | bleep.py:85-124 | two empty buffers raise ValueError, then frequencies both truncating to 0 raise ZeroDivisionError. Otherwise the result is a fresh "Combination" holding `CombinedSamples`, with the combined frequency, its loudest sample as amplitude and its length as duration |
| Bleep.SoundGenerator.Add | bleep.py:126-127 | `+` is `combine_sounds` with addition |
| Bleep.SoundGenerator.Subtract | bleep.py:129-130 | `-` is `combine_sounds` with subtraction |
| Bleep.SoundGenerator.MultiplySound | bleep.py:132-146 | `*` with a sound is `combine_sounds` with multiplication |
| Bleep.SoundGenerator.MultiplyScalar | bleep.py:133-145 | `*` with a number scales both the buffer and the amplitude by the clamped, non-negative factor, and keeps the other metadata |
| Bleep.SoundGenerator.Join | bleep.py:148-172 | frequencies both truncating to 0 raise ZeroDivisionError, then two empty buffers raise ValueError. Otherwise the result is a fresh "Join" of the two buffers, one after the other, with the durations summed and the clamped loudest sample as amplitude |
| Bleep.SoundGenerator.Modulate | bleep.py:174-201 | `**` fails, with ValueError, only for two empty buffers. Otherwise the result is a fresh "Combination" with frequency 100 holding `Modulated`, its loudest sample as amplitude and its length as duration |
| Bleep.SoundGenerator.ShiftBy | bleep.py:227-235 | `shift_by(n)` raises ValueError exactly for a negative `n`. Otherwise it returns a sound with the same metadata holding the `Shifted` buffer |

## Left out

- `np.sin` and `np.random.uniform` are not computed. They are parameters of the model, and only their ranges are assumed. Randomness and transcendental functions are outside what the model states.
- Floating-point rounding, NaN and infinities are not modelled: all arithmetic is exact. For example, the model takes `floor(float(halfSteps) / 12.0)` to be exactly `halfSteps // 12`, and `int()` of an infinite float does not raise OverflowError.
- `.astype(np.float)` is taken as a conversion to float. NumPy versions where the `np.float` alias is gone, and that raise AttributeError, are not modelled.
- Bleep.SoundGenerator.WithSound: the constructor generates a buffer and `set_sound` then replaces it straight away, so the model skips that buffer. It requires that generation would succeed, which is the condition under which the source does not raise.
- Bleep.SoundGenerator.MultiplyScalar: requires `Valid()`, which every constructor and operation ensures. Under it, regenerating the buffer for the new object cannot raise. Noise draws that are thrown away are not modelled.
- Bleep.SoundGenerator.ShiftBy: requires `Valid()`, for the same reason as MultiplyScalar.
- Bleep.SoundGenerator.GetSound: returns the buffer as a value. Python returns the array itself, so a caller could mutate the object's buffer through it. That aliasing is not modelled.
- The default arguments of `__init__` (`wave_type="Sine"`, `frequency=500`, `amplitude=1.0`, `duration=5`) and of `combine_sounds` (`operator="+"`) are not modelled. Every call inside the modelled core passes all of its arguments. Only `main`, which is not modelled, relies on the defaults, so the model's constructor and `CombineSounds` take every argument explicitly.
- `combine_sounds` with an operator string other than "+", "-" or "*" is not modelled. It would only clamp the longer buffer, and no caller passes such a string.
- Python's dynamic typing is not modelled, such as `*` by a `bool` or an operator applied to a non-sound. Nor are the `str()`/`float()` conversions of non-numeric constructor arguments. Octaves and half steps are integers.
- `get_frequency` and `get_duration` are plain reads of constant fields (`frequency`, `duration`). `__str__` only formats text.
- `main`, `main2`, `writeWAVToFile` (file output), `convertTimeToSampleCount`, `getDurationOf8thNote` and the score-length and note-length constants are not part of this model.

## Findings

| source | as written | input that shows it | evidently intended | confidence | as-written member | corrected member |
|---|---|---|---|---|---|---|
| utility.py:64-68 | the note moves by `halfSteps % 12` places in the 12-name table and the octave by `halfSteps // 12`, so no carry passes into the next octave | `getPitchChangedData("B", 1, 1)` raises IndexError | move by `halfSteps` semitones across octaves: ("C", 2) | likely; not executed | Utility.PitchUpFromB | Utility.PitchShiftedSemitones |
