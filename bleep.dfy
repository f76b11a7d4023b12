/** `SoundGenerator`: a sound with its wave type, frequency, amplitude and
    duration, and the algebra on sounds — mixing (`+`, `-`, `*`),
    scaling by a number, joining (`^`), modulation (`**`) and delaying
    (`shift_by`). Every operation builds a new object and leaves its
    operands as they were. */
module Bleep {
  import opened Exceptions
  import opened PyMath
  import opened Utility
  import opened Buffers
  import opened Waveform

  /** The frequency of a combined or joined sound:
      `int(fa) * int(fb) / gcd(int(fa), int(fb))`, which divides by zero
      when both whole parts are zero. */
  function CombinedFrequency(fa: real, fb: real): (r: Result<real>)
    ensures r.Err? <==> Trunc(fa) == 0 && Trunc(fb) == 0
    ensures r.Err? ==> r.error == ZeroDivisionError
  {
    var x, y := Trunc(fa), Trunc(fb);
    var g := Gcd(x, y);
    if g == 0 then Err(ZeroDivisionError) else Ok((x * y) as real / g as real)
  }

  /** The combined frequency is a whole multiple of each whole frequency:
      `(x / g) * y` and `x * (y / g)` with `g` their gcd. */
  lemma CombinedFrequencyIsCommonMultiple(fa: real, fb: real)
    requires Trunc(fa) != 0 || Trunc(fb) != 0
    ensures var x, y := Trunc(fa), Trunc(fb);
            var g := Gcd(x, y);
            g > 0 && x % g == 0 && y % g == 0 &&
            CombinedFrequency(fa, fb).value == ((x / g) * y) as real &&
            CombinedFrequency(fa, fb).value == (x * (y / g)) as real
  {
    LcmQuotients(Trunc(fa), Trunc(fb));
  }

  /** And it is the least one up to sign: every common multiple
      `x * k1 == y * k2` of the whole frequencies is a whole multiple `k` of
      the combined frequency. */
  lemma CombinedFrequencyIsLeast(fa: real, fb: real, k1: int, k2: int) returns (k: int)
    requires Trunc(fa) != 0 || Trunc(fb) != 0
    requires Trunc(fa) * k1 == Trunc(fb) * k2
    ensures (Trunc(fa) * k1) as real == CombinedFrequency(fa, fb).value * k as real
  {
    var x, y := Trunc(fa), Trunc(fb);
    LcmQuotients(x, y);
    k := LcmDividesCommonMultiple(x, y, k1, k2);
    var l := (x / Gcd(x, y)) * y;
    assert (l * k) as real == l as real * k as real;
  }

  lemma LcmQuotients(x: int, y: int)
    requires x != 0 || y != 0
    ensures var g := Gcd(x, y);
            g > 0 && x % g == 0 && y % g == 0 &&
            (x * y) as real / g as real == ((x / g) * y) as real &&
            (x * y) as real / g as real == (x * (y / g)) as real
  {
    var g := Gcd(x, y);
    GcdDivides(x, y);
    QuotientOfMultiple(g, x, y);
    QuotientOfMultiple(g, y, x);
    assert y * x == x * y;
  }

  /** When `g` divides `x`, `x * y / g` is `(x / g) * y`. */
  lemma QuotientOfMultiple(g: int, x: int, y: int)
    requires g > 0 && x % g == 0
    ensures (x * y) as real / g as real == ((x / g) * y) as real
    ensures (y * x) as real / g as real == (y * (x / g)) as real
  {
    var p := x / g;
    assert x == g * p;
    assert x * y == g * (p * y);
    assert y * x == g * (y * p);
    ExactQuotient(g, p * y);
    ExactQuotient(g, y * p);
  }

  lemma ExactQuotient(g: int, k: int)
    requires g > 0
    ensures (g * k) as real / g as real == k as real
  {
    assert (g * k) as real == g as real * k as real;
  }

  /** Combining two sounds of the same whole frequency keeps it, up to sign. */
  lemma CombinedFrequencySame(f: real)
    requires Trunc(f) != 0
    ensures CombinedFrequency(f, f) == Ok(Abs(Trunc(f)) as real)
  {
    var x := Trunc(f);
    assert Abs(x) % Abs(x) == 0;
    assert EuclidGcd(Abs(x), 0) == Abs(x);
    assert Gcd(x, x) == Abs(x);
    var m := Abs(x) as real;
    assert (x * x) as real == m * m;
    assert m * m / m == m;
  }

  /** `float(len(sound)) / SAMPLE_RATE`: the duration of a buffer in seconds,
      which holds exactly as many samples as the buffer. */
  function BufferDuration(s: seq<real>): (d: real)
    ensures d >= 0.0 && SampleCount(d) == |s|
  {
    |s| as real / SampleRate as real
  }

  /** The scale factor of `sound * number`: `limit_amplitude(number)`, and
      zero for a negative number; a number in [0, 1] is kept. */
  function ScaleFactor(number: real): (f: real)
    ensures 0.0 <= f <= 1.0
    ensures 0.0 <= number <= 1.0 ==> f == number
    ensures number < 0.0 ==> f == 0.0
    ensures number > 1.0 ==> f == 1.0
  {
    var f := LimitAmplitude(number);
    if f < 0.0 then 0.0 else f
  }

  class SoundGenerator {
    const waveType: string
    const frequency: real
    /** Clamped to [-1, 1] on construction. */
    const amplitude: real
    const duration: real
    /** `int(duration * SAMPLE_RATE)`, fixed on construction; a buffer set
        later need not be this long. */
    const sampleCount: int
    var sound: seq<real>

    /** What holds of every object: the amplitude is clamped, the sample
        count is the duration's and generating the buffer anew (as the scalar
        product and `shift_by` do) cannot fail, whatever the library. */
    predicate Valid()
      ensures Valid() ==> forall lib :: Generate(lib, waveType, frequency, amplitude, sampleCount).Ok?
    {
      -1.0 <= amplitude <= 1.0 &&
      sampleCount == SampleCount(duration) &&
      Generates(waveType, frequency, sampleCount)
    }

    /** `SoundGenerator(wave_type, frequency, amplitude, duration)` followed
        by `set_sound(sound)`: the generated buffer is replaced at once, so
        the model does not compute it; it only needs generation to succeed. */
    constructor WithSound(waveType: string, frequency: real, amplitude: real, duration: real, sound: seq<real>)
      requires Generates(waveType, frequency, SampleCount(duration))
      ensures Valid()
      ensures this.waveType == waveType && this.frequency == frequency
      ensures this.amplitude == LimitAmplitude(amplitude) && this.duration == duration
      ensures this.sound == sound
    {
      this.waveType := waveType;
      this.frequency := frequency;
      this.amplitude := LimitAmplitude(amplitude);
      this.duration := duration;
      this.sampleCount := SampleCount(duration);
      this.sound := sound;
    }

    /** `SoundGenerator(wave_type, frequency, amplitude, duration)`: the
        amplitude is clamped, the sample count taken from the duration, and
        the buffer generated for the wave type; the error generation raises
        is raised instead. With a well-behaved library the buffer stays in
        [-1, 1]. */
    static method Create(lib: Numerics, waveType: string, frequency: real, amplitude: real, duration: real)
      returns (r: Result<SoundGenerator>)
      ensures r.Err? <==> !Generates(waveType, frequency, SampleCount(duration))
      ensures r.Err? ==> r.error == Generate(lib, waveType, frequency, LimitAmplitude(amplitude), SampleCount(duration)).error
      ensures r.Ok? ==> fresh(r.value) && r.value.Valid()
      ensures r.Ok? ==> r.value.waveType == waveType && r.value.frequency == frequency
      ensures r.Ok? ==> r.value.amplitude == LimitAmplitude(amplitude) && r.value.duration == duration
      ensures r.Ok? ==> r.value.sound == Generate(lib, waveType, frequency, LimitAmplitude(amplitude), SampleCount(duration)).value
      ensures r.Ok? && Sane(lib) ==> Bounded(r.value.sound)
    {
      var generated := Generate(lib, waveType, frequency, LimitAmplitude(amplitude), SampleCount(duration));
      if generated.Err? {
        return Err(generated.error);
      }
      var g := new SoundGenerator.WithSound(waveType, frequency, amplitude, duration, generated.value);
      return Ok(g);
    }

    /** `get_sound`: the buffer the object holds. */
    method GetSound() returns (s: seq<real>)
      ensures s == sound
    {
      s := sound;
    }

    /** `set_sound`: replaces the buffer and nothing else. */
    method SetSound(s: seq<real>)
      modifies this
      ensures sound == s
    {
      sound := s;
    }

    /** The outcome of `combine_sounds(other, op)` as `r` reports it: an empty
        pair of buffers is refused (`np.vectorize` refuses empty input)
        before the frequency is computed; otherwise the result is a
        "Combination" of the mixed and clamped buffers, whose amplitude is
        its loudest sample and whose duration is its length. */
    ghost predicate CombinationOf(other: SoundGenerator, op: Operator, r: Result<SoundGenerator>)
      reads this, other, if r.Ok? then {r.value} else {}
    {
      var bothEmpty := |sound| == 0 && |other.sound| == 0;
      var f := CombinedFrequency(frequency, other.frequency);
      (r.Err? <==> bothEmpty || f.Err?) &&
      (r.Err? ==> r.error == if bothEmpty then ValueError else ZeroDivisionError) &&
      (r.Ok? ==>
         r.value.Valid() &&
         r.value.waveType == "Combination" &&
         r.value.sound == CombinedSamples(sound, other.sound, op) &&
         r.value.frequency == f.value &&
         |r.value.sound| > 0 && r.value.amplitude == MaxOf(r.value.sound) &&
         r.value.duration == BufferDuration(r.value.sound) &&
         r.value.sampleCount == |r.value.sound|)
    }

    /** `combine_sounds(other, op)`: copies the longer buffer (this one on a
        tie), combines the shorter one into its prefix, clamps every sample,
        and wraps the result in a new "Combination" sound. */
    method CombineSounds(other: SoundGenerator, op: Operator) returns (r: Result<SoundGenerator>)
      ensures CombinationOf(other, op, r)
      ensures r.Ok? ==> fresh(r.value)
    {
      var base, overlay := sound, other.sound;
      if |sound| < |other.sound| {
        base, overlay := other.sound, sound;
      }
      var mixed := OverlayPrefix(base, overlay, op);
      if |mixed| == 0 {
        return Err(ValueError);
      }
      var newSound := LimitAll(mixed);
      var newFrequency := CombinedFrequency(frequency, other.frequency);
      if newFrequency.Err? {
        return Err(newFrequency.error);
      }
      var newDuration := BufferDuration(newSound);
      var newAmplitude := MaxOf(newSound);
      MaxOfBounded(newSound);
      var g := new SoundGenerator.WithSound("Combination", newFrequency.value, newAmplitude, newDuration, newSound);
      return Ok(g);
    }

    /** `self + other`. */
    method Add(other: SoundGenerator) returns (r: Result<SoundGenerator>)
      ensures CombinationOf(other, Plus, r)
      ensures r.Ok? ==> fresh(r.value)
    {
      r := CombineSounds(other, Plus);
    }

    /** `self - other`. */
    method Subtract(other: SoundGenerator) returns (r: Result<SoundGenerator>)
      ensures CombinationOf(other, Minus, r)
      ensures r.Ok? ==> fresh(r.value)
    {
      r := CombineSounds(other, Minus);
    }

    /** `self * other` for another sound. */
    method MultiplySound(other: SoundGenerator) returns (r: Result<SoundGenerator>)
      ensures CombinationOf(other, Times, r)
      ensures r.Ok? ==> fresh(r.value)
    {
      r := CombineSounds(other, Times);
    }

    /** `self * number`: the buffer and the amplitude are scaled by the
        clamped, non-negative factor; the other metadata is kept. */
    method MultiplyScalar(number: real) returns (r: SoundGenerator)
      requires Valid()
      ensures fresh(r) && r.Valid()
      ensures r.waveType == waveType && r.frequency == frequency && r.duration == duration
      ensures r.amplitude == amplitude * ScaleFactor(number)
      ensures r.sound == Scale(sound, ScaleFactor(number))
    {
      var factor := ScaleFactor(number);
      ProductBounded(amplitude, factor);
      r := new SoundGenerator.WithSound(waveType, frequency, amplitude * factor, duration, Scale(sound, factor));
    }

    /** `self ^ other`: the two buffers one after the other, as a "Join"
        whose duration is the sum of the two and whose amplitude is the
        loudest sample, clamped. The frequency is computed, and may divide by
        zero, before the loudest sample of an empty join is asked for. */
    method Join(other: SoundGenerator) returns (r: Result<SoundGenerator>)
      ensures r.Err? <==> CombinedFrequency(frequency, other.frequency).Err? || (|sound| == 0 && |other.sound| == 0)
      ensures r.Err? ==> r.error == if CombinedFrequency(frequency, other.frequency).Err? then ZeroDivisionError else ValueError
      ensures r.Ok? ==> fresh(r.value) && r.value.Valid()
      ensures r.Ok? ==> r.value.waveType == "Join" && r.value.sound == sound + other.sound
      ensures r.Ok? ==> r.value.frequency == CombinedFrequency(frequency, other.frequency).value
      ensures r.Ok? ==> r.value.duration == duration + other.duration
      ensures r.Ok? ==> r.value.amplitude == LimitAmplitude(MaxOf(sound + other.sound))
    {
      var newSound := sound + other.sound;
      var newFrequency := CombinedFrequency(frequency, other.frequency);
      if newFrequency.Err? {
        return Err(newFrequency.error);
      }
      var newDuration := duration + other.duration;
      var newAmplitude := Max(newSound);
      if newAmplitude.Err? {
        return Err(newAmplitude.error);
      }
      var g := new SoundGenerator.WithSound("Join", newFrequency.value, newAmplitude.value, newDuration, newSound);
      return Ok(g);
    }

    /** `self ** other`: the shorter buffer is tiled to the longer one's
        length, both are wrapped in "Temp" sounds of frequency 100, and the
        two are multiplied. Only two empty buffers fail, at the loudest
        sample of the tiled one. */
    method Modulate(other: SoundGenerator) returns (r: Result<SoundGenerator>)
      ensures r.Err? <==> |sound| == 0 && |other.sound| == 0
      ensures r.Err? ==> r.error == ValueError
      ensures r.Ok? ==> fresh(r.value) && r.value.Valid()
      ensures r.Ok? ==> r.value.waveType == "Combination" && r.value.frequency == 100.0
      ensures r.Ok? ==> r.value.sound == Modulated(sound, other.sound)
      ensures r.Ok? ==> r.value.amplitude == MaxOf(r.value.sound)
      ensures r.Ok? ==> r.value.duration == BufferDuration(r.value.sound)
    {
      var longer, shorter := Longer(sound, other.sound), Shorter(sound, other.sound);
      var tiled := Resize(shorter, |longer|);
      var newDuration := BufferDuration(longer);
      var tiledPeak := Max(tiled);
      if tiledPeak.Err? {
        return Err(tiledPeak.error);
      }
      var tiledSound := new SoundGenerator.WithSound("Temp", 100.0, tiledPeak.value, newDuration, tiled);
      var longerSound := new SoundGenerator.WithSound("Temp", 100.0, MaxOf(longer), newDuration, longer);
      CombinedFrequencySame(100.0);
      r := tiledSound.MultiplySound(longerSound);
    }

    /** `shift_by(n)`: the buffer delayed by `n` samples (see `Shifted`), in
        a sound with the same metadata; `np.zeros` refuses a negative `n`. */
    method ShiftBy(n: int) returns (r: Result<SoundGenerator>)
      requires Valid()
      ensures r.Err? <==> n < 0
      ensures r.Err? ==> r.error == ValueError
      ensures r.Ok? ==> fresh(r.value) && r.value.Valid()
      ensures r.Ok? ==> r.value.waveType == waveType && r.value.frequency == frequency
      ensures r.Ok? ==> r.value.amplitude == amplitude && r.value.duration == duration
      ensures r.Ok? ==> r.value.sound == Shifted(sound, n)
    {
      if n < 0 {
        return Err(ValueError);
      }
      var g := new SoundGenerator.WithSound(waveType, frequency, amplitude, duration, Shifted(sound, n));
      return Ok(g);
    }
  }
}
