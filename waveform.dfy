/** The wave generators that `SoundGenerator.__init__` dispatches to: one
    cycle of phases, scaled sine, square and sawtooth cycles tiled over the
    duration with `np.resize`, the constant wave, and white noise. */
module Waveform {
  import opened Exceptions
  import opened PyMath
  import opened Utility
  import opened Buffers

  /** `math.pi`, as the double it is. */
  const Pi: real := 3.141592653589793

  /** The library routines whose values the model does not compute: `np.sin`
      and the successive draws of `np.random.uniform(-1, 1)`. */
  datatype Numerics = Numerics(sin: real -> real, uniform: nat -> real)

  /** What the library guarantees of them: a sine never leaves [-1, 1], a
      uniform draw on [-1, 1) never leaves that interval. */
  ghost predicate Sane(lib: Numerics)
  {
    (forall x :: -1.0 <= lib.sin(x) <= 1.0) &&
    (forall i :: -1.0 <= lib.uniform(i) < 1.0)
  }

  /** `get_sample_count`: `int(duration * SAMPLE_RATE)`, the number of whole
      samples in `duration` seconds (negative for a negative duration). */
  function SampleCount(duration: real): (n: int)
    ensures 0.0 <= duration ==> 0 <= n && n as real <= duration * SampleRate as real < n as real + 1.0
    ensures duration < 0.0 ==> n <= 0
  {
    Trunc(duration * SampleRate as real)
  }

  /** `get_single_phase_array`: the phases `k * 2 pi / L` for
      `k in range(int(L))`, where `L = SAMPLE_RATE / frequency` is the length
      of one cycle in samples; a frequency of zero divides by zero. */
  function PhaseArray(frequency: real): (r: Result<seq<real>>)
    ensures r.Err? <==> frequency == 0.0
    ensures r.Err? ==> r.error == ZeroDivisionError
  {
    if frequency == 0.0 then Err(ZeroDivisionError)
    else
      var cycle := SampleRate as real / frequency;
      var omega := Pi * 2.0 / cycle;
      var count := if Trunc(cycle) < 0 then 0 else Trunc(cycle);
      Ok(seq(count, k requires 0 <= k < count => k as real * omega))
  }

  /** The phase of sample `k` of a cycle: `k` steps of `2 pi frequency /
      SAMPLE_RATE`. */
  function Phase(frequency: real, k: nat): real
  {
    k as real * 2.0 * Pi * frequency / SampleRate as real
  }

  /** For a positive frequency there are as many phases as whole samples fit
      in a cycle; a negative frequency gives none. */
  lemma PhaseArrayLength(frequency: real)
    requires frequency != 0.0
    ensures var p := PhaseArray(frequency).value;
            (frequency > 0.0 ==>
               |p| as real * frequency <= SampleRate as real < (|p| + 1) as real * frequency) &&
            (frequency < 0.0 ==> |p| == 0)
  {
    var p := PhaseArray(frequency).value;
    var cycle := SampleRate as real / frequency;
    assert cycle * frequency == SampleRate as real;
    if frequency > 0.0 {
      assert |p| as real <= cycle < |p| as real + 1.0;
      assert |p| as real * frequency <= cycle * frequency;
      assert cycle * frequency < (|p| as real + 1.0) * frequency;
      assert SampleRate as real < (|p| + 1) as real * frequency;
    }
  }

  /** Phase `k` of the array is `Phase(frequency, k)`, and the phases climb
      from 0 toward 2 pi. */
  lemma PhaseArrayAt(frequency: real, k: nat)
    requires frequency != 0.0 && k < |PhaseArray(frequency).value|
    ensures PhaseArray(frequency).value[k] == Phase(frequency, k)
    ensures 0.0 <= PhaseArray(frequency).value[k] < 2.0 * Pi
  {
    var cycle := SampleRate as real / frequency;
    var omega := Pi * 2.0 / cycle;
    assert cycle * frequency == SampleRate as real;
    assert omega == 2.0 * Pi * frequency / SampleRate as real;
    assert k as real < cycle;
    assert k as real * omega < cycle * omega;
  }

  /** The number of samples in one cycle: `int(SAMPLE_RATE / frequency)`, or
      none for a negative frequency. */
  function CycleLength(frequency: real): nat
    requires frequency != 0.0
  {
    |PhaseArray(frequency).value|
  }

  lemma SaneSine(lib: Numerics, x: real)
    requires Sane(lib)
    ensures -1.0 <= lib.sin(x) <= 1.0
  {
  }

  lemma ScaledBounded(a: real, x: real)
    requires -1.0 <= x <= 1.0
    ensures -Magnitude(a) <= a * x <= Magnitude(a)
  {
    var m := Magnitude(a);
    NonNegativeProduct(m, 1.0 - x);
    NonNegativeProduct(m, 1.0 + x);
    assert m * (1.0 - x) == m - m * x && m * (1.0 + x) == m + m * x;
    assert a * x == m * x || a * x == -(m * x);
  }

  lemma NonNegativeProduct(x: real, y: real)
    requires x >= 0.0 && y >= 0.0
    ensures x * y >= 0.0
  {
  }

  /** Tiling a cycle never takes a sample further from zero than the cycle
      has it. */
  lemma ResizeBounded(cycle: seq<real>, n: nat, level: real)
    requires level >= 0.0 && BoundedBy(cycle, level)
    ensures BoundedBy(Resize(cycle, n), level)
  {
  }

  /** `amplitude * np.sin(phase_array)`: one cycle, which with a
      well-behaved sine never exceeds the amplitude. */
  function SineCycle(lib: Numerics, phases: seq<real>, amplitude: real): (r: seq<real>)
    ensures |r| == |phases|
    ensures Sane(lib) ==> BoundedBy(r, Magnitude(amplitude))
  {
    var r := seq(|phases|, k requires 0 <= k < |phases| => amplitude * lib.sin(phases[k]));
    assert Sane(lib) ==> BoundedBy(r, Magnitude(amplitude)) by {
      if Sane(lib) {
        forall k | 0 <= k < |r| ensures -Magnitude(amplitude) <= r[k] <= Magnitude(amplitude) {
          SaneSine(lib, phases[k]);
          ScaledBounded(amplitude, lib.sin(phases[k]));
        }
      }
    }
    r
  }

  /** Sample `i` of a sine wave whose cycle is `cycle` samples long: the
      scaled sine of the phase that `i` falls on within its cycle, and
      silence when a cycle is shorter than one sample. */
  function SineSample(lib: Numerics, frequency: real, amplitude: real, cycle: nat, i: nat): real
  {
    if cycle == 0 then 0.0 else amplitude * lib.sin(Phase(frequency, i % cycle))
  }

  /** Every phase of the array, and the range they span. */
  lemma PhaseArrayPhases(frequency: real)
    requires frequency != 0.0
    ensures forall k :: 0 <= k < |PhaseArray(frequency).value| ==>
              PhaseArray(frequency).value[k] == Phase(frequency, k) &&
              0.0 <= PhaseArray(frequency).value[k] < 2.0 * Pi
  {
    forall k | 0 <= k < |PhaseArray(frequency).value|
      ensures PhaseArray(frequency).value[k] == Phase(frequency, k)
      ensures 0.0 <= PhaseArray(frequency).value[k] < 2.0 * Pi
    {
      PhaseArrayAt(frequency, k);
    }
  }

  lemma SineTiles(lib: Numerics, frequency: real, amplitude: real, p: seq<real>, n: nat)
    requires forall k :: 0 <= k < |p| ==> p[k] == Phase(frequency, k)
    ensures var cycle := SineCycle(lib, p, amplitude);
            (forall i :: 0 <= i < n ==> Resize(cycle, n)[i] == SineSample(lib, frequency, amplitude, |p|, i)) &&
            (Sane(lib) ==> BoundedBy(Resize(cycle, n), Magnitude(amplitude)))
  {
    var cycle := SineCycle(lib, p, amplitude);
    if Sane(lib) {
      ResizeBounded(cycle, n, Magnitude(amplitude));
    }
  }

  /** `generate_sine_wave`: one scaled sine cycle tiled over `n` samples. It
      fails at frequency zero and for a negative sample count, and never
      exceeds its amplitude. */
  function SineWave(lib: Numerics, frequency: real, amplitude: real, n: int): (r: Result<seq<real>>)
    ensures r.Err? <==> frequency == 0.0 || n < 0
    ensures r.Err? ==> r.error == if frequency == 0.0 then ZeroDivisionError else ValueError
    ensures r.Ok? ==> |r.value| == n
    ensures r.Ok? ==> forall i :: 0 <= i < n ==>
              r.value[i] == SineSample(lib, frequency, amplitude, CycleLength(frequency), i)
    ensures r.Ok? && Sane(lib) ==> BoundedBy(r.value, Magnitude(amplitude))
  {
    match PhaseArray(frequency)
    case Err(e) => Err(e)
    case Ok(phases) =>
      if n < 0 then Err(ValueError)
      else
        PhaseArrayPhases(frequency);
        SineTiles(lib, frequency, amplitude, phases, n);
        Ok(Resize(SineCycle(lib, phases, amplitude), n))
  }

  /** Sample `i` of a square wave: `abs(amplitude)` times the sign of the
      sine under it, so one of `-abs(amplitude)`, 0 and `abs(amplitude)`. */
  function SquareSample(lib: Numerics, frequency: real, amplitude: real, cycle: nat, i: nat): (r: real)
    ensures r == -Magnitude(amplitude) || r == 0.0 || r == Magnitude(amplitude)
  {
    if cycle == 0 then 0.0 else Magnitude(amplitude) * Sign(lib.sin(Phase(frequency, i % cycle)))
  }

  /** `amplitude * np.sign(amplitude * x)` is the square sample. */
  lemma SquareOfSine(lib: Numerics, frequency: real, amplitude: real, cycle: nat, i: nat)
    ensures amplitude * Sign(SineSample(lib, frequency, amplitude, cycle, i))
            == SquareSample(lib, frequency, amplitude, cycle, i)
  {
    if cycle != 0 {
      SignOfProduct(amplitude, lib.sin(Phase(frequency, i % cycle)));
    }
  }

  /** `generate_square_wave`: `amplitude * np.sign(sine wave)`. It fails
      exactly when the sine wave does, and takes only the values
      `-abs(amplitude)`, 0 and `abs(amplitude)`. */
  function SquareWave(lib: Numerics, frequency: real, amplitude: real, n: int): (r: Result<seq<real>>)
    ensures r.Err? <==> frequency == 0.0 || n < 0
    ensures r.Err? ==> r.error == if frequency == 0.0 then ZeroDivisionError else ValueError
    ensures r.Ok? ==> |r.value| == n
    ensures r.Ok? ==> forall i :: 0 <= i < n ==>
              r.value[i] == SquareSample(lib, frequency, amplitude, CycleLength(frequency), i)
    ensures r.Ok? ==> BoundedBy(r.value, Magnitude(amplitude))
  {
    match SineWave(lib, frequency, amplitude, n)
    case Err(e) => Err(e)
    case Ok(sine) =>
      var r := seq(|sine|, i requires 0 <= i < |sine| => amplitude * Sign(sine[i]));
      var cycle := CycleLength(frequency);
      assert forall i :: 0 <= i < n ==> r[i] == SquareSample(lib, frequency, amplitude, cycle, i) by {
        forall i | 0 <= i < n ensures r[i] == SquareSample(lib, frequency, amplitude, cycle, i) {
          SquareOfSine(lib, frequency, amplitude, cycle, i);
        }
      }
      Ok(r)
  }

  /** The sawtooth of `generate_sawtooth_wave`: `1 - x / pi` at phase `x`.
      It starts a turn at 1 and stays in (-1, 1] over the turn. */
  function Saw(x: real): (r: real)
    ensures x == 0.0 ==> r == 1.0
    ensures 0.0 <= x < 2.0 * Pi ==> -1.0 < r <= 1.0
  {
    1.0 - (1.0 / Pi) * x
  }

  /** `amplitude * saw(phase_array)`: over phases within one turn the cycle
      never exceeds the amplitude. */
  function SawtoothCycle(phases: seq<real>, amplitude: real): (r: seq<real>)
    ensures |r| == |phases|
    ensures (forall k :: 0 <= k < |phases| ==> 0.0 <= phases[k] < 2.0 * Pi) ==>
              BoundedBy(r, Magnitude(amplitude))
  {
    var r := seq(|phases|, k requires 0 <= k < |phases| => amplitude * Saw(phases[k]));
    assert (forall k :: 0 <= k < |phases| ==> 0.0 <= phases[k] < 2.0 * Pi) ==>
             BoundedBy(r, Magnitude(amplitude)) by {
      if forall k :: 0 <= k < |phases| ==> 0.0 <= phases[k] < 2.0 * Pi {
        forall k | 0 <= k < |r| ensures -Magnitude(amplitude) <= r[k] <= Magnitude(amplitude) {
          ScaledBounded(amplitude, Saw(phases[k]));
        }
      }
    }
    r
  }

  /** Sample `k` of one sawtooth cycle: it falls from `amplitude` by
      `2 * amplitude * frequency / SAMPLE_RATE` per sample. */
  function SawtoothLevel(frequency: real, amplitude: real, k: nat): real
  {
    amplitude * (1.0 - 2.0 * k as real * frequency / SampleRate as real)
  }

  /** pi cancels out of the sawtooth: at the phase of sample `k` it is
      `1 - 2 k frequency / SAMPLE_RATE`. */
  lemma SawAtPhase(frequency: real, k: nat)
    ensures Saw(Phase(frequency, k)) == 1.0 - 2.0 * k as real * frequency / SampleRate as real
  {
    var t := k as real * frequency / SampleRate as real;
    assert Phase(frequency, k) == 2.0 * Pi * t;
  }

  lemma SawtoothTiles(frequency: real, amplitude: real, p: seq<real>, n: nat)
    requires |p| > 0
    requires forall k :: 0 <= k < |p| ==> p[k] == Phase(frequency, k) && 0.0 <= p[k] < 2.0 * Pi
    ensures var cycle := SawtoothCycle(p, amplitude);
            (forall i :: 0 <= i < n ==> Resize(cycle, n)[i] == SawtoothLevel(frequency, amplitude, i % |p|)) &&
            BoundedBy(Resize(cycle, n), Magnitude(amplitude))
  {
    var cycle := SawtoothCycle(p, amplitude);
    forall k | 0 <= k < |p| ensures cycle[k] == SawtoothLevel(frequency, amplitude, k) {
      SawAtPhase(frequency, k);
    }
    ResizeBounded(cycle, n, Magnitude(amplitude));
  }

  /** `generate_sawtooth_wave`: one scaled sawtooth cycle tiled over `n`
      samples. It fails at frequency zero, when a cycle is shorter than one
      sample (`np.vectorize` refuses the empty phase array: a negative
      frequency or one above SAMPLE_RATE), and for a negative sample count.
      It never exceeds its amplitude. */
  function SawtoothWave(frequency: real, amplitude: real, n: int): (r: Result<seq<real>>)
    ensures r.Err? <==> frequency == 0.0 || CycleLength(frequency) == 0 || n < 0
    ensures r.Err? ==> r.error == if frequency == 0.0 then ZeroDivisionError else ValueError
    ensures r.Ok? ==> |r.value| == n && CycleLength(frequency) > 0
    ensures r.Ok? ==> forall i :: 0 <= i < n ==>
              r.value[i] == SawtoothLevel(frequency, amplitude, i % CycleLength(frequency))
    ensures r.Ok? ==> BoundedBy(r.value, Magnitude(amplitude))
  {
    match PhaseArray(frequency)
    case Err(e) => Err(e)
    case Ok(phases) =>
      if |phases| == 0 then Err(ValueError)
      else if n < 0 then Err(ValueError)
      else
        PhaseArrayPhases(frequency);
        SawtoothTiles(frequency, amplitude, phases, n);
        Ok(Resize(SawtoothCycle(phases, amplitude), n))
  }

  /** `generate_constant_wave`: `np.resize(amplitude, (n,))`, the amplitude
      `n` times over; numpy refuses a negative size. */
  function ConstantWave(amplitude: real, n: int): (r: Result<seq<real>>)
    ensures r.Err? <==> n < 0
    ensures r.Err? ==> r.error == ValueError
    ensures r.Ok? ==> |r.value| == n && forall i :: 0 <= i < n ==> r.value[i] == amplitude
  {
    if n < 0 then Err(ValueError) else Ok(Resize([amplitude], n))
  }

  /** `generate_white_noise_wave`: `n` draws from `np.random.uniform(-1, 1)`,
      the amplitude playing no part; numpy refuses a negative size. */
  function NoiseWave(lib: Numerics, n: int): (r: Result<seq<real>>)
    ensures r.Err? <==> n < 0
    ensures r.Err? ==> r.error == ValueError
    ensures r.Ok? ==> |r.value| == n && forall i :: 0 <= i < n ==> r.value[i] == lib.uniform(i)
    ensures r.Ok? && Sane(lib) ==> Bounded(r.value)
  {
    if n < 0 then Err(ValueError) else Ok(seq(n, i requires 0 <= i < n => lib.uniform(i)))
  }

  /** The wave types whose generator walks a phase array. */
  predicate Periodic(waveType: string)
  {
    waveType == "Sine" || waveType == "Square" || waveType == "Sawtooth"
  }

  /** The wave types `__init__` generates a buffer for. */
  predicate Generated(waveType: string)
  {
    Periodic(waveType) || waveType == "Constant" || waveType == "Noise"
  }

  /** When `__init__` can generate its buffer: a periodic type needs a
      non-zero frequency, a sawtooth a cycle of at least one sample, and a
      generated type a sample count that is not negative. */
  predicate Generates(waveType: string, frequency: real, n: int)
  {
    !(Periodic(waveType) && frequency == 0.0) &&
    !(waveType == "Sawtooth" && frequency != 0.0 && CycleLength(frequency) == 0) &&
    !(Generated(waveType) && n < 0)
  }

  /** The sound `__init__` starts an object with: the generator its wave type
      names, and an empty buffer for any other type ("Combination", "Join",
      "Temp"). Generation fails for a periodic type at frequency zero, for a
      sawtooth whose cycle is shorter than one sample, and for a generated
      type whose duration gives a negative sample count;
      success never depends on the amplitude or the library's values. A
      generated buffer is as long as the sample count and, for an amplitude
      in [-1, 1], stays in [-1, 1]. */
  function Generate(lib: Numerics, waveType: string, frequency: real, amplitude: real, n: int)
    : (r: Result<seq<real>>)
    ensures r.Ok? <==> Generates(waveType, frequency, n)
    ensures r.Err? ==> r.error == if Periodic(waveType) && frequency == 0.0 then ZeroDivisionError else ValueError
    ensures r.Ok? && Generated(waveType) ==> |r.value| == n
    ensures r.Ok? && !Generated(waveType) ==> r.value == []
    ensures r.Ok? && Sane(lib) && -1.0 <= amplitude <= 1.0 ==> Bounded(r.value)
  {
    if waveType == "Sine" then SineWave(lib, frequency, amplitude, n)
    else if waveType == "Square" then SquareWave(lib, frequency, amplitude, n)
    else if waveType == "Sawtooth" then SawtoothWave(frequency, amplitude, n)
    else if waveType == "Constant" then ConstantWave(amplitude, n)
    else if waveType == "Noise" then NoiseWave(lib, n)
    else Ok([])
  }
}
