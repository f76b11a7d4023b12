/** The sample-buffer operations behind the sound algebra: numpy's `resize`,
    `roll` and `max` on one-dimensional float arrays, the prefix overlay of
    `combine_sounds`, the element-wise clamp, and the buffers that combining,
    modulating and shifting produce. Samples are exact reals. */
module Buffers {
  import opened Exceptions
  import opened PyMath
  import opened Utility

  /** Every sample lies in [-1, 1]. */
  predicate Bounded(s: seq<real>)
  {
    forall i :: 0 <= i < |s| ==> -1.0 <= s[i] <= 1.0
  }

  /** Every sample lies within `level` of zero. */
  predicate BoundedBy(s: seq<real>, level: real)
  {
    forall i :: 0 <= i < |s| ==> -level <= s[i] <= level
  }

  /** `np.zeros(n)`. */
  function Zeros(n: nat): (r: seq<real>)
    ensures |r| == n
    ensures forall i :: 0 <= i < n ==> r[i] == 0.0
  {
    seq(n, _ => 0.0)
  }

  /** `np.concatenate((s,) * k)`: `k` copies of `s`, one after another. */
  function Repeat(s: seq<real>, k: nat): (r: seq<real>)
    ensures |r| == k * |s|
  {
    if k == 0 then [] else s + Repeat(s, k - 1)
  }

  /** Position `i` of `k` repeated copies of `s` holds `s[i % |s|]`. */
  lemma {:induction false} RepeatAt(s: seq<real>, k: nat, i: nat)
    requires i < k * |s|
    ensures Repeat(s, k)[i] == s[i % |s|]
  {
    if i < |s| {
      DivModUnique(i, |s|, 0, i);
    } else {
      RepeatAt(s, k - 1, i - |s|);
      DivModUnique(i, |s|, (i - |s|) / |s| + 1, (i - |s|) % |s|);
    }
  }

  lemma RepeatIndexing(s: seq<real>, k: nat)
    ensures forall i :: 0 <= i < k * |s| ==> Repeat(s, k)[i] == s[i % |s|]
  {
    forall i | 0 <= i < k * |s| {
      RepeatAt(s, k, i);
    }
  }

  /** `-(-n // m)`, the ceiling of n / m, makes enough copies of an `m`-long
      buffer to cover `n` samples. */
  lemma CeilDivCovers(n: nat, m: nat)
    requires m > 0
    ensures -((-(n as int)) / m) >= 0 && -((-(n as int)) / m) * m >= n
  {
    var q := (-(n as int)) / m;
    assert -(n as int) == m * q + (-(n as int)) % m;
    assert -q * m == n + (-(n as int)) % m;
    MultipleMagnitude(m, -q);
  }

  /** `np.resize(s, (n,))`, following numpy's algorithm: an empty source or an
      empty target gives zeros; otherwise ceil(n / |s|) copies of `s` are
      concatenated and cut to `n`. The result wraps `s` around cyclically. */
  function Resize(s: seq<real>, n: nat): (r: seq<real>)
    ensures |r| == n
    ensures |s| == 0 ==> forall i :: 0 <= i < n ==> r[i] == 0.0
    ensures |s| > 0 ==> forall i :: 0 <= i < n ==> r[i] == s[i % |s|]
  {
    if |s| == 0 || n == 0 then Zeros(n)
    else
      var repeats := -((-(n as int)) / |s|);
      CeilDivCovers(n, |s|);
      RepeatIndexing(s, repeats);
      Repeat(s, repeats)[..n]
  }

  /** Where `np.roll(s, shift)` takes position `i` from. */
  lemma RollSource(m: nat, shift: int, i: nat)
    requires 0 <= i < m
    ensures (i - shift) % m == if i < shift % m then i - shift % m + m else i - shift % m
  {
    var q, offset := shift / m, shift % m;
    assert shift == m * q + offset;
    if i < offset {
      DivModUnique(i - shift, m, -q - 1, i - offset + m);
    } else {
      DivModUnique(i - shift, m, -q, i - offset);
    }
  }

  /** `np.roll(s, shift)` on a one-dimensional array, as numpy computes it:
      the last `shift % |s|` samples move to the front. Every sample moves
      `shift` places to the right, cyclically. */
  function Roll(s: seq<real>, shift: int): (r: seq<real>)
    ensures |r| == |s|
    ensures forall i :: 0 <= i < |s| ==> r[i] == s[(i - shift) % |s|]
  {
    if |s| == 0 then s
    else
      var offset := shift % |s|;
      var r := s[|s| - offset..] + s[..|s| - offset];
      assert forall i :: 0 <= i < |s| ==> r[i] == s[(i - shift) % |s|] by {
        forall i | 0 <= i < |s| ensures r[i] == s[(i - shift) % |s|] {
          RollSource(|s|, shift, i);
        }
      }
      r
  }

  /** The buffer of `shift_by(n)`: `np.append(np.zeros(n), np.roll(s, n)[n:])`.
      Up to the buffer's length this delays it by `n` samples, with zeros in
      front and the last `n` samples dropped, not rotated to the front; a
      longer shift gives `n` zeros. */
  function Shifted(s: seq<real>, n: nat): (r: seq<real>)
    ensures n <= |s| ==> |r| == |s|
    ensures n <= |s| ==> forall i :: 0 <= i < n ==> r[i] == 0.0
    ensures n <= |s| ==> forall i :: n <= i < |s| ==> r[i] == s[i - n]
    ensures n > |s| ==> r == Zeros(n)
  {
    var rolled := Roll(s, n);
    var r := Zeros(n) + (if n <= |rolled| then rolled[n..] else []);
    assert n <= |s| ==> forall i :: n <= i < |s| ==> r[i] == s[i - n] by {
      if n <= |s| {
        forall i | n <= i < |s| ensures r[i] == s[i - n] {
          DivModUnique(i - n, |s|, 0, i - n);
        }
      }
    }
    r
  }

  /** `sound * scale_factor`, sample by sample. */
  function Scale(s: seq<real>, factor: real): (r: seq<real>)
    ensures |r| == |s|
    ensures factor == 1.0 ==> r == s
    ensures factor == 0.0 ==> r == Zeros(|s|)
  {
    seq(|s|, i requires 0 <= i < |s| => s[i] * factor)
  }

  /** The arithmetic operators of `combine_sounds`. */
  datatype Operator = Plus | Minus | Times

  function Apply(op: Operator, x: real, y: real): real
  {
    match op
    case Plus => x + y
    case Minus => x - y
    case Times => x * y
  }

  /** numpy's element-wise `xs op ys` on equal-length arrays. */
  function Elementwise(op: Operator, xs: seq<real>, ys: seq<real>): (r: seq<real>)
    requires |xs| == |ys|
    ensures |r| == |xs|
  {
    seq(|xs|, i requires 0 <= i < |xs| => Apply(op, xs[i], ys[i]))
  }

  /** `base[0 : len(overlay)] = base[0 : len(overlay)] op overlay` on a copy of
      `base`: the prefix as long as the overlay is combined with it, the tail
      of the base is kept as it is. */
  function Overlay(base: seq<real>, overlay: seq<real>, op: Operator): (r: seq<real>)
    requires |overlay| <= |base|
    ensures |r| == |base|
    ensures forall i :: 0 <= i < |overlay| ==> r[i] == Apply(op, base[i], overlay[i])
    ensures forall i :: |overlay| <= i < |base| ==> r[i] == base[i]
  {
    Elementwise(op, base[..|overlay|], overlay) + base[|overlay|..]
  }

  /** The copy-and-update of `combine_sounds`: a fresh array is filled with
      `base` (`np.copy`) and its prefix is updated in place, one sample at a
      time. The operands are values and stay as they were. */
  method OverlayPrefix(base: seq<real>, overlay: seq<real>, op: Operator) returns (r: seq<real>)
    requires |overlay| <= |base|
    ensures r == Overlay(base, overlay, op)
  {
    var buffer := new real[|base|](i requires 0 <= i < |base| => base[i]);
    for i := 0 to |overlay|
      invariant forall k :: 0 <= k < i ==> buffer[k] == Apply(op, base[k], overlay[k])
      invariant forall k :: i <= k < |base| ==> buffer[k] == base[k]
    {
      buffer[i] := Apply(op, buffer[i], overlay[i]);
    }
    r := buffer[..];
  }

  /** `np.vectorize(limit_amplitude)`: clamps every sample. */
  function LimitAll(s: seq<real>): (r: seq<real>)
    ensures |r| == |s| && Bounded(r)
    ensures forall i :: 0 <= i < |s| ==> r[i] == LimitAmplitude(s[i])
  {
    seq(|s|, i requires 0 <= i < |s| => LimitAmplitude(s[i]))
  }

  /** Clamping a buffer that is already in range changes nothing. */
  lemma LimitAllOfBounded(s: seq<real>)
    requires Bounded(s)
    ensures LimitAll(s) == s
  {
  }

  /** The base of `combine_sounds` and `__pow__`: the longer buffer, and on a
      tie the first one (`self`). */
  function Longer(a: seq<real>, b: seq<real>): (r: seq<real>)
    ensures r == a || r == b
    ensures |r| >= |a| && |r| >= |b|
    ensures |a| == |b| ==> r == a
  {
    if |a| < |b| then b else a
  }

  /** The other operand: the shorter buffer, and on a tie the second one. */
  function Shorter(a: seq<real>, b: seq<real>): (r: seq<real>)
    ensures r == a || r == b
    ensures |r| <= |a| && |r| <= |b|
    ensures |a| == |b| ==> r == b
  {
    if |a| < |b| then a else b
  }

  /** The buffer of `a op b` in `combine_sounds`: as long as the longer
      operand, which is the base (`a` on a tie); the shorter one is combined
      into its prefix with the base on the left of `op`; then every sample is
      clamped. */
  function CombinedSamples(a: seq<real>, b: seq<real>, op: Operator): (r: seq<real>)
    ensures |r| == if |a| < |b| then |b| else |a|
    ensures Bounded(r)
    ensures |a| >= |b| ==> forall i :: 0 <= i < |a| ==>
              r[i] == LimitAmplitude(if i < |b| then Apply(op, a[i], b[i]) else a[i])
    ensures |a| < |b| ==> forall i :: 0 <= i < |b| ==>
              r[i] == LimitAmplitude(if i < |a| then Apply(op, b[i], a[i]) else b[i])
  {
    LimitAll(Overlay(Longer(a, b), Shorter(a, b), op))
  }

  /** Subtracting a longer buffer subtracts the wrong way round: on the
      shorter operand's prefix `a - b` yields `b - a`. */
  lemma SubtractLongerReverses(a: seq<real>, b: seq<real>, i: nat)
    requires |a| < |b| && i < |a|
    ensures CombinedSamples(a, b, Minus)[i] == LimitAmplitude(b[i] - a[i])
  {
  }

  /** Addition and multiplication of sounds are commutative. */
  lemma CombineCommutes(a: seq<real>, b: seq<real>, op: Operator)
    requires op != Minus
    ensures CombinedSamples(a, b, op) == CombinedSamples(b, a, op)
  {
    var r, r' := CombinedSamples(a, b, op), CombinedSamples(b, a, op);
    assert |r| == |r'|;
    forall i | 0 <= i < |r| ensures r[i] == r'[i] {
      if i < |a| && i < |b| {
        assert Apply(op, a[i], b[i]) == Apply(op, b[i], a[i]);
      }
    }
  }

  /** Adding `b` and then subtracting it again gives back `a` on `a`'s whole
      length, as long as no sum saturates the clamp. */
  lemma AddThenSubtract(a: seq<real>, b: seq<real>)
    requires Bounded(a)
    requires forall i :: 0 <= i < |a| && i < |b| ==> -1.0 <= a[i] + b[i] <= 1.0
    ensures var r := CombinedSamples(CombinedSamples(a, b, Plus), b, Minus);
            |r| >= |a| && r[..|a|] == a
  {
    var sum := CombinedSamples(a, b, Plus);
    var r := CombinedSamples(sum, b, Minus);
    assert |sum| >= |b|;
    forall i | 0 <= i < |a| ensures r[i] == a[i] {
      if i < |b| {
        assert sum[i] == a[i] + b[i];
        assert r[i] == LimitAmplitude(sum[i] - b[i]);
      } else {
        assert sum[i] == a[i];
      }
    }
  }

  /** The buffer of `a ** b`: the shorter operand is resized to the longer
      one's length (`np.resize`) and the two are multiplied, as two equal
      length sounds, through `combine_sounds`. */
  function Modulated(a: seq<real>, b: seq<real>): (r: seq<real>)
    ensures |r| == if |a| < |b| then |b| else |a|
    ensures Bounded(r)
    ensures |Shorter(a, b)| > 0 ==> forall i :: 0 <= i < |r| ==>
              r[i] == LimitAmplitude(Shorter(a, b)[i % |Shorter(a, b)|] * Longer(a, b)[i])
    ensures |Shorter(a, b)| == 0 ==> forall i :: 0 <= i < |r| ==> r[i] == 0.0
  {
    var longer := Longer(a, b);
    CombinedSamples(Resize(Shorter(a, b), |longer|), longer, Times)
  }

  /** `np.max(s)` on a non-empty buffer. */
  function MaxOf(s: seq<real>): (m: real)
    requires |s| > 0
    ensures m in s
    ensures forall i :: 0 <= i < |s| ==> s[i] <= m
  {
    if |s| == 1 then s[0]
    else
      var rest := MaxOf(s[1..]);
      if s[0] < rest then rest else s[0]
  }

  /** `np.max(s)`: ValueError on an empty buffer. */
  function Max(s: seq<real>): (r: Result<real>)
    ensures r.Err? <==> |s| == 0
    ensures r.Err? ==> r.error == ValueError
    ensures r.Ok? ==> r.value == MaxOf(s)
  {
    if |s| == 0 then Err(ValueError) else Ok(MaxOf(s))
  }

  /** The maximum of an in-range buffer is in range, the clamp leaves it alone. */
  lemma MaxOfBounded(s: seq<real>)
    requires |s| > 0 && Bounded(s)
    ensures -1.0 <= MaxOf(s) <= 1.0
    ensures LimitAmplitude(MaxOf(s)) == MaxOf(s)
  {
  }

  /** Scaling by a factor in [0, 1] keeps an in-range buffer in range. */
  lemma ScaleBounded(s: seq<real>, factor: real)
    requires Bounded(s) && 0.0 <= factor <= 1.0
    ensures Bounded(Scale(s, factor))
  {
    forall i | 0 <= i < |s| ensures -1.0 <= Scale(s, factor)[i] <= 1.0 {
      ProductBounded(s[i], factor);
    }
  }

  lemma ProductBounded(x: real, y: real)
    requires -1.0 <= x <= 1.0 && -1.0 <= y <= 1.0
    ensures -1.0 <= x * y <= 1.0
  {
    if x >= 0.0 && y >= 0.0 {
      assert x * y <= 1.0 * y;
    } else if x >= 0.0 {
      assert x * y >= x * -1.0;
    } else if y >= 0.0 {
      assert x * y >= -1.0 * y;
    } else {
      assert x * y <= -1.0 * y;
    }
  }

  /** Joining in-range buffers gives an in-range buffer. */
  lemma JoinBounded(a: seq<real>, b: seq<real>)
    requires Bounded(a) && Bounded(b)
    ensures Bounded(a + b)
  {
  }

  /** Shifting keeps an in-range buffer in range. */
  lemma ShiftedBounded(s: seq<real>, n: nat)
    requires Bounded(s)
    ensures Bounded(Shifted(s, n))
  {
  }

  /** Resizing a buffer to its own length gives it back. */
  lemma ResizeToOwnLength(s: seq<real>)
    ensures Resize(s, |s|) == s
  {
    forall i | 0 <= i < |s| ensures Resize(s, |s|)[i] == s[i] {
      DivModUnique(i, |s|, 0, i);
    }
  }

  /** A resized buffer repeats with the period of its source. */
  lemma ResizePeriodic(s: seq<real>, n: nat, i: nat)
    requires |s| > 0 && i + |s| < n
    ensures Resize(s, n)[i + |s|] == Resize(s, n)[i]
  {
    DivModUnique(i + |s|, |s|, i / |s| + 1, i % |s|);
  }

  /** Rolling back by the same amount undoes a roll. */
  lemma RollInverse(s: seq<real>, shift: int)
    ensures Roll(Roll(s, shift), -shift) == s
  {
    var rolled := Roll(s, shift);
    var r := Roll(rolled, -shift);
    forall i | 0 <= i < |s| ensures r[i] == s[i] {
      var j := (i - -shift) % |s|;
      assert r[i] == rolled[j];
      RollBack(|s|, shift, i);
      assert rolled[j] == s[(j - shift) % |s|];
    }
  }

  lemma RollBack(m: nat, shift: int, i: nat)
    requires i < m
    ensures ((i - -shift) % m - shift) % m == i
  {
    var q := (i + shift) / m;
    assert i + shift == m * q + (i + shift) % m;
    DivModUnique((i + shift) % m - shift, m, -q, i);
  }

  /** Shifting by nothing changes nothing. */
  lemma ShiftedByZero(s: seq<real>)
    ensures Shifted(s, 0) == s
  {
  }

  /** Two shifts that stay within the buffer add up. */
  lemma ShiftedTwice(s: seq<real>, m: nat, n: nat)
    requires m + n <= |s|
    ensures Shifted(Shifted(s, m), n) == Shifted(s, m + n)
  {
    var once := Shifted(s, m);
    var twice, direct := Shifted(once, n), Shifted(s, m + n);
    assert |once| == |s|;
    forall i | 0 <= i < |s| ensures twice[i] == direct[i] {
      if i >= m + n {
        assert twice[i] == once[i - n] == s[i - n - m];
      }
    }
  }

  /** Modulation is commutative: on a tie the two operands swap roles but
      the products agree. */
  lemma ModulatedCommutes(a: seq<real>, b: seq<real>)
    ensures Modulated(a, b) == Modulated(b, a)
  {
    if |a| == |b| {
      ResizeToOwnLength(a);
      ResizeToOwnLength(b);
      CombineCommutes(a, b, Times);
    }
  }

  /** The loudest sample of a joined buffer is the louder of the two parts'
      loudest samples. */
  lemma {:induction false} MaxOfConcat(a: seq<real>, b: seq<real>)
    requires |a| > 0 && |b| > 0
    ensures MaxOf(a + b) == if MaxOf(a) < MaxOf(b) then MaxOf(b) else MaxOf(a)
  {
    var m := MaxOf(a + b);
    var larger := if MaxOf(a) < MaxOf(b) then MaxOf(b) else MaxOf(a);
    assert larger in a + b by {
      if MaxOf(a) < MaxOf(b) {
        var j :| 0 <= j < |b| && b[j] == MaxOf(b);
        assert (a + b)[|a| + j] == larger;
      } else {
        var j :| 0 <= j < |a| && a[j] == MaxOf(a);
        assert (a + b)[j] == larger;
      }
    }
    var k :| 0 <= k < |a + b| && (a + b)[k] == m;
    if k < |a| {
      assert a[k] == m;
    } else {
      assert b[k - |a|] == m;
    }
    var l :| 0 <= l < |a + b| && (a + b)[l] == larger;
    assert m >= larger;
  }
}
