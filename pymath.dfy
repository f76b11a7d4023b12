/** The Python built-ins on numbers that the sound algebra relies on:
    `int()` applied to a float, `math.gcd`, and `//` and `%` by a positive
    divisor. */
module PyMath {

  /** `int(x)` for a float `x`: rounds toward zero. */
  function Trunc(x: real): (r: int)
    ensures 0.0 <= x ==> 0 <= r && r as real <= x < r as real + 1.0
    ensures x < 0.0 ==> r <= 0 && r as real - 1.0 < x <= r as real
  {
    if x >= 0.0 then x.Floor else -((-x).Floor)
  }

  /** `a // b` for a positive `b`: rounds toward negative infinity. */
  function FloorDiv(a: int, b: int): (q: int)
    requires b > 0
    ensures q * b <= a < q * b + b
  {
    a / b
  }

  /** `a % b` for a positive `b`: never negative, whatever the sign of `a`. */
  function Mod(a: int, b: int): (m: int)
    requires b > 0
    ensures 0 <= m < b
    ensures a == FloorDiv(a, b) * b + m
  {
    a % b
  }

  function Abs(x: int): nat
  {
    if x < 0 then -x else x
  }

  /** `abs(x)` on a float. */
  function Magnitude(x: real): (r: real)
    ensures r >= 0.0 && (r == x || r == -x)
  {
    if x < 0.0 then -x else x
  }

  /** `np.sign(x)`: -1, 0 or 1 with the sign of `x`. */
  function Sign(x: real): (r: real)
    ensures r == -1.0 || r == 0.0 || r == 1.0
    ensures (r < 0.0 <==> x < 0.0) && (r > 0.0 <==> x > 0.0)
  {
    if x < 0.0 then -1.0 else if x > 0.0 then 1.0 else 0.0
  }

  /** `a * np.sign(a * x)` is `abs(a) * np.sign(x)`. */
  lemma SignOfProduct(a: real, x: real)
    ensures a * Sign(a * x) == Magnitude(a) * Sign(x)
  {
    if a < 0.0 && x < 0.0 {
      assert a * x > 0.0;
    } else if a < 0.0 && x > 0.0 {
      assert a * x < 0.0;
    } else if a > 0.0 && x < 0.0 {
      assert a * x < 0.0;
    } else if a > 0.0 && x > 0.0 {
      assert a * x > 0.0;
    }
  }

  /** Euclid's algorithm on naturals. */
  function EuclidGcd(a: nat, b: nat): (g: nat)
    ensures g == 0 <==> a == 0 && b == 0
    decreases b
  {
    if b == 0 then a else EuclidGcd(b, a % b)
  }

  /** `math.gcd(a, b)`: the gcd of the magnitudes, with `gcd(0, 0) == 0`. */
  function Gcd(a: int, b: int): (g: nat)
    ensures g == 0 <==> a == 0 && b == 0
  {
    EuclidGcd(Abs(a), Abs(b))
  }

  /** A non-zero multiple of a positive `b` is at least `b` in magnitude. */
  lemma MultipleMagnitude(b: int, d: int)
    requires b > 0
    ensures d == 0 || b * d >= b || b * d <= -b
  {
    if d >= 1 {
      assert b * d == b * (d - 1) + b;
    } else if d <= -1 {
      assert b * d == -(b * (-d - 1)) - b;
    }
  }

  /** Euclidean division by a positive divisor is unique: a quotient and a
      remainder in [0, b) that make up `a` are `a / b` and `a % b`. */
  lemma DivModUnique(a: int, b: int, q: int, r: int)
    requires b > 0 && 0 <= r < b && a == b * q + r
    ensures a / b == q && a % b == r
  {
    var q', r' := a / b, a % b;
    assert b * q' + r' == b * q + r;
    var d := q - q';
    assert b * d == r' - r;
    MultipleMagnitude(b, d);
  }

  /** Dividing a multiple of `b` by `b` is exact. */
  lemma DivModOfMultiple(b: int, k: int)
    requires b > 0
    ensures FloorDiv(b * k, b) == k && Mod(b * k, b) == 0
  {
    DivModUnique(b * k, b, k, 0);
  }

  /** Anything of the form `k*x + y` is divisible by a common divisor of `x` and `y`. */
  lemma DivisibleCombination(g: nat, x: int, y: int, k: int)
    requires g > 0 && x % g == 0 && y % g == 0
    ensures (k * x + y) % g == 0
  {
    var p, q := x / g, y / g;
    assert x == g * p && y == g * q;
    assert k * x + y == g * (k * p + q);
    DivModUnique(k * x + y, g, k * p + q, 0);
  }

  /** Euclid's algorithm yields a common divisor of its arguments. */
  lemma {:induction false} EuclidGcdDivides(a: nat, b: nat)
    requires a != 0 || b != 0
    ensures a % EuclidGcd(a, b) == 0 && b % EuclidGcd(a, b) == 0
    decreases b
  {
    if b != 0 {
      var g := EuclidGcd(b, a % b);
      EuclidGcdDivides(b, a % b);
      assert a == (a / b) * b + a % b;
      DivisibleCombination(g, b, a % b, a / b);
    }
  }

  /** `math.gcd` divides both of its arguments when one of them is not zero. */
  lemma GcdDivides(a: int, b: int)
    requires a != 0 || b != 0
    ensures a % Gcd(a, b) == 0 && b % Gcd(a, b) == 0
  {
    var g := Gcd(a, b);
    EuclidGcdDivides(Abs(a), Abs(b));
    if a < 0 {
      DivisibleCombination(g, Abs(a), 0, -1);
    }
    if b < 0 {
      DivisibleCombination(g, Abs(b), 0, -1);
    }
  }

  /** Bezout's identity for Euclid's algorithm: the gcd is an integer
      combination of the two arguments. */
  lemma {:induction false} EuclidBezout(a: nat, b: nat) returns (s: int, t: int)
    ensures EuclidGcd(a, b) == s * a + t * b
    decreases b
  {
    if b == 0 {
      s, t := 1, 0;
    } else {
      var s', t' := EuclidBezout(b, a % b);
      BezoutStep(EuclidGcd(a, b), a, b, a / b, a % b, s', t');
      s, t := t', s' - t' * (a / b);
    }
  }

  /** One step of Euclid's algorithm carries a combination of `b` and the
      remainder `r` over to a combination of `a` and `b`. */
  lemma BezoutStep(g: int, a: int, b: int, q: int, r: int, s: int, t: int)
    requires a == q * b + r && g == s * b + t * r
    ensures g == t * a + (s - t * q) * b
  {
    assert t * r == t * a - (t * q) * b;
  }

  /** Bezout's identity for `math.gcd`, whatever the signs. */
  lemma GcdBezout(x: int, y: int) returns (s: int, t: int)
    ensures Gcd(x, y) == s * x + t * y
  {
    var s0, t0 := EuclidBezout(Abs(x), Abs(y));
    s := if x < 0 then -s0 else s0;
    t := if y < 0 then -t0 else t0;
    assert s0 * Abs(x) == s * x;
    assert t0 * Abs(y) == t * y;
  }

  /** `math.gcd` is the greatest common divisor: every common divisor of the
      arguments divides it. */
  lemma GcdGreatest(x: int, y: int, d: nat)
    requires d > 0 && x % d == 0 && y % d == 0
    ensures Gcd(x, y) % d == 0
  {
    var s, t := GcdBezout(x, y);
    DivisibleCombination(d, y, 0, t);
    DivisibleCombination(d, x, t * y, s);
  }

  /** `(x / gcd(x, y)) * y` is the least common multiple up to sign: it
      divides every common multiple `x * k1 == y * k2`, with quotient `k`. */
  lemma LcmDividesCommonMultiple(x: int, y: int, k1: int, k2: int) returns (k: int)
    requires x != 0 || y != 0
    requires x * k1 == y * k2
    ensures x * k1 == ((x / Gcd(x, y)) * y) * k
  {
    var g := Gcd(x, y);
    GcdDivides(x, y);
    var s, t := GcdBezout(x, y);
    var p, q := x / g, y / g;
    assert x == g * p && y == g * q;
    k := LcmOfFactors(g, p, q, s, t, k1, k2);
  }

  /** The same with the arguments written as `g * p` and `g * q`, where
      `g == s * (g * p) + t * (g * q)`. */
  lemma LcmOfFactors(g: int, p: int, q: int, s: int, t: int, k1: int, k2: int) returns (k: int)
    requires g > 0 && g == s * (g * p) + t * (g * q)
    requires (g * p) * k1 == (g * q) * k2
    ensures (g * p) * k1 == (p * (g * q)) * k
  {
    UnitCombination(g, p, q, s, t);
    var m, l := (g * p) * k1, p * (g * q);
    MultiplesOfProduct(g, p, q, k1, k2);
    k := s * k2 + t * k1;
    BezoutCombination(m, l, p, q, s, t, k1, k2);
  }

  /** Dividing `g == s * (g * p) + t * (g * q)` by `g`. */
  lemma UnitCombination(g: int, p: int, q: int, s: int, t: int)
    requires g > 0 && g == s * (g * p) + t * (g * q)
    ensures s * p + t * q == 1
  {
    assert s * (g * p) + t * (g * q) == g * (s * p + t * q);
    CancelFactor(g, 1, s * p + t * q);
  }

  /** For a common multiple `m == (g * p) * k1 == (g * q) * k2`, `p * m` and
      `q * m` are multiples of `p * (g * q)`. */
  lemma MultiplesOfProduct(g: int, p: int, q: int, k1: int, k2: int)
    requires (g * p) * k1 == (g * q) * k2
    ensures p * ((g * p) * k1) == (p * (g * q)) * k2
    ensures q * ((g * p) * k1) == (p * (g * q)) * k1
  {
    assert p * ((g * q) * k2) == (p * (g * q)) * k2;
    assert q * ((g * p) * k1) == (q * (g * p)) * k1;
  }

  /** The algebra behind the least common multiple: with `s*p + t*q == 1`,
      a number whose `p`- and `q`-multiples are multiples of `l` is itself a
      multiple of `l`. */
  lemma BezoutCombination(m: int, l: int, p: int, q: int, s: int, t: int, k1: int, k2: int)
    requires s * p + t * q == 1
    requires p * m == l * k2 && q * m == l * k1
    ensures m == l * (s * k2 + t * k1)
  {
    assert m == m * (s * p + t * q);
    assert m * (s * p + t * q) == s * (p * m) + t * (q * m);
    assert s * (l * k2) + t * (l * k1) == l * (s * k2 + t * k1);
  }

  /** A positive factor cancels from both sides of an equation. */
  lemma CancelFactor(g: int, a: int, b: int)
    requires g > 0 && g * a == g * b
    ensures a == b
  {
    if a < b {
      assert g * b == g * a + g * (b - a);
      MultipleMagnitude(g, b - a);
    } else if a > b {
      assert g * a == g * b + g * (a - b);
      MultipleMagnitude(g, a - b);
    }
  }
}
