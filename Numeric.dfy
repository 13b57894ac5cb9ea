/**
 * Integer arithmetic as the robot's C code performs it on the Cortex
 * controller: `(int)` casts and `/` truncate toward zero, `unsigned long`
 * clock differences wrap modulo 2^32, and the motor-output helpers saturate
 * to the PWM range [-127, 127].
 */
module Numeric {

  /** 2^32: `unsigned int` and `unsigned long` are 32 bits wide on the controller. */
  const U32: int := 0x1_0000_0000

  /** 2^31: the first value that no longer fits a signed 32-bit `int`. */
  const I32: int := 0x8000_0000

  /** The PWM bound used by every motor routine. */
  const PwmMax: int := 127

  function Abs(x: int): (r: nat)
    ensures r == x || r == -x
    ensures r >= x && r >= -x
  {
    if x < 0 then -x else x
  }

  function Max(a: int, b: int): (r: int)
    ensures r >= a && r >= b
    ensures r == a || r == b
  {
    if a >= b then a else b
  }

  /** `(int)r` in C: the real value truncated toward zero. */
  function Trunc(r: real): (t: int)
    ensures 0.0 <= r ==> 0 <= t && t as real <= r < t as real + 1.0
    ensures r < 0.0 ==> t <= 0 && t as real - 1.0 < r <= t as real
  {
    if r >= 0.0 then r.Floor else -((-r).Floor)
  }

  /** C's `/` on `int` for a positive divisor: the quotient truncated toward zero. */
  function Quot(n: int, d: int): (q: int)
    requires d > 0
    ensures Abs(q) == Abs(n) / d
    ensures q > 0 ==> n > 0
    ensures q < 0 ==> n < 0
  {
    DivNonneg(Abs(n), d);
    if n >= 0 then n / d else -((-n) / d)
  }

  /** Dividing a non-negative number by a positive one gives a non-negative quotient. */
  lemma DivNonneg(m: int, d: int)
    requires m >= 0 && d > 0
    ensures m / d >= 0
  {
    var q := m / d;
    assert m == q * d + m % d;
    if q < 0 {
      MulAtLeast(-q, d);
      assert false;
    }
  }

  /** The quotient of Euclidean division brackets the dividend between two multiples of the divisor. */
  lemma DivBounds(m: int, d: int)
    requires m >= 0 && d > 0
    ensures 0 <= m / d
    ensures (m / d) * d <= m < (m / d + 1) * d
  {
    DivNonneg(m, d);
    var q := m / d;
    assert m == q * d + m % d;
    assert (q + 1) * d == q * d + d;
  }

  /** A product with a factor of at least 1 is at least the other factor. */
  lemma MulAtLeast(a: int, b: int)
    requires a >= 1 && b >= 0
    ensures a * b >= b
  {
    assert a * b == (a - 1) * b + b;
    assert (a - 1) * b >= 0;
  }

  /** C's `%` on `int` for a positive divisor: the remainder takes the sign of the dividend. */
  function Rem(n: int, d: int): (r: int)
    requires d > 0
    ensures n >= 0 ==> r == n % d
    ensures n < 0 ==> r == -((-n) % d)
    ensures -d < r < d
  {
    n - d * Quot(n, d)
  }

  /** A clock difference `now - last` computed on `unsigned long`. */
  function Elapsed32(now: int, last: int): (e: int)
    ensures 0 <= e < U32
    ensures 0 <= last <= now < last + U32 ==> e == now - last
  {
    (now - last) % U32
  }

  /** An `int` value stored into an `unsigned int`. */
  function ToUnsigned32(x: int): (u: int)
    ensures 0 <= u < U32
    ensures 0 <= x < U32 ==> u == x
    ensures -U32 <= x < 0 ==> u == x + U32
  {
    x % U32
  }

  /** An `unsigned int` value passed where an `int` is expected. */
  function ToSigned32(u: int): (x: int)
    ensures -I32 <= x < I32
    ensures 0 <= u < I32 ==> x == u
    ensures I32 <= u < U32 ==> x == u - U32
  {
    var w := u % U32;
    if w < I32 then w else w - U32
  }

  /**
   * The saturation every motor routine applies before `MotorSet`:
   * `if (abs(x) > bound) x = signbit(x) ? -bound : bound`.
   */
  function Saturate(x: int, bound: nat): (r: int)
    ensures -(bound as int) <= r <= bound
    ensures -(bound as int) <= x <= bound ==> r == x
    ensures x > bound ==> r == bound
    ensures x < -(bound as int) ==> r == -(bound as int)
  {
    if Abs(x) > bound then (if x < 0 then -(bound as int) else bound) else x
  }

  /** Truncating a real quotient is C's integer quotient. */
  lemma {:induction false} TruncOfQuotient(n: int, d: int)
    requires d > 0
    ensures Trunc(n as real / d as real) == Quot(n, d)
  {
    FloorOfQuotient(Abs(n), d);
    if n < 0 {
      assert -(n as real / d as real) == (-n) as real / d as real;
    }
  }

  /** The floor of a non-negative real quotient is the integer quotient. */
  lemma FloorOfQuotient(m: int, d: int)
    requires m >= 0 && d > 0
    ensures (m as real / d as real).Floor == m / d
  {
    var q := m / d;
    var r := m - q * d;
    assert 0 <= r < d;
    assert m as real / d as real == q as real + r as real / d as real;
    FractionBelowOne(r, d);
  }

  /**
   * `(int)(x * (127.0 / max))` for a divisor `max` that is at least the
   * magnitude of `x`: the joint scaling used by the master/slave controller
   * and by the mecanum drive.
   */
  function ScaleToPwm(x: int, max: int): (r: int)
    requires max >= PwmMax
  {
    Trunc(x as real * (PwmMax as real / max as real))
  }

  /** Joint scaling, stated on integers: the result is `x * 127 / max` truncated toward zero. */
  lemma {:induction false} ScaleToPwmIsQuotient(x: int, max: int)
    requires max >= PwmMax
    ensures ScaleToPwm(x, max) == Quot(x * PwmMax, max)
  {
    assert x as real * (PwmMax as real / max as real) == (x * PwmMax) as real / max as real;
    TruncOfQuotient(x * PwmMax, max);
  }

  /** Scaling by `127 / max` never exceeds 127 in magnitude, keeps the sign, and hits ±127 exactly at ±max. */
  lemma {:induction false} ScaleToPwmBounds(x: int, max: int)
    requires max >= PwmMax
    requires Abs(x) <= max
    ensures Abs(ScaleToPwm(x, max)) <= PwmMax
    ensures Abs(ScaleToPwm(x, max)) <= Abs(x)
    ensures x >= 0 ==> ScaleToPwm(x, max) >= 0
    ensures x <= 0 ==> ScaleToPwm(x, max) <= 0
    ensures Abs(x) == max ==> Abs(ScaleToPwm(x, max)) == PwmMax
    ensures max == PwmMax ==> ScaleToPwm(x, max) == x
  {
    ScaleToPwmIsQuotient(x, max);
    var m := Abs(x);
    var q := Quot(x * PwmMax, max);
    assert Abs(x * PwmMax) == PwmMax * m;
    assert Abs(q) == (PwmMax * m) / max;
    DivAtMost(PwmMax * m, max, PwmMax);
    MulMonotone(PwmMax, max, m);
    DivAtMost(PwmMax * m, max, m);
    if m == max {
      DivisionUnique(PwmMax * m, max, PwmMax, 0);
    }
    if max == PwmMax {
      DivisionUnique(PwmMax * m, max, m, 0);
    }
  }

  /** A dividend of at most `c` times the divisor gives a quotient of at most `c`. */
  lemma DivAtMost(n: int, d: int, c: int)
    requires n >= 0 && d > 0 && c >= 0 && n <= c * d
    ensures n / d <= c
  {
    DivBounds(n, d);
    var q := n / d;
    if q > c {
      MulMonotone(c + 1, q, d);
      assert false;
    }
  }

  /** Multiplying by a non-negative factor keeps the order. */
  lemma MulMonotone(a: int, b: int, c: int)
    requires a <= b && c >= 0
    ensures a * c <= b * c
  {
    assert b * c - a * c == (b - a) * c;
    MulNonnegInt(b - a, c);
  }

  lemma MulNonnegInt(a: int, b: int)
    requires a >= 0 && b >= 0
    ensures a * b >= 0
  {
  }

  /** The quotient and remainder of Euclidean division are the only ones. */
  lemma DivisionUnique(x: int, n: int, q: int, r: int)
    requires n > 0 && 0 <= r < n && x == q * n + r
    ensures x / n == q && x % n == r
  {
    var q0, r0 := x / n, x % n;
    assert x == q0 * n + r0;
    var d := q - q0;
    assert d * n == r0 - r;
    if d >= 1 {
      MulAtLeast(d, n);
      assert false;
    } else if d <= -1 {
      MulAtLeast(-d, n);
      assert false;
    }
  }

  /** A proper fraction of non-negative integers lies in [0, 1). */
  lemma FractionBelowOne(r: int, d: int)
    requires 0 <= r < d
    ensures 0.0 <= r as real / d as real < 1.0
  {
    var f := r as real / d as real;
    assert f * d as real == r as real;
    if f < 0.0 {
      MulNonneg(-f, d as real);
      assert false;
    }
    if f >= 1.0 {
      MulNonneg(f - 1.0, d as real);
      assert false;
    }
  }

  lemma MulNonneg(a: real, b: real)
    requires a >= 0.0 && b >= 0.0
    ensures a * b >= 0.0
  {
  }
}
