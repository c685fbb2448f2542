/** Values shared by every module: optional and fallible results, Go's
    `time.Duration` units, and Go's truncating integer division. */
module Common {

  datatype Option<T> = None | Some(value: T)

  /** A Go `(T, error)` pair: either a value or an error message. */
  datatype Result<T> = Ok(value: T) | Err(msg: string)

  /** An `error` return with no value: `None` is `nil`. */
  type Error = Option<string>

  /** `time.Duration`: a count of nanoseconds (int64 overflow is not modelled). */
  type Duration = int

  /** An instant of `time.Time`, as nanoseconds since a fixed origin. */
  type Time = int

  const Second: int := 1_000_000_000
  const Minute: int := 60 * Second
  const Hour: int := 60 * Minute

  /** Go's `a / b` on integers: the quotient truncated toward zero. */
  function Quo(a: int, b: int): int
    requires b > 0
  {
    if a >= 0 then a / b else -((-a) / b)
  }

  /** Go's `a % b` on integers: the remainder takes the sign of `a`. */
  function Rem(a: int, b: int): int
    requires b > 0
  {
    if a >= 0 then a % b else -((-a) % b)
  }

  /** Go's division identity and the sign rule of its remainder. */
  lemma QuoRem(a: int, b: int)
    requires b > 0
    ensures Quo(a, b) * b + Rem(a, b) == a
    ensures a >= 0 ==> 0 <= Rem(a, b) < b
    ensures a < 0 ==> -b < Rem(a, b) <= 0
  {
    if a < 0 {
      assert (-a) / b * b + (-a) % b == -a;
    }
  }

  /** On non-negative operands Go's division agrees with Dafny's. */
  lemma QuoOfNatural(a: int, b: int)
    requires a >= 0 && b > 0
    ensures Quo(a, b) == a / b && Rem(a, b) == a % b
  {
  }

  lemma MulAtLeast(m: int, b: int)
    requires m >= 1 && b > 0
    ensures m * b >= b
  {
    assert m * b == (m - 1) * b + b;
  }

  /** Division is unique: a quotient and remainder in range are `a / b` and `a % b`. */
  lemma DivUnique(a: int, b: int, q: int, r: int)
    requires b > 0 && a == q * b + r && 0 <= r < b
    ensures a / b == q && a % b == r
  {
    var q0, r0 := a / b, a % b;
    assert q * b - q0 * b == r0 - r;
    assert (q - q0) * b == q * b - q0 * b;
    if q > q0 {
      MulAtLeast(q - q0, b);
    } else if q < q0 {
      assert (q0 - q) * b == q0 * b - q * b;
      MulAtLeast(q0 - q, b);
    }
  }

  lemma MulDistributes(x: int, y: int, b: int)
    ensures (x + y) * b == x * b + y * b
  {
  }

  lemma MulAssociates(x: int, y: int, z: int)
    ensures (x * y) * z == x * (y * z)
  {
  }

  lemma MulMonotone(x: int, y: int, b: int)
    requires x <= y && b >= 0
    ensures x * b <= y * b
  {
    MulDistributes(y - x, x, b);
  }

  /** Dividing in two steps is dividing by the product. */
  lemma DivDiv(a: int, b: int, c: int)
    requires a >= 0 && b > 0 && c > 0
    ensures a / b / c == a / (b * c)
  {
    var q, r := a / b, a % b;
    var q2, r2 := q / c, q % c;
    assert a == q * b + r;
    assert q == q2 * c + r2;
    MulDistributes(q2 * c, r2, b);
    MulAssociates(q2, c, b);
    assert c * b == b * c;
    assert a == q2 * (b * c) + (r2 * b + r);
    MulMonotone(r2, c - 1, b);
    MulDistributes(c, -1, b);
    assert r2 * b + r < b * c;
    assert 0 <= r2 * b by {
      MulMonotone(0, r2, b);
    }
    DivUnique(a, b * c, q2, r2 * b + r);
  }

  /** Whole minutes are whole seconds divided by 60; whole hours likewise. */
  lemma UnitSteps(d: int)
    requires d >= 0
    ensures d / Minute == d / Second / 60
    ensures d / Hour == d / Minute / 60
    ensures d / Hour == d / Second / 3600
  {
    DivDiv(d, Second, 60);
    DivDiv(d, Minute, 60);
    DivDiv(d, Second, 3600);
  }

  /** A non-negative duration is its whole hours, the minutes and the
      seconds left over, as Go's division computes them. */
  lemma ClockParts(d: int)
    requires d >= 0
    ensures Quo(d, Hour) == d / Second / 3600
    ensures Quo(d, Minute) == d / Second / 60
    ensures 0 <= Rem(Quo(d, Minute), 60) < 60 && 0 <= Rem(Quo(d, Second), 60) < 60
    ensures d / Second == Quo(d, Minute) * 60 + Rem(Quo(d, Second), 60)
    ensures d / Second == Quo(d, Hour) * 3600 + Rem(Quo(d, Minute), 60) * 60 + Rem(Quo(d, Second), 60)
  {
    UnitSteps(d);
    var secs := d / Second;
    var mins := secs / 60;
    DivDiv(secs, 60, 60);
    assert secs == mins * 60 + secs % 60;
    assert mins == mins / 60 * 60 + mins % 60;
  }
}
