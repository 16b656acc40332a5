/**
 * Shared vocabulary of the model: optional and fallible results, the C
 * conversions the source relies on (truncating integer division, the
 * float-to-int cast, the int-to-unsigned-char store) and the 320x200
 * byte framebuffer geometry.
 */
module Common {

  datatype Option<T> = None | Some(value: T)

  datatype Result<T, E> = Success(value: T) | Failure(error: E) {
    predicate IsFailure() { Failure? }
  }

  /** A byte of a framebuffer or an image buffer. */
  type Byte = b: int | 0 <= b < 256

  /** Width in bytes of one row of the 320x200 mode-13h framebuffer. */
  const SCREEN_WIDTH: int := 320
  const SCREEN_HEIGHT: int := 200
  const SCREEN_SIZE: int := 64000

  /** The byte offset of pixel (x, y) in a 320-wide frame buffer. */
  function Offset(x: int, y: int): int
  {
    y * 320 + x
  }

  /** The screen offset of column c of row r of a rectangle whose top left is (x0, y0). */
  function At(x0: int, y0: int, r: int, c: int): int
  {
    Offset(x0 + c, y0 + r)
  }

  /** Whether offset k lies in the rectangle of columns x1..x2 and rows y1..y2. */
  predicate InRect(k: int, x1: int, y1: int, x2: int, y2: int)
  {
    y1 <= k / 320 <= y2 && x1 <= k % 320 <= x2
  }

  /** An on-row pixel's offset gives back its column and row. */
  lemma OffsetCoords(x: int, y: int)
    requires 0 <= x < SCREEN_WIDTH
    ensures Offset(x, y) / 320 == y && Offset(x, y) % 320 == x
  {
  }

  function Abs(x: int): (r: nat)
    ensures r == x || r == -x
  {
    if x < 0 then -x else x
  }

  function Min(a: int, b: int): (r: int)
    ensures r <= a && r <= b && (r == a || r == b)
  {
    if a < b then a else b
  }

  function Max(a: int, b: int): (r: int)
    ensures r >= a && r >= b && (r == a || r == b)
  {
    if a < b then b else a
  }

  /** Storing an int into an unsigned char keeps it modulo 256. */
  function ToByte(c: int): (b: Byte)
    ensures (b - c) % 256 == 0
  {
    c % 256
  }

  /** C's `/` on ints: the quotient is truncated toward zero. */
  function TruncDiv(a: int, b: int): (q: int)
    requires b > 0
    ensures Abs(q) == Abs(a) / b
    ensures (a >= 0 ==> q >= 0) && (a <= 0 ==> q <= 0)
  {
    if a >= 0 then DivOfNat(a, b); a / b else DivOfNat(-a, b); -((-a) / b)
  }

  lemma DivOfNat(a: nat, b: int)
    requires b > 0
    ensures a / b >= 0
  {
  }

  lemma TruncDivOdd(a: int, b: int)
    requires b > 0
    ensures TruncDiv(-a, b) == -TruncDiv(a, b)
  {
  }

  /** Converting a float or double to an int truncates toward zero. */
  function Trunc(r: real): (i: int)
    ensures r >= 0.0 ==> i as real <= r < i as real + 1.0
    ensures r < 0.0 ==> i as real - 1.0 < r <= i as real
  {
    if r >= 0.0 then r.Floor else -((-r).Floor)
  }

  /** x lies between a and b, in either order, both ends included. */
  predicate Between(x: int, a: int, b: int)
  {
    Min(a, b) <= x <= Max(a, b)
  }

  /** Truncating a real that lies between two whole numbers stays between them. */
  lemma TruncBetween(r: real, a: int, b: int)
    requires Min(a, b) as real <= r <= Max(a, b) as real
    ensures Between(Trunc(r), a, b)
  {
  }

  lemma TruncWhole(n: int)
    ensures Trunc(n as real) == n
  {
  }

  function Pow2(n: nat): (p: nat)
    ensures p >= 1
  {
    if n == 0 then 1 else 2 * Pow2(n - 1)
  }

  /** `x >> n` on a signed value is an arithmetic shift: floor division. */
  function Shr(x: int, n: nat): int
  {
    x / Pow2(n)
  }

  /** `x << n` multiplies by 2^n. */
  function Shl(x: int, n: nat): int
  {
    x * Pow2(n)
  }

  // Nonlinear arithmetic facts the solver needs spelled out.

  lemma MulMonotone(a: int, b: int, d: nat)
    requires a <= b
    ensures a * d <= b * d
  {
    assert b * d - a * d == (b - a) * d;
  }

  lemma MulSucc(n: int, a: int)
    ensures (n + 1) * a == n * a + a
  {
  }

  lemma DivBetween(n: nat, d: nat, q: nat)
    requires d > 0 && q * d <= n < (q + 1) * d
    ensures n / d == q
  {
    var k, m := n / d, n % d;
    assert n == k * d + m && 0 <= m < d;
    if k > q {
      MulMonotone(q + 1, k, d);
      assert false;
    }
    if k < q {
      MulMonotone(k + 1, q, d);
      assert false;
    }
  }
}
