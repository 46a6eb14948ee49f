// Shared value types and C arithmetic used by every module of the model.

module Common {

  datatype Option<T> = None | Some(value: T)

  /** The largest finite IEEE-754 single-precision value (FLT_MAX). */
  const FltMax: real := 340282346638528859811704183484516925440.0

  function Min(a: int, b: int): (r: int)
    ensures r <= a && r <= b && (r == a || r == b)
  {
    if a < b then a else b
  }

  function Max(a: int, b: int): (r: int)
    ensures r >= a && r >= b && (r == a || r == b)
  {
    if a < b then b else a
  }

  function RMax(a: real, b: real): (r: real)
    ensures r >= a && r >= b && (r == a || r == b)
  {
    if a < b then b else a
  }

  function RMin(a: real, b: real): (r: real)
    ensures r <= a && r <= b && (r == a || r == b)
  {
    if a < b then a else b
  }

  function RAbs(a: real): (r: real)
    ensures r >= 0.0 && (r == a || r == -a)
  {
    if a < 0.0 then -a else a
  }

  /** A C cast from float to int: the fraction is dropped, rounding toward zero. */
  function Trunc(r: real): (n: int)
    ensures r >= 0.0 ==> 0 <= n && n as real <= r < n as real + 1.0
    ensures r < 0.0 ==> n <= 0 && n as real - 1.0 < r <= n as real
  {
    if r >= 0.0 then r.Floor else -((-r).Floor)
  }

  /** C integer division by a positive divisor, which truncates toward zero
      (Dafny's `/` is Euclidean and rounds a negative quotient down). */
  function CDiv(a: int, b: int): (q: int)
    requires b > 0
    ensures a >= 0 ==> q == a / b
    ensures a >= 0 ==> 0 <= a - b * q < b
    ensures a < 0 ==> -b < a - b * q <= 0
  {
    if a >= 0 then a / b else -((-a) / b)
  }

  /** `x + w / 2` with C division: the centre of an integer interval. */
  function CentreOf(x: int, w: int): (c: int)
    ensures w >= 0 ==> x <= c <= x + w
    ensures w >= 0 ==> 2 * (c - x) == w || 2 * (c - x) == w - 1
  {
    x + CDiv(w, 2)
  }

  /** The product of a list of tensor dimensions (an empty product is 1). */
  function Product(dims: seq<int>): (r: int)
    ensures (forall k :: 0 <= k < |dims| ==> dims[k] >= 0) ==> r >= 0
  {
    if dims == [] then 1 else dims[0] * Product(dims[1..])
  }

  /** The quotient and remainder of q * n + r are q and r. */
  lemma DivModOf(a: int, q: int, r: int, n: int)
    requires n > 0 && 0 <= r < n && a == q * n + r
    ensures a / n == q && a % n == r
  {
    var q', r' := a / n, a % n;
    assert (q - q') * n == r' - r;
    MulBetween(q - q', n);
  }

  lemma MulBetween(x: int, n: int)
    requires n > 0 && -n < x * n < n
    ensures x == 0
  {
    if x > 0 { MulGe(x, n); } else if x < 0 { MulGe(-x, n); }
  }

  lemma MulGe(x: int, n: int)
    requires x >= 1 && n > 0
    ensures x * n >= n
  {
    assert x * n == (x - 1) * n + n;
    MulNonNeg(x - 1, n);
  }

  lemma MulNonNeg(x: int, n: int)
    requires x >= 0 && n >= 0
    ensures x * n >= 0
  {
  }

  lemma MulMono(a: int, b: int, c: int)
    requires a <= b && c >= 0
    ensures a * c <= b * c
  {
    assert b * c - a * c == (b - a) * c;
    if a < b {
      MulNonNeg(b - a, c);
    }
  }

  lemma PosFactor(x: int, n: int)
    requires n > 0 && x * n > 0
    ensures x > 0
  {
    if x <= 0 { MulNonNeg(-x, n); }
  }

  /** An index below count * n splits into a record below count and an offset below n. */
  lemma FlatInRange(p: int, n: int, count: int)
    requires n > 0 && 0 <= p < count * n
    ensures 0 <= p / n < count && 0 <= p % n < n
  {
    var q := p / n;
    assert (count - q) * n > 0;
    PosFactor(count - q, n);
  }

  /** The index of cell (x, y) of a row-major grid, and back. */
  lemma RowMajor(x: int, y: int, w: int, h: int)
    requires 0 <= x < w && 0 <= y < h
    ensures 0 <= y * w + x < w * h
    ensures (y * w + x) % w == x && (y * w + x) / w == y
  {
    DivModOf(y * w + x, y, x, w);
    MulMono(y + 1, h, w);
    MulNonNeg(y, w);
    assert (y + 1) * w == y * w + w;
    assert h * w == w * h;
  }
}
