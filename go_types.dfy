/**
 * Integer and optional-value vocabulary shared by the model: Go's fixed-width
 * unsigned integers as bounded `nat`s, Go's truncating integer division, and
 * an Option for the Go "zero value means unset" idiom.
 */
module GoTypes {

  const Uint8Limit: nat := 0x100
  const Uint16Limit: nat := 0x1_0000
  const Uint32Limit: nat := 0x1_0000_0000

  type uint8 = x: nat | x < Uint8Limit
  type uint16 = x: nat | x < Uint16Limit
  type uint32 = x: nat | x < Uint32Limit

  /** A value that may be absent (Go's zero `time.Time`, a nil pointer). */
  datatype Option<T> = None | Some(value: T)

  /** Go's `/` on signed integers: the quotient truncated toward zero. */
  function Quot(a: int, b: int): (q: int)
    requires b != 0
    ensures Abs(q * b) <= Abs(a)
    ensures Abs(a - q * b) < Abs(b)
    ensures a - q * b == 0 || (a - q * b < 0 <==> a < 0)
  {
    var q: int := if (a >= 0) == (b > 0) then Abs(a) / Abs(b) else -(Abs(a) / Abs(b));
    QuotRemainder(a, b, q);
    q
  }

  lemma QuotRemainder(a: int, b: int, q: int)
    requires b != 0
    requires q == if (a >= 0) == (b > 0) then Abs(a) / Abs(b) else -(Abs(a) / Abs(b))
    ensures Abs(q * b) <= Abs(a)
    ensures a - q * b == (if a >= 0 then Abs(a) % Abs(b) else -(Abs(a) % Abs(b)))
  {
    var n, d := Abs(a), Abs(b);
    DivideNat(n, d);
    SignedProduct(n / d, d, q, b, (a >= 0) == (b > 0));
  }

  /** Euclidean division of naturals: quotient times divisor is the dividend less the remainder. */
  lemma DivideNat(n: nat, d: nat)
    requires 0 < d
    ensures 0 <= (n / d) * d == n - n % d && 0 <= n % d < d
  {
  }

  /** `q * b` is `m * d` or its negation, as the signs of `q` and `b` agree or not. */
  lemma SignedProduct(m: int, d: int, q: int, b: int, same: bool)
    requires q == (if same then m else -m) && (b == d || b == -d)
    ensures q * b == if same == (b == d) then m * d else -(m * d)
  {
    if b == -d {
      assert q * b == -(q * d);
    }
  }

  /** For a non-negative dividend and a positive divisor Go's quotient is the Euclidean one. */
  lemma QuotOfNatural(a: int, b: int)
    requires 0 <= a && 0 < b
    ensures Quot(a, b) == a / b
  {
  }

  /** For a non-positive dividend and a positive divisor the quotient is the negated quotient of the magnitudes. */
  lemma QuotOfNegative(a: int, b: int)
    requires a <= 0 && 0 < b
    ensures Quot(a, b) == -((-a) / b)
  {
  }

  /** A multiple of the divisor is divided exactly. */
  lemma QuotExact(k: int, b: int)
    requires b != 0
    ensures Quot(k * b, b) == k
  {
    AbsProduct(k, b);
    DivideMultiple(Abs(k), Abs(b));
    SignOfProduct(k, b);
  }

  lemma AbsProduct(x: int, y: int)
    ensures Abs(x * y) == Abs(x) * Abs(y)
  {
    if x < 0 {
      assert x * y == -((-x) * y);
    }
    if y < 0 {
      assert Abs(x) * y == -(Abs(x) * (-y));
    }
  }

  lemma SignOfProduct(x: int, y: int)
    requires y != 0
    ensures x * y >= 0 <==> x == 0 || (x > 0) == (y > 0)
  {
    if x > 0 && y < 0 {
      assert x * y == -(x * (-y));
    } else if x < 0 && y > 0 {
      assert x * y == -((-x) * y);
    } else if x < 0 && y < 0 {
      assert x * y == (-x) * (-y);
    }
  }

  lemma DivideMultiple(k: nat, d: nat)
    requires 0 < d
    ensures (k * d) / d == k
  {
    var q, r := (k * d) / d, (k * d) % d;
    assert k * d == q * d + r && 0 <= r < d;
    assert (k - q) * d == r;
    if k - q > 0 {
      MultiplyMonotone(1, k - q, d);
    } else if k - q < 0 {
      assert (q - k) * d == -r;
      MultiplyMonotone(1, q - k, d);
    }
  }

  /** `x / d <= m` when `x <= d * m`. */
  lemma DivideBelow(x: nat, d: nat, m: nat)
    requires 0 < d && x <= d * m
    ensures x / d <= m
  {
    var q, r := x / d, x % d;
    assert x == q * d + r && 0 <= r;
    if q > m {
      MultiplyMonotone(m + 1, q, d);
    }
  }

  lemma MultiplyMonotone(x: nat, y: nat, d: nat)
    requires x <= y
    ensures x * d <= y * d
  {
  }

  function Abs(x: int): nat
  {
    if x < 0 then -x else x
  }

  /** Go's `uint16` arithmetic: the result reduced modulo 2^16. */
  function Wrap16(x: int): (r: uint16)
    ensures (r - x) % Uint16Limit == 0
  {
    x % Uint16Limit
  }
}
