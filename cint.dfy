/**
 * The C++ `int` the calculator computes with: a 32-bit signed integer, and
 * division that truncates toward zero (the C++ rule that the quotient's
 * fractional part is discarded and (a/b)*b + a%b == a).  Dafny's own `/` is
 * Euclidean, so TruncDiv is defined on top of it and tied to the C++ rule.
 */
module CInt {

  const MinInt32: int := -0x8000_0000
  const MaxInt32: int := 0x7FFF_FFFF

  predicate IsInt32(x: int) {
    MinInt32 <= x <= MaxInt32
  }

  newtype int32 = x: int | MinInt32 <= x <= MaxInt32

  function Abs(x: int): nat {
    if x < 0 then -x else x
  }

  function Sign(x: int): int {
    if x < 0 then -1 else if x == 0 then 0 else 1
  }

  /**
   * C-style quotient.  The remainder a - q*b is smaller than b in magnitude
   * and is zero or has the sign of the dividend.
   */
  function TruncDiv(a: int, b: int): (q: int)
    requires b != 0
    ensures Abs(a - q * b) < Abs(b)
    ensures a - q * b == 0 || (a - q * b < 0 <==> a < 0)
  {
    if a >= 0 || a % b == 0 then a / b
    else if b > 0 then a / b + 1
    else a / b - 1
  }

  /** The C++ rule determines the quotient: no other value meets it. */
  lemma TruncDivUnique(a: int, b: int, q: int)
    requires b != 0
    requires Abs(a - q * b) < Abs(b)
    requires a - q * b == 0 || (a - q * b < 0 <==> a < 0)
    ensures q == TruncDiv(a, b)
  {
    var t := TruncDiv(a, b);
    var r, s := a - q * b, a - t * b;
    SubMul(t, q, b);
    assert r - s == (t - q) * b;
    // r and s are both zero or of the dividend's sign, and both smaller than b
    assert Abs(r - s) < Abs(b);
    if q != t {
      MulAbs(t - q, b);
      assert false;
    }
  }

  lemma SubMul(x: int, y: int, z: int)
    ensures x * z - y * z == (x - y) * z
  {
  }

  lemma AbsMul(x: int, y: int)
    ensures Abs(x * y) == Abs(x) * Abs(y)
  {
    if x < 0 && y < 0 {
      assert x * y == (-x) * (-y);
    } else if x < 0 {
      assert x * y == -((-x) * y);
    } else if y < 0 {
      assert x * y == -(x * (-y));
    }
  }

  lemma MulAbs(x: int, y: int)
    requires Abs(x) >= 1
    ensures Abs(x * y) >= Abs(y)
  {
    AbsMul(x, y);
    assert Abs(x) * Abs(y) == Abs(y) + (Abs(x) - 1) * Abs(y);
  }

  /** The quotient is sign(a) * sign(b) * (|a| div |b|). */
  lemma TruncDivBySigns(a: int, b: int)
    requires b != 0
    ensures TruncDiv(a, b) == Sign(a) * Sign(b) * (Abs(a) / Abs(b))
  {
    var m := Abs(a) / Abs(b);
    var q := Sign(a) * Sign(b) * m;
    var e := Abs(a) - m * Abs(b);
    assert 0 <= e < Abs(b);
    if a == 0 {
      assert m == 0;
    } else if (a < 0) == (b < 0) {
      assert q == m;
      assert a - q * b == Sign(a) * e;
    } else {
      assert q == -m;
      assert a - q * b == Sign(a) * e;
    }
    TruncDivUnique(a, b, q);
  }

  /** On a non-negative dividend and a positive divisor it agrees with Euclidean division. */
  lemma TruncDivNonNegative(a: int, b: int)
    requires a >= 0 && b > 0
    ensures TruncDiv(a, b) == a / b
  {
  }

  /** Negating either operand negates the quotient (truncation is symmetric about zero). */
  lemma TruncDivOdd(a: int, b: int)
    requires b != 0
    ensures TruncDiv(-a, b) == -TruncDiv(a, b)
    ensures TruncDiv(a, -b) == -TruncDiv(a, b)
  {
    TruncDivBySigns(a, b);
    TruncDivBySigns(-a, b);
    TruncDivBySigns(a, -b);
  }

  /**
   * On 32-bit operands the quotient is again a 32-bit value, except for
   * INT_MIN / -1, whose quotient 2^31 does not fit.
   */
  lemma TruncDivInt32(a: int, b: int)
    requires IsInt32(a) && IsInt32(b) && b != 0
    ensures IsInt32(TruncDiv(a, b)) <==> !(a == MinInt32 && b == -1)
  {
    TruncDivBySigns(a, b);
    var m := Abs(a) / Abs(b);
    if Abs(b) == 1 {
      assert m == Abs(a);
    } else {
      DivHalves(Abs(a), Abs(b));
    }
  }

  lemma DivHalves(x: nat, y: nat)
    requires y >= 2
    ensures 2 * (x / y) <= x
  {
    var m := x / y;
    assert m * y <= x;
    assert 2 * m <= m * y;
  }
}
