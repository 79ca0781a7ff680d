/**
 * Shared building blocks: optional values, results, and the integer
 * operations of Rust's `i32` that differ from Dafny's built-in ones.
 */
module Prelude {

  datatype Option<T> = None | Some(value: T)

  datatype Result<T, E> = Ok(value: T) | Err(error: E)

  function Abs(x: int): nat
  {
    if x < 0 then -x else x
  }

  function Max(a: int, b: int): int
  {
    if a < b then b else a
  }

  function Min(a: int, b: int): int
  {
    if a < b then a else b
  }

  /** Rust's `/` on signed integers: the quotient rounded toward zero. */
  function TruncDiv(a: int, b: int): int
    requires b != 0
  {
    var m := Abs(a) / Abs(b);
    if (a < 0) == (b < 0) then m else -m
  }

  /** Rust's `%` (and `i32::rem`) on signed integers: the remainder takes the sign of `a`. */
  function TruncRem(a: int, b: int): int
    requires b != 0
  {
    a - b * TruncDiv(a, b)
  }

  /** Halving an even number is exact under truncating division. */
  lemma TruncDivTwice(k: int)
    ensures TruncDiv(2 * k, 2) == k
    ensures TruncDiv(2 * k + 1, 2) == (if k < 0 then k + 1 else k)
  {
  }

  /** `rem(6)` keeps the sign of its operand and its magnitude is the Euclidean remainder of the magnitude. */
  lemma TruncRemSix(k: int)
    ensures k >= 0 ==> TruncRem(k, 6) == k % 6
    ensures k < 0 ==> TruncRem(k, 6) == -((-k) % 6)
  {
  }

  lemma AbsMul(x: int, k: int)
    ensures Abs(x * k) == Abs(x) * Abs(k)
  {
    if x >= 0 && k >= 0 {
    } else if x >= 0 {
      assert x * k == -(x * (-k));
    } else if k >= 0 {
      assert x * k == -((-x) * k);
    } else {
      assert x * k == (-x) * (-k);
    }
  }

  lemma MulAtLeast(x: int, k: int)
    requires x >= 1 && k > 0
    ensures x * k >= k
  {
    assert x * k == (x - 1) * k + k;
  }

  /** Euclidean division of a multiple gives back the factor. */
  lemma DivOfMultiple(t: nat, k: nat)
    requires k > 0
    ensures (t * k) / k == t
  {
    var d := (t * k) / k;
    var m := (t * k) % k;
    assert t * k == d * k + m && 0 <= m < k;
    if d < t {
      MulAtLeast(t - d, k);
    } else if d > t {
      MulAtLeast(d - t, k);
    }
  }

  /** Truncating division undoes multiplication by a non-zero factor. */
  lemma TruncDivOfMultiple(x: int, k: int)
    requires k != 0
    ensures TruncDiv(x * k, k) == x
  {
    AbsMul(x, k);
    DivOfMultiple(Abs(x), Abs(k));
    assert Abs(x * k) / Abs(k) == Abs(x);
    if x > 0 {
      assert (x * k < 0) == (k < 0) by {
        if k < 0 { assert x * k == -(x * -k); }
      }
    } else if x < 0 {
      assert (x * k < 0) != (k < 0) by {
        if k < 0 { assert x * k == (-x) * (-k); } else { assert x * k == -((-x) * k); }
      }
    }
  }

  /** A truncated quotient times the divisor never exceeds the dividend in magnitude. */
  lemma TruncDivBound(x: int, k: int)
    requires k != 0
    ensures Abs(TruncDiv(x, k) * k) <= Abs(x)
  {
    var m := Abs(x) / Abs(k);
    var t := TruncDiv(x, k);
    AbsMul(t, k);
    assert Abs(t) == m;
    EuclidBound(Abs(x), Abs(k));
  }

  /**
   * The truncated quotient has the magnitude of the Euclidean quotient of the magnitudes,
   * the sign of the exact quotient (or is zero), and is the largest such multiple.
   */
  lemma TruncDivMagnitude(x: int, k: int)
    requires k != 0
    ensures Abs(TruncDiv(x, k)) == Abs(x) / Abs(k)
    ensures TruncDiv(x, k) * x * k >= 0
    ensures Abs(x) < Abs(TruncDiv(x, k) * k) + Abs(k)
  {
    var t := TruncDiv(x, k);
    AbsMul(t, k);
    EuclidRemainder(Abs(x), Abs(k));
    TruncDivSign(x, k);
  }

  /** The Euclidean quotient leaves a remainder smaller than the divisor. */
  lemma EuclidRemainder(x: nat, k: nat)
    requires k > 0
    ensures x < (x / k) * k + k
  {
  }

  /** The truncated quotient, the dividend and the divisor never multiply to a negative number. */
  lemma TruncDivSign(x: int, k: int)
    requires k != 0
    ensures TruncDiv(x, k) * x * k >= 0
  {
    TruncDivSignOfQuotient(x, k);
    SignedTriple(TruncDiv(x, k), x, k);
  }

  lemma TruncDivSignOfQuotient(x: int, k: int)
    requires k != 0
    ensures (x < 0) == (k < 0) ==> TruncDiv(x, k) >= 0
    ensures (x < 0) != (k < 0) ==> TruncDiv(x, k) <= 0
  {
    NatQuotient(Abs(x), Abs(k));
  }

  lemma NatQuotient(a: nat, b: nat)
    requires b > 0
    ensures a / b >= 0
  {
  }

  lemma SignedTriple(t: int, x: int, k: int)
    requires (x < 0) == (k < 0) ==> t >= 0
    requires (x < 0) != (k < 0) ==> t <= 0
    ensures t * x * k >= 0
  {
    if (x < 0) == (k < 0) {
      SameSignProduct(x, k);
      NonNegProduct(t, x * k);
    } else {
      OppositeSignProduct(x, k);
      NonNegProduct(-t, -(x * k));
      assert t * (x * k) == (-t) * (-(x * k));
    }
    assert t * x * k == t * (x * k);
  }

  lemma NonNegProduct(a: int, b: int)
    requires a >= 0 && b >= 0
    ensures a * b >= 0
  {
  }

  lemma SameSignProduct(a: int, b: int)
    requires (a < 0) == (b < 0)
    ensures a * b >= 0
  {
    if a < 0 {
      NonNegProduct(-a, -b);
      assert a * b == (-a) * (-b);
    } else {
      NonNegProduct(a, b);
    }
  }

  lemma OppositeSignProduct(a: int, b: int)
    requires (a < 0) != (b < 0)
    ensures a * b <= 0
  {
    if a < 0 {
      NonNegProduct(-a, b);
      assert a * b == -((-a) * b);
    } else {
      NonNegProduct(a, -b);
      assert a * b == -(a * (-b));
    }
  }

  lemma EuclidBound(x: nat, k: nat)
    requires k > 0
    ensures (x / k) * k <= x
  {
  }
}
