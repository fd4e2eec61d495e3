/** Small facts about mixed-radix packing with Euclidean division. */
module Arith {
  lemma {:induction false} MulLe(a: nat, b: nat, n: nat)
    requires a <= b
    ensures a * n <= b * n
  {
  }

  lemma {:induction false} PackBound(a: nat, b: nat, count: nat, n: nat)
    requires a < count && b < n
    ensures a * n + b < count * n
  {
    MulLe(a + 1, count, n);
  }

  lemma {:induction false} Unpack(x: nat, n: nat)
    requires 0 < n
    ensures x == (x / n) * n + x % n && 0 <= x % n < n && 0 <= x / n
  {
  }

  /** Two numbers with the same quotient and remainder are equal. */
  lemma {:induction false} UnpackInjective(x: nat, y: nat, n: nat)
    requires 0 < n && x / n == y / n && x % n == y % n
    ensures x == y
  {
    Unpack(x, n);
    Unpack(y, n);
  }

  lemma {:induction false} UnpackBound(x: nat, count: nat, n: nat)
    requires 0 < n && x < count * n
    ensures x / n < count
  {
    Unpack(x, n);
    if x / n >= count {
      MulLe(count, x / n, n);
    }
  }

  lemma {:induction false} PackUnpack(a: nat, b: nat, n: nat)
    requires b < n
    ensures (a * n + b) / n == a && (a * n + b) % n == b
  {
    var x := a * n + b;
    Unpack(x, n);
    var q, r := x / n, x % n;
    if q > a {
      MulLe(a + 1, q, n);
    } else if q < a {
      MulLe(q + 1, a, n);
    }
  }

  lemma {:induction false} MulLeInt(a: int, b: int, n: nat)
    requires a <= b
    ensures a * n <= b * n
  {
  }

  /** Adding the modulus once does not change the Euclidean remainder. */
  lemma {:induction false} ModShift(a: int, b: int)
    requires 0 < b && -b <= a
    ensures (a + b) % b == a % b
  {
    if a >= 0 {
      Unpack(a, b);
      DistributeNat(a / b, 1, b);
      PackUnpack(a / b + 1, a % b, b);
    } else {
      var q, r := a / b, a % b;
      assert a == b * q + r && 0 <= r < b;
      if q < -1 {
        MulLeInt(q, -2, b);
        assert false;
      } else if q > -1 {
        assert false;
      }
      assert r == a + b;
      PackUnpack(0, a + b, b);
    }
  }

  lemma {:induction false} DistributeNat(a: nat, b: nat, n: nat)
    ensures (a + b) * n == a * n + b * n
  {
  }

  lemma {:induction false} Distribute(x: real, a: real, u: real, b: real, w: real)
    ensures x * (a * u + b * w) == a * (x * u) + b * (x * w)
  {
  }

  lemma {:induction false} DistributeSum(s: real, u: real, w: real, x: real)
    requires s == u + w
    ensures s * x == u * x + w * x
  {
  }

  lemma {:induction false} Regroup(a: real, b: real, c: real, d: real)
    ensures a * b * c * d == a * (b * c) * d
  {
  }

  lemma {:induction false} NegTimesNeg(a: real, b: real)
    ensures (-a) * (-b) == a * b
  {
  }

  lemma {:induction false} LinearStep(ru: real, rw: real, x: real, a: real, u: real, b: real, w: real)
    ensures (a * ru + b * rw) + x * (a * u + b * w) == a * (ru + x * u) + b * (rw + x * w)
  {
  }

  lemma {:induction false} SquareNonNegative(x: real)
    ensures x * x >= 0.0
  {
  }
}
