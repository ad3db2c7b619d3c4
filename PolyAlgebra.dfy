/**
  Integer polynomials as coefficient sequences (index = degree), the plain
  convolution product, and the reduction modulo x^n - x - 1 used by every
  multiplier of the implementation.  These are the reference definitions
  that the imperative multipliers are proved against.
 */
module PolyAlgebra {

  /** Coefficient of degree i; zero outside the stored range. */
  function Coef(a: seq<int>, i: int): int {
    if 0 <= i < |a| then a[i] else 0
  }

  /** Partial convolution sum: the terms Coef(a, j) * Coef(b, k - j) for 0 <= j < n. */
  function PSum(a: seq<int>, b: seq<int>, k: int, n: nat): int
    decreases n
  {
    if n == 0 then 0 else PSum(a, b, k, n - 1) + Coef(a, n - 1) * Coef(b, k - (n - 1))
  }

  /** Coefficient of degree k of the product a*b. */
  function ConvAt(a: seq<int>, b: seq<int>, k: int): int {
    if k < 0 then 0 else PSum(a, b, k, k + 1)
  }

  /** The plain (unreduced) product of two polynomials, of length |a| + |b| - 1. */
  function Mul(a: seq<int>, b: seq<int>): seq<int>
    requires |a| + |b| >= 1
  {
    seq(|a| + |b| - 1, k => ConvAt(a, b, k))
  }

  /**
    Reduction of a polynomial of degree at most 2n - 2 modulo x^n - x - 1:
    the coefficient of degree n + k (k < n - 1) is folded into degrees k and
    k + 1, because x^(n+k) = x^k * (x + 1) in the quotient ring.
   */
  function RingReduce(c: seq<int>, n: nat): (r: seq<int>)
    ensures |r| == n
  {
    seq(n, k => FoldedCoef(c, n, k))
  }

  /** Degree k of the reduction: its own coefficient and those of x^(k+n) and x^(k+n-1). */
  function FoldedCoef(c: seq<int>, n: nat, k: int): int {
    Coef(c, k) + Coef(c, k + n) + (if k >= 1 then Coef(c, k + n - 1) else 0)
  }

  /** The product of two length-n ring elements in Z[x]/(x^n - x - 1). */
  function RingMul(a: seq<int>, b: seq<int>, n: nat): (r: seq<int>)
    requires |a| == n && |b| == n && n >= 1
    ensures |r| == n
  {
    RingReduce(Mul(a, b), n)
  }

  /** The quotient polynomial x^n - x - 1 itself. */
  function Modulus(n: nat): (f: seq<int>)
    requires n >= 2
    ensures |f| == n + 1
  {
    seq(n + 1, i => if i == n then 1 else if i <= 1 then -1 else 0)
  }

  /** The polynomial x (length n). */
  function X(n: nat): (x: seq<int>)
    requires n >= 2
    ensures |x| == n
  {
    seq(n, i => if i == 1 then 1 else 0)
  }

  /** The constant polynomial 1 (length n). */
  function One(n: nat): (x: seq<int>)
    requires n >= 1
    ensures |x| == n
  {
    seq(n, i => if i == 0 then 1 else 0)
  }

  // ---------------------------------------------------------------------------
  // Basic facts about the partial sums

  /** The partial sums stop growing once every further term is zero. */
  lemma {:induction false} PSumStable(a: seq<int>, b: seq<int>, k: int, n: nat)
    requires 0 <= k
    requires n >= |a| || n >= k + 1
    ensures PSum(a, b, k, n) == ConvAt(a, b, k)
    decreases if n >= k + 1 then n - (k + 1) else (k + 1) - n
  {
    if n > k + 1 {
      PSumStable(a, b, k, n - 1);
    } else if n < k + 1 {
      assert Coef(a, n) == 0;
      PSumStable(a, b, k, n + 1);
    }
  }

  /** The first n terms are all zero when every index k - j (j < n) lies beyond b. */
  lemma {:induction false} PSumZeroPrefix(a: seq<int>, b: seq<int>, k: int, n: nat)
    requires n <= k - |b| + 1
    ensures PSum(a, b, k, n) == 0
  {
    if n > 0 {
      assert Coef(b, k - (n - 1)) == 0;
      PSumZeroPrefix(a, b, k, n - 1);
    }
  }

  /** Coefficients of degree |a| + |b| - 1 and above vanish. */
  lemma ConvAtHigh(a: seq<int>, b: seq<int>, k: int)
    requires k >= |a| + |b| - 1
    ensures ConvAt(a, b, k) == 0
  {
    if k >= 0 {
      PSumStable(a, b, k, |a|);
      PSumZeroPrefix(a, b, k, |a|);
    }
  }

  /** Every coefficient of the product, in or out of range, is ConvAt. */
  lemma CoefMul(a: seq<int>, b: seq<int>, k: int)
    requires |a| + |b| >= 1
    ensures Coef(Mul(a, b), k) == ConvAt(a, b, k)
  {
    if k >= |a| + |b| - 1 {
      ConvAtHigh(a, b, k);
    }
  }

  // ---------------------------------------------------------------------------
  // Linearity

  /**
    Linearity in the first factor: if u = alpha * v + x^d * w coefficient by
    coefficient, then so are the coefficients of the products with c.
   */
  lemma {:induction false} PSumLinearLeft(u: seq<int>, v: seq<int>, w: seq<int>, alpha: int, d: nat,
                                          c: seq<int>, k: int, n: nat)
    requires forall j :: Coef(u, j) == alpha * Coef(v, j) + Coef(w, j - d)
    requires n >= d
    ensures PSum(u, c, k, n) == alpha * PSum(v, c, k, n) + PSum(w, c, k - d, n - d)
  {
    if n == d {
      PSumZeroLeftPrefix(u, v, w, alpha, d, c, k, n);
    } else {
      PSumLinearLeft(u, v, w, alpha, d, c, k, n - 1);
      var j := n - 1;
      var cu, cv, cw, cc := Coef(u, j), Coef(v, j), Coef(w, j - d), Coef(c, k - j);
      assert cu == alpha * cv + cw;
      var pu, pv, pw := PSum(u, c, k, j), PSum(v, c, k, j), PSum(w, c, k - d, j - d);
      assert PSum(u, c, k, n) == pu + cu * cc;
      assert PSum(v, c, k, n) == pv + cv * cc;
      assert PSum(w, c, k - d, n - d) == pw + cw * cc;
      LinearStep(alpha, pu, pv, pw, cu, cv, cw, cc);
    }
  }

  /** One term of a linear combination of partial sums. */
  lemma LinearStep(alpha: int, pu: int, pv: int, pw: int, cu: int, cv: int, cw: int, cc: int)
    requires pu == alpha * pv + pw && cu == alpha * cv + cw
    ensures pu + cu * cc == alpha * (pv + cv * cc) + (pw + cw * cc)
  {
    assert cu * cc == alpha * (cv * cc) + cw * cc;
    assert alpha * (pv + cv * cc) == alpha * pv + alpha * (cv * cc);
  }

  /** Helper for PSumLinearLeft: the first d terms only see the alpha * v part. */
  lemma {:induction false} PSumZeroLeftPrefix(u: seq<int>, v: seq<int>, w: seq<int>, alpha: int, d: nat,
                                              c: seq<int>, k: int, n: nat)
    requires forall j :: Coef(u, j) == alpha * Coef(v, j) + Coef(w, j - d)
    requires n <= d
    ensures PSum(u, c, k, n) == alpha * PSum(v, c, k, n)
  {
    if n > 0 {
      PSumZeroLeftPrefix(u, v, w, alpha, d, c, k, n - 1);
      var j := n - 1;
      assert Coef(w, j - d) == 0;
      var cv, cc := Coef(v, j), Coef(c, k - j);
      assert Coef(u, j) * cc == alpha * (cv * cc);
    }
  }

  /** Linearity in the first factor, for whole coefficients. */
  lemma ConvAtLinearLeft(u: seq<int>, v: seq<int>, w: seq<int>, alpha: int, d: nat, c: seq<int>, k: int)
    requires forall j :: Coef(u, j) == alpha * Coef(v, j) + Coef(w, j - d)
    ensures ConvAt(u, c, k) == alpha * ConvAt(v, c, k) + ConvAt(w, c, k - d)
  {
    if k >= 0 {
      var n := k + 1 + d;
      PSumLinearLeft(u, v, w, alpha, d, c, k, n);
      PSumStable(u, c, k, n);
      PSumStable(v, c, k, n);
      if k - d >= 0 {
        PSumStable(w, c, k - d, n - d);
      } else {
        PSumZeroPrefixNeg(w, c, k - d, n - d);
      }
    }
  }

  /** A product coefficient of negative degree is zero, whatever the number of terms. */
  lemma {:induction false} PSumZeroPrefixNeg(a: seq<int>, b: seq<int>, k: int, n: nat)
    requires k < 0
    ensures PSum(a, b, k, n) == 0
  {
    if n > 0 {
      assert Coef(b, k - (n - 1)) == 0;
      PSumZeroPrefixNeg(a, b, k, n - 1);
    }
  }

  /** Linearity in the second factor: b = c - e on degrees 0..k gives (a*b)_k = (a*c)_k - (a*e)_k. */
  lemma {:induction false} PSumLinearRight(a: seq<int>, b: seq<int>, c: seq<int>, e: seq<int>, k: int, n: nat)
    requires forall i :: 0 <= i <= k ==> Coef(b, i) == Coef(c, i) - Coef(e, i)
    ensures PSum(a, b, k, n) == PSum(a, c, k, n) - PSum(a, e, k, n)
  {
    if n > 0 {
      PSumLinearRight(a, b, c, e, k, n - 1);
      var j := n - 1;
      var ca, cb, cc, ce := Coef(a, j), Coef(b, k - j), Coef(c, k - j), Coef(e, k - j);
      assert cb == cc - ce by {
        if 0 <= k - j {
        } else {
          assert cb == 0 && cc == 0 && ce == 0;
        }
      }
      assert ca * cb == ca * cc - ca * ce;
    }
  }

  lemma ConvAtLinearRight(a: seq<int>, b: seq<int>, c: seq<int>, e: seq<int>, k: int)
    requires forall i :: 0 <= i <= k ==> Coef(b, i) == Coef(c, i) - Coef(e, i)
    ensures ConvAt(a, b, k) == ConvAt(a, c, k) - ConvAt(a, e, k)
  {
    if k >= 0 {
      PSumLinearRight(a, b, c, e, k, k + 1);
    }
  }

  /** Splitting off the constant term of the first factor. */
  lemma ConvAtHead(a: seq<int>, c: seq<int>, k: int)
    requires |a| >= 1
    ensures ConvAt(a, c, k) == a[0] * Coef(c, k) + ConvAt(a[1..], c, k - 1)
  {
    var one := [1];
    forall j ensures Coef(a, j) == a[0] * Coef(one, j) + Coef(a[1..], j - 1) {
    }
    ConvAtLinearLeft(a, one, a[1..], a[0], 1, c, k);
    ConvAtOneLeft(c, k);
  }

  /** 1 * c = c. */
  lemma ConvAtOneLeft(c: seq<int>, k: int)
    ensures ConvAt([1], c, k) == Coef(c, k)
  {
    if k >= 0 {
      PSumStable([1], c, k, 1);
    }
  }

  /** A polynomial whose coefficients are all zero annihilates. */
  lemma ConvAtZeroLeft(z: seq<int>, c: seq<int>, k: int)
    requires forall j :: Coef(z, j) == 0
    ensures ConvAt(z, c, k) == 0
  {
    ConvAtLinearLeft(z, [], [], 0, 0, c, k);
    ConvAtEmpty(c, k);
  }

  lemma ConvAtEmpty(c: seq<int>, k: int)
    ensures ConvAt([], c, k) == 0
  {
    if k >= 0 {
      PSumStable([], c, k, 0);
    }
  }

  // ---------------------------------------------------------------------------
  // Associativity

  /** (a*b)*c and a*(b*c) agree on every coefficient. */
  lemma {:induction false} ConvAtAssoc(a: seq<int>, b: seq<int>, c: seq<int>, k: int)
    requires |b| >= 1 && |c| >= 1
    ensures ConvAt(a, Mul(b, c), k) == ConvAt(Mul(a, b), c, k)
    decreases |a|
  {
    var ab := Mul(a, b);
    var bc := Mul(b, c);
    if |a| == 0 {
      ConvAtEmpty(bc, k);
      forall j ensures Coef(ab, j) == 0 {
        CoefMul(a, b, j);
        ConvAtZeroLeft(a, b, j);
      }
      ConvAtZeroLeft(ab, c, k);
    } else {
      var a1 := a[1..];
      var a1b := Mul(a1, b);
      // a*(b*c) = a0 * (b*c) + x * (a1*(b*c))
      ConvAtHead(a, bc, k);
      CoefMul(b, c, k);
      ConvAtAssoc(a1, b, c, k - 1);
      // (a*b) = a0 * b + x * (a1*b), coefficient by coefficient
      forall j ensures Coef(ab, j) == a[0] * Coef(b, j) + Coef(a1b, j - 1) {
        CoefMul(a, b, j);
        CoefMul(a1, b, j - 1);
        ConvAtHead(a, b, j);
      }
      ConvAtLinearLeft(ab, b, a1b, a[0], 1, c, k);
    }
  }

  // ---------------------------------------------------------------------------
  // Products with sparse factors

  /** x * c shifts c up by one degree. */
  lemma ConvAtXRight(b: seq<int>, n: nat, k: int)
    requires n >= 2
    ensures ConvAt(b, X(n), k) == Coef(b, k - 1)
  {
    if k >= 0 {
      PSumXRight(b, n, k, k + 1);
    }
  }

  lemma {:induction false} PSumXRight(b: seq<int>, n: nat, k: int, m: nat)
    requires n >= 2 && 0 <= k && m <= k + 1
    ensures PSum(b, X(n), k, m) == if m >= k then Coef(b, k - 1) else 0
  {
    if m > 0 {
      PSumXRight(b, n, k, m - 1);
      assert Coef(X(n), k - (m - 1)) == if m - 1 == k - 1 then 1 else 0;
    }
  }

  /** c * 1 = c. */
  lemma ConvAtOneRight(b: seq<int>, n: nat, k: int)
    requires n >= 1
    ensures ConvAt(b, One(n), k) == Coef(b, k)
  {
    if k >= 0 {
      PSumOneRight(b, n, k, k + 1);
    }
  }

  lemma {:induction false} PSumOneRight(b: seq<int>, n: nat, k: int, m: nat)
    requires n >= 1 && 0 <= k && m <= k + 1
    ensures PSum(b, One(n), k, m) == if m == k + 1 then Coef(b, k) else 0
  {
    if m > 0 {
      PSumOneRight(b, n, k, m - 1);
      assert Coef(One(n), k - (m - 1)) == if m - 1 == k then 1 else 0;
    }
  }

  /** (x^n - x - 1) * h, coefficient by coefficient. */
  lemma ConvAtModulus(h: seq<int>, n: nat, k: int)
    requires n >= 2
    ensures ConvAt(Modulus(n), h, k) == Coef(h, k - n) - Coef(h, k - 1) - Coef(h, k)
  {
    if k >= 0 {
      PSumModulus(h, n, k, k + 1 + n);
      PSumStable(Modulus(n), h, k, k + 1 + n);
    }
  }

  lemma {:induction false} PSumModulus(h: seq<int>, n: nat, k: int, m: nat)
    requires n >= 2
    ensures PSum(Modulus(n), h, k, m)
         == (if m > n then Coef(h, k - n) else 0)
          - (if m > 1 then Coef(h, k - 1) else 0)
          - (if m > 0 then Coef(h, k) else 0)
  {
    if m > 0 {
      PSumModulus(h, n, k, m - 1);
    }
  }

  // ---------------------------------------------------------------------------
  // Facts about the reduction modulo x^n - x - 1

  /** Coefficient k < n of the reduction, written with the unreduced coefficients. */
  lemma RingReduceAt(c: seq<int>, n: nat, k: nat)
    requires k < n
    ensures RingReduce(c, n)[k] == Coef(c, k) + Coef(c, k + n) + (if k >= 1 then Coef(c, k + n - 1) else 0)
  {
  }

  /**
    The reduction really is the remainder modulo x^n - x - 1: for any c of
    degree at most 2n - 2, c = (x^n - x - 1) * c[n..] + RingReduce(c, n).
   */
  lemma RingReduceIsRemainder(c: seq<int>, n: nat, k: int)
    requires n >= 2 && n <= |c| <= 2 * n - 1
    ensures Coef(c, k) == ConvAt(Modulus(n), c[n..], k) + Coef(RingReduce(c, n), k)
  {
    var h := c[n..];
    ConvAtModulus(h, n, k);
    if 0 <= k < n {
      RingReduceAt(c, n, k);
      assert Coef(h, k) == Coef(c, k + n);
      assert k >= 1 ==> Coef(h, k - 1) == Coef(c, k + n - 1);
      assert Coef(h, k - n) == 0;
    } else if k >= n {
      assert Coef(h, k - n) == Coef(c, k);
      assert Coef(h, k - 1) == 0 && Coef(h, k) == 0;
    }
  }

  /** Coefficient k of a ring product, in terms of the plain product. */
  lemma RingMulAt(a: seq<int>, b: seq<int>, n: nat, k: nat)
    requires |a| == n && |b| == n && n >= 1 && k < n
    ensures RingMul(a, b, n)[k]
         == Coef(Mul(a, b), k) + Coef(Mul(a, b), k + n) + (if k >= 1 then Coef(Mul(a, b), k + n - 1) else 0)
  {
    RingReduceAt(Mul(a, b), n, k);
  }

  /**
    The `iter().all(|v| -1 <= v <= 1)` fold of `is_small`, one coefficient
    at a time: true iff every coefficient lies in [-1, 1].
   */
  function AllSmall(s: seq<int>): (b: bool)
    ensures b <==> forall k :: 0 <= k < |s| ==> -1 <= s[k] <= 1
  {
    if |s| == 0 then true
    else
      var rest := AllSmall(s[1..]);
      assert forall k :: 1 <= k < |s| ==> s[k] == s[1..][k - 1];
      -1 <= s[0] <= 1 && rest
  }

  /** The all-zero polynomial of length m. */
  function Zeros(m: nat): (z: seq<int>)
    ensures |z| == m
  {
    seq(m, _ => 0)
  }

  /** a * 1 is a, padded with zeros up to the product's length. */
  lemma MulOne(a: seq<int>, n: nat)
    requires |a| == n && n >= 1
    ensures Mul(a, One(n)) == a + Zeros(n - 1)
  {
    var c := Mul(a, One(n));
    forall j | 0 <= j < |c| ensures c[j] == (a + Zeros(n - 1))[j] {
      CoefMul(a, One(n), j);
      ConvAtOneRight(a, n, j);
    }
  }

  /** b * x is b shifted up one degree, padded with zeros up to the product's length. */
  lemma MulX(b: seq<int>, n: nat)
    requires |b| == n && n >= 2
    ensures Mul(b, X(n)) == [0] + b + Zeros(n - 2)
  {
    var c := Mul(b, X(n));
    forall j | 0 <= j < |c| ensures c[j] == ([0] + b + Zeros(n - 2))[j] {
      CoefMul(b, X(n), j);
      ConvAtXRight(b, n, j);
    }
  }

  lemma ReduceOfPadded(a: seq<int>, n: nat)
    requires |a| == n && n >= 1
    ensures RingReduce(a + Zeros(n - 1), n) == a
  {
  }

  lemma ReduceOfShifted(b: seq<int>, n: nat, k: nat)
    requires |b| == n && n >= 2 && k < n
    ensures RingReduce([0] + b + Zeros(n - 2), n)[k]
         == if k == 0 then b[n - 1] else if k == 1 then b[0] + b[n - 1] else b[k - 1]
  {
  }

  /** Multiplying by the ring's 1 changes nothing. */
  lemma RingMulOne(a: seq<int>, n: nat)
    requires |a| == n && n >= 1
    ensures RingMul(a, One(n), n) == a
  {
    MulOne(a, n);
    ReduceOfPadded(a, n);
  }

  /** Multiplying by x in the ring: rotate up one degree, the top coefficient wraps to degrees 0 and 1. */
  lemma RingMulX(b: seq<int>, n: nat, k: nat)
    requires |b| == n && n >= 2 && k < n
    ensures RingMul(b, X(n), n)[k]
         == if k == 0 then b[n - 1] else if k == 1 then b[0] + b[n - 1] else b[k - 1]
  {
    MulX(b, n);
    ReduceOfShifted(b, n, k);
  }

  // ---------------------------------------------------------------------------
  // Truncated power series

  /** If e vanishes below degree m, then e*e vanishes below degree 2m. */
  lemma {:induction false} PSumSquareLow(e: seq<int>, m: nat, k: int, n: nat)
    requires forall i :: 0 <= i < m ==> Coef(e, i) == 0
    requires k < 2 * m
    ensures PSum(e, e, k, n) == 0
  {
    if n > 0 {
      PSumSquareLow(e, m, k, n - 1);
      var j := n - 1;
      if j < m {
        assert Coef(e, j) == 0;
      } else {
        assert Coef(e, k - j) == 0;
      }
    }
  }

  lemma ConvAtSquareLow(e: seq<int>, m: nat, k: int)
    requires forall i :: 0 <= i < m ==> Coef(e, i) == 0
    requires k < 2 * m
    ensures ConvAt(e, e, k) == 0
  {
    if k >= 0 {
      PSumSquareLow(e, m, k, k + 1);
    }
  }
}
