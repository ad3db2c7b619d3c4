/**
  The older `NtruIntPoly` helpers of src/poly/poly.rs: a polynomial with an
  explicit length field n and i16 coefficients, the one-pass product modulo
  x^n - x - 1 and modulo m, the extended Euclidean inverse of a residue,
  the degree, and the zero test (which sums the coefficients).
 */
module NtruPoly {
  import opened Params
  import opened PolyAlgebra
  import opened NumberTheory
  import Poly

  class NtruIntPoly {
    /** The declared number of coefficients (`usize`). */
    var n: nat
    /** The coefficient vector (`Vec<i16>`), constant term first. */
    var coeffs: seq<int>

    /** `from_zero(n)`: n zero coefficients and length field n. */
    constructor FromZero(len: nat)
      ensures n == len && coeffs == Zeros(len)
    {
      n := len;
      coeffs := Zeros(len);
    }

    /**
      `equals_zero`: the i16 sum of the coefficients is 0.  This holds for
      the zero polynomial but also for nonzero ones such as [1, -1].
     */
    function EqualsZero(): (z: bool)
      reads this
      ensures AllZero(coeffs) ==> z
    {
      SumIsZero(coeffs)
    }

    /** The intended zero test: every coefficient is 0. */
    function IsZero(): (z: bool)
      reads this
      ensures z <==> forall j :: 0 <= j < |coeffs| ==> coeffs[j] == 0
    {
      AllZero(coeffs)
    }

    /**
      `get_poly_degree`: the highest index below n holding a nonzero
      coefficient, or 0 when there is none.  The source counts down from
      n - 1 in usize, hence n >= 1.
     */
    method GetPolyDegree() returns (d: nat)
      requires n >= 1 && |coeffs| >= n
      ensures d < n
      ensures coeffs[d] != 0 || d == 0
      ensures forall j :: d < j < n ==> coeffs[j] == 0
    {
      var i := n;
      while i > 0
        invariant 0 <= i <= n
        invariant forall j :: i <= j < n ==> coeffs[j] == 0
      {
        i := i - 1;
        if coeffs[i] != 0 {
          return i;
        }
      }
      return 0;
    }
  }

  /** The plain sum of a coefficient vector. */
  function Sum(s: seq<int>): int
  {
    if |s| == 0 then 0 else s[0] + Sum(s[1..])
  }

  /** The zero test of `equals_zero`: the sum, wrapped to i16, is 0. */
  function SumIsZero(s: seq<int>): (z: bool)
    ensures AllZero(s) ==> z
  {
    SumZero(s);
    WrapI16(Sum(s)) == 0
  }

  lemma {:induction false} SumZero(s: seq<int>)
    ensures (forall j :: 0 <= j < |s| ==> s[j] == 0) ==> Sum(s) == 0
  {
    if |s| > 0 {
      assert forall j :: 1 <= j < |s| ==> s[1..][j - 1] == s[j];
      SumZero(s[1..]);
    }
  }

  /** All coefficients are zero. */
  function AllZero(s: seq<int>): (z: bool)
    ensures z <==> forall j :: 0 <= j < |s| ==> s[j] == 0
  {
    if |s| == 0 then true
    else
      var rest := AllZero(s[1..]);
      assert forall j :: 1 <= j < |s| ==> s[j] == s[1..][j - 1];
      s[0] == 0 && rest
  }

  /** `equals_zero` accepts the nonzero polynomial [1, -1]; the intended test rejects it. */
  lemma EqualsZeroAcceptsNonzero()
    ensures SumIsZero([1, -1])
    ensures !AllZero([1, -1])
  {
    assert Sum([1, -1]) == 1 + Sum([-1]);
    assert Sum([-1]) == -1 + Sum([]);
  }

  /** test_from_zero: a fresh zero polynomial passes both zero tests. */
  lemma FromZeroIsZero(len: nat)
    ensures AllZero(Zeros(len)) && SumIsZero(Zeros(len))
  {
  }

  /** `ntruprime_mult_poly` on objects: the output must be a third polynomial. */
  method NtruprimeMultPoly(a: NtruIntPoly, b: NtruIntPoly, c: NtruIntPoly, m: int) returns (ok: bool)
    requires c != a && c != b
    requires 0 < m <= 0x8000
    requires a.n == b.n ==> |a.coeffs| >= a.n && |b.coeffs| >= a.n
    requires a.n == b.n ==> forall i :: 0 <= i < a.n ==> 0 <= a.coeffs[i] < 0x8000 && 0 <= b.coeffs[i] < 0x8000
    modifies c
    ensures ok <==> a.n == b.n
    ensures !ok ==> c.n == old(c.n) && c.coeffs == old(c.coeffs)
    ensures ok ==> c.n == a.n && |c.coeffs| == a.n
    ensures ok ==> forall k :: 0 <= k < a.n ==>
              c.coeffs[k] == RingMul(a.coeffs[..a.n], b.coeffs[..a.n], a.n)[k] % m
  {
    var n := a.n;
    if n != b.n {
      return false;
    }
    var av := a.coeffs[..n];
    var bv := b.coeffs[..n];
    c.n := n;
    var cv := MultPolyCoeffs(av, bv, m);
    c.coeffs := cv;
    ok := true;
  }

  /**
    The loops of `ntruprime_mult_poly` on the coefficient vectors: for each
    k, ck1 is the coefficient of x^k of a*b and ck2 that of x^(k+n); both
    go into c[k] and ck2 also into c[k+1], reduced modulo m every time.
   */
  method MultPolyCoeffs(a: seq<int>, b: seq<int>, m: int) returns (c: seq<int>)
    requires |a| == |b| && 0 < m
    ensures |c| == |a|
    ensures forall k :: 0 <= k < |a| ==> c[k] == RingMul(a, b, |a|)[k] % m
  {
    var n := |a|;
    c := Zeros(n);
    for k := 0 to n
      invariant |c| == n
      invariant forall j :: 0 <= j < k ==> c[j] == RingMul(a, b, n)[j] % m
      invariant k < n ==> c[k] == (if k >= 1 then ConvAt(a, b, k + n - 1) % m else 0)
      invariant forall j :: k < j < n ==> c[j] == 0
    {
      var ck1 := ConvTerms(a, b, k, 0, k + 1);
      var ck2 := ConvTerms(a, b, k + n, k + 1, n);
      PSumZeroPrefix(a, b, k + n, k + 1);
      PSumStable(a, b, k + n, n);
      ghost var prev := c[k];
      c := c[k := (c[k] + ck1 + ck2) % m];
      FoldedResidue(a, b, k, prev, ck1, ck2, m);
      if k < n - 1 {
        c := c[k + 1 := (c[k + 1] + ck2) % m];
      }
    }
  }

  /** The inner loops of `ntruprime_mult_poly`: the terms a[i] * b[k - i] for lo <= i < hi. */
  method ConvTerms(a: seq<int>, b: seq<int>, k: int, lo: nat, hi: nat) returns (s: int)
    requires lo <= hi <= |a| && hi <= k + 1 + lo && k - (hi - 1) >= 0 && k - lo < |b|
    ensures s == PSum(a, b, k, hi) - PSum(a, b, k, lo)
  {
    s := 0;
    for i := lo to hi
      invariant s == PSum(a, b, k, i) - PSum(a, b, k, lo)
    {
      s := s + a[i] * b[k - i];
    }
  }

  /** Coefficient k of the ring product modulo m from the three partial terms. */
  lemma FoldedResidue(a: seq<int>, b: seq<int>, k: nat, prev: int, ck1: int, ck2: int, m: int)
    requires |a| == |b| && k < |a| && 0 < m
    requires ck1 == PSum(a, b, k, k + 1) && ck2 == ConvAt(a, b, k + |a|)
    requires prev == (if k >= 1 then ConvAt(a, b, k + |a| - 1) % m else 0)
    ensures (prev + ck1 + ck2) % m == RingMul(a, b, |a|)[k] % m
  {
    var n := |a|;
    RingMulAt(a, b, n, k);
    CoefMul(a, b, k);
    CoefMul(a, b, k + n);
    CoefMul(a, b, k + n - 1);
    var w := if k >= 1 then ConvAt(a, b, k + n - 1) else 0;
    assert prev == w % m;
    ModOfResidue(w, ck1 + ck2, m);
  }

  lemma ModOfResidue(x: int, y: int, m: int)
    requires 0 < m
    ensures (x % m + y) % m == (x + y) % m
  {
    var s, v := x % m + y, x + y;
    assert (s % m - s) % m == 0 && 0 <= s % m < m by { Poly.RemEuclid(s, m); }
    assert (s - v) % m == 0 by {
      Poly.RemEuclid(x, m);
      assert s - v == x % m - x;
    }
    assert (v % m - v) % m == 0 && 0 <= v % m < m by { Poly.RemEuclid(v, m); }
    ResiduesMeet(s % m, s, v, v % m, m);
  }

  /** Residues in [0, m) of two congruent values are equal. */
  lemma ResiduesMeet(r1: int, s: int, v: int, r2: int, m: int)
    requires 0 < m && 0 <= r1 < m && 0 <= r2 < m
    requires (r1 - s) % m == 0 && (s - v) % m == 0 && (r2 - v) % m == 0
    ensures r1 == r2
  {
    CongruentTrans(m, r1, s, v);
    CongruentSym(m, r2, v);
    CongruentTrans(m, r1, v, r2);
    Poly.SmallCongruent(r1, r2, m);
  }

  /** Euclid's greatest common divisor. */
  function Gcd(a: nat, b: nat): nat
    decreases b
  {
    if b == 0 then a else Gcd(b, a % b)
  }

  /** Gcd(a, b) divides both a and b. */
  lemma {:induction false} GcdDivides(a: nat, b: nat)
    requires a > 0 || b > 0
    ensures Gcd(a, b) > 0 && a % Gcd(a, b) == 0 && b % Gcd(a, b) == 0
    decreases b
  {
    if b > 0 {
      GcdDivides(b, a % b);
      var g := Gcd(b, a % b);
      var t, u, v := a / b, b / g, (a % b) / g;
      ZeroModWitness(b, g);
      ZeroModWitness(a % b, g);
      SumOfMultiples(a, b, t, a % b, g, u, v);
      MultipleMod(g, u * t + v);
    }
  }

  lemma SumOfMultiples(a: int, b: int, t: int, r: int, g: int, u: int, v: int)
    requires a == b * t + r && b == g * u && r == g * v
    ensures a == g * (u * t + v)
  {
    assert b * t == g * (u * t);
  }

  /** Every common divisor of a and b divides Gcd(a, b). */
  lemma {:induction false} GcdGreatest(a: nat, b: nat, d: nat)
    requires d > 0 && a % d == 0 && b % d == 0
    ensures Gcd(a, b) % d == 0
    decreases b
  {
    if b > 0 {
      ZeroModWitness(a, d);
      ZeroModWitness(b, d);
      assert a % b == a - b * (a / b);
      assert a % b == d * (a / d - (b / d) * (a / b));
      MultipleMod(d, a / d - (b / d) * (a / b));
      GcdGreatest(b, a % b, d);
    }
  }

  /**
    `ntruprime_inv_int(a, m)`: the extended Euclidean algorithm on (a, m)
    tracking the coefficients of a (x, lastx) and of m (y, lasty); a
    negative lastx is lifted by m.  When a and m are coprime the result
    is the inverse of a modulo m, in [0, m).  Both arguments are u16 cast
    to i16, hence the bounds.
   */
  method NtruprimeInvInt(a0: int, m: int) returns (r: int)
    requires 0 <= a0 < 0x8000 && 0 < m < 0x8000
    ensures Gcd(a0, m) == 1 ==> 0 <= r < m && (a0 * r - 1) % m == 0
  {
    var a := a0;
    var x, lastx, y, lasty := 0, 1, 1, 0;
    var b := m;
    ghost var started := false;
    while b != 0
      invariant 0 <= a && 0 <= b
      invariant lastx * a0 + lasty * m == a && x * a0 + y * m == b
      invariant Abs(lastx) * b + Abs(x) * a == m
      invariant lastx * x <= 0
      invariant Gcd(a, b) == Gcd(a0, m)
      invariant started ==> b < a && Abs(lastx) * a < m
      invariant !started ==> b == m && x == 0
      decreases b
    {
      var quotient := a / b;
      var temp := a;
      a := b;
      b := temp % b;
      InvStep(temp, a, quotient, lastx, x, m, started);
      BezoutStep(lastx, lasty, x, y, a0, m, temp, a, quotient);
      temp := x;
      x := lastx - quotient * x;
      lastx := temp;
      temp := y;
      y := lasty - quotient * y;
      lasty := temp;
      started := true;
    }
    if Gcd(a0, m) == 1 {
      assert a == 1;
      LiftInverse(a0, m, lastx, lasty);
    }
    if lastx < 0 {
      lastx := lastx + m;
    }
    r := lastx;
  }

  /** A Bezout coefficient of a0 below m in size, lifted into [0, m), is the inverse of a0. */
  lemma LiftInverse(a0: int, m: int, lastx: int, lasty: int)
    requires 0 < m && lastx * a0 + lasty * m == 1 && Abs(lastx) < m
    ensures var r := if lastx < 0 then lastx + m else lastx;
            0 <= r < m && (a0 * r - 1) % m == 0
  {
    var r := if lastx < 0 then lastx + m else lastx;
    var k := if lastx < 0 then a0 - lasty else -lasty;
    assert a0 * r - 1 == m * k;
    MultipleMod(m, k);
  }

  /** One division step keeps the weighted size of the coefficients and their alternating signs. */
  lemma InvStep(a: int, b: int, q: int, lastx: int, x: int, m: int, started: bool)
    requires 0 <= a && 0 < b && q == a / b
    requires Abs(lastx) * b + Abs(x) * a == m && lastx * x <= 0
    requires started ==> b < a
    requires !started ==> x == 0
    ensures Abs(x) * (a % b) + Abs(lastx - q * x) * b == m
    ensures x * (lastx - q * x) <= 0
    ensures Abs(x) * b < m || x == 0
  {
    var r := a % b;
    assert a == q * b + r;
    AbsCombine(lastx, x, q);
    WeightStep(Abs(lastx), Abs(x), q, b, r);
    SignStep(lastx, x, q);
    if x != 0 {
      assert started;
      MulStrict(Abs(x), b, a);
    }
  }

  lemma AbsCombine(lastx: int, x: int, q: int)
    requires lastx * x <= 0 && q >= 0
    ensures Abs(lastx - q * x) == Abs(lastx) + q * Abs(x)
  {
    if x > 0 {
      assert lastx <= 0;
      assert q * x >= 0;
    } else if x < 0 {
      assert lastx >= 0;
      assert q * x <= 0;
      assert q * Abs(x) == -(q * x);
    }
  }

  lemma WeightStep(l: int, w: int, q: int, b: int, r: int)
    ensures w * r + (l + q * w) * b == l * b + w * (q * b + r)
  {
  }

  lemma SignStep(lastx: int, x: int, q: int)
    requires lastx * x <= 0 && q >= 0
    ensures x * (lastx - q * x) <= 0
  {
    assert x * (lastx - q * x) == x * lastx - q * (x * x);
    assert q * (x * x) >= 0;
  }

  lemma MulStrict(w: int, b: int, a: int)
    requires w > 0 && b < a
    ensures w * b < w * a
  {
    assert w * a - w * b == w * (a - b);
    MulMono(w, a - b);
  }

  lemma BezoutStep(lastx: int, lasty: int, x: int, y: int, a0: int, m: int, a: int, b: int, q: int)
    requires lastx * a0 + lasty * m == a && x * a0 + y * m == b
    requires 0 <= a && 0 < b && q == a / b
    ensures (lastx - q * x) * a0 + (lasty - q * y) * m == a % b
  {
    assert (lastx - q * x) * a0 + (lasty - q * y) * m == (lastx * a0 + lasty * m) - q * (x * a0 + y * m);
  }

  /** Two residues of the same inverse are equal: the inverse modulo m is unique. */
  lemma InverseUnique(a: int, m: int, r: int, s: int)
    requires 0 < m && 0 <= r < m && 0 <= s < m
    requires (a * r - 1) % m == 0 && (a * s - 1) % m == 0
    ensures r == s
  {
    MulCongruent(m, r, a * s, 1);
    MulCongruent(m, s, a * r, 1);
    assert r * (a * s) == s * (a * r);
    CongruentSym(m, r * (a * s), r * 1);
    CongruentTrans(m, r, r * (a * s), s * 1);
    Poly.SmallCongruent(r, s, m);
  }

  /** ntruprime_inv_int_test: the inverse of 7175 modulo 9829 is 2885. */
  method InvIntVector() returns (r: int)
    ensures r == 2885
  {
    r := NtruprimeInvInt(7175, 9829);
    assert Gcd(7175, 9829) == 1;
    InverseUnique(7175, 9829, r, 2885);
  }

  /** test_get_poly_degre: degree 0 for a zero polynomial, 730 after setting coefficient 730. */
  method PolyDegreeVector() returns (zero: nat, nonzero: nat)
    ensures zero == 0 && nonzero == 730
  {
    var zeroPoly := new NtruIntPoly.FromZero(740);
    var nonZeroPoly := new NtruIntPoly.FromZero(740);
    nonZeroPoly.coeffs := nonZeroPoly.coeffs[nonZeroPoly.n - 10 := 9];
    zero := zeroPoly.GetPolyDegree();
    nonzero := nonZeroPoly.GetPolyDegree();
    assert nonZeroPoly.coeffs[730] == 9;
  }
}
