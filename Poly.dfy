/**
  The growable polynomial `PolyInt<T>` of src/poly/mod.rs: a vector of
  coefficients, constant term first, with coefficient-wise reduction,
  scaling, addition and subtraction, plain convolution, division by x in
  Z_m[x]/(x^n - x - 1) and a truncated power-series inversion.  The
  element type T is modelled as an unbounded integer; the methods that
  return `self.to_owned()` return the new coefficient sequence.
 */
module Poly {
  import opened PolyAlgebra
  import opened NumberTheory

  /** The Kronecker delta: the coefficients of the polynomial 1. */
  function Delta(k: int): int {
    if k == 0 then 1 else 0
  }

  /** `x.rem_euclid(m)` is Dafny's `%`: in [0, |m|) and congruent to x modulo m. */
  lemma RemEuclid(x: int, m: int)
    requires m != 0
    ensures 0 <= x % m < Abs(m) && (x % m - x) % m == 0
  {
    MultipleModSigned(m, -(x / m));
    assert x % m - x == m * -(x / m);
  }

  lemma MultipleModSigned(m: int, q: int)
    requires m != 0
    ensures (m * q) % m == 0
  {
    if m > 0 {
      MultipleMod(m, q);
    } else {
      MultipleMod(-m, -q);
      assert m * q == (-m) * (-q);
      assert ((-m) * (-q)) % (-m) == 0;
    }
  }

  /**
    Coefficient-wise `rem_euclid(m)`: every result lies in [0, |m|) and is
    congruent to its input modulo m.
   */
  function ModEach(c: seq<int>, m: int): (r: seq<int>)
    requires m != 0
    ensures |r| == |c|
    ensures forall k :: 0 <= k < |r| ==> 0 <= r[k] < Abs(m) && (r[k] - c[k]) % m == 0
  {
    var r := seq(|c|, k requires 0 <= k < |c| => c[k] % m);
    forall k | 0 <= k < |r|
      ensures 0 <= r[k] < Abs(m) && (r[k] - c[k]) % m == 0
    {
      RemEuclid(c[k], m);
    }
    r
  }

  /** Reduction leaves exactly the already-reduced vectors unchanged (so it is idempotent). */
  lemma ModEachFixpoint(c: seq<int>, m: int)
    requires m != 0
    ensures ModEach(c, m) == c <==> forall k :: 0 <= k < |c| ==> 0 <= c[k] < Abs(m)
    ensures ModEach(ModEach(c, m), m) == ModEach(c, m)
  {
    var r := ModEach(c, m);
    if forall k :: 0 <= k < |c| ==> 0 <= c[k] < Abs(m) {
      forall k | 0 <= k < |c|
        ensures r[k] == c[k]
      {
        SmallCongruent(r[k], c[k], m);
      }
    }
    forall k | 0 <= k < |r|
      ensures ModEach(r, m)[k] == r[k]
    {
      SmallCongruent(ModEach(r, m)[k], r[k], m);
    }
  }

  /** Two residues in [0, |m|) that are congruent modulo m are equal. */
  lemma SmallCongruent(x: int, y: int, m: int)
    requires m != 0 && 0 <= x < Abs(m) && 0 <= y < Abs(m) && (x - y) % m == 0
    ensures x == y
  {
    var d := x - y;
    assert d == m * (d / m) + d % m;
    if d / m != 0 {
      MulAbsAtLeast(m, d / m);
    }
  }

  lemma MulAbsAtLeast(m: int, q: int)
    requires m != 0 && q != 0
    ensures m * q >= Abs(m) || m * q <= -(Abs(m) as int)
  {
    if m > 0 && q > 0 {
      MulMono(m, q);
    } else if m > 0 {
      MulMono(m, -q);
    } else if q > 0 {
      MulMono(-m, q);
    } else {
      MulMono(-m, -q);
    }
  }

  /** Coefficient-wise `(c * f).rem_euclid(m)`: the residues of the scaled vector. */
  function MulModEach(c: seq<int>, f: int, m: int): (r: seq<int>)
    requires m != 0
    ensures |r| == |c|
    ensures forall k :: 0 <= k < |r| ==> 0 <= r[k] < Abs(m) && (r[k] - c[k] * f) % m == 0
  {
    ModEach(Scale(c, f), m)
  }

  /** Coefficient-wise product by n, with no reduction. */
  function Scale(c: seq<int>, n: int): (r: seq<int>)
    ensures |r| == |c|
  {
    seq(|c|, k requires 0 <= k < |c| => c[k] * n)
  }

  /** Scaling by n is the product with the constant polynomial n. */
  lemma ScaleIsMul(c: seq<int>, n: int)
    requires |c| >= 1
    ensures Scale(c, n) == Mul(c, [n])
  {
    forall k | 0 <= k < |c|
      ensures Mul(c, [n])[k] == c[k] * n
    {
      PSumConstRight(c, n, k, k + 1);
    }
  }

  lemma {:induction false} PSumConstRight(c: seq<int>, n: int, k: nat, m: nat)
    requires m <= k + 1
    ensures PSum(c, [n], k, m) == if m == k + 1 then Coef(c, k) * n else 0
  {
    if m > 0 {
      PSumConstRight(c, n, k, m - 1);
    }
  }

  /**
    `self.coeffs` zipped with `poly` and combined with `+=`: the first
    min(len) coefficients receive poly's; the rest of self and its length
    are unchanged.  As polynomials, r is c + p truncated to |c| terms.
   */
  function AddPrefix(c: seq<int>, p: seq<int>): (r: seq<int>)
    ensures |r| == |c|
    ensures forall k :: 0 <= k < |c| ==> r[k] == c[k] + Coef(p, k)
  {
    seq(|c|, k requires 0 <= k < |c| => if k < |p| then c[k] + p[k] else c[k])
  }

  /** The same with `-=`: r is c - p truncated to |c| terms. */
  function SubPrefix(c: seq<int>, p: seq<int>): (r: seq<int>)
    ensures |r| == |c|
    ensures forall k :: 0 <= k < |c| ==> r[k] == c[k] - Coef(p, k)
  {
    seq(|c|, k requires 0 <= k < |c| => if k < |p| then c[k] - p[k] else c[k])
  }

  /** Subtraction undoes addition, and the reverse. */
  lemma AddSubInverse(c: seq<int>, p: seq<int>)
    ensures SubPrefix(AddPrefix(c, p), p) == c
    ensures AddPrefix(SubPrefix(c, p), p) == c
  {
    assert forall k :: 0 <= k < |c| ==> SubPrefix(AddPrefix(c, p), p)[k] == c[k];
    assert forall k :: 0 <= k < |c| ==> AddPrefix(SubPrefix(c, p), p)[k] == c[k];
  }

  /**
    `div_x(m)` on the coefficient vector a: rotate left by one, put a[0]
    back at the top, and replace the new constant term by
    (a[1] - a[0] + m).rem_euclid(m).
   */
  function DivXSeq(a: seq<int>, m: int): (b: seq<int>)
    requires |a| >= 1 && m != 0
    ensures |b| == |a|
    ensures |a| >= 2 ==> b[|a| - 1] == a[0]
    ensures forall j :: 1 <= j < |a| - 1 ==> b[j] == a[j + 1]
  {
    var top := (a[1..] + [a[0]])[|a| - 1 := a[0]];
    top[0 := (top[0] - a[0] + m) % m]
  }

  /** The new constant term is the residue of a[1] - a[0] (of 0 when |a| = 1). */
  lemma DivXConstant(a: seq<int>, m: int)
    requires |a| >= 1 && m != 0
    ensures 0 <= DivXSeq(a, m)[0] < Abs(m)
    ensures |a| >= 2 ==> (DivXSeq(a, m)[0] - (a[1] - a[0])) % m == 0
    ensures |a| == 1 ==> DivXSeq(a, m) == [0]
  {
    var t := if |a| >= 2 then a[1] else a[0];
    assert DivXSeq(a, m)[0] == (t - a[0] + m) % m;
    RemEuclid(t - a[0] + m, m);
    MultipleModSigned(m, 1);
    CongruentSigned(DivXSeq(a, m)[0], t - a[0] + m, t - a[0], m);
  }

  /**
    `div_x` is division by x in Z_m[x]/(x^n - x - 1): multiplying its result
    by x in Z[x]/(x^n - x - 1) gives back the input modulo m.
   */
  lemma DivXTimesX(a: seq<int>, m: int, k: nat)
    requires |a| >= 2 && m != 0 && k < |a|
    ensures (RingMul(DivXSeq(a, m), X(|a|), |a|)[k] - a[k]) % m == 0
  {
    var n := |a|;
    var b := DivXSeq(a, m);
    var c := RingMul(b, X(n), n)[k];
    RingMulX(b, n, k);
    if k == 1 {
      DivXConstant(a, m);
      assert c - a[k] == b[0] - (a[1] - a[0]);
    } else {
      assert c == a[k];
      MultipleModSigned(m, 0);
    }
  }

  /** On reduced input the result of `div_x` times x, reduced, is the input itself. */
  lemma DivXTimesXReduced(a: seq<int>, m: int)
    requires |a| >= 2 && m != 0
    requires forall k :: 0 <= k < |a| ==> 0 <= a[k] < Abs(m)
    ensures ModEach(RingMul(DivXSeq(a, m), X(|a|), |a|), m) == a
  {
    var r := ModEach(RingMul(DivXSeq(a, m), X(|a|), |a|), m);
    forall k | 0 <= k < |a|
      ensures r[k] == a[k]
    {
      DivXTimesX(a, m, k);
      CongruentSigned(r[k], RingMul(DivXSeq(a, m), X(|a|), |a|)[k], a[k], m);
      SmallCongruent(r[k], a[k], m);
    }
  }

  lemma CongruentSigned(x: int, y: int, z: int, m: int)
    requires m != 0 && (x - y) % m == 0 && (y - z) % m == 0
    ensures (x - z) % m == 0
  {
    var p := (x - y) / m;
    var q := (y - z) / m;
    assert x - y == m * p;
    assert y - z == m * q;
    assert x - z == m * (p + q);
    MultipleModSigned(m, p + q);
  }

  /** k successive applications of `div_x`. */
  function DivXIter(a: seq<int>, m: int, k: nat): (b: seq<int>)
    requires |a| >= 1 && m != 0
    ensures |b| == |a|
    decreases k
  {
    if k == 0 then a else DivXSeq(DivXIter(a, m, k - 1), m)
  }

  /** Every coefficient produced by `div_x` is a residue in [0, |m|) once the input's are. */
  lemma {:induction false} DivXIterReduced(a: seq<int>, m: int, k: nat)
    requires |a| >= 1 && m != 0
    requires forall j :: 0 <= j < |a| ==> 0 <= a[j] < Abs(m)
    ensures forall j :: 0 <= j < |a| ==> 0 <= DivXIter(a, m, k)[j] < Abs(m)
  {
    if k > 0 {
      DivXIterReduced(a, m, k - 1);
      var b := DivXIter(a, m, k - 1);
      DivXConstant(b, m);
    }
  }

  class PolyInt {
    /** The coefficient vector, constant term first. */
    var coeffs: seq<int>

    /** `empty`: no coefficients. */
    constructor Empty()
      ensures coeffs == []
    {
      coeffs := [];
    }

    /** `from`: a copy of the given coefficients. */
    constructor From(c: seq<int>)
      ensures coeffs == c
    {
      coeffs := c;
    }

    /** `from_zero(n)`: n zero coefficients. */
    constructor FromZero(n: nat)
      ensures coeffs == Zeros(n)
    {
      coeffs := Zeros(n);
    }

    /** `is_small`: the `all` fold over the coefficients; true iff every one is in [-1, 1]. */
    function IsSmall(): (b: bool)
      reads this
      ensures b <==> forall k :: 0 <= k < |coeffs| ==> -1 <= coeffs[k] <= 1
    {
      AllSmall(coeffs)
    }

    /** `equals_zero`: every coefficient is 0; stops at the first nonzero one. */
    method EqualsZero() returns (b: bool)
      ensures b <==> forall k :: 0 <= k < |coeffs| ==> coeffs[k] == 0
    {
      var i := 0;
      while i < |coeffs|
        invariant 0 <= i <= |coeffs|
        invariant forall k :: 0 <= k < i ==> coeffs[k] == 0
      {
        if coeffs[i] != 0 {
          return false;
        }
        i := i + 1;
      }
      return true;
    }

    /** `mod_poly(m)`: every coefficient replaced by its `rem_euclid(m)`; returns the new vector. */
    method ModPoly(m: int) returns (r: seq<int>)
      requires m != 0
      modifies this
      ensures coeffs == ModEach(old(coeffs), m) && r == coeffs
    {
      var c := coeffs;
      coeffs := seq(|c|, k requires 0 <= k < |c| => c[k] % m);
      r := coeffs;
    }

    /** `mult_mod(f, m)`: every coefficient c becomes (c * f).rem_euclid(m). */
    method MultMod(f: int, m: int)
      requires m != 0
      modifies this
      ensures coeffs == MulModEach(old(coeffs), f, m)
    {
      var i := 0;
      while i < |coeffs|
        invariant 0 <= i <= |coeffs| == |old(coeffs)|
        invariant forall k :: 0 <= k < i ==> coeffs[k] == (old(coeffs)[k] * f) % m
        invariant forall k :: i <= k < |coeffs| ==> coeffs[k] == old(coeffs)[k]
      {
        coeffs := coeffs[i := (coeffs[i] * f) % m];
        i := i + 1;
      }
    }

    /** `div_x(m)`: rotate left, restore a[0] at the top, reduce the new constant term. */
    method DivX(m: int)
      requires |coeffs| >= 1 && m != 0
      modifies this
      ensures coeffs == DivXSeq(old(coeffs), m)
    {
      var n := |coeffs|;
      var a0 := coeffs[0];
      coeffs := coeffs[1..] + [coeffs[0]];
      coeffs := coeffs[n - 1 := a0];
      coeffs := coeffs[0 := (coeffs[0] - a0 + m) % m];
    }

    /** `sub_poly(poly)`: `-=` over the first min(len) coefficients; returns the new vector. */
    method SubPoly(poly: seq<int>) returns (r: seq<int>)
      modifies this
      ensures coeffs == SubPrefix(old(coeffs), poly) && r == coeffs
    {
      var i := 0;
      while i < |coeffs| && i < |poly|
        invariant 0 <= i <= |coeffs| == |old(coeffs)| && i <= |poly|
        invariant forall k :: 0 <= k < i ==> coeffs[k] == old(coeffs)[k] - poly[k]
        invariant forall k :: i <= k < |coeffs| ==> coeffs[k] == old(coeffs)[k]
      {
        coeffs := coeffs[i := coeffs[i] - poly[i]];
        i := i + 1;
      }
      r := coeffs;
    }

    /** `add_poly(poly)`: `+=` over the first min(len) coefficients; returns the new vector. */
    method AddPoly(poly: seq<int>) returns (r: seq<int>)
      modifies this
      ensures coeffs == AddPrefix(old(coeffs), poly) && r == coeffs
    {
      var i := 0;
      while i < |coeffs| && i < |poly|
        invariant 0 <= i <= |coeffs| == |old(coeffs)| && i <= |poly|
        invariant forall k :: 0 <= k < i ==> coeffs[k] == old(coeffs)[k] + poly[k]
        invariant forall k :: i <= k < |coeffs| ==> coeffs[k] == old(coeffs)[k]
      {
        coeffs := coeffs[i := coeffs[i] + poly[i]];
        i := i + 1;
      }
      r := coeffs;
    }

    /** `mult_int(n)`: every coefficient multiplied by n; returns the new vector. */
    method MultInt(n: int) returns (r: seq<int>)
      modifies this
      ensures coeffs == Scale(old(coeffs), n) && r == coeffs
    {
      var c := coeffs;
      coeffs := seq(|c|, k requires 0 <= k < |c| => c[k] * n);
      r := coeffs;
    }

    /**
      `mult_poly(poly)`: plain convolution, no quotient reduction; the result
      has len(self) + len(poly) - 1 coefficients (the source computes that
      length in usize, hence the precondition).
     */
    method MultPoly(poly: seq<int>) returns (r: seq<int>)
      requires |coeffs| + |poly| >= 1
      modifies this
      ensures coeffs == Mul(old(coeffs), poly) && r == coeffs
    {
      var a := coeffs;
      var result := Zeros(|a| + |poly| - 1);
      var i := 0;
      while i < |a|
        invariant 0 <= i <= |a| && |result| == |a| + |poly| - 1
        invariant forall k :: 0 <= k < |result| ==> result[k] == PSum(a, poly, k, i)
      {
        var j := 0;
        while j < |poly|
          invariant 0 <= j <= |poly| && |result| == |a| + |poly| - 1
          invariant forall k :: 0 <= k < |result| ==>
                      result[k] == PSum(a, poly, k, i) + (if i <= k < i + j then a[i] * poly[k - i] else 0)
        {
          result := result[i + j := result[i + j] + a[i] * poly[j]];
          j := j + 1;
        }
        i := i + 1;
      }
      forall k | 0 <= k < |result|
        ensures result[k] == Mul(a, poly)[k]
      {
        PSumStable(a, poly, k, |a|);
      }
      coeffs := result;
      r := coeffs;
    }

    /**
      `create_factor_ring(x, m)`: returns self's coefficients reduced with
      `rem_euclid(m)` and leaves self unchanged.  The loop builds powers of
      the polynomial x in `x_deg_p` and discards them.  The source computes
      len(x_deg_p) + len(x) - 1 in usize: with an empty x the first round
      empties `x_deg_p` and a second round would underflow, hence x may be
      empty only when self has at most one coefficient.
     */
    method CreateFactorRing(x: seq<int>, m: int) returns (r: seq<int>)
      requires m != 0 && (|x| >= 1 || |coeffs| <= 1)
      ensures r == ModEach(coeffs, m)
    {
      var xDegP := new PolyInt.From([1]);
      var modulusPoly := new PolyInt.From(coeffs);
      r := modulusPoly.ModPoly(m);
      var i := 0;
      while i < |coeffs|
        invariant 0 <= i <= |coeffs|
        invariant fresh(xDegP) && (|x| >= 1 || i == 0 ==> |xDegP.coeffs| >= 1)
      {
        var coeff := coeffs[i];
        var powered := xDegP.MultPoly(x);
        xDegP := new PolyInt.From(powered);
        var reduced := xDegP.ModPoly(m);
        xDegP := new PolyInt.From(reduced);
        var oneTimesCoeffDeg := new PolyInt.From([coeff]);
        var _ := oneTimesCoeffDeg.MultPoly(x);
        var _ := oneTimesCoeffDeg.ModPoly(m);
        var _ := xDegP.AddPoly(oneTimesCoeffDeg.coeffs);
        var _ := xDegP.ModPoly(m);
        i := i + 1;
      }
    }

    /**
      `newton_inversion`: inv starts as 1 / a[0] (integer division) and is
      refined len(a) times by inv := inv - inv * (a * inv - 1), truncated to
      len(a) coefficients.  When a[0] is a unit (1 or -1) the first len(a)
      coefficients of a * inv are 1, 0, ..., 0; otherwise inv stays 0.
      The source computes len(a) - 1 in usize and divides by a[0], hence
      the precondition.
     */
    method NewtonInversion() returns (inv: seq<int>)
      requires |coeffs| >= 1 && coeffs[0] != 0
      ensures |inv| == |coeffs|
      ensures coeffs[0] == 1 || coeffs[0] == -1 ==>
                forall k :: 0 <= k < |coeffs| ==> ConvAt(coeffs, inv, k) == Delta(k)
      ensures coeffs[0] != 1 && coeffs[0] != -1 ==> inv == Zeros(|coeffs|)
    {
      var n := |coeffs| - 1;
      var invPoly := new PolyInt.FromZero(n + 1);
      // For the numerator 1 Dafny's division agrees with Rust's truncating one.
      invPoly.coeffs := invPoly.coeffs[0 := 1 / coeffs[0]];
      ghost var unit := coeffs[0] == 1 || coeffs[0] == -1;
      ghost var p := 1;
      NewtonStart(coeffs, invPoly.coeffs);
      var round := 1;
      while round <= n + 1
        invariant 1 <= round <= n + 2
        invariant fresh(invPoly) && |invPoly.coeffs| == n + 1
        invariant 1 <= p <= n + 1 && (p == n + 1 || p >= round)
        invariant unit ==> forall k :: 0 <= k < p ==> ConvAt(coeffs, invPoly.coeffs, k) == Delta(k)
        invariant !unit ==> invPoly.coeffs == Zeros(n + 1)
      {
        ghost var before := invPoly.coeffs;
        var selfTimesInvPoly := new PolyInt.From(coeffs);
        var selfTimesInv := selfTimesInvPoly.MultPoly(invPoly.coeffs);
        var oneMinusSelfTimesInv := selfTimesInvPoly.SubPoly([1]);
        var cloneInv := new PolyInt.From(invPoly.coeffs);
        var product := cloneInv.MultPoly(oneMinusSelfTimesInv);
        var next := invPoly.SubPoly(product);
        assert next == NewtonRound(coeffs, before);
        if unit {
          NewtonStep(coeffs, before, p);
        } else {
          NewtonZero(coeffs, n + 1);
        }
        p := if 2 * p <= n + 1 then 2 * p else n + 1;
        round := round + 1;
      }
      inv := invPoly.coeffs;
    }
  }

  /** One Newton round on inv, as the source computes it with `mult_poly` and `sub_poly`. */
  function NewtonRound(a: seq<int>, inv: seq<int>): (r: seq<int>)
    requires |a| >= 1 && |inv| >= 1
    ensures |r| == |inv|
  {
    SubPrefix(inv, Mul(inv, SubPrefix(Mul(a, inv), [1])))
  }

  /** The starting value 1 / a[0]: exact to one term when a[0] is a unit, and 0 otherwise. */
  lemma NewtonStart(a: seq<int>, inv: seq<int>)
    requires |a| >= 1 && a[0] != 0 && |inv| == |a|
    requires inv == Zeros(|a|)[0 := 1 / a[0]]
    ensures a[0] == 1 || a[0] == -1 ==> ConvAt(a, inv, 0) == 1
    ensures a[0] != 1 && a[0] != -1 ==> inv == Zeros(|a|)
  {
    if a[0] != 1 && a[0] != -1 {
      assert 1 / a[0] == 0;
    }
  }

  /**
    Newton's step doubles the precision: if a * inv agrees with 1 below
    degree p, then a * NewtonRound(a, inv) agrees with 1 below degree 2p
    (within the |a| retained terms).
   */
  lemma NewtonStep(a: seq<int>, inv: seq<int>, p: nat)
    requires |a| == |inv| >= 1 && 1 <= p <= |a|
    requires forall k :: 0 <= k < p ==> ConvAt(a, inv, k) == Delta(k)
    ensures forall k :: 0 <= k < 2 * p && k < |a| ==> ConvAt(a, NewtonRound(a, inv), k) == Delta(k)
  {
    var s := Mul(a, inv);
    var e := SubPrefix(s, [1]);
    forall j
      ensures Coef(e, j) == Coef(s, j) - Delta(j)
    {
    }
    forall i | 0 <= i < p
      ensures Coef(e, i) == 0
    {
      CoefMul(a, inv, i);
    }
    forall k | 0 <= k < 2 * p && k < |a|
      ensures ConvAt(a, NewtonRound(a, inv), k) == Delta(k)
    {
      NewtonStepAt(a, inv, s, e, p, k);
    }
  }

  lemma NewtonStepAt(a: seq<int>, inv: seq<int>, s: seq<int>, e: seq<int>, p: nat, k: nat)
    requires |a| == |inv| >= 1 && 1 <= p && k < 2 * p && k < |a|
    requires s == Mul(a, inv) && e == SubPrefix(s, [1])
    requires forall j :: Coef(e, j) == Coef(s, j) - Delta(j)
    requires forall i :: 0 <= i < p ==> Coef(e, i) == 0
    ensures ConvAt(a, NewtonRound(a, inv), k) == Delta(k)
  {
    var d := Mul(inv, e);
    var inv2 := NewtonRound(a, inv);
    assert inv2 == SubPrefix(inv, d);
    // a * inv2 = a * inv - a * (inv * e) below degree |a|
    ConvAtLinearRight(a, inv2, inv, d, k);
    // a * (inv * e) = (a * inv) * e = e + e * e
    ConvAtAssoc(a, inv, e, k);
    forall j
      ensures Coef(s, j) == 1 * Coef(e, j) + Coef([1], j - 0)
    {
    }
    ConvAtLinearLeft(s, e, [1], 1, 0, e, k);
    ConvAtOneLeft(e, k);
    ConvAtSquareLow(e, p, k);
    CoefMul(a, inv, k);
  }

  /** With a non-unit a[0] the start is 0, and a Newton round keeps 0. */
  lemma NewtonZero(a: seq<int>, n: nat)
    requires |a| == n >= 1
    ensures NewtonRound(a, Zeros(n)) == Zeros(n)
  {
    var e := SubPrefix(Mul(a, Zeros(n)), [1]);
    forall k | 0 <= k < n
      ensures Mul(Zeros(n), e)[k] == 0
    {
      CoefMul(Zeros(n), e, k);
      ConvAtZeroLeft(Zeros(n), e, k);
    }
  }

  /** test_is_small: [0, -1, -2, 2] is not small and [0, -1, -1, 1] is. */
  method IsSmallVector() returns (big: bool, small: bool)
    ensures !big && small
  {
    var p := new PolyInt.From([0, -1, -2, 2]);
    assert p.coeffs[2] == -2;
    big := p.IsSmall();
    var q := new PolyInt.From([0, -1, -1, 1]);
    small := q.IsSmall();
  }

  /** test_is_zeros: 716 zeros are zero; setting coefficient 1 to 1 or to -1 makes them nonzero. */
  method EqualsZeroVector() returns (zero: bool, one: bool, minusOne: bool)
    ensures zero && !one && !minusOne
  {
    var z := new PolyInt.From(Zeros(716));
    zero := z.EqualsZero();
    z.coeffs := z.coeffs[1 := 1];
    assert z.coeffs[1] != 0;
    one := z.EqualsZero();
    z.coeffs := z.coeffs[1 := -1];
    assert z.coeffs[1] != 0;
    minusOne := z.EqualsZero();
  }

  /** test_mod_poly: [5, 3, 2, 1] reduced modulo 7 is unchanged. */
  lemma ModPolyVector()
    ensures ModEach([5, 3, 2, 1], 7) == [5, 3, 2, 1]
  {
  }

  /** test_poly_add: [5, 3, 2, 1] + [2, -1, 0, 4] = [7, 2, 2, 5]. */
  lemma AddPolyVector()
    ensures AddPrefix([5, 3, 2, 1], [2, -1, 0, 4]) == [7, 2, 2, 5]
  {
  }

  /** test_poly_mult: [1, 2, 3] * [2, -1] = [2, 3, 4, -3]. */
  lemma MultPolyVector()
    ensures Mul([1, 2, 3], [2, -1]) == [2, 3, 4, -3]
  {
  }

  /** test_mult_poly_int: [1, -1, 0, -1, 1] times 3. */
  lemma MultIntVector()
    ensures Scale([1, -1, 0, -1, 1], 3) == [3, -3, 0, -3, 3]
  {
  }

  /** test_mult_mod: [1, 2, 2, 0, 0, 1, 2, 2, 2] times 3845 modulo 9829. */
  lemma MultModVector()
    ensures MulModEach([1, 2, 2, 0, 0, 1, 2, 2, 2], 3845, 9829)
         == [3845, 7690, 7690, 0, 0, 3845, 7690, 7690, 7690]
  {
  }

  /** test_create_factor_ring, first vector: the entries -1 become 4590 modulo 4591. */
  lemma CreateFactorRingVector()
    ensures ModEach([-1, 1, 0, 1, -1, 0, 0, 1, 1, -1, 0, 1, -1, 1, -1, -1, 0, -1, 0, -1, -1, -1, 0, 0, 0], 4591)
         == [4590, 1, 0, 1, 4590, 0, 0, 1, 1, 4590, 0, 1, 4590, 1, 4590, 4590, 0, 4590, 0, 4590, 4590, 4590, 0, 0, 0]
  {
  }

  /** test_create_factor_ring, second vector: 64-bit entries reduced modulo 4591. */
  lemma CreateFactorRingWideVector()
    ensures ModEach([3513768263, 2914455508, 1644203955, 2998019489, 2134992655, 310005361, 267242615, 3554143560, 1516911024, 206811649, 3707389687], 4591)
         == [503, 1479, 1579, 78, 3197, 2677, 505, 2546, 3305, 872, 1093]
  {
  }
}
