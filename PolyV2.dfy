/**
  The fixed-size polynomial `PolyInt<N, SIZE>` of src/poly/v2.rs: a
  coefficient array of SIZE entries, the mod-3 `freeze` and `plus` helpers,
  and `mult_poly`, a schoolbook product in Z3[x]/(x^SIZE - x - 1).
  The element type N is modelled as an unbounded integer; the i32
  conversions of the helpers become preconditions.
 */
module PolyV2 {
  import opened Params
  import opened PolyAlgebra

  /** r is a small (R3) representative of x: in {-1, 0, 1} and congruent to x modulo 3. */
  predicate IsR3(r: int, x: int) {
    -1 <= r <= 1 && (r - x) % 3 == 0
  }

  /** r is the coefficient-wise R3 representative of c. */
  predicate IsR3Of(r: seq<int>, c: seq<int>) {
    |r| == |c| && forall k :: 0 <= k < |r| ==> IsR3(r[k], c[k])
  }

  /** Every coefficient lies in [-1, 1]. */
  predicate Small(s: seq<int>) {
    forall k :: 0 <= k < |s| ==> -1 <= s[k] <= 1
  }

  /**
    `freeze`: reduction modulo 3 to {-1, 0, 1} by two multiply-and-shift
    steps (10923 / 2^15, then 89478485 / 2^28, the shifts being floor
    divisions).  The source computes `10923 * value` in i32, hence the
    precondition.
   */
  function Freeze3(value: int): (r: int)
    requires IsI32(10923 * value)
    ensures IsR3(r, value)
  {
    var bs := value - 3 * ((10923 * value) / 0x8000);
    Freeze3Bounds(value);
    bs - 3 * ((89_478_485 * bs + 0x800_0000) / 0x1000_0000)
  }

  lemma Freeze3Bounds(value: int)
    requires IsI32(10923 * value)
    ensures -5 <= value - 3 * ((10923 * value) / 0x8000) <= 8
    ensures IsR3((value - 3 * ((10923 * value) / 0x8000))
                 - 3 * ((89_478_485 * (value - 3 * ((10923 * value) / 0x8000)) + 0x800_0000) / 0x1000_0000), value)
  {
    var k1 := (10923 * value) / 0x8000;
    assert k1 * 0x8000 <= 10923 * value < k1 * 0x8000 + 0x8000;
    var bs := value - 3 * k1;
    assert -5 <= bs <= 8;
    var k2 := (89_478_485 * bs + 0x800_0000) / 0x1000_0000;
    assert k2 == if bs >= 2 then (if bs >= 5 then (if bs >= 8 then 3 else 2) else 1)
                 else (if bs >= -1 then 0 else if bs >= -4 then -1 else -2);
  }

  /** Freeze3 leaves exactly the small values unchanged. */
  lemma Freeze3Fixpoint(v: int)
    requires IsI32(10923 * v)
    ensures Freeze3(v) == v <==> -1 <= v <= 1
  {
    var r := Freeze3(v);
    if -1 <= v <= 1 {
      SmallMultipleOf3(r - v);
    }
  }

  lemma SmallMultipleOf3(d: int)
    requires -2 <= d <= 2 && d % 3 == 0
    ensures d == 0
  {
  }

  /**
    `plus(a, b, c)`: the multiply-add a + b * c, frozen.  The operands are
    converted to i32 and the freeze multiplies by 10923 in i32.
   */
  function Plus(a: int, b: int, c: int): (r: int)
    requires IsI32(b * c) && IsI32(a + b * c) && IsI32(10923 * (a + b * c))
    ensures IsR3(r, a + b * c)
  {
    Freeze3(a + b * c)
  }

  /** All pairwise coefficient products are small enough for `plus` on an R3 accumulator. */
  predicate ProductsFit(a: seq<int>, b: seq<int>) {
    forall j, k :: 0 <= j < |a| && 0 <= k < |b| ==> -196601 <= a[j] * b[k] <= 196601
  }

  /**
    The fold of the high half into the low half, after the degrees i .. 2n-2
    have been folded: degree k < n holds its own coefficient, plus the one
    of degree k + n once that has been folded, plus the one of degree
    k + n - 1 once that has been folded (k >= 1).
   */
  function Folded(g: seq<int>, n: nat, i: nat, k: nat): int {
    Coef(g, k)
    + (if k + n >= i then Coef(g, k + n) else 0)
    + (if k >= 1 && k + n - 1 >= i then Coef(g, k + n - 1) else 0)
  }

  /** Once every high degree is folded, Folded is the reduction modulo x^n - x - 1. */
  lemma FoldedComplete(g: seq<int>, n: nat, k: nat)
    requires k < n
    ensures Folded(g, n, n, k) == RingReduce(g, n)[k]
  {
    RingReduceAt(g, n, k);
  }

  /** Reduction modulo x^n - x - 1 respects congruence modulo 3. */
  lemma RingReduceMod3(g: seq<int>, c: seq<int>, n: nat, k: nat)
    requires |g| == |c| && k < n
    requires forall j :: 0 <= j < |g| ==> (g[j] - c[j]) % 3 == 0
    ensures (RingReduce(g, n)[k] - RingReduce(c, n)[k]) % 3 == 0
  {
    RingReduceAt(g, n, k);
    RingReduceAt(c, n, k);
    CoefMod3(g, c, k);
    CoefMod3(g, c, k + n);
    CoefMod3(g, c, k + n - 1);
    SumMod3(Coef(g, k), Coef(g, k + n), if k >= 1 then Coef(g, k + n - 1) else 0,
            Coef(c, k), Coef(c, k + n), if k >= 1 then Coef(c, k + n - 1) else 0);
  }

  lemma SumMod3(x0: int, x1: int, x2: int, y0: int, y1: int, y2: int)
    requires (x0 - y0) % 3 == 0 && (x1 - y1) % 3 == 0 && (x2 - y2) % 3 == 0
    ensures (x0 + x1 + x2 - (y0 + y1 + y2)) % 3 == 0
  {
  }

  /** Adding the same v on both sides keeps an R3 representative. */
  lemma R3Shift(r: int, r2: int, f: int, v: int)
    requires IsR3(r, f) && IsR3(r2, r + v)
    ensures IsR3(r2, f + v)
  {
  }

  /** One multiply-add of the convolution loop extends the partial sum by one term. */
  lemma PlusStep(r: int, r2: int, a: seq<int>, b: seq<int>, i: int, lo: nat, j: nat)
    requires j < |a| && 0 <= i - j < |b|
    requires IsR3(r, PSum(a, b, i, j) - PSum(a, b, i, lo)) && IsR3(r2, r + a[j] * b[i - j])
    ensures IsR3(r2, PSum(a, b, i, j + 1) - PSum(a, b, i, lo))
  {
    assert PSum(a, b, i, j + 1) == PSum(a, b, i, j) + a[j] * b[i - j];
    R3Shift(r, r2, PSum(a, b, i, j) - PSum(a, b, i, lo), a[j] * b[i - j]);
  }

  /** Folding degree i adds its coefficient to degrees i - n and i - n + 1 and to nothing else. */
  lemma FoldedStep(g: seq<int>, n: nat, i: nat, k: nat)
    requires n <= i
    ensures Folded(g, n, i, k) == Folded(g, n, i + 1, k) + (if k == i - n || k == i - n + 1 then Coef(g, i) else 0)
  {
  }

  lemma CoefMod3(g: seq<int>, c: seq<int>, j: int)
    requires |g| == |c|
    requires forall j :: 0 <= j < |g| ==> (g[j] - c[j]) % 3 == 0
    ensures (Coef(g, j) - Coef(c, j)) % 3 == 0
  {
  }

  class PolyInt {
    /** The SIZE coefficients, constant term first. */
    const coeffs: array<int>

    /** `from`: a polynomial holding a copy of the given coefficients. */
    constructor From(c: seq<int>)
      ensures coeffs[..] == c && fresh(coeffs)
    {
      coeffs := new int[|c|](i requires 0 <= i < |c| => c[i]);
    }

    /** `new`: the zero polynomial of the given size. */
    constructor New(size: nat)
      ensures coeffs[..] == seq(size, _ => 0) && fresh(coeffs)
    {
      coeffs := new int[size](_ => 0);
    }

    /** `equals_zero`: every coefficient is 0; stops at the first nonzero one. */
    method EqualsZero() returns (b: bool)
      ensures b <==> forall k :: 0 <= k < coeffs.Length ==> coeffs[k] == 0
    {
      var i := 0;
      while i < coeffs.Length
        invariant 0 <= i <= coeffs.Length
        invariant forall k :: 0 <= k < i ==> coeffs[k] == 0
      {
        if coeffs[i] != 0 {
          return false;
        }
        i := i + 1;
      }
      return true;
    }

    /** `is_small`: the `all` fold over the coefficients; true iff every one is in [-1, 1]. */
    function IsSmall(): (b: bool)
      reads coeffs
      ensures b <==> Small(coeffs[..])
    {
      AllSmall(coeffs[..])
    }

    /** `mult_int(n)`: every coefficient multiplied by n, with no reduction. */
    method MultInt(n: int)
      modifies coeffs
      ensures coeffs[..] == seq(coeffs.Length, k requires 0 <= k < coeffs.Length => old(coeffs[k]) * n)
    {
      var i := 0;
      while i < coeffs.Length
        invariant 0 <= i <= coeffs.Length
        invariant forall k :: 0 <= k < i ==> coeffs[k] == old(coeffs[k]) * n
        invariant forall k :: i <= k < coeffs.Length ==> coeffs[k] == old(coeffs[k])
      {
        coeffs[i] := coeffs[i] * n;
        i := i + 1;
      }
    }

    /**
      `mult_poly(a, b)`: self becomes a * b in Z3[x]/(x^SIZE - x - 1),
      every coefficient in {-1, 0, 1}.  The previous coefficients of self
      are not read.
     */
    method MultPoly(a: PolyInt, b: PolyInt)
      requires a.coeffs.Length == coeffs.Length && b.coeffs.Length == coeffs.Length
      requires coeffs.Length >= 1
      requires a.coeffs != coeffs && b.coeffs != coeffs
      requires ProductsFit(a.coeffs[..], b.coeffs[..])
      modifies coeffs
      ensures IsR3Of(coeffs[..], RingMul(a.coeffs[..], b.coeffs[..], coeffs.Length))
    {
      var n := coeffs.Length;
      ghost var c := Mul(a.coeffs[..], b.coeffs[..]);
      ghost var target := RingMul(a.coeffs[..], b.coeffs[..], n);
      var fg := Convolve(a.coeffs, b.coeffs);
      ghost var g := fg[..];
      FoldHigh(fg, n);
      forall k | 0 <= k < n
        ensures IsR3(fg[k], target[k])
      {
        RingReduceMod3(g, c, n, k);
        R3Trans(fg[k], RingReduce(g, n)[k], RingReduce(c, n)[k]);
      }
      CloneFromSlice(fg);
      CopyKeepsR3(coeffs[..], fg[..n], target);
    }

    /** `clone_from_slice`: self takes the first SIZE entries of src. */
    method CloneFromSlice(src: array<int>)
      requires src.Length >= coeffs.Length && src != coeffs
      modifies coeffs
      ensures coeffs[..] == src[..coeffs.Length]
    {
      var k := 0;
      while k < coeffs.Length
        invariant 0 <= k <= coeffs.Length
        invariant forall m :: 0 <= m < k ==> coeffs[m] == src[m]
      {
        coeffs[k] := src[k];
        k := k + 1;
      }
    }
  }

  lemma CopyKeepsR3(s: seq<int>, t: seq<int>, target: seq<int>)
    requires s == t && |t| == |target|
    requires forall k :: 0 <= k < |t| ==> IsR3(t[k], target[k])
    ensures IsR3Of(s, target)
  {
  }

  lemma R3Trans(r: int, x: int, y: int)
    requires IsR3(r, x) && (x - y) % 3 == 0
    ensures IsR3(r, y)
  {
  }

  /**
    The inner loop of `mult_poly`: the frozen sum of a[j] * b[i - j] for
    lo <= j < hi, accumulated with `plus` from 0.
   */
  method ConvolveRange(a: array<int>, b: array<int>, i: nat, lo: nat, hi: nat) returns (r: int)
    requires a.Length == b.Length && lo <= hi <= a.Length && hi <= i + 1 && i - lo < b.Length
    requires ProductsFit(a[..], b[..])
    ensures IsR3(r, PSum(a[..], b[..], i, hi) - PSum(a[..], b[..], i, lo))
  {
    ghost var A, B := a[..], b[..];
    r := 0;
    var j := lo;
    while j < hi
      invariant lo <= j <= hi
      invariant IsR3(r, PSum(A, B, i, j) - PSum(A, B, i, lo))
    {
      assert -196601 <= A[j] * B[i - j] <= 196601;
      ghost var r0 := r;
      r := Plus(r, a[j], b[i - j]);
      PlusStep(r0, r, A, B, i, lo, j);
      j := j + 1;
    }
  }

  /**
    The two convolution loops of `mult_poly`: the plain product a * b of
    degree 2n - 2, every coefficient frozen to R3.  For degrees i >= n only
    the terms with j > i - n can be nonzero, and only those are summed.
   */
  method Convolve(a: array<int>, b: array<int>) returns (fg: array<int>)
    requires a.Length == b.Length && a.Length >= 1
    requires ProductsFit(a[..], b[..])
    ensures fresh(fg) && IsR3Of(fg[..], Mul(a[..], b[..]))
  {
    var n := a.Length;
    ghost var A, B := a[..], b[..];
    fg := new int[2 * n - 1](_ => 0);
    var i := 0;
    while i < n
      invariant 0 <= i <= n
      invariant forall k :: 0 <= k < i ==> IsR3(fg[k], Mul(A, B)[k])
    {
      var r := ConvolveRange(a, b, i, 0, i + 1);
      PSumStable(A, B, i, i + 1);
      CoefMul(A, B, i);
      fg[i] := r;
      i := i + 1;
    }
    while i < 2 * n - 1
      invariant n <= i <= 2 * n - 1
      invariant forall k :: 0 <= k < i ==> IsR3(fg[k], Mul(A, B)[k])
    {
      var r := ConvolveRange(a, b, i, i - n + 1, n);
      PSumZeroPrefix(A, B, i, i - n + 1);
      PSumStable(A, B, i, n);
      CoefMul(A, B, i);
      fg[i] := r;
      i := i + 1;
    }
  }

  /**
    The folding loop of `mult_poly`: degrees 2n - 2 down to n are added,
    frozen, into degrees i - n and i - n + 1 (x^n = x + 1).
   */
  method FoldHigh(fg: array<int>, n: nat)
    requires n >= 1 && fg.Length == 2 * n - 1 && Small(fg[..])
    modifies fg
    ensures forall k :: 0 <= k < n ==> IsR3(fg[k], RingReduce(old(fg[..]), n)[k])
  {
    ghost var g := fg[..];
    var i := 2 * n - 1;
    while i > n
      invariant n <= i <= 2 * n - 1
      invariant forall k :: n <= k < 2 * n - 1 ==> fg[k] == g[k]
      invariant forall k :: 0 <= k < n ==> IsR3(fg[k], Folded(g, n, i, k))
    {
      i := i - 1;
      ghost var before := fg[..];
      FoldStep(fg, n, i);
      FoldedAfterStep(before, fg[..], g, n, i);
    }
    forall k | 0 <= k < n
      ensures IsR3(fg[k], RingReduce(g, n)[k])
    {
      FoldedComplete(g, n, k);
    }
  }

  /** The array contents before and after folding degree i. */
  lemma FoldedAfterStep(before: seq<int>, after: seq<int>, g: seq<int>, n: nat, i: nat)
    requires n <= i < 2 * n - 1 && |before| == |after| == |g| == 2 * n - 1
    requires forall k :: n <= k < 2 * n - 1 ==> before[k] == g[k]
    requires forall k :: 0 <= k < n ==> IsR3(before[k], Folded(g, n, i + 1, k))
    requires forall k :: 0 <= k < 2 * n - 1 && k != i - n && k != i - n + 1 ==> after[k] == before[k]
    requires IsR3(after[i - n], before[i - n] + g[i])
    requires IsR3(after[i - n + 1], before[i - n + 1] + g[i])
    ensures forall k :: n <= k < 2 * n - 1 ==> after[k] == g[k]
    ensures forall k :: 0 <= k < n ==> IsR3(after[k], Folded(g, n, i, k))
  {
    R3Shift(before[i - n], after[i - n], Folded(g, n, i + 1, i - n), g[i]);
    R3Shift(before[i - n + 1], after[i - n + 1], Folded(g, n, i + 1, i - n + 1), g[i]);
    forall k | 0 <= k < n
      ensures IsR3(after[k], Folded(g, n, i, k))
    {
      FoldedStep(g, n, i, k);
    }
  }

  /**
    One iteration of the folding loop: the coefficient of degree i is added,
    frozen, into degrees i - n and i - n + 1; nothing else changes.
   */
  method FoldStep(fg: array<int>, n: nat, i: nat)
    requires n <= i < 2 * n - 1 && fg.Length == 2 * n - 1
    requires -1 <= fg[i - n] <= 1 && -1 <= fg[i - n + 1] <= 1 && -1 <= fg[i] <= 1
    modifies fg
    ensures forall k :: 0 <= k < fg.Length && k != i - n && k != i - n + 1 ==> fg[k] == old(fg[k])
    ensures IsR3(fg[i - n], old(fg[i - n]) + old(fg[i]))
    ensures IsR3(fg[i - n + 1], old(fg[i - n + 1]) + old(fg[i]))
  {
    AddFrozen(fg, i - n, i);
    AddFrozen(fg, i - n + 1, i);
  }

  /** fg[dst] := freeze(fg[dst] + fg[src]), the i32 sum of two small values. */
  method AddFrozen(fg: array<int>, dst: nat, src: nat)
    requires dst < fg.Length && src < fg.Length && dst != src
    requires -1 <= fg[dst] <= 1 && -1 <= fg[src] <= 1
    modifies fg
    ensures forall k :: 0 <= k < fg.Length && k != dst ==> fg[k] == old(fg[k])
    ensures IsR3(fg[dst], old(fg[dst]) + old(fg[src]))
  {
    fg[dst] := Freeze3(fg[dst] + fg[src]);
  }

  /**
    test_is_small and test_is_zeros: [0, -1, -2, 2] is not small and
    [0, -1, -1, 1] is; 716 zero coefficients are zero, and setting
    coefficient 1 to 1 or to -1 makes them nonzero.
   */
  method SmallAndZeroVectors() returns (big: bool, small: bool, zero: bool, one: bool, minusOne: bool)
    ensures !big && small && zero && !one && !minusOne
  {
    var p := new PolyInt.From([0, -1, -2, 2]);
    assert p.coeffs[2] == -2;
    big := p.IsSmall();
    var q := new PolyInt.From([0, -1, -1, 1]);
    small := q.IsSmall();
    var z := new PolyInt.From(seq(716, _ => 0));
    zero := z.EqualsZero();
    z.coeffs[1] := 1;
    one := z.EqualsZero();
    z.coeffs[1] := -1;
    minusOne := z.EqualsZero();
  }

  /** test_mult_poly_int: [1, -1, 0, -1, 1] multiplied by 3 in place. */
  method MultIntVector() returns (r: seq<int>)
    ensures r == [3, -3, 0, -3, 3]
  {
    var p := new PolyInt.From([1, -1, 0, -1, 1]);
    p.MultInt(3);
    r := p.coeffs[..];
  }

  /** After `mult_poly` the polynomial is small: this is what `is_small` then reports. */
  lemma R3IsSmall(r: seq<int>, c: seq<int>)
    requires IsR3Of(r, c)
    ensures Small(r)
  {
  }
}
