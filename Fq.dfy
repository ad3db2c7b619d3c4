/**
  Scalar arithmetic in Z/QZ (src/poly/fq.rs): `freeze` to the centered
  residue, the Barrett reduction used as its reference, and `recip` by
  Fermat exponentiation.
 */
module Fq {
  import opened Params
  import opened NumberTheory

  /**
    `i32_mod_u14(v, m)`, the remainder of v by an unsigned 14-bit modulus.
    It lives outside this model; it is taken to be the Euclidean remainder.
   */
  function I32ModU14(v: int, m: nat): (r: int)
    requires 0 < m < 0x4000
    ensures 0 <= r < m
    ensures (v - r) % m == 0
  {
    DivMod(v, m);
    v % m
  }

  /** r is the centered representative of x modulo Q. */
  predicate IsCentered(r: int, x: int) {
    -(Q12 as int) <= r <= Q12 && (r - x) % Q == 0
  }

  /** `freeze`: the centered representative in [-Q12, Q12] of an i32. */
  function Freeze(x: int): (r: int)
    requires IsI32(x) && IsI32(x + Q12)
    ensures IsCentered(r, x)
  {
    I32ModU14(x + Q12, Q) - Q12
  }

  /** Two centered values that are congruent modulo Q are equal. */
  lemma CenteredUnique(r: int, s: int, x: int)
    requires IsCentered(r, x) && IsCentered(s, x)
    ensures r == s
  {
    assert (r - s) % Q == 0 by {
      assert r - s == (r - x) - (s - x);
    }
    var t := (r - s) / Q;
    assert r - s == Q * t;
  }

  /** Freeze is the unique centered representative. */
  lemma FreezeUnique(x: int, r: int)
    requires IsI32(x) && IsI32(x + Q12)
    requires IsCentered(r, x)
    ensures Freeze(x) == r
  {
    CenteredUnique(Freeze(x), r, x);
  }

  /** Freeze leaves an already-centered value unchanged. */
  lemma FreezeCentered(x: int)
    requires -(Q12 as int) <= x <= Q12
    ensures Freeze(x) == x
  {
    FreezeUnique(x, x);
  }

  /** Freeze is odd: freeze(-x) == -freeze(x). */
  lemma FreezeNeg(x: int)
    requires IsI32(x) && IsI32(x + Q12) && IsI32(-x) && IsI32(-x + Q12)
    ensures Freeze(-x) == -Freeze(x)
  {
    var r := Freeze(x);
    assert (-r - -x) % Q == 0 by {
      var t := (r - x) / Q;
      assert r - x == Q * t;
      assert -r - -x == Q * -t;
    }
    FreezeUnique(-x, -r);
  }

  /** Two values freeze to the same residue exactly when they are congruent modulo Q. */
  lemma FreezeEq(x: int, y: int)
    requires IsI32(x) && IsI32(x + Q12) && IsI32(y) && IsI32(y + Q12)
    ensures Freeze(x) == Freeze(y) <==> (x - y) % Q == 0
  {
    var rx, ry := Freeze(x), Freeze(y);
    var tx, ty := (rx - x) / Q, (ry - y) / Q;
    assert rx - x == Q * tx && ry - y == Q * ty;
    if (x - y) % Q == 0 {
      var t := (x - y) / Q;
      assert x - y == Q * t;
      assert rx - y == Q * (tx + t);
      FreezeUnique(y, rx);
    }
    if rx == ry {
      assert x - y == Q * (ty - tx);
    }
  }

  // ---------------------------------------------------------------------------
  // The Barrett reference of the tests

  /**
    The reference reduction of the tests: two Barrett steps with the
    multipliers 228 / 2^20 and 58470 / 2^28, the shifts being floor
    divisions, then the cast to i16.  It agrees with Freeze on all of i16.
   */
  function BarrettFreeze(a: int): (r: int)
    requires IsI16(a)
    ensures r == Freeze(a)
  {
    var b1 := a - Q * ((228 * a) / 0x10_0000);
    var b2 := b1 - Q * ((58470 * b1 + 0x800_0000) / 0x1000_0000);
    BarrettBounds(a);
    FreezeUnique(a, b2);
    WrapI16(b2)
  }

  lemma BarrettBounds(a: int)
    requires IsI16(a)
    ensures IsCentered((a - Q * ((228 * a) / 0x10_0000)) - Q * ((58470 * (a - Q * ((228 * a) / 0x10_0000)) + 0x800_0000) / 0x1000_0000), a)
  {
    var k1 := (228 * a) / 0x10_0000;
    assert k1 * 0x10_0000 <= 228 * a < k1 * 0x10_0000 + 0x10_0000;
    var b1 := a - Q * k1;
    assert -56 <= b1 <= 4647;
    var k2 := (58470 * b1 + 0x800_0000) / 0x1000_0000;
    assert k2 == if b1 >= 2296 then 1 else 0;
    var b2 := b1 - Q * k2;
    assert -(Q12 as int) <= b2 <= Q12;
    assert b2 - a == Q * (-k1 - k2);
  }

  // ---------------------------------------------------------------------------
  // recip

  lemma ProductI32(a: int, b: int)
    requires IsI16(a) && IsI16(b)
    ensures -0x4000_0000 <= a * b <= 0x4000_0000
  {
    var x := if a < 0 then -a else a;
    var y := if b < 0 then -b else b;
    MulLe(x, y, 0x8000);
    MulLe(y, 0x8000, 0x8000);
    assert a * b == x * y || a * b == -(x * y);
  }

  /**
    `recip`: a1^(Q-2) by Q-3 frozen multiplications, the first factor
    being a1 itself.  The result is the centered residue of a1^(Q-2).
   */
  method Recip(a1: int) returns (ai: int)
    requires IsI16(a1)
    ensures IsCentered(ai, Pow(a1, Q - 2))
  {
    var i := 1;
    ai := a1;
    while i < Q - 2
      invariant 1 <= i <= Q - 2
      invariant IsI16(ai)
      invariant (ai - Pow(a1, i)) % Q == 0
      invariant i >= 2 ==> -(Q12 as int) <= ai <= Q12
    {
      ProductI32(a1, ai);
      ghost var prev := ai;
      ai := Freeze(a1 * ai);
      MulCongruent(Q, a1, prev, Pow(a1, i));
      CongruentTrans(Q, ai, a1 * prev, a1 * Pow(a1, i));
      i := i + 1;
    }
  }

  /**
    recip is odd, because Q - 2 is odd: the reciprocal of -a is minus the
    reciprocal of a.
   */
  lemma RecipOdd(a: int, r: int, s: int)
    requires IsCentered(r, Pow(a, Q - 2)) && IsCentered(s, Pow(-a, Q - 2))
    ensures s == -r
  {
    PowNeg(a, Q - 2);
    var t := (r - Pow(a, Q - 2)) / Q;
    assert r - Pow(a, Q - 2) == Q * t;
    assert -r - Pow(-a, Q - 2) == Q * -t;
    MultipleMod(Q, -t);
    CenteredUnique(s, -r, Pow(-a, Q - 2));
  }

  /**
    recip really is the inverse in Z/QZ: for a not divisible by the prime Q,
    a * recip(a) has centered residue 1 (so freeze(a * recip(a)) == 1, by
    FreezeUnique), by Fermat's little theorem.
   */
  lemma RecipInverse(a: int, r: int)
    requires IsI16(a) && a % Q != 0 && IsCentered(r, Pow(a, Q - 2))
    ensures IsCentered(1, a * r)
  {
    Prime4591();
    FermatInverse(a, Q);
    assert Pow(a, Q - 1) == a * Pow(a, Q - 2);
    MulCongruent(Q, a, r, Pow(a, Q - 2));
    CongruentTrans(Q, a * r, Pow(a, Q - 1), 1);
    CongruentSym(Q, a * r, 1);
  }
}
