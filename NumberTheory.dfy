/**
  The elementary number theory behind `recip`: integer powers, congruences
  with a positive modulus, Euclid's lemma for primes, binomial coefficients
  and Fermat's little theorem, and a primality certificate for the modulus
  4591 of ntrulpr761.
 */
module NumberTheory {

  /** x to the power e, over the integers. */
  function Pow(x: int, e: nat): int
    decreases e
  {
    if e == 0 then 1 else x * Pow(x, e - 1)
  }

  /** (-x)^e is x^e for even e and -(x^e) for odd e. */
  lemma {:induction false} PowNeg(x: int, e: nat)
    ensures Pow(-x, e) == if e % 2 == 0 then Pow(x, e) else -Pow(x, e)
  {
    if e > 0 {
      PowNeg(x, e - 1);
      var p := Pow(x, e - 1);
      if e % 2 == 0 {
        assert (e - 1) % 2 == 1;
        assert Pow(-x, e - 1) == -p;
        assert (-x) * (-p) == x * p;
      } else {
        assert (e - 1) % 2 == 0;
        assert Pow(-x, e - 1) == p;
        assert (-x) * p == -(x * p);
      }
    }
  }

  // ---------------------------------------------------------------------------
  // Multiples of a positive modulus

  lemma MulMono(m: nat, k: int)
    requires k >= 1
    ensures m * k >= m
  {
    assert m * k == m + m * (k - 1);
  }

  lemma MulLe(x: nat, y: nat, bound: nat)
    requires x <= bound
    ensures x * y <= bound * y
  {
    assert bound * y - x * y == (bound - x) * y;
  }

  lemma Distrib(x: int, y: int, z: int)
    ensures x * (y + z) == x * y + x * z
  {
  }

  /** Every multiple of m leaves remainder 0. */
  lemma MultipleMod(m: nat, q: int)
    requires m > 0
    ensures (m * q) % m == 0
  {
    var d, r := (m * q) / m, (m * q) % m;
    assert m * (q - d) == r;
    if q - d >= 1 {
      MulMono(m, q - d);
    } else if q - d <= -1 {
      MulMono(m, d - q);
    }
  }

  /** v - v % m is a multiple of m. */
  lemma DivMod(v: int, m: nat)
    requires m > 0
    ensures (v - v % m) % m == 0
  {
    var q := v / m;
    assert v - v % m == m * q;
    MultipleMod(m, q);
  }

  /** A value with remainder 0 is m times its quotient. */
  lemma ZeroModWitness(v: int, m: nat)
    requires m > 0 && v % m == 0
    ensures v == m * (v / m)
  {
  }

  /** Congruence modulo m is preserved by multiplying both sides by a. */
  lemma MulCongruent(m: nat, a: int, x: int, y: int)
    requires m > 0 && (x - y) % m == 0
    ensures (a * x - a * y) % m == 0
  {
    var t := (x - y) / m;
    assert x - y == m * t;
    assert a * x - a * y == m * (a * t) by {
      assert a * x - a * y == a * (x - y);
    }
    MultipleMod(m, a * t);
  }

  /** Congruence modulo m is transitive. */
  lemma CongruentTrans(m: nat, x: int, y: int, z: int)
    requires m > 0 && (x - y) % m == 0 && (y - z) % m == 0
    ensures (x - z) % m == 0
  {
    var s, t := (x - y) / m, (y - z) / m;
    assert x - z == m * (s + t);
    MultipleMod(m, s + t);
  }

  /** Congruence modulo m is symmetric. */
  lemma CongruentSym(m: nat, x: int, y: int)
    requires m > 0 && (x - y) % m == 0
    ensures (y - x) % m == 0
  {
    var t := (x - y) / m;
    assert y - x == m * -t;
    MultipleMod(m, -t);
  }

  /** The sum of two multiples of m is a multiple of m. */
  lemma CongruentAdd(m: nat, x: int, y: int)
    requires m > 0 && x % m == 0 && y % m == 0
    ensures (x + y) % m == 0
  {
    assert x + y == m * (x / m + y / m);
    MultipleMod(m, x / m + y / m);
  }

  /** The absolute value; |m| is also the number of residues modulo m. */
  function Abs(x: int): nat {
    if x < 0 then -x else x
  }

  // ---------------------------------------------------------------------------
  // Primes and Euclid's lemma

  /** p is prime: at least 2 and no divisor strictly between 1 and p. */
  predicate IsPrime(p: nat) {
    p >= 2 && forall d :: 2 <= d < p ==> p % d != 0
  }

  /** No d' with d <= d' and d' * d' <= n divides n. */
  function NoDivisorFrom(n: nat, d: nat): bool
    requires d >= 2
    decreases n - d
  {
    if d * d > n then true
    else
      assert d < n by { assert d * d >= 2 * d; }
      n % d != 0 && NoDivisorFrom(n, d + 1)
  }

  lemma {:induction false} NoDivisorFromSound(n: nat, d: nat, g: nat)
    requires d >= 2 && NoDivisorFrom(n, d)
    requires d <= g && g * g <= n
    ensures n % g != 0
    decreases g - d
  {
    if d * d > n {
      MulLe(d, d, g);
      MulLe(d, g, g);
    } else if d < g {
      NoDivisorFromSound(n, d + 1, g);
    }
  }

  /** Trial division up to the square root certifies primality. */
  lemma PrimeByTrialDivision(n: nat)
    requires n >= 2 && NoDivisorFrom(n, 2)
    ensures IsPrime(n)
  {
    forall e | 2 <= e < n ensures n % e != 0 {
      if n % e == 0 {
        var f := n / e;
        assert n == e * f;
        assert f >= 2;
        assert n % f == 0 by {
          assert n == f * e;
          MultipleMod(f, e);
        }
        var g := if e <= f then e else f;
        assert g * g <= n by {
          if e <= f {
            MulLe(e, e, f);
          } else {
            MulLe(f, f, e);
          }
        }
        NoDivisorFromSound(n, 2, g);
      }
    }
  }

  /** Trial division of 4591 by 35 .. 67 (68 * 68 > 4591). */
  lemma TrialDivision4591Upper()
    ensures NoDivisorFrom(4591, 35)
  {
    assert NoDivisorFrom(4591, 68);
    assert NoDivisorFrom(4591, 67);
    assert NoDivisorFrom(4591, 66);
    assert NoDivisorFrom(4591, 65);
    assert NoDivisorFrom(4591, 64);
    assert NoDivisorFrom(4591, 63);
    assert NoDivisorFrom(4591, 62);
    assert NoDivisorFrom(4591, 61);
    assert NoDivisorFrom(4591, 60);
    assert NoDivisorFrom(4591, 59);
    assert NoDivisorFrom(4591, 58);
    assert NoDivisorFrom(4591, 57);
    assert NoDivisorFrom(4591, 56);
    assert NoDivisorFrom(4591, 55);
    assert NoDivisorFrom(4591, 54);
    assert NoDivisorFrom(4591, 53);
    assert NoDivisorFrom(4591, 52);
    assert NoDivisorFrom(4591, 51);
    assert NoDivisorFrom(4591, 50);
    assert NoDivisorFrom(4591, 49);
    assert NoDivisorFrom(4591, 48);
    assert NoDivisorFrom(4591, 47);
    assert NoDivisorFrom(4591, 46);
    assert NoDivisorFrom(4591, 45);
    assert NoDivisorFrom(4591, 44);
    assert NoDivisorFrom(4591, 43);
    assert NoDivisorFrom(4591, 42);
    assert NoDivisorFrom(4591, 41);
    assert NoDivisorFrom(4591, 40);
    assert NoDivisorFrom(4591, 39);
    assert NoDivisorFrom(4591, 38);
    assert NoDivisorFrom(4591, 37);
    assert NoDivisorFrom(4591, 36);
    assert NoDivisorFrom(4591, 35);
  }

  /** The modulus 4591 is prime. */
  lemma Prime4591()
    ensures IsPrime(4591)
  {
    TrialDivision4591Upper();
    assert NoDivisorFrom(4591, 34);
    assert NoDivisorFrom(4591, 33);
    assert NoDivisorFrom(4591, 32);
    assert NoDivisorFrom(4591, 31);
    assert NoDivisorFrom(4591, 30);
    assert NoDivisorFrom(4591, 29);
    assert NoDivisorFrom(4591, 28);
    assert NoDivisorFrom(4591, 27);
    assert NoDivisorFrom(4591, 26);
    assert NoDivisorFrom(4591, 25);
    assert NoDivisorFrom(4591, 24);
    assert NoDivisorFrom(4591, 23);
    assert NoDivisorFrom(4591, 22);
    assert NoDivisorFrom(4591, 21);
    assert NoDivisorFrom(4591, 20);
    assert NoDivisorFrom(4591, 19);
    assert NoDivisorFrom(4591, 18);
    assert NoDivisorFrom(4591, 17);
    assert NoDivisorFrom(4591, 16);
    assert NoDivisorFrom(4591, 15);
    assert NoDivisorFrom(4591, 14);
    assert NoDivisorFrom(4591, 13);
    assert NoDivisorFrom(4591, 12);
    assert NoDivisorFrom(4591, 11);
    assert NoDivisorFrom(4591, 10);
    assert NoDivisorFrom(4591, 9);
    assert NoDivisorFrom(4591, 8);
    assert NoDivisorFrom(4591, 7);
    assert NoDivisorFrom(4591, 6);
    assert NoDivisorFrom(4591, 5);
    assert NoDivisorFrom(4591, 4);
    assert NoDivisorFrom(4591, 3);
    assert NoDivisorFrom(4591, 2);
    PrimeByTrialDivision(4591);
  }

  /** Euclid's lemma for 0 < a < p: if p divides a * b then p divides b. */
  lemma {:induction false} EuclidSmall(p: nat, a: nat, b: int)
    requires IsPrime(p) && 0 < a < p && (a * b) % p == 0
    ensures b % p == 0
    decreases a
  {
    if a > 1 {
      var q, r := p / a, p % a;
      assert r != 0 by {
        assert p % a != 0;
      }
      // r * b = p * b - q * (a * b) is again a multiple of p, with 0 < r < a
      var t := (a * b) / p;
      assert a * b == p * t;
      assert r * b == p * (b - q * t) by {
        assert r == p - q * a;
        assert r * b == p * b - q * (a * b);
      }
      MultipleMod(p, b - q * t);
      EuclidSmall(p, r, b);
    }
  }

  /** Euclid's lemma: a prime dividing a product divides one of its factors. */
  lemma Euclid(p: nat, a: int, b: int)
    requires IsPrime(p) && a % p != 0 && (a * b) % p == 0
    ensures b % p == 0
  {
    var r := a % p;
    var t := a / p;
    assert a == p * t + r;
    assert (a * b - r * b) % p == 0 by {
      assert a * b - r * b == p * (t * b);
      MultipleMod(p, t * b);
    }
    CongruentSym(p, a * b, r * b);
    assert (r * b - 0) % p == 0 by {
      CongruentTrans(p, r * b, a * b, 0);
    }
    EuclidSmall(p, r, b);
  }

  // ---------------------------------------------------------------------------
  // Binomial coefficients and the binomial theorem

  /** The binomial coefficient, by Pascal's rule. */
  function Binom(n: nat, k: nat): nat
    decreases n
  {
    if k == 0 then 1 else if n == 0 then 0 else Binom(n - 1, k - 1) + Binom(n - 1, k)
  }

  lemma {:induction false} BinomAbove(n: nat, k: nat)
    requires k > n
    ensures Binom(n, k) == 0
  {
    if n > 0 {
      BinomAbove(n - 1, k - 1);
      BinomAbove(n - 1, k);
    }
  }

  lemma {:induction false} BinomDiagonal(n: nat)
    ensures Binom(n, n) == 1
  {
    if n > 0 {
      BinomDiagonal(n - 1);
      BinomAbove(n - 1, n);
    }
  }

  lemma {:induction false} BinomOne(n: nat)
    ensures Binom(n, 1) == n
  {
    if n > 0 {
      BinomOne(n - 1);
    }
  }

  /** The absorption identity k * C(n, k) == n * C(n - 1, k - 1). */
  lemma {:induction false} BinomAbsorb(n: nat, k: nat)
    requires n >= 1 && k >= 1
    ensures k * Binom(n, k) == n * Binom(n - 1, k - 1)
    decreases n
  {
    if k == 1 {
      BinomOne(n);
    } else if n == 1 {
      BinomAbove(1, k);
      BinomAbove(0, k - 1);
    } else {
      BinomAbsorb(n - 1, k - 1);
      BinomAbsorb(n - 1, k);
      var a, b := Binom(n - 1, k - 1), Binom(n - 1, k);
      var a2, a1 := Binom(n - 2, k - 2), Binom(n - 2, k - 1);
      assert Binom(n, k) == a + b;
      assert a == a2 + a1;
      assert (k - 1) * a == (n - 1) * a2;
      assert k * b == (n - 1) * a1;
      Distrib(k, a, b);
      Distrib(a, k - 1, 1);
      Distrib(n - 1, a2, a1);
      Distrib(a, n - 1, 1);
      var ka, kb, k1a, n1a := k * a, k * b, (k - 1) * a, (n - 1) * a;
      assert k * Binom(n, k) == ka + kb;
      assert ka == k1a + a;
      assert k1a + kb == n1a;
      assert n * a == n1a + a;
    }
  }

  /** A prime p divides C(p, k) for 0 < k < p. */
  lemma PrimeDividesBinom(p: nat, k: nat)
    requires IsPrime(p) && 0 < k < p
    ensures Binom(p, k) % p == 0
  {
    BinomAbsorb(p, k);
    MultipleMod(p, Binom(p - 1, k - 1));
    assert (k * Binom(p, k)) % p == 0;
    EuclidSmall(p, k, Binom(p, k));
  }

  /** The first m terms of the expansion of (x + 1)^n: the sum of C(n, k) x^k for k < m. */
  function BinomSum(x: int, n: nat, m: nat): int
    decreases m
  {
    if m == 0 then 0 else BinomSum(x, n, m - 1) + Binom(n, m - 1) * Pow(x, m - 1)
  }

  /** Pascal's rule lifted to the partial sums. */
  lemma {:induction false} BinomSumStep(x: int, n: nat, m: nat)
    requires m >= 1
    ensures BinomSum(x, n + 1, m) == x * BinomSum(x, n, m - 1) + BinomSum(x, n, m)
  {
    if m > 1 {
      BinomSumStep(x, n, m - 1);
      var y1 := Pow(x, m - 2);
      assert Pow(x, m - 1) == x * y1;
      assert Binom(n + 1, m - 1) == Binom(n, m - 2) + Binom(n, m - 1);
      BinomSumAlgebra(x, BinomSum(x, n, m - 2), BinomSum(x, n, m - 1),
                      Binom(n, m - 2), Binom(n, m - 1), y1, Pow(x, m - 1));
    }
  }

  lemma BinomSumAlgebra(x: int, s1: int, s2: int, c1: int, c2: int, y1: int, y2: int)
    requires y2 == x * y1
    ensures x * s1 + s2 + (c1 + c2) * y2 == x * (s1 + c1 * y1) + (s2 + c2 * y2)
  {
    assert c1 * y2 == x * (c1 * y1);
  }

  /** The binomial theorem for (x + 1)^n. */
  lemma {:induction false} BinomialTheorem(x: int, n: nat)
    ensures Pow(x + 1, n) == BinomSum(x, n, n + 1)
  {
    if n > 0 {
      BinomialTheorem(x, n - 1);
      PowSucc(x + 1, n);
      BinomSumTop(x, n);
    }
  }

  lemma PowSucc(y: int, n: nat)
    requires n > 0
    ensures Pow(y, n) == (y - 1) * Pow(y, n - 1) + Pow(y, n - 1)
  {
    var p := Pow(y, n - 1);
    assert y * p == (y - 1) * p + p;
  }

  /** Expanding one more power: Pascal's rule plus the vanishing coefficient C(n - 1, n). */
  lemma BinomSumTop(x: int, n: nat)
    requires n > 0
    ensures BinomSum(x, n, n + 1) == x * BinomSum(x, n - 1, n) + BinomSum(x, n - 1, n)
  {
    BinomSumStep(x, n - 1, n + 1);
    BinomAbove(n - 1, n);
    var c := Binom(n - 1, n);
    assert BinomSum(x, n - 1, n + 1) == BinomSum(x, n - 1, n) + c * Pow(x, n);
  }

  /** Modulo a prime p, the middle terms of the expansion of (x + 1)^p vanish. */
  lemma {:induction false} BinomSumPrime(x: int, p: nat, m: nat)
    requires IsPrime(p) && 1 <= m <= p
    ensures (BinomSum(x, p, m) - 1) % p == 0
  {
    if m > 1 {
      BinomSumPrime(x, p, m - 1);
      PrimeDividesBinom(p, m - 1);
      var c, y := Binom(p, m - 1), Pow(x, m - 1);
      var t := c / p;
      assert c == p * t;
      assert c * y == p * (t * y);
      MultipleMod(p, t * y);
      var s := BinomSum(x, p, m - 1) - 1;
      CongruentAdd(p, s, c * y);
      assert BinomSum(x, p, m) - 1 == s + c * y;
    }
  }

  /** The "freshman's dream" modulo a prime: (x + 1)^p == x^p + 1 (mod p). */
  lemma FreshmansDream(x: int, p: nat)
    requires IsPrime(p)
    ensures (Pow(x + 1, p) - (Pow(x, p) + 1)) % p == 0
  {
    BinomialTheorem(x, p);
    BinomSumPrime(x, p, p);
    BinomDiagonal(p);
    assert Pow(x + 1, p) == BinomSum(x, p, p) + Pow(x, p);
  }

  /** Fermat's little theorem, x^p == x (mod p), for x >= 0. */
  lemma {:induction false} FermatNat(x: nat, p: nat)
    requires IsPrime(p)
    ensures (Pow(x, p) - x) % p == 0
  {
    if x == 0 {
      FermatZero(p);
    } else {
      FermatNat(x - 1, p);
      FermatSucc(x, p);
    }
  }

  lemma FermatSucc(x: int, p: nat)
    requires IsPrime(p) && (Pow(x - 1, p) - (x - 1)) % p == 0
    ensures (Pow(x, p) - x) % p == 0
  {
    FreshmansDream(x - 1, p);
    FermatStep(p, Pow(x, p), Pow(x - 1, p), x);
  }

  lemma FermatZero(p: nat)
    requires p >= 1
    ensures (Pow(0, p) - 0) % p == 0
  {
    assert Pow(0, p) == 0;
  }

  lemma FermatStep(p: nat, u: int, v: int, x: int)
    requires p > 0 && (u - (v + 1)) % p == 0 && (v - (x - 1)) % p == 0
    ensures (u - x) % p == 0
  {
    assert v + 1 - x == v - (x - 1);
    CongruentTrans(p, u, v + 1, x);
  }

  /** Fermat's little theorem, x^p == x (mod p), for an odd prime and any integer. */
  lemma Fermat(x: int, p: nat)
    requires IsPrime(p) && p % 2 == 1
    ensures (Pow(x, p) - x) % p == 0
  {
    if x < 0 {
      FermatNat(-x, p);
      PowNeg(-x, p);
      MulCongruent(p, -1, Pow(-x, p), -x);
    } else {
      FermatNat(x, p);
    }
  }

  /** For an odd prime p not dividing a: a^(p-1) == 1 (mod p). */
  lemma FermatInverse(a: int, p: nat)
    requires IsPrime(p) && p % 2 == 1 && a % p != 0
    ensures (Pow(a, p - 1) - 1) % p == 0
  {
    Fermat(a, p);
    assert a * (Pow(a, p - 1) - 1) == Pow(a, p) - a;
    Euclid(p, a, Pow(a, p - 1) - 1);
  }
}
