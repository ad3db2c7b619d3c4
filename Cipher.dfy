/**
  The NTRU LPRime encryption glue of src/ntru/cipher.rs: `lpr_encrypt`,
  `rq_decrypt` (with its branch-free weight-mask correction), `r3_encrypt`,
  `x_encrypt` and the ciphertext layout of `z_encrypt`.

  The ring arithmetic the glue calls (`Rq::mult_r3`, `mult3`, `r3_from_rq`,
  `R3::mult`, `f3::round`, `weightw_mask`) lives outside this model; each is
  given its NTRU Prime meaning as a reference function below.  The
  generator, `hash_short` and the rounded codec are opaque and are passed
  in as functions (`Collaborators`), constrained only by the shapes of
  their results.
 */
module Cipher {
  import opened Params
  import opened NumberTheory
  import opened PolyAlgebra
  import opened Fq
  import opened PolyV2
  import opened TopCodec

  // ---------------------------------------------------------------------------
  // Ring elements and the reference meaning of the unseen arithmetic

  /** An Rq element: P coefficients, each a centered residue modulo Q. */
  predicate IsRq(c: seq<int>) {
    |c| == P && forall k :: 0 <= k < |c| ==> -(Q12 as int) <= c[k] <= Q12
  }

  /** An R3 element: P coefficients in {-1, 0, 1}. */
  predicate IsR3Poly(c: seq<int>) {
    |c| == P && Small(c)
  }

  /** Every entry is a byte. */
  predicate IsBytes(s: seq<int>) {
    forall k :: 0 <= k < |s| ==> IsU8(s[k])
  }

  /**
    The centered residue modulo Q of any integer, as the Rq arithmetic
    stores it; on i32 inputs it is `fq::freeze`.
   */
  function ModQ(x: int): (r: int)
    ensures IsCentered(r, x)
    ensures IsI32(x) && IsI32(x + Q12) ==> r == Freeze(x)
  {
    var r := I32ModU14(x + Q12, Q) - Q12;
    if IsI32(x) && IsI32(x + Q12) then
      FreezeUnique(x, r);
      r
    else
      r
  }

  /** The representative in {-1, 0, 1} of any integer modulo 3. */
  function Mods3(x: int): (r: int)
    ensures IsR3(r, x)
  {
    DivMod(x + 1, 3);
    (x + 1) % 3 - 1
  }

  /** `Rq::mult_r3`: the product in Z[x]/(x^P - x - 1), reduced to Rq. */
  function RqMultR3(g: seq<int>, b: seq<int>): (h: seq<int>)
    requires |g| == P && |b| == P
    ensures IsRq(h)
    ensures forall k :: 0 <= k < P ==> (h[k] - RingMul(g, b, P)[k]) % Q == 0
  {
    seq(P, k requires 0 <= k < P => ModQ(RingMul(g, b, P)[k]))
  }

  /** `Rq::mult3`: every coefficient times 3, reduced to Rq. */
  function Mult3(c: seq<int>): (h: seq<int>)
    requires |c| == P
    ensures IsRq(h)
    ensures forall k :: 0 <= k < P ==> (h[k] - 3 * c[k]) % Q == 0
  {
    seq(P, k requires 0 <= k < P => ModQ(3 * c[k]))
  }

  /** `Rq::r3_from_rq`: every coefficient reduced modulo 3. */
  function R3FromRq(c: seq<int>): (e: seq<int>)
    requires |c| == P
    ensures IsR3Poly(e) && IsR3Of(e, c)
  {
    seq(P, k requires 0 <= k < P => Mods3(c[k]))
  }

  /** `R3::mult`: the product in Z3[x]/(x^P - x - 1). */
  function R3Mult(e: seq<int>, g: seq<int>): (h: seq<int>)
    requires |e| == P && |g| == P
    ensures IsR3Poly(h) && IsR3Of(h, RingMul(e, g, P))
  {
    seq(P, k requires 0 <= k < P => Mods3(RingMul(e, g, P)[k]))
  }

  /** `f3::round`: every coefficient moved to the nearest multiple of 3. */
  function Round(a: seq<int>): (r: seq<int>)
    ensures |r| == |a|
    ensures forall k :: 0 <= k < |a| ==> r[k] % 3 == 0 && -1 <= a[k] - r[k] <= 1
  {
    seq(|a|, k requires 0 <= k < |a| => a[k] - Mods3(a[k]))
  }

  /** Rounding keeps an Rq element in Rq: Q12 = 2295 is itself a multiple of 3. */
  lemma RoundKeepsRq(a: seq<int>)
    requires IsRq(a)
    ensures IsRq(Round(a))
  {
    var r := Round(a);
    forall k | 0 <= k < P
      ensures -(Q12 as int) <= r[k] <= Q12
    {
      RoundedInRange(a[k], r[k]);
    }
  }

  lemma RoundedInRange(a: int, r: int)
    requires -(Q12 as int) <= a <= Q12 && r % 3 == 0 && -1 <= a - r <= 1
    ensures -(Q12 as int) <= r <= Q12
  {
  }

  /** The number of nonzero coefficients. */
  function Weight(s: seq<int>): (n: nat)
    ensures n <= |s|
  {
    if |s| == 0 then 0 else Weight(s[..|s| - 1]) + (if s[|s| - 1] != 0 then 1 else 0)
  }

  /** `weightw_mask`: 0 when the weight is W, else -1 (all bits set). */
  function WeightWMask(s: seq<int>): (mask: int)
    ensures mask == 0 || mask == -1
    ensures mask == 0 <==> Weight(s) == W
  {
    if Weight(s) == W then 0 else -1
  }

  // ---------------------------------------------------------------------------
  // rq_decrypt

  /** ev: the candidate plaintext, ((3 * (c * r3(f))) mod 3) * ginv in R3. */
  function Ev(c: seq<int>, f: seq<int>, ginv: seq<int>): (ev: seq<int>)
    requires |c| == P && |f| == P && |ginv| == P
    ensures IsR3Poly(ev)
  {
    R3Mult(R3FromRq(Mult3(RqMultR3(c, R3FromRq(f)))), ginv)
  }

  /** The vector decryption falls back to when ev is not of weight W: ones below W. */
  function Fallback(): (r: seq<int>)
    ensures IsR3Poly(r)
    ensures forall k :: 0 <= k < P ==> r[k] == FallbackAt(k)
  {
    seq(P, FallbackAt)
  }

  function FallbackAt(k: int): int {
    if k < W then 1 else 0
  }

  /** The fallback vector is itself of weight W. */
  lemma FallbackWeight()
    ensures Weight(Fallback()) == W
  {
    FallbackPrefixWeight(P);
    assert Fallback()[..P] == Fallback();
  }

  lemma {:induction false} FallbackPrefixWeight(n: nat)
    requires n <= P
    ensures Weight(Fallback()[..n]) == if n < W then n else W
  {
    if n > 0 {
      FallbackPrefixWeight(n - 1);
      assert Fallback()[..n][..n - 1] == Fallback()[..n - 1];
    }
  }

  /** The bit pattern of an i8. */
  function I8Bits(x: int): bv8
    requires IsI8(x)
  {
    if x < 0 then (x + 0x100) as bv8 else x as bv8
  }

  /** The bit pattern of an i16. */
  function I16Bits(x: int): bv16
    requires IsI16(x)
  {
    if x < 0 then (x + 0x1_0000) as bv16 else x as bv16
  }

  /** `as i16` of an i8 pattern: sign extension. */
  function SignExtend(b: bv8): bv16 {
    if b & 0x80 == 0 then b as bv16 else b as bv16 | 0xFF00
  }

  /** `as i8` of an i16 pattern: the low byte, read signed. */
  function TruncI8(b: bv16): int {
    WrapI8((b & 0xFF) as int)
  }

  /** Entry i < W: `(((e ^ 1) as i16 & !mask) ^ 1) as i8`. */
  function LowLane(e: int, mask: int): int
    requires IsI8(e) && IsI16(mask)
  {
    TruncI8((SignExtend(I8Bits(e) ^ 1) & !I16Bits(mask)) ^ 1)
  }

  /** Entry i >= W: `(e as i16 & !mask) as i8`. */
  function HighLane(e: int, mask: int): int
    requires IsI8(e) && IsI16(mask)
  {
    TruncI8(SignExtend(I8Bits(e)) & !I16Bits(mask))
  }

  lemma PatternTable()
    ensures I8Bits(-1) == 0xFF && I8Bits(0) == 0 && I8Bits(1) == 1
    ensures I16Bits(0) == 0 && I16Bits(-1) == 0xFFFF
    ensures SignExtend(0xFF) == 0xFFFF && SignExtend(0xFE) == 0xFFFE
    ensures SignExtend(0) == 0 && SignExtend(1) == 1
    ensures TruncI8(0xFFFF) == -1 && TruncI8(0) == 0 && TruncI8(1) == 1
  {
  }

  /** With mask 0 an entry below W is passed through. */
  lemma LowLaneKeeps(e: int)
    requires -1 <= e <= 1
    ensures LowLane(e, 0) == e
  {
    PatternTable();
    if e == -1 {
      var x: bv8 := I8Bits(-1) ^ 1;
      assert x == 0xFE;
      assert (SignExtend(x) & !I16Bits(0)) ^ 1 == 0xFFFF;
    } else if e == 0 {
      var x: bv8 := I8Bits(0) ^ 1;
      assert x == 1;
      assert (SignExtend(x) & !I16Bits(0)) ^ 1 == 0;
    } else {
      var x: bv8 := I8Bits(1) ^ 1;
      assert x == 0;
      assert (SignExtend(x) & !I16Bits(0)) ^ 1 == 1;
    }
  }

  /** With mask 0 an entry from W on is passed through. */
  lemma HighLaneKeeps(e: int)
    requires -1 <= e <= 1
    ensures HighLane(e, 0) == e
  {
    PatternTable();
    if e == -1 {
      assert SignExtend(I8Bits(-1)) & !I16Bits(0) == 0xFFFF;
    } else if e == 0 {
      assert SignExtend(I8Bits(0)) & !I16Bits(0) == 0;
    } else {
      assert SignExtend(I8Bits(1)) & !I16Bits(0) == 1;
    }
  }

  /** With mask -1 an entry below W becomes 1. */
  lemma LowLaneMasked(e: int)
    requires -1 <= e <= 1
    ensures LowLane(e, -1) == 1
  {
    PatternTable();
    if e == -1 {
      var x: bv8 := I8Bits(-1) ^ 1;
      assert x == 0xFE;
      assert (SignExtend(x) & !I16Bits(-1)) ^ 1 == 1;
    } else if e == 0 {
      var x: bv8 := I8Bits(0) ^ 1;
      assert x == 1;
      assert (SignExtend(x) & !I16Bits(-1)) ^ 1 == 1;
    } else {
      var x: bv8 := I8Bits(1) ^ 1;
      assert x == 0;
      assert (SignExtend(x) & !I16Bits(-1)) ^ 1 == 1;
    }
  }

  /** With mask -1 an entry from W on becomes 0. */
  lemma HighLaneMasked(e: int)
    requires -1 <= e <= 1
    ensures HighLane(e, -1) == 0
  {
    PatternTable();
    if e == -1 {
      assert SignExtend(I8Bits(-1)) & !I16Bits(-1) == 0;
    } else if e == 0 {
      assert SignExtend(I8Bits(0)) & !I16Bits(-1) == 0;
    } else {
      assert SignExtend(I8Bits(1)) & !I16Bits(-1) == 0;
    }
  }

  /** What entry k of the output is, for an R3 ev and a mask of 0 or -1. */
  lemma LaneOutcome(e: int, mask: int, k: int)
    requires -1 <= e <= 1 && (mask == 0 || mask == -1)
    ensures k < W ==> LowLane(e, mask) == if mask == 0 then e else FallbackAt(k)
    ensures k >= W ==> HighLane(e, mask) == if mask == 0 then e else FallbackAt(k)
  {
    if mask == 0 {
      LowLaneKeeps(e);
      HighLaneKeeps(e);
    } else {
      LowLaneMasked(e);
      HighLaneMasked(e);
    }
  }

  /** The update of an entry below W: kept under mask 0, set to 1 under mask -1. */
  method MaskLow(e: int, mask: int) returns (v: int)
    requires -1 <= e <= 1 && (mask == 0 || mask == -1)
    ensures v == if mask == 0 then e else 1
  {
    LaneOutcome(e, mask, 0);
    v := LowLane(e, mask);
  }

  /** The update of an entry from W on: kept under mask 0, cleared under mask -1. */
  method MaskHigh(e: int, mask: int) returns (v: int)
    requires -1 <= e <= 1 && (mask == 0 || mask == -1)
    ensures v == if mask == 0 then e else 0
  {
    LaneOutcome(e, mask, W);
    v := HighLane(e, mask);
  }

  /**
    `rq_decrypt`: computes ev and returns it when its weight is W, and the
    fallback vector (1 below W, 0 from W on) otherwise; either way the
    result is a short polynomial of weight W.
   */
  method RqDecrypt(c: seq<int>, f: seq<int>, ginv: seq<int>) returns (r: seq<int>)
    requires IsRq(c) && IsRq(f) && IsR3Poly(ginv)
    ensures Weight(Ev(c, f, ginv)) == W ==> r == Ev(c, f, ginv)
    ensures Weight(Ev(c, f, ginv)) != W ==> r == Fallback()
    ensures IsR3Poly(r) && Weight(r) == W
  {
    var cf := RqMultR3(c, R3FromRq(f));
    var cf3 := Mult3(cf);
    var e := R3FromRq(cf3);
    var ev := R3Mult(e, ginv);
    assert ev == Ev(c, f, ginv);
    var mask := WeightWMask(ev);
    r := ApplyMask(ev, mask);
    FallbackWeight();
  }

  /**
    The two loops of `rq_decrypt` over r = [0; P]: entries below W go
    through the low-lane update, the others through the high-lane one.
   */
  method ApplyMask(ev: seq<int>, mask: int) returns (r: seq<int>)
    requires IsR3Poly(ev) && (mask == 0 || mask == -1)
    ensures r == if mask == 0 then ev else Fallback()
  {
    var out := new int[P](_ => 0);
    ghost var expected := if mask == 0 then ev else Fallback();
    for i := 0 to W
      invariant forall k :: 0 <= k < i ==> out[k] == expected[k]
    {
      out[i] := MaskLow(ev[i], mask);
    }
    for i := W to P
      invariant forall k :: 0 <= k < i ==> out[k] == expected[k]
    {
      out[i] := MaskHigh(ev[i], mask);
    }
    r := out[..];
  }

  // ---------------------------------------------------------------------------
  // lpr_encrypt and r3_encrypt

  /** `r3_encrypt(r, h)`: round(h * r), the rounded ring product. */
  function R3Encrypt(r: seq<int>, h: seq<int>): (out: seq<int>)
    requires IsR3Poly(r) && IsRq(h)
    ensures IsRq(out)
    ensures forall k :: 0 <= k < P ==>
              out[k] % 3 == 0 && -1 <= RqMultR3(h, r)[k] - out[k] <= 1 &&
              (RqMultR3(h, r)[k] - RingMul(h, r, P)[k]) % Q == 0
  {
    var hr := RqMultR3(h, r);
    RoundKeepsRq(hr);
    Round(hr)
  }

  /** Entry i of the top vector: top(freeze(ba[i] + r[i] * Q12)). */
  function TopVector(r: seq<int>, ba: seq<int>): (t: seq<int>)
    requires IsR3Poly(r) && IsRq(ba)
    ensures |t| == I
  {
    seq(I, i requires 0 <= i < I => Top(Freeze(ba[i] + r[i] * Q12)))
  }

  /** Every entry of the top vector is a nibble, and entry i depends only on r[i] and ba[i]. */
  lemma TopVectorNibbles(r: seq<int>, ba: seq<int>)
    requires IsR3Poly(r) && IsRq(ba)
    ensures forall i :: 0 <= i < I ==> 0 <= TopVector(r, ba)[i] <= 15
  {
    forall i | 0 <= i < I
      ensures 0 <= TopVector(r, ba)[i] <= 15
    {
      TopNibble(Freeze(ba[i] + r[i] * Q12));
    }
  }

  /**
    `lpr_encrypt`: fills t with the top vector of a * b shifted by r * Q12,
    and returns round(g * b).
   */
  method LprEncrypt(t: array<int>, r: seq<int>, g: seq<int>, a: seq<int>, b: seq<int>) returns (out: seq<int>)
    requires t.Length == I && IsR3Poly(r) && IsRq(g) && IsRq(a) && IsR3Poly(b)
    modifies t
    ensures out == R3Encrypt(b, g)
    ensures t[..] == TopVector(r, RqMultR3(a, b))
  {
    out := RqMultR3(g, b);
    var ba := RqMultR3(a, b);
    out := Round(out);
    for i := 0 to I
      invariant forall k :: 0 <= k < i ==> t[k] == TopVector(r, ba)[k]
    {
      var v := ba[i] + r[i] * Q12;
      t[i] := Top(Freeze(v));
    }
  }

  // ---------------------------------------------------------------------------
  // x_encrypt and z_encrypt

  /** The errors the encryption glue can report. */
  datatype NtruError = PubKey(message: string) | Other(name: string)

  datatype Result<T> = Ok(value: T) | Err(error: NtruError)

  /**
    The opaque collaborators: the public generator, `hash_short` and the
    rounded Rq codec.  Valid() states the shapes the glue relies on.
   */
  datatype Collaborators = Collaborators(
    generator: seq<int> -> Result<seq<int>>,
    hashShort: seq<int> -> Result<seq<int>>,
    roundedEncode: seq<int> -> seq<int>,
    roundedDecode: seq<int> -> seq<int>)
  {
    ghost predicate Valid() {
      && (forall s :: generator(s).Ok? ==> IsRq(generator(s).value))
      && (forall s :: hashShort(s).Ok? ==> IsR3Poly(hashShort(s).value))
      && (forall s :: |roundedEncode(s)| == ROUNDED_BYTES && IsBytes(roundedEncode(s)))
      && (forall s :: IsRq(roundedDecode(s)))
    }
  }

  /**
    `x_encrypt`: g from the generator, b from `hash_short(r)`, then
    `lpr_encrypt`; an error of either collaborator is returned unchanged
    and t is then left untouched.
   */
  method XEncrypt(t: array<int>, r: seq<int>, pkSeed: seq<int>, a: seq<int>, env: Collaborators)
    returns (res: Result<seq<int>>)
    requires t.Length == I && IsR3Poly(r) && |pkSeed| == SEEDS_BYTES && IsRq(a) && env.Valid()
    modifies t
    ensures env.generator(pkSeed).Err? ==>
              res == Err(env.generator(pkSeed).error) && t[..] == old(t[..])
    ensures env.generator(pkSeed).Ok? && env.hashShort(r).Err? ==>
              res == Err(env.hashShort(r).error) && t[..] == old(t[..])
    ensures env.generator(pkSeed).Ok? && env.hashShort(r).Ok? ==>
              var g, b := env.generator(pkSeed).value, env.hashShort(r).value;
              res == Ok(R3Encrypt(b, g)) && t[..] == TopVector(r, RqMultR3(a, b))
  {
    var gen := env.generator(pkSeed);
    if gen.Err? {
      return Err(gen.error);
    }
    var hash := env.hashShort(r);
    if hash.Err? {
      return Err(hash.error);
    }
    var out := LprEncrypt(t, r, gen.value, a, hash.value);
    res := Ok(out);
  }

  /**
    The two `try_into` conversions of `z_encrypt` on a key slice of any
    length from SEEDS_BYTES on: the seed always converts, the remainder
    only when the key is exactly PUBLICKEYS_BYTES long.
   */
  function SplitPublicKey(pk: seq<int>): (split: Result<(seq<int>, seq<int>)>)
    requires |pk| >= SEEDS_BYTES
    ensures split.Ok? <==> |pk| == PUBLICKEYS_BYTES
    ensures split.Ok? ==> split.value.0 + split.value.1 == pk && |split.value.0| == SEEDS_BYTES
    ensures split.Err? ==> split.error == PubKey("Incorrect PubKey")
  {
    var seed := pk[..SEEDS_BYTES];
    var rest := pk[SEEDS_BYTES..];
    if |rest| != ROUNDED_BYTES then Err(PubKey("Incorrect PubKey"))
    else
      assert seed + rest == pk;
      Ok((seed, rest))
  }

  /** The length of a ciphertext followed by its hash slot. */
  const CIPHERTEXT_HASH_BYTES: nat := CIPHERTEXTS_BYTES + HASH_BYTES

  /** The ciphertext bytes: the rounded encoding, the packed top vector, then HASH_BYTES zeros. */
  function Ciphertext(enc: seq<int>, tv: seq<int>): (ct: seq<int>)
    requires |enc| == ROUNDED_BYTES && |tv| == I
    ensures |ct| == CIPHERTEXT_HASH_BYTES
  {
    enc + TopBytes(tv) + Zeros(HASH_BYTES)
  }

  /**
    The layout of a ciphertext: bytes [0, ROUNDED_BYTES) are the rounded
    encoding, [ROUNDED_BYTES, CIPHERTEXTS_BYTES) the packed top vector, the
    rest zero; all are bytes, and the top part decodes back to the vector.
   */
  lemma CiphertextLayout(enc: seq<int>, tv: seq<int>)
    requires |enc| == ROUNDED_BYTES && IsBytes(enc)
    requires |tv| == I && forall i :: 0 <= i < I ==> 0 <= tv[i] < 16
    ensures var ct := Ciphertext(enc, tv);
            ct[..ROUNDED_BYTES] == enc && ct[ROUNDED_BYTES..CIPHERTEXTS_BYTES] == TopBytes(tv) &&
            (forall k :: CIPHERTEXTS_BYTES <= k < |ct| ==> ct[k] == 0) &&
            IsBytes(ct) && DecodedTop(ct[ROUNDED_BYTES..]) == tv
  {
    var ct := Ciphertext(enc, tv);
    assert ct[..ROUNDED_BYTES] == enc;
    assert ct[ROUNDED_BYTES..CIPHERTEXTS_BYTES] == TopBytes(tv);
    assert ct[ROUNDED_BYTES..][..TOP_BYTES] == TopBytes(tv);
    DecodedTopPrefix(ct[ROUNDED_BYTES..]);
    TopRoundTrip(tv);
  }

  /**
    `z_encrypt`: the ciphertext of round(g * b) and of the top vector of
    a * b shifted by r * Q12, where g comes from the key's seed, a from its
    rounded part and b from `hash_short(r)`; the collaborators' errors are
    returned unchanged.  With a key of the declared PUBLICKEYS_BYTES the
    PubKey errors cannot occur.
   */
  method ZEncrypt(r: seq<int>, pk: seq<int>, env: Collaborators) returns (res: Result<seq<int>>)
    requires IsR3Poly(r) && |pk| == PUBLICKEYS_BYTES && env.Valid()
    ensures var seed := pk[..SEEDS_BYTES];
            env.generator(seed).Err? ==> res == Err(env.generator(seed).error)
    ensures var seed := pk[..SEEDS_BYTES];
            env.generator(seed).Ok? && env.hashShort(r).Err? ==> res == Err(env.hashShort(r).error)
    ensures var seed := pk[..SEEDS_BYTES];
            env.generator(seed).Ok? && env.hashShort(r).Ok? ==>
              var g, b := env.generator(seed).value, env.hashShort(r).value;
              var a := env.roundedDecode(pk[SEEDS_BYTES..]);
              res == Ok(Ciphertext(env.roundedEncode(R3Encrypt(b, g)), TopVector(r, RqMultR3(a, b))))
  {
    var split := SplitPublicKey(pk);
    var seed, rest := split.value.0, split.value.1;
    assert seed == pk[..SEEDS_BYTES] && rest == pk[SEEDS_BYTES..];
    var a := env.roundedDecode(rest);
    var t := new int[I](_ => 0);
    var out := new int[CIPHERTEXT_HASH_BYTES](_ => 0);
    var x := XEncrypt(t, r, seed, a, env);
    if x.Err? {
      return Err(x.error);
    }
    ghost var b := env.hashShort(r).value;
    var tv := t[..];
    assert tv == TopVector(r, RqMultR3(a, b));
    var enc := env.roundedEncode(x.value);
    forall k | 0 <= k < ROUNDED_BYTES {
      out[k] := enc[k];
    }
    TopVectorNibbles(r, RqMultR3(a, b));
    NibbleSumsFit(tv);
    assert out[..ROUNDED_BYTES] == enc;
    assert out[CIPHERTEXTS_BYTES..] == Zeros(HASH_BYTES);
    TopEncode(out, tv, ROUNDED_BYTES);
    res := Ok(out[..]);
    assert out[..] == Ciphertext(enc, tv);
  }
}
