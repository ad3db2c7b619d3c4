/**
  `inputs_encode` of src/encode/top.rs: the first I ternary inputs packed
  one bit each, eight to a byte.  Both the i8 inputs and the u8 output
  bytes are held as their 8-bit two's-complement patterns (bv8): the
  input -1 is the pattern 0xFF, and `r[i] << (i & 7)` followed by `as u8`
  is the shift of the pattern, with the bits shifted past bit 7 lost.
 */
module Inputs {
  import opened Params

  // ---------------------------------------------------------------------------
  // Shifts and bits

  /** `x << k` on an 8-bit pattern, one position at a time. */
  function Shl(x: bv8, k: nat): bv8
  {
    if k == 0 then x else Shl(x, k - 1) << 1
  }

  /** The single-bit mask of bit b. */
  function Mask(b: nat): bv8
  {
    Shl(1, b)
  }

  /** Bit b of x is set. */
  predicate BitSet(x: bv8, b: nat)
  {
    x & Mask(b) != 0
  }

  // ---------------------------------------------------------------------------
  // inputs_encode

  /** Byte j after the first n of its eight inputs have been or-ed in. */
  function PackBits(r: seq<bv8>, j: nat, n: nat): bv8
    requires n <= 8 && 8 * j + n <= |r|
  {
    if n == 0 then 0 else PackBits(r, j, n - 1) | Shl(r[8 * j + n - 1], n - 1)
  }

  /** The INPUTS_BYTES bytes of `inputs_encode`. */
  function InputsBytes(r: seq<bv8>): (s: seq<bv8>)
    requires |r| >= I
    ensures |s| == INPUTS_BYTES
    ensures forall j :: 0 <= j < INPUTS_BYTES ==> s[j] == PackBits(r, j, 8)
  {
    seq(INPUTS_BYTES, j requires 0 <= j < INPUTS_BYTES => PackBits(r, j, 8))
  }

  /** `inputs_encode`: or each of the first I inputs, shifted by i & 7, into byte i >> 3. */
  method InputsEncode(r: seq<bv8>) returns (s: seq<bv8>)
    requires |r| == P
    ensures s == InputsBytes(r)
  {
    var bytes := new bv8[INPUTS_BYTES](_ => 0);
    assert bytes[..] == Partial(r, 0);
    for i := 0 to I
      invariant bytes[..] == Partial(r, i)
    {
      var j, b := i / 8, i % 8;
      PartialStep(r, i, j, b);
      bytes[j] := bytes[j] | Shl(r[i], b);
    }
    assert Partial(r, I) == InputsBytes(r);
    s := bytes[..];
  }

  /** The bytes once the first i inputs are or-ed in. */
  function Partial(r: seq<bv8>, i: nat): (s: seq<bv8>)
    requires i <= I <= |r|
    ensures |s| == INPUTS_BYTES
    ensures forall j :: 0 <= j < INPUTS_BYTES ==> s[j] == PackBits(r, j, Filled(i, j))
  {
    seq(INPUTS_BYTES, j requires 0 <= j < INPUTS_BYTES => PackBits(r, j, Filled(i, j)))
  }

  /** Or-ing input i = 8j + b into byte j takes the bytes after i inputs to those after i + 1. */
  lemma PartialStep(r: seq<bv8>, i: nat, j: nat, b: nat)
    requires i < I <= |r| && j == i / 8 && b == i % 8
    ensures j < INPUTS_BYTES && b < 8
    ensures Partial(r, i + 1) == Partial(r, i)[j := Partial(r, i)[j] | Shl(r[i], b)]
  {
    FilledStep(i, j, b);
    assert PackBits(r, j, b + 1) == PackBits(r, j, b) | Shl(r[i], b);
  }

  /** How many inputs of byte j are or-ed in once the first i inputs are: i - 8j clamped to [0, 8]. */
  function Filled(i: nat, j: nat): (n: nat)
    ensures n <= 8
  {
    if i <= 8 * j then 0 else if 8 * j + 8 <= i then 8 else i - 8 * j
  }

  /** Input i = 8j + b is the next one of byte j and of no other byte. */
  lemma FilledStep(i: nat, j: nat, b: nat)
    requires i == 8 * j + b && b < 8
    ensures Filled(i, j) == b && Filled(i + 1, j) == b + 1
    ensures forall k :: k != j ==> Filled(i + 1, k) == Filled(i, k)
  {
  }

  /** Only the first I inputs are read. */
  lemma InputsFirstOnly(r1: seq<bv8>, r2: seq<bv8>)
    requires |r1| >= I && |r2| >= I && r1[..I] == r2[..I]
    ensures InputsBytes(r1) == InputsBytes(r2)
  {
    forall j | 0 <= j < INPUTS_BYTES
      ensures PackBits(r1, j, 8) == PackBits(r2, j, 8)
    {
      PackBitsPrefix(r1, r2, j, 8);
    }
  }

  lemma {:induction false} PackBitsPrefix(r1: seq<bv8>, r2: seq<bv8>, j: nat, n: nat)
    requires n <= 8 && 8 * j + n <= I <= |r1| && I <= |r2| && r1[..I] == r2[..I]
    ensures PackBits(r1, j, n) == PackBits(r2, j, n)
  {
    if n > 0 {
      PackBitsPrefix(r1, r2, j, n - 1);
      assert r1[8 * j + n - 1] == r1[..I][8 * j + n - 1];
    }
  }

  // ---------------------------------------------------------------------------
  // Binary inputs

  /**
    On inputs in {0, 1}, bit b of byte j is set exactly when input 8j + b
    is 1, for every b below n, and the bits from n up are clear.
   */
  lemma {:induction false} InputsBinary(r: seq<bv8>, j: nat, n: nat)
    requires n <= 8 && 8 * j + n <= |r|
    requires forall k :: 8 * j <= k < 8 * j + n ==> r[k] == 0 || r[k] == 1
    ensures forall b :: 0 <= b < 8 ==> (BitSet(PackBits(r, j, n), b) <==> b < n && r[8 * j + b] == 1)
  {
    if n > 0 {
      InputsBinary(r, j, n - 1);
      var acc, x := PackBits(r, j, n - 1), r[8 * j + n - 1];
      var v := Shl(x, n - 1);
      if x == 1 {
        assert v == Mask(n - 1);
      } else {
        ShlZero(n - 1);
      }
      var w := acc | v;
      forall b | 0 <= b < 8
        ensures BitSet(w, b) <==> b < n && r[8 * j + b] == 1
      {
        BinaryBit(acc, v, x, n - 1, b, b < n - 1 && r[8 * j + b] == 1);
      }
    }
  }

  /** One step of the induction, for one bit b: input x in {0, 1} shifted to v = x << k. */
  lemma BinaryBit(acc: bv8, v: bv8, x: bv8, k: nat, b: nat, before: bool)
    requires k < 8 && b < 8 && ((x == 1 && v == Mask(k)) || (x == 0 && v == 0))
    requires BitSet(acc, b) <==> before
    ensures BitSet(acc | v, b) <==> before || (b == k && x == 1)
  {
    MaskDisjoint(k, b);
    OrBit(acc, v, Mask(k), Mask(b));
  }

  /** Or-ing in the mask mk, or zero, changes the bit under mask mb only when the two masks meet. */
  lemma OrBit(acc: bv8, v: bv8, mk: bv8, mb: bv8)
    requires v == mk || v == 0
    ensures (acc | v) & mb != 0 <==> acc & mb != 0 || (v != 0 && mk & mb != 0)
  {
  }

  /** Shifting zero gives zero. */
  lemma {:induction false} ShlZero(k: nat)
    ensures Shl(0, k) == 0
  {
    if k > 0 {
      ShlZero(k - 1);
    }
  }

  /** The eight masks, written out. */
  lemma MaskValue(b: nat)
    requires b < 8
    ensures Mask(b) == if b == 0 then 1 else if b == 1 then 2 else if b == 2 then 4 else if b == 3 then 8
                       else if b == 4 then 16 else if b == 5 then 32 else if b == 6 then 64 else 128
  {
    if b > 0 {
      MaskValue(b - 1);
    }
  }

  /** Two masks share a bit exactly when they are the same mask. */
  lemma MaskDisjoint(k: nat, b: nat)
    requires k < 8 && b < 8
    ensures Mask(k) & Mask(b) != 0 <==> k == b
    ensures Mask(k) != 0
  {
    MaskValue(k);
    MaskValue(b);
  }

  // ---------------------------------------------------------------------------
  // test_inputs_encode

  /** Byte j depends only on the chunk of its eight inputs. */
  lemma {:induction false} PackBitsChunk(r: seq<bv8>, j: nat, n: nat)
    requires n <= 8 && 8 * j + 8 <= |r|
    ensures PackBits(r, j, n) == PackBits(r[8 * j .. 8 * j + 8], 0, n)
  {
    if n > 0 {
      PackBitsChunk(r, j, n - 1);
    }
  }

  /** A byte whose chunk of inputs is c is the packing of c. */
  lemma InputsByte(r: seq<bv8>, j: nat, c: seq<bv8>, v: bv8)
    requires 8 * j + 8 <= I <= |r| && r[8 * j .. 8 * j + 8] == c
    requires |c| == 8 && PackBits(c, 0, 8) == v
    ensures InputsBytes(r)[j] == v
  {
    PackBitsChunk(r, j, 8);
  }

  /** Bytes 0 .. 1 of test_inputs_encode. */
  lemma InputsPair0(r: seq<bv8>)
    requires |r| >= I
    requires r[0 .. 8] == [1, 0, 0, 0, 1, 0, 0, 1]
    requires r[8 .. 16] == [0xFF, 0xFF, 0xFF, 0, 0, 0xFF, 0, 1]
    ensures InputsBytes(r)[0] == 145 && InputsBytes(r)[1] == 255
  {
    InputsByte(r, 0, [1, 0, 0, 0, 1, 0, 0, 1], 145);
    InputsByte(r, 1, [0xFF, 0xFF, 0xFF, 0, 0, 0xFF, 0, 1], 255);
  }

  /** Bytes 2 .. 3 of test_inputs_encode. */
  lemma InputsPair1(r: seq<bv8>)
    requires |r| >= I
    requires r[16 .. 24] == [0xFF, 1, 0xFF, 0xFF, 1, 1, 1, 0xFF]
    requires r[24 .. 32] == [0xFF, 0xFF, 0xFF, 0, 1, 1, 1, 0xFF]
    ensures InputsBytes(r)[2] == 255 && InputsBytes(r)[3] == 255
  {
    InputsByte(r, 2, [0xFF, 1, 0xFF, 0xFF, 1, 1, 1, 0xFF], 255);
    InputsByte(r, 3, [0xFF, 0xFF, 0xFF, 0, 1, 1, 1, 0xFF], 255);
  }

  /** Bytes 4 .. 5 of test_inputs_encode. */
  lemma InputsPair2(r: seq<bv8>)
    requires |r| >= I
    requires r[32 .. 40] == [0xFF, 1, 1, 0, 0, 0xFF, 0xFF, 1]
    requires r[40 .. 48] == [0xFF, 0, 0xFF, 0xFF, 0xFF, 1, 0, 0]
    ensures InputsBytes(r)[4] == 255 && InputsBytes(r)[5] == 255
  {
    InputsByte(r, 4, [0xFF, 1, 1, 0, 0, 0xFF, 0xFF, 1], 255);
    InputsByte(r, 5, [0xFF, 0, 0xFF, 0xFF, 0xFF, 1, 0, 0], 255);
  }

  /** Bytes 6 .. 7 of test_inputs_encode. */
  lemma InputsPair3(r: seq<bv8>)
    requires |r| >= I
    requires r[48 .. 56] == [1, 0, 0, 0xFF, 1, 0xFF, 0, 1]
    requires r[56 .. 64] == [0xFF, 0, 0, 0xFF, 1, 0, 1, 0xFF]
    ensures InputsBytes(r)[6] == 249 && InputsBytes(r)[7] == 255
  {
    InputsByte(r, 6, [1, 0, 0, 0xFF, 1, 0xFF, 0, 1], 249);
    InputsByte(r, 7, [0xFF, 0, 0, 0xFF, 1, 0, 1, 0xFF], 255);
  }

  /** Bytes 8 .. 9 of test_inputs_encode. */
  lemma InputsPair4(r: seq<bv8>)
    requires |r| >= I
    requires r[64 .. 72] == [1, 1, 0, 0, 1, 0xFF, 1, 0]
    requires r[72 .. 80] == [0, 0xFF, 0, 1, 0xFF, 1, 0, 0]
    ensures InputsBytes(r)[8] == 243 && InputsBytes(r)[9] == 254
  {
    InputsByte(r, 8, [1, 1, 0, 0, 1, 0xFF, 1, 0], 243);
    InputsByte(r, 9, [0, 0xFF, 0, 1, 0xFF, 1, 0, 0], 254);
  }

  /** Bytes 10 .. 11 of test_inputs_encode. */
  lemma InputsPair5(r: seq<bv8>)
    requires |r| >= I
    requires r[80 .. 88] == [0xFF, 0, 0, 0, 0, 0xFF, 0xFF, 1]
    requires r[88 .. 96] == [1, 0, 0, 1, 0xFF, 0, 0xFF, 0]
    ensures InputsBytes(r)[10] == 255 && InputsBytes(r)[11] == 249
  {
    InputsByte(r, 10, [0xFF, 0, 0, 0, 0, 0xFF, 0xFF, 1], 255);
    InputsByte(r, 11, [1, 0, 0, 1, 0xFF, 0, 0xFF, 0], 249);
  }

  /** Bytes 12 .. 13 of test_inputs_encode. */
  lemma InputsPair6(r: seq<bv8>)
    requires |r| >= I
    requires r[96 .. 104] == [0, 0, 1, 1, 1, 0, 0xFF, 0]
    requires r[104 .. 112] == [0xFF, 0, 0xFF, 0xFF, 0, 0xFF, 1, 1]
    ensures InputsBytes(r)[12] == 220 && InputsBytes(r)[13] == 255
  {
    InputsByte(r, 12, [0, 0, 1, 1, 1, 0, 0xFF, 0], 220);
    InputsByte(r, 13, [0xFF, 0, 0xFF, 0xFF, 0, 0xFF, 1, 1], 255);
  }

  /** Bytes 14 .. 15 of test_inputs_encode. */
  lemma InputsPair7(r: seq<bv8>)
    requires |r| >= I
    requires r[112 .. 120] == [1, 1, 0xFF, 0, 0, 0, 0xFF, 0xFF]
    requires r[120 .. 128] == [0, 0, 0, 0, 0, 0xFF, 0xFF, 1]
    ensures InputsBytes(r)[14] == 255 && InputsBytes(r)[15] == 224
  {
    InputsByte(r, 14, [1, 1, 0xFF, 0, 0, 0, 0xFF, 0xFF], 255);
    InputsByte(r, 15, [0, 0, 0, 0, 0, 0xFF, 0xFF, 1], 224);
  }

  /** Bytes 16 .. 17 of test_inputs_encode. */
  lemma InputsPair8(r: seq<bv8>)
    requires |r| >= I
    requires r[128 .. 136] == [0xFF, 0, 0, 0, 0xFF, 0xFF, 0, 1]
    requires r[136 .. 144] == [1, 1, 1, 1, 0, 0, 0, 1]
    ensures InputsBytes(r)[16] == 255 && InputsBytes(r)[17] == 143
  {
    InputsByte(r, 16, [0xFF, 0, 0, 0, 0xFF, 0xFF, 0, 1], 255);
    InputsByte(r, 17, [1, 1, 1, 1, 0, 0, 0, 1], 143);
  }

  /** Bytes 18 .. 19 of test_inputs_encode. */
  lemma InputsPair9(r: seq<bv8>)
    requires |r| >= I
    requires r[144 .. 152] == [0, 0, 0xFF, 0xFF, 0xFF, 0xFF, 1, 0xFF]
    requires r[152 .. 160] == [0, 0xFF, 1, 0xFF, 0xFF, 0, 1, 0xFF]
    ensures InputsBytes(r)[18] == 252 && InputsBytes(r)[19] == 254
  {
    InputsByte(r, 18, [0, 0, 0xFF, 0xFF, 0xFF, 0xFF, 1, 0xFF], 252);
    InputsByte(r, 19, [0, 0xFF, 1, 0xFF, 0xFF, 0, 1, 0xFF], 254);
  }

  /** Bytes 20 .. 21 of test_inputs_encode. */
  lemma InputsPair10(r: seq<bv8>)
    requires |r| >= I
    requires r[160 .. 168] == [0, 1, 0xFF, 0xFF, 1, 0, 0, 1]
    requires r[168 .. 176] == [1, 1, 1, 0xFF, 1, 1, 0, 0]
    ensures InputsBytes(r)[20] == 254 && InputsBytes(r)[21] == 255
  {
    InputsByte(r, 20, [0, 1, 0xFF, 0xFF, 1, 0, 0, 1], 254);
    InputsByte(r, 21, [1, 1, 1, 0xFF, 1, 1, 0, 0], 255);
  }

  /** Bytes 22 .. 23 of test_inputs_encode. */
  lemma InputsPair11(r: seq<bv8>)
    requires |r| >= I
    requires r[176 .. 184] == [1, 0, 1, 0, 0, 1, 0xFF, 0]
    requires r[184 .. 192] == [0xFF, 0xFF, 0, 0, 1, 1, 1, 0]
    ensures InputsBytes(r)[22] == 229 && InputsBytes(r)[23] == 255
  {
    InputsByte(r, 22, [1, 0, 1, 0, 0, 1, 0xFF, 0], 229);
    InputsByte(r, 23, [0xFF, 0xFF, 0, 0, 1, 1, 1, 0], 255);
  }

  /** Bytes 24 .. 25 of test_inputs_encode. */
  lemma InputsPair12(r: seq<bv8>)
    requires |r| >= I
    requires r[192 .. 200] == [0, 1, 1, 1, 1, 0, 1, 0]
    requires r[200 .. 208] == [0, 0xFF, 1, 0xFF, 1, 0xFF, 1, 0xFF]
    ensures InputsBytes(r)[24] == 94 && InputsBytes(r)[25] == 254
  {
    InputsByte(r, 24, [0, 1, 1, 1, 1, 0, 1, 0], 94);
    InputsByte(r, 25, [0, 0xFF, 1, 0xFF, 1, 0xFF, 1, 0xFF], 254);
  }

  /** Bytes 26 .. 27 of test_inputs_encode. */
  lemma InputsPair13(r: seq<bv8>)
    requires |r| >= I
    requires r[208 .. 216] == [1, 0, 1, 1, 0, 0xFF, 1, 0xFF]
    requires r[216 .. 224] == [1, 0, 0xFF, 0, 0, 1, 1, 0xFF]
    ensures InputsBytes(r)[26] == 237 && InputsBytes(r)[27] == 253
  {
    InputsByte(r, 26, [1, 0, 1, 1, 0, 0xFF, 1, 0xFF], 237);
    InputsByte(r, 27, [1, 0, 0xFF, 0, 0, 1, 1, 0xFF], 253);
  }

  /** Bytes 28 .. 29 of test_inputs_encode. */
  lemma InputsPair14(r: seq<bv8>)
    requires |r| >= I
    requires r[224 .. 232] == [0xFF, 0, 1, 0xFF, 0xFF, 0, 1, 0xFF]
    requires r[232 .. 240] == [0, 0xFF, 0, 0xFF, 0xFF, 0, 0xFF, 1]
    ensures InputsBytes(r)[28] == 255 && InputsBytes(r)[29] == 254
  {
    InputsByte(r, 28, [0xFF, 0, 1, 0xFF, 0xFF, 0, 1, 0xFF], 255);
    InputsByte(r, 29, [0, 0xFF, 0, 0xFF, 0xFF, 0, 0xFF, 1], 254);
  }

  /** Bytes 30 .. 31 of test_inputs_encode. */
  lemma InputsPair15(r: seq<bv8>)
    requires |r| >= I
    requires r[240 .. 248] == [1, 0xFF, 1, 0, 1, 1, 1, 1]
    requires r[248 .. 256] == [0, 0, 0xFF, 1, 0xFF, 1, 1, 1]
    ensures InputsBytes(r)[30] == 255 && InputsBytes(r)[31] == 252
  {
    InputsByte(r, 30, [1, 0xFF, 1, 0, 1, 1, 1, 1], 255);
    InputsByte(r, 31, [0, 0, 0xFF, 1, 0xFF, 1, 1, 1], 252);
  }

  /** Bytes 0 .. 7 of test_inputs_encode. */
  lemma InputsRow0(r: seq<bv8>)
    requires |r| >= I
    requires r[0 .. 8] == [1, 0, 0, 0, 1, 0, 0, 1]
    requires r[8 .. 16] == [0xFF, 0xFF, 0xFF, 0, 0, 0xFF, 0, 1]
    requires r[16 .. 24] == [0xFF, 1, 0xFF, 0xFF, 1, 1, 1, 0xFF]
    requires r[24 .. 32] == [0xFF, 0xFF, 0xFF, 0, 1, 1, 1, 0xFF]
    requires r[32 .. 40] == [0xFF, 1, 1, 0, 0, 0xFF, 0xFF, 1]
    requires r[40 .. 48] == [0xFF, 0, 0xFF, 0xFF, 0xFF, 1, 0, 0]
    requires r[48 .. 56] == [1, 0, 0, 0xFF, 1, 0xFF, 0, 1]
    requires r[56 .. 64] == [0xFF, 0, 0, 0xFF, 1, 0, 1, 0xFF]
    ensures InputsBytes(r)[0 .. 8] == [145, 255, 255, 255, 255, 255, 249, 255]
  {
    InputsPair0(r);
    InputsPair1(r);
    InputsPair2(r);
    InputsPair3(r);
  }

  /** Bytes 8 .. 15 of test_inputs_encode. */
  lemma InputsRow1(r: seq<bv8>)
    requires |r| >= I
    requires r[64 .. 72] == [1, 1, 0, 0, 1, 0xFF, 1, 0]
    requires r[72 .. 80] == [0, 0xFF, 0, 1, 0xFF, 1, 0, 0]
    requires r[80 .. 88] == [0xFF, 0, 0, 0, 0, 0xFF, 0xFF, 1]
    requires r[88 .. 96] == [1, 0, 0, 1, 0xFF, 0, 0xFF, 0]
    requires r[96 .. 104] == [0, 0, 1, 1, 1, 0, 0xFF, 0]
    requires r[104 .. 112] == [0xFF, 0, 0xFF, 0xFF, 0, 0xFF, 1, 1]
    requires r[112 .. 120] == [1, 1, 0xFF, 0, 0, 0, 0xFF, 0xFF]
    requires r[120 .. 128] == [0, 0, 0, 0, 0, 0xFF, 0xFF, 1]
    ensures InputsBytes(r)[8 .. 16] == [243, 254, 255, 249, 220, 255, 255, 224]
  {
    InputsPair4(r);
    InputsPair5(r);
    InputsPair6(r);
    InputsPair7(r);
  }

  /** Bytes 16 .. 23 of test_inputs_encode. */
  lemma InputsRow2(r: seq<bv8>)
    requires |r| >= I
    requires r[128 .. 136] == [0xFF, 0, 0, 0, 0xFF, 0xFF, 0, 1]
    requires r[136 .. 144] == [1, 1, 1, 1, 0, 0, 0, 1]
    requires r[144 .. 152] == [0, 0, 0xFF, 0xFF, 0xFF, 0xFF, 1, 0xFF]
    requires r[152 .. 160] == [0, 0xFF, 1, 0xFF, 0xFF, 0, 1, 0xFF]
    requires r[160 .. 168] == [0, 1, 0xFF, 0xFF, 1, 0, 0, 1]
    requires r[168 .. 176] == [1, 1, 1, 0xFF, 1, 1, 0, 0]
    requires r[176 .. 184] == [1, 0, 1, 0, 0, 1, 0xFF, 0]
    requires r[184 .. 192] == [0xFF, 0xFF, 0, 0, 1, 1, 1, 0]
    ensures InputsBytes(r)[16 .. 24] == [255, 143, 252, 254, 254, 255, 229, 255]
  {
    InputsPair8(r);
    InputsPair9(r);
    InputsPair10(r);
    InputsPair11(r);
  }

  /** Bytes 24 .. 31 of test_inputs_encode. */
  lemma InputsRow3(r: seq<bv8>)
    requires |r| >= I
    requires r[192 .. 200] == [0, 1, 1, 1, 1, 0, 1, 0]
    requires r[200 .. 208] == [0, 0xFF, 1, 0xFF, 1, 0xFF, 1, 0xFF]
    requires r[208 .. 216] == [1, 0, 1, 1, 0, 0xFF, 1, 0xFF]
    requires r[216 .. 224] == [1, 0, 0xFF, 0, 0, 1, 1, 0xFF]
    requires r[224 .. 232] == [0xFF, 0, 1, 0xFF, 0xFF, 0, 1, 0xFF]
    requires r[232 .. 240] == [0, 0xFF, 0, 0xFF, 0xFF, 0, 0xFF, 1]
    requires r[240 .. 248] == [1, 0xFF, 1, 0, 1, 1, 1, 1]
    requires r[248 .. 256] == [0, 0, 0xFF, 1, 0xFF, 1, 1, 1]
    ensures InputsBytes(r)[24 .. 32] == [94, 254, 237, 253, 255, 254, 255, 252]
  {
    InputsPair12(r);
    InputsPair13(r);
    InputsPair14(r);
    InputsPair15(r);
  }

  /**
    test_inputs_encode: the first I entries of the test's ternary vector,
    eight at a time with -1 written as its pattern 0xFF, encode to the
    expected INPUTS_BYTES bytes, eight at a time; an entry -1 sets every
    bit from its own position upward.
   */
  lemma InputsVector(r: seq<bv8>)
    requires |r| == P
    requires r[0 .. 8] == [1, 0, 0, 0, 1, 0, 0, 1]
    requires r[8 .. 16] == [0xFF, 0xFF, 0xFF, 0, 0, 0xFF, 0, 1]
    requires r[16 .. 24] == [0xFF, 1, 0xFF, 0xFF, 1, 1, 1, 0xFF]
    requires r[24 .. 32] == [0xFF, 0xFF, 0xFF, 0, 1, 1, 1, 0xFF]
    requires r[32 .. 40] == [0xFF, 1, 1, 0, 0, 0xFF, 0xFF, 1]
    requires r[40 .. 48] == [0xFF, 0, 0xFF, 0xFF, 0xFF, 1, 0, 0]
    requires r[48 .. 56] == [1, 0, 0, 0xFF, 1, 0xFF, 0, 1]
    requires r[56 .. 64] == [0xFF, 0, 0, 0xFF, 1, 0, 1, 0xFF]
    requires r[64 .. 72] == [1, 1, 0, 0, 1, 0xFF, 1, 0]
    requires r[72 .. 80] == [0, 0xFF, 0, 1, 0xFF, 1, 0, 0]
    requires r[80 .. 88] == [0xFF, 0, 0, 0, 0, 0xFF, 0xFF, 1]
    requires r[88 .. 96] == [1, 0, 0, 1, 0xFF, 0, 0xFF, 0]
    requires r[96 .. 104] == [0, 0, 1, 1, 1, 0, 0xFF, 0]
    requires r[104 .. 112] == [0xFF, 0, 0xFF, 0xFF, 0, 0xFF, 1, 1]
    requires r[112 .. 120] == [1, 1, 0xFF, 0, 0, 0, 0xFF, 0xFF]
    requires r[120 .. 128] == [0, 0, 0, 0, 0, 0xFF, 0xFF, 1]
    requires r[128 .. 136] == [0xFF, 0, 0, 0, 0xFF, 0xFF, 0, 1]
    requires r[136 .. 144] == [1, 1, 1, 1, 0, 0, 0, 1]
    requires r[144 .. 152] == [0, 0, 0xFF, 0xFF, 0xFF, 0xFF, 1, 0xFF]
    requires r[152 .. 160] == [0, 0xFF, 1, 0xFF, 0xFF, 0, 1, 0xFF]
    requires r[160 .. 168] == [0, 1, 0xFF, 0xFF, 1, 0, 0, 1]
    requires r[168 .. 176] == [1, 1, 1, 0xFF, 1, 1, 0, 0]
    requires r[176 .. 184] == [1, 0, 1, 0, 0, 1, 0xFF, 0]
    requires r[184 .. 192] == [0xFF, 0xFF, 0, 0, 1, 1, 1, 0]
    requires r[192 .. 200] == [0, 1, 1, 1, 1, 0, 1, 0]
    requires r[200 .. 208] == [0, 0xFF, 1, 0xFF, 1, 0xFF, 1, 0xFF]
    requires r[208 .. 216] == [1, 0, 1, 1, 0, 0xFF, 1, 0xFF]
    requires r[216 .. 224] == [1, 0, 0xFF, 0, 0, 1, 1, 0xFF]
    requires r[224 .. 232] == [0xFF, 0, 1, 0xFF, 0xFF, 0, 1, 0xFF]
    requires r[232 .. 240] == [0, 0xFF, 0, 0xFF, 0xFF, 0, 0xFF, 1]
    requires r[240 .. 248] == [1, 0xFF, 1, 0, 1, 1, 1, 1]
    requires r[248 .. 256] == [0, 0, 0xFF, 1, 0xFF, 1, 1, 1]
    ensures InputsBytes(r)[0 .. 8] == [145, 255, 255, 255, 255, 255, 249, 255]
    ensures InputsBytes(r)[8 .. 16] == [243, 254, 255, 249, 220, 255, 255, 224]
    ensures InputsBytes(r)[16 .. 24] == [255, 143, 252, 254, 254, 255, 229, 255]
    ensures InputsBytes(r)[24 .. 32] == [94, 254, 237, 253, 255, 254, 255, 252]
  {
    InputsRow0(r);
    InputsRow1(r);
    InputsRow2(r);
    InputsRow3(r);
  }
}
