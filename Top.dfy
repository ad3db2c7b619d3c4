/**
  The `top` rounding map and the nibble codec of src/encode/top.rs: the
  packing of two 4-bit `top` values per byte into a buffer at a fixed
  offset, and its unpacking.  Bytes are integers in [0, 256); i8 values are integers
  in [-128, 128) and every i8/u8 conversion is written out.
 */
module TopCodec {
  import opened Params
  import opened NumberTheory

  // ---------------------------------------------------------------------------
  // top

  /**
    `top(c)`: (TAU1 * (c + TAU0) + 2^14) >> 15 read as i8, the rounding of
    TAU1 * (c + TAU0) / 2^15 to the nearest integer (halves upward).
   */
  function Top(c: int): (r: int)
    requires IsI16(c)
    ensures IsI8(r)
    ensures 32768 * r <= TAU1 * (c + TAU0) + 16384 < 32768 * r + 32768
  {
    WrapI8((TAU1 * (c + TAU0) + 16384) / 32768)
  }

  /** Every centered residue modulo Q is mapped into [0, 15], a nibble. */
  lemma TopNibble(c: int)
    requires -(Q12 as int) <= c <= Q12
    ensures 0 <= Top(c) <= 15
  {
  }

  /** `top` is monotone. */
  lemma TopMonotone(c1: int, c2: int)
    requires IsI16(c1) && IsI16(c2) && c1 <= c2
    ensures Top(c1) <= Top(c2)
  {
    assert TAU1 * (c1 + TAU0) <= TAU1 * (c2 + TAU0);
  }

  /** test_top: the five values of the unit test. */
  lemma TopVectors()
    ensures Top(4325) == 23 && Top(0) == 8 && Top(-30) == 7
    ensures Top(32767) == 121 && Top(-32768) == -106
  {
  }

  // ---------------------------------------------------------------------------
  // top_encode / top_decode

  /** `t[2i] + (t[2i+1] << 4)` in i8: the shift drops the high bits of the upper nibble. */
  function NibbleSum(t: seq<int>, i: int): int
    requires 0 <= i && 2 * i + 1 < |t|
  {
    t[2 * i] + WrapI8(t[2 * i + 1] * 16)
  }

  /** Byte i of the packed top vector: the i8 sum read as u8. */
  function TopByte(t: seq<int>, i: int): (b: int)
    requires 0 <= i && 2 * i + 1 < |t|
    ensures IsU8(b)
    ensures (b - (t[2 * i] + 16 * t[2 * i + 1])) % 256 == 0
    ensures 0 <= t[2 * i] < 16 && 0 <= t[2 * i + 1] < 16 ==> b == t[2 * i] + 16 * t[2 * i + 1]
  {
    var h := t[2 * i + 1] * 16;
    assert (WrapI8(h) + t[2 * i] - (t[2 * i] + h)) % 256 == 0;
    WrapU8(NibbleSum(t, i))
  }

  /** The TOP_BYTES bytes that `top_encode` writes. */
  function TopBytes(t: seq<int>): (s: seq<int>)
    requires |t| == I
    ensures |s| == TOP_BYTES
    ensures forall i :: 0 <= i < TOP_BYTES ==> s[i] == TopByte(t, i)
  {
    seq(TOP_BYTES, i requires 0 <= i < TOP_BYTES => TopByte(t, i))
  }

  /** Entry k of the decoded vector: the low nibble of byte k / 2 for even k, the high one for odd k. */
  function Nibble(s: seq<int>, k: int): (v: int)
    requires 0 <= k && k / 2 < |s| && IsU8(s[k / 2])
    ensures 0 <= v < 16
  {
    if k % 2 == 0 then s[k / 2] % 16 else s[k / 2] / 16
  }

  /** What `top_decode` writes: the I nibbles of the first TOP_BYTES bytes. */
  function DecodedTop(s: seq<int>): (t: seq<int>)
    requires |s| >= TOP_BYTES && forall j :: 0 <= j < |s| ==> IsU8(s[j])
    ensures |t| == I
    ensures forall k :: 0 <= k < I ==> t[k] == Nibble(s, k) && 0 <= t[k] < 16
  {
    seq(I, k requires 0 <= k < I => Nibble(s, k))
  }

  /** Decoding reads only the first TOP_BYTES bytes. */
  lemma DecodedTopPrefix(s: seq<int>)
    requires |s| >= TOP_BYTES && forall j :: 0 <= j < |s| ==> IsU8(s[j])
    ensures DecodedTop(s) == DecodedTop(s[..TOP_BYTES])
  {
    var p := s[..TOP_BYTES];
    forall k | 0 <= k < I
      ensures DecodedTop(s)[k] == DecodedTop(p)[k]
    {
      assert s[k / 2] == p[k / 2];
    }
  }

  /** On a vector over [0, 15] no i8 addition of `top_encode` overflows. */
  lemma NibbleSumsFit(t: seq<int>)
    requires |t| == I && forall k :: 0 <= k < I ==> 0 <= t[k] < 16
    ensures forall i :: 0 <= i < TOP_BYTES ==> IsI8(NibbleSum(t, i))
  {
    forall i | 0 <= i < TOP_BYTES
      ensures IsI8(NibbleSum(t, i))
    {
      var lo, hi := t[2 * i], t[2 * i + 1];
      assert NibbleSum(t, i) == lo + WrapI8(hi * 16);
      if hi < 8 {
        assert WrapI8(hi * 16) == hi * 16;
      } else {
        assert WrapI8(hi * 16) == hi * 16 - 256;
      }
    }
  }

  /**
    `top_encode::<SIZE, START>`: writes the packed bytes at
    s[START .. START + TOP_BYTES] and nothing else.  Every i8 addition of
    the source must not overflow.
   */
  method TopEncode(s: array<int>, t: seq<int>, start: nat)
    requires |t| == I && start + TOP_BYTES <= s.Length
    requires forall i :: 0 <= i < TOP_BYTES ==> IsI8(NibbleSum(t, i))
    modifies s
    ensures s[..] == old(s[..start]) + TopBytes(t) + old(s[start + TOP_BYTES..])
  {
    for i := 0 to TOP_BYTES
      invariant forall j :: 0 <= j < s.Length ==>
                  s[j] == if start <= j < start + i then TopByte(t, j - start) else old(s[j])
    {
      var v := t[2 * i] + WrapI8(t[2 * i + 1] * 16);
      s[i + start] := WrapU8(v);
    }
    assert s[..] == old(s[..start]) + TopBytes(t) + old(s[start + TOP_BYTES..]);
  }

  /** `top_decode`: unpacks the first TOP_BYTES bytes of s (always from offset 0) into t. */
  method TopDecode(t: array<int>, s: seq<int>)
    requires t.Length == I && |s| >= TOP_BYTES && forall j :: 0 <= j < |s| ==> IsU8(s[j])
    modifies t
    ensures t[..] == DecodedTop(s)
  {
    for i := 0 to TOP_BYTES
      invariant forall k :: 0 <= k < 2 * i ==> t[k] == Nibble(s, k)
    {
      t[2 * i] := s[i] % 16;
      t[2 * i + 1] := s[i] / 16;
    }
  }

  /** Nibbles round-trip: decoding the packed bytes of a vector over [0, 15] gives it back. */
  lemma TopRoundTrip(t: seq<int>)
    requires |t| == I && forall k :: 0 <= k < I ==> 0 <= t[k] < 16
    ensures DecodedTop(TopBytes(t)) == t
  {
    var s := TopBytes(t);
    forall k | 0 <= k < I
      ensures DecodedTop(s)[k] == t[k]
    {
      var i := k / 2;
      assert s[i] == t[2 * i] + 16 * t[2 * i + 1];
      NibbleSplit(t[2 * i], t[2 * i + 1]);
    }
  }

  lemma NibbleSplit(lo: int, hi: int)
    requires 0 <= lo < 16 && 0 <= hi < 16
    ensures (lo + 16 * hi) % 16 == lo && (lo + 16 * hi) / 16 == hi
  {
  }

  /** Bytes round-trip: packing the nibbles of any TOP_BYTES bytes gives them back. */
  lemma TopBytesRoundTrip(s: seq<int>)
    requires |s| == TOP_BYTES && forall j :: 0 <= j < |s| ==> IsU8(s[j])
    ensures TopBytes(DecodedTop(s)) == s
  {
    var t := DecodedTop(s);
    forall i | 0 <= i < TOP_BYTES
      ensures TopBytes(t)[i] == s[i]
    {
      assert t[2 * i] == s[i] % 16 && t[2 * i + 1] == s[i] / 16;
    }
  }

  /**
    What comes back in general: entry 2i comes back as t[2i] mod 16 and
    entry 2i + 1 as t[2i + 1] plus the borrow t[2i] / 16 (floor), mod 16.
    So vectors over [0, 15] round-trip and negative entries do not.
   */
  lemma TopDecodeEncode(t: seq<int>)
    requires |t| == I
    ensures forall i :: 0 <= i < TOP_BYTES ==>
              DecodedTop(TopBytes(t))[2 * i] == t[2 * i] % 16 &&
              DecodedTop(TopBytes(t))[2 * i + 1] == (t[2 * i + 1] + t[2 * i] / 16) % 16
  {
    var s := TopBytes(t);
    forall i | 0 <= i < TOP_BYTES
      ensures DecodedTop(s)[2 * i] == t[2 * i] % 16
      ensures DecodedTop(s)[2 * i + 1] == (t[2 * i + 1] + t[2 * i] / 16) % 16
    {
      ByteNibbles(s[i], t[2 * i], t[2 * i + 1]);
      assert DecodedTop(s)[2 * i] == s[i] % 16;
      assert DecodedTop(s)[2 * i + 1] == s[i] / 16;
    }
  }

  /** The nibbles of a byte congruent to lo + 16 hi modulo 256. */
  lemma ByteNibbles(b: int, lo: int, hi: int)
    requires 0 <= b < 256 && (b - (lo + 16 * hi)) % 256 == 0
    ensures b % 16 == lo % 16 && b / 16 == (hi + lo / 16) % 16
  {
    var m := (b - (lo + 16 * hi)) / 256;
    ZeroModWitness(b - (lo + 16 * hi), 256);
    var r, q := lo % 16, lo / 16;
    var h := hi + q + 16 * m;
    assert b == r + 16 * h;
    DivSixteen(b, h, r);
    DivSixteen(hi + q, -m, h);
  }

  /** Division by 16 is determined by quotient and remainder. */
  lemma DivSixteen(x: int, q: int, r: int)
    requires x == 16 * q + r && 0 <= r < 16
    ensures x / 16 == q && x % 16 == r
  {
  }

  /** Negative entries do not round-trip: the pair (-1, 0) comes back as (15, 15). */
  lemma TopNegativePair(t: seq<int>)
    requires |t| == I && t[0] == -1 && t[1] == 0
    ensures TopBytes(t)[0] == 255
    ensures DecodedTop(TopBytes(t))[0] == 15 && DecodedTop(TopBytes(t))[1] == 15
  {
  }

  /**
    test_top_encode as a composition: encoding into a PUBLICKEYS_BYTES
    buffer at offset 0 and decoding, whatever the buffer held, gives entry
    2i back as t[2i] mod 16 and entry 2i + 1 as (t[2i + 1] + t[2i] / 16)
    mod 16.  On the ternary vector of the test this is where its 15s and
    14s come from (TernaryPair).
   */
  method TopCodecRoundTrip(t: seq<int>, buffer: seq<int>) returns (back: seq<int>)
    requires |t| == I && forall i :: 0 <= i < TOP_BYTES ==> IsI8(NibbleSum(t, i))
    requires |buffer| == PUBLICKEYS_BYTES && forall j :: 0 <= j < |buffer| ==> IsU8(buffer[j])
    ensures |back| == I
    ensures forall i :: 0 <= i < TOP_BYTES ==>
              back[2 * i] == t[2 * i] % 16 && back[2 * i + 1] == (t[2 * i + 1] + t[2 * i] / 16) % 16
  {
    var s := new int[PUBLICKEYS_BYTES](j requires 0 <= j < PUBLICKEYS_BYTES => buffer[j]);
    TopEncode(s, t, 0);
    var decoded := new int[I];
    assert s[..][..TOP_BYTES] == TopBytes(t);
    TopDecode(decoded, s[..]);
    DecodedTopPrefix(s[..]);
    TopDecodeEncode(t);
    back := decoded[..];
  }

  /** A ternary vector (the entries `lpr_encrypt` never produces, but the test encodes) never overflows the i8 sum. */
  lemma TernarySumsFit(t: seq<int>)
    requires |t| == I && forall k :: 0 <= k < I ==> -1 <= t[k] <= 1
    ensures forall i :: 0 <= i < TOP_BYTES ==> IsI8(NibbleSum(t, i))
  {
    forall i | 0 <= i < TOP_BYTES
      ensures IsI8(NibbleSum(t, i))
    {
      var hi := t[2 * i + 1];
      assert WrapI8(hi * 16) == hi * 16;
    }
  }

  /**
    What one ternary pair (lo, hi) comes back as: lo = -1 gives 15 and
    borrows one from hi, so (-1, -1) gives (15, 14), (-1, 0) gives (15, 15)
    and (-1, 1) gives (15, 0); 1 gives (1, hi mod 16) and 0 gives (0, hi mod 16).
   */
  lemma TernaryPair(lo: int, hi: int)
    requires -1 <= lo <= 1 && -1 <= hi <= 1
    ensures lo % 16 == if lo == -1 then 15 else lo
    ensures (hi + lo / 16) % 16 == if lo == -1 then (if hi == -1 then 14 else if hi == 0 then 15 else 0)
                                   else (if hi == -1 then 15 else hi)
  {
  }
}
