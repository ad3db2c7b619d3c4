# ntrulpr761 integer core in Dafny

This project models the integer-arithmetic core of an NTRU LPRime
implementation for the parameter set ntrulpr761. NTRU LPRime is the LPR
variant of the NTRU Prime key-encapsulation submission. The parameters
are P = 761, Q = 4591, W = 250, I = 256, TAU0 = 2156 and TAU1 = 114.

The model covers six parts of the source:

- **Scalar reduction modulo Q** (`src/poly/fq.rs`). `freeze` gives the centered residue in [-2295, 2295]. `recip` computes a^(Q-2) by Q-3 frozen multiplications. By Fermat's little theorem this is the inverse modulo the prime 4591. `freeze` also agrees with the Barrett-style reference in the unit test.
- **Fixed-size R3 multiplier** (`src/poly/v2.rs`). `PolyInt::mult_poly` is a schoolbook convolution with a mod-3 `freeze` after every multiply-add. A descending loop then folds the high degrees back using x^n = x + 1. The model is a class over an `array`. The result is proved to be a vector over {-1, 0, 1} congruent modulo 3 to the product in Z[x]/(x^n - x - 1).
- **Vec-based polynomial toolkit** (`src/poly/mod.rs`). This part covers:
  - coefficient-wise `rem_euclid`, add, sub and scale;
  - plain convolution;
  - `div_x`, proved to be multiplication by x⁻¹ in Z_m[x]/(x^n - x - 1);
  - `create_factor_ring`, which returns only self modulo m;
  - `newton_inversion`, proved to give a truncated power-series inverse when a[0] = ±1.

  The model is a class whose `seq` field the methods reassign.
- **NtruIntPoly helpers** (`src/poly/poly.rs`). This part covers:
  - the one-pass product modulo x^n - x - 1 and modulo m;
  - the extended Euclidean inverse of a residue;
  - the degree;
  - the zero test, which sums the coefficients (see Findings).
- **Top and Inputs codecs** (`src/encode/top.rs`). This part covers:
  - the fixed-point rounding `top`;
  - the nibble packing `top_encode`/`top_decode`, with its round trip and its behaviour on negative entries;
  - the bit packing `inputs_encode`, with its unit-test vector.
- **LPR glue** (`src/ntru/cipher.rs`). This part covers:
  - the branch-free weight correction of `rq_decrypt`, worked out on 8- and 16-bit vectors;
  - the top vector of `lpr_encrypt`;
  - `r3_encrypt`;
  - error propagation in `x_encrypt`;
  - the ciphertext layout of `z_encrypt`.

Modules follow the source files. They are:

| module | contents |
|---|---|
| `Params` | constants and integer widths |
| `NumberTheory` | powers, binomials, the primality of 4591, Fermat's little theorem |
| `PolyAlgebra` | convolution, and the reduction modulo x^n - x - 1 that every product is specified against |
| `Fq` | `fq.rs` |
| `PolyV2` | `v2.rs` |
| `Poly` | `mod.rs` |
| `DivXVector` | the 1475-step `div_x` test vector of `mod.rs` |
| `NtruPoly` | `poly.rs` |
| `TopCodec` and `Inputs` | `top.rs` |
| `Cipher` | `cipher.rs` |

Integers are unbounded. Each fixed-width operation the source relies on is written out:

- wrapping to i8 or u8;
- the i16 sum in `equals_zero`;
- the `^`/`&`/`!` lane arithmetic of `rq_decrypt`, on `bv8`/`bv16`;
- the bytes of `inputs_encode`, as `bv8`.

Where the source would overflow or panic, a precondition keeps the inputs in range instead, except where "## Left out" names a member whose arithmetic is left unbounded.

The Rust `>>` on signed values is floor division. This is the same as Dafny's `/` by a power of two.

## Model

| member | source | states |
|---|---|---|
| Params.ParamsConsistent | src/ntru/cipher.rs:8-11 | Q = 2·Q12 + 1; I = 2·TOP_BYTES = 8·INPUTS_BYTES; the public key is seed plus rounded bytes; the ciphertext is rounded plus top bytes; W ≤ I ≤ P |
| Fq.I32ModU14 | src/poly/fq.rs:17 | the residue used by `freeze` lies in [0, m) and is congruent to its argument |
| Fq.Freeze | src/poly/fq.rs:16-20 | `freeze(x)` is in [-Q12, Q12] and congruent to x modulo Q |
| Fq.FreezeUnique | src/poly/fq.rs:16-20 | any centered residue of x is `freeze(x)`: the result is unique |
| Fq.FreezeCentered | src/poly/fq.rs:16-20 | `freeze(x) == x` on [-Q12, Q12] |
| Fq.FreezeNeg | src/poly/fq.rs:16-20 | `freeze(-x) == -freeze(x)` |
| Fq.FreezeEq | src/poly/fq.rs:16-20 | `freeze(x) == freeze(y)` iff x ≡ y (mod Q) |
| Fq.BarrettFreeze | src/poly/fq.rs:57-74 | the two-step Barrett reference of the unit test equals `freeze` on every i16 |
| Fq.BarrettBounds | src/poly/fq.rs:57-65 | the Barrett reference gives a centered residue for every i16 |
| Fq.ProductI32 | src/poly/fq.rs:27 | the product of two i16 values fits in i32, so `recip`'s multiplication cannot overflow |
| Fq.Recip | src/poly/fq.rs:22-32 | after Q-3 frozen multiplications, `recip(a)` is the centered residue of a^(Q-2) |
| Fq.RecipOdd | src/poly/fq.rs:77-81 | `recip(-a) == -recip(a)` |
| Fq.RecipInverse | src/poly/fq.rs:22-32 | for a ≢ 0 (mod Q), `freeze(a · recip(a)) == 1` |
| NumberTheory.Prime4591 | src/poly/fq.rs:22-32 | Q = 4591 is prime |
| NumberTheory.PrimeDividesBinom | src/poly/fq.rs:22-32 | a prime p divides C(p, k) for 0 < k < p |
| NumberTheory.FreshmansDream | src/poly/fq.rs:22-32 | (x + 1)^p ≡ x^p + 1 (mod p) |
| NumberTheory.Fermat | src/poly/fq.rs:22-32 | x^p ≡ x (mod p) for an odd prime p |
| NumberTheory.FermatInverse | src/poly/fq.rs:22-32 | a^(p-1) ≡ 1 (mod p) for a ≢ 0 |
| PolyV2.Freeze3 | src/poly/v2.rs:192-197 | the mod-3 `freeze` returns a value in {-1, 0, 1} congruent to its input modulo 3 |
| PolyV2.Freeze3Bounds | src/poly/v2.rs:193-194 | the first reduction step lands in [-5, 8], and the second step brings it into {-1, 0, 1} |
| PolyV2.Freeze3Fixpoint | src/poly/v2.rs:192-197 | `freeze(v) == v` iff v is in [-1, 1] |
| PolyV2.Plus | src/poly/v2.rs:184-190 | `plus(a, b, c)` is the mod-3 residue in {-1, 0, 1} of a + b·c |
| PolyV2.PolyInt.From | src/poly/v2.rs:14-16 | the coefficients are the given array |
| PolyV2.PolyInt.New | src/poly/v2.rs:18-22 | SIZE zero coefficients |
| PolyV2.PolyInt.EqualsZero | src/poly/v2.rs:46-56 | true iff every coefficient is 0 |
| PolyV2.PolyInt.IsSmall | src/poly/v2.rs:58-62 | true iff every coefficient is in [-1, 1] |
| PolyV2.SmallAndZeroVectors | src/poly/v2.rs:219-245 | `is_small` rejects [0, -1, -2, 2] and accepts [0, -1, -1, 1]; `equals_zero` accepts 716 zeros and rejects them once coefficient 1 is 1 or -1 |
| PolyV2.PolyInt.MultInt | src/poly/v2.rs:131-135 | every coefficient is multiplied by n, with no reduction and the same length |
| PolyV2.MultIntVector | src/poly/v2.rs:248-255 | test_mult_poly_int: 3·[1, -1, 0, -1, 1] = [3, -3, 0, -3, 3] |
| PolyV2.ConvolveRange | src/poly/v2.rs:97-99 | the inner loop's accumulator is a residue modulo 3 of the partial convolution sum |
| PolyV2.Convolve | src/poly/v2.rs:92-112 | `fg` has 2·SIZE-1 entries, each a mod-3 residue of the plain product's coefficient |
| PolyV2.FoldStep | src/poly/v2.rs:115-125 | one fold step adds high coefficient i, modulo 3, into positions i-SIZE and i-SIZE+1 and changes nothing else |
| PolyV2.FoldHigh | src/poly/v2.rs:114-126 | after the descending fold, the low SIZE entries are mod-3 residues of the product reduced modulo x^SIZE - x - 1 |
| PolyV2.FoldedComplete | src/poly/v2.rs:114-126 | folding every high degree from 2·SIZE-2 down to SIZE yields the reduction modulo x^SIZE - x - 1 |
| PolyV2.RingReduceMod3 | src/poly/v2.rs:114-126 | reduction modulo x^SIZE - x - 1 preserves congruence modulo 3 |
| PolyV2.PolyInt.CloneFromSlice | src/poly/v2.rs:128 | self's SIZE coefficients become the first SIZE entries of `fg` |
| PolyV2.PolyInt.MultPoly | src/poly/v2.rs:91-129 | self becomes a vector over {-1, 0, 1} congruent modulo 3 to a·b in Z[x]/(x^SIZE - x - 1), whatever self held before |
| PolyV2.R3IsSmall | src/poly/v2.rs:114-128 | a vector of mod-3 residues is small, so `is_small` holds after `mult_poly` |
| Poly.PolyInt.Empty | src/poly/mod.rs:54-58 | no coefficients |
| Poly.PolyInt.From | src/poly/mod.rs:60-64 | the coefficients are the given slice |
| Poly.PolyInt.FromZero | src/poly/mod.rs:66-71 | n zero coefficients |
| PolyAlgebra.AllSmall | src/poly/mod.rs:73-77 | the `all` fold is true iff every entry is in [-1, 1] |
| Poly.PolyInt.IsSmall | src/poly/mod.rs:73-77 | true iff every coefficient is in [-1, 1] |
| Poly.PolyInt.EqualsZero | src/poly/mod.rs:107-117 | true iff every coefficient is 0; the scan returns false at the first nonzero one |
| Poly.IsSmallVector | src/poly/mod.rs:221-232 | `is_small` rejects [0, -1, -2, 2] and accepts [0, -1, -1, 1] |
| Poly.EqualsZeroVector | src/poly/mod.rs:312-325 | test_is_zeros: `equals_zero` accepts 716 zeros and rejects them once coefficient 1 is 1 or -1 |
| Poly.ModEach | src/poly/mod.rs:80-88 | every entry is in [0, \|m\|) and congruent to the original modulo m, and the length is kept |
| Poly.ModEachFixpoint | src/poly/mod.rs:80-88 | `mod_poly` changes nothing iff every entry is already in [0, \|m\|), and applying it twice equals applying it once |
| Poly.PolyInt.ModPoly | src/poly/mod.rs:80-88 | self becomes its coefficient-wise `rem_euclid(m)`, and the new vector is returned |
| Poly.MulModEach | src/poly/mod.rs:90-94 | every entry is in [0, \|m\|) and congruent to c·f modulo m |
| Poly.PolyInt.MultMod | src/poly/mod.rs:90-94 | self becomes (c·f) `rem_euclid` m at every position |
| Poly.DivXSeq | src/poly/mod.rs:97-105 | b[n-1] = a[0], and b[j] = a[j+1] for 1 ≤ j ≤ n-2 |
| Poly.DivXConstant | src/poly/mod.rs:104 | b[0] = (a[1] - a[0]) mod m in [0, \|m\|); a single coefficient becomes [0] |
| Poly.DivXTimesX | src/poly/mod.rs:96-105 | multiplying `div_x(a)` by x in Z[x]/(x^n - x - 1) gives back a modulo m |
| Poly.DivXTimesXReduced | src/poly/mod.rs:96-105 | for a over [0, \|m\|), `div_x(a)·x` reduced modulo m is exactly a |
| Poly.DivXIterReduced | src/poly/mod.rs:97-105 | repeated `div_x` keeps a vector over [0, \|m\|) in that range |
| Poly.PolyInt.DivX | src/poly/mod.rs:97-105 | self becomes `div_x` of its old coefficients |
| DivXVector.DivXTestVector | src/poly/mod.rs:337-346 | 1475 divisions by x modulo 9829 map the test polynomial to the expected vector |
| Poly.AddPrefix | src/poly/mod.rs:152-158 | entry k is c[k] plus p's entry k, where p counts as 0 past its end; self's length is kept |
| Poly.SubPrefix | src/poly/mod.rs:120-126 | entry k is c[k] minus p's entry k, where p counts as 0 past its end; self's length is kept |
| Poly.AddSubInverse | src/poly/mod.rs:120-158 | `sub_poly` undoes `add_poly` and the reverse |
| Poly.PolyInt.SubPoly | src/poly/mod.rs:120-126 | self becomes the coefficient-wise difference over the common prefix, and it is returned |
| Poly.PolyInt.AddPoly | src/poly/mod.rs:152-158 | self becomes the coefficient-wise sum over the common prefix, and it is returned |
| Poly.Scale | src/poly/mod.rs:128-132 | the length is kept |
| Poly.ScaleIsMul | src/poly/mod.rs:128-132 | `mult_int(n)` equals convolution with the constant polynomial [n] |
| Poly.PolyInt.MultInt | src/poly/mod.rs:128-132 | self becomes every coefficient times n, and it is returned |
| Poly.PolyInt.MultPoly | src/poly/mod.rs:135-149 | self becomes the plain convolution with `poly`: length len(a)+len(b)-1 and r[k] = Σ_{i+j=k} a_i·b_j |
| Poly.PolyInt.CreateFactorRing | src/poly/mod.rs:161-180 | returns self's coefficients `rem_euclid` m and leaves self unchanged; the loop's value is discarded |
| Poly.NewtonRound | src/poly/mod.rs:189-196 | one round keeps inv's length |
| Poly.NewtonStart | src/poly/mod.rs:185-187 | the start 1 / a[0] is exact to one term when a[0] = ±1, and 0 otherwise |
| Poly.NewtonStep | src/poly/mod.rs:189-196 | a round doubles the number of correct leading coefficients of a·inv, up to len(a) |
| Poly.NewtonZero | src/poly/mod.rs:189-196 | a round leaves the zero vector at zero |
| Poly.PolyInt.NewtonInversion | src/poly/mod.rs:182-199 | the output has len(a) coefficients; when a[0] = ±1, the first len(a) coefficients of a·inv are 1, 0, …, 0; otherwise the output is 0 |
| Poly.ModPolyVector | src/poly/mod.rs:235-242 | test_mod_poly |
| Poly.AddPolyVector | src/poly/mod.rs:245-252 | test_poly_add |
| Poly.MultPolyVector | src/poly/mod.rs:255-262 | test_poly_mult: [1, 2, 3]·[2, -1] = [2, 3, 4, -3] |
| Poly.MultIntVector | src/poly/mod.rs:265-271 | test_mult_poly_int |
| Poly.MultModVector | src/poly/mod.rs:328-334 | test_mult_mod |
| Poly.CreateFactorRingVector | src/poly/mod.rs:274-289 | test_create_factor_ring on the ternary vector modulo 4591 |
| Poly.CreateFactorRingWideVector | src/poly/mod.rs:291-300 | test_create_factor_ring on the 64-bit vector |
| NtruPoly.NtruIntPoly.FromZero | src/poly/poly.rs:98-103 | n zero coefficients, and the length field is n |
| NtruPoly.NtruIntPoly.EqualsZero | src/poly/poly.rs:105-109 | the sum test as written: every all-zero vector passes, but nonzero ones may pass too (see Findings) |
| NtruPoly.SumIsZero | src/poly/poly.rs:105-109 | the wrapped i16 sum test accepts every all-zero vector |
| NtruPoly.EqualsZeroAcceptsNonzero | src/poly/poly.rs:105-109 | [1, -1] passes the sum test but is not zero |
| NtruPoly.AllZero | src/poly/poly.rs:105-109 | the intended zero test: true iff every coefficient is 0 |
| NtruPoly.NtruIntPoly.IsZero | src/poly/poly.rs:105-109 | the corrected `equals_zero`: true iff every coefficient is 0 |
| NtruPoly.FromZeroIsZero | src/poly/poly.rs:196-203 | a `from_zero` polynomial passes both zero tests |
| NtruPoly.NtruIntPoly.GetPolyDegree | src/poly/poly.rs:111-119 | returns the highest index below n holding a nonzero coefficient, or 0 if there is none |
| NtruPoly.PolyDegreeVector | src/poly/poly.rs:205-214 | test_get_poly_degre: 0 for the zero polynomial, 730 after setting coefficient n-10 |
| NtruPoly.ConvTerms | src/poly/poly.rs:29-37 | an inner loop sums a[i]·b[k-i] over its index range |
| NtruPoly.FoldedResidue | src/poly/poly.rs:39-47 | the carried wrap term plus ck1 and ck2, reduced modulo m, is coefficient k of a·b modulo x^n - x - 1, modulo m |
| NtruPoly.ResiduesMeet | src/poly/poly.rs:39-47 | two residues in [0, m) of congruent values are equal |
| NtruPoly.MultPolyCoeffs | src/poly/poly.rs:26-48 | every c[k] is in [0, m) and equals (a·b mod x^n - x - 1)[k] mod m |
| NtruPoly.NtruprimeMultPoly | src/poly/poly.rs:11-51 | returns false and leaves c untouched when a.n ≠ b.n; otherwise returns true, sets c.n = n, and c is a·b modulo x^n - x - 1 and modulo m |
| NtruPoly.GcdDivides | src/poly/poly.rs:53-81 | the gcd that decides invertibility divides both arguments |
| NtruPoly.GcdGreatest | src/poly/poly.rs:53-81 | every common divisor divides the gcd |
| NtruPoly.BezoutStep | src/poly/poly.rs:60-74 | a Euclid step keeps the Bézout identities lastx·a0 + lasty·m = a and x·a0 + y·m = b |
| NtruPoly.InvStep | src/poly/poly.rs:60-74 | a Euclid step keeps \|lastx\|·b + \|x\|·a = m with lastx and x of opposite signs, which bounds both Bézout coefficients by m, so they fit in i16 |
| NtruPoly.LiftInverse | src/poly/poly.rs:76-80 | adding m to a negative lastx yields the inverse in [0, m) |
| NtruPoly.NtruprimeInvInt | src/poly/poly.rs:53-81 | when gcd(a, m) = 1, the result is in [0, m) and a·result ≡ 1 (mod m) |
| NtruPoly.InverseUnique | src/poly/poly.rs:53-81 | the inverse in [0, m) is unique |
| NtruPoly.InvIntVector | src/poly/poly.rs:187-194 | 7175⁻¹ mod 9829 = 2885 |
| TopCodec.Top | src/encode/top.rs:29-36 | `top(c)` is the i8 rounding of TAU1·(c + TAU0)/2^15, with halves rounded up |
| TopCodec.TopNibble | src/encode/top.rs:29-36 | `top` maps [-Q12, Q12] into [0, 15] |
| TopCodec.TopMonotone | src/encode/top.rs:29-36 | `top` is monotone |
| TopCodec.TopVectors | src/encode/top.rs:97-103 | test_top: the values 23, 8, 7, 121 and -106 |
| TopCodec.TopByte | src/encode/top.rs:16-18 | the byte is ≡ t[2i] + 16·t[2i+1] (mod 256), and equals it when both are in [0, 15] |
| TopCodec.TopBytes | src/encode/top.rs:14-20 | the TOP_BYTES packed bytes |
| TopCodec.NibbleSumsFit | src/encode/top.rs:16 | on vectors over [0, 15], no i8 addition of `top_encode` overflows |
| TopCodec.TopEncode | src/encode/top.rs:14-20 | writes the packed bytes at s[START .. START+TOP_BYTES) and leaves every other byte unchanged |
| TopCodec.Nibble | src/encode/top.rs:24-25 | the low nibble for even k and the high nibble for odd k, in [0, 16) |
| TopCodec.DecodedTop | src/encode/top.rs:22-27 | I nibbles, read from offset 0 |
| TopCodec.DecodedTopPrefix | src/encode/top.rs:22-27 | decoding reads only the first TOP_BYTES bytes |
| TopCodec.TopDecode | src/encode/top.rs:22-27 | t becomes the nibbles of s[0 .. TOP_BYTES) |
| TopCodec.TopRoundTrip | src/encode/top.rs:14-27 | decode(encode(t)) == t for t over [0, 15] |
| TopCodec.TopBytesRoundTrip | src/encode/top.rs:14-27 | encode(decode(s)) == s for any TOP_BYTES bytes |
| TopCodec.TopDecodeEncode | src/encode/top.rs:178-195 | in general, decode(encode(t)) gives t[2i] mod 16 and (t[2i+1] + ⌊t[2i]/16⌋) mod 16 |
| TopCodec.TopNegativePair | src/encode/top.rs:178-195 | the pair (-1, 0) encodes to 255 and comes back as (15, 15) |
| TopCodec.TopCodecRoundTrip | src/encode/top.rs:105-197 | for any vector whose nibble sums fit in i8, encoding into a 1039-byte buffer at offset 0 and then decoding gives t[2i] mod 16 and (t[2i+1] + ⌊t[2i]/16⌋) mod 16 at each pair |
| TopCodec.TernarySumsFit | src/encode/top.rs:165-178 | a vector over {-1, 0, 1}, as in test_top_encode, meets the no-overflow condition |
| TopCodec.TernaryPair | src/encode/top.rs:178-195 | on ternary pairs the decoded nibbles are 15 for -1 and otherwise the entry, except that a high entry after a low -1 becomes 14, 15 or 0 for -1, 0, 1 |
| Inputs.InputsBytes | src/encode/top.rs:37-45 | 32 bytes; byte j packs entries 8j..8j+7 of r |
| Inputs.InputsEncode | src/encode/top.rs:37-45 | `inputs_encode` returns exactly those bytes |
| Inputs.PartialStep | src/encode/top.rs:40-42 | iteration i ORs r[i] << (i & 7) into byte i >> 3 and nothing else |
| Inputs.InputsFirstOnly | src/encode/top.rs:37-45 | only the first I entries of r are read |
| Inputs.InputsBinary | src/encode/top.rs:37-45 | for r over {0, 1}, bit b of byte j is r[8j+b], and unused bits stay 0 |
| Inputs.InputsVector | src/encode/top.rs:52-93 | test_inputs_encode: the ternary fixture gives 145, 255, 255, … |
| Cipher.ModQ | src/ntru/cipher.rs:41-42 | reference reduction to the centered residue modulo Q, agreeing with `freeze` wherever that is defined |
| Cipher.Mods3 | src/ntru/cipher.rs:51 | reference reduction to {-1, 0, 1} modulo 3 |
| Cipher.RqMultR3 | src/ntru/cipher.rs:34-35 | `mult_r3` is a vector over [-Q12, Q12] congruent modulo Q to the product in Z[x]/(x^P - x - 1) |
| Cipher.Mult3 | src/ntru/cipher.rs:50 | `mult3` is a vector over [-Q12, Q12] congruent to 3c modulo Q |
| Cipher.R3FromRq | src/ntru/cipher.rs:49-51 | `r3_from_rq` is a small vector congruent modulo 3 to its input |
| Cipher.R3Mult | src/ntru/cipher.rs:52 | the R3 product is small and congruent modulo 3 to the ring product |
| Cipher.Round | src/ntru/cipher.rs:37 | `round` gives multiples of 3 within 1 of each coefficient |
| Cipher.RoundKeepsRq | src/ntru/cipher.rs:37 | rounding keeps coefficients in [-Q12, Q12] |
| Cipher.RoundedInRange | src/ntru/cipher.rs:37 | the multiple of 3 nearest a value in [-Q12, Q12] stays in that range |
| Cipher.Weight | src/ntru/cipher.rs:56 | the number of nonzero coefficients is at most the length |
| Cipher.WeightWMask | src/ntru/cipher.rs:56 | `weightw_mask` is 0 iff the weight is W, and -1 otherwise |
| Cipher.Ev | src/ntru/cipher.rs:49-52 | ev = r3(3·(c·r3(f)))·ginv is a small vector of length P |
| Cipher.Fallback | src/ntru/cipher.rs:58-64 | the masked output: 1 below W and 0 from W to P |
| Cipher.FallbackWeight | src/ntru/cipher.rs:58-64 | the masked output has weight W |
| Cipher.PatternTable | src/ntru/cipher.rs:59-63 | the 8- and 16-bit patterns of -1, 0 and 1 under the casts the lanes use |
| Cipher.LowLaneKeeps | src/ntru/cipher.rs:59 | with mask 0, `((e ^ 1) as i16 & !mask) ^ 1` as i8 is e |
| Cipher.LowLaneMasked | src/ntru/cipher.rs:59 | with mask -1, the same expression is 1 |
| Cipher.HighLaneKeeps | src/ntru/cipher.rs:63 | with mask 0, `(e as i16 & !mask) as i8` is e |
| Cipher.HighLaneMasked | src/ntru/cipher.rs:63 | with mask -1, the same expression is 0 |
| Cipher.LaneOutcome | src/ntru/cipher.rs:56-64 | every position gets ev[i] under mask 0 and the fallback value under mask -1 |
| Cipher.MaskLow | src/ntru/cipher.rs:58-60 | one lane of the first loop: e under mask 0, 1 under mask -1 |
| Cipher.MaskHigh | src/ntru/cipher.rs:62-64 | one lane of the second loop: e under mask 0, 0 under mask -1 |
| Cipher.ApplyMask | src/ntru/cipher.rs:58-66 | the two loops give ev under mask 0 and the fallback under mask -1 |
| Cipher.RqDecrypt | src/ntru/cipher.rs:47-67 | returns ev when ev has weight W and the fallback otherwise, so the output is always a small vector of weight W |
| Cipher.R3Encrypt | src/ntru/cipher.rs:69-75 | `r3_encrypt(r, h)` = round(h·r): multiples of 3 within 1 of a vector congruent modulo Q to h·r |
| Cipher.TopVector | src/ntru/cipher.rs:40-43 | the vector that the `lpr_encrypt` loop writes has I entries; TopVectorNibbles bounds them |
| Cipher.TopVectorNibbles | src/ntru/cipher.rs:40-43 | every entry of the top vector is in [0, 15] |
| Cipher.LprEncrypt | src/ntru/cipher.rs:33-45 | t becomes the top vector of a·b and r, and the result is round(g·b) |
| Cipher.XEncrypt | src/ntru/cipher.rs:77-88 | errors of `generator` and then of `hash_short` are returned unchanged, with t untouched; otherwise the result is `lpr_encrypt` with g = generator(seed) and b = hash_short(r) |
| Cipher.SplitPublicKey | src/ntru/cipher.rs:94-101 | the split succeeds iff the key has PUBLICKEYS_BYTES bytes; otherwise it fails with `PubKey("Incorrect PubKey")` |
| Cipher.Ciphertext | src/ntru/cipher.rs:103-110 | the output buffer has CIPHERTEXTS_BYTES + HASH_BYTES bytes |
| Cipher.CiphertextLayout | src/ntru/cipher.rs:103-110 | bytes [0, ROUNDED_BYTES) are the encoded b; the next TOP_BYTES bytes are the packed t and decode back to it; the trailing HASH_BYTES bytes are 0 |
| Cipher.ZEncrypt | src/ntru/cipher.rs:90-111 | errors of `x_encrypt` propagate; on success the output is the layout above, with a = rounded_decode(pk[SEEDS_BYTES..]) |

## Left out

- `NtruIntPoly::new` (src/poly/poly.rs:85-96) and `test_ntru_poly`: they draw coefficients from a thread-local random generator. The non-zero check on such a polynomial in `test_from_zero` depends on that randomness.
- `get_inv_poly` (src/poly/poly.rs:121-170): it is unfinished, returns nothing, and its outer loop never exits once f[0] ≠ 0.
- `PolyInt::to_string` (src/poly/mod.rs:13-37) and `test_to_string`: debug formatting.
- The commented-out `inv` of src/poly/v2.rs and the commented tests of src/poly/mod.rs.
- The accessors `get_coeffs` and `len` of src/poly/v2.rs: the model reads the field directly.
- Timing independence of the mask arithmetic in `rq_decrypt`: not expressible here. Only the values are modelled.
- Unseen collaborators:
  - `Rq::mult_r3`, `mult3`, `r3_from_rq`, `R3::mult`, `round` and `weightw_mask` get reference definitions, specified by the ring meaning their call sites rely on (congruence modulo Q or 3, centered range, weight W).
  - `generator`, `hash_short`, `rq_rounded_encode` and `rq_rounded_decode` are function-valued parameters (`Cipher.Collaborators`), and their results are taken as given.
  - `i32_mod_u14` and `TryFrom::try_from_i32` are replaced by their arithmetic meaning.
- Panics and overflow (`expect` on conversions, i8/i16/i32 overflow in debug builds, u64 casts of negative i16): preconditions keep inputs where none of them can happen, apart from the members listed below whose arithmetic is unbounded or wraps.
- Cipher.ZEncrypt: the key is `[u8; PUBLICKEYS_BYTES]`, so the two `try_into` conversions cannot fail. Hence the model requires that length. `PubKey("Incorrect PubKey")` is modelled on keys of any length by `Cipher.SplitPublicKey`. `PubKey("Incorrect PubKey Seed")` cannot arise for a slice of SEEDS_BYTES bytes.
- TopCodec.TopEncode: requires that no i8 addition overflows, which is the range where the source does not panic in a debug build. It holds for every vector over [0, 15], which is what `lpr_encrypt` produces.
- PolyV2.PolyInt.MultPoly: requires every partial product and sum to fit in i32, because `plus` computes `a32 + b32 * c32` (src/poly/v2.rs:189) and `freeze` computes `10923 * value` (src/poly/v2.rs:193) in i32, which overflow outside that range.
- PolyV2.PolyInt.MultInt: the generic coefficient type is an unbounded integer, so the overflow of `*` on a fixed-width type is not modelled.
- Poly.PolyInt.MultMod, Poly.PolyInt.SubPoly, Poly.PolyInt.AddPoly, Poly.PolyInt.MultInt, Poly.PolyInt.MultPoly and Poly.PolyInt.DivX: the generic coefficient type is an unbounded integer, so the overflow of `+`, `-` and `*` on a fixed-width type is not modelled.
- NtruPoly.SumIsZero and NtruPoly.NtruIntPoly.EqualsZero: the i16 sum wraps, as in a release build. A debug build panics on that overflow (src/poly/poly.rs:106).
- NtruPoly.NtruprimeMultPoly: requires coefficients in [0, 2^15) and 0 < m ≤ 2^15, where the u64 casts and sums are exact. The i16 store of each residue is then lossless.
- NtruPoly.NtruprimeInvInt: requires a < 2^15 and 0 < m < 2^15, because the u16 arguments are cast to i16 (src/poly/poly.rs:53, 58); larger u16 values, and m = 0 (for which the source returns 1), are not modelled. It states the result only when gcd(a, m) = 1. For other inputs the source returns a non-inverse, which the model computes but does not specify.
- Byte representations differ between parts: `inputs_encode` works on `bv8` patterns (-1 is 0xFF), while the other codecs use integers in [0, 256).
- Cargo feature selection: only the ntrulpr761 constants are modelled. The params module is not part of this model. CIPHERTEXTS_BYTES is taken as ROUNDED_BYTES + TOP_BYTES = 1135 and HASH_BYTES as 32.
- `benches/rq.rs` and `src/ntru/ntrup.rs`: they contain no logic.

## Findings

| source | as written | input that shows it | evidently intended | confidence | as-written member | corrected member |
|---|---|---|---|---|---|---|
| src/poly/poly.rs:105-109 | `equals_zero` tests whether the i16 sum of the coefficients is 0 | the polynomial [1, -1] sums to 0 but is not zero | true iff every coefficient is 0, as `equals_zero` in src/poly/v2.rs and src/poly/mod.rs does | not executed | NtruPoly.EqualsZeroAcceptsNonzero | NtruPoly.NtruIntPoly.IsZero |
