/**
  The `div_x` vector of src/poly/mod.rs: 1475 successive divisions by x of a
  nine-coefficient polynomial modulo 9829.  The states are carried in a
  nine-field record whose step is `div_x` with the residue written as a
  comparison, so that each step is a few integer comparisons; the record
  iteration is shown equal to `Poly.DivXIter`, and the trace is split into
  segments of 25 steps, each a lemma of its own.
 */
module DivXVector {
  import opened Poly

  const M: int := 9829

  datatype Vec9 = Vec9(c0: int, c1: int, c2: int, c3: int, c4: int, c5: int, c6: int, c7: int, c8: int)

  function ToSeq(v: Vec9): (s: seq<int>)
    ensures |s| == 9
  {
    [v.c0, v.c1, v.c2, v.c3, v.c4, v.c5, v.c6, v.c7, v.c8]
  }

  predicate Reduced(v: Vec9)
  {
    forall j :: 0 <= j < 9 ==> 0 <= ToSeq(v)[j] < M
  }

  /** One `div_x` modulo M on reduced coefficients. */
  function Step(v: Vec9): Vec9
  {
    Vec9(if v.c1 >= v.c0 then v.c1 - v.c0 else v.c1 - v.c0 + M,
         v.c2, v.c3, v.c4, v.c5, v.c6, v.c7, v.c8, v.c0)
  }

  function Iter(v: Vec9, k: nat): Vec9
    decreases k
  {
    if k == 0 then v else Step(Iter(v, k - 1))
  }

  /** On reduced coefficients the record step is `div_x` modulo M. */
  lemma StepIsDivX(v: Vec9)
    requires Reduced(v)
    ensures ToSeq(Step(v)) == DivXSeq(ToSeq(v), M)
    ensures Reduced(Step(v))
  {
    var a := ToSeq(v);
    assert 0 <= a[0] < M && 0 <= a[1] < M;
    var b := DivXSeq(a, M);
    assert b[0] == (a[1] - a[0] + M) % M;
    assert ToSeq(Step(v)) == b;
  }

  /** The record iteration is the iteration of `div_x`. */
  lemma {:induction false} IterIsDivXIter(v: Vec9, k: nat)
    requires Reduced(v)
    ensures ToSeq(Iter(v, k)) == DivXIter(ToSeq(v), M, k)
    ensures Reduced(Iter(v, k))
  {
    if k > 0 {
      IterIsDivXIter(v, k - 1);
      StepIsDivX(Iter(v, k - 1));
    }
  }

  lemma Next(v: Vec9, k: nat, w: Vec9)
    requires Iter(v, k) == w
    ensures Iter(v, k + 1) == Step(w)
  {
  }

  lemma Segment00(v: Vec9, k: nat)
    requires Iter(v, k) == Vec9(7756, 7841, 1764, 7783, 4731, 2717, 1132, 1042, 273)
    ensures Iter(v, k + 25) == Vec9(6654, 654, 1000, 7260, 5817, 6868, 8561, 9587, 8623)
  {
    Next(v, k, Vec9(7756, 7841, 1764, 7783, 4731, 2717, 1132, 1042, 273));
    Next(v, k + 1, Vec9(85, 1764, 7783, 4731, 2717, 1132, 1042, 273, 7756));
    Next(v, k + 2, Vec9(1679, 7783, 4731, 2717, 1132, 1042, 273, 7756, 85));
    Next(v, k + 3, Vec9(6104, 4731, 2717, 1132, 1042, 273, 7756, 85, 1679));
    Next(v, k + 4, Vec9(8456, 2717, 1132, 1042, 273, 7756, 85, 1679, 6104));
    Next(v, k + 5, Vec9(4090, 1132, 1042, 273, 7756, 85, 1679, 6104, 8456));
    Next(v, k + 6, Vec9(6871, 1042, 273, 7756, 85, 1679, 6104, 8456, 4090));
    Next(v, k + 7, Vec9(4000, 273, 7756, 85, 1679, 6104, 8456, 4090, 6871));
    Next(v, k + 8, Vec9(6102, 7756, 85, 1679, 6104, 8456, 4090, 6871, 4000));
    Next(v, k + 9, Vec9(1654, 85, 1679, 6104, 8456, 4090, 6871, 4000, 6102));
    Next(v, k + 10, Vec9(8260, 1679, 6104, 8456, 4090, 6871, 4000, 6102, 1654));
    Next(v, k + 11, Vec9(3248, 6104, 8456, 4090, 6871, 4000, 6102, 1654, 8260));
    Next(v, k + 12, Vec9(2856, 8456, 4090, 6871, 4000, 6102, 1654, 8260, 3248));
    Next(v, k + 13, Vec9(5600, 4090, 6871, 4000, 6102, 1654, 8260, 3248, 2856));
    Next(v, k + 14, Vec9(8319, 6871, 4000, 6102, 1654, 8260, 3248, 2856, 5600));
    Next(v, k + 15, Vec9(8381, 4000, 6102, 1654, 8260, 3248, 2856, 5600, 8319));
    Next(v, k + 16, Vec9(5448, 6102, 1654, 8260, 3248, 2856, 5600, 8319, 8381));
    Next(v, k + 17, Vec9(654, 1654, 8260, 3248, 2856, 5600, 8319, 8381, 5448));
    Next(v, k + 18, Vec9(1000, 8260, 3248, 2856, 5600, 8319, 8381, 5448, 654));
    Next(v, k + 19, Vec9(7260, 3248, 2856, 5600, 8319, 8381, 5448, 654, 1000));
    Next(v, k + 20, Vec9(5817, 2856, 5600, 8319, 8381, 5448, 654, 1000, 7260));
    Next(v, k + 21, Vec9(6868, 5600, 8319, 8381, 5448, 654, 1000, 7260, 5817));
    Next(v, k + 22, Vec9(8561, 8319, 8381, 5448, 654, 1000, 7260, 5817, 6868));
    Next(v, k + 23, Vec9(9587, 8381, 5448, 654, 1000, 7260, 5817, 6868, 8561));
    Next(v, k + 24, Vec9(8623, 5448, 654, 1000, 7260, 5817, 6868, 8561, 9587));
  }

  lemma Segment01(v: Vec9, k: nat)
    requires Iter(v, k) == Vec9(6654, 654, 1000, 7260, 5817, 6868, 8561, 9587, 8623)
    ensures Iter(v, k + 25) == Vec9(912, 8895, 1302, 2159, 1380, 5170, 3666, 8467, 6308)
  {
    Next(v, k, Vec9(6654, 654, 1000, 7260, 5817, 6868, 8561, 9587, 8623));
    Next(v, k + 1, Vec9(3829, 1000, 7260, 5817, 6868, 8561, 9587, 8623, 6654));
    Next(v, k + 2, Vec9(7000, 7260, 5817, 6868, 8561, 9587, 8623, 6654, 3829));
    Next(v, k + 3, Vec9(260, 5817, 6868, 8561, 9587, 8623, 6654, 3829, 7000));
    Next(v, k + 4, Vec9(5557, 6868, 8561, 9587, 8623, 6654, 3829, 7000, 260));
    Next(v, k + 5, Vec9(1311, 8561, 9587, 8623, 6654, 3829, 7000, 260, 5557));
    Next(v, k + 6, Vec9(7250, 9587, 8623, 6654, 3829, 7000, 260, 5557, 1311));
    Next(v, k + 7, Vec9(2337, 8623, 6654, 3829, 7000, 260, 5557, 1311, 7250));
    Next(v, k + 8, Vec9(6286, 6654, 3829, 7000, 260, 5557, 1311, 7250, 2337));
    Next(v, k + 9, Vec9(368, 3829, 7000, 260, 5557, 1311, 7250, 2337, 6286));
    Next(v, k + 10, Vec9(3461, 7000, 260, 5557, 1311, 7250, 2337, 6286, 368));
    Next(v, k + 11, Vec9(3539, 260, 5557, 1311, 7250, 2337, 6286, 368, 3461));
    Next(v, k + 12, Vec9(6550, 5557, 1311, 7250, 2337, 6286, 368, 3461, 3539));
    Next(v, k + 13, Vec9(8836, 1311, 7250, 2337, 6286, 368, 3461, 3539, 6550));
    Next(v, k + 14, Vec9(2304, 7250, 2337, 6286, 368, 3461, 3539, 6550, 8836));
    Next(v, k + 15, Vec9(4946, 2337, 6286, 368, 3461, 3539, 6550, 8836, 2304));
    Next(v, k + 16, Vec9(7220, 6286, 368, 3461, 3539, 6550, 8836, 2304, 4946));
    Next(v, k + 17, Vec9(8895, 368, 3461, 3539, 6550, 8836, 2304, 4946, 7220));
    Next(v, k + 18, Vec9(1302, 3461, 3539, 6550, 8836, 2304, 4946, 7220, 8895));
    Next(v, k + 19, Vec9(2159, 3539, 6550, 8836, 2304, 4946, 7220, 8895, 1302));
    Next(v, k + 20, Vec9(1380, 6550, 8836, 2304, 4946, 7220, 8895, 1302, 2159));
    Next(v, k + 21, Vec9(5170, 8836, 2304, 4946, 7220, 8895, 1302, 2159, 1380));
    Next(v, k + 22, Vec9(3666, 2304, 4946, 7220, 8895, 1302, 2159, 1380, 5170));
    Next(v, k + 23, Vec9(8467, 4946, 7220, 8895, 1302, 2159, 1380, 5170, 3666));
    Next(v, k + 24, Vec9(6308, 7220, 8895, 1302, 2159, 1380, 5170, 3666, 8467));
  }

  lemma Segment02(v: Vec9, k: nat)
    requires Iter(v, k) == Vec9(912, 8895, 1302, 2159, 1380, 5170, 3666, 8467, 6308)
    ensures Iter(v, k + 25) == Vec9(9096, 9555, 2480, 3297, 3903, 7566, 2992, 8909, 9542)
  {
    Next(v, k, Vec9(912, 8895, 1302, 2159, 1380, 5170, 3666, 8467, 6308));
    Next(v, k + 1, Vec9(7983, 1302, 2159, 1380, 5170, 3666, 8467, 6308, 912));
    Next(v, k + 2, Vec9(3148, 2159, 1380, 5170, 3666, 8467, 6308, 912, 7983));
    Next(v, k + 3, Vec9(8840, 1380, 5170, 3666, 8467, 6308, 912, 7983, 3148));
    Next(v, k + 4, Vec9(2369, 5170, 3666, 8467, 6308, 912, 7983, 3148, 8840));
    Next(v, k + 5, Vec9(2801, 3666, 8467, 6308, 912, 7983, 3148, 8840, 2369));
    Next(v, k + 6, Vec9(865, 8467, 6308, 912, 7983, 3148, 8840, 2369, 2801));
    Next(v, k + 7, Vec9(7602, 6308, 912, 7983, 3148, 8840, 2369, 2801, 865));
    Next(v, k + 8, Vec9(8535, 912, 7983, 3148, 8840, 2369, 2801, 865, 7602));
    Next(v, k + 9, Vec9(2206, 7983, 3148, 8840, 2369, 2801, 865, 7602, 8535));
    Next(v, k + 10, Vec9(5777, 3148, 8840, 2369, 2801, 865, 7602, 8535, 2206));
    Next(v, k + 11, Vec9(7200, 8840, 2369, 2801, 865, 7602, 8535, 2206, 5777));
    Next(v, k + 12, Vec9(1640, 2369, 2801, 865, 7602, 8535, 2206, 5777, 7200));
    Next(v, k + 13, Vec9(729, 2801, 865, 7602, 8535, 2206, 5777, 7200, 1640));
    Next(v, k + 14, Vec9(2072, 865, 7602, 8535, 2206, 5777, 7200, 1640, 729));
    Next(v, k + 15, Vec9(8622, 7602, 8535, 2206, 5777, 7200, 1640, 729, 2072));
    Next(v, k + 16, Vec9(8809, 8535, 2206, 5777, 7200, 1640, 729, 2072, 8622));
    Next(v, k + 17, Vec9(9555, 2206, 5777, 7200, 1640, 729, 2072, 8622, 8809));
    Next(v, k + 18, Vec9(2480, 5777, 7200, 1640, 729, 2072, 8622, 8809, 9555));
    Next(v, k + 19, Vec9(3297, 7200, 1640, 729, 2072, 8622, 8809, 9555, 2480));
    Next(v, k + 20, Vec9(3903, 1640, 729, 2072, 8622, 8809, 9555, 2480, 3297));
    Next(v, k + 21, Vec9(7566, 729, 2072, 8622, 8809, 9555, 2480, 3297, 3903));
    Next(v, k + 22, Vec9(2992, 2072, 8622, 8809, 9555, 2480, 3297, 3903, 7566));
    Next(v, k + 23, Vec9(8909, 8622, 8809, 9555, 2480, 3297, 3903, 7566, 2992));
    Next(v, k + 24, Vec9(9542, 8809, 9555, 2480, 3297, 3903, 7566, 2992, 8909));
  }

  lemma Segment03(v: Vec9, k: nat)
    requires Iter(v, k) == Vec9(9096, 9555, 2480, 3297, 3903, 7566, 2992, 8909, 9542)
    ensures Iter(v, k + 25) == Vec9(6145, 4096, 6314, 3393, 8579, 383, 3111, 8163, 8103)
  {
    Next(v, k, Vec9(9096, 9555, 2480, 3297, 3903, 7566, 2992, 8909, 9542));
    Next(v, k + 1, Vec9(459, 2480, 3297, 3903, 7566, 2992, 8909, 9542, 9096));
    Next(v, k + 2, Vec9(2021, 3297, 3903, 7566, 2992, 8909, 9542, 9096, 459));
    Next(v, k + 3, Vec9(1276, 3903, 7566, 2992, 8909, 9542, 9096, 459, 2021));
    Next(v, k + 4, Vec9(2627, 7566, 2992, 8909, 9542, 9096, 459, 2021, 1276));
    Next(v, k + 5, Vec9(4939, 2992, 8909, 9542, 9096, 459, 2021, 1276, 2627));
    Next(v, k + 6, Vec9(7882, 8909, 9542, 9096, 459, 2021, 1276, 2627, 4939));
    Next(v, k + 7, Vec9(1027, 9542, 9096, 459, 2021, 1276, 2627, 4939, 7882));
    Next(v, k + 8, Vec9(8515, 9096, 459, 2021, 1276, 2627, 4939, 7882, 1027));
    Next(v, k + 9, Vec9(581, 459, 2021, 1276, 2627, 4939, 7882, 1027, 8515));
    Next(v, k + 10, Vec9(9707, 2021, 1276, 2627, 4939, 7882, 1027, 8515, 581));
    Next(v, k + 11, Vec9(2143, 1276, 2627, 4939, 7882, 1027, 8515, 581, 9707));
    Next(v, k + 12, Vec9(8962, 2627, 4939, 7882, 1027, 8515, 581, 9707, 2143));
    Next(v, k + 13, Vec9(3494, 4939, 7882, 1027, 8515, 581, 9707, 2143, 8962));
    Next(v, k + 14, Vec9(1445, 7882, 1027, 8515, 581, 9707, 2143, 8962, 3494));
    Next(v, k + 15, Vec9(6437, 1027, 8515, 581, 9707, 2143, 8962, 3494, 1445));
    Next(v, k + 16, Vec9(4419, 8515, 581, 9707, 2143, 8962, 3494, 1445, 6437));
    Next(v, k + 17, Vec9(4096, 581, 9707, 2143, 8962, 3494, 1445, 6437, 4419));
    Next(v, k + 18, Vec9(6314, 9707, 2143, 8962, 3494, 1445, 6437, 4419, 4096));
    Next(v, k + 19, Vec9(3393, 2143, 8962, 3494, 1445, 6437, 4419, 4096, 6314));
    Next(v, k + 20, Vec9(8579, 8962, 3494, 1445, 6437, 4419, 4096, 6314, 3393));
    Next(v, k + 21, Vec9(383, 3494, 1445, 6437, 4419, 4096, 6314, 3393, 8579));
    Next(v, k + 22, Vec9(3111, 1445, 6437, 4419, 4096, 6314, 3393, 8579, 383));
    Next(v, k + 23, Vec9(8163, 6437, 4419, 4096, 6314, 3393, 8579, 383, 3111));
    Next(v, k + 24, Vec9(8103, 4419, 4096, 6314, 3393, 8579, 383, 3111, 8163));
  }

  lemma Segment04(v: Vec9, k: nat)
    requires Iter(v, k) == Vec9(6145, 4096, 6314, 3393, 8579, 383, 3111, 8163, 8103)
    ensures Iter(v, k + 25) == Vec9(8108, 3830, 5756, 2267, 7902, 6446, 2584, 4707, 4279)
  {
    Next(v, k, Vec9(6145, 4096, 6314, 3393, 8579, 383, 3111, 8163, 8103));
    Next(v, k + 1, Vec9(7780, 6314, 3393, 8579, 383, 3111, 8163, 8103, 6145));
    Next(v, k + 2, Vec9(8363, 3393, 8579, 383, 3111, 8163, 8103, 6145, 7780));
    Next(v, k + 3, Vec9(4859, 8579, 383, 3111, 8163, 8103, 6145, 7780, 8363));
    Next(v, k + 4, Vec9(3720, 383, 3111, 8163, 8103, 6145, 7780, 8363, 4859));
    Next(v, k + 5, Vec9(6492, 3111, 8163, 8103, 6145, 7780, 8363, 4859, 3720));
    Next(v, k + 6, Vec9(6448, 8163, 8103, 6145, 7780, 8363, 4859, 3720, 6492));
    Next(v, k + 7, Vec9(1715, 8103, 6145, 7780, 8363, 4859, 3720, 6492, 6448));
    Next(v, k + 8, Vec9(6388, 6145, 7780, 8363, 4859, 3720, 6492, 6448, 1715));
    Next(v, k + 9, Vec9(9586, 7780, 8363, 4859, 3720, 6492, 6448, 1715, 6388));
    Next(v, k + 10, Vec9(8023, 8363, 4859, 3720, 6492, 6448, 1715, 6388, 9586));
    Next(v, k + 11, Vec9(340, 4859, 3720, 6492, 6448, 1715, 6388, 9586, 8023));
    Next(v, k + 12, Vec9(4519, 3720, 6492, 6448, 1715, 6388, 9586, 8023, 340));
    Next(v, k + 13, Vec9(9030, 6492, 6448, 1715, 6388, 9586, 8023, 340, 4519));
    Next(v, k + 14, Vec9(7291, 6448, 1715, 6388, 9586, 8023, 340, 4519, 9030));
    Next(v, k + 15, Vec9(8986, 1715, 6388, 9586, 8023, 340, 4519, 9030, 7291));
    Next(v, k + 16, Vec9(2558, 6388, 9586, 8023, 340, 4519, 9030, 7291, 8986));
    Next(v, k + 17, Vec9(3830, 9586, 8023, 340, 4519, 9030, 7291, 8986, 2558));
    Next(v, k + 18, Vec9(5756, 8023, 340, 4519, 9030, 7291, 8986, 2558, 3830));
    Next(v, k + 19, Vec9(2267, 340, 4519, 9030, 7291, 8986, 2558, 3830, 5756));
    Next(v, k + 20, Vec9(7902, 4519, 9030, 7291, 8986, 2558, 3830, 5756, 2267));
    Next(v, k + 21, Vec9(6446, 9030, 7291, 8986, 2558, 3830, 5756, 2267, 7902));
    Next(v, k + 22, Vec9(2584, 7291, 8986, 2558, 3830, 5756, 2267, 7902, 6446));
    Next(v, k + 23, Vec9(4707, 8986, 2558, 3830, 5756, 2267, 7902, 6446, 2584));
    Next(v, k + 24, Vec9(4279, 2558, 3830, 5756, 2267, 7902, 6446, 2584, 4707));
  }

  lemma Segment05(v: Vec9, k: nat)
    requires Iter(v, k) == Vec9(8108, 3830, 5756, 2267, 7902, 6446, 2584, 4707, 4279)
    ensures Iter(v, k + 25) == Vec9(7374, 5183, 1375, 7447, 3594, 7085, 7734, 7540, 8651)
  {
    Next(v, k, Vec9(8108, 3830, 5756, 2267, 7902, 6446, 2584, 4707, 4279));
    Next(v, k + 1, Vec9(5551, 5756, 2267, 7902, 6446, 2584, 4707, 4279, 8108));
    Next(v, k + 2, Vec9(205, 2267, 7902, 6446, 2584, 4707, 4279, 8108, 5551));
    Next(v, k + 3, Vec9(2062, 7902, 6446, 2584, 4707, 4279, 8108, 5551, 205));
    Next(v, k + 4, Vec9(5840, 6446, 2584, 4707, 4279, 8108, 5551, 205, 2062));
    Next(v, k + 5, Vec9(606, 2584, 4707, 4279, 8108, 5551, 205, 2062, 5840));
    Next(v, k + 6, Vec9(1978, 4707, 4279, 8108, 5551, 205, 2062, 5840, 606));
    Next(v, k + 7, Vec9(2729, 4279, 8108, 5551, 205, 2062, 5840, 606, 1978));
    Next(v, k + 8, Vec9(1550, 8108, 5551, 205, 2062, 5840, 606, 1978, 2729));
    Next(v, k + 9, Vec9(6558, 5551, 205, 2062, 5840, 606, 1978, 2729, 1550));
    Next(v, k + 10, Vec9(8822, 205, 2062, 5840, 606, 1978, 2729, 1550, 6558));
    Next(v, k + 11, Vec9(1212, 2062, 5840, 606, 1978, 2729, 1550, 6558, 8822));
    Next(v, k + 12, Vec9(850, 5840, 606, 1978, 2729, 1550, 6558, 8822, 1212));
    Next(v, k + 13, Vec9(4990, 606, 1978, 2729, 1550, 6558, 8822, 1212, 850));
    Next(v, k + 14, Vec9(5445, 1978, 2729, 1550, 6558, 8822, 1212, 850, 4990));
    Next(v, k + 15, Vec9(6362, 2729, 1550, 6558, 8822, 1212, 850, 4990, 5445));
    Next(v, k + 16, Vec9(6196, 1550, 6558, 8822, 1212, 850, 4990, 5445, 6362));
    Next(v, k + 17, Vec9(5183, 6558, 8822, 1212, 850, 4990, 5445, 6362, 6196));
    Next(v, k + 18, Vec9(1375, 8822, 1212, 850, 4990, 5445, 6362, 6196, 5183));
    Next(v, k + 19, Vec9(7447, 1212, 850, 4990, 5445, 6362, 6196, 5183, 1375));
    Next(v, k + 20, Vec9(3594, 850, 4990, 5445, 6362, 6196, 5183, 1375, 7447));
    Next(v, k + 21, Vec9(7085, 4990, 5445, 6362, 6196, 5183, 1375, 7447, 3594));
    Next(v, k + 22, Vec9(7734, 5445, 6362, 6196, 5183, 1375, 7447, 3594, 7085));
    Next(v, k + 23, Vec9(7540, 6362, 6196, 5183, 1375, 7447, 3594, 7085, 7734));
    Next(v, k + 24, Vec9(8651, 6196, 5183, 1375, 7447, 3594, 7085, 7734, 7540));
  }

  lemma Segment06(v: Vec9, k: nat)
    requires Iter(v, k) == Vec9(7374, 5183, 1375, 7447, 3594, 7085, 7734, 7540, 8651)
    ensures Iter(v, k + 25) == Vec9(9102, 4604, 1297, 440, 1389, 663, 6827, 2884, 7425)
  {
    Next(v, k, Vec9(7374, 5183, 1375, 7447, 3594, 7085, 7734, 7540, 8651));
    Next(v, k + 1, Vec9(7638, 1375, 7447, 3594, 7085, 7734, 7540, 8651, 7374));
    Next(v, k + 2, Vec9(3566, 7447, 3594, 7085, 7734, 7540, 8651, 7374, 7638));
    Next(v, k + 3, Vec9(3881, 3594, 7085, 7734, 7540, 8651, 7374, 7638, 3566));
    Next(v, k + 4, Vec9(9542, 7085, 7734, 7540, 8651, 7374, 7638, 3566, 3881));
    Next(v, k + 5, Vec9(7372, 7734, 7540, 8651, 7374, 7638, 3566, 3881, 9542));
    Next(v, k + 6, Vec9(362, 7540, 8651, 7374, 7638, 3566, 3881, 9542, 7372));
    Next(v, k + 7, Vec9(7178, 8651, 7374, 7638, 3566, 3881, 9542, 7372, 362));
    Next(v, k + 8, Vec9(1473, 7374, 7638, 3566, 3881, 9542, 7372, 362, 7178));
    Next(v, k + 9, Vec9(5901, 7638, 3566, 3881, 9542, 7372, 362, 7178, 1473));
    Next(v, k + 10, Vec9(1737, 3566, 3881, 9542, 7372, 362, 7178, 1473, 5901));
    Next(v, k + 11, Vec9(1829, 3881, 9542, 7372, 362, 7178, 1473, 5901, 1737));
    Next(v, k + 12, Vec9(2052, 9542, 7372, 362, 7178, 1473, 5901, 1737, 1829));
    Next(v, k + 13, Vec9(7490, 7372, 362, 7178, 1473, 5901, 1737, 1829, 2052));
    Next(v, k + 14, Vec9(9711, 362, 7178, 1473, 5901, 1737, 1829, 2052, 7490));
    Next(v, k + 15, Vec9(480, 7178, 1473, 5901, 1737, 1829, 2052, 7490, 9711));
    Next(v, k + 16, Vec9(6698, 1473, 5901, 1737, 1829, 2052, 7490, 9711, 480));
    Next(v, k + 17, Vec9(4604, 5901, 1737, 1829, 2052, 7490, 9711, 480, 6698));
    Next(v, k + 18, Vec9(1297, 1737, 1829, 2052, 7490, 9711, 480, 6698, 4604));
    Next(v, k + 19, Vec9(440, 1829, 2052, 7490, 9711, 480, 6698, 4604, 1297));
    Next(v, k + 20, Vec9(1389, 2052, 7490, 9711, 480, 6698, 4604, 1297, 440));
    Next(v, k + 21, Vec9(663, 7490, 9711, 480, 6698, 4604, 1297, 440, 1389));
    Next(v, k + 22, Vec9(6827, 9711, 480, 6698, 4604, 1297, 440, 1389, 663));
    Next(v, k + 23, Vec9(2884, 480, 6698, 4604, 1297, 440, 1389, 663, 6827));
    Next(v, k + 24, Vec9(7425, 6698, 4604, 1297, 440, 1389, 663, 6827, 2884));
  }

  lemma Segment07(v: Vec9, k: nat)
    requires Iter(v, k) == Vec9(9102, 4604, 1297, 440, 1389, 663, 6827, 2884, 7425)
    ensures Iter(v, k + 25) == Vec9(2338, 1533, 9778, 3900, 7875, 4482, 9563, 9627, 3749)
  {
    Next(v, k, Vec9(9102, 4604, 1297, 440, 1389, 663, 6827, 2884, 7425));
    Next(v, k + 1, Vec9(5331, 1297, 440, 1389, 663, 6827, 2884, 7425, 9102));
    Next(v, k + 2, Vec9(5795, 440, 1389, 663, 6827, 2884, 7425, 9102, 5331));
    Next(v, k + 3, Vec9(4474, 1389, 663, 6827, 2884, 7425, 9102, 5331, 5795));
    Next(v, k + 4, Vec9(6744, 663, 6827, 2884, 7425, 9102, 5331, 5795, 4474));
    Next(v, k + 5, Vec9(3748, 6827, 2884, 7425, 9102, 5331, 5795, 4474, 6744));
    Next(v, k + 6, Vec9(3079, 2884, 7425, 9102, 5331, 5795, 4474, 6744, 3748));
    Next(v, k + 7, Vec9(9634, 7425, 9102, 5331, 5795, 4474, 6744, 3748, 3079));
    Next(v, k + 8, Vec9(7620, 9102, 5331, 5795, 4474, 6744, 3748, 3079, 9634));
    Next(v, k + 9, Vec9(1482, 5331, 5795, 4474, 6744, 3748, 3079, 9634, 7620));
    Next(v, k + 10, Vec9(3849, 5795, 4474, 6744, 3748, 3079, 9634, 7620, 1482));
    Next(v, k + 11, Vec9(1946, 4474, 6744, 3748, 3079, 9634, 7620, 1482, 3849));
    Next(v, k + 12, Vec9(2528, 6744, 3748, 3079, 9634, 7620, 1482, 3849, 1946));
    Next(v, k + 13, Vec9(4216, 3748, 3079, 9634, 7620, 1482, 3849, 1946, 2528));
    Next(v, k + 14, Vec9(9361, 3079, 9634, 7620, 1482, 3849, 1946, 2528, 4216));
    Next(v, k + 15, Vec9(3547, 9634, 7620, 1482, 3849, 1946, 2528, 4216, 9361));
    Next(v, k + 16, Vec9(6087, 7620, 1482, 3849, 1946, 2528, 4216, 9361, 3547));
    Next(v, k + 17, Vec9(1533, 1482, 3849, 1946, 2528, 4216, 9361, 3547, 6087));
    Next(v, k + 18, Vec9(9778, 3849, 1946, 2528, 4216, 9361, 3547, 6087, 1533));
    Next(v, k + 19, Vec9(3900, 1946, 2528, 4216, 9361, 3547, 6087, 1533, 9778));
    Next(v, k + 20, Vec9(7875, 2528, 4216, 9361, 3547, 6087, 1533, 9778, 3900));
    Next(v, k + 21, Vec9(4482, 4216, 9361, 3547, 6087, 1533, 9778, 3900, 7875));
    Next(v, k + 22, Vec9(9563, 9361, 3547, 6087, 1533, 9778, 3900, 7875, 4482));
    Next(v, k + 23, Vec9(9627, 3547, 6087, 1533, 9778, 3900, 7875, 4482, 9563));
    Next(v, k + 24, Vec9(3749, 6087, 1533, 9778, 3900, 7875, 4482, 9563, 9627));
  }

  lemma Segment08(v: Vec9, k: nat)
    requires Iter(v, k) == Vec9(2338, 1533, 9778, 3900, 7875, 4482, 9563, 9627, 3749)
    ensures Iter(v, k + 25) == Vec9(4412, 5891, 2344, 8274, 1520, 1661, 9716, 8147, 3458)
  {
    Next(v, k, Vec9(2338, 1533, 9778, 3900, 7875, 4482, 9563, 9627, 3749));
    Next(v, k + 1, Vec9(9024, 9778, 3900, 7875, 4482, 9563, 9627, 3749, 2338));
    Next(v, k + 2, Vec9(754, 3900, 7875, 4482, 9563, 9627, 3749, 2338, 9024));
    Next(v, k + 3, Vec9(3146, 7875, 4482, 9563, 9627, 3749, 2338, 9024, 754));
    Next(v, k + 4, Vec9(4729, 4482, 9563, 9627, 3749, 2338, 9024, 754, 3146));
    Next(v, k + 5, Vec9(9582, 9563, 9627, 3749, 2338, 9024, 754, 3146, 4729));
    Next(v, k + 6, Vec9(9810, 9627, 3749, 2338, 9024, 754, 3146, 4729, 9582));
    Next(v, k + 7, Vec9(9646, 3749, 2338, 9024, 754, 3146, 4729, 9582, 9810));
    Next(v, k + 8, Vec9(3932, 2338, 9024, 754, 3146, 4729, 9582, 9810, 9646));
    Next(v, k + 9, Vec9(8235, 9024, 754, 3146, 4729, 9582, 9810, 9646, 3932));
    Next(v, k + 10, Vec9(789, 754, 3146, 4729, 9582, 9810, 9646, 3932, 8235));
    Next(v, k + 11, Vec9(9794, 3146, 4729, 9582, 9810, 9646, 3932, 8235, 789));
    Next(v, k + 12, Vec9(3181, 4729, 9582, 9810, 9646, 3932, 8235, 789, 9794));
    Next(v, k + 13, Vec9(1548, 9582, 9810, 9646, 3932, 8235, 789, 9794, 3181));
    Next(v, k + 14, Vec9(8034, 9810, 9646, 3932, 8235, 789, 9794, 3181, 1548));
    Next(v, k + 15, Vec9(1776, 9646, 3932, 8235, 789, 9794, 3181, 1548, 8034));
    Next(v, k + 16, Vec9(7870, 3932, 8235, 789, 9794, 3181, 1548, 8034, 1776));
    Next(v, k + 17, Vec9(5891, 8235, 789, 9794, 3181, 1548, 8034, 1776, 7870));
    Next(v, k + 18, Vec9(2344, 789, 9794, 3181, 1548, 8034, 1776, 7870, 5891));
    Next(v, k + 19, Vec9(8274, 9794, 3181, 1548, 8034, 1776, 7870, 5891, 2344));
    Next(v, k + 20, Vec9(1520, 3181, 1548, 8034, 1776, 7870, 5891, 2344, 8274));
    Next(v, k + 21, Vec9(1661, 1548, 8034, 1776, 7870, 5891, 2344, 8274, 1520));
    Next(v, k + 22, Vec9(9716, 8034, 1776, 7870, 5891, 2344, 8274, 1520, 1661));
    Next(v, k + 23, Vec9(8147, 1776, 7870, 5891, 2344, 8274, 1520, 1661, 9716));
    Next(v, k + 24, Vec9(3458, 7870, 5891, 2344, 8274, 1520, 1661, 9716, 8147));
  }

  lemma Segment09(v: Vec9, k: nat)
    requires Iter(v, k) == Vec9(4412, 5891, 2344, 8274, 1520, 1661, 9716, 8147, 3458)
    ensures Iter(v, k + 25) == Vec9(3889, 8622, 8142, 6060, 261, 827, 2025, 2673, 4624)
  {
    Next(v, k, Vec9(4412, 5891, 2344, 8274, 1520, 1661, 9716, 8147, 3458));
    Next(v, k + 1, Vec9(1479, 2344, 8274, 1520, 1661, 9716, 8147, 3458, 4412));
    Next(v, k + 2, Vec9(865, 8274, 1520, 1661, 9716, 8147, 3458, 4412, 1479));
    Next(v, k + 3, Vec9(7409, 1520, 1661, 9716, 8147, 3458, 4412, 1479, 865));
    Next(v, k + 4, Vec9(3940, 1661, 9716, 8147, 3458, 4412, 1479, 865, 7409));
    Next(v, k + 5, Vec9(7550, 9716, 8147, 3458, 4412, 1479, 865, 7409, 3940));
    Next(v, k + 6, Vec9(2166, 8147, 3458, 4412, 1479, 865, 7409, 3940, 7550));
    Next(v, k + 7, Vec9(5981, 3458, 4412, 1479, 865, 7409, 3940, 7550, 2166));
    Next(v, k + 8, Vec9(7306, 4412, 1479, 865, 7409, 3940, 7550, 2166, 5981));
    Next(v, k + 9, Vec9(6935, 1479, 865, 7409, 3940, 7550, 2166, 5981, 7306));
    Next(v, k + 10, Vec9(4373, 865, 7409, 3940, 7550, 2166, 5981, 7306, 6935));
    Next(v, k + 11, Vec9(6321, 7409, 3940, 7550, 2166, 5981, 7306, 6935, 4373));
    Next(v, k + 12, Vec9(1088, 3940, 7550, 2166, 5981, 7306, 6935, 4373, 6321));
    Next(v, k + 13, Vec9(2852, 7550, 2166, 5981, 7306, 6935, 4373, 6321, 1088));
    Next(v, k + 14, Vec9(4698, 2166, 5981, 7306, 6935, 4373, 6321, 1088, 2852));
    Next(v, k + 15, Vec9(7297, 5981, 7306, 6935, 4373, 6321, 1088, 2852, 4698));
    Next(v, k + 16, Vec9(8513, 7306, 6935, 4373, 6321, 1088, 2852, 4698, 7297));
    Next(v, k + 17, Vec9(8622, 6935, 4373, 6321, 1088, 2852, 4698, 7297, 8513));
    Next(v, k + 18, Vec9(8142, 4373, 6321, 1088, 2852, 4698, 7297, 8513, 8622));
    Next(v, k + 19, Vec9(6060, 6321, 1088, 2852, 4698, 7297, 8513, 8622, 8142));
    Next(v, k + 20, Vec9(261, 1088, 2852, 4698, 7297, 8513, 8622, 8142, 6060));
    Next(v, k + 21, Vec9(827, 2852, 4698, 7297, 8513, 8622, 8142, 6060, 261));
    Next(v, k + 22, Vec9(2025, 4698, 7297, 8513, 8622, 8142, 6060, 261, 827));
    Next(v, k + 23, Vec9(2673, 7297, 8513, 8622, 8142, 6060, 261, 827, 2025));
    Next(v, k + 24, Vec9(4624, 8513, 8622, 8142, 6060, 261, 827, 2025, 2673));
  }

  lemma Segment10(v: Vec9, k: nat)
    requires Iter(v, k) == Vec9(3889, 8622, 8142, 6060, 261, 827, 2025, 2673, 4624)
    ensures Iter(v, k + 25) == Vec9(5773, 8908, 4051, 7381, 4254, 6420, 174, 6278, 5736)
  {
    Next(v, k, Vec9(3889, 8622, 8142, 6060, 261, 827, 2025, 2673, 4624));
    Next(v, k + 1, Vec9(4733, 8142, 6060, 261, 827, 2025, 2673, 4624, 3889));
    Next(v, k + 2, Vec9(3409, 6060, 261, 827, 2025, 2673, 4624, 3889, 4733));
    Next(v, k + 3, Vec9(2651, 261, 827, 2025, 2673, 4624, 3889, 4733, 3409));
    Next(v, k + 4, Vec9(7439, 827, 2025, 2673, 4624, 3889, 4733, 3409, 2651));
    Next(v, k + 5, Vec9(3217, 2025, 2673, 4624, 3889, 4733, 3409, 2651, 7439));
    Next(v, k + 6, Vec9(8637, 2673, 4624, 3889, 4733, 3409, 2651, 7439, 3217));
    Next(v, k + 7, Vec9(3865, 4624, 3889, 4733, 3409, 2651, 7439, 3217, 8637));
    Next(v, k + 8, Vec9(759, 3889, 4733, 3409, 2651, 7439, 3217, 8637, 3865));
    Next(v, k + 9, Vec9(3130, 4733, 3409, 2651, 7439, 3217, 8637, 3865, 759));
    Next(v, k + 10, Vec9(1603, 3409, 2651, 7439, 3217, 8637, 3865, 759, 3130));
    Next(v, k + 11, Vec9(1806, 2651, 7439, 3217, 8637, 3865, 759, 3130, 1603));
    Next(v, k + 12, Vec9(845, 7439, 3217, 8637, 3865, 759, 3130, 1603, 1806));
    Next(v, k + 13, Vec9(6594, 3217, 8637, 3865, 759, 3130, 1603, 1806, 845));
    Next(v, k + 14, Vec9(6452, 8637, 3865, 759, 3130, 1603, 1806, 845, 6594));
    Next(v, k + 15, Vec9(2185, 3865, 759, 3130, 1603, 1806, 845, 6594, 6452));
    Next(v, k + 16, Vec9(1680, 759, 3130, 1603, 1806, 845, 6594, 6452, 2185));
    Next(v, k + 17, Vec9(8908, 3130, 1603, 1806, 845, 6594, 6452, 2185, 1680));
    Next(v, k + 18, Vec9(4051, 1603, 1806, 845, 6594, 6452, 2185, 1680, 8908));
    Next(v, k + 19, Vec9(7381, 1806, 845, 6594, 6452, 2185, 1680, 8908, 4051));
    Next(v, k + 20, Vec9(4254, 845, 6594, 6452, 2185, 1680, 8908, 4051, 7381));
    Next(v, k + 21, Vec9(6420, 6594, 6452, 2185, 1680, 8908, 4051, 7381, 4254));
    Next(v, k + 22, Vec9(174, 6452, 2185, 1680, 8908, 4051, 7381, 4254, 6420));
    Next(v, k + 23, Vec9(6278, 2185, 1680, 8908, 4051, 7381, 4254, 6420, 174));
    Next(v, k + 24, Vec9(5736, 1680, 8908, 4051, 7381, 4254, 6420, 174, 6278));
  }

  lemma Segment11(v: Vec9, k: nat)
    requires Iter(v, k) == Vec9(5773, 8908, 4051, 7381, 4254, 6420, 174, 6278, 5736)
    ensures Iter(v, k + 25) == Vec9(9184, 2371, 2572, 5449, 7104, 6466, 7240, 7343, 8933)
  {
    Next(v, k, Vec9(5773, 8908, 4051, 7381, 4254, 6420, 174, 6278, 5736));
    Next(v, k + 1, Vec9(3135, 4051, 7381, 4254, 6420, 174, 6278, 5736, 5773));
    Next(v, k + 2, Vec9(916, 7381, 4254, 6420, 174, 6278, 5736, 5773, 3135));
    Next(v, k + 3, Vec9(6465, 4254, 6420, 174, 6278, 5736, 5773, 3135, 916));
    Next(v, k + 4, Vec9(7618, 6420, 174, 6278, 5736, 5773, 3135, 916, 6465));
    Next(v, k + 5, Vec9(8631, 174, 6278, 5736, 5773, 3135, 916, 6465, 7618));
    Next(v, k + 6, Vec9(1372, 6278, 5736, 5773, 3135, 916, 6465, 7618, 8631));
    Next(v, k + 7, Vec9(4906, 5736, 5773, 3135, 916, 6465, 7618, 8631, 1372));
    Next(v, k + 8, Vec9(830, 5773, 3135, 916, 6465, 7618, 8631, 1372, 4906));
    Next(v, k + 9, Vec9(4943, 3135, 916, 6465, 7618, 8631, 1372, 4906, 830));
    Next(v, k + 10, Vec9(8021, 916, 6465, 7618, 8631, 1372, 4906, 830, 4943));
    Next(v, k + 11, Vec9(2724, 6465, 7618, 8631, 1372, 4906, 830, 4943, 8021));
    Next(v, k + 12, Vec9(3741, 7618, 8631, 1372, 4906, 830, 4943, 8021, 2724));
    Next(v, k + 13, Vec9(3877, 8631, 1372, 4906, 830, 4943, 8021, 2724, 3741));
    Next(v, k + 14, Vec9(4754, 1372, 4906, 830, 4943, 8021, 2724, 3741, 3877));
    Next(v, k + 15, Vec9(6447, 4906, 830, 4943, 8021, 2724, 3741, 3877, 4754));
    Next(v, k + 16, Vec9(8288, 830, 4943, 8021, 2724, 3741, 3877, 4754, 6447));
    Next(v, k + 17, Vec9(2371, 4943, 8021, 2724, 3741, 3877, 4754, 6447, 8288));
    Next(v, k + 18, Vec9(2572, 8021, 2724, 3741, 3877, 4754, 6447, 8288, 2371));
    Next(v, k + 19, Vec9(5449, 2724, 3741, 3877, 4754, 6447, 8288, 2371, 2572));
    Next(v, k + 20, Vec9(7104, 3741, 3877, 4754, 6447, 8288, 2371, 2572, 5449));
    Next(v, k + 21, Vec9(6466, 3877, 4754, 6447, 8288, 2371, 2572, 5449, 7104));
    Next(v, k + 22, Vec9(7240, 4754, 6447, 8288, 2371, 2572, 5449, 7104, 6466));
    Next(v, k + 23, Vec9(7343, 6447, 8288, 2371, 2572, 5449, 7104, 6466, 7240));
    Next(v, k + 24, Vec9(8933, 8288, 2371, 2572, 5449, 7104, 6466, 7240, 7343));
  }

  lemma Segment12(v: Vec9, k: nat)
    requires Iter(v, k) == Vec9(9184, 2371, 2572, 5449, 7104, 6466, 7240, 7343, 8933)
    ensures Iter(v, k + 25) == Vec9(3263, 2243, 3366, 3870, 8108, 5465, 1831, 5957, 7898)
  {
    Next(v, k, Vec9(9184, 2371, 2572, 5449, 7104, 6466, 7240, 7343, 8933));
    Next(v, k + 1, Vec9(3016, 2572, 5449, 7104, 6466, 7240, 7343, 8933, 9184));
    Next(v, k + 2, Vec9(9385, 5449, 7104, 6466, 7240, 7343, 8933, 9184, 3016));
    Next(v, k + 3, Vec9(5893, 7104, 6466, 7240, 7343, 8933, 9184, 3016, 9385));
    Next(v, k + 4, Vec9(1211, 6466, 7240, 7343, 8933, 9184, 3016, 9385, 5893));
    Next(v, k + 5, Vec9(5255, 7240, 7343, 8933, 9184, 3016, 9385, 5893, 1211));
    Next(v, k + 6, Vec9(1985, 7343, 8933, 9184, 3016, 9385, 5893, 1211, 5255));
    Next(v, k + 7, Vec9(5358, 8933, 9184, 3016, 9385, 5893, 1211, 5255, 1985));
    Next(v, k + 8, Vec9(3575, 9184, 3016, 9385, 5893, 1211, 5255, 1985, 5358));
    Next(v, k + 9, Vec9(5609, 3016, 9385, 5893, 1211, 5255, 1985, 5358, 3575));
    Next(v, k + 10, Vec9(7236, 9385, 5893, 1211, 5255, 1985, 5358, 3575, 5609));
    Next(v, k + 11, Vec9(2149, 5893, 1211, 5255, 1985, 5358, 3575, 5609, 7236));
    Next(v, k + 12, Vec9(3744, 1211, 5255, 1985, 5358, 3575, 5609, 7236, 2149));
    Next(v, k + 13, Vec9(7296, 5255, 1985, 5358, 3575, 5609, 7236, 2149, 3744));
    Next(v, k + 14, Vec9(7788, 1985, 5358, 3575, 5609, 7236, 2149, 3744, 7296));
    Next(v, k + 15, Vec9(4026, 5358, 3575, 5609, 7236, 2149, 3744, 7296, 7788));
    Next(v, k + 16, Vec9(1332, 3575, 5609, 7236, 2149, 3744, 7296, 7788, 4026));
    Next(v, k + 17, Vec9(2243, 5609, 7236, 2149, 3744, 7296, 7788, 4026, 1332));
    Next(v, k + 18, Vec9(3366, 7236, 2149, 3744, 7296, 7788, 4026, 1332, 2243));
    Next(v, k + 19, Vec9(3870, 2149, 3744, 7296, 7788, 4026, 1332, 2243, 3366));
    Next(v, k + 20, Vec9(8108, 3744, 7296, 7788, 4026, 1332, 2243, 3366, 3870));
    Next(v, k + 21, Vec9(5465, 7296, 7788, 4026, 1332, 2243, 3366, 3870, 8108));
    Next(v, k + 22, Vec9(1831, 7788, 4026, 1332, 2243, 3366, 3870, 8108, 5465));
    Next(v, k + 23, Vec9(5957, 4026, 1332, 2243, 3366, 3870, 8108, 5465, 1831));
    Next(v, k + 24, Vec9(7898, 1332, 2243, 3366, 3870, 8108, 5465, 1831, 5957));
  }

  lemma Segment13(v: Vec9, k: nat)
    requires Iter(v, k) == Vec9(3263, 2243, 3366, 3870, 8108, 5465, 1831, 5957, 7898)
    ensures Iter(v, k + 25) == Vec9(4629, 5333, 828, 1820, 9747, 7657, 3221, 2400, 6798)
  {
    Next(v, k, Vec9(3263, 2243, 3366, 3870, 8108, 5465, 1831, 5957, 7898));
    Next(v, k + 1, Vec9(8809, 3366, 3870, 8108, 5465, 1831, 5957, 7898, 3263));
    Next(v, k + 2, Vec9(4386, 3870, 8108, 5465, 1831, 5957, 7898, 3263, 8809));
    Next(v, k + 3, Vec9(9313, 8108, 5465, 1831, 5957, 7898, 3263, 8809, 4386));
    Next(v, k + 4, Vec9(8624, 5465, 1831, 5957, 7898, 3263, 8809, 4386, 9313));
    Next(v, k + 5, Vec9(6670, 1831, 5957, 7898, 3263, 8809, 4386, 9313, 8624));
    Next(v, k + 6, Vec9(4990, 5957, 7898, 3263, 8809, 4386, 9313, 8624, 6670));
    Next(v, k + 7, Vec9(967, 7898, 3263, 8809, 4386, 9313, 8624, 6670, 4990));
    Next(v, k + 8, Vec9(6931, 3263, 8809, 4386, 9313, 8624, 6670, 4990, 967));
    Next(v, k + 9, Vec9(6161, 8809, 4386, 9313, 8624, 6670, 4990, 967, 6931));
    Next(v, k + 10, Vec9(2648, 4386, 9313, 8624, 6670, 4990, 967, 6931, 6161));
    Next(v, k + 11, Vec9(1738, 9313, 8624, 6670, 4990, 967, 6931, 6161, 2648));
    Next(v, k + 12, Vec9(7575, 8624, 6670, 4990, 967, 6931, 6161, 2648, 1738));
    Next(v, k + 13, Vec9(1049, 6670, 4990, 967, 6931, 6161, 2648, 1738, 7575));
    Next(v, k + 14, Vec9(5621, 4990, 967, 6931, 6161, 2648, 1738, 7575, 1049));
    Next(v, k + 15, Vec9(9198, 967, 6931, 6161, 2648, 1738, 7575, 1049, 5621));
    Next(v, k + 16, Vec9(1598, 6931, 6161, 2648, 1738, 7575, 1049, 5621, 9198));
    Next(v, k + 17, Vec9(5333, 6161, 2648, 1738, 7575, 1049, 5621, 9198, 1598));
    Next(v, k + 18, Vec9(828, 2648, 1738, 7575, 1049, 5621, 9198, 1598, 5333));
    Next(v, k + 19, Vec9(1820, 1738, 7575, 1049, 5621, 9198, 1598, 5333, 828));
    Next(v, k + 20, Vec9(9747, 7575, 1049, 5621, 9198, 1598, 5333, 828, 1820));
    Next(v, k + 21, Vec9(7657, 1049, 5621, 9198, 1598, 5333, 828, 1820, 9747));
    Next(v, k + 22, Vec9(3221, 5621, 9198, 1598, 5333, 828, 1820, 9747, 7657));
    Next(v, k + 23, Vec9(2400, 9198, 1598, 5333, 828, 1820, 9747, 7657, 3221));
    Next(v, k + 24, Vec9(6798, 1598, 5333, 828, 1820, 9747, 7657, 3221, 2400));
  }

  lemma Segment14(v: Vec9, k: nat)
    requires Iter(v, k) == Vec9(4629, 5333, 828, 1820, 9747, 7657, 3221, 2400, 6798)
    ensures Iter(v, k + 25) == Vec9(3704, 5799, 646, 3442, 2423, 3237, 8983, 7890, 8339)
  {
    Next(v, k, Vec9(4629, 5333, 828, 1820, 9747, 7657, 3221, 2400, 6798));
    Next(v, k + 1, Vec9(704, 828, 1820, 9747, 7657, 3221, 2400, 6798, 4629));
    Next(v, k + 2, Vec9(124, 1820, 9747, 7657, 3221, 2400, 6798, 4629, 704));
    Next(v, k + 3, Vec9(1696, 9747, 7657, 3221, 2400, 6798, 4629, 704, 124));
    Next(v, k + 4, Vec9(8051, 7657, 3221, 2400, 6798, 4629, 704, 124, 1696));
    Next(v, k + 5, Vec9(9435, 3221, 2400, 6798, 4629, 704, 124, 1696, 8051));
    Next(v, k + 6, Vec9(3615, 2400, 6798, 4629, 704, 124, 1696, 8051, 9435));
    Next(v, k + 7, Vec9(8614, 6798, 4629, 704, 124, 1696, 8051, 9435, 3615));
    Next(v, k + 8, Vec9(8013, 4629, 704, 124, 1696, 8051, 9435, 3615, 8614));
    Next(v, k + 9, Vec9(6445, 704, 124, 1696, 8051, 9435, 3615, 8614, 8013));
    Next(v, k + 10, Vec9(4088, 124, 1696, 8051, 9435, 3615, 8614, 8013, 6445));
    Next(v, k + 11, Vec9(5865, 1696, 8051, 9435, 3615, 8614, 8013, 6445, 4088));
    Next(v, k + 12, Vec9(5660, 8051, 9435, 3615, 8614, 8013, 6445, 4088, 5865));
    Next(v, k + 13, Vec9(2391, 9435, 3615, 8614, 8013, 6445, 4088, 5865, 5660));
    Next(v, k + 14, Vec9(7044, 3615, 8614, 8013, 6445, 4088, 5865, 5660, 2391));
    Next(v, k + 15, Vec9(6400, 8614, 8013, 6445, 4088, 5865, 5660, 2391, 7044));
    Next(v, k + 16, Vec9(2214, 8013, 6445, 4088, 5865, 5660, 2391, 7044, 6400));
    Next(v, k + 17, Vec9(5799, 6445, 4088, 5865, 5660, 2391, 7044, 6400, 2214));
    Next(v, k + 18, Vec9(646, 4088, 5865, 5660, 2391, 7044, 6400, 2214, 5799));
    Next(v, k + 19, Vec9(3442, 5865, 5660, 2391, 7044, 6400, 2214, 5799, 646));
    Next(v, k + 20, Vec9(2423, 5660, 2391, 7044, 6400, 2214, 5799, 646, 3442));
    Next(v, k + 21, Vec9(3237, 2391, 7044, 6400, 2214, 5799, 646, 3442, 2423));
    Next(v, k + 22, Vec9(8983, 7044, 6400, 2214, 5799, 646, 3442, 2423, 3237));
    Next(v, k + 23, Vec9(7890, 6400, 2214, 5799, 646, 3442, 2423, 3237, 8983));
    Next(v, k + 24, Vec9(8339, 2214, 5799, 646, 3442, 2423, 3237, 8983, 7890));
  }

  lemma Segment15(v: Vec9, k: nat)
    requires Iter(v, k) == Vec9(3704, 5799, 646, 3442, 2423, 3237, 8983, 7890, 8339)
    ensures Iter(v, k + 25) == Vec9(9658, 5420, 4386, 7561, 8530, 9757, 8804, 7827, 8307)
  {
    Next(v, k, Vec9(3704, 5799, 646, 3442, 2423, 3237, 8983, 7890, 8339));
    Next(v, k + 1, Vec9(2095, 646, 3442, 2423, 3237, 8983, 7890, 8339, 3704));
    Next(v, k + 2, Vec9(8380, 3442, 2423, 3237, 8983, 7890, 8339, 3704, 2095));
    Next(v, k + 3, Vec9(4891, 2423, 3237, 8983, 7890, 8339, 3704, 2095, 8380));
    Next(v, k + 4, Vec9(7361, 3237, 8983, 7890, 8339, 3704, 2095, 8380, 4891));
    Next(v, k + 5, Vec9(5705, 8983, 7890, 8339, 3704, 2095, 8380, 4891, 7361));
    Next(v, k + 6, Vec9(3278, 7890, 8339, 3704, 2095, 8380, 4891, 7361, 5705));
    Next(v, k + 7, Vec9(4612, 8339, 3704, 2095, 8380, 4891, 7361, 5705, 3278));
    Next(v, k + 8, Vec9(3727, 3704, 2095, 8380, 4891, 7361, 5705, 3278, 4612));
    Next(v, k + 9, Vec9(9806, 2095, 8380, 4891, 7361, 5705, 3278, 4612, 3727));
    Next(v, k + 10, Vec9(2118, 8380, 4891, 7361, 5705, 3278, 4612, 3727, 9806));
    Next(v, k + 11, Vec9(6262, 4891, 7361, 5705, 3278, 4612, 3727, 9806, 2118));
    Next(v, k + 12, Vec9(8458, 7361, 5705, 3278, 4612, 3727, 9806, 2118, 6262));
    Next(v, k + 13, Vec9(8732, 5705, 3278, 4612, 3727, 9806, 2118, 6262, 8458));
    Next(v, k + 14, Vec9(6802, 3278, 4612, 3727, 9806, 2118, 6262, 8458, 8732));
    Next(v, k + 15, Vec9(6305, 4612, 3727, 9806, 2118, 6262, 8458, 8732, 6802));
    Next(v, k + 16, Vec9(8136, 3727, 9806, 2118, 6262, 8458, 8732, 6802, 6305));
    Next(v, k + 17, Vec9(5420, 9806, 2118, 6262, 8458, 8732, 6802, 6305, 8136));
    Next(v, k + 18, Vec9(4386, 2118, 6262, 8458, 8732, 6802, 6305, 8136, 5420));
    Next(v, k + 19, Vec9(7561, 6262, 8458, 8732, 6802, 6305, 8136, 5420, 4386));
    Next(v, k + 20, Vec9(8530, 8458, 8732, 6802, 6305, 8136, 5420, 4386, 7561));
    Next(v, k + 21, Vec9(9757, 8732, 6802, 6305, 8136, 5420, 4386, 7561, 8530));
    Next(v, k + 22, Vec9(8804, 6802, 6305, 8136, 5420, 4386, 7561, 8530, 9757));
    Next(v, k + 23, Vec9(7827, 6305, 8136, 5420, 4386, 7561, 8530, 9757, 8804));
    Next(v, k + 24, Vec9(8307, 8136, 5420, 4386, 7561, 8530, 9757, 8804, 7827));
  }

  lemma Segment16(v: Vec9, k: nat)
    requires Iter(v, k) == Vec9(9658, 5420, 4386, 7561, 8530, 9757, 8804, 7827, 8307)
    ensures Iter(v, k + 25) == Vec9(3582, 3149, 7218, 7664, 5736, 9288, 4939, 656, 2389)
  {
    Next(v, k, Vec9(9658, 5420, 4386, 7561, 8530, 9757, 8804, 7827, 8307));
    Next(v, k + 1, Vec9(5591, 4386, 7561, 8530, 9757, 8804, 7827, 8307, 9658));
    Next(v, k + 2, Vec9(8624, 7561, 8530, 9757, 8804, 7827, 8307, 9658, 5591));
    Next(v, k + 3, Vec9(8766, 8530, 9757, 8804, 7827, 8307, 9658, 5591, 8624));
    Next(v, k + 4, Vec9(9593, 9757, 8804, 7827, 8307, 9658, 5591, 8624, 8766));
    Next(v, k + 5, Vec9(164, 8804, 7827, 8307, 9658, 5591, 8624, 8766, 9593));
    Next(v, k + 6, Vec9(8640, 7827, 8307, 9658, 5591, 8624, 8766, 9593, 164));
    Next(v, k + 7, Vec9(9016, 8307, 9658, 5591, 8624, 8766, 9593, 164, 8640));
    Next(v, k + 8, Vec9(9120, 9658, 5591, 8624, 8766, 9593, 164, 8640, 9016));
    Next(v, k + 9, Vec9(538, 5591, 8624, 8766, 9593, 164, 8640, 9016, 9120));
    Next(v, k + 10, Vec9(5053, 8624, 8766, 9593, 164, 8640, 9016, 9120, 538));
    Next(v, k + 11, Vec9(3571, 8766, 9593, 164, 8640, 9016, 9120, 538, 5053));
    Next(v, k + 12, Vec9(5195, 9593, 164, 8640, 9016, 9120, 538, 5053, 3571));
    Next(v, k + 13, Vec9(4398, 164, 8640, 9016, 9120, 538, 5053, 3571, 5195));
    Next(v, k + 14, Vec9(5595, 8640, 9016, 9120, 538, 5053, 3571, 5195, 4398));
    Next(v, k + 15, Vec9(3045, 9016, 9120, 538, 5053, 3571, 5195, 4398, 5595));
    Next(v, k + 16, Vec9(5971, 9120, 538, 5053, 3571, 5195, 4398, 5595, 3045));
    Next(v, k + 17, Vec9(3149, 538, 5053, 3571, 5195, 4398, 5595, 3045, 5971));
    Next(v, k + 18, Vec9(7218, 5053, 3571, 5195, 4398, 5595, 3045, 5971, 3149));
    Next(v, k + 19, Vec9(7664, 3571, 5195, 4398, 5595, 3045, 5971, 3149, 7218));
    Next(v, k + 20, Vec9(5736, 5195, 4398, 5595, 3045, 5971, 3149, 7218, 7664));
    Next(v, k + 21, Vec9(9288, 4398, 5595, 3045, 5971, 3149, 7218, 7664, 5736));
    Next(v, k + 22, Vec9(4939, 5595, 3045, 5971, 3149, 7218, 7664, 5736, 9288));
    Next(v, k + 23, Vec9(656, 3045, 5971, 3149, 7218, 7664, 5736, 9288, 4939));
    Next(v, k + 24, Vec9(2389, 5971, 3149, 7218, 7664, 5736, 9288, 4939, 656));
  }

  lemma Segment17(v: Vec9, k: nat)
    requires Iter(v, k) == Vec9(3582, 3149, 7218, 7664, 5736, 9288, 4939, 656, 2389)
    ensures Iter(v, k + 25) == Vec9(6542, 6074, 4230, 4691, 3868, 7244, 7025, 1929, 320)
  {
    Next(v, k, Vec9(3582, 3149, 7218, 7664, 5736, 9288, 4939, 656, 2389));
    Next(v, k + 1, Vec9(9396, 7218, 7664, 5736, 9288, 4939, 656, 2389, 3582));
    Next(v, k + 2, Vec9(7651, 7664, 5736, 9288, 4939, 656, 2389, 3582, 9396));
    Next(v, k + 3, Vec9(13, 5736, 9288, 4939, 656, 2389, 3582, 9396, 7651));
    Next(v, k + 4, Vec9(5723, 9288, 4939, 656, 2389, 3582, 9396, 7651, 13));
    Next(v, k + 5, Vec9(3565, 4939, 656, 2389, 3582, 9396, 7651, 13, 5723));
    Next(v, k + 6, Vec9(1374, 656, 2389, 3582, 9396, 7651, 13, 5723, 3565));
    Next(v, k + 7, Vec9(9111, 2389, 3582, 9396, 7651, 13, 5723, 3565, 1374));
    Next(v, k + 8, Vec9(3107, 3582, 9396, 7651, 13, 5723, 3565, 1374, 9111));
    Next(v, k + 9, Vec9(475, 9396, 7651, 13, 5723, 3565, 1374, 9111, 3107));
    Next(v, k + 10, Vec9(8921, 7651, 13, 5723, 3565, 1374, 9111, 3107, 475));
    Next(v, k + 11, Vec9(8559, 13, 5723, 3565, 1374, 9111, 3107, 475, 8921));
    Next(v, k + 12, Vec9(1283, 5723, 3565, 1374, 9111, 3107, 475, 8921, 8559));
    Next(v, k + 13, Vec9(4440, 3565, 1374, 9111, 3107, 475, 8921, 8559, 1283));
    Next(v, k + 14, Vec9(8954, 1374, 9111, 3107, 475, 8921, 8559, 1283, 4440));
    Next(v, k + 15, Vec9(2249, 9111, 3107, 475, 8921, 8559, 1283, 4440, 8954));
    Next(v, k + 16, Vec9(6862, 3107, 475, 8921, 8559, 1283, 4440, 8954, 2249));
    Next(v, k + 17, Vec9(6074, 475, 8921, 8559, 1283, 4440, 8954, 2249, 6862));
    Next(v, k + 18, Vec9(4230, 8921, 8559, 1283, 4440, 8954, 2249, 6862, 6074));
    Next(v, k + 19, Vec9(4691, 8559, 1283, 4440, 8954, 2249, 6862, 6074, 4230));
    Next(v, k + 20, Vec9(3868, 1283, 4440, 8954, 2249, 6862, 6074, 4230, 4691));
    Next(v, k + 21, Vec9(7244, 4440, 8954, 2249, 6862, 6074, 4230, 4691, 3868));
    Next(v, k + 22, Vec9(7025, 8954, 2249, 6862, 6074, 4230, 4691, 3868, 7244));
    Next(v, k + 23, Vec9(1929, 2249, 6862, 6074, 4230, 4691, 3868, 7244, 7025));
    Next(v, k + 24, Vec9(320, 6862, 6074, 4230, 4691, 3868, 7244, 7025, 1929));
  }

  lemma Segment18(v: Vec9, k: nat)
    requires Iter(v, k) == Vec9(6542, 6074, 4230, 4691, 3868, 7244, 7025, 1929, 320)
    ensures Iter(v, k + 25) == Vec9(4516, 7775, 6549, 8146, 1515, 8475, 5068, 4416, 9414)
  {
    Next(v, k, Vec9(6542, 6074, 4230, 4691, 3868, 7244, 7025, 1929, 320));
    Next(v, k + 1, Vec9(9361, 4230, 4691, 3868, 7244, 7025, 1929, 320, 6542));
    Next(v, k + 2, Vec9(4698, 4691, 3868, 7244, 7025, 1929, 320, 6542, 9361));
    Next(v, k + 3, Vec9(9822, 3868, 7244, 7025, 1929, 320, 6542, 9361, 4698));
    Next(v, k + 4, Vec9(3875, 7244, 7025, 1929, 320, 6542, 9361, 4698, 9822));
    Next(v, k + 5, Vec9(3369, 7025, 1929, 320, 6542, 9361, 4698, 9822, 3875));
    Next(v, k + 6, Vec9(3656, 1929, 320, 6542, 9361, 4698, 9822, 3875, 3369));
    Next(v, k + 7, Vec9(8102, 320, 6542, 9361, 4698, 9822, 3875, 3369, 3656));
    Next(v, k + 8, Vec9(2047, 6542, 9361, 4698, 9822, 3875, 3369, 3656, 8102));
    Next(v, k + 9, Vec9(4495, 9361, 4698, 9822, 3875, 3369, 3656, 8102, 2047));
    Next(v, k + 10, Vec9(4866, 4698, 9822, 3875, 3369, 3656, 8102, 2047, 4495));
    Next(v, k + 11, Vec9(9661, 9822, 3875, 3369, 3656, 8102, 2047, 4495, 4866));
    Next(v, k + 12, Vec9(161, 3875, 3369, 3656, 8102, 2047, 4495, 4866, 9661));
    Next(v, k + 13, Vec9(3714, 3369, 3656, 8102, 2047, 4495, 4866, 9661, 161));
    Next(v, k + 14, Vec9(9484, 3656, 8102, 2047, 4495, 4866, 9661, 161, 3714));
    Next(v, k + 15, Vec9(4001, 8102, 2047, 4495, 4866, 9661, 161, 3714, 9484));
    Next(v, k + 16, Vec9(4101, 2047, 4495, 4866, 9661, 161, 3714, 9484, 4001));
    Next(v, k + 17, Vec9(7775, 4495, 4866, 9661, 161, 3714, 9484, 4001, 4101));
    Next(v, k + 18, Vec9(6549, 4866, 9661, 161, 3714, 9484, 4001, 4101, 7775));
    Next(v, k + 19, Vec9(8146, 9661, 161, 3714, 9484, 4001, 4101, 7775, 6549));
    Next(v, k + 20, Vec9(1515, 161, 3714, 9484, 4001, 4101, 7775, 6549, 8146));
    Next(v, k + 21, Vec9(8475, 3714, 9484, 4001, 4101, 7775, 6549, 8146, 1515));
    Next(v, k + 22, Vec9(5068, 9484, 4001, 4101, 7775, 6549, 8146, 1515, 8475));
    Next(v, k + 23, Vec9(4416, 4001, 4101, 7775, 6549, 8146, 1515, 8475, 5068));
    Next(v, k + 24, Vec9(9414, 4101, 7775, 6549, 8146, 1515, 8475, 5068, 4416));
  }

  lemma Segment19(v: Vec9, k: nat)
    requires Iter(v, k) == Vec9(4516, 7775, 6549, 8146, 1515, 8475, 5068, 4416, 9414)
    ensures Iter(v, k + 25) == Vec9(7490, 5938, 328, 6494, 9632, 8585, 9173, 4543, 4480)
  {
    Next(v, k, Vec9(4516, 7775, 6549, 8146, 1515, 8475, 5068, 4416, 9414));
    Next(v, k + 1, Vec9(3259, 6549, 8146, 1515, 8475, 5068, 4416, 9414, 4516));
    Next(v, k + 2, Vec9(3290, 8146, 1515, 8475, 5068, 4416, 9414, 4516, 3259));
    Next(v, k + 3, Vec9(4856, 1515, 8475, 5068, 4416, 9414, 4516, 3259, 3290));
    Next(v, k + 4, Vec9(6488, 8475, 5068, 4416, 9414, 4516, 3259, 3290, 4856));
    Next(v, k + 5, Vec9(1987, 5068, 4416, 9414, 4516, 3259, 3290, 4856, 6488));
    Next(v, k + 6, Vec9(3081, 4416, 9414, 4516, 3259, 3290, 4856, 6488, 1987));
    Next(v, k + 7, Vec9(1335, 9414, 4516, 3259, 3290, 4856, 6488, 1987, 3081));
    Next(v, k + 8, Vec9(8079, 4516, 3259, 3290, 4856, 6488, 1987, 3081, 1335));
    Next(v, k + 9, Vec9(6266, 3259, 3290, 4856, 6488, 1987, 3081, 1335, 8079));
    Next(v, k + 10, Vec9(6822, 3290, 4856, 6488, 1987, 3081, 1335, 8079, 6266));
    Next(v, k + 11, Vec9(6297, 4856, 6488, 1987, 3081, 1335, 8079, 6266, 6822));
    Next(v, k + 12, Vec9(8388, 6488, 1987, 3081, 1335, 8079, 6266, 6822, 6297));
    Next(v, k + 13, Vec9(7929, 1987, 3081, 1335, 8079, 6266, 6822, 6297, 8388));
    Next(v, k + 14, Vec9(3887, 3081, 1335, 8079, 6266, 6822, 6297, 8388, 7929));
    Next(v, k + 15, Vec9(9023, 1335, 8079, 6266, 6822, 6297, 8388, 7929, 3887));
    Next(v, k + 16, Vec9(2141, 8079, 6266, 6822, 6297, 8388, 7929, 3887, 9023));
    Next(v, k + 17, Vec9(5938, 6266, 6822, 6297, 8388, 7929, 3887, 9023, 2141));
    Next(v, k + 18, Vec9(328, 6822, 6297, 8388, 7929, 3887, 9023, 2141, 5938));
    Next(v, k + 19, Vec9(6494, 6297, 8388, 7929, 3887, 9023, 2141, 5938, 328));
    Next(v, k + 20, Vec9(9632, 8388, 7929, 3887, 9023, 2141, 5938, 328, 6494));
    Next(v, k + 21, Vec9(8585, 7929, 3887, 9023, 2141, 5938, 328, 6494, 9632));
    Next(v, k + 22, Vec9(9173, 3887, 9023, 2141, 5938, 328, 6494, 9632, 8585));
    Next(v, k + 23, Vec9(4543, 9023, 2141, 5938, 328, 6494, 9632, 8585, 9173));
    Next(v, k + 24, Vec9(4480, 2141, 5938, 328, 6494, 9632, 8585, 9173, 4543));
  }

  lemma Segment20(v: Vec9, k: nat)
    requires Iter(v, k) == Vec9(7490, 5938, 328, 6494, 9632, 8585, 9173, 4543, 4480)
    ensures Iter(v, k + 25) == Vec9(7619, 4599, 7177, 8982, 6226, 2838, 2945, 4668, 3154)
  {
    Next(v, k, Vec9(7490, 5938, 328, 6494, 9632, 8585, 9173, 4543, 4480));
    Next(v, k + 1, Vec9(8277, 328, 6494, 9632, 8585, 9173, 4543, 4480, 7490));
    Next(v, k + 2, Vec9(1880, 6494, 9632, 8585, 9173, 4543, 4480, 7490, 8277));
    Next(v, k + 3, Vec9(4614, 9632, 8585, 9173, 4543, 4480, 7490, 8277, 1880));
    Next(v, k + 4, Vec9(5018, 8585, 9173, 4543, 4480, 7490, 8277, 1880, 4614));
    Next(v, k + 5, Vec9(3567, 9173, 4543, 4480, 7490, 8277, 1880, 4614, 5018));
    Next(v, k + 6, Vec9(5606, 4543, 4480, 7490, 8277, 1880, 4614, 5018, 3567));
    Next(v, k + 7, Vec9(8766, 4480, 7490, 8277, 1880, 4614, 5018, 3567, 5606));
    Next(v, k + 8, Vec9(5543, 7490, 8277, 1880, 4614, 5018, 3567, 5606, 8766));
    Next(v, k + 9, Vec9(1947, 8277, 1880, 4614, 5018, 3567, 5606, 8766, 5543));
    Next(v, k + 10, Vec9(6330, 1880, 4614, 5018, 3567, 5606, 8766, 5543, 1947));
    Next(v, k + 11, Vec9(5379, 4614, 5018, 3567, 5606, 8766, 5543, 1947, 6330));
    Next(v, k + 12, Vec9(9064, 5018, 3567, 5606, 8766, 5543, 1947, 6330, 5379));
    Next(v, k + 13, Vec9(5783, 3567, 5606, 8766, 5543, 1947, 6330, 5379, 9064));
    Next(v, k + 14, Vec9(7613, 5606, 8766, 5543, 1947, 6330, 5379, 9064, 5783));
    Next(v, k + 15, Vec9(7822, 8766, 5543, 1947, 6330, 5379, 9064, 5783, 7613));
    Next(v, k + 16, Vec9(944, 5543, 1947, 6330, 5379, 9064, 5783, 7613, 7822));
    Next(v, k + 17, Vec9(4599, 1947, 6330, 5379, 9064, 5783, 7613, 7822, 944));
    Next(v, k + 18, Vec9(7177, 6330, 5379, 9064, 5783, 7613, 7822, 944, 4599));
    Next(v, k + 19, Vec9(8982, 5379, 9064, 5783, 7613, 7822, 944, 4599, 7177));
    Next(v, k + 20, Vec9(6226, 9064, 5783, 7613, 7822, 944, 4599, 7177, 8982));
    Next(v, k + 21, Vec9(2838, 5783, 7613, 7822, 944, 4599, 7177, 8982, 6226));
    Next(v, k + 22, Vec9(2945, 7613, 7822, 944, 4599, 7177, 8982, 6226, 2838));
    Next(v, k + 23, Vec9(4668, 7822, 944, 4599, 7177, 8982, 6226, 2838, 2945));
    Next(v, k + 24, Vec9(3154, 944, 4599, 7177, 8982, 6226, 2838, 2945, 4668));
  }

  lemma Segment21(v: Vec9, k: nat)
    requires Iter(v, k) == Vec9(7619, 4599, 7177, 8982, 6226, 2838, 2945, 4668, 3154)
    ensures Iter(v, k + 25) == Vec9(9674, 5207, 6207, 8846, 5956, 7514, 6115, 5140, 982)
  {
    Next(v, k, Vec9(7619, 4599, 7177, 8982, 6226, 2838, 2945, 4668, 3154));
    Next(v, k + 1, Vec9(6809, 7177, 8982, 6226, 2838, 2945, 4668, 3154, 7619));
    Next(v, k + 2, Vec9(368, 8982, 6226, 2838, 2945, 4668, 3154, 7619, 6809));
    Next(v, k + 3, Vec9(8614, 6226, 2838, 2945, 4668, 3154, 7619, 6809, 368));
    Next(v, k + 4, Vec9(7441, 2838, 2945, 4668, 3154, 7619, 6809, 368, 8614));
    Next(v, k + 5, Vec9(5226, 2945, 4668, 3154, 7619, 6809, 368, 8614, 7441));
    Next(v, k + 6, Vec9(7548, 4668, 3154, 7619, 6809, 368, 8614, 7441, 5226));
    Next(v, k + 7, Vec9(6949, 3154, 7619, 6809, 368, 8614, 7441, 5226, 7548));
    Next(v, k + 8, Vec9(6034, 7619, 6809, 368, 8614, 7441, 5226, 7548, 6949));
    Next(v, k + 9, Vec9(1585, 6809, 368, 8614, 7441, 5226, 7548, 6949, 6034));
    Next(v, k + 10, Vec9(5224, 368, 8614, 7441, 5226, 7548, 6949, 6034, 1585));
    Next(v, k + 11, Vec9(4973, 8614, 7441, 5226, 7548, 6949, 6034, 1585, 5224));
    Next(v, k + 12, Vec9(3641, 7441, 5226, 7548, 6949, 6034, 1585, 5224, 4973));
    Next(v, k + 13, Vec9(3800, 5226, 7548, 6949, 6034, 1585, 5224, 4973, 3641));
    Next(v, k + 14, Vec9(1426, 7548, 6949, 6034, 1585, 5224, 4973, 3641, 3800));
    Next(v, k + 15, Vec9(6122, 6949, 6034, 1585, 5224, 4973, 3641, 3800, 1426));
    Next(v, k + 16, Vec9(827, 6034, 1585, 5224, 4973, 3641, 3800, 1426, 6122));
    Next(v, k + 17, Vec9(5207, 1585, 5224, 4973, 3641, 3800, 1426, 6122, 827));
    Next(v, k + 18, Vec9(6207, 5224, 4973, 3641, 3800, 1426, 6122, 827, 5207));
    Next(v, k + 19, Vec9(8846, 4973, 3641, 3800, 1426, 6122, 827, 5207, 6207));
    Next(v, k + 20, Vec9(5956, 3641, 3800, 1426, 6122, 827, 5207, 6207, 8846));
    Next(v, k + 21, Vec9(7514, 3800, 1426, 6122, 827, 5207, 6207, 8846, 5956));
    Next(v, k + 22, Vec9(6115, 1426, 6122, 827, 5207, 6207, 8846, 5956, 7514));
    Next(v, k + 23, Vec9(5140, 6122, 827, 5207, 6207, 8846, 5956, 7514, 6115));
    Next(v, k + 24, Vec9(982, 827, 5207, 6207, 8846, 5956, 7514, 6115, 5140));
  }

  lemma Segment22(v: Vec9, k: nat)
    requires Iter(v, k) == Vec9(9674, 5207, 6207, 8846, 5956, 7514, 6115, 5140, 982)
    ensures Iter(v, k + 25) == Vec9(9259, 3011, 4436, 3308, 9451, 5449, 7093, 9582, 9615)
  {
    Next(v, k, Vec9(9674, 5207, 6207, 8846, 5956, 7514, 6115, 5140, 982));
    Next(v, k + 1, Vec9(5362, 6207, 8846, 5956, 7514, 6115, 5140, 982, 9674));
    Next(v, k + 2, Vec9(845, 8846, 5956, 7514, 6115, 5140, 982, 9674, 5362));
    Next(v, k + 3, Vec9(8001, 5956, 7514, 6115, 5140, 982, 9674, 5362, 845));
    Next(v, k + 4, Vec9(7784, 7514, 6115, 5140, 982, 9674, 5362, 845, 8001));
    Next(v, k + 5, Vec9(9559, 6115, 5140, 982, 9674, 5362, 845, 8001, 7784));
    Next(v, k + 6, Vec9(6385, 5140, 982, 9674, 5362, 845, 8001, 7784, 9559));
    Next(v, k + 7, Vec9(8584, 982, 9674, 5362, 845, 8001, 7784, 9559, 6385));
    Next(v, k + 8, Vec9(2227, 9674, 5362, 845, 8001, 7784, 9559, 6385, 8584));
    Next(v, k + 9, Vec9(7447, 5362, 845, 8001, 7784, 9559, 6385, 8584, 2227));
    Next(v, k + 10, Vec9(7744, 845, 8001, 7784, 9559, 6385, 8584, 2227, 7447));
    Next(v, k + 11, Vec9(2930, 8001, 7784, 9559, 6385, 8584, 2227, 7447, 7744));
    Next(v, k + 12, Vec9(5071, 7784, 9559, 6385, 8584, 2227, 7447, 7744, 2930));
    Next(v, k + 13, Vec9(2713, 9559, 6385, 8584, 2227, 7447, 7744, 2930, 5071));
    Next(v, k + 14, Vec9(6846, 6385, 8584, 2227, 7447, 7744, 2930, 5071, 2713));
    Next(v, k + 15, Vec9(9368, 8584, 2227, 7447, 7744, 2930, 5071, 2713, 6846));
    Next(v, k + 16, Vec9(9045, 2227, 7447, 7744, 2930, 5071, 2713, 6846, 9368));
    Next(v, k + 17, Vec9(3011, 7447, 7744, 2930, 5071, 2713, 6846, 9368, 9045));
    Next(v, k + 18, Vec9(4436, 7744, 2930, 5071, 2713, 6846, 9368, 9045, 3011));
    Next(v, k + 19, Vec9(3308, 2930, 5071, 2713, 6846, 9368, 9045, 3011, 4436));
    Next(v, k + 20, Vec9(9451, 5071, 2713, 6846, 9368, 9045, 3011, 4436, 3308));
    Next(v, k + 21, Vec9(5449, 2713, 6846, 9368, 9045, 3011, 4436, 3308, 9451));
    Next(v, k + 22, Vec9(7093, 6846, 9368, 9045, 3011, 4436, 3308, 9451, 5449));
    Next(v, k + 23, Vec9(9582, 9368, 9045, 3011, 4436, 3308, 9451, 5449, 7093));
    Next(v, k + 24, Vec9(9615, 9045, 3011, 4436, 3308, 9451, 5449, 7093, 9582));
  }

  lemma Segment23(v: Vec9, k: nat)
    requires Iter(v, k) == Vec9(9259, 3011, 4436, 3308, 9451, 5449, 7093, 9582, 9615)
    ensures Iter(v, k + 25) == Vec9(8705, 671, 9742, 3084, 4603, 9821, 2411, 3466, 9128)
  {
    Next(v, k, Vec9(9259, 3011, 4436, 3308, 9451, 5449, 7093, 9582, 9615));
    Next(v, k + 1, Vec9(3581, 4436, 3308, 9451, 5449, 7093, 9582, 9615, 9259));
    Next(v, k + 2, Vec9(855, 3308, 9451, 5449, 7093, 9582, 9615, 9259, 3581));
    Next(v, k + 3, Vec9(2453, 9451, 5449, 7093, 9582, 9615, 9259, 3581, 855));
    Next(v, k + 4, Vec9(6998, 5449, 7093, 9582, 9615, 9259, 3581, 855, 2453));
    Next(v, k + 5, Vec9(8280, 7093, 9582, 9615, 9259, 3581, 855, 2453, 6998));
    Next(v, k + 6, Vec9(8642, 9582, 9615, 9259, 3581, 855, 2453, 6998, 8280));
    Next(v, k + 7, Vec9(940, 9615, 9259, 3581, 855, 2453, 6998, 8280, 8642));
    Next(v, k + 8, Vec9(8675, 9259, 3581, 855, 2453, 6998, 8280, 8642, 940));
    Next(v, k + 9, Vec9(584, 3581, 855, 2453, 6998, 8280, 8642, 940, 8675));
    Next(v, k + 10, Vec9(2997, 855, 2453, 6998, 8280, 8642, 940, 8675, 584));
    Next(v, k + 11, Vec9(7687, 2453, 6998, 8280, 8642, 940, 8675, 584, 2997));
    Next(v, k + 12, Vec9(4595, 6998, 8280, 8642, 940, 8675, 584, 2997, 7687));
    Next(v, k + 13, Vec9(2403, 8280, 8642, 940, 8675, 584, 2997, 7687, 4595));
    Next(v, k + 14, Vec9(5877, 8642, 940, 8675, 584, 2997, 7687, 4595, 2403));
    Next(v, k + 15, Vec9(2765, 940, 8675, 584, 2997, 7687, 4595, 2403, 5877));
    Next(v, k + 16, Vec9(8004, 8675, 584, 2997, 7687, 4595, 2403, 5877, 2765));
    Next(v, k + 17, Vec9(671, 584, 2997, 7687, 4595, 2403, 5877, 2765, 8004));
    Next(v, k + 18, Vec9(9742, 2997, 7687, 4595, 2403, 5877, 2765, 8004, 671));
    Next(v, k + 19, Vec9(3084, 7687, 4595, 2403, 5877, 2765, 8004, 671, 9742));
    Next(v, k + 20, Vec9(4603, 4595, 2403, 5877, 2765, 8004, 671, 9742, 3084));
    Next(v, k + 21, Vec9(9821, 2403, 5877, 2765, 8004, 671, 9742, 3084, 4603));
    Next(v, k + 22, Vec9(2411, 5877, 2765, 8004, 671, 9742, 3084, 4603, 9821));
    Next(v, k + 23, Vec9(3466, 2765, 8004, 671, 9742, 3084, 4603, 9821, 2411));
    Next(v, k + 24, Vec9(9128, 8004, 671, 9742, 3084, 4603, 9821, 2411, 3466));
  }

  lemma Segment24(v: Vec9, k: nat)
    requires Iter(v, k) == Vec9(8705, 671, 9742, 3084, 4603, 9821, 2411, 3466, 9128)
    ensures Iter(v, k + 25) == Vec9(1280, 9819, 997, 9640, 7328, 328, 1482, 6892, 6448)
  {
    Next(v, k, Vec9(8705, 671, 9742, 3084, 4603, 9821, 2411, 3466, 9128));
    Next(v, k + 1, Vec9(1795, 9742, 3084, 4603, 9821, 2411, 3466, 9128, 8705));
    Next(v, k + 2, Vec9(7947, 3084, 4603, 9821, 2411, 3466, 9128, 8705, 1795));
    Next(v, k + 3, Vec9(4966, 4603, 9821, 2411, 3466, 9128, 8705, 1795, 7947));
    Next(v, k + 4, Vec9(9466, 9821, 2411, 3466, 9128, 8705, 1795, 7947, 4966));
    Next(v, k + 5, Vec9(355, 2411, 3466, 9128, 8705, 1795, 7947, 4966, 9466));
    Next(v, k + 6, Vec9(2056, 3466, 9128, 8705, 1795, 7947, 4966, 9466, 355));
    Next(v, k + 7, Vec9(1410, 9128, 8705, 1795, 7947, 4966, 9466, 355, 2056));
    Next(v, k + 8, Vec9(7718, 8705, 1795, 7947, 4966, 9466, 355, 2056, 1410));
    Next(v, k + 9, Vec9(987, 1795, 7947, 4966, 9466, 355, 2056, 1410, 7718));
    Next(v, k + 10, Vec9(808, 7947, 4966, 9466, 355, 2056, 1410, 7718, 987));
    Next(v, k + 11, Vec9(7139, 4966, 9466, 355, 2056, 1410, 7718, 987, 808));
    Next(v, k + 12, Vec9(7656, 9466, 355, 2056, 1410, 7718, 987, 808, 7139));
    Next(v, k + 13, Vec9(1810, 355, 2056, 1410, 7718, 987, 808, 7139, 7656));
    Next(v, k + 14, Vec9(8374, 2056, 1410, 7718, 987, 808, 7139, 7656, 1810));
    Next(v, k + 15, Vec9(3511, 1410, 7718, 987, 808, 7139, 7656, 1810, 8374));
    Next(v, k + 16, Vec9(7728, 7718, 987, 808, 7139, 7656, 1810, 8374, 3511));
    Next(v, k + 17, Vec9(9819, 987, 808, 7139, 7656, 1810, 8374, 3511, 7728));
    Next(v, k + 18, Vec9(997, 808, 7139, 7656, 1810, 8374, 3511, 7728, 9819));
    Next(v, k + 19, Vec9(9640, 7139, 7656, 1810, 8374, 3511, 7728, 9819, 997));
    Next(v, k + 20, Vec9(7328, 7656, 1810, 8374, 3511, 7728, 9819, 997, 9640));
    Next(v, k + 21, Vec9(328, 1810, 8374, 3511, 7728, 9819, 997, 9640, 7328));
    Next(v, k + 22, Vec9(1482, 8374, 3511, 7728, 9819, 997, 9640, 7328, 328));
    Next(v, k + 23, Vec9(6892, 3511, 7728, 9819, 997, 9640, 7328, 328, 1482));
    Next(v, k + 24, Vec9(6448, 7728, 9819, 997, 9640, 7328, 328, 1482, 6892));
  }

  lemma Segment25(v: Vec9, k: nat)
    requires Iter(v, k) == Vec9(1280, 9819, 997, 9640, 7328, 328, 1482, 6892, 6448)
    ensures Iter(v, k + 25) == Vec9(6409, 2321, 8103, 9670, 4331, 8679, 7773, 5615, 1784)
  {
    Next(v, k, Vec9(1280, 9819, 997, 9640, 7328, 328, 1482, 6892, 6448));
    Next(v, k + 1, Vec9(8539, 997, 9640, 7328, 328, 1482, 6892, 6448, 1280));
    Next(v, k + 2, Vec9(2287, 9640, 7328, 328, 1482, 6892, 6448, 1280, 8539));
    Next(v, k + 3, Vec9(7353, 7328, 328, 1482, 6892, 6448, 1280, 8539, 2287));
    Next(v, k + 4, Vec9(9804, 328, 1482, 6892, 6448, 1280, 8539, 2287, 7353));
    Next(v, k + 5, Vec9(353, 1482, 6892, 6448, 1280, 8539, 2287, 7353, 9804));
    Next(v, k + 6, Vec9(1129, 6892, 6448, 1280, 8539, 2287, 7353, 9804, 353));
    Next(v, k + 7, Vec9(5763, 6448, 1280, 8539, 2287, 7353, 9804, 353, 1129));
    Next(v, k + 8, Vec9(685, 1280, 8539, 2287, 7353, 9804, 353, 1129, 5763));
    Next(v, k + 9, Vec9(595, 8539, 2287, 7353, 9804, 353, 1129, 5763, 685));
    Next(v, k + 10, Vec9(7944, 2287, 7353, 9804, 353, 1129, 5763, 685, 595));
    Next(v, k + 11, Vec9(4172, 7353, 9804, 353, 1129, 5763, 685, 595, 7944));
    Next(v, k + 12, Vec9(3181, 9804, 353, 1129, 5763, 685, 595, 7944, 4172));
    Next(v, k + 13, Vec9(6623, 353, 1129, 5763, 685, 595, 7944, 4172, 3181));
    Next(v, k + 14, Vec9(3559, 1129, 5763, 685, 595, 7944, 4172, 3181, 6623));
    Next(v, k + 15, Vec9(7399, 5763, 685, 595, 7944, 4172, 3181, 6623, 3559));
    Next(v, k + 16, Vec9(8193, 685, 595, 7944, 4172, 3181, 6623, 3559, 7399));
    Next(v, k + 17, Vec9(2321, 595, 7944, 4172, 3181, 6623, 3559, 7399, 8193));
    Next(v, k + 18, Vec9(8103, 7944, 4172, 3181, 6623, 3559, 7399, 8193, 2321));
    Next(v, k + 19, Vec9(9670, 4172, 3181, 6623, 3559, 7399, 8193, 2321, 8103));
    Next(v, k + 20, Vec9(4331, 3181, 6623, 3559, 7399, 8193, 2321, 8103, 9670));
    Next(v, k + 21, Vec9(8679, 6623, 3559, 7399, 8193, 2321, 8103, 9670, 4331));
    Next(v, k + 22, Vec9(7773, 3559, 7399, 8193, 2321, 8103, 9670, 4331, 8679));
    Next(v, k + 23, Vec9(5615, 7399, 8193, 2321, 8103, 9670, 4331, 8679, 7773));
    Next(v, k + 24, Vec9(1784, 8193, 2321, 8103, 9670, 4331, 8679, 7773, 5615));
  }

  lemma Segment26(v: Vec9, k: nat)
    requires Iter(v, k) == Vec9(6409, 2321, 8103, 9670, 4331, 8679, 7773, 5615, 1784)
    ensures Iter(v, k + 25) == Vec9(1077, 7024, 7099, 4177, 6567, 9655, 633, 735, 3843)
  {
    Next(v, k, Vec9(6409, 2321, 8103, 9670, 4331, 8679, 7773, 5615, 1784));
    Next(v, k + 1, Vec9(5741, 8103, 9670, 4331, 8679, 7773, 5615, 1784, 6409));
    Next(v, k + 2, Vec9(2362, 9670, 4331, 8679, 7773, 5615, 1784, 6409, 5741));
    Next(v, k + 3, Vec9(7308, 4331, 8679, 7773, 5615, 1784, 6409, 5741, 2362));
    Next(v, k + 4, Vec9(6852, 8679, 7773, 5615, 1784, 6409, 5741, 2362, 7308));
    Next(v, k + 5, Vec9(1827, 7773, 5615, 1784, 6409, 5741, 2362, 7308, 6852));
    Next(v, k + 6, Vec9(5946, 5615, 1784, 6409, 5741, 2362, 7308, 6852, 1827));
    Next(v, k + 7, Vec9(9498, 1784, 6409, 5741, 2362, 7308, 6852, 1827, 5946));
    Next(v, k + 8, Vec9(2115, 6409, 5741, 2362, 7308, 6852, 1827, 5946, 9498));
    Next(v, k + 9, Vec9(4294, 5741, 2362, 7308, 6852, 1827, 5946, 9498, 2115));
    Next(v, k + 10, Vec9(1447, 2362, 7308, 6852, 1827, 5946, 9498, 2115, 4294));
    Next(v, k + 11, Vec9(915, 7308, 6852, 1827, 5946, 9498, 2115, 4294, 1447));
    Next(v, k + 12, Vec9(6393, 6852, 1827, 5946, 9498, 2115, 4294, 1447, 915));
    Next(v, k + 13, Vec9(459, 1827, 5946, 9498, 2115, 4294, 1447, 915, 6393));
    Next(v, k + 14, Vec9(1368, 5946, 9498, 2115, 4294, 1447, 915, 6393, 459));
    Next(v, k + 15, Vec9(4578, 9498, 2115, 4294, 1447, 915, 6393, 459, 1368));
    Next(v, k + 16, Vec9(4920, 2115, 4294, 1447, 915, 6393, 459, 1368, 4578));
    Next(v, k + 17, Vec9(7024, 4294, 1447, 915, 6393, 459, 1368, 4578, 4920));
    Next(v, k + 18, Vec9(7099, 1447, 915, 6393, 459, 1368, 4578, 4920, 7024));
    Next(v, k + 19, Vec9(4177, 915, 6393, 459, 1368, 4578, 4920, 7024, 7099));
    Next(v, k + 20, Vec9(6567, 6393, 459, 1368, 4578, 4920, 7024, 7099, 4177));
    Next(v, k + 21, Vec9(9655, 459, 1368, 4578, 4920, 7024, 7099, 4177, 6567));
    Next(v, k + 22, Vec9(633, 1368, 4578, 4920, 7024, 7099, 4177, 6567, 9655));
    Next(v, k + 23, Vec9(735, 4578, 4920, 7024, 7099, 4177, 6567, 9655, 633));
    Next(v, k + 24, Vec9(3843, 4920, 7024, 7099, 4177, 6567, 9655, 633, 735));
  }

  lemma Segment27(v: Vec9, k: nat)
    requires Iter(v, k) == Vec9(1077, 7024, 7099, 4177, 6567, 9655, 633, 735, 3843)
    ensures Iter(v, k + 25) == Vec9(2929, 8478, 4800, 7527, 956, 3415, 5585, 1357, 5879)
  {
    Next(v, k, Vec9(1077, 7024, 7099, 4177, 6567, 9655, 633, 735, 3843));
    Next(v, k + 1, Vec9(5947, 7099, 4177, 6567, 9655, 633, 735, 3843, 1077));
    Next(v, k + 2, Vec9(1152, 4177, 6567, 9655, 633, 735, 3843, 1077, 5947));
    Next(v, k + 3, Vec9(3025, 6567, 9655, 633, 735, 3843, 1077, 5947, 1152));
    Next(v, k + 4, Vec9(3542, 9655, 633, 735, 3843, 1077, 5947, 1152, 3025));
    Next(v, k + 5, Vec9(6113, 633, 735, 3843, 1077, 5947, 1152, 3025, 3542));
    Next(v, k + 6, Vec9(4349, 735, 3843, 1077, 5947, 1152, 3025, 3542, 6113));
    Next(v, k + 7, Vec9(6215, 3843, 1077, 5947, 1152, 3025, 3542, 6113, 4349));
    Next(v, k + 8, Vec9(7457, 1077, 5947, 1152, 3025, 3542, 6113, 4349, 6215));
    Next(v, k + 9, Vec9(3449, 5947, 1152, 3025, 3542, 6113, 4349, 6215, 7457));
    Next(v, k + 10, Vec9(2498, 1152, 3025, 3542, 6113, 4349, 6215, 7457, 3449));
    Next(v, k + 11, Vec9(8483, 3025, 3542, 6113, 4349, 6215, 7457, 3449, 2498));
    Next(v, k + 12, Vec9(4371, 3542, 6113, 4349, 6215, 7457, 3449, 2498, 8483));
    Next(v, k + 13, Vec9(9000, 6113, 4349, 6215, 7457, 3449, 2498, 8483, 4371));
    Next(v, k + 14, Vec9(6942, 4349, 6215, 7457, 3449, 2498, 8483, 4371, 9000));
    Next(v, k + 15, Vec9(7236, 6215, 7457, 3449, 2498, 8483, 4371, 9000, 6942));
    Next(v, k + 16, Vec9(8808, 7457, 3449, 2498, 8483, 4371, 9000, 6942, 7236));
    Next(v, k + 17, Vec9(8478, 3449, 2498, 8483, 4371, 9000, 6942, 7236, 8808));
    Next(v, k + 18, Vec9(4800, 2498, 8483, 4371, 9000, 6942, 7236, 8808, 8478));
    Next(v, k + 19, Vec9(7527, 8483, 4371, 9000, 6942, 7236, 8808, 8478, 4800));
    Next(v, k + 20, Vec9(956, 4371, 9000, 6942, 7236, 8808, 8478, 4800, 7527));
    Next(v, k + 21, Vec9(3415, 9000, 6942, 7236, 8808, 8478, 4800, 7527, 956));
    Next(v, k + 22, Vec9(5585, 6942, 7236, 8808, 8478, 4800, 7527, 956, 3415));
    Next(v, k + 23, Vec9(1357, 7236, 8808, 8478, 4800, 7527, 956, 3415, 5585));
    Next(v, k + 24, Vec9(5879, 8808, 8478, 4800, 7527, 956, 3415, 5585, 1357));
  }

  lemma Segment28(v: Vec9, k: nat)
    requires Iter(v, k) == Vec9(2929, 8478, 4800, 7527, 956, 3415, 5585, 1357, 5879)
    ensures Iter(v, k + 25) == Vec9(4735, 7788, 5598, 6223, 865, 323, 998, 8416, 6507)
  {
    Next(v, k, Vec9(2929, 8478, 4800, 7527, 956, 3415, 5585, 1357, 5879));
    Next(v, k + 1, Vec9(5549, 4800, 7527, 956, 3415, 5585, 1357, 5879, 2929));
    Next(v, k + 2, Vec9(9080, 7527, 956, 3415, 5585, 1357, 5879, 2929, 5549));
    Next(v, k + 3, Vec9(8276, 956, 3415, 5585, 1357, 5879, 2929, 5549, 9080));
    Next(v, k + 4, Vec9(2509, 3415, 5585, 1357, 5879, 2929, 5549, 9080, 8276));
    Next(v, k + 5, Vec9(906, 5585, 1357, 5879, 2929, 5549, 9080, 8276, 2509));
    Next(v, k + 6, Vec9(4679, 1357, 5879, 2929, 5549, 9080, 8276, 2509, 906));
    Next(v, k + 7, Vec9(6507, 5879, 2929, 5549, 9080, 8276, 2509, 906, 4679));
    Next(v, k + 8, Vec9(9201, 2929, 5549, 9080, 8276, 2509, 906, 4679, 6507));
    Next(v, k + 9, Vec9(3557, 5549, 9080, 8276, 2509, 906, 4679, 6507, 9201));
    Next(v, k + 10, Vec9(1992, 9080, 8276, 2509, 906, 4679, 6507, 9201, 3557));
    Next(v, k + 11, Vec9(7088, 8276, 2509, 906, 4679, 6507, 9201, 3557, 1992));
    Next(v, k + 12, Vec9(1188, 2509, 906, 4679, 6507, 9201, 3557, 1992, 7088));
    Next(v, k + 13, Vec9(1321, 906, 4679, 6507, 9201, 3557, 1992, 7088, 1188));
    Next(v, k + 14, Vec9(9414, 4679, 6507, 9201, 3557, 1992, 7088, 1188, 1321));
    Next(v, k + 15, Vec9(5094, 6507, 9201, 3557, 1992, 7088, 1188, 1321, 9414));
    Next(v, k + 16, Vec9(1413, 9201, 3557, 1992, 7088, 1188, 1321, 9414, 5094));
    Next(v, k + 17, Vec9(7788, 3557, 1992, 7088, 1188, 1321, 9414, 5094, 1413));
    Next(v, k + 18, Vec9(5598, 1992, 7088, 1188, 1321, 9414, 5094, 1413, 7788));
    Next(v, k + 19, Vec9(6223, 7088, 1188, 1321, 9414, 5094, 1413, 7788, 5598));
    Next(v, k + 20, Vec9(865, 1188, 1321, 9414, 5094, 1413, 7788, 5598, 6223));
    Next(v, k + 21, Vec9(323, 1321, 9414, 5094, 1413, 7788, 5598, 6223, 865));
    Next(v, k + 22, Vec9(998, 9414, 5094, 1413, 7788, 5598, 6223, 865, 323));
    Next(v, k + 23, Vec9(8416, 5094, 1413, 7788, 5598, 6223, 865, 323, 998));
    Next(v, k + 24, Vec9(6507, 1413, 7788, 5598, 6223, 865, 323, 998, 8416));
  }

  lemma Segment29(v: Vec9, k: nat)
    requires Iter(v, k) == Vec9(4735, 7788, 5598, 6223, 865, 323, 998, 8416, 6507)
    ensures Iter(v, k + 25) == Vec9(1120, 1566, 7216, 6713, 1561, 3672, 7940, 3242, 3096)
  {
    Next(v, k, Vec9(4735, 7788, 5598, 6223, 865, 323, 998, 8416, 6507));
    Next(v, k + 1, Vec9(3053, 5598, 6223, 865, 323, 998, 8416, 6507, 4735));
    Next(v, k + 2, Vec9(2545, 6223, 865, 323, 998, 8416, 6507, 4735, 3053));
    Next(v, k + 3, Vec9(3678, 865, 323, 998, 8416, 6507, 4735, 3053, 2545));
    Next(v, k + 4, Vec9(7016, 323, 998, 8416, 6507, 4735, 3053, 2545, 3678));
    Next(v, k + 5, Vec9(3136, 998, 8416, 6507, 4735, 3053, 2545, 3678, 7016));
    Next(v, k + 6, Vec9(7691, 8416, 6507, 4735, 3053, 2545, 3678, 7016, 3136));
    Next(v, k + 7, Vec9(725, 6507, 4735, 3053, 2545, 3678, 7016, 3136, 7691));
    Next(v, k + 8, Vec9(5782, 4735, 3053, 2545, 3678, 7016, 3136, 7691, 725));
    Next(v, k + 9, Vec9(8782, 3053, 2545, 3678, 7016, 3136, 7691, 725, 5782));
    Next(v, k + 10, Vec9(4100, 2545, 3678, 7016, 3136, 7691, 725, 5782, 8782));
    Next(v, k + 11, Vec9(8274, 3678, 7016, 3136, 7691, 725, 5782, 8782, 4100));
    Next(v, k + 12, Vec9(5233, 7016, 3136, 7691, 725, 5782, 8782, 4100, 8274));
    Next(v, k + 13, Vec9(1783, 3136, 7691, 725, 5782, 8782, 4100, 8274, 5233));
    Next(v, k + 14, Vec9(1353, 7691, 725, 5782, 8782, 4100, 8274, 5233, 1783));
    Next(v, k + 15, Vec9(6338, 725, 5782, 8782, 4100, 8274, 5233, 1783, 1353));
    Next(v, k + 16, Vec9(4216, 5782, 8782, 4100, 8274, 5233, 1783, 1353, 6338));
    Next(v, k + 17, Vec9(1566, 8782, 4100, 8274, 5233, 1783, 1353, 6338, 4216));
    Next(v, k + 18, Vec9(7216, 4100, 8274, 5233, 1783, 1353, 6338, 4216, 1566));
    Next(v, k + 19, Vec9(6713, 8274, 5233, 1783, 1353, 6338, 4216, 1566, 7216));
    Next(v, k + 20, Vec9(1561, 5233, 1783, 1353, 6338, 4216, 1566, 7216, 6713));
    Next(v, k + 21, Vec9(3672, 1783, 1353, 6338, 4216, 1566, 7216, 6713, 1561));
    Next(v, k + 22, Vec9(7940, 1353, 6338, 4216, 1566, 7216, 6713, 1561, 3672));
    Next(v, k + 23, Vec9(3242, 6338, 4216, 1566, 7216, 6713, 1561, 3672, 7940));
    Next(v, k + 24, Vec9(3096, 4216, 1566, 7216, 6713, 1561, 3672, 7940, 3242));
  }

  lemma Segment30(v: Vec9, k: nat)
    requires Iter(v, k) == Vec9(1120, 1566, 7216, 6713, 1561, 3672, 7940, 3242, 3096)
    ensures Iter(v, k + 25) == Vec9(46, 5766, 9272, 5623, 5910, 2158, 1221, 7283, 9757)
  {
    Next(v, k, Vec9(1120, 1566, 7216, 6713, 1561, 3672, 7940, 3242, 3096));
    Next(v, k + 1, Vec9(446, 7216, 6713, 1561, 3672, 7940, 3242, 3096, 1120));
    Next(v, k + 2, Vec9(6770, 6713, 1561, 3672, 7940, 3242, 3096, 1120, 446));
    Next(v, k + 3, Vec9(9772, 1561, 3672, 7940, 3242, 3096, 1120, 446, 6770));
    Next(v, k + 4, Vec9(1618, 3672, 7940, 3242, 3096, 1120, 446, 6770, 9772));
    Next(v, k + 5, Vec9(2054, 7940, 3242, 3096, 1120, 446, 6770, 9772, 1618));
    Next(v, k + 6, Vec9(5886, 3242, 3096, 1120, 446, 6770, 9772, 1618, 2054));
    Next(v, k + 7, Vec9(7185, 3096, 1120, 446, 6770, 9772, 1618, 2054, 5886));
    Next(v, k + 8, Vec9(5740, 1120, 446, 6770, 9772, 1618, 2054, 5886, 7185));
    Next(v, k + 9, Vec9(5209, 446, 6770, 9772, 1618, 2054, 5886, 7185, 5740));
    Next(v, k + 10, Vec9(5066, 6770, 9772, 1618, 2054, 5886, 7185, 5740, 5209));
    Next(v, k + 11, Vec9(1704, 9772, 1618, 2054, 5886, 7185, 5740, 5209, 5066));
    Next(v, k + 12, Vec9(8068, 1618, 2054, 5886, 7185, 5740, 5209, 5066, 1704));
    Next(v, k + 13, Vec9(3379, 2054, 5886, 7185, 5740, 5209, 5066, 1704, 8068));
    Next(v, k + 14, Vec9(8504, 5886, 7185, 5740, 5209, 5066, 1704, 8068, 3379));
    Next(v, k + 15, Vec9(7211, 7185, 5740, 5209, 5066, 1704, 8068, 3379, 8504));
    Next(v, k + 16, Vec9(9803, 5740, 5209, 5066, 1704, 8068, 3379, 8504, 7211));
    Next(v, k + 17, Vec9(5766, 5209, 5066, 1704, 8068, 3379, 8504, 7211, 9803));
    Next(v, k + 18, Vec9(9272, 5066, 1704, 8068, 3379, 8504, 7211, 9803, 5766));
    Next(v, k + 19, Vec9(5623, 1704, 8068, 3379, 8504, 7211, 9803, 5766, 9272));
    Next(v, k + 20, Vec9(5910, 8068, 3379, 8504, 7211, 9803, 5766, 9272, 5623));
    Next(v, k + 21, Vec9(2158, 3379, 8504, 7211, 9803, 5766, 9272, 5623, 5910));
    Next(v, k + 22, Vec9(1221, 8504, 7211, 9803, 5766, 9272, 5623, 5910, 2158));
    Next(v, k + 23, Vec9(7283, 7211, 9803, 5766, 9272, 5623, 5910, 2158, 1221));
    Next(v, k + 24, Vec9(9757, 9803, 5766, 9272, 5623, 5910, 2158, 1221, 7283));
  }

  lemma Segment31(v: Vec9, k: nat)
    requires Iter(v, k) == Vec9(46, 5766, 9272, 5623, 5910, 2158, 1221, 7283, 9757)
    ensures Iter(v, k + 25) == Vec9(604, 9677, 4651, 6399, 5761, 3808, 291, 3758, 4924)
  {
    Next(v, k, Vec9(46, 5766, 9272, 5623, 5910, 2158, 1221, 7283, 9757));
    Next(v, k + 1, Vec9(5720, 9272, 5623, 5910, 2158, 1221, 7283, 9757, 46));
    Next(v, k + 2, Vec9(3552, 5623, 5910, 2158, 1221, 7283, 9757, 46, 5720));
    Next(v, k + 3, Vec9(2071, 5910, 2158, 1221, 7283, 9757, 46, 5720, 3552));
    Next(v, k + 4, Vec9(3839, 2158, 1221, 7283, 9757, 46, 5720, 3552, 2071));
    Next(v, k + 5, Vec9(8148, 1221, 7283, 9757, 46, 5720, 3552, 2071, 3839));
    Next(v, k + 6, Vec9(2902, 7283, 9757, 46, 5720, 3552, 2071, 3839, 8148));
    Next(v, k + 7, Vec9(4381, 9757, 46, 5720, 3552, 2071, 3839, 8148, 2902));
    Next(v, k + 8, Vec9(5376, 46, 5720, 3552, 2071, 3839, 8148, 2902, 4381));
    Next(v, k + 9, Vec9(4499, 5720, 3552, 2071, 3839, 8148, 2902, 4381, 5376));
    Next(v, k + 10, Vec9(1221, 3552, 2071, 3839, 8148, 2902, 4381, 5376, 4499));
    Next(v, k + 11, Vec9(2331, 2071, 3839, 8148, 2902, 4381, 5376, 4499, 1221));
    Next(v, k + 12, Vec9(9569, 3839, 8148, 2902, 4381, 5376, 4499, 1221, 2331));
    Next(v, k + 13, Vec9(4099, 8148, 2902, 4381, 5376, 4499, 1221, 2331, 9569));
    Next(v, k + 14, Vec9(4049, 2902, 4381, 5376, 4499, 1221, 2331, 9569, 4099));
    Next(v, k + 15, Vec9(8682, 4381, 5376, 4499, 1221, 2331, 9569, 4099, 4049));
    Next(v, k + 16, Vec9(5528, 5376, 4499, 1221, 2331, 9569, 4099, 4049, 8682));
    Next(v, k + 17, Vec9(9677, 4499, 1221, 2331, 9569, 4099, 4049, 8682, 5528));
    Next(v, k + 18, Vec9(4651, 1221, 2331, 9569, 4099, 4049, 8682, 5528, 9677));
    Next(v, k + 19, Vec9(6399, 2331, 9569, 4099, 4049, 8682, 5528, 9677, 4651));
    Next(v, k + 20, Vec9(5761, 9569, 4099, 4049, 8682, 5528, 9677, 4651, 6399));
    Next(v, k + 21, Vec9(3808, 4099, 4049, 8682, 5528, 9677, 4651, 6399, 5761));
    Next(v, k + 22, Vec9(291, 4049, 8682, 5528, 9677, 4651, 6399, 5761, 3808));
    Next(v, k + 23, Vec9(3758, 8682, 5528, 9677, 4651, 6399, 5761, 3808, 291));
    Next(v, k + 24, Vec9(4924, 5528, 9677, 4651, 6399, 5761, 3808, 291, 3758));
  }

  lemma Segment32(v: Vec9, k: nat)
    requires Iter(v, k) == Vec9(604, 9677, 4651, 6399, 5761, 3808, 291, 3758, 4924)
    ensures Iter(v, k + 25) == Vec9(9348, 422, 7593, 3294, 1055, 5417, 2709, 7862, 2477)
  {
    Next(v, k, Vec9(604, 9677, 4651, 6399, 5761, 3808, 291, 3758, 4924));
    Next(v, k + 1, Vec9(9073, 4651, 6399, 5761, 3808, 291, 3758, 4924, 604));
    Next(v, k + 2, Vec9(5407, 6399, 5761, 3808, 291, 3758, 4924, 604, 9073));
    Next(v, k + 3, Vec9(992, 5761, 3808, 291, 3758, 4924, 604, 9073, 5407));
    Next(v, k + 4, Vec9(4769, 3808, 291, 3758, 4924, 604, 9073, 5407, 992));
    Next(v, k + 5, Vec9(8868, 291, 3758, 4924, 604, 9073, 5407, 992, 4769));
    Next(v, k + 6, Vec9(1252, 3758, 4924, 604, 9073, 5407, 992, 4769, 8868));
    Next(v, k + 7, Vec9(2506, 4924, 604, 9073, 5407, 992, 4769, 8868, 1252));
    Next(v, k + 8, Vec9(2418, 604, 9073, 5407, 992, 4769, 8868, 1252, 2506));
    Next(v, k + 9, Vec9(8015, 9073, 5407, 992, 4769, 8868, 1252, 2506, 2418));
    Next(v, k + 10, Vec9(1058, 5407, 992, 4769, 8868, 1252, 2506, 2418, 8015));
    Next(v, k + 11, Vec9(4349, 992, 4769, 8868, 1252, 2506, 2418, 8015, 1058));
    Next(v, k + 12, Vec9(6472, 4769, 8868, 1252, 2506, 2418, 8015, 1058, 4349));
    Next(v, k + 13, Vec9(8126, 8868, 1252, 2506, 2418, 8015, 1058, 4349, 6472));
    Next(v, k + 14, Vec9(742, 1252, 2506, 2418, 8015, 1058, 4349, 6472, 8126));
    Next(v, k + 15, Vec9(510, 2506, 2418, 8015, 1058, 4349, 6472, 8126, 742));
    Next(v, k + 16, Vec9(1996, 2418, 8015, 1058, 4349, 6472, 8126, 742, 510));
    Next(v, k + 17, Vec9(422, 8015, 1058, 4349, 6472, 8126, 742, 510, 1996));
    Next(v, k + 18, Vec9(7593, 1058, 4349, 6472, 8126, 742, 510, 1996, 422));
    Next(v, k + 19, Vec9(3294, 4349, 6472, 8126, 742, 510, 1996, 422, 7593));
    Next(v, k + 20, Vec9(1055, 6472, 8126, 742, 510, 1996, 422, 7593, 3294));
    Next(v, k + 21, Vec9(5417, 8126, 742, 510, 1996, 422, 7593, 3294, 1055));
    Next(v, k + 22, Vec9(2709, 742, 510, 1996, 422, 7593, 3294, 1055, 5417));
    Next(v, k + 23, Vec9(7862, 510, 1996, 422, 7593, 3294, 1055, 5417, 2709));
    Next(v, k + 24, Vec9(2477, 1996, 422, 7593, 3294, 1055, 5417, 2709, 7862));
  }

  lemma Segment33(v: Vec9, k: nat)
    requires Iter(v, k) == Vec9(9348, 422, 7593, 3294, 1055, 5417, 2709, 7862, 2477)
    ensures Iter(v, k + 25) == Vec9(7912, 7811, 5179, 2392, 6556, 758, 6208, 7450, 293)
  {
    Next(v, k, Vec9(9348, 422, 7593, 3294, 1055, 5417, 2709, 7862, 2477));
    Next(v, k + 1, Vec9(903, 7593, 3294, 1055, 5417, 2709, 7862, 2477, 9348));
    Next(v, k + 2, Vec9(6690, 3294, 1055, 5417, 2709, 7862, 2477, 9348, 903));
    Next(v, k + 3, Vec9(6433, 1055, 5417, 2709, 7862, 2477, 9348, 903, 6690));
    Next(v, k + 4, Vec9(4451, 5417, 2709, 7862, 2477, 9348, 903, 6690, 6433));
    Next(v, k + 5, Vec9(966, 2709, 7862, 2477, 9348, 903, 6690, 6433, 4451));
    Next(v, k + 6, Vec9(1743, 7862, 2477, 9348, 903, 6690, 6433, 4451, 966));
    Next(v, k + 7, Vec9(6119, 2477, 9348, 903, 6690, 6433, 4451, 966, 1743));
    Next(v, k + 8, Vec9(6187, 9348, 903, 6690, 6433, 4451, 966, 1743, 6119));
    Next(v, k + 9, Vec9(3161, 903, 6690, 6433, 4451, 966, 1743, 6119, 6187));
    Next(v, k + 10, Vec9(7571, 6690, 6433, 4451, 966, 1743, 6119, 6187, 3161));
    Next(v, k + 11, Vec9(8948, 6433, 4451, 966, 1743, 6119, 6187, 3161, 7571));
    Next(v, k + 12, Vec9(7314, 4451, 966, 1743, 6119, 6187, 3161, 7571, 8948));
    Next(v, k + 13, Vec9(6966, 966, 1743, 6119, 6187, 3161, 7571, 8948, 7314));
    Next(v, k + 14, Vec9(3829, 1743, 6119, 6187, 3161, 7571, 8948, 7314, 6966));
    Next(v, k + 15, Vec9(7743, 6119, 6187, 3161, 7571, 8948, 7314, 6966, 3829));
    Next(v, k + 16, Vec9(8205, 6187, 3161, 7571, 8948, 7314, 6966, 3829, 7743));
    Next(v, k + 17, Vec9(7811, 3161, 7571, 8948, 7314, 6966, 3829, 7743, 8205));
    Next(v, k + 18, Vec9(5179, 7571, 8948, 7314, 6966, 3829, 7743, 8205, 7811));
    Next(v, k + 19, Vec9(2392, 8948, 7314, 6966, 3829, 7743, 8205, 7811, 5179));
    Next(v, k + 20, Vec9(6556, 7314, 6966, 3829, 7743, 8205, 7811, 5179, 2392));
    Next(v, k + 21, Vec9(758, 6966, 3829, 7743, 8205, 7811, 5179, 2392, 6556));
    Next(v, k + 22, Vec9(6208, 3829, 7743, 8205, 7811, 5179, 2392, 6556, 758));
    Next(v, k + 23, Vec9(7450, 7743, 8205, 7811, 5179, 2392, 6556, 758, 6208));
    Next(v, k + 24, Vec9(293, 8205, 7811, 5179, 2392, 6556, 758, 6208, 7450));
  }

  lemma Segment34(v: Vec9, k: nat)
    requires Iter(v, k) == Vec9(7912, 7811, 5179, 2392, 6556, 758, 6208, 7450, 293)
    ensures Iter(v, k + 25) == Vec9(5646, 7504, 2500, 7053, 8332, 2882, 5177, 7565, 4416)
  {
    Next(v, k, Vec9(7912, 7811, 5179, 2392, 6556, 758, 6208, 7450, 293));
    Next(v, k + 1, Vec9(9728, 5179, 2392, 6556, 758, 6208, 7450, 293, 7912));
    Next(v, k + 2, Vec9(5280, 2392, 6556, 758, 6208, 7450, 293, 7912, 9728));
    Next(v, k + 3, Vec9(6941, 6556, 758, 6208, 7450, 293, 7912, 9728, 5280));
    Next(v, k + 4, Vec9(9444, 758, 6208, 7450, 293, 7912, 9728, 5280, 6941));
    Next(v, k + 5, Vec9(1143, 6208, 7450, 293, 7912, 9728, 5280, 6941, 9444));
    Next(v, k + 6, Vec9(5065, 7450, 293, 7912, 9728, 5280, 6941, 9444, 1143));
    Next(v, k + 7, Vec9(2385, 293, 7912, 9728, 5280, 6941, 9444, 1143, 5065));
    Next(v, k + 8, Vec9(7737, 7912, 9728, 5280, 6941, 9444, 1143, 5065, 2385));
    Next(v, k + 9, Vec9(175, 9728, 5280, 6941, 9444, 1143, 5065, 2385, 7737));
    Next(v, k + 10, Vec9(9553, 5280, 6941, 9444, 1143, 5065, 2385, 7737, 175));
    Next(v, k + 11, Vec9(5556, 6941, 9444, 1143, 5065, 2385, 7737, 175, 9553));
    Next(v, k + 12, Vec9(1385, 9444, 1143, 5065, 2385, 7737, 175, 9553, 5556));
    Next(v, k + 13, Vec9(8059, 1143, 5065, 2385, 7737, 175, 9553, 5556, 1385));
    Next(v, k + 14, Vec9(2913, 5065, 2385, 7737, 175, 9553, 5556, 1385, 8059));
    Next(v, k + 15, Vec9(2152, 2385, 7737, 175, 9553, 5556, 1385, 8059, 2913));
    Next(v, k + 16, Vec9(233, 7737, 175, 9553, 5556, 1385, 8059, 2913, 2152));
    Next(v, k + 17, Vec9(7504, 175, 9553, 5556, 1385, 8059, 2913, 2152, 233));
    Next(v, k + 18, Vec9(2500, 9553, 5556, 1385, 8059, 2913, 2152, 233, 7504));
    Next(v, k + 19, Vec9(7053, 5556, 1385, 8059, 2913, 2152, 233, 7504, 2500));
    Next(v, k + 20, Vec9(8332, 1385, 8059, 2913, 2152, 233, 7504, 2500, 7053));
    Next(v, k + 21, Vec9(2882, 8059, 2913, 2152, 233, 7504, 2500, 7053, 8332));
    Next(v, k + 22, Vec9(5177, 2913, 2152, 233, 7504, 2500, 7053, 8332, 2882));
    Next(v, k + 23, Vec9(7565, 2152, 233, 7504, 2500, 7053, 8332, 2882, 5177));
    Next(v, k + 24, Vec9(4416, 233, 7504, 2500, 7053, 8332, 2882, 5177, 7565));
  }

  lemma Segment35(v: Vec9, k: nat)
    requires Iter(v, k) == Vec9(5646, 7504, 2500, 7053, 8332, 2882, 5177, 7565, 4416)
    ensures Iter(v, k + 25) == Vec9(4368, 9675, 4733, 2375, 988, 2060, 6642, 5275, 6682)
  {
    Next(v, k, Vec9(5646, 7504, 2500, 7053, 8332, 2882, 5177, 7565, 4416));
    Next(v, k + 1, Vec9(1858, 2500, 7053, 8332, 2882, 5177, 7565, 4416, 5646));
    Next(v, k + 2, Vec9(642, 7053, 8332, 2882, 5177, 7565, 4416, 5646, 1858));
    Next(v, k + 3, Vec9(6411, 8332, 2882, 5177, 7565, 4416, 5646, 1858, 642));
    Next(v, k + 4, Vec9(1921, 2882, 5177, 7565, 4416, 5646, 1858, 642, 6411));
    Next(v, k + 5, Vec9(961, 5177, 7565, 4416, 5646, 1858, 642, 6411, 1921));
    Next(v, k + 6, Vec9(4216, 7565, 4416, 5646, 1858, 642, 6411, 1921, 961));
    Next(v, k + 7, Vec9(3349, 4416, 5646, 1858, 642, 6411, 1921, 961, 4216));
    Next(v, k + 8, Vec9(1067, 5646, 1858, 642, 6411, 1921, 961, 4216, 3349));
    Next(v, k + 9, Vec9(4579, 1858, 642, 6411, 1921, 961, 4216, 3349, 1067));
    Next(v, k + 10, Vec9(7108, 642, 6411, 1921, 961, 4216, 3349, 1067, 4579));
    Next(v, k + 11, Vec9(3363, 6411, 1921, 961, 4216, 3349, 1067, 4579, 7108));
    Next(v, k + 12, Vec9(3048, 1921, 961, 4216, 3349, 1067, 4579, 7108, 3363));
    Next(v, k + 13, Vec9(8702, 961, 4216, 3349, 1067, 4579, 7108, 3363, 3048));
    Next(v, k + 14, Vec9(2088, 4216, 3349, 1067, 4579, 7108, 3363, 3048, 8702));
    Next(v, k + 15, Vec9(2128, 3349, 1067, 4579, 7108, 3363, 3048, 8702, 2088));
    Next(v, k + 16, Vec9(1221, 1067, 4579, 7108, 3363, 3048, 8702, 2088, 2128));
    Next(v, k + 17, Vec9(9675, 4579, 7108, 3363, 3048, 8702, 2088, 2128, 1221));
    Next(v, k + 18, Vec9(4733, 7108, 3363, 3048, 8702, 2088, 2128, 1221, 9675));
    Next(v, k + 19, Vec9(2375, 3363, 3048, 8702, 2088, 2128, 1221, 9675, 4733));
    Next(v, k + 20, Vec9(988, 3048, 8702, 2088, 2128, 1221, 9675, 4733, 2375));
    Next(v, k + 21, Vec9(2060, 8702, 2088, 2128, 1221, 9675, 4733, 2375, 988));
    Next(v, k + 22, Vec9(6642, 2088, 2128, 1221, 9675, 4733, 2375, 988, 2060));
    Next(v, k + 23, Vec9(5275, 2128, 1221, 9675, 4733, 2375, 988, 2060, 6642));
    Next(v, k + 24, Vec9(6682, 1221, 9675, 4733, 2375, 988, 2060, 6642, 5275));
  }

  lemma Segment36(v: Vec9, k: nat)
    requires Iter(v, k) == Vec9(4368, 9675, 4733, 2375, 988, 2060, 6642, 5275, 6682)
    ensures Iter(v, k + 25) == Vec9(486, 9181, 988, 3979, 309, 8181, 1026, 3617, 4190)
  {
    Next(v, k, Vec9(4368, 9675, 4733, 2375, 988, 2060, 6642, 5275, 6682));
    Next(v, k + 1, Vec9(5307, 4733, 2375, 988, 2060, 6642, 5275, 6682, 4368));
    Next(v, k + 2, Vec9(9255, 2375, 988, 2060, 6642, 5275, 6682, 4368, 5307));
    Next(v, k + 3, Vec9(2949, 988, 2060, 6642, 5275, 6682, 4368, 5307, 9255));
    Next(v, k + 4, Vec9(7868, 2060, 6642, 5275, 6682, 4368, 5307, 9255, 2949));
    Next(v, k + 5, Vec9(4021, 6642, 5275, 6682, 4368, 5307, 9255, 2949, 7868));
    Next(v, k + 6, Vec9(2621, 5275, 6682, 4368, 5307, 9255, 2949, 7868, 4021));
    Next(v, k + 7, Vec9(2654, 6682, 4368, 5307, 9255, 2949, 7868, 4021, 2621));
    Next(v, k + 8, Vec9(4028, 4368, 5307, 9255, 2949, 7868, 4021, 2621, 2654));
    Next(v, k + 9, Vec9(340, 5307, 9255, 2949, 7868, 4021, 2621, 2654, 4028));
    Next(v, k + 10, Vec9(4967, 9255, 2949, 7868, 4021, 2621, 2654, 4028, 340));
    Next(v, k + 11, Vec9(4288, 2949, 7868, 4021, 2621, 2654, 4028, 340, 4967));
    Next(v, k + 12, Vec9(8490, 7868, 4021, 2621, 2654, 4028, 340, 4967, 4288));
    Next(v, k + 13, Vec9(9207, 4021, 2621, 2654, 4028, 340, 4967, 4288, 8490));
    Next(v, k + 14, Vec9(4643, 2621, 2654, 4028, 340, 4967, 4288, 8490, 9207));
    Next(v, k + 15, Vec9(7807, 2654, 4028, 340, 4967, 4288, 8490, 9207, 4643));
    Next(v, k + 16, Vec9(4676, 4028, 340, 4967, 4288, 8490, 9207, 4643, 7807));
    Next(v, k + 17, Vec9(9181, 340, 4967, 4288, 8490, 9207, 4643, 7807, 4676));
    Next(v, k + 18, Vec9(988, 4967, 4288, 8490, 9207, 4643, 7807, 4676, 9181));
    Next(v, k + 19, Vec9(3979, 4288, 8490, 9207, 4643, 7807, 4676, 9181, 988));
    Next(v, k + 20, Vec9(309, 8490, 9207, 4643, 7807, 4676, 9181, 988, 3979));
    Next(v, k + 21, Vec9(8181, 9207, 4643, 7807, 4676, 9181, 988, 3979, 309));
    Next(v, k + 22, Vec9(1026, 4643, 7807, 4676, 9181, 988, 3979, 309, 8181));
    Next(v, k + 23, Vec9(3617, 7807, 4676, 9181, 988, 3979, 309, 8181, 1026));
    Next(v, k + 24, Vec9(4190, 4676, 9181, 988, 3979, 309, 8181, 1026, 3617));
  }

  lemma Segment37(v: Vec9, k: nat)
    requires Iter(v, k) == Vec9(486, 9181, 988, 3979, 309, 8181, 1026, 3617, 4190)
    ensures Iter(v, k + 25) == Vec9(3522, 8901, 9544, 364, 1679, 7964, 503, 759, 8934)
  {
    Next(v, k, Vec9(486, 9181, 988, 3979, 309, 8181, 1026, 3617, 4190));
    Next(v, k + 1, Vec9(8695, 988, 3979, 309, 8181, 1026, 3617, 4190, 486));
    Next(v, k + 2, Vec9(2122, 3979, 309, 8181, 1026, 3617, 4190, 486, 8695));
    Next(v, k + 3, Vec9(1857, 309, 8181, 1026, 3617, 4190, 486, 8695, 2122));
    Next(v, k + 4, Vec9(8281, 8181, 1026, 3617, 4190, 486, 8695, 2122, 1857));
    Next(v, k + 5, Vec9(9729, 1026, 3617, 4190, 486, 8695, 2122, 1857, 8281));
    Next(v, k + 6, Vec9(1126, 3617, 4190, 486, 8695, 2122, 1857, 8281, 9729));
    Next(v, k + 7, Vec9(2491, 4190, 486, 8695, 2122, 1857, 8281, 9729, 1126));
    Next(v, k + 8, Vec9(1699, 486, 8695, 2122, 1857, 8281, 9729, 1126, 2491));
    Next(v, k + 9, Vec9(8616, 8695, 2122, 1857, 8281, 9729, 1126, 2491, 1699));
    Next(v, k + 10, Vec9(79, 2122, 1857, 8281, 9729, 1126, 2491, 1699, 8616));
    Next(v, k + 11, Vec9(2043, 1857, 8281, 9729, 1126, 2491, 1699, 8616, 79));
    Next(v, k + 12, Vec9(9643, 8281, 9729, 1126, 2491, 1699, 8616, 79, 2043));
    Next(v, k + 13, Vec9(8467, 9729, 1126, 2491, 1699, 8616, 79, 2043, 9643));
    Next(v, k + 14, Vec9(1262, 1126, 2491, 1699, 8616, 79, 2043, 9643, 8467));
    Next(v, k + 15, Vec9(9693, 2491, 1699, 8616, 79, 2043, 9643, 8467, 1262));
    Next(v, k + 16, Vec9(2627, 1699, 8616, 79, 2043, 9643, 8467, 1262, 9693));
    Next(v, k + 17, Vec9(8901, 8616, 79, 2043, 9643, 8467, 1262, 9693, 2627));
    Next(v, k + 18, Vec9(9544, 79, 2043, 9643, 8467, 1262, 9693, 2627, 8901));
    Next(v, k + 19, Vec9(364, 2043, 9643, 8467, 1262, 9693, 2627, 8901, 9544));
    Next(v, k + 20, Vec9(1679, 9643, 8467, 1262, 9693, 2627, 8901, 9544, 364));
    Next(v, k + 21, Vec9(7964, 8467, 1262, 9693, 2627, 8901, 9544, 364, 1679));
    Next(v, k + 22, Vec9(503, 1262, 9693, 2627, 8901, 9544, 364, 1679, 7964));
    Next(v, k + 23, Vec9(759, 9693, 2627, 8901, 9544, 364, 1679, 7964, 503));
    Next(v, k + 24, Vec9(8934, 2627, 8901, 9544, 364, 1679, 7964, 503, 759));
  }

  lemma Segment38(v: Vec9, k: nat)
    requires Iter(v, k) == Vec9(3522, 8901, 9544, 364, 1679, 7964, 503, 759, 8934)
    ensures Iter(v, k + 25) == Vec9(1823, 4384, 2773, 5278, 665, 9249, 5975, 943, 9816)
  {
    Next(v, k, Vec9(3522, 8901, 9544, 364, 1679, 7964, 503, 759, 8934));
    Next(v, k + 1, Vec9(5379, 9544, 364, 1679, 7964, 503, 759, 8934, 3522));
    Next(v, k + 2, Vec9(4165, 364, 1679, 7964, 503, 759, 8934, 3522, 5379));
    Next(v, k + 3, Vec9(6028, 1679, 7964, 503, 759, 8934, 3522, 5379, 4165));
    Next(v, k + 4, Vec9(5480, 7964, 503, 759, 8934, 3522, 5379, 4165, 6028));
    Next(v, k + 5, Vec9(2484, 503, 759, 8934, 3522, 5379, 4165, 6028, 5480));
    Next(v, k + 6, Vec9(7848, 759, 8934, 3522, 5379, 4165, 6028, 5480, 2484));
    Next(v, k + 7, Vec9(2740, 8934, 3522, 5379, 4165, 6028, 5480, 2484, 7848));
    Next(v, k + 8, Vec9(6194, 3522, 5379, 4165, 6028, 5480, 2484, 7848, 2740));
    Next(v, k + 9, Vec9(7157, 5379, 4165, 6028, 5480, 2484, 7848, 2740, 6194));
    Next(v, k + 10, Vec9(8051, 4165, 6028, 5480, 2484, 7848, 2740, 6194, 7157));
    Next(v, k + 11, Vec9(5943, 6028, 5480, 2484, 7848, 2740, 6194, 7157, 8051));
    Next(v, k + 12, Vec9(85, 5480, 2484, 7848, 2740, 6194, 7157, 8051, 5943));
    Next(v, k + 13, Vec9(5395, 2484, 7848, 2740, 6194, 7157, 8051, 5943, 85));
    Next(v, k + 14, Vec9(6918, 7848, 2740, 6194, 7157, 8051, 5943, 85, 5395));
    Next(v, k + 15, Vec9(930, 2740, 6194, 7157, 8051, 5943, 85, 5395, 6918));
    Next(v, k + 16, Vec9(1810, 6194, 7157, 8051, 5943, 85, 5395, 6918, 930));
    Next(v, k + 17, Vec9(4384, 7157, 8051, 5943, 85, 5395, 6918, 930, 1810));
    Next(v, k + 18, Vec9(2773, 8051, 5943, 85, 5395, 6918, 930, 1810, 4384));
    Next(v, k + 19, Vec9(5278, 5943, 85, 5395, 6918, 930, 1810, 4384, 2773));
    Next(v, k + 20, Vec9(665, 85, 5395, 6918, 930, 1810, 4384, 2773, 5278));
    Next(v, k + 21, Vec9(9249, 5395, 6918, 930, 1810, 4384, 2773, 5278, 665));
    Next(v, k + 22, Vec9(5975, 6918, 930, 1810, 4384, 2773, 5278, 665, 9249));
    Next(v, k + 23, Vec9(943, 930, 1810, 4384, 2773, 5278, 665, 9249, 5975));
    Next(v, k + 24, Vec9(9816, 1810, 4384, 2773, 5278, 665, 9249, 5975, 943));
  }

  lemma Segment39(v: Vec9, k: nat)
    requires Iter(v, k) == Vec9(1823, 4384, 2773, 5278, 665, 9249, 5975, 943, 9816)
    ensures Iter(v, k + 25) == Vec9(939, 9209, 1245, 691, 7414, 9205, 9091, 5921, 879)
  {
    Next(v, k, Vec9(1823, 4384, 2773, 5278, 665, 9249, 5975, 943, 9816));
    Next(v, k + 1, Vec9(2561, 2773, 5278, 665, 9249, 5975, 943, 9816, 1823));
    Next(v, k + 2, Vec9(212, 5278, 665, 9249, 5975, 943, 9816, 1823, 2561));
    Next(v, k + 3, Vec9(5066, 665, 9249, 5975, 943, 9816, 1823, 2561, 212));
    Next(v, k + 4, Vec9(5428, 9249, 5975, 943, 9816, 1823, 2561, 212, 5066));
    Next(v, k + 5, Vec9(3821, 5975, 943, 9816, 1823, 2561, 212, 5066, 5428));
    Next(v, k + 6, Vec9(2154, 943, 9816, 1823, 2561, 212, 5066, 5428, 3821));
    Next(v, k + 7, Vec9(8618, 9816, 1823, 2561, 212, 5066, 5428, 3821, 2154));
    Next(v, k + 8, Vec9(1198, 1823, 2561, 212, 5066, 5428, 3821, 2154, 8618));
    Next(v, k + 9, Vec9(625, 2561, 212, 5066, 5428, 3821, 2154, 8618, 1198));
    Next(v, k + 10, Vec9(1936, 212, 5066, 5428, 3821, 2154, 8618, 1198, 625));
    Next(v, k + 11, Vec9(8105, 5066, 5428, 3821, 2154, 8618, 1198, 625, 1936));
    Next(v, k + 12, Vec9(6790, 5428, 3821, 2154, 8618, 1198, 625, 1936, 8105));
    Next(v, k + 13, Vec9(8467, 3821, 2154, 8618, 1198, 625, 1936, 8105, 6790));
    Next(v, k + 14, Vec9(5183, 2154, 8618, 1198, 625, 1936, 8105, 6790, 8467));
    Next(v, k + 15, Vec9(6800, 8618, 1198, 625, 1936, 8105, 6790, 8467, 5183));
    Next(v, k + 16, Vec9(1818, 1198, 625, 1936, 8105, 6790, 8467, 5183, 6800));
    Next(v, k + 17, Vec9(9209, 625, 1936, 8105, 6790, 8467, 5183, 6800, 1818));
    Next(v, k + 18, Vec9(1245, 1936, 8105, 6790, 8467, 5183, 6800, 1818, 9209));
    Next(v, k + 19, Vec9(691, 8105, 6790, 8467, 5183, 6800, 1818, 9209, 1245));
    Next(v, k + 20, Vec9(7414, 6790, 8467, 5183, 6800, 1818, 9209, 1245, 691));
    Next(v, k + 21, Vec9(9205, 8467, 5183, 6800, 1818, 9209, 1245, 691, 7414));
    Next(v, k + 22, Vec9(9091, 5183, 6800, 1818, 9209, 1245, 691, 7414, 9205));
    Next(v, k + 23, Vec9(5921, 6800, 1818, 9209, 1245, 691, 7414, 9205, 9091));
    Next(v, k + 24, Vec9(879, 1818, 9209, 1245, 691, 7414, 9205, 9091, 5921));
  }

  lemma Segment40(v: Vec9, k: nat)
    requires Iter(v, k) == Vec9(939, 9209, 1245, 691, 7414, 9205, 9091, 5921, 879)
    ensures Iter(v, k + 25) == Vec9(7076, 682, 5715, 5987, 4773, 2012, 730, 6035, 6442)
  {
    Next(v, k, Vec9(939, 9209, 1245, 691, 7414, 9205, 9091, 5921, 879));
    Next(v, k + 1, Vec9(8270, 1245, 691, 7414, 9205, 9091, 5921, 879, 939));
    Next(v, k + 2, Vec9(2804, 691, 7414, 9205, 9091, 5921, 879, 939, 8270));
    Next(v, k + 3, Vec9(7716, 7414, 9205, 9091, 5921, 879, 939, 8270, 2804));
    Next(v, k + 4, Vec9(9527, 9205, 9091, 5921, 879, 939, 8270, 2804, 7716));
    Next(v, k + 5, Vec9(9507, 9091, 5921, 879, 939, 8270, 2804, 7716, 9527));
    Next(v, k + 6, Vec9(9413, 5921, 879, 939, 8270, 2804, 7716, 9527, 9507));
    Next(v, k + 7, Vec9(6337, 879, 939, 8270, 2804, 7716, 9527, 9507, 9413));
    Next(v, k + 8, Vec9(4371, 939, 8270, 2804, 7716, 9527, 9507, 9413, 6337));
    Next(v, k + 9, Vec9(6397, 8270, 2804, 7716, 9527, 9507, 9413, 6337, 4371));
    Next(v, k + 10, Vec9(1873, 2804, 7716, 9527, 9507, 9413, 6337, 4371, 6397));
    Next(v, k + 11, Vec9(931, 7716, 9527, 9507, 9413, 6337, 4371, 6397, 1873));
    Next(v, k + 12, Vec9(6785, 9527, 9507, 9413, 6337, 4371, 6397, 1873, 931));
    Next(v, k + 13, Vec9(2742, 9507, 9413, 6337, 4371, 6397, 1873, 931, 6785));
    Next(v, k + 14, Vec9(6765, 9413, 6337, 4371, 6397, 1873, 931, 6785, 2742));
    Next(v, k + 15, Vec9(2648, 6337, 4371, 6397, 1873, 931, 6785, 2742, 6765));
    Next(v, k + 16, Vec9(3689, 4371, 6397, 1873, 931, 6785, 2742, 6765, 2648));
    Next(v, k + 17, Vec9(682, 6397, 1873, 931, 6785, 2742, 6765, 2648, 3689));
    Next(v, k + 18, Vec9(5715, 1873, 931, 6785, 2742, 6765, 2648, 3689, 682));
    Next(v, k + 19, Vec9(5987, 931, 6785, 2742, 6765, 2648, 3689, 682, 5715));
    Next(v, k + 20, Vec9(4773, 6785, 2742, 6765, 2648, 3689, 682, 5715, 5987));
    Next(v, k + 21, Vec9(2012, 2742, 6765, 2648, 3689, 682, 5715, 5987, 4773));
    Next(v, k + 22, Vec9(730, 6765, 2648, 3689, 682, 5715, 5987, 4773, 2012));
    Next(v, k + 23, Vec9(6035, 2648, 3689, 682, 5715, 5987, 4773, 2012, 730));
    Next(v, k + 24, Vec9(6442, 3689, 682, 5715, 5987, 4773, 2012, 730, 6035));
  }

  lemma Segment41(v: Vec9, k: nat)
    requires Iter(v, k) == Vec9(7076, 682, 5715, 5987, 4773, 2012, 730, 6035, 6442)
    ensures Iter(v, k + 25) == Vec9(4431, 5696, 1189, 5190, 540, 7266, 5652, 2034, 9722)
  {
    Next(v, k, Vec9(7076, 682, 5715, 5987, 4773, 2012, 730, 6035, 6442));
    Next(v, k + 1, Vec9(3435, 5715, 5987, 4773, 2012, 730, 6035, 6442, 7076));
    Next(v, k + 2, Vec9(2280, 5987, 4773, 2012, 730, 6035, 6442, 7076, 3435));
    Next(v, k + 3, Vec9(3707, 4773, 2012, 730, 6035, 6442, 7076, 3435, 2280));
    Next(v, k + 4, Vec9(1066, 2012, 730, 6035, 6442, 7076, 3435, 2280, 3707));
    Next(v, k + 5, Vec9(946, 730, 6035, 6442, 7076, 3435, 2280, 3707, 1066));
    Next(v, k + 6, Vec9(9613, 6035, 6442, 7076, 3435, 2280, 3707, 1066, 946));
    Next(v, k + 7, Vec9(6251, 6442, 7076, 3435, 2280, 3707, 1066, 946, 9613));
    Next(v, k + 8, Vec9(191, 7076, 3435, 2280, 3707, 1066, 946, 9613, 6251));
    Next(v, k + 9, Vec9(6885, 3435, 2280, 3707, 1066, 946, 9613, 6251, 191));
    Next(v, k + 10, Vec9(6379, 2280, 3707, 1066, 946, 9613, 6251, 191, 6885));
    Next(v, k + 11, Vec9(5730, 3707, 1066, 946, 9613, 6251, 191, 6885, 6379));
    Next(v, k + 12, Vec9(7806, 1066, 946, 9613, 6251, 191, 6885, 6379, 5730));
    Next(v, k + 13, Vec9(3089, 946, 9613, 6251, 191, 6885, 6379, 5730, 7806));
    Next(v, k + 14, Vec9(7686, 9613, 6251, 191, 6885, 6379, 5730, 7806, 3089));
    Next(v, k + 15, Vec9(1927, 6251, 191, 6885, 6379, 5730, 7806, 3089, 7686));
    Next(v, k + 16, Vec9(4324, 191, 6885, 6379, 5730, 7806, 3089, 7686, 1927));
    Next(v, k + 17, Vec9(5696, 6885, 6379, 5730, 7806, 3089, 7686, 1927, 4324));
    Next(v, k + 18, Vec9(1189, 6379, 5730, 7806, 3089, 7686, 1927, 4324, 5696));
    Next(v, k + 19, Vec9(5190, 5730, 7806, 3089, 7686, 1927, 4324, 5696, 1189));
    Next(v, k + 20, Vec9(540, 7806, 3089, 7686, 1927, 4324, 5696, 1189, 5190));
    Next(v, k + 21, Vec9(7266, 3089, 7686, 1927, 4324, 5696, 1189, 5190, 540));
    Next(v, k + 22, Vec9(5652, 7686, 1927, 4324, 5696, 1189, 5190, 540, 7266));
    Next(v, k + 23, Vec9(2034, 1927, 4324, 5696, 1189, 5190, 540, 7266, 5652));
    Next(v, k + 24, Vec9(9722, 4324, 5696, 1189, 5190, 540, 7266, 5652, 2034));
  }

  lemma Segment42(v: Vec9, k: nat)
    requires Iter(v, k) == Vec9(4431, 5696, 1189, 5190, 540, 7266, 5652, 2034, 9722)
    ensures Iter(v, k + 25) == Vec9(4158, 5708, 7204, 807, 935, 2589, 8819, 1594, 1311)
  {
    Next(v, k, Vec9(4431, 5696, 1189, 5190, 540, 7266, 5652, 2034, 9722));
    Next(v, k + 1, Vec9(1265, 1189, 5190, 540, 7266, 5652, 2034, 9722, 4431));
    Next(v, k + 2, Vec9(9753, 5190, 540, 7266, 5652, 2034, 9722, 4431, 1265));
    Next(v, k + 3, Vec9(5266, 540, 7266, 5652, 2034, 9722, 4431, 1265, 9753));
    Next(v, k + 4, Vec9(5103, 7266, 5652, 2034, 9722, 4431, 1265, 9753, 5266));
    Next(v, k + 5, Vec9(2163, 5652, 2034, 9722, 4431, 1265, 9753, 5266, 5103));
    Next(v, k + 6, Vec9(3489, 2034, 9722, 4431, 1265, 9753, 5266, 5103, 2163));
    Next(v, k + 7, Vec9(8374, 9722, 4431, 1265, 9753, 5266, 5103, 2163, 3489));
    Next(v, k + 8, Vec9(1348, 4431, 1265, 9753, 5266, 5103, 2163, 3489, 8374));
    Next(v, k + 9, Vec9(3083, 1265, 9753, 5266, 5103, 2163, 3489, 8374, 1348));
    Next(v, k + 10, Vec9(8011, 9753, 5266, 5103, 2163, 3489, 8374, 1348, 3083));
    Next(v, k + 11, Vec9(1742, 5266, 5103, 2163, 3489, 8374, 1348, 3083, 8011));
    Next(v, k + 12, Vec9(3524, 5103, 2163, 3489, 8374, 1348, 3083, 8011, 1742));
    Next(v, k + 13, Vec9(1579, 2163, 3489, 8374, 1348, 3083, 8011, 1742, 3524));
    Next(v, k + 14, Vec9(584, 3489, 8374, 1348, 3083, 8011, 1742, 3524, 1579));
    Next(v, k + 15, Vec9(2905, 8374, 1348, 3083, 8011, 1742, 3524, 1579, 584));
    Next(v, k + 16, Vec9(5469, 1348, 3083, 8011, 1742, 3524, 1579, 584, 2905));
    Next(v, k + 17, Vec9(5708, 3083, 8011, 1742, 3524, 1579, 584, 2905, 5469));
    Next(v, k + 18, Vec9(7204, 8011, 1742, 3524, 1579, 584, 2905, 5469, 5708));
    Next(v, k + 19, Vec9(807, 1742, 3524, 1579, 584, 2905, 5469, 5708, 7204));
    Next(v, k + 20, Vec9(935, 3524, 1579, 584, 2905, 5469, 5708, 7204, 807));
    Next(v, k + 21, Vec9(2589, 1579, 584, 2905, 5469, 5708, 7204, 807, 935));
    Next(v, k + 22, Vec9(8819, 584, 2905, 5469, 5708, 7204, 807, 935, 2589));
    Next(v, k + 23, Vec9(1594, 2905, 5469, 5708, 7204, 807, 935, 2589, 8819));
    Next(v, k + 24, Vec9(1311, 5469, 5708, 7204, 807, 935, 2589, 8819, 1594));
  }

  lemma Segment43(v: Vec9, k: nat)
    requires Iter(v, k) == Vec9(4158, 5708, 7204, 807, 935, 2589, 8819, 1594, 1311)
    ensures Iter(v, k + 25) == Vec9(453, 5198, 6889, 2232, 4130, 4319, 2843, 6460, 6078)
  {
    Next(v, k, Vec9(4158, 5708, 7204, 807, 935, 2589, 8819, 1594, 1311));
    Next(v, k + 1, Vec9(1550, 7204, 807, 935, 2589, 8819, 1594, 1311, 4158));
    Next(v, k + 2, Vec9(5654, 807, 935, 2589, 8819, 1594, 1311, 4158, 1550));
    Next(v, k + 3, Vec9(4982, 935, 2589, 8819, 1594, 1311, 4158, 1550, 5654));
    Next(v, k + 4, Vec9(5782, 2589, 8819, 1594, 1311, 4158, 1550, 5654, 4982));
    Next(v, k + 5, Vec9(6636, 8819, 1594, 1311, 4158, 1550, 5654, 4982, 5782));
    Next(v, k + 6, Vec9(2183, 1594, 1311, 4158, 1550, 5654, 4982, 5782, 6636));
    Next(v, k + 7, Vec9(9240, 1311, 4158, 1550, 5654, 4982, 5782, 6636, 2183));
    Next(v, k + 8, Vec9(1900, 4158, 1550, 5654, 4982, 5782, 6636, 2183, 9240));
    Next(v, k + 9, Vec9(2258, 1550, 5654, 4982, 5782, 6636, 2183, 9240, 1900));
    Next(v, k + 10, Vec9(9121, 5654, 4982, 5782, 6636, 2183, 9240, 1900, 2258));
    Next(v, k + 11, Vec9(6362, 4982, 5782, 6636, 2183, 9240, 1900, 2258, 9121));
    Next(v, k + 12, Vec9(8449, 5782, 6636, 2183, 9240, 1900, 2258, 9121, 6362));
    Next(v, k + 13, Vec9(7162, 6636, 2183, 9240, 1900, 2258, 9121, 6362, 8449));
    Next(v, k + 14, Vec9(9303, 2183, 9240, 1900, 2258, 9121, 6362, 8449, 7162));
    Next(v, k + 15, Vec9(2709, 9240, 1900, 2258, 9121, 6362, 8449, 7162, 9303));
    Next(v, k + 16, Vec9(6531, 1900, 2258, 9121, 6362, 8449, 7162, 9303, 2709));
    Next(v, k + 17, Vec9(5198, 2258, 9121, 6362, 8449, 7162, 9303, 2709, 6531));
    Next(v, k + 18, Vec9(6889, 9121, 6362, 8449, 7162, 9303, 2709, 6531, 5198));
    Next(v, k + 19, Vec9(2232, 6362, 8449, 7162, 9303, 2709, 6531, 5198, 6889));
    Next(v, k + 20, Vec9(4130, 8449, 7162, 9303, 2709, 6531, 5198, 6889, 2232));
    Next(v, k + 21, Vec9(4319, 7162, 9303, 2709, 6531, 5198, 6889, 2232, 4130));
    Next(v, k + 22, Vec9(2843, 9303, 2709, 6531, 5198, 6889, 2232, 4130, 4319));
    Next(v, k + 23, Vec9(6460, 2709, 6531, 5198, 6889, 2232, 4130, 4319, 2843));
    Next(v, k + 24, Vec9(6078, 6531, 5198, 6889, 2232, 4130, 4319, 2843, 6460));
  }

  lemma Segment44(v: Vec9, k: nat)
    requires Iter(v, k) == Vec9(453, 5198, 6889, 2232, 4130, 4319, 2843, 6460, 6078)
    ensures Iter(v, k + 25) == Vec9(8436, 201, 7897, 8408, 6918, 7331, 2120, 8364, 3376)
  {
    Next(v, k, Vec9(453, 5198, 6889, 2232, 4130, 4319, 2843, 6460, 6078));
    Next(v, k + 1, Vec9(4745, 6889, 2232, 4130, 4319, 2843, 6460, 6078, 453));
    Next(v, k + 2, Vec9(2144, 2232, 4130, 4319, 2843, 6460, 6078, 453, 4745));
    Next(v, k + 3, Vec9(88, 4130, 4319, 2843, 6460, 6078, 453, 4745, 2144));
    Next(v, k + 4, Vec9(4042, 4319, 2843, 6460, 6078, 453, 4745, 2144, 88));
    Next(v, k + 5, Vec9(277, 2843, 6460, 6078, 453, 4745, 2144, 88, 4042));
    Next(v, k + 6, Vec9(2566, 6460, 6078, 453, 4745, 2144, 88, 4042, 277));
    Next(v, k + 7, Vec9(3894, 6078, 453, 4745, 2144, 88, 4042, 277, 2566));
    Next(v, k + 8, Vec9(2184, 453, 4745, 2144, 88, 4042, 277, 2566, 3894));
    Next(v, k + 9, Vec9(8098, 4745, 2144, 88, 4042, 277, 2566, 3894, 2184));
    Next(v, k + 10, Vec9(6476, 2144, 88, 4042, 277, 2566, 3894, 2184, 8098));
    Next(v, k + 11, Vec9(5497, 88, 4042, 277, 2566, 3894, 2184, 8098, 6476));
    Next(v, k + 12, Vec9(4420, 4042, 277, 2566, 3894, 2184, 8098, 6476, 5497));
    Next(v, k + 13, Vec9(9451, 277, 2566, 3894, 2184, 8098, 6476, 5497, 4420));
    Next(v, k + 14, Vec9(655, 2566, 3894, 2184, 8098, 6476, 5497, 4420, 9451));
    Next(v, k + 15, Vec9(1911, 3894, 2184, 8098, 6476, 5497, 4420, 9451, 655));
    Next(v, k + 16, Vec9(1983, 2184, 8098, 6476, 5497, 4420, 9451, 655, 1911));
    Next(v, k + 17, Vec9(201, 8098, 6476, 5497, 4420, 9451, 655, 1911, 1983));
    Next(v, k + 18, Vec9(7897, 6476, 5497, 4420, 9451, 655, 1911, 1983, 201));
    Next(v, k + 19, Vec9(8408, 5497, 4420, 9451, 655, 1911, 1983, 201, 7897));
    Next(v, k + 20, Vec9(6918, 4420, 9451, 655, 1911, 1983, 201, 7897, 8408));
    Next(v, k + 21, Vec9(7331, 9451, 655, 1911, 1983, 201, 7897, 8408, 6918));
    Next(v, k + 22, Vec9(2120, 655, 1911, 1983, 201, 7897, 8408, 6918, 7331));
    Next(v, k + 23, Vec9(8364, 1911, 1983, 201, 7897, 8408, 6918, 7331, 2120));
    Next(v, k + 24, Vec9(3376, 1983, 201, 7897, 8408, 6918, 7331, 2120, 8364));
  }

  lemma Segment45(v: Vec9, k: nat)
    requires Iter(v, k) == Vec9(8436, 201, 7897, 8408, 6918, 7331, 2120, 8364, 3376)
    ensures Iter(v, k + 25) == Vec9(3101, 4175, 9647, 7612, 1090, 2142, 9268, 1498, 6996)
  {
    Next(v, k, Vec9(8436, 201, 7897, 8408, 6918, 7331, 2120, 8364, 3376));
    Next(v, k + 1, Vec9(1594, 7897, 8408, 6918, 7331, 2120, 8364, 3376, 8436));
    Next(v, k + 2, Vec9(6303, 8408, 6918, 7331, 2120, 8364, 3376, 8436, 1594));
    Next(v, k + 3, Vec9(2105, 6918, 7331, 2120, 8364, 3376, 8436, 1594, 6303));
    Next(v, k + 4, Vec9(4813, 7331, 2120, 8364, 3376, 8436, 1594, 6303, 2105));
    Next(v, k + 5, Vec9(2518, 2120, 8364, 3376, 8436, 1594, 6303, 2105, 4813));
    Next(v, k + 6, Vec9(9431, 8364, 3376, 8436, 1594, 6303, 2105, 4813, 2518));
    Next(v, k + 7, Vec9(8762, 3376, 8436, 1594, 6303, 2105, 4813, 2518, 9431));
    Next(v, k + 8, Vec9(4443, 8436, 1594, 6303, 2105, 4813, 2518, 9431, 8762));
    Next(v, k + 9, Vec9(3993, 1594, 6303, 2105, 4813, 2518, 9431, 8762, 4443));
    Next(v, k + 10, Vec9(7430, 6303, 2105, 4813, 2518, 9431, 8762, 4443, 3993));
    Next(v, k + 11, Vec9(8702, 2105, 4813, 2518, 9431, 8762, 4443, 3993, 7430));
    Next(v, k + 12, Vec9(3232, 4813, 2518, 9431, 8762, 4443, 3993, 7430, 8702));
    Next(v, k + 13, Vec9(1581, 2518, 9431, 8762, 4443, 3993, 7430, 8702, 3232));
    Next(v, k + 14, Vec9(937, 9431, 8762, 4443, 3993, 7430, 8702, 3232, 1581));
    Next(v, k + 15, Vec9(8494, 8762, 4443, 3993, 7430, 8702, 3232, 1581, 937));
    Next(v, k + 16, Vec9(268, 4443, 3993, 7430, 8702, 3232, 1581, 937, 8494));
    Next(v, k + 17, Vec9(4175, 3993, 7430, 8702, 3232, 1581, 937, 8494, 268));
    Next(v, k + 18, Vec9(9647, 7430, 8702, 3232, 1581, 937, 8494, 268, 4175));
    Next(v, k + 19, Vec9(7612, 8702, 3232, 1581, 937, 8494, 268, 4175, 9647));
    Next(v, k + 20, Vec9(1090, 3232, 1581, 937, 8494, 268, 4175, 9647, 7612));
    Next(v, k + 21, Vec9(2142, 1581, 937, 8494, 268, 4175, 9647, 7612, 1090));
    Next(v, k + 22, Vec9(9268, 937, 8494, 268, 4175, 9647, 7612, 1090, 2142));
    Next(v, k + 23, Vec9(1498, 8494, 268, 4175, 9647, 7612, 1090, 2142, 9268));
    Next(v, k + 24, Vec9(6996, 268, 4175, 9647, 7612, 1090, 2142, 9268, 1498));
  }

  lemma Segment46(v: Vec9, k: nat)
    requires Iter(v, k) == Vec9(3101, 4175, 9647, 7612, 1090, 2142, 9268, 1498, 6996)
    ensures Iter(v, k + 25) == Vec9(964, 890, 7194, 5454, 300, 2814, 5952, 5031, 2992)
  {
    Next(v, k, Vec9(3101, 4175, 9647, 7612, 1090, 2142, 9268, 1498, 6996));
    Next(v, k + 1, Vec9(1074, 9647, 7612, 1090, 2142, 9268, 1498, 6996, 3101));
    Next(v, k + 2, Vec9(8573, 7612, 1090, 2142, 9268, 1498, 6996, 3101, 1074));
    Next(v, k + 3, Vec9(8868, 1090, 2142, 9268, 1498, 6996, 3101, 1074, 8573));
    Next(v, k + 4, Vec9(2051, 2142, 9268, 1498, 6996, 3101, 1074, 8573, 8868));
    Next(v, k + 5, Vec9(91, 9268, 1498, 6996, 3101, 1074, 8573, 8868, 2051));
    Next(v, k + 6, Vec9(9177, 1498, 6996, 3101, 1074, 8573, 8868, 2051, 91));
    Next(v, k + 7, Vec9(2150, 6996, 3101, 1074, 8573, 8868, 2051, 91, 9177));
    Next(v, k + 8, Vec9(4846, 3101, 1074, 8573, 8868, 2051, 91, 9177, 2150));
    Next(v, k + 9, Vec9(8084, 1074, 8573, 8868, 2051, 91, 9177, 2150, 4846));
    Next(v, k + 10, Vec9(2819, 8573, 8868, 2051, 91, 9177, 2150, 4846, 8084));
    Next(v, k + 11, Vec9(5754, 8868, 2051, 91, 9177, 2150, 4846, 8084, 2819));
    Next(v, k + 12, Vec9(3114, 2051, 91, 9177, 2150, 4846, 8084, 2819, 5754));
    Next(v, k + 13, Vec9(8766, 91, 9177, 2150, 4846, 8084, 2819, 5754, 3114));
    Next(v, k + 14, Vec9(1154, 9177, 2150, 4846, 8084, 2819, 5754, 3114, 8766));
    Next(v, k + 15, Vec9(8023, 2150, 4846, 8084, 2819, 5754, 3114, 8766, 1154));
    Next(v, k + 16, Vec9(3956, 4846, 8084, 2819, 5754, 3114, 8766, 1154, 8023));
    Next(v, k + 17, Vec9(890, 8084, 2819, 5754, 3114, 8766, 1154, 8023, 3956));
    Next(v, k + 18, Vec9(7194, 2819, 5754, 3114, 8766, 1154, 8023, 3956, 890));
    Next(v, k + 19, Vec9(5454, 5754, 3114, 8766, 1154, 8023, 3956, 890, 7194));
    Next(v, k + 20, Vec9(300, 3114, 8766, 1154, 8023, 3956, 890, 7194, 5454));
    Next(v, k + 21, Vec9(2814, 8766, 1154, 8023, 3956, 890, 7194, 5454, 300));
    Next(v, k + 22, Vec9(5952, 1154, 8023, 3956, 890, 7194, 5454, 300, 2814));
    Next(v, k + 23, Vec9(5031, 8023, 3956, 890, 7194, 5454, 300, 2814, 5952));
    Next(v, k + 24, Vec9(2992, 3956, 890, 7194, 5454, 300, 2814, 5952, 5031));
  }

  lemma Segment47(v: Vec9, k: nat)
    requires Iter(v, k) == Vec9(964, 890, 7194, 5454, 300, 2814, 5952, 5031, 2992)
    ensures Iter(v, k + 25) == Vec9(4038, 7178, 402, 1773, 3320, 9431, 9419, 1918, 1826)
  {
    Next(v, k, Vec9(964, 890, 7194, 5454, 300, 2814, 5952, 5031, 2992));
    Next(v, k + 1, Vec9(9755, 7194, 5454, 300, 2814, 5952, 5031, 2992, 964));
    Next(v, k + 2, Vec9(7268, 5454, 300, 2814, 5952, 5031, 2992, 964, 9755));
    Next(v, k + 3, Vec9(8015, 300, 2814, 5952, 5031, 2992, 964, 9755, 7268));
    Next(v, k + 4, Vec9(2114, 2814, 5952, 5031, 2992, 964, 9755, 7268, 8015));
    Next(v, k + 5, Vec9(700, 5952, 5031, 2992, 964, 9755, 7268, 8015, 2114));
    Next(v, k + 6, Vec9(5252, 5031, 2992, 964, 9755, 7268, 8015, 2114, 700));
    Next(v, k + 7, Vec9(9608, 2992, 964, 9755, 7268, 8015, 2114, 700, 5252));
    Next(v, k + 8, Vec9(3213, 964, 9755, 7268, 8015, 2114, 700, 5252, 9608));
    Next(v, k + 9, Vec9(7580, 9755, 7268, 8015, 2114, 700, 5252, 9608, 3213));
    Next(v, k + 10, Vec9(2175, 7268, 8015, 2114, 700, 5252, 9608, 3213, 7580));
    Next(v, k + 11, Vec9(5093, 8015, 2114, 700, 5252, 9608, 3213, 7580, 2175));
    Next(v, k + 12, Vec9(2922, 2114, 700, 5252, 9608, 3213, 7580, 2175, 5093));
    Next(v, k + 13, Vec9(9021, 700, 5252, 9608, 3213, 7580, 2175, 5093, 2922));
    Next(v, k + 14, Vec9(1508, 5252, 9608, 3213, 7580, 2175, 5093, 2922, 9021));
    Next(v, k + 15, Vec9(3744, 9608, 3213, 7580, 2175, 5093, 2922, 9021, 1508));
    Next(v, k + 16, Vec9(5864, 3213, 7580, 2175, 5093, 2922, 9021, 1508, 3744));
    Next(v, k + 17, Vec9(7178, 7580, 2175, 5093, 2922, 9021, 1508, 3744, 5864));
    Next(v, k + 18, Vec9(402, 2175, 5093, 2922, 9021, 1508, 3744, 5864, 7178));
    Next(v, k + 19, Vec9(1773, 5093, 2922, 9021, 1508, 3744, 5864, 7178, 402));
    Next(v, k + 20, Vec9(3320, 2922, 9021, 1508, 3744, 5864, 7178, 402, 1773));
    Next(v, k + 21, Vec9(9431, 9021, 1508, 3744, 5864, 7178, 402, 1773, 3320));
    Next(v, k + 22, Vec9(9419, 1508, 3744, 5864, 7178, 402, 1773, 3320, 9431));
    Next(v, k + 23, Vec9(1918, 3744, 5864, 7178, 402, 1773, 3320, 9431, 9419));
    Next(v, k + 24, Vec9(1826, 5864, 7178, 402, 1773, 3320, 9431, 9419, 1918));
  }

  lemma Segment48(v: Vec9, k: nat)
    requires Iter(v, k) == Vec9(4038, 7178, 402, 1773, 3320, 9431, 9419, 1918, 1826)
    ensures Iter(v, k + 25) == Vec9(8481, 6999, 8163, 9302, 9811, 5074, 8337, 8532, 2883)
  {
    Next(v, k, Vec9(4038, 7178, 402, 1773, 3320, 9431, 9419, 1918, 1826));
    Next(v, k + 1, Vec9(3140, 402, 1773, 3320, 9431, 9419, 1918, 1826, 4038));
    Next(v, k + 2, Vec9(7091, 1773, 3320, 9431, 9419, 1918, 1826, 4038, 3140));
    Next(v, k + 3, Vec9(4511, 3320, 9431, 9419, 1918, 1826, 4038, 3140, 7091));
    Next(v, k + 4, Vec9(8638, 9431, 9419, 1918, 1826, 4038, 3140, 7091, 4511));
    Next(v, k + 5, Vec9(793, 9419, 1918, 1826, 4038, 3140, 7091, 4511, 8638));
    Next(v, k + 6, Vec9(8626, 1918, 1826, 4038, 3140, 7091, 4511, 8638, 793));
    Next(v, k + 7, Vec9(3121, 1826, 4038, 3140, 7091, 4511, 8638, 793, 8626));
    Next(v, k + 8, Vec9(8534, 4038, 3140, 7091, 4511, 8638, 793, 8626, 3121));
    Next(v, k + 9, Vec9(5333, 3140, 7091, 4511, 8638, 793, 8626, 3121, 8534));
    Next(v, k + 10, Vec9(7636, 7091, 4511, 8638, 793, 8626, 3121, 8534, 5333));
    Next(v, k + 11, Vec9(9284, 4511, 8638, 793, 8626, 3121, 8534, 5333, 7636));
    Next(v, k + 12, Vec9(5056, 8638, 793, 8626, 3121, 8534, 5333, 7636, 9284));
    Next(v, k + 13, Vec9(3582, 793, 8626, 3121, 8534, 5333, 7636, 9284, 5056));
    Next(v, k + 14, Vec9(7040, 8626, 3121, 8534, 5333, 7636, 9284, 5056, 3582));
    Next(v, k + 15, Vec9(1586, 3121, 8534, 5333, 7636, 9284, 5056, 3582, 7040));
    Next(v, k + 16, Vec9(1535, 8534, 5333, 7636, 9284, 5056, 3582, 7040, 1586));
    Next(v, k + 17, Vec9(6999, 5333, 7636, 9284, 5056, 3582, 7040, 1586, 1535));
    Next(v, k + 18, Vec9(8163, 7636, 9284, 5056, 3582, 7040, 1586, 1535, 6999));
    Next(v, k + 19, Vec9(9302, 9284, 5056, 3582, 7040, 1586, 1535, 6999, 8163));
    Next(v, k + 20, Vec9(9811, 5056, 3582, 7040, 1586, 1535, 6999, 8163, 9302));
    Next(v, k + 21, Vec9(5074, 3582, 7040, 1586, 1535, 6999, 8163, 9302, 9811));
    Next(v, k + 22, Vec9(8337, 7040, 1586, 1535, 6999, 8163, 9302, 9811, 5074));
    Next(v, k + 23, Vec9(8532, 1586, 1535, 6999, 8163, 9302, 9811, 5074, 8337));
    Next(v, k + 24, Vec9(2883, 1535, 6999, 8163, 9302, 9811, 5074, 8337, 8532));
  }

  lemma Segment49(v: Vec9, k: nat)
    requires Iter(v, k) == Vec9(8481, 6999, 8163, 9302, 9811, 5074, 8337, 8532, 2883)
    ensures Iter(v, k + 25) == Vec9(8197, 4342, 6200, 1434, 577, 6898, 5610, 6289, 5058)
  {
    Next(v, k, Vec9(8481, 6999, 8163, 9302, 9811, 5074, 8337, 8532, 2883));
    Next(v, k + 1, Vec9(8347, 8163, 9302, 9811, 5074, 8337, 8532, 2883, 8481));
    Next(v, k + 2, Vec9(9645, 9302, 9811, 5074, 8337, 8532, 2883, 8481, 8347));
    Next(v, k + 3, Vec9(9486, 9811, 5074, 8337, 8532, 2883, 8481, 8347, 9645));
    Next(v, k + 4, Vec9(325, 5074, 8337, 8532, 2883, 8481, 8347, 9645, 9486));
    Next(v, k + 5, Vec9(4749, 8337, 8532, 2883, 8481, 8347, 9645, 9486, 325));
    Next(v, k + 6, Vec9(3588, 8532, 2883, 8481, 8347, 9645, 9486, 325, 4749));
    Next(v, k + 7, Vec9(4944, 2883, 8481, 8347, 9645, 9486, 325, 4749, 3588));
    Next(v, k + 8, Vec9(7768, 8481, 8347, 9645, 9486, 325, 4749, 3588, 4944));
    Next(v, k + 9, Vec9(713, 8347, 9645, 9486, 325, 4749, 3588, 4944, 7768));
    Next(v, k + 10, Vec9(7634, 9645, 9486, 325, 4749, 3588, 4944, 7768, 713));
    Next(v, k + 11, Vec9(2011, 9486, 325, 4749, 3588, 4944, 7768, 713, 7634));
    Next(v, k + 12, Vec9(7475, 325, 4749, 3588, 4944, 7768, 713, 7634, 2011));
    Next(v, k + 13, Vec9(2679, 4749, 3588, 4944, 7768, 713, 7634, 2011, 7475));
    Next(v, k + 14, Vec9(2070, 3588, 4944, 7768, 713, 7634, 2011, 7475, 2679));
    Next(v, k + 15, Vec9(1518, 4944, 7768, 713, 7634, 2011, 7475, 2679, 2070));
    Next(v, k + 16, Vec9(3426, 7768, 713, 7634, 2011, 7475, 2679, 2070, 1518));
    Next(v, k + 17, Vec9(4342, 713, 7634, 2011, 7475, 2679, 2070, 1518, 3426));
    Next(v, k + 18, Vec9(6200, 7634, 2011, 7475, 2679, 2070, 1518, 3426, 4342));
    Next(v, k + 19, Vec9(1434, 2011, 7475, 2679, 2070, 1518, 3426, 4342, 6200));
    Next(v, k + 20, Vec9(577, 7475, 2679, 2070, 1518, 3426, 4342, 6200, 1434));
    Next(v, k + 21, Vec9(6898, 2679, 2070, 1518, 3426, 4342, 6200, 1434, 577));
    Next(v, k + 22, Vec9(5610, 2070, 1518, 3426, 4342, 6200, 1434, 577, 6898));
    Next(v, k + 23, Vec9(6289, 1518, 3426, 4342, 6200, 1434, 577, 6898, 5610));
    Next(v, k + 24, Vec9(5058, 3426, 4342, 6200, 1434, 577, 6898, 5610, 6289));
  }

  lemma Segment50(v: Vec9, k: nat)
    requires Iter(v, k) == Vec9(8197, 4342, 6200, 1434, 577, 6898, 5610, 6289, 5058)
    ensures Iter(v, k + 25) == Vec9(5324, 2612, 8735, 5550, 49, 5389, 8200, 5398, 8572)
  {
    Next(v, k, Vec9(8197, 4342, 6200, 1434, 577, 6898, 5610, 6289, 5058));
    Next(v, k + 1, Vec9(5974, 6200, 1434, 577, 6898, 5610, 6289, 5058, 8197));
    Next(v, k + 2, Vec9(226, 1434, 577, 6898, 5610, 6289, 5058, 8197, 5974));
    Next(v, k + 3, Vec9(1208, 577, 6898, 5610, 6289, 5058, 8197, 5974, 226));
    Next(v, k + 4, Vec9(9198, 6898, 5610, 6289, 5058, 8197, 5974, 226, 1208));
    Next(v, k + 5, Vec9(7529, 5610, 6289, 5058, 8197, 5974, 226, 1208, 9198));
    Next(v, k + 6, Vec9(7910, 6289, 5058, 8197, 5974, 226, 1208, 9198, 7529));
    Next(v, k + 7, Vec9(8208, 5058, 8197, 5974, 226, 1208, 9198, 7529, 7910));
    Next(v, k + 8, Vec9(6679, 8197, 5974, 226, 1208, 9198, 7529, 7910, 8208));
    Next(v, k + 9, Vec9(1518, 5974, 226, 1208, 9198, 7529, 7910, 8208, 6679));
    Next(v, k + 10, Vec9(4456, 226, 1208, 9198, 7529, 7910, 8208, 6679, 1518));
    Next(v, k + 11, Vec9(5599, 1208, 9198, 7529, 7910, 8208, 6679, 1518, 4456));
    Next(v, k + 12, Vec9(5438, 9198, 7529, 7910, 8208, 6679, 1518, 4456, 5599));
    Next(v, k + 13, Vec9(3760, 7529, 7910, 8208, 6679, 1518, 4456, 5599, 5438));
    Next(v, k + 14, Vec9(3769, 7910, 8208, 6679, 1518, 4456, 5599, 5438, 3760));
    Next(v, k + 15, Vec9(4141, 8208, 6679, 1518, 4456, 5599, 5438, 3760, 3769));
    Next(v, k + 16, Vec9(4067, 6679, 1518, 4456, 5599, 5438, 3760, 3769, 4141));
    Next(v, k + 17, Vec9(2612, 1518, 4456, 5599, 5438, 3760, 3769, 4141, 4067));
    Next(v, k + 18, Vec9(8735, 4456, 5599, 5438, 3760, 3769, 4141, 4067, 2612));
    Next(v, k + 19, Vec9(5550, 5599, 5438, 3760, 3769, 4141, 4067, 2612, 8735));
    Next(v, k + 20, Vec9(49, 5438, 3760, 3769, 4141, 4067, 2612, 8735, 5550));
    Next(v, k + 21, Vec9(5389, 3760, 3769, 4141, 4067, 2612, 8735, 5550, 49));
    Next(v, k + 22, Vec9(8200, 3769, 4141, 4067, 2612, 8735, 5550, 49, 5389));
    Next(v, k + 23, Vec9(5398, 4141, 4067, 2612, 8735, 5550, 49, 5389, 8200));
    Next(v, k + 24, Vec9(8572, 4067, 2612, 8735, 5550, 49, 5389, 8200, 5398));
  }

  lemma Segment51(v: Vec9, k: nat)
    requires Iter(v, k) == Vec9(5324, 2612, 8735, 5550, 49, 5389, 8200, 5398, 8572)
    ensures Iter(v, k + 25) == Vec9(2179, 4683, 8368, 5356, 2196, 4013, 5553, 3982, 5069)
  {
    Next(v, k, Vec9(5324, 2612, 8735, 5550, 49, 5389, 8200, 5398, 8572));
    Next(v, k + 1, Vec9(7117, 8735, 5550, 49, 5389, 8200, 5398, 8572, 5324));
    Next(v, k + 2, Vec9(1618, 5550, 49, 5389, 8200, 5398, 8572, 5324, 7117));
    Next(v, k + 3, Vec9(3932, 49, 5389, 8200, 5398, 8572, 5324, 7117, 1618));
    Next(v, k + 4, Vec9(5946, 5389, 8200, 5398, 8572, 5324, 7117, 1618, 3932));
    Next(v, k + 5, Vec9(9272, 8200, 5398, 8572, 5324, 7117, 1618, 3932, 5946));
    Next(v, k + 6, Vec9(8757, 5398, 8572, 5324, 7117, 1618, 3932, 5946, 9272));
    Next(v, k + 7, Vec9(6470, 8572, 5324, 7117, 1618, 3932, 5946, 9272, 8757));
    Next(v, k + 8, Vec9(2102, 5324, 7117, 1618, 3932, 5946, 9272, 8757, 6470));
    Next(v, k + 9, Vec9(3222, 7117, 1618, 3932, 5946, 9272, 8757, 6470, 2102));
    Next(v, k + 10, Vec9(3895, 1618, 3932, 5946, 9272, 8757, 6470, 2102, 3222));
    Next(v, k + 11, Vec9(7552, 3932, 5946, 9272, 8757, 6470, 2102, 3222, 3895));
    Next(v, k + 12, Vec9(6209, 5946, 9272, 8757, 6470, 2102, 3222, 3895, 7552));
    Next(v, k + 13, Vec9(9566, 9272, 8757, 6470, 2102, 3222, 3895, 7552, 6209));
    Next(v, k + 14, Vec9(9535, 8757, 6470, 2102, 3222, 3895, 7552, 6209, 9566));
    Next(v, k + 15, Vec9(9051, 6470, 2102, 3222, 3895, 7552, 6209, 9566, 9535));
    Next(v, k + 16, Vec9(7248, 2102, 3222, 3895, 7552, 6209, 9566, 9535, 9051));
    Next(v, k + 17, Vec9(4683, 3222, 3895, 7552, 6209, 9566, 9535, 9051, 7248));
    Next(v, k + 18, Vec9(8368, 3895, 7552, 6209, 9566, 9535, 9051, 7248, 4683));
    Next(v, k + 19, Vec9(5356, 7552, 6209, 9566, 9535, 9051, 7248, 4683, 8368));
    Next(v, k + 20, Vec9(2196, 6209, 9566, 9535, 9051, 7248, 4683, 8368, 5356));
    Next(v, k + 21, Vec9(4013, 9566, 9535, 9051, 7248, 4683, 8368, 5356, 2196));
    Next(v, k + 22, Vec9(5553, 9535, 9051, 7248, 4683, 8368, 5356, 2196, 4013));
    Next(v, k + 23, Vec9(3982, 9051, 7248, 4683, 8368, 5356, 2196, 4013, 5553));
    Next(v, k + 24, Vec9(5069, 7248, 4683, 8368, 5356, 2196, 4013, 5553, 3982));
  }

  lemma Segment52(v: Vec9, k: nat)
    requires Iter(v, k) == Vec9(2179, 4683, 8368, 5356, 2196, 4013, 5553, 3982, 5069)
    ensures Iter(v, k + 25) == Vec9(1329, 2119, 4558, 1098, 8939, 174, 3246, 4472, 1883)
  {
    Next(v, k, Vec9(2179, 4683, 8368, 5356, 2196, 4013, 5553, 3982, 5069));
    Next(v, k + 1, Vec9(2504, 8368, 5356, 2196, 4013, 5553, 3982, 5069, 2179));
    Next(v, k + 2, Vec9(5864, 5356, 2196, 4013, 5553, 3982, 5069, 2179, 2504));
    Next(v, k + 3, Vec9(9321, 2196, 4013, 5553, 3982, 5069, 2179, 2504, 5864));
    Next(v, k + 4, Vec9(2704, 4013, 5553, 3982, 5069, 2179, 2504, 5864, 9321));
    Next(v, k + 5, Vec9(1309, 5553, 3982, 5069, 2179, 2504, 5864, 9321, 2704));
    Next(v, k + 6, Vec9(4244, 3982, 5069, 2179, 2504, 5864, 9321, 2704, 1309));
    Next(v, k + 7, Vec9(9567, 5069, 2179, 2504, 5864, 9321, 2704, 1309, 4244));
    Next(v, k + 8, Vec9(5331, 2179, 2504, 5864, 9321, 2704, 1309, 4244, 9567));
    Next(v, k + 9, Vec9(6677, 2504, 5864, 9321, 2704, 1309, 4244, 9567, 5331));
    Next(v, k + 10, Vec9(5656, 5864, 9321, 2704, 1309, 4244, 9567, 5331, 6677));
    Next(v, k + 11, Vec9(208, 9321, 2704, 1309, 4244, 9567, 5331, 6677, 5656));
    Next(v, k + 12, Vec9(9113, 2704, 1309, 4244, 9567, 5331, 6677, 5656, 208));
    Next(v, k + 13, Vec9(3420, 1309, 4244, 9567, 5331, 6677, 5656, 208, 9113));
    Next(v, k + 14, Vec9(7718, 4244, 9567, 5331, 6677, 5656, 208, 9113, 3420));
    Next(v, k + 15, Vec9(6355, 9567, 5331, 6677, 5656, 208, 9113, 3420, 7718));
    Next(v, k + 16, Vec9(3212, 5331, 6677, 5656, 208, 9113, 3420, 7718, 6355));
    Next(v, k + 17, Vec9(2119, 6677, 5656, 208, 9113, 3420, 7718, 6355, 3212));
    Next(v, k + 18, Vec9(4558, 5656, 208, 9113, 3420, 7718, 6355, 3212, 2119));
    Next(v, k + 19, Vec9(1098, 208, 9113, 3420, 7718, 6355, 3212, 2119, 4558));
    Next(v, k + 20, Vec9(8939, 9113, 3420, 7718, 6355, 3212, 2119, 4558, 1098));
    Next(v, k + 21, Vec9(174, 3420, 7718, 6355, 3212, 2119, 4558, 1098, 8939));
    Next(v, k + 22, Vec9(3246, 7718, 6355, 3212, 2119, 4558, 1098, 8939, 174));
    Next(v, k + 23, Vec9(4472, 6355, 3212, 2119, 4558, 1098, 8939, 174, 3246));
    Next(v, k + 24, Vec9(1883, 3212, 2119, 4558, 1098, 8939, 174, 3246, 4472));
  }

  lemma Segment53(v: Vec9, k: nat)
    requires Iter(v, k) == Vec9(1329, 2119, 4558, 1098, 8939, 174, 3246, 4472, 1883)
    ensures Iter(v, k + 25) == Vec9(104, 5766, 3129, 8424, 3449, 1666, 4828, 6730, 6222)
  {
    Next(v, k, Vec9(1329, 2119, 4558, 1098, 8939, 174, 3246, 4472, 1883));
    Next(v, k + 1, Vec9(790, 4558, 1098, 8939, 174, 3246, 4472, 1883, 1329));
    Next(v, k + 2, Vec9(3768, 1098, 8939, 174, 3246, 4472, 1883, 1329, 790));
    Next(v, k + 3, Vec9(7159, 8939, 174, 3246, 4472, 1883, 1329, 790, 3768));
    Next(v, k + 4, Vec9(1780, 174, 3246, 4472, 1883, 1329, 790, 3768, 7159));
    Next(v, k + 5, Vec9(8223, 3246, 4472, 1883, 1329, 790, 3768, 7159, 1780));
    Next(v, k + 6, Vec9(4852, 4472, 1883, 1329, 790, 3768, 7159, 1780, 8223));
    Next(v, k + 7, Vec9(9449, 1883, 1329, 790, 3768, 7159, 1780, 8223, 4852));
    Next(v, k + 8, Vec9(2263, 1329, 790, 3768, 7159, 1780, 8223, 4852, 9449));
    Next(v, k + 9, Vec9(8895, 790, 3768, 7159, 1780, 8223, 4852, 9449, 2263));
    Next(v, k + 10, Vec9(1724, 3768, 7159, 1780, 8223, 4852, 9449, 2263, 8895));
    Next(v, k + 11, Vec9(2044, 7159, 1780, 8223, 4852, 9449, 2263, 8895, 1724));
    Next(v, k + 12, Vec9(5115, 1780, 8223, 4852, 9449, 2263, 8895, 1724, 2044));
    Next(v, k + 13, Vec9(6494, 8223, 4852, 9449, 2263, 8895, 1724, 2044, 5115));
    Next(v, k + 14, Vec9(1729, 4852, 9449, 2263, 8895, 1724, 2044, 5115, 6494));
    Next(v, k + 15, Vec9(3123, 9449, 2263, 8895, 1724, 2044, 5115, 6494, 1729));
    Next(v, k + 16, Vec9(6326, 2263, 8895, 1724, 2044, 5115, 6494, 1729, 3123));
    Next(v, k + 17, Vec9(5766, 8895, 1724, 2044, 5115, 6494, 1729, 3123, 6326));
    Next(v, k + 18, Vec9(3129, 1724, 2044, 5115, 6494, 1729, 3123, 6326, 5766));
    Next(v, k + 19, Vec9(8424, 2044, 5115, 6494, 1729, 3123, 6326, 5766, 3129));
    Next(v, k + 20, Vec9(3449, 5115, 6494, 1729, 3123, 6326, 5766, 3129, 8424));
    Next(v, k + 21, Vec9(1666, 6494, 1729, 3123, 6326, 5766, 3129, 8424, 3449));
    Next(v, k + 22, Vec9(4828, 1729, 3123, 6326, 5766, 3129, 8424, 3449, 1666));
    Next(v, k + 23, Vec9(6730, 3123, 6326, 5766, 3129, 8424, 3449, 1666, 4828));
    Next(v, k + 24, Vec9(6222, 6326, 5766, 3129, 8424, 3449, 1666, 4828, 6730));
  }

  lemma Segment54(v: Vec9, k: nat)
    requires Iter(v, k) == Vec9(104, 5766, 3129, 8424, 3449, 1666, 4828, 6730, 6222)
    ensures Iter(v, k + 25) == Vec9(7662, 7822, 6965, 3568, 3024, 1341, 6444, 4774, 9149)
  {
    Next(v, k, Vec9(104, 5766, 3129, 8424, 3449, 1666, 4828, 6730, 6222));
    Next(v, k + 1, Vec9(5662, 3129, 8424, 3449, 1666, 4828, 6730, 6222, 104));
    Next(v, k + 2, Vec9(7296, 8424, 3449, 1666, 4828, 6730, 6222, 104, 5662));
    Next(v, k + 3, Vec9(1128, 3449, 1666, 4828, 6730, 6222, 104, 5662, 7296));
    Next(v, k + 4, Vec9(2321, 1666, 4828, 6730, 6222, 104, 5662, 7296, 1128));
    Next(v, k + 5, Vec9(9174, 4828, 6730, 6222, 104, 5662, 7296, 1128, 2321));
    Next(v, k + 6, Vec9(5483, 6730, 6222, 104, 5662, 7296, 1128, 2321, 9174));
    Next(v, k + 7, Vec9(1247, 6222, 104, 5662, 7296, 1128, 2321, 9174, 5483));
    Next(v, k + 8, Vec9(4975, 104, 5662, 7296, 1128, 2321, 9174, 5483, 1247));
    Next(v, k + 9, Vec9(4958, 5662, 7296, 1128, 2321, 9174, 5483, 1247, 4975));
    Next(v, k + 10, Vec9(704, 7296, 1128, 2321, 9174, 5483, 1247, 4975, 4958));
    Next(v, k + 11, Vec9(6592, 1128, 2321, 9174, 5483, 1247, 4975, 4958, 704));
    Next(v, k + 12, Vec9(4365, 2321, 9174, 5483, 1247, 4975, 4958, 704, 6592));
    Next(v, k + 13, Vec9(7785, 9174, 5483, 1247, 4975, 4958, 704, 6592, 4365));
    Next(v, k + 14, Vec9(1389, 5483, 1247, 4975, 4958, 704, 6592, 4365, 7785));
    Next(v, k + 15, Vec9(4094, 1247, 4975, 4958, 704, 6592, 4365, 7785, 1389));
    Next(v, k + 16, Vec9(6982, 4975, 4958, 704, 6592, 4365, 7785, 1389, 4094));
    Next(v, k + 17, Vec9(7822, 4958, 704, 6592, 4365, 7785, 1389, 4094, 6982));
    Next(v, k + 18, Vec9(6965, 704, 6592, 4365, 7785, 1389, 4094, 6982, 7822));
    Next(v, k + 19, Vec9(3568, 6592, 4365, 7785, 1389, 4094, 6982, 7822, 6965));
    Next(v, k + 20, Vec9(3024, 4365, 7785, 1389, 4094, 6982, 7822, 6965, 3568));
    Next(v, k + 21, Vec9(1341, 7785, 1389, 4094, 6982, 7822, 6965, 3568, 3024));
    Next(v, k + 22, Vec9(6444, 1389, 4094, 6982, 7822, 6965, 3568, 3024, 1341));
    Next(v, k + 23, Vec9(4774, 4094, 6982, 7822, 6965, 3568, 3024, 1341, 6444));
    Next(v, k + 24, Vec9(9149, 6982, 7822, 6965, 3568, 3024, 1341, 6444, 4774));
  }

  lemma Segment55(v: Vec9, k: nat)
    requires Iter(v, k) == Vec9(7662, 7822, 6965, 3568, 3024, 1341, 6444, 4774, 9149)
    ensures Iter(v, k + 25) == Vec9(5936, 7363, 4218, 4019, 4378, 3646, 4420, 2252, 2440)
  {
    Next(v, k, Vec9(7662, 7822, 6965, 3568, 3024, 1341, 6444, 4774, 9149));
    Next(v, k + 1, Vec9(160, 6965, 3568, 3024, 1341, 6444, 4774, 9149, 7662));
    Next(v, k + 2, Vec9(6805, 3568, 3024, 1341, 6444, 4774, 9149, 7662, 160));
    Next(v, k + 3, Vec9(6592, 3024, 1341, 6444, 4774, 9149, 7662, 160, 6805));
    Next(v, k + 4, Vec9(6261, 1341, 6444, 4774, 9149, 7662, 160, 6805, 6592));
    Next(v, k + 5, Vec9(4909, 6444, 4774, 9149, 7662, 160, 6805, 6592, 6261));
    Next(v, k + 6, Vec9(1535, 4774, 9149, 7662, 160, 6805, 6592, 6261, 4909));
    Next(v, k + 7, Vec9(3239, 9149, 7662, 160, 6805, 6592, 6261, 4909, 1535));
    Next(v, k + 8, Vec9(5910, 7662, 160, 6805, 6592, 6261, 4909, 1535, 3239));
    Next(v, k + 9, Vec9(1752, 160, 6805, 6592, 6261, 4909, 1535, 3239, 5910));
    Next(v, k + 10, Vec9(8237, 6805, 6592, 6261, 4909, 1535, 3239, 5910, 1752));
    Next(v, k + 11, Vec9(8397, 6592, 6261, 4909, 1535, 3239, 5910, 1752, 8237));
    Next(v, k + 12, Vec9(8024, 6261, 4909, 1535, 3239, 5910, 1752, 8237, 8397));
    Next(v, k + 13, Vec9(8066, 4909, 1535, 3239, 5910, 1752, 8237, 8397, 8024));
    Next(v, k + 14, Vec9(6672, 1535, 3239, 5910, 1752, 8237, 8397, 8024, 8066));
    Next(v, k + 15, Vec9(4692, 3239, 5910, 1752, 8237, 8397, 8024, 8066, 6672));
    Next(v, k + 16, Vec9(8376, 5910, 1752, 8237, 8397, 8024, 8066, 6672, 4692));
    Next(v, k + 17, Vec9(7363, 1752, 8237, 8397, 8024, 8066, 6672, 4692, 8376));
    Next(v, k + 18, Vec9(4218, 8237, 8397, 8024, 8066, 6672, 4692, 8376, 7363));
    Next(v, k + 19, Vec9(4019, 8397, 8024, 8066, 6672, 4692, 8376, 7363, 4218));
    Next(v, k + 20, Vec9(4378, 8024, 8066, 6672, 4692, 8376, 7363, 4218, 4019));
    Next(v, k + 21, Vec9(3646, 8066, 6672, 4692, 8376, 7363, 4218, 4019, 4378));
    Next(v, k + 22, Vec9(4420, 6672, 4692, 8376, 7363, 4218, 4019, 4378, 3646));
    Next(v, k + 23, Vec9(2252, 4692, 8376, 7363, 4218, 4019, 4378, 3646, 4420));
    Next(v, k + 24, Vec9(2440, 8376, 7363, 4218, 4019, 4378, 3646, 4420, 2252));
  }

  lemma Segment56(v: Vec9, k: nat)
    requires Iter(v, k) == Vec9(5936, 7363, 4218, 4019, 4378, 3646, 4420, 2252, 2440)
    ensures Iter(v, k + 25) == Vec9(7968, 4493, 7160, 2272, 916, 6953, 7986, 7058, 1480)
  {
    Next(v, k, Vec9(5936, 7363, 4218, 4019, 4378, 3646, 4420, 2252, 2440));
    Next(v, k + 1, Vec9(1427, 4218, 4019, 4378, 3646, 4420, 2252, 2440, 5936));
    Next(v, k + 2, Vec9(2791, 4019, 4378, 3646, 4420, 2252, 2440, 5936, 1427));
    Next(v, k + 3, Vec9(1228, 4378, 3646, 4420, 2252, 2440, 5936, 1427, 2791));
    Next(v, k + 4, Vec9(3150, 3646, 4420, 2252, 2440, 5936, 1427, 2791, 1228));
    Next(v, k + 5, Vec9(496, 4420, 2252, 2440, 5936, 1427, 2791, 1228, 3150));
    Next(v, k + 6, Vec9(3924, 2252, 2440, 5936, 1427, 2791, 1228, 3150, 496));
    Next(v, k + 7, Vec9(8157, 2440, 5936, 1427, 2791, 1228, 3150, 496, 3924));
    Next(v, k + 8, Vec9(4112, 5936, 1427, 2791, 1228, 3150, 496, 3924, 8157));
    Next(v, k + 9, Vec9(1824, 1427, 2791, 1228, 3150, 496, 3924, 8157, 4112));
    Next(v, k + 10, Vec9(9432, 2791, 1228, 3150, 496, 3924, 8157, 4112, 1824));
    Next(v, k + 11, Vec9(3188, 1228, 3150, 496, 3924, 8157, 4112, 1824, 9432));
    Next(v, k + 12, Vec9(7869, 3150, 496, 3924, 8157, 4112, 1824, 9432, 3188));
    Next(v, k + 13, Vec9(5110, 496, 3924, 8157, 4112, 1824, 9432, 3188, 7869));
    Next(v, k + 14, Vec9(5215, 3924, 8157, 4112, 1824, 9432, 3188, 7869, 5110));
    Next(v, k + 15, Vec9(8538, 8157, 4112, 1824, 9432, 3188, 7869, 5110, 5215));
    Next(v, k + 16, Vec9(9448, 4112, 1824, 9432, 3188, 7869, 5110, 5215, 8538));
    Next(v, k + 17, Vec9(4493, 1824, 9432, 3188, 7869, 5110, 5215, 8538, 9448));
    Next(v, k + 18, Vec9(7160, 9432, 3188, 7869, 5110, 5215, 8538, 9448, 4493));
    Next(v, k + 19, Vec9(2272, 3188, 7869, 5110, 5215, 8538, 9448, 4493, 7160));
    Next(v, k + 20, Vec9(916, 7869, 5110, 5215, 8538, 9448, 4493, 7160, 2272));
    Next(v, k + 21, Vec9(6953, 5110, 5215, 8538, 9448, 4493, 7160, 2272, 916));
    Next(v, k + 22, Vec9(7986, 5215, 8538, 9448, 4493, 7160, 2272, 916, 6953));
    Next(v, k + 23, Vec9(7058, 8538, 9448, 4493, 7160, 2272, 916, 6953, 7986));
    Next(v, k + 24, Vec9(1480, 9448, 4493, 7160, 2272, 916, 6953, 7986, 7058));
  }

  lemma Segment57(v: Vec9, k: nat)
    requires Iter(v, k) == Vec9(7968, 4493, 7160, 2272, 916, 6953, 7986, 7058, 1480)
    ensures Iter(v, k + 25) == Vec9(8740, 6467, 6596, 6353, 1162, 2618, 2881, 8952, 9185)
  {
    Next(v, k, Vec9(7968, 4493, 7160, 2272, 916, 6953, 7986, 7058, 1480));
    Next(v, k + 1, Vec9(6354, 7160, 2272, 916, 6953, 7986, 7058, 1480, 7968));
    Next(v, k + 2, Vec9(806, 2272, 916, 6953, 7986, 7058, 1480, 7968, 6354));
    Next(v, k + 3, Vec9(1466, 916, 6953, 7986, 7058, 1480, 7968, 6354, 806));
    Next(v, k + 4, Vec9(9279, 6953, 7986, 7058, 1480, 7968, 6354, 806, 1466));
    Next(v, k + 5, Vec9(7503, 7986, 7058, 1480, 7968, 6354, 806, 1466, 9279));
    Next(v, k + 6, Vec9(483, 7058, 1480, 7968, 6354, 806, 1466, 9279, 7503));
    Next(v, k + 7, Vec9(6575, 1480, 7968, 6354, 806, 1466, 9279, 7503, 483));
    Next(v, k + 8, Vec9(4734, 7968, 6354, 806, 1466, 9279, 7503, 483, 6575));
    Next(v, k + 9, Vec9(3234, 6354, 806, 1466, 9279, 7503, 483, 6575, 4734));
    Next(v, k + 10, Vec9(3120, 806, 1466, 9279, 7503, 483, 6575, 4734, 3234));
    Next(v, k + 11, Vec9(7515, 1466, 9279, 7503, 483, 6575, 4734, 3234, 3120));
    Next(v, k + 12, Vec9(3780, 9279, 7503, 483, 6575, 4734, 3234, 3120, 7515));
    Next(v, k + 13, Vec9(5499, 7503, 483, 6575, 4734, 3234, 3120, 7515, 3780));
    Next(v, k + 14, Vec9(2004, 483, 6575, 4734, 3234, 3120, 7515, 3780, 5499));
    Next(v, k + 15, Vec9(8308, 6575, 4734, 3234, 3120, 7515, 3780, 5499, 2004));
    Next(v, k + 16, Vec9(8096, 4734, 3234, 3120, 7515, 3780, 5499, 2004, 8308));
    Next(v, k + 17, Vec9(6467, 3234, 3120, 7515, 3780, 5499, 2004, 8308, 8096));
    Next(v, k + 18, Vec9(6596, 3120, 7515, 3780, 5499, 2004, 8308, 8096, 6467));
    Next(v, k + 19, Vec9(6353, 7515, 3780, 5499, 2004, 8308, 8096, 6467, 6596));
    Next(v, k + 20, Vec9(1162, 3780, 5499, 2004, 8308, 8096, 6467, 6596, 6353));
    Next(v, k + 21, Vec9(2618, 5499, 2004, 8308, 8096, 6467, 6596, 6353, 1162));
    Next(v, k + 22, Vec9(2881, 2004, 8308, 8096, 6467, 6596, 6353, 1162, 2618));
    Next(v, k + 23, Vec9(8952, 8308, 8096, 6467, 6596, 6353, 1162, 2618, 2881));
    Next(v, k + 24, Vec9(9185, 8096, 6467, 6596, 6353, 1162, 2618, 2881, 8952));
  }

  lemma Segment58(v: Vec9, k: nat)
    requires Iter(v, k) == Vec9(8740, 6467, 6596, 6353, 1162, 2618, 2881, 8952, 9185)
    ensures Iter(v, k + 25) == Vec9(5018, 6408, 7987, 4832, 1047, 387, 1857, 4668, 2577)
  {
    Next(v, k, Vec9(8740, 6467, 6596, 6353, 1162, 2618, 2881, 8952, 9185));
    Next(v, k + 1, Vec9(7556, 6596, 6353, 1162, 2618, 2881, 8952, 9185, 8740));
    Next(v, k + 2, Vec9(8869, 6353, 1162, 2618, 2881, 8952, 9185, 8740, 7556));
    Next(v, k + 3, Vec9(7313, 1162, 2618, 2881, 8952, 9185, 8740, 7556, 8869));
    Next(v, k + 4, Vec9(3678, 2618, 2881, 8952, 9185, 8740, 7556, 8869, 7313));
    Next(v, k + 5, Vec9(8769, 2881, 8952, 9185, 8740, 7556, 8869, 7313, 3678));
    Next(v, k + 6, Vec9(3941, 8952, 9185, 8740, 7556, 8869, 7313, 3678, 8769));
    Next(v, k + 7, Vec9(5011, 9185, 8740, 7556, 8869, 7313, 3678, 8769, 3941));
    Next(v, k + 8, Vec9(4174, 8740, 7556, 8869, 7313, 3678, 8769, 3941, 5011));
    Next(v, k + 9, Vec9(4566, 7556, 8869, 7313, 3678, 8769, 3941, 5011, 4174));
    Next(v, k + 10, Vec9(2990, 8869, 7313, 3678, 8769, 3941, 5011, 4174, 4566));
    Next(v, k + 11, Vec9(5879, 7313, 3678, 8769, 3941, 5011, 4174, 4566, 2990));
    Next(v, k + 12, Vec9(1434, 3678, 8769, 3941, 5011, 4174, 4566, 2990, 5879));
    Next(v, k + 13, Vec9(2244, 8769, 3941, 5011, 4174, 4566, 2990, 5879, 1434));
    Next(v, k + 14, Vec9(6525, 3941, 5011, 4174, 4566, 2990, 5879, 1434, 2244));
    Next(v, k + 15, Vec9(7245, 5011, 4174, 4566, 2990, 5879, 1434, 2244, 6525));
    Next(v, k + 16, Vec9(7595, 4174, 4566, 2990, 5879, 1434, 2244, 6525, 7245));
    Next(v, k + 17, Vec9(6408, 4566, 2990, 5879, 1434, 2244, 6525, 7245, 7595));
    Next(v, k + 18, Vec9(7987, 2990, 5879, 1434, 2244, 6525, 7245, 7595, 6408));
    Next(v, k + 19, Vec9(4832, 5879, 1434, 2244, 6525, 7245, 7595, 6408, 7987));
    Next(v, k + 20, Vec9(1047, 1434, 2244, 6525, 7245, 7595, 6408, 7987, 4832));
    Next(v, k + 21, Vec9(387, 2244, 6525, 7245, 7595, 6408, 7987, 4832, 1047));
    Next(v, k + 22, Vec9(1857, 6525, 7245, 7595, 6408, 7987, 4832, 1047, 387));
    Next(v, k + 23, Vec9(4668, 7245, 7595, 6408, 7987, 4832, 1047, 387, 1857));
    Next(v, k + 24, Vec9(2577, 7595, 6408, 7987, 4832, 1047, 387, 1857, 4668));
  }

  lemma Stretch0(v: Vec9, k: nat)
    requires Iter(v, k) == Vec9(7756, 7841, 1764, 7783, 4731, 2717, 1132, 1042, 273)
    ensures Iter(v, k + 250) == Vec9(3889, 8622, 8142, 6060, 261, 827, 2025, 2673, 4624)
  {
    Segment00(v, k);
    Segment01(v, k + 25);
    Segment02(v, k + 50);
    Segment03(v, k + 75);
    Segment04(v, k + 100);
    Segment05(v, k + 125);
    Segment06(v, k + 150);
    Segment07(v, k + 175);
    Segment08(v, k + 200);
    Segment09(v, k + 225);
  }

  lemma Stretch1(v: Vec9, k: nat)
    requires Iter(v, k) == Vec9(3889, 8622, 8142, 6060, 261, 827, 2025, 2673, 4624)
    ensures Iter(v, k + 250) == Vec9(7490, 5938, 328, 6494, 9632, 8585, 9173, 4543, 4480)
  {
    Segment10(v, k);
    Segment11(v, k + 25);
    Segment12(v, k + 50);
    Segment13(v, k + 75);
    Segment14(v, k + 100);
    Segment15(v, k + 125);
    Segment16(v, k + 150);
    Segment17(v, k + 175);
    Segment18(v, k + 200);
    Segment19(v, k + 225);
  }

  lemma Stretch2(v: Vec9, k: nat)
    requires Iter(v, k) == Vec9(7490, 5938, 328, 6494, 9632, 8585, 9173, 4543, 4480)
    ensures Iter(v, k + 250) == Vec9(1120, 1566, 7216, 6713, 1561, 3672, 7940, 3242, 3096)
  {
    Segment20(v, k);
    Segment21(v, k + 25);
    Segment22(v, k + 50);
    Segment23(v, k + 75);
    Segment24(v, k + 100);
    Segment25(v, k + 125);
    Segment26(v, k + 150);
    Segment27(v, k + 175);
    Segment28(v, k + 200);
    Segment29(v, k + 225);
  }

  lemma Stretch3(v: Vec9, k: nat)
    requires Iter(v, k) == Vec9(1120, 1566, 7216, 6713, 1561, 3672, 7940, 3242, 3096)
    ensures Iter(v, k + 250) == Vec9(939, 9209, 1245, 691, 7414, 9205, 9091, 5921, 879)
  {
    Segment30(v, k);
    Segment31(v, k + 25);
    Segment32(v, k + 50);
    Segment33(v, k + 75);
    Segment34(v, k + 100);
    Segment35(v, k + 125);
    Segment36(v, k + 150);
    Segment37(v, k + 175);
    Segment38(v, k + 200);
    Segment39(v, k + 225);
  }

  lemma Stretch4(v: Vec9, k: nat)
    requires Iter(v, k) == Vec9(939, 9209, 1245, 691, 7414, 9205, 9091, 5921, 879)
    ensures Iter(v, k + 250) == Vec9(8197, 4342, 6200, 1434, 577, 6898, 5610, 6289, 5058)
  {
    Segment40(v, k);
    Segment41(v, k + 25);
    Segment42(v, k + 50);
    Segment43(v, k + 75);
    Segment44(v, k + 100);
    Segment45(v, k + 125);
    Segment46(v, k + 150);
    Segment47(v, k + 175);
    Segment48(v, k + 200);
    Segment49(v, k + 225);
  }

  lemma Stretch5(v: Vec9, k: nat)
    requires Iter(v, k) == Vec9(8197, 4342, 6200, 1434, 577, 6898, 5610, 6289, 5058)
    ensures Iter(v, k + 225) == Vec9(5018, 6408, 7987, 4832, 1047, 387, 1857, 4668, 2577)
  {
    Segment50(v, k);
    Segment51(v, k + 25);
    Segment52(v, k + 50);
    Segment53(v, k + 75);
    Segment54(v, k + 100);
    Segment55(v, k + 125);
    Segment56(v, k + 150);
    Segment57(v, k + 175);
    Segment58(v, k + 200);
  }

  /** The whole trace, from any starting point of the iteration. */
  lemma Trace(v: Vec9, k: nat, n: nat)
    requires n == 1475
    requires Iter(v, k) == Vec9(7756, 7841, 1764, 7783, 4731, 2717, 1132, 1042, 273)
    ensures Iter(v, k + n) == Vec9(5018, 6408, 7987, 4832, 1047, 387, 1857, 4668, 2577)
  {
    Stretch0(v, k);
    Stretch1(v, k + 250);
    Stretch2(v, k + 500);
    Stretch3(v, k + 750);
    Stretch4(v, k + 1000);
    Stretch5(v, k + 1250);
  }

  /**
    test_div_x: 1475 divisions by x modulo 9829 of
    [7756, 7841, 1764, 7783, 4731, 2717, 1132, 1042, 273]
    give [5018, 6408, 7987, 4832, 1047, 387, 1857, 4668, 2577].
   */
  lemma DivXTestVector(n: nat)
    requires n == 1475
    ensures DivXIter([7756, 7841, 1764, 7783, 4731, 2717, 1132, 1042, 273], 9829, n)
         == [5018, 6408, 7987, 4832, 1047, 387, 1857, 4668, 2577]
  {
    var v := Vec9(7756, 7841, 1764, 7783, 4731, 2717, 1132, 1042, 273);
    Trace(v, 0, n);
    var w := Iter(v, n);
    assert w == Vec9(5018, 6408, 7987, 4832, 1047, 387, 1857, 4668, 2577);
    IterIsDivXIter(v, n);
  }
}
