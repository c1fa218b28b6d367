/** Which tree bin a large chunk size belongs to, and which bit of the size each level of the
    bin's trie looks at. Machine words are modelled as integers with explicit wrap-around. */
module TreeIndex {

  const WORD := 0x1_0000_0000_0000_0000   // 2^64, one more than the largest size_t
  const NTREEBINS := 32
  const MIN_LARGE_SIZE := 256

  function Pow2(n: nat): (r: nat)
    ensures r > 0
  {
    if n == 0 then 1 else 2 * Pow2(n - 1)
  }

  /** 32-bit shift left. */
  function Shl32(y: nat, n: nat): nat
  {
    y * Pow2(n) % 0x1_0000_0000
  }

  /** ((y - c) >> 16) & bit for one bit of a 32-bit word: the bit survives only from a borrow. */
  function Borrow(y: int, c: nat, bit: nat): nat
    requires bit > 0
  {
    (y - c) % 0x1_0000_0000 / 0x1_0000 / bit % 2 * bit
  }

  /** The position of the highest set bit of x, by the shifting steps of the macro. */
  function TopBit(x: nat): (k: int)
  {
    var n1 := Borrow(x, 0x100, 8);
    var y1 := Shl32(x, n1);
    var k1 := Borrow(y1, 0x1000, 4);
    var y2 := Shl32(y1, k1);
    var k2 := Borrow(y2, 0x4000, 2);
    14 - (n1 + k1 + k2) + Shl32(y2, k2) / 0x8000
  }

  /** `compute_tree_index` on the size's upper bits x = S >> 8. */
  function IndexOf(x: nat, s: nat): (i: int)
  {
    if x == 0 then 0
    else if x > 0xFFFF then NTREEBINS - 1
    else
      var k := TopBit(x);
      if k < 0 then 0 else 2 * k + s / Pow2(k + 7) % 2
  }

  function ComputeTreeIndex(s: nat): (i: int)
  {
    IndexOf(s / 256, s)
  }

  /** The form compiled for x86-64 by GCC keeps only 32 bits of S >> 8. */
  function TruncatedTreeIndex(s: nat): (i: int)
  {
    IndexOf(s / 256 % 0x1_0000_0000, s)
  }

  /** `minsize_for_tree_index`: the two parts do not overlap, so the bitwise or is a sum. */
  function MinSize(i: nat): (s: nat)
  {
    Pow2(i / 2 + 8) + i % 2 * Pow2(i / 2 + 7)
  }

  lemma BorrowIsComparison(y: nat, c: nat)
    requires y < 0x1_0000 && c <= 0x4000
    ensures Borrow(y, c, 8) == if y < c then 8 else 0
    ensures Borrow(y, c, 4) == if y < c then 4 else 0
    ensures Borrow(y, c, 2) == if y < c then 2 else 0
  {
    if y < c {
      assert (y - c) % 0x1_0000_0000 == y - c + 0x1_0000_0000;
      assert (y - c + 0x1_0000_0000) / 0x1_0000 == 0xFFFF;
    } else {
      assert (y - c) % 0x1_0000_0000 / 0x1_0000 == 0;
    }
  }

  lemma ShiftFits(y: nat, n: nat, p: nat)
    requires Pow2(n) == p && y * p < 0x1_0000_0000
    ensures Shl32(y, n) == y * p
  {
  }

  /** The normalising steps shift x left until bit 14 or 15 is its highest. */
  lemma FirstStep(x: nat)
    requires 0 < x < 0x1_0000
    ensures var n := Borrow(x, 0x100, 8);
            (n == 0 || n == 8) && Shl32(x, n) == x * (if n == 0 then 1 else 256) && 0x100 <= Shl32(x, n) < 0x1_0000
  {
    hide Borrow, Shl32, Pow2;
    Pow2Table();
    BorrowIsComparison(x, 0x100);
    if x < 0x100 { ShiftFits(x, 8, 256); } else { ShiftFits(x, 0, 1); }
  }

  lemma SecondStep(y: nat)
    requires 0x100 <= y < 0x1_0000
    ensures var n := Borrow(y, 0x1000, 4);
            (n == 0 || n == 4) && Shl32(y, n) == y * (if n == 0 then 1 else 16) && 0x1000 <= Shl32(y, n) < 0x1_0000
  {
    hide Borrow, Shl32, Pow2;
    Pow2Table();
    BorrowIsComparison(y, 0x1000);
    if y < 0x1000 { ShiftFits(y, 4, 16); } else { ShiftFits(y, 0, 1); }
  }

  lemma ThirdStep(y: nat)
    requires 0x1000 <= y < 0x1_0000
    ensures var n := Borrow(y, 0x4000, 2);
            (n == 0 || n == 2) && Shl32(y, n) == y * (if n == 0 then 1 else 4) && 0x4000 <= Shl32(y, n) < 0x1_0000
  {
    hide Borrow, Shl32, Pow2;
    Pow2Table();
    BorrowIsComparison(y, 0x4000);
    if y < 0x4000 { ShiftFits(y, 2, 4); } else { ShiftFits(y, 0, 1); }
  }

  lemma Pow2Table()
    ensures Pow2(0) == 1 && Pow2(1) == 2 && Pow2(2) == 4 && Pow2(3) == 8 && Pow2(4) == 0x10 && Pow2(5) == 0x20
    ensures Pow2(6) == 0x40 && Pow2(7) == 0x80 && Pow2(8) == 0x100 && Pow2(9) == 0x200 && Pow2(10) == 0x400
    ensures Pow2(11) == 0x800 && Pow2(12) == 0x1000 && Pow2(13) == 0x2000 && Pow2(14) == 0x4000
    ensures Pow2(15) == 0x8000 && Pow2(16) == 0x1_0000
  {
  }

  /** The shifting steps find the highest set bit. */
  lemma TopBitIsLog(x: nat)
    requires 0 < x < 0x1_0000
    ensures 0 <= TopBit(x) < 16 && Pow2(TopBit(x)) <= x < Pow2(TopBit(x) + 1)
  {
    hide Borrow, Shl32, Pow2;
    var n1 := Borrow(x, 0x100, 8);
    FirstStep(x);
    var y1 := Shl32(x, n1);
    var k1 := Borrow(y1, 0x1000, 4);
    SecondStep(y1);
    var y2 := Shl32(y1, k1);
    var k2 := Borrow(y2, 0x4000, 2);
    ThirdStep(y2);
    var y3 := Shl32(y2, k2);
    var top := if y3 < 0x8000 then 0 else 1;
    assert y3 / 0x8000 == top;
    assert TopBit(x) == 14 - (n1 + k1 + k2) + top;
    hide TopBit;
    Pow2Table();
  }

  lemma {:induction false} Pow2Sum(a: nat, b: nat)
    ensures Pow2(a + b) == Pow2(a) * Pow2(b)
  {
    if a > 0 { Pow2Sum(a - 1, b); }
  }

  /** A quotient pinned down by its bounds. */
  lemma QuotientIs(s: nat, d: nat, q: nat)
    requires d > 0 && q * d <= s < (q + 1) * d
    ensures s / d == q
  {
    var r := s / d;
    assert s == r * d + s % d;
    MulMono(r + 1, q, d);
    MulMono(q + 1, r, d);
  }

  lemma MulMono(a: nat, b: nat, d: nat)
    ensures a <= b ==> a * d <= b * d
  {
  }

  /** A large size lies in the range of its bin: at least the bin's minimum and, except in the last
      bin, below the next bin's minimum. */
  lemma IndexInRange(s: nat)
    requires s >= MIN_LARGE_SIZE
    ensures var i := ComputeTreeIndex(s);
            0 <= i < NTREEBINS && MinSize(i) <= s && (i < NTREEBINS - 1 ==> s < MinSize(i + 1))
  {
    hide TopBit, Pow2, MinSize;
    var x := s / 256;
    if x > 0xFFFF {
      LastBin(s);
    } else {
      TopBitIsLog(x);
      BinBounds(s, TopBit(x));
      hide *;
    }
  }

  lemma LastBin(s: nat)
    requires s >= 0x100_0000
    ensures MinSize(31) <= s
  {
    Pow2Table();
    Pow2Sum(8, 15);
    Pow2Sum(8, 14);
    hide Pow2;
  }

  /** Sizes whose highest bit is k + 8 fill two bins, told apart by bit k + 7. */
  lemma BinBounds(s: nat, k: nat)
    requires Pow2(k) <= s / 256 < Pow2(k + 1)
    ensures var i := 2 * k + s / Pow2(k + 7) % 2;
            MinSize(i) <= s < MinSize(i + 1)
  {
    hide MinSize;
    var d := Pow2(k + 7);
    Pow2Sum(k, 8);
    Pow2Sum(k + 1, 8);
    assert Pow2(8) == 256;
    assert Pow2(k + 8) == 2 * d && Pow2(k + 9) == 4 * d;
    hide Pow2;
    MinSizes(k);
    if s < 3 * d { QuotientIs(s, d, 2); } else { QuotientIs(s, d, 3); }
  }

  lemma MinSizes(k: nat)
    ensures MinSize(2 * k) == Pow2(k + 8) && MinSize(2 * k + 1) == Pow2(k + 8) + Pow2(k + 7)
    ensures MinSize(2 * k + 2) == Pow2(k + 9)
  {
    hide Pow2;
    assert (2 * k + 1) / 2 == k && (2 * k + 2) / 2 == k + 1;
  }

  /** Bin minimums increase. */
  lemma {:induction false} MinSizeMonotone(i: nat, j: nat)
    requires i <= j
    ensures MinSize(i) <= MinSize(j)
    decreases j - i
  {
    if i < j {
      MinSizeMonotone(i + 1, j);
      assert Pow2(i / 2 + 8) == 2 * Pow2(i / 2 + 7) && Pow2(i / 2 + 9) == 2 * Pow2(i / 2 + 8);
      hide Pow2;
      if i % 2 == 0 {
        assert (i + 1) / 2 == i / 2;
      } else {
        assert (i + 1) / 2 == i / 2 + 1;
      }
    }
  }

  /** Sizes in different bins are ordered like the bins. */
  lemma IndexMonotone(a: nat, b: nat)
    requires MIN_LARGE_SIZE <= a <= b
    ensures ComputeTreeIndex(a) <= ComputeTreeIndex(b)
  {
    hide ComputeTreeIndex, MinSize;
    IndexInRange(a);
    IndexInRange(b);
    if ComputeTreeIndex(b) < ComputeTreeIndex(a) {
      MinSizeMonotone(ComputeTreeIndex(b) + 1, ComputeTreeIndex(a));
    }
  }

  /** The 32-bit truncation in the x86-64 form puts a size into the right bin exactly when the size
      is below 2^40 or its bits 8 to 39 happen to be large enough for the last bin. */
  lemma TruncationHarmlessIff(s: nat)
    requires MIN_LARGE_SIZE <= s < WORD
    ensures TruncatedTreeIndex(s) == ComputeTreeIndex(s)
       <==> s < 0x100_0000_0000 || s / 256 % 0x1_0000_0000 >= 0xC000
  {
    var x := s / 256 % 0x1_0000_0000;
    if s < 0x100_0000_0000 {
      assert x == s / 256;
    } else if x == 0 {
    } else if x <= 0xFFFF {
      assert ComputeTreeIndex(s) == 31;
      TopBitIsLog(x);
      Pow2Table();
      var k := TopBit(x);
      hide TopBit;
      if x >= 0x8000 {
        assert k == 15 by { if k < 15 { Pow2Mono(k + 1, 15); } }
        BitFourteen(s, x);
      } else {
        assert k < 15;
      }
    }
  }

  lemma {:induction false} Pow2Mono(a: nat, b: nat)
    requires a <= b
    ensures Pow2(a) <= Pow2(b)
    decreases b - a
  {
    if a < b { Pow2Mono(a + 1, b); }
  }

  /** Bit 22 of the size is bit 14 of its truncated upper part. */
  lemma BitFourteen(s: nat, x: nat)
    requires x == s / 256 % 0x1_0000_0000 && 0x8000 <= x <= 0xFFFF
    ensures s / Pow2(22) % 2 == if x >= 0xC000 then 1 else 0
  {
    Pow2Table();
    Pow2Sum(8, 14);
    assert Pow2(22) == 0x40_0000;
    hide Pow2;
    var q := s / 256 / 0x1_0000_0000;
    var c := if x >= 0xC000 then 3 else 2;
    assert s / 256 == q * 0x1_0000_0000 + x;
    QuotientIs(s, 0x40_0000, q * 0x4_0000 + c);
    assert (q * 0x4_0000 + c) % 2 == c % 2;
  }

  /** One such size: a chunk of 2^40 bytes is put into the bin for the smallest large chunks. */
  lemma TruncationMisplaces()
    ensures TruncatedTreeIndex(0x100_0000_0000) == 0 && ComputeTreeIndex(0x100_0000_0000) == 31
  {
    hide TopBit;
    assert 0x100_0000_0000 / 256 == 0x1_0000_0000;
  }

  // ----- The size bits that steer the descent

  /** What is left of a size when its trie has h undecided bits: the offset into the subtree's
      range, shifted to the top of the word. */
  function SizeBits(off: nat, h: nat): nat
    requires h <= 64
  {
    off * Pow2(64 - h)
  }

  lemma Pow2Words()
    ensures Pow2(63) == WORD / 2 && Pow2(64) == WORD
  {
    Pow2Table();
    Pow2Sum(16, 16);
    Pow2Sum(16, 15);
    Pow2Sum(32, 31);
  }

  /** One level of descent: the word's top bit tells the half of the range, and shifting the word
      left by one leaves the offset within that half. */
  lemma DescendBits(off: nat, h: nat)
    requires 0 < h <= 64 && off < Pow2(h)
    ensures var half := Pow2(h - 1); var top := SizeBits(off, h) / (WORD / 2);
            && top == (if off < half then 0 else 1)
            && SizeBits(off, h) * 2 % WORD == SizeBits(if off < half then off else off - half, h - 1)
  {
    var half, unit := Pow2(h - 1), Pow2(64 - h);
    Pow2Sum(h - 1, 64 - h);
    Pow2Words();
    assert half * unit == WORD / 2;
    assert Pow2(64 - (h - 1)) == 2 * unit && Pow2(h) == 2 * half;
    hide Pow2;
    HalfWord(off, half, unit);
  }

  lemma HalfWord(off: nat, half: nat, unit: nat)
    requires half * unit == WORD / 2 && off < 2 * half
    ensures off < half ==> off * unit < WORD / 2 && off * unit * 2 == off * (2 * unit)
    ensures off >= half ==>
      WORD / 2 <= off * unit < WORD && off * unit * 2 - WORD == (off - half) * (2 * unit) >= 0
  {
    if off < half {
      MulMono(off + 1, half, unit);
      assert (off + 1) * unit == off * unit + unit;
      assert unit > 0;
    } else {
      MulMono(half, off, unit);
      MulMono(off + 1, 2 * half, unit);
      assert (off + 1) * unit == off * unit + unit;
      assert unit > 0;
    }
  }
}
