/** The 32-bit maps of non-empty bins and the bit tricks that scan them. */
module BinMap {

  // ----- Words

  function Double(x: bv32): bv32 { x << 1 }

  function Half(x: bv32): bv32 { x >> 1 }

  function Negate(x: bv32): bv32 { 0 - x }

  function Both(x: bv32, y: bv32): bv32 { x & y }

  function With(x: bv32, y: bv32): bv32 { x | y }

  function Without(x: bv32, y: bv32): bv32 { x & !y }

  predicate Meets(x: bv32, y: bv32) { x & y != 0 }

  predicate OneBit(b: bv32) { b != 0 && b & (b - 1) == 0 }

  // ----- Macros

  /** `idx2bit`. */
  function Bit(i: nat): bv32
  {
    if i == 0 then 1 else Double(Bit(i - 1))
  }

  /** `smallmap_is_marked` and `treemap_is_marked`. */
  predicate Marked(m: bv32, i: nat)
  {
    Meets(m, Bit(i))
  }

  function Mark(m: bv32, i: nat): bv32
  {
    With(m, Bit(i))
  }

  function Clear(m: bv32, i: nat): bv32
  {
    Without(m, Bit(i))
  }

  /** `least_bit`: isolates the lowest set bit. */
  function LeastBit(x: bv32): bv32
  {
    Both(x, Negate(x))
  }

  /** `left_bits`: all bits to the left of the lowest set bit. */
  function LeftBits(x: bv32): bv32
  {
    With(Double(x), Negate(Double(x)))
  }

  /** `compute_bit2idx`: the number of zeros below the lowest set bit. */
  function BitToIndex(x: bv32): nat
    decreases x
  {
    if x == 0 || x & 1 != 0 then 0 else 1 + BitToIndex(Half(x))
  }

  /** `left_bits(idx2bit(i)) & m`: what is marked above i. */
  function Above(m: bv32, i: nat): bv32
  {
    Both(LeftBits(Bit(i)), m)
  }

  /** The lowest mark of a non-zero map, found by isolating and counting. */
  function Lowest(m: bv32): nat
  {
    BitToIndex(LeastBit(m))
  }

  function ShiftRight(m: bv32, i: nat): bv32
  {
    if i == 0 then m else ShiftRight(Half(m), i - 1)
  }

  function ShiftLeft(m: bv32, i: nat): bv32
    decreases i
  {
    if i == 0 then m else ShiftLeft(Double(m), i - 1)
  }

  // ----- Facts about single words

  lemma BitsApart(b: bv32, c: bv32)
    requires OneBit(b) && OneBit(c) && b != c
    ensures b & c == 0
  {
  }

  lemma LeftOfRaw(b: bv32, c: bv32)
    requires OneBit(b) && OneBit(c)
    ensures ((b << 1) | (0 - (b << 1))) & c != 0 <==> b < c
  {
  }

  lemma LeftOf(b: bv32, c: bv32)
    requires OneBit(b) && OneBit(c)
    ensures Meets(LeftBits(b), c) <==> b < c
  {
    LeftOfRaw(b, c);
  }

  lemma LeastRaw(x: bv32, c: bv32)
    requires x != 0
    requires c & (c - 1) == 0 && x & c != 0
    ensures x & (0 - x) <= c
  {
  }

  lemma LeastIsLeast(x: bv32, c: bv32)
    requires x != 0 && OneBit(c) && Meets(x, c)
    ensures LeastBit(x) <= c
  {
    LeastRaw(x, c);
  }

  lemma LeastIsBit(x: bv32)
    requires x != 0
    ensures OneBit(LeastBit(x)) && Meets(x, LeastBit(x))
  {
    assert var l := x & (0 - x); l != 0 && l & (l - 1) == 0 && x & l != 0;
  }

  lemma ShiftOneBit(b: bv32)
    requires OneBit(b) && b < 0x8000_0000
    ensures OneBit(Double(b)) && b < Double(b)
  {
  }

  lemma ApartRaw(m: bv32, b: bv32, c: bv32)
    requires b & c == 0
    ensures (m | b) & c == m & c && m & !b & c == m & c
  {
  }

  lemma ApartMarks(m: bv32, b: bv32, c: bv32)
    requires b & c == 0
    ensures (Meets(With(m, b), c) <==> Meets(m, c)) && (Meets(Without(m, b), c) <==> Meets(m, c))
  {
    ApartRaw(m, b, c);
  }

  lemma OwnMark(m: bv32, b: bv32)
    requires b != 0
    ensures Meets(With(m, b), b) && !Meets(Without(m, b), b)
  {
  }

  lemma AllOrNothing(x: bv32, c: bv32)
    requires c & (c - 1) == 0
    ensures x & c == 0 || x & c == c
  {
  }

  lemma MaskRaw(x: bv32, m: bv32, c: bv32)
    requires x & c == 0 || x & c == c
    ensures x & m & c == if x & c == 0 then 0 else m & c
  {
  }

  lemma MaskOneBit(x: bv32, m: bv32, c: bv32)
    requires OneBit(c)
    ensures Meets(Both(x, m), c) <==> Meets(x, c) && Meets(m, c)
  {
    AllOrNothing(x, c);
    MaskRaw(x, m, c);
  }

  lemma MovedDownRaw(m: bv32, b: bv32)
    ensures (m >> 1) & b != 0 <==> m & (b << 1) != 0
  {
  }

  lemma MovedDown(m: bv32, b: bv32)
    ensures Meets(Half(m), b) <==> Meets(m, Double(b))
  {
    MovedDownRaw(m, b);
  }

  lemma MovedUpRaw(m: bv32, b: bv32)
    requires b < 0x8000_0000
    ensures (m << 1) & (b << 1) != 0 <==> m & b != 0
  {
  }

  lemma MovedUp(m: bv32, b: bv32)
    requires b < 0x8000_0000
    ensures Meets(Double(m), Double(b)) <==> Meets(m, b)
  {
    MovedUpRaw(m, b);
  }

  lemma DoubleFour(b: bv32)
    ensures Double(Double(Double(Double(b)))) == b << 4
  {
  }

  // ----- Bits and their indices

  lemma FourUp(i: nat)
    ensures Bit(i + 4) == Bit(i) << 4
  {
    DoubleFour(Bit(i));
    assert Bit(i + 1) == Double(Bit(i)) && Bit(i + 2) == Double(Bit(i + 1));
    assert Bit(i + 3) == Double(Bit(i + 2)) && Bit(i + 4) == Double(Bit(i + 3));
    hide Double;
  }

  /** The last bit and the shift that leaves the word. */
  lemma TopBits()
    ensures Bit(31) == 0x8000_0000 && Bit(32) == 0
  {
    FourUp(0);
    FourUp(4);
    FourUp(8);
    FourUp(12);
    FourUp(16);
    FourUp(20);
    FourUp(24);
    assert Bit(29) == 0x2000_0000;
    assert Bit(30) == 0x4000_0000;
    assert Bit(31) == 0x8000_0000;
  }

  lemma {:induction false} ZeroStays(i: nat, j: nat)
    requires i <= j && Bit(i) == 0
    ensures Bit(j) == 0
  {
    if i < j { ZeroStays(i, j - 1); }
  }

  lemma {:induction false} BitShape(i: nat)
    requires i < 32
    ensures OneBit(Bit(i))
    ensures i > 0 ==> Bit(i - 1) < 0x8000_0000 && Bit(i - 1) < Bit(i)
  {
    if i > 0 {
      BitShape(i - 1);
      if Bit(i - 1) < 0x8000_0000 {
        ShiftOneBit(Bit(i - 1));
      } else {
        assert Bit(i) == 0;
        ZeroStays(i, 31);
        TopBits();
      }
    }
  }

  lemma {:induction false} BitsInOrder(i: nat, j: nat)
    requires i < j < 32
    ensures Bit(i) < Bit(j)
  {
    BitShape(j);
    if i < j - 1 { BitsInOrder(i, j - 1); }
  }

  lemma SameOrder(i: nat, j: nat)
    requires i < 32 && j < 32
    ensures Bit(i) < Bit(j) <==> i < j
  {
    if i < j { BitsInOrder(i, j); }
    if j < i { BitsInOrder(j, i); }
    hide Bit;
  }

  /** The index found is the index of the bit. */
  lemma {:induction false} IndexOfBit(b: bv32)
    requires OneBit(b)
    ensures BitToIndex(b) < 32 && Bit(BitToIndex(b)) == b
    decreases b
  {
    if b & 1 != 0 {
      assert b == 1;
    } else {
      assert OneBit(Half(b)) && Double(Half(b)) == b;
      IndexOfBit(Half(b));
    }
    if BitToIndex(b) >= 32 {
      TopBits();
      ZeroStays(32, BitToIndex(b));
    }
  }

  // ----- Maps as sets of bins

  /** Marking and clearing change one mark. */
  lemma MarkClear(m: bv32, i: nat, j: nat)
    requires i < 32 && j < 32
    ensures Marked(Mark(m, i), j) <==> j == i || Marked(m, j)
    ensures Marked(Clear(m, i), j) <==> j != i && Marked(m, j)
  {
    BitShape(i);
    if i != j {
      BitShape(j);
      SameOrder(i, j);
      SameOrder(j, i);
      BitsApart(Bit(i), Bit(j));
      ApartMarks(m, Bit(i), Bit(j));
    } else {
      OwnMark(m, Bit(i));
    }
    hide Bit, Meets, OneBit, With, Without;
  }

  lemma NoMarks(j: nat)
    ensures !Marked(0, j)
  {
  }

  /** `left_bits` keeps exactly the marks above. */
  lemma AboveMarks(m: bv32, i: nat, j: nat)
    requires i < 32 && j < 32
    ensures Marked(Above(m, i), j) <==> i < j && Marked(m, j)
  {
    BitShape(i);
    BitShape(j);
    SameOrder(i, j);
    LeftOf(Bit(i), Bit(j));
    MaskOneBit(LeftBits(Bit(i)), m, Bit(j));
    hide Bit, LeftBits, Meets, OneBit, Both;
  }

  /** `least_bit` and `compute_bit2idx` find the lowest mark. */
  lemma LowestIsLowest(m: bv32, j: nat)
    requires m != 0 && j < 32
    ensures Lowest(m) < 32 && Marked(m, Lowest(m)) && (Marked(m, j) ==> Lowest(m) <= j)
  {
    BitShape(j);
    if Marked(m, j) { LeastIsLeast(m, Bit(j)); }
    LeastIsBit(m);
    IndexOfBit(LeastBit(m));
    SameOrder(j, Lowest(m));
    hide Bit, LeastBit, BitToIndex, Meets, OneBit;
  }

  /** A shifted map marks i + j at j. */
  lemma {:induction false} ShiftedRight(m: bv32, i: nat, j: nat)
    ensures Marked(ShiftRight(m, i), j) <==> Marked(m, i + j)
  {
    if i > 0 {
      ShiftedRight(Half(m), i - 1, j);
      MovedDown(m, Bit(i + j - 1));
      hide Meets, Double, Half;
    }
  }

  lemma {:induction false} ShiftedLeft(m: bv32, i: nat, j: nat)
    requires i <= j < 32
    ensures Marked(ShiftLeft(m, i), j) <==> Marked(m, j - i)
    decreases i
  {
    if i > 0 {
      ShiftedLeft(Double(m), i - 1, j);
      BitShape(j - i + 1);
      MovedUp(m, Bit(j - i));
      hide Meets, Double, Half;
    }
  }

  /** Shifting right and left again loses only marks below i. */
  lemma ShiftBack(m: bv32, i: nat, j: nat)
    requires i <= j < 32
    ensures Marked(ShiftLeft(ShiftRight(m, i), i), j) <==> Marked(m, j)
  {
    ShiftedLeft(ShiftRight(m, i), i, j);
    ShiftedRight(m, i, j - i);
    hide Marked, ShiftLeft, ShiftRight;
  }

  lemma LowBits(x: bv32)
    ensures Meets(x, 3) <==> Meets(x, 1) || Meets(x, 2)
  {
    assert x & 3 != 0 <==> x & 1 != 0 || x & 2 != 0;
  }

  /** A map has no marks outside the word. */
  lemma MarksInWord(m: bv32, j: nat)
    requires Marked(m, j)
    ensures j < 32
  {
    if j >= 32 {
      TopBits();
      ZeroStays(32, j);
    }
  }
}
