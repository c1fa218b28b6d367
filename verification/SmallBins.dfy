/** The small bins: one list of chunks for each size, newest first, and the map of non-empty ones. */
module SmallBins {
  import opened BinTrie
  import BinMap

  const NSMALLBINS := 32

  datatype Bins = Bins(lists: seq<seq<Addr>>, smallmap: bv32)

  predicate IsSmall(s: nat)
  {
    s / 8 < NSMALLBINS
  }

  predicate Valid(b: Bins)
  {
    && |b.lists| == NSMALLBINS
    && forall i :: 0 <= i < NSMALLBINS ==> (BinMap.Marked(b.smallmap, i) <==> b.lists[i] != [])
  }

  /** All chunks in the lists from i on: list i holds chunks of 8 * i bytes. */
  function ChunksFrom(ls: seq<seq<Addr>>, i: nat): multiset<Chunk>
    requires i <= |ls|
    decreases |ls| - i
  {
    if i == |ls| then multiset{} else multiset(Ring(8 * i, ls[i])) + ChunksFrom(ls, i + 1)
  }

  function Chunks(b: Bins): multiset<Chunk>
  {
    ChunksFrom(b.lists, 0)
  }

  /** `insert_small_chunk`. */
  function InsertSmall(b: Bins, a: Addr, s: nat): Bins
    requires |b.lists| == NSMALLBINS && IsSmall(s)
  {
    var i := s / 8;
    if BinMap.Marked(b.smallmap, i) then b.(lists := b.lists[i := [a] + b.lists[i]])
    else Bins(b.lists[i := [a]], BinMap.Mark(b.smallmap, i))
  }

  /** `unlink_small_chunk`, and `unlink_first_small_chunk` for the first of a list. */
  function UnlinkSmall(b: Bins, a: Addr, s: nat): Bins
    requires |b.lists| == NSMALLBINS && IsSmall(s) && a in b.lists[s / 8]
  {
    var i := s / 8;
    var k := IndexIn(b.lists[i], a);
    var rest := b.lists[i][..k] + b.lists[i][k + 1..];
    Bins(b.lists[i := rest], if rest == [] then BinMap.Clear(b.smallmap, i) else b.smallmap)
  }

  /** Replacing one list. */
  lemma ReplaceList(b: Bins, i: nat, l: seq<Addr>, m: bv32)
    requires Valid(b) && i < NSMALLBINS
    requires m == if (b.lists[i] == []) == (l == []) then b.smallmap
                  else if l == [] then BinMap.Clear(b.smallmap, i) else BinMap.Mark(b.smallmap, i)
    ensures Valid(Bins(b.lists[i := l], m))
  {
    hide BinMap.Mark, BinMap.Clear, BinMap.Marked;
    forall j: nat | j < NSMALLBINS
      ensures BinMap.Marked(m, j) <==> if j == i then l != [] else BinMap.Marked(b.smallmap, j)
    {
      BinMap.MarkClear(b.smallmap, i, j);
    }
  }

  lemma {:induction false} ListsAfter(ls: seq<seq<Addr>>, i: nat, l: seq<Addr>, from: nat)
    requires i < from <= |ls|
    ensures ChunksFrom(ls[i := l], from) == ChunksFrom(ls, from)
    decreases |ls| - from
  {
    if from < |ls| { ListsAfter(ls, i, l, from + 1); }
    hide Ring;
  }

  lemma {:induction false} ReplaceChunks(ls: seq<seq<Addr>>, i: nat, l: seq<Addr>, from: nat, x: multiset<Chunk>)
    requires from <= i < |ls|
    ensures multiset(Ring(8 * i, l)) == multiset(Ring(8 * i, ls[i])) + x ==>
      ChunksFrom(ls[i := l], from) == ChunksFrom(ls, from) + x
    ensures multiset(Ring(8 * i, ls[i])) == multiset(Ring(8 * i, l)) + x ==>
      ChunksFrom(ls, from) == ChunksFrom(ls[i := l], from) + x
    decreases |ls| - from
  {
    hide Ring;
    if from < i {
      ReplaceChunks(ls, i, l, from + 1, x);
    } else {
      ListsAfter(ls, i, l, from + 1);
    }
  }

  /** Insertion keeps the bins in order and adds exactly the chunk. */
  lemma InsertSmallOk(b: Bins, a: Addr, s: nat)
    requires Valid(b) && IsSmall(s) && s % 8 == 0
    ensures Valid(InsertSmall(b, a, s)) && Chunks(InsertSmall(b, a, s)) == Chunks(b) + multiset{Chunk(a, s)}
  {
    hide Ring, ChunksFrom, BinMap.Marked, BinMap.Mark;
    var i, b' := s / 8, InsertSmall(b, a, s);
    var l := [a] + b.lists[i];
    assert b'.lists == b.lists[i := l] by { if b.lists[i] == [] { assert l == [a]; } }
    ReplaceList(b, i, l, b'.smallmap);
    RingConcat(s, [a], b.lists[i]);
    RingOne(s, a);
    ReplaceChunks(b.lists, i, l, 0, multiset{Chunk(a, s)});
  }

  /** Removal keeps the bins in order and takes away exactly the chunk. */
  lemma UnlinkSmallOk(b: Bins, a: Addr, s: nat)
    requires Valid(b) && IsSmall(s) && s % 8 == 0 && a in b.lists[s / 8]
    ensures Valid(UnlinkSmall(b, a, s)) && Chunks(UnlinkSmall(b, a, s)) + multiset{Chunk(a, s)} == Chunks(b)
  {
    hide Ring, ChunksFrom, BinMap.Marked, BinMap.Clear;
    var i, b' := s / 8, UnlinkSmall(b, a, s);
    var l := b.lists[i];
    var k := IndexIn(l, a);
    ReplaceList(b, i, l[..k] + l[k + 1..], b'.smallmap);
    RemoveAtBag(s, l, k);
    ReplaceChunks(b.lists, i, l[..k] + l[k + 1..], 0, multiset{Chunk(a, s)});
  }

  /** A chunk of the small bins is in the list of its size. */
  lemma {:induction false} InList(ls: seq<seq<Addr>>, from: nat, c: Chunk)
    requires from <= |ls|
    ensures c in ChunksFrom(ls, from) <==>
      c.size % 8 == 0 && from <= c.size / 8 < |ls| && c.addr in ls[c.size / 8]
    decreases |ls| - from
  {
    hide Ring;
    if from < |ls| {
      InList(ls, from + 1, c);
      RingMember(8 * from, ls[from], c.addr);
    }
  }

  // ----- Scanning the map

  /** `smallmap >> idx`. */
  function SmallBits(b: Bins, idx: nat): bv32
  {
    BinMap.ShiftRight(b.smallmap, idx)
  }

  /** The mask 3 tests list idx and the next one. */
  lemma LowTwo(b: Bins, idx: nat)
    requires Valid(b) && idx + 1 < NSMALLBINS
    ensures BinMap.Meets(SmallBits(b, idx), 1) <==> b.lists[idx] != []
    ensures BinMap.Meets(SmallBits(b, idx), 3) <==> b.lists[idx] != [] || b.lists[idx + 1] != []
  {
    BinMap.ShiftedRight(b.smallmap, idx, 0);
    BinMap.ShiftedRight(b.smallmap, idx, 1);
    BinMap.LowBits(SmallBits(b, idx));
    hide BinMap.Meets, BinMap.ShiftRight;
    assert BinMap.Bit(1) == BinMap.Double(1) == 2;
  }

  /** `(smallbits << idx) & left_bits(idx2bit(idx))`. */
  function LeftLists(b: Bins, idx: nat): bv32
  {
    BinMap.Above(BinMap.ShiftLeft(SmallBits(b, idx), idx), idx)
  }

  lemma LeftListsMarks(b: Bins, idx: nat, j: nat)
    requires Valid(b) && idx < NSMALLBINS && j < NSMALLBINS
    ensures BinMap.Marked(LeftLists(b, idx), j) <==> idx < j && b.lists[j] != []
  {
    hide BinMap.Marked, BinMap.Above, BinMap.ShiftLeft, BinMap.ShiftRight;
    BinMap.AboveMarks(BinMap.ShiftLeft(SmallBits(b, idx), idx), idx, j);
    if idx < j { BinMap.ShiftBack(b.smallmap, idx, j); }
  }

  /** Nothing marked from idx on: all those lists are empty. Otherwise, past the two lists already
      looked at, the lowest bit finds the next list that is not. */
  lemma NextList(b: Bins, idx: nat)
    requires Valid(b) && idx + 1 < NSMALLBINS && b.lists[idx] == []
    ensures SmallBits(b, idx) == 0 ==> forall j :: idx <= j < NSMALLBINS ==> b.lists[j] == []
    ensures SmallBits(b, idx) != 0 ==>
      var i := BinMap.Lowest(LeftLists(b, idx));
      idx < i < NSMALLBINS && b.lists[i] != []
  {
    hide BinMap.Marked, BinMap.ShiftRight, BinMap.Lowest, LeftLists;
    var w := SmallBits(b, idx);
    if w == 0 {
      forall j: nat | idx <= j < NSMALLBINS ensures b.lists[j] == [] {
        BinMap.NoMarks(j - idx);
        BinMap.ShiftedRight(b.smallmap, idx, j - idx);
      }
    } else {
      BinMap.LowestIsLowest(w, 0);
      var k := BinMap.Lowest(w);
      BinMap.ShiftedRight(b.smallmap, idx, k);
      BinMap.MarksInWord(b.smallmap, idx + k);
      LeftListsMarks(b, idx, idx + k);
      var m := LeftLists(b, idx);
      if m == 0 { BinMap.NoMarks(idx + k); }
      BinMap.LowestIsLowest(m, 0);
      LeftListsMarks(b, idx, BinMap.Lowest(m));
    }
  }
}
