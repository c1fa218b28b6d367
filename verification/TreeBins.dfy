/** The tree bins of a malloc state and the best-fit search through them. */
module TreeBins {
  import opened Wrappers
  import opened TreeIndex
  import opened BinTrie
  import BinMap

  /** The bins and the bitmap of non-empty ones. */
  datatype Bins = Bins(trees: seq<Trie>, treemap: bv32)

  /** The sizes that bin i holds: up to the next bin's minimum, or everything above. */
  predicate InBin(s: nat, i: nat)
  {
    MinSize(i) <= s < if i < NTREEBINS - 1 then MinSize(i + 1) else WORD
  }

  /** The number of size bits left undecided at the head of bin i. */
  function Height(i: nat): nat
  {
    if i < NTREEBINS - 1 then i / 2 + 7 else 64
  }

  /** The range of the last bin's trie is all of size_t, since its size bits are not shifted. */
  function Low(i: nat): nat
  {
    if i < NTREEBINS - 1 then MinSize(i) else 0
  }

  /** `leftshift_for_tree_index`. */
  function LeftShift(i: nat): nat
    requires i < NTREEBINS
  {
    if i == NTREEBINS - 1 then 0 else 63 - (i / 2 + 8 - 2)
  }

  /** S << leftshift_for_tree_index(I). */
  function HeadBits(s: nat, i: nat): nat
    requires i < NTREEBINS
  {
    s * Pow2(LeftShift(i)) % WORD
  }

  predicate BinOk(t: Trie, i: nat)
  {
    Ok(t, Low(i), Height(i)) && forall c :: c in Bag(t) ==> InBin(c.size, i)
  }

  predicate Valid(b: Bins)
  {
    && |b.trees| == NTREEBINS
    && (forall i :: 0 <= i < NTREEBINS ==> BinOk(b.trees[i], i))
    && (forall i :: 0 <= i < NTREEBINS ==> (BinMap.Marked(b.treemap, i) <==> b.trees[i].Node?))
  }

  /** All binned chunks. */
  function Chunks(ts: seq<Trie>): multiset<Chunk>
  {
    if ts == [] then multiset{} else Bag(ts[0]) + Chunks(ts[1..])
  }

  // ----- Sizes, bins and size bits

  /** A bin's sizes are exactly those `compute_tree_index` sends to it. */
  lemma BinOfSize(s: nat, i: nat)
    requires MIN_LARGE_SIZE <= s < WORD && i < NTREEBINS
    ensures InBin(s, i) <==> ComputeTreeIndex(s) == i
  {
    IndexInRange(s);
    var j := ComputeTreeIndex(s);
    hide ComputeTreeIndex, MinSize;
    if j < i {
      MinSizeMonotone(j + 1, i);
    } else if i < j {
      MinSizeMonotone(i + 1, j);
    }
  }

  /** A bin's sizes lie in its trie's range. */
  lemma BinInRange(s: nat, i: nat)
    requires i < NTREEBINS && InBin(s, i)
    ensures Low(i) <= s < Low(i) + Pow2(Height(i))
  {
    if i < NTREEBINS - 1 {
      NextMinSize(i);
    } else {
      Pow2Words();
    }
    hide Pow2, MinSize;
  }

  lemma NextMinSize(i: nat)
    ensures MinSize(i + 1) == MinSize(i) + Pow2(i / 2 + 7)
    ensures MinSize(i) == (2 + i % 2) * Pow2(i / 2 + 7)
  {
    assert Pow2(i / 2 + 8) == 2 * Pow2(i / 2 + 7) && Pow2(i / 2 + 9) == 2 * Pow2(i / 2 + 8);
    hide Pow2;
    if i % 2 == 0 { assert (i + 1) / 2 == i / 2; } else { assert (i + 1) / 2 == i / 2 + 1; }
  }

  /** The shift by `leftshift_for_tree_index` drops the bits that all sizes of the bin share. */
  lemma HeadBitsAreSizeBits(s: nat, i: nat)
    requires i < NTREEBINS && InBin(s, i)
    ensures Height(i) <= 64 && HeadBits(s, i) == SizeBits(s - Low(i), Height(i))
  {
    BinInRange(s, i);
    var lo, h, unit := Low(i), Height(i), Pow2(LeftShift(i));
    assert LeftShift(i) == 64 - h;
    Pow2Sum(h, 64 - h);
    Pow2Words();
    if i < NTREEBINS - 1 {
      NextMinSize(i);
      var d := Pow2(h);
      hide Pow2, MinSize;
      DropHead(s, 2 + i % 2, d, unit);
    } else {
      assert unit == 1;
    }
  }

  lemma DropHead(s: nat, q: nat, d: nat, unit: nat)
    requires d * unit == WORD && q * d <= s < q * d + d
    ensures s * unit % WORD == (s - q * d) * unit
  {
    var off := s - q * d;
    assert s * unit == q * (d * unit) + off * unit;
    MulMono(off + 1, d, unit);
    assert (off + 1) * unit == off * unit + unit && unit > 0;
    QuotientIs(s * unit, WORD, q);
  }

  // ----- Insertion and removal

  /** `insert_large_chunk`. */
  function InsertLarge(b: Bins, a: Addr, s: nat): Bins
    requires |b.trees| == NTREEBINS && MIN_LARGE_SIZE <= s < WORD
  {
    IndexInRange(s);
    var i := ComputeTreeIndex(s);
    if !BinMap.Marked(b.treemap, i) then Bins(b.trees[i := Node(s, [a], Nil, Nil)], BinMap.Mark(b.treemap, i))
    else Bins(b.trees[i := Insert(b.trees[i], s, a, HeadBits(s, i))], b.treemap)
  }

  /** `unlink_large_chunk`. */
  function UnlinkLarge(b: Bins, a: Addr, s: nat): Bins
    requires |b.trees| == NTREEBINS && MIN_LARGE_SIZE <= s < WORD
  {
    IndexInRange(s);
    var i := ComputeTreeIndex(s);
    var t := Unlink(b.trees[i], s, a, HeadBits(s, i));
    Bins(b.trees[i := t], if t == Nil then BinMap.Clear(b.treemap, i) else b.treemap)
  }

  /** What is left when a part common to both sides is taken away. */
  lemma CancelCommon<T>(a: multiset<T>, b: multiset<T>, x: multiset<T>)
    requires a + x == b + x
    ensures a == b
  {
    forall e: T ensures a[e] == b[e] { assert (a + x)[e] == (b + x)[e]; }
  }

  lemma {:induction false} ChunksUpdate(ts: seq<Trie>, i: nat, t: Trie)
    requires i < |ts|
    ensures Chunks(ts[i := t]) + Bag(ts[i]) == Chunks(ts) + Bag(t)
  {
    var us := ts[i := t];
    if i == 0 {
      assert us[1..] == ts[1..];
    } else {
      ChunksUpdate(ts[1..], i - 1, t);
      assert us[1..] == ts[1..][i - 1 := t] && us[0] == ts[0];
    }
    hide Bag;
    assert Chunks(us) == Bag(us[0]) + Chunks(us[1..]);
    assert Chunks(ts) == Bag(ts[0]) + Chunks(ts[1..]);
    if i > 0 {
      calc {
        Chunks(us) + Bag(ts[i]);
        Bag(ts[0]) + (Chunks(us[1..]) + Bag(ts[1..][i - 1]));
        Bag(ts[0]) + (Chunks(ts[1..]) + Bag(t));
        Chunks(ts) + Bag(t);
      }
    }
  }

  lemma {:induction false} InChunks(ts: seq<Trie>, c: Chunk)
    ensures c in Chunks(ts) <==> exists i :: 0 <= i < |ts| && c in Bag(ts[i])
  {
    if ts != [] {
      InChunks(ts[1..], c);
      hide Bag;
      if i :| 0 <= i < |ts| && c in Bag(ts[i]) {
        assert i > 0 ==> ts[i] == ts[1..][i - 1];
      }
      if i :| 0 <= i < |ts[1..]| && c in Bag(ts[1..][i]) { assert ts[1..][i] == ts[i + 1]; }
    }
  }

  /** Replacing the tree of one bin. */
  lemma ReplaceTree(b: Bins, i: nat, t: Trie, m: bv32)
    requires Valid(b) && i < NTREEBINS && BinOk(t, i)
    requires m == if b.trees[i].Node? == t.Node? then b.treemap
                  else if t == Nil then BinMap.Clear(b.treemap, i) else BinMap.Mark(b.treemap, i)
    ensures Valid(Bins(b.trees[i := t], m))
  {
    forall j: nat | j < NTREEBINS
      ensures BinMap.Marked(m, j) <==> if j == i then t.Node? else BinMap.Marked(b.treemap, j)
    {
      BinMap.MarkClear(b.treemap, i, j);
      hide BinOk, BinMap.Mark, BinMap.Clear, BinMap.Marked;
    }
    hide BinOk, BinMap.Mark, BinMap.Clear, BinMap.Marked;
  }

  /** Insertion keeps the bins in order and adds exactly the chunk. */
  lemma InsertLargeOk(b: Bins, a: Addr, s: nat)
    requires Valid(b) && MIN_LARGE_SIZE <= s < WORD
    ensures Valid(InsertLarge(b, a, s))
    ensures Chunks(InsertLarge(b, a, s).trees) == Chunks(b.trees) + multiset{Chunk(a, s)}
  {
    hide ComputeTreeIndex, HeadBits, BinOk, Bag, Chunks, Insert, InBin, BinMap.Mark, BinMap.Marked;
    IndexInRange(s);
    var i := ComputeTreeIndex(s);
    BinOfSize(s, i);
    var b', t' := InsertLarge(b, a, s), Insert(b.trees[i], s, a, HeadBits(s, i));
    InsertBinOk(b.trees[i], i, a, s);
    assert b'.trees == b.trees[i := t'];
    ReplaceTree(b, i, t', b'.treemap);
    ChunksUpdate(b.trees, i, t');
    CancelCommon(Chunks(b.trees[i := t']), Chunks(b.trees) + multiset{Chunk(a, s)}, Bag(b.trees[i]));
  }

  lemma InsertBinOk(t: Trie, i: nat, a: Addr, s: nat)
    requires i < NTREEBINS && BinOk(t, i) && InBin(s, i)
    ensures var t' := Insert(t, s, a, HeadBits(s, i));
            && BinOk(t', i) && t'.Node? && Bag(t') == Bag(t) + multiset{Chunk(a, s)}
            && (t == Nil ==> t' == Node(s, [a], Nil, Nil))
  {
    BinInRange(s, i);
    HeadBitsAreSizeBits(s, i);
    InsertOk(t, Low(i), Height(i), s, a);
    InsertBag(t, s, a, HeadBits(s, i));
    hide Ok, Insert, Bag, HeadBits, SizeBits, Low, Height, InBin;
  }

  /** Removal keeps the bins in order and takes away exactly the chunk. */
  lemma UnlinkLargeOk(b: Bins, a: Addr, s: nat)
    requires Valid(b) && Chunk(a, s) in Chunks(b.trees)
    ensures MIN_LARGE_SIZE <= s < WORD && Valid(UnlinkLarge(b, a, s))
    ensures Chunks(UnlinkLarge(b, a, s).trees) + multiset{Chunk(a, s)} == Chunks(b.trees)
  {
    hide ComputeTreeIndex, HeadBits, BinOk, Bag, Chunks, Unlink, InBin, BinMap.Clear, BinMap.Marked;
    var i := WhichBin(b, Chunk(a, s));
    var t' := Unlink(b.trees[i], s, a, HeadBits(s, i));
    UnlinkBinOk(b.trees[i], i, a, s);
    ReplaceTree(b, i, t', UnlinkLarge(b, a, s).treemap);
    ChunksUpdate(b.trees, i, t');
    CancelCommon(Chunks(b.trees[i := t']) + multiset{Chunk(a, s)}, Chunks(b.trees), Bag(t'));
  }

  lemma UnlinkBinOk(t: Trie, i: nat, a: Addr, s: nat)
    requires i < NTREEBINS && BinOk(t, i) && Chunk(a, s) in Bag(t)
    ensures var t' := Unlink(t, s, a, HeadBits(s, i));
            t.Node? && BinOk(t', i) && Bag(t') + multiset{Chunk(a, s)} == Bag(t)
  {
    BinInRange(s, i);
    HeadBitsAreSizeBits(s, i);
    UnlinkOk(t, Low(i), Height(i), s, a);
    UnlinkBag(t, Low(i), Height(i), s, a);
    var t' := Unlink(t, s, a, HeadBits(s, i));
    hide Ok, Unlink, Bag, HeadBits, SizeBits, Low, Height, InBin;
    forall c | c in Bag(t') ensures InBin(c.size, i) { assert c in Bag(t) by { assert c in Bag(t') + multiset{Chunk(a, s)}; } }
  }

  /** A binned chunk is in the bin of its size. */
  lemma WhichBin(b: Bins, c: Chunk) returns (i: nat)
    requires Valid(b) && c in Chunks(b.trees)
    ensures i < NTREEBINS && MIN_LARGE_SIZE <= c.size < WORD && i == ComputeTreeIndex(c.size)
    ensures c in Bag(b.trees[i])
  {
    InChunks(b.trees, c);
    i :| 0 <= i < |b.trees| && c in Bag(b.trees[i]);
    LargeInBin(c.size, i);
    BinOfSize(c.size, i);
  }

  lemma LargeInBin(s: nat, i: nat)
    requires i < NTREEBINS && InBin(s, i)
    ensures MIN_LARGE_SIZE <= s < WORD
  {
    MinSizeMonotone(0, i);
    assert MinSize(0) == 256 by { Pow2Table(); }
    if i < NTREEBINS - 1 {
      MinSizeMonotone(i + 1, 31);
      Pow2Table();
      Pow2Sum(8, 15);
      Pow2Sum(8, 14);
      hide Pow2;
    }
  }

  // ----- Best fit

  /** v is at least as good a fit as c. */
  predicate Covers(v: Option<Chunk>, c: Chunk)
  {
    v.Some? && v.value.size <= c.size
  }

  /** A chunk of the subtree, or one larger than anything the subtree may hold. */
  predicate Reach(t: Trie, lo: nat, h: nat, c: Chunk)
  {
    t.Node? && (c in Bag(t) || lo + Pow2(h) <= c.size)
  }

  lemma NothingReached(lo: nat, h: nat)
    ensures forall c :: !Reach(Nil, lo, h, c)
  {
  }

  /** The remainder as a word: a size below nb wraps around. */
  function Remainder(size: nat, nb: nat): nat
  {
    (size - nb) % WORD
  }

  /** A best fit so far, with its remainder; without one the remainder is the largest possible. */
  predicate Candidate(v: Option<Chunk>, rsize: nat, nb: nat)
  {
    if v.Some? then nb <= v.value.size < WORD && rsize == v.value.size - nb else rsize == WORD - nb
  }

  /** The unsigned wrap never admits a chunk that is too small. */
  lemma RemainderIsFit(size: nat, nb: nat, v: Option<Chunk>, rsize: nat)
    requires 0 < nb < WORD && size < WORD && Candidate(v, rsize, nb)
    ensures Remainder(size, nb) < rsize <==> nb <= size && (v.Some? ==> size < v.value.size)
    ensures nb <= size ==> Remainder(size, nb) == size - nb
  {
    if nb <= size {
    } else {
      assert Remainder(size, nb) == size - nb + WORD;
    }
  }

  function LeftmostChild(t: Trie): Trie
    requires t.Node?
  {
    if t.left.Node? then t.left else t.right
  }

  /** The low end of the range of the leftmost child. */
  ghost function LeftmostLow(t: Trie, lo: nat, h: nat): nat
    requires t.Node? && h > 0
  {
    if t.left.Node? then lo else lo + Pow2(h - 1)
  }

  /** One step towards the smallest chunk leaves nothing better behind. */
  lemma LeftmostStep(t: Trie, lo: nat, h: nat, c: Chunk)
    requires Ok(t, lo, h) && Reach(t, lo, h, c)
    ensures t.Node?
    ensures t.size <= c.size || (h > 0 && Reach(LeftmostChild(t), LeftmostLow(t, lo, h), h - 1, c))
  {
    if c in Bag(t) {
      WhereInBag(t, c);
      if c in Bag(t.right) { SizeInRange(t.right, lo + Pow2(h - 1), h - 1, c); }
    }
  }

  lemma LeftmostOk(t: Trie, lo: nat, h: nat)
    requires Ok(t, lo, h) && t.Node?
    ensures t.ring != [] && Chunk(t.ring[0], t.size) in Bag(t) && Bag(LeftmostChild(t)) <= Bag(t)
    ensures h > 0 ==> Ok(LeftmostChild(t), LeftmostLow(t, lo, h), h - 1)
    ensures h == 0 ==> LeftmostChild(t) == Nil && Ok(Nil, lo, 0)
  {
    HeadInBag(t);
  }

  /** Takes the node t if it fits better than v. */
  method Improve(t: Trie, nb: nat, v0: Option<Chunk>, rsize0: nat) returns (v: Option<Chunk>, rsize: nat)
    requires t.Node? && t.ring != [] && t.size < WORD && 0 < nb < WORD && Candidate(v0, rsize0, nb)
    ensures Candidate(v, rsize, nb) && (v.Some? ==> nb <= v.value.size)
    ensures v == v0 || v == Some(Chunk(t.ring[0], t.size))
    ensures v0.Some? ==> Covers(v, v0.value)
    ensures nb <= t.size ==> v.Some? && v.value.size <= t.size
  {
    v, rsize := v0, rsize0;
    var trem := Remainder(t.size, nb);
    RemainderIsFit(t.size, nb, v, rsize);
    if trem < rsize {
      rsize := trem;
      v := Some(Chunk(t.ring[0], t.size));
    }
  }

  /** Sizes that are possible, and large enough unless there already is an exact fit. */
  predicate Fitting(t: Trie, nb: nat, v: Option<Chunk>)
  {
    && (forall c :: c in Bag(t) ==> c.size < WORD)
    && (Exact(v, nb) || forall c :: c in Bag(t) ==> nb <= c.size)
  }

  predicate Exact(v: Option<Chunk>, nb: nat)
  {
    v.Some? && v.value.size == nb
  }

  /** The smallest chunk of a tree or subtree, along the leftmost children. */
  method SmallestOf(t0: Trie, nb: nat, v0: Option<Chunk>, rsize0: nat, ghost lo0: nat, ghost h0: nat)
    returns (v: Option<Chunk>, rsize: nat)
    requires Ok(t0, lo0, h0) && 0 < nb < WORD && Candidate(v0, rsize0, nb) && Fitting(t0, nb, v0)
    ensures Candidate(v, rsize, nb)
    ensures v == v0 || (v.Some? && v.value in Bag(t0))
    ensures v0.Some? ==> Covers(v, v0.value)
    ensures forall c :: Reach(t0, lo0, h0, c) && nb <= c.size ==> Covers(v, c)
  {
    var t := t0;
    ghost var lo: nat, h: nat := lo0, h0;
    v, rsize := v0, rsize0;
    hide Bag, Ok, Reach, Candidate;
    while t.Node?
      invariant Ok(t, lo, h) && Candidate(v, rsize, nb) && Bag(t) <= Bag(t0)
      invariant v == v0 || (v.Some? && v.value in Bag(t0))
      invariant v0.Some? ==> Covers(v, v0.value)
      invariant forall c :: Reach(t0, lo0, h0, c) && nb <= c.size ==> Covers(v, c) || Reach(t, lo, h, c)
      decreases t
    {
      LeftmostOk(t, lo, h);
      ghost var before, v' := t, v;
      assert Chunk(t.ring[0], t.size) in Bag(t0);
      v, rsize := Improve(t, nb, v, rsize);
      t := LeftmostChild(t);
      ghost var lo', h' := if h > 0 then LeftmostLow(before, lo, h) else lo, if h > 0 then h - 1 else 0;
      forall c | Reach(t0, lo0, h0, c) && nb <= c.size ensures Covers(v, c) || Reach(t, lo', h', c) {
        if !Covers(v', c) { LeftmostStep(before, lo, h, c); }
        assert Exact(v0, nb) ==> Covers(v, c);
      }
      lo, h := lo', h';
    }
    assert forall c :: !Reach(t, lo, h, c) by { NothingReached(lo, h); }
  }

  /** Where the walk is: the subtree on the path and the deepest untaken right subtree, each with
      the range it covers. */
  datatype Path = Path(t: Trie, lo: nat, h: nat, rst: Trie, rlo: nat, rh: nat)

  predicate PathOk(p: Path, nb: nat, bin: Trie)
  {
    && Ok(p.t, p.lo, p.h) && p.h <= 64 && p.lo <= nb < p.lo + Pow2(p.h)
    && Ok(p.rst, p.rlo, p.rh) && (p.rst.Node? ==> p.lo + Pow2(p.h) <= p.rlo)
    && Within(p.t, bin) && Within(p.rst, bin)
  }

  predicate Within(t: Trie, bin: Trie)
  {
    forall c :: c in Bag(t) ==> c in Bag(bin)
  }

  /** A chunk that the walk may still find, or that is larger than one it will find. */
  predicate Ahead(p: Path, c: Chunk)
  {
    c in Bag(p.t) || Reach(p.rst, p.rlo, p.rh, c)
  }

  /** Every chunk that may fit is ahead of the walk or no better than the candidate. */
  predicate Covered(p: Path, nb: nat, bin: Trie, v: Option<Chunk>)
  {
    forall c :: c in Bag(bin) && nb <= c.size ==> Covers(v, c) || Ahead(p, c)
  }

  function Advance(p: Path, nb: nat): Path
    requires p.t.Node? && p.h > 0
  {
    var half := Pow2(p.h - 1);
    if nb < p.lo + half then
      if p.t.right.Node? then Path(p.t.left, p.lo, p.h - 1, p.t.right, p.lo + half, p.h - 1)
      else p.(t := p.t.left, h := p.h - 1)
    else p.(t := p.t.right, lo := p.lo + half, h := p.h - 1)
  }

  /** A chunk that may fit stays ahead when the walk goes on, or has the size of the node passed. */
  lemma AdvanceAhead(p: Path, nb: nat, bin: Trie, c: Chunk)
    requires PathOk(p, nb, bin) && p.t.Node? && p.h > 0 && nb <= c.size && Ahead(p, c)
    ensures c.size == p.t.size || Ahead(Advance(p, nb), c)
  {
    var t, lo, h := p.t, p.lo, p.h;
    hide Ok, Bag, Within, Pow2;
    if c in Bag(t.right) { NilIsEmpty(t.right, c); }
    ChildrenOk(t, lo, h);
    if c in Bag(t) {
      WhereInBag(t, c);
      if c in Bag(t.left) { SizeInRange(t.left, lo, h - 1, c); }
    } else if c in Bag(p.rst) {
      SizeInRange(p.rst, p.rlo, p.rh, c);
    }
  }

  lemma NilIsEmpty(t: Trie, c: Chunk)
    requires c in Bag(t)
    ensures t.Node?
  {
  }

  lemma ChildrenOk(t: Trie, lo: nat, h: nat)
    requires Ok(t, lo, h) && t.Node?
    ensures t.ring != [] && Chunk(t.ring[0], t.size) in Bag(t) && lo <= t.size < lo + Pow2(h)
    ensures Within(t.left, t) && Within(t.right, t)
    ensures h > 0 ==> Ok(t.left, lo, h - 1) && Ok(t.right, lo + Pow2(h - 1), h - 1) && Pow2(h) == 2 * Pow2(h - 1)
    ensures h == 0 ==> Pow2(h) == 1
  {
    HeadInBag(t);
  }

  lemma AdvanceOk(p: Path, nb: nat, bin: Trie)
    requires PathOk(p, nb, bin) && p.t.Node?
    ensures p.t.ring != [] && Chunk(p.t.ring[0], p.t.size) in Bag(bin)
    ensures p.h == 0 ==> p.t.size == nb
    ensures p.h > 0 ==> PathOk(Advance(p, nb), nb, bin)
  {
    hide Bag, Ok, Pow2;
    ChildrenOk(p.t, p.lo, p.h);
  }

  lemma AdvanceCovered(p: Path, nb: nat, bin: Trie, v: Option<Chunk>, v': Option<Chunk>)
    requires PathOk(p, nb, bin) && p.t.Node? && p.h > 0 && Covered(p, nb, bin, v)
    requires v.Some? ==> Covers(v', v.value)
    requires nb <= p.t.size ==> v'.Some? && v'.value.size <= p.t.size
    ensures Covered(Advance(p, nb), nb, bin, v')
  {
    hide Advance, PathOk, Ahead, Bag;
    forall c | c in Bag(bin) && nb <= c.size ensures Covers(v', c) || Ahead(Advance(p, nb), c) {
      if !Covers(v, c) { AdvanceAhead(p, nb, bin, c); }
    }
  }

  /** What is left to search when the walk ends in t. */
  predicate Rest(t: Trie, lo: nat, h: nat, nb: nat, bin: Trie, v: Option<Chunk>)
  {
    && Ok(t, lo, h) && Fitting(t, nb, v) && Within(t, bin)
    && forall c :: c in Bag(bin) && nb <= c.size ==> Covers(v, c) || Reach(t, lo, h, c)
  }

  /** An exact fit may stop the walk anywhere. */
  lemma PathExact(p: Path, nb: nat, bin: Trie, v: Option<Chunk>)
    requires PathOk(p, nb, bin) && Exact(v, nb) && forall c :: c in Bag(bin) ==> c.size < WORD
    ensures Rest(p.t, p.lo, p.h, nb, bin, v)
  {
    hide Bag, Ok;
  }

  /** At the end of the path only the untaken right subtree and larger sizes are ahead. */
  lemma PathEnd(p: Path, nb: nat, bin: Trie, v: Option<Chunk>)
    requires PathOk(p, nb, bin) && p.t == Nil && forall c :: c in Bag(bin) ==> c.size < WORD
    requires Covered(p, nb, bin, v)
    ensures Rest(p.rst, p.rlo, p.rh, nb, bin, v)
  {
    hide Bag, Ok, Pow2;
    InRange(p.rst, p.rlo, p.rh);
    forall c | c in Bag(p.rst) ensures nb <= c.size && c.size < WORD {
      assert c in Bag(bin);
      NilIsEmpty(p.rst, c);
    }
    assert Fitting(p.rst, nb, v);
    hide Fitting, Within;
    forall c | Ahead(p, c) ensures Reach(p.rst, p.rlo, p.rh, c) {
      if c in Bag(p.t) { NilIsEmpty(p.t, c); }
    }
  }

  /** The word of size bits tells which way the path goes and then fits the next position. */
  lemma AdvanceBits(p: Path, nb: nat, bin: Trie)
    requires PathOk(p, nb, bin) && p.t.Node? && p.h > 0
    ensures var w, q := SizeBits(nb - p.lo, p.h), Advance(p, nb);
            && q.lo <= nb && q.h <= 64 && ShiftLeft(w) == SizeBits(nb - q.lo, q.h)
            && q.t == (if TopBitClear(w) then p.t.left else p.t.right)
            && q.rst == if TopBitClear(w) && p.t.right.Node? then p.t.right else p.rst
  {
    DescendBits(nb - p.lo, p.h);
    hide SizeBits, Ok, Bag;
  }

  lemma PathStart(bin: Trie, i: nat, nb: nat)
    requires i < NTREEBINS && BinOk(bin, i) && InBin(nb, i)
    ensures var p := Path(bin, Low(i), Height(i), Nil, 0, 0); PathOk(p, nb, bin) && Covered(p, nb, bin, None)
    ensures Low(i) <= nb && Height(i) <= 64 && HeadBits(nb, i) == SizeBits(nb - Low(i), Height(i))
    ensures MIN_LARGE_SIZE <= nb < WORD && forall c :: c in Bag(bin) ==> c.size < WORD
  {
    BinInRange(nb, i);
    HeadBitsAreSizeBits(nb, i);
    LargeInBin(nb, i);
    forall c | c in Bag(bin) ensures c.size < WORD { LargeInBin(c.size, i); }
    hide Low, Height, InBin, HeadBits, SizeBits;
  }

  /** The walk along the bits of nb that remembers the deepest untaken right subtree. It ends at an
      exact fit or at the least subtree that holds larger sizes. */
  method Descend(bin: Trie, i: nat, nb: nat)
    returns (t: Trie, v: Option<Chunk>, rsize: nat, ghost lo: nat, ghost h: nat)
    requires i < NTREEBINS && bin.Node? && BinOk(bin, i) && InBin(nb, i)
    ensures Candidate(v, rsize, nb) && (v.Some? ==> v.value in Bag(bin))
    ensures Rest(t, lo, h, nb, bin, v)
  {
    hide HeadBits, BinOk, InBin, Low, Height, Bag, SizeBits, Covered, Advance, PathOk, Rest, TopBitClear, ShiftLeft;
    PathStart(bin, i, nb);
    t, v, rsize := bin, None, WORD - nb;
    var sizebits := HeadBits(nb, i);
    var rst := Nil;
    ghost var p := Path(bin, Low(i), Height(i), Nil, 0, 0);
    while true
      invariant PathOk(p, nb, bin) && p.t == t && p.rst == rst && t.Node?
      invariant p.h <= 64 && p.lo <= nb && sizebits == SizeBits(nb - p.lo, p.h)
      invariant Candidate(v, rsize, nb) && (v.Some? ==> v.value in Bag(bin))
      invariant Covered(p, nb, bin, v)
      decreases t
    {
      AdvanceOk(p, nb, bin);
      ghost var v' := v;
      v, rsize := Improve(t, nb, v, rsize);
      if rsize == 0 {
        lo, h := p.lo, p.h;
        PathExact(p, nb, bin, v);
        return;
      }
      AdvanceBits(p, nb, bin);
      AdvanceCovered(p, nb, bin, v', v);
      p := Advance(p, nb);
      var rt := t.right;
      t := if TopBitClear(sizebits) then t.left else t.right;
      if rt.Node? && TopBitClear(sizebits) {   // that is, rt is not the child taken
        rst := rt;
      }
      sizebits := ShiftLeft(sizebits);
      if t == Nil {
        PathEnd(p, nb, bin, v);
        t, lo, h := rst, p.rlo, p.rh;
        return;
      }
    }
  }

  /** The smallest of all binned chunks of at least nb bytes, or nothing if there is none. */
  predicate IsBestFit(b: Bins, nb: nat, v: Option<Chunk>)
  {
    && (v.Some? ==> v.value in Chunks(b.trees) && nb <= v.value.size)
    && forall c :: c in Chunks(b.trees) && nb <= c.size ==> Covers(v, c)
  }

  /** v fits and is a smallest fit in bin k. */
  predicate BestInBin(t: Trie, nb: nat, v: Option<Chunk>)
  {
    && (v.Some? ==> v.value in Bag(t) && nb <= v.value.size)
    && forall c :: c in Bag(t) && nb <= c.size ==> Covers(v, c)
  }

  lemma BinInChunks(ts: seq<Trie>, k: nat, c: Chunk)
    requires k < |ts| && c in Bag(ts[k])
    ensures c in Chunks(ts)
  {
    InChunks(ts, c);
  }

  /** Chunks of later bins are larger. */
  lemma LaterIsLarger(b: Bins, c: Chunk, d: Chunk, k: nat, j: nat)
    requires Valid(b) && k < j < NTREEBINS && c in Bag(b.trees[k]) && d in Bag(b.trees[j])
    ensures c.size < d.size
  {
    assert BinOk(b.trees[k], k) && BinOk(b.trees[j], j);
    MinSizeMonotone(k + 1, j);
    hide MinSize;
  }

  /** A best fit in the first bin that has one is a best fit. */
  lemma FirstBinWins(b: Bins, k: nat, nb: nat, v: Option<Chunk>)
    requires Valid(b) && k < NTREEBINS && v.Some? && BestInBin(b.trees[k], nb, v)
    requires TooSmallBelow(b, k, nb)
    ensures IsBestFit(b, nb, v)
  {
    hide Bag, Chunks, ComputeTreeIndex, BinOk;
    BinInChunks(b.trees, k, v.value);
    forall c | c in Chunks(b.trees) && nb <= c.size ensures Covers(v, c) {
      var j := WhichBin(b, c);
      if k < j { LaterIsLarger(b, v.value, c, k, j); }
    }
  }

  lemma NoBinFits(b: Bins, nb: nat)
    requires Valid(b) && TooSmallBelow(b, NTREEBINS, nb)
    ensures IsBestFit(b, nb, None)
  {
    hide Bag, ComputeTreeIndex;
    forall c | c in Chunks(b.trees) ensures c.size < nb { var j := WhichBin(b, c); }
  }

  /** Chunks of earlier bins are too small. */
  lemma EarlierTooSmall(b: Bins, nb: nat, k: nat)
    requires Valid(b) && MIN_LARGE_SIZE <= nb < WORD && k == ComputeTreeIndex(nb)
    ensures TooSmallBelow(b, k, nb)
  {
    hide ComputeTreeIndex, MinSize, Bag, Ok;
    IndexInRange(nb);
    forall j: nat, c | j < k && c in Bag(b.trees[j]) ensures c.size < nb {
      assert BinOk(b.trees[j], j);
      MinSizeMonotone(j + 1, k);
    }
  }

  /** The next marked bin is the next one that holds anything. */
  lemma NextBin(b: Bins, k: nat)
    requires Valid(b) && k < NTREEBINS
    ensures var m := BinMap.Above(b.treemap, k);
            if m == 0 then forall j :: k < j < NTREEBINS ==> b.trees[j] == Nil
            else
              var i := BinMap.Lowest(m);
              k < i < NTREEBINS && b.trees[i].Node? && forall j :: k < j < i ==> b.trees[j] == Nil
  {
    hide BinMap.Above, BinMap.Marked, BinMap.Lowest, BinOk;
    var m := BinMap.Above(b.treemap, k);
    forall j: nat | j < NTREEBINS ensures BinMap.Marked(m, j) <==> k < j && b.trees[j].Node? {
      BinMap.AboveMarks(b.treemap, k, j);
    }
    if m == 0 {
      forall j: nat | k < j < NTREEBINS ensures b.trees[j] == Nil { BinMap.NoMarks(j); }
    } else {
      var i := BinMap.Lowest(m);
      BinMap.LowestIsLowest(m, 0);
      forall j: nat | k < j < i ensures b.trees[j] == Nil { BinMap.LowestIsLowest(m, j); }
    }
  }

  /** The search of a whole bin whose every chunk fits. */
  lemma WholeBin(t: Trie, i: nat, nb: nat)
    requires i < NTREEBINS && BinOk(t, i) && 0 < nb <= MinSize(i)
    ensures Rest(t, Low(i), Height(i), nb, t, None)
  {
    hide Ok, Low, Height, MinSize, Bag;
    forall c | c in Bag(t) ensures nb <= c.size < WORD && t.Node? {
      LargeInBin(c.size, i);
      NilIsEmpty(t, c);
    }
  }

  /** Nothing is left to search, so nothing in the bin fits. */
  lemma NothingLeft(lo: nat, h: nat, nb: nat, bin: Trie)
    requires Rest(Nil, lo, h, nb, bin, None)
    ensures forall c :: c in Bag(bin) ==> c.size < nb
  {
  }

  /** Finishes the search of a bin along the leftmost children of what is left. */
  method FinishBin(t: Trie, nb: nat, v0: Option<Chunk>, rsize0: nat, ghost lo: nat, ghost h: nat, ghost bin: Trie)
    returns (v: Option<Chunk>, rsize: nat)
    requires 0 < nb < WORD && Candidate(v0, rsize0, nb) && Rest(t, lo, h, nb, bin, v0)
    requires v0.Some? ==> v0.value in Bag(bin)
    ensures Candidate(v, rsize, nb) && BestInBin(bin, nb, v)
    ensures t.Node? || v0.Some? ==> v.Some?
  {
    v, rsize := SmallestOf(t, nb, v0, rsize0, lo, h);
    if t.Node? && v0.None? {
      ChildrenOk(t, lo, h);
      assert Reach(t, lo, h, Chunk(t.ring[0], t.size));
    }
    hide Ok, Bag;
  }

  lemma EmptyBin(lo: nat, h: nat, nb: nat)
    ensures Rest(Nil, lo, h, nb, Nil, None)
  {
  }

  predicate TooSmallBelow(b: Bins, k: nat, nb: nat)
  {
    k <= |b.trees| && forall j: nat, c :: j < k && c in Bag(b.trees[j]) ==> c.size < nb
  }

  /** Nothing fits up to bin k and the bins between k and i are empty. */
  lemma SkipEmpty(b: Bins, nb: nat, k: nat, i: nat)
    requires TooSmallBelow(b, k, nb) && k < i <= |b.trees|
    requires forall c :: c in Bag(b.trees[k]) ==> c.size < nb
    requires forall j :: k < j < i ==> b.trees[j] == Nil
    ensures TooSmallBelow(b, i, nb)
  {
    hide Bag;
    forall j: nat, c | j < i && c in Bag(b.trees[j]) ensures c.size < nb {
      if k < j { NilIsEmpty(b.trees[j], c); }
    }
  }

  lemma StartBin(b: Bins, nb: nat, k: nat, i: nat)
    requires Valid(b) && MIN_LARGE_SIZE <= nb && InBin(nb, k) && k < i < NTREEBINS
    ensures Rest(b.trees[i], Low(i), Height(i), nb, b.trees[i], None)
  {
    hide MinSize, BinOk, Rest, Low, Height;
    MinSizeMonotone(k + 1, i);
    WholeBin(b.trees[i], i, nb);
  }

  /** The search of `tmalloc_large`. */
  method BestFit(b: Bins, nb: nat) returns (v: Option<Chunk>, rsize: nat)
    requires Valid(b) && MIN_LARGE_SIZE <= nb < WORD
    ensures Candidate(v, rsize, nb) && IsBestFit(b, nb, v)
  {
    hide ComputeTreeIndex, Valid, BinOk, Rest, IsBestFit, BestInBin, MinSize, Low, Height, InBin, Bag, TooSmallBelow, BinMap.Above, BinMap.Lowest;
    v, rsize := None, WORD - nb;
    var idx: nat := LargeIndex(b, nb);
    var t := b.trees[idx];
    ghost var lo, h, k := Low(idx), Height(idx), idx;
    if t.Node? {
      t, v, rsize, lo, h := Descend(t, idx, nb);
    } else {
      EmptyBin(lo, h, nb);
    }
    EarlierTooSmall(b, nb, idx);
    if t == Nil && v.None? {
      NothingLeft(lo, h, nb, b.trees[idx]);
      NextBin(b, idx);
      var leftbits := BinMap.Above(b.treemap, idx);
      if leftbits != 0 {
        var i := BinMap.Lowest(leftbits);
        t := b.trees[i];
        lo, h, k := Low(i), Height(i), i;
        SkipEmpty(b, nb, idx, i);
        StartBin(b, nb, idx, i);
      } else {
        SkipEmpty(b, nb, idx, NTREEBINS);
        NoBinFits(b, nb);
      }
    }
    if t.Node? || v.Some? {
      v, rsize := FinishBin(t, nb, v, rsize, lo, h, b.trees[k]);
      FirstBinWins(b, k, nb, v);
    }
  }

  function LargeIndex(b: Bins, nb: nat): (i: nat)
    requires Valid(b) && MIN_LARGE_SIZE <= nb < WORD
    ensures i < |b.trees| == NTREEBINS && i == ComputeTreeIndex(nb)
    ensures BinOk(b.trees[i], i) && InBin(nb, i)
  {
    IndexInRange(nb);
    BinOfSize(nb, ComputeTreeIndex(nb));
    ComputeTreeIndex(nb)
  }

  /** What `tmalloc_large` decides: a best fit, unless the designated victim fits at least as well.
      The subtraction from dvsize wraps, so a victim that is too small never wins. */
  method ChooseLarge(b: Bins, nb: nat, dvsize: nat) returns (v: Option<Chunk>)
    requires Valid(b) && MIN_LARGE_SIZE <= nb < WORD && dvsize < WORD
    ensures v.Some? ==> IsBestFit(b, nb, v) && (dvsize < nb || v.value.size < dvsize)
    ensures v.None? ==> (forall c :: c in Chunks(b.trees) && nb <= c.size ==> nb <= dvsize <= c.size)
  {
    var rsize;
    v, rsize := BestFit(b, nb);
    RemainderIsFit(dvsize, nb, v, rsize);
    hide Chunks, Valid;
    if !(v.Some? && rsize < Remainder(dvsize, nb)) {
      v := None;
    }
  }

  /** The search of `tmalloc_small`: the smallest chunk of all the tree bins. */
  method SmallestLarge(b: Bins, nb: nat) returns (v: Option<Chunk>)
    requires Valid(b) && 0 < nb < MIN_LARGE_SIZE && b.treemap != 0
    ensures v.Some? && IsBestFit(b, nb, v)
  {
    hide ComputeTreeIndex, BinOk, Rest, IsBestFit, BestInBin, MinSize, Low, Height, InBin, Bag;
    FirstBin(b, nb);
    var i := BinMap.Lowest(b.treemap);
    var rsize;
    v, rsize := FinishBin(b.trees[i], nb, None, WORD - nb, Low(i), Height(i), b.trees[i]);
    FirstBinWins(b, i, nb, v);
  }

  lemma FirstBin(b: Bins, nb: nat)
    requires Valid(b) && 0 < nb < MIN_LARGE_SIZE && b.treemap != 0
    ensures var i := BinMap.Lowest(b.treemap);
            && i < NTREEBINS && b.trees[i].Node? && TooSmallBelow(b, i, nb)
            && Rest(b.trees[i], Low(i), Height(i), nb, b.trees[i], None)
  {
    hide BinMap.Marked, BinMap.Lowest, BinOk, Rest, MinSize, Bag, Low, Height;
    var i := BinMap.Lowest(b.treemap);
    BinMap.LowestIsLowest(b.treemap, 0);
    forall j: nat | j < i ensures b.trees[j] == Nil { BinMap.LowestIsLowest(b.treemap, j); }
    EmptyBelow(b, i, nb);
    MinSizeMonotone(0, i);
    FirstMinSize();
    WholeBin(b.trees[i], i, nb);
  }

  lemma EmptyBelow(b: Bins, i: nat, nb: nat)
    requires i <= |b.trees| && forall j :: 0 <= j < i ==> b.trees[j] == Nil
    ensures TooSmallBelow(b, i, nb)
  {
  }

  lemma FirstMinSize()
    ensures MinSize(0) == MIN_LARGE_SIZE
  {
    Pow2Table();
  }

  /** The map is empty exactly when no chunk is binned. */
  lemma MapTellsEmpty(b: Bins)
    requires Valid(b)
    ensures b.treemap == 0 ==> Chunks(b.trees) == multiset{}
  {
    hide BinMap.Marked, BinOk, Bag, Chunks, ComputeTreeIndex;
    if b.treemap == 0 && Chunks(b.trees) != multiset{} {
      var c :| c in Chunks(b.trees);
      var i := WhichBin(b, c);
      NilIsEmpty(b.trees[i], c);
      BinMap.NoMarks(i);
    }
  }
}
