/** One mspace over one fixed segment: `mspace_malloc` and `mspace_free` with boundary tags, small
    bins, tree bins, the designated victim and the top chunk. The segment does not grow. */
module Mspace {
  import opened Wrappers
  import opened TreeIndex
  import opened BinTrie
  import opened BoundaryTags
  import BinMap
  import SmallBins
  import TreeBins

  const CHUNK_OVERHEAD := 8
  const MIN_CHUNK_SIZE := 32
  const MIN_REQUEST := MIN_CHUNK_SIZE - CHUNK_OVERHEAD - 1
  const MAX_SMALL_REQUEST := 232
  const MAX_REQUEST := WORD - 4 * MIN_CHUNK_SIZE
  const MEM_OFFSET := 16    // from a chunk to the memory handed out

  /** `pad_request`: room for the header, rounded up to the alignment. */
  function PadRequest(bytes: nat): nat
  {
    (bytes + CHUNK_OVERHEAD + 15) / 16 * 16
  }

  /** The chunk size for a request; one that is too large gets a size that cannot be met. */
  function ChunkSize(bytes: nat): nat
  {
    if bytes <= MAX_SMALL_REQUEST then if bytes < MIN_REQUEST then MIN_CHUNK_SIZE else PadRequest(bytes)
    else if bytes >= MAX_REQUEST then WORD - 1
    else PadRequest(bytes)
  }

  lemma ChunkSizeFits(bytes: nat)
    requires bytes < WORD
    ensures var nb := ChunkSize(bytes);
            && MIN_CHUNK_SIZE <= nb < WORD
            && (bytes < MAX_REQUEST ==> Aligned(nb) && bytes + CHUNK_OVERHEAD <= nb)
            && (bytes <= MAX_SMALL_REQUEST <==> nb < MIN_LARGE_SIZE)
  {
  }

  /** For every request that the source can serve, the chunk size is the least that is aligned, holds the two header
      words and the two links of a free chunk, and has room for the request if it reaches over the next chunk's
      first word. */
  lemma ChunkSizeIsLeast(bytes: nat, m: nat)
    requires bytes < WORD - 128
    ensures var nb := ChunkSize(bytes); nb % 16 == 0 && 32 <= nb && bytes + 8 <= nb
    ensures m % 16 == 0 && 32 <= m && bytes + 8 <= m ==> ChunkSize(bytes) <= m
  {
  }

  // ----- Well-formed segments

  /** Sizes and addresses are aligned, and only the top chunk may be smaller than the minimum. */
  predicate Sized(h: Heads, top: Addr)
  {
    forall p :: p in h ==> SizedAt(p, h[p].size, top)
  }

  predicate SizedAt(p: Addr, s: nat, top: Addr)
  {
    Aligned(p) && Aligned(s) && (p == top || MIN_CHUNK_SIZE <= s)
  }

  predicate Aligned(n: nat)
  {
    n % 16 == 0
  }

  lemma AlignedSum(a: nat, b: nat)
    requires Aligned(a)
    ensures Aligned(b) ==> Aligned(a + b) && (b <= a ==> Aligned(a - b))
  {
  }

  predicate TopOk(h: Heads, end: Addr, top: Addr, topsize: nat)
  {
    top in h && h[top] == Head(topsize, false, true) && top + topsize == end < WORD
  }

  predicate WellFormed(h: Heads, f: map<Addr, nat>, base: Addr, end: Addr, top: Addr, topsize: nat)
  {
    0 < base && Tiled(h, base, end) && Tagged(h, f) && Sized(h, top) && TopOk(h, end, top, topsize)
  }

  lemma WholeTaken(h: Heads, f: map<Addr, nat>, base: Addr, end: Addr, top: Addr, topsize: nat, p: Addr)
    requires WellFormed(h, f, base, end, top, topsize) && p in h && !h[p].cinuse && p != top
    ensures WellFormed(TakeWhole(h, p, h[p].size), f, base, end, top, topsize)
  {
    hide Tiled, Tagged, SizedAt;
    TakeWholeOk(h, f, base, end, p);
  }

  lemma PartTaken(h: Heads, f: map<Addr, nat>, base: Addr, end: Addr, top: Addr, topsize: nat, p: Addr, nb: nat)
    requires WellFormed(h, f, base, end, top, topsize) && p in h && !h[p].cinuse && p != top
    requires Aligned(nb) && MIN_CHUNK_SIZE <= nb && nb + MIN_CHUNK_SIZE <= h[p].size
    ensures WellFormed(TakePart(h, p, nb, h[p].size), f[p + h[p].size := h[p].size - nb], base, end, top, topsize)
  {
    hide Tiled, Tagged, Aligned;
    TakePartOk(h, f, base, end, p, nb);
    NoStartInside(h, base, end, p, p + nb);
    assert SizedAt(p, h[p].size, top);
    AlignedSum(p, nb);
    AlignedSum(h[p].size, nb);
    hide SizedAt;
    assert SizedAt(p, nb, top) && SizedAt(p + nb, h[p].size - nb, top) by { Rest(p, h[p].size, nb, top); }
  }

  lemma Rest(p: Addr, s: nat, nb: nat, top: Addr)
    requires SizedAt(p, s, top) && Aligned(nb) && MIN_CHUNK_SIZE <= nb && nb + MIN_CHUNK_SIZE <= s
    ensures SizedAt(p, nb, top) && SizedAt(p + nb, s - nb, top)
  {
  }

  lemma TopTaken(h: Heads, f: map<Addr, nat>, base: Addr, end: Addr, top: Addr, topsize: nat, nb: nat)
    requires WellFormed(h, f, base, end, top, topsize) && Aligned(nb) && MIN_CHUNK_SIZE <= nb < topsize
    ensures WellFormed(TakePart(h, top, nb, topsize), f, base, end, top + nb, topsize - nb)
  {
    hide Tiled, Tagged, Aligned;
    TakePartOk(h, f, base, end, top, nb);
    FootAtEnd(TakePart(h, top, nb, topsize), f, base, end, topsize - nb);
    AlignedSum(top, nb);
    AlignedSum(topsize, nb);
  }

  lemma NoStartAtEnd(h: Heads, base: Addr, end: Addr)
    requires Tiled(h, base, end)
    ensures end !in h
  {
    forall p | p in h ensures p < end { assert TileAt(h, base, end, p); }
  }

  /** A footer past the last chunk is never looked at. */
  lemma FootAtEnd(h: Heads, f: map<Addr, nat>, base: Addr, end: Addr, x: nat)
    requires Tiled(h, base, end) && Tagged(h, f[end := x])
    ensures Tagged(h, f)
  {
    hide Tiled;
    NoStartAtEnd(h, base, end);
    forall p | p in h ensures TagsAt(h, f, p) { assert TagsAt(h, f[end := x], p); }
  }

  lemma SpanFreed(h: Heads, f: map<Addr, nat>, base: Addr, end: Addr, top: Addr, topsize: nat, p: Addr, s: nat)
    requires WellFormed(h, f, base, end, top, topsize) && Span(h, end, p, s) && p + s <= top && Aligned(s)
    ensures WellFormed(Freed(h, p, s), f[p + s := s], base, end, top, topsize)
  {
    hide Tiled, Tagged, Aligned;
    FreedOk(h, f, base, end, p, s);
    assert SizedAt(p, h[p].size, top);
    FreedPositive(h, f, base, end, p);
  }

  lemma FreedPositive(h: Heads, f: map<Addr, nat>, base: Addr, end: Addr, p: Addr)
    requires Tiled(h, base, end) && p in h
    ensures h[p].size > 0
  {
    assert TileAt(h, base, end, p);
  }

  lemma TopFreed(h: Heads, f: map<Addr, nat>, base: Addr, end: Addr, top: Addr, topsize: nat, p: Addr, s: nat)
    requires WellFormed(h, f, base, end, top, topsize) && Span(h, end, p, s) && p + s == end && p <= top && Aligned(s)
    ensures WellFormed(Freed(h, p, s), f, base, end, p, s)
  {
    hide Tiled, Tagged, Aligned;
    FreedOk(h, f, base, end, p, s);
    FootAtEnd(Freed(h, p, s), f, base, end, s);
    assert SizedAt(p, h[p].size, top);
    FreedPositive(h, f, base, end, top);
  }

  // ----- Every free chunk in exactly one place

  function Victim(dv: Addr, dvsize: nat): multiset<Chunk>
  {
    if dvsize == 0 then multiset{} else multiset{Chunk(dv, dvsize)}
  }

  /** The chunks in the bins. */
  function Binned(small: SmallBins.Bins, trees: TreeBins.Bins): multiset<Chunk>
  {
    SmallBins.Chunks(small) + TreeBins.Chunks(trees.trees)
  }

  /** The bins, the designated victim and the top together hold each free chunk once. */
  predicate Indexed(h: Heads, bins: multiset<Chunk>, victim: multiset<Chunk>, top: Chunk)
  {
    bins + victim + multiset{top} == multiset(FreeSet(h))
  }

  /** What is in the bins is free, and neither the victim nor the top. */
  lemma BinnedIsFree(h: Heads, bins: multiset<Chunk>, victim: multiset<Chunk>, top: Chunk, c: Chunk)
    requires Indexed(h, bins, victim, top) && c in bins
    ensures c.addr in h && !h[c.addr].cinuse && h[c.addr].size == c.size
    ensures c !in victim && c.addr != top.addr
  {
    var all := bins + victim + multiset{top};
    assert c in all && all[c] == bins[c] + victim[c] + multiset{top}[c];
    InFreeSet(h, c);
    InFreeSet(h, top);
    assert top in all;
  }

  lemma VictimIsFree(h: Heads, bins: multiset<Chunk>, victim: multiset<Chunk>, top: Chunk, c: Chunk)
    requires Indexed(h, bins, victim, top) && c in victim
    ensures c.addr in h && !h[c.addr].cinuse && h[c.addr].size == c.size && c.addr != top.addr
  {
    BinnedIsFree(h, victim, bins, top, c);
  }

  /** A free chunk that is neither the victim nor the top is in the bins. */
  lemma FreeIsBinned(h: Heads, bins: multiset<Chunk>, victim: multiset<Chunk>, top: Chunk, c: Chunk)
    requires Indexed(h, bins, victim, top) && c in FreeSet(h) && c !in victim && c != top
    ensures c in bins
  {
    assert c in bins + victim + multiset{top};
  }

  lemma WholeIndexed(h: Heads, p: Addr, all: multiset<Chunk>, all': multiset<Chunk>)
    requires all == multiset(FreeSet(h)) && p in h && !h[p].cinuse
    requires all' + multiset{Chunk(p, h[p].size)} == all
    ensures all' == multiset(FreeSet(TakeWhole(h, p, h[p].size)))
  {
    hide TakeWhole;
    var c, free := Chunk(p, h[p].size), FreeSet(h);
    TakeWholeEffect(h, p);
    InFreeSet(h, c);
    hide FreeSet;
    SetWithout(free, c);
    TreeBins.CancelCommon(all', multiset(free - {c}), multiset{c});
  }

  lemma PartIndexed(h: Heads, base: Addr, end: Addr, p: Addr, nb: nat, all: multiset<Chunk>, all': multiset<Chunk>)
    requires all == multiset(FreeSet(h)) && Tiled(h, base, end) && p in h && !h[p].cinuse && 0 < nb < h[p].size
    requires all' + multiset{Chunk(p, h[p].size)} == all + multiset{Chunk(p + nb, h[p].size - nb)}
    ensures all' == multiset(FreeSet(TakePart(h, p, nb, h[p].size)))
  {
    hide TakePart, Tiled;
    var c, d, free := Chunk(p, h[p].size), Chunk(p + nb, h[p].size - nb), FreeSet(h);
    TakePartEffect(h, base, end, p, nb);
    InFreeSet(h, c);
    hide FreeSet;
    SetWithout(free, c);
    SetWith(free - {c}, d);
    TreeBins.CancelCommon(all', multiset(free - {c} + {d}), multiset{c});
  }

  /** An unlinked chunk is split and the remainder put where the other free chunks are. */
  lemma CarvedIndexed(h: Heads, base: Addr, end: Addr, p: Addr, nb: nat, loose: multiset<Chunk>, loose': multiset<Chunk>, top: Chunk)
    requires Tiled(h, base, end) && p in h && !h[p].cinuse && 0 < nb < h[p].size
    requires loose + multiset{top} + multiset{Chunk(p, h[p].size)} == multiset(FreeSet(h))
    requires loose' == loose + multiset{Chunk(p + nb, h[p].size - nb)}
    ensures loose' + multiset{top} == multiset(FreeSet(TakePart(h, p, nb, h[p].size)))
  {
    hide TakePart, Tiled, FreeSet;
    PartIndexed(h, base, end, p, nb, multiset(FreeSet(h)), loose' + multiset{top});
  }

  lemma FreedIndexed(h: Heads, p: Addr, s: nat, p0: Addr, ks: set<Addr>, gone: set<Chunk>, all: multiset<Chunk>, all': multiset<Chunk>)
    requires all == multiset(FreeSet(h)) && MadeOf(h, p, s, p0, ks) && gone == set q | q in ks :: Chunk(q, h[q].size)
    requires all' + multiset(gone) == all + multiset{Chunk(p, s)}
    ensures all' == multiset(FreeSet(Freed(h, p, s))) && Live(Freed(h, p, s)) == Live(h) - {p0}
  {
    hide Freed;
    FreedEffect(h, p, s, p0, ks);
    var d, free := Chunk(p, s), FreeSet(h);
    hide FreeSet, MadeOf, Live;
    SetWith(free - gone, d);
    assert multiset(free) == multiset(free - gone) + multiset(gone) by { SetApart(free, gone); }
    TreeBins.CancelCommon(all', multiset(free - gone + {d}), multiset(gone));
  }

  lemma SetApart(s: set<Chunk>, t: set<Chunk>)
    requires t <= s
    ensures multiset(s) == multiset(s - t) + multiset(t)
  {
  }

  lemma SetWithout(s: set<Chunk>, c: Chunk)
    requires c in s
    ensures multiset(s) == multiset(s - {c}) + multiset{c}
  {
  }

  lemma SetWith(s: set<Chunk>, c: Chunk)
    requires c !in s
    ensures multiset(s + {c}) == multiset(s) + multiset{c}
  {
  }

  /** The chunk behind mem was not in use, is in use now, and nothing else changed hands; its size is
      at least nb and less than nb plus the smallest chunk. */
  predicate Took(h: Heads, h': Heads, mem: nat, nb: nat)
  {
    && mem >= 16
    && var p := mem - 16;
    && p !in Live(h) && p in h' && Live(h') == Live(h)[p := h'[p].size]
    && nb <= h'[p].size < nb + MIN_CHUNK_SIZE
  }

  /** A chunk begins with two words, the size of a free chunk in front and its own head; what it lends out starts
      behind them and may reach over the first word of the next chunk, which is not in use then. */
  predicate Lends(p: Addr, size: nat, mem: nat, bytes: nat)
  {
    p + 16 <= mem && mem + bytes <= p + size + 8 && mem % 16 == 0
  }

  /** Exactly one more chunk is in use, and it lends the bytes at mem. */
  predicate LendsNew(h: Heads, h': Heads, mem: nat, bytes: nat)
  {
    exists p :: p in Live(h') && p !in Live(h) && Live(h) == Live(h') - {p} && Lends(p, Live(h')[p], mem, bytes)
  }

  lemma TookLends(h: Heads, h': Heads, f': map<Addr, nat>, base: Addr, end: Addr, top: Addr, topsize: nat, mem: nat, bytes: nat)
    requires Took(h, h', mem, ChunkSize(bytes)) && bytes < MAX_REQUEST && WellFormed(h', f', base, end, top, topsize)
    ensures LendsNew(h, h', mem, bytes) && mem >= 16 && mem - 16 in Live(h') && Lends(mem - 16, Live(h')[mem - 16], mem, bytes)
  {
    hide PadRequest, WellFormed;
    ChunkSizeFits(bytes);
    var p := mem - 16;
    SizeFacts(h', f', base, end, top, topsize, p);
    hide Tiled;
    assert Live(h) == Live(h') - {p};
  }

  lemma WholeTook(h: Heads, p: Addr, nb: nat)
    requires p in h && !h[p].cinuse && nb <= h[p].size < nb + MIN_CHUNK_SIZE
    ensures Took(h, TakeWhole(h, p, h[p].size), p + 16, nb)
  {
    TakeWholeEffect(h, p);
  }

  lemma PartTook(h: Heads, base: Addr, end: Addr, p: Addr, nb: nat)
    requires Tiled(h, base, end) && p in h && !h[p].cinuse && 0 < nb < h[p].size
    ensures Took(h, TakePart(h, p, nb, h[p].size), p + 16, nb)
  {
    hide Tiled;
    TakePartEffect(h, base, end, p, nb);
  }

  class Mspace {
    const base: Addr
    const end: Addr
    var heads: Heads
    var foots: map<Addr, nat>
    var small: SmallBins.Bins
    var trees: TreeBins.Bins
    var dv: Addr
    var dvsize: nat
    var top: Addr
    var topsize: nat

    /** `init_top` and `init_bins`: the whole segment is the top chunk. */
    constructor (base: Addr, size: nat)
      requires 0 < base && Aligned(base) && Aligned(size) && 0 < size && base + size < WORD
      ensures Valid() && Live(heads) == map[] && this.base == base && end == base + size
    {
      this.base, end := base, base + size;
      heads, foots := map[base := Head(size, false, true)], map[];
      small, trees := SmallBins.Bins(seq(32, _ => []), 0), TreeBins.Bins(seq(32, _ => Nil), 0);
      dv, dvsize, top, topsize := 0, 0, base, size;
      new;
      EmptyBins(small, trees);
      hide SmallBins.Valid, TreeBins.Valid, Binned, FreeSet, WellFormed;
      OneChunk(base, size);
    }

    function Loose(): multiset<Chunk>
      reads this
    {
      Binned(small, trees) + Victim(dv, dvsize)
    }

    function All(): multiset<Chunk>
      reads this
    {
      Binned(small, trees) + Victim(dv, dvsize) + multiset{Chunk(top, topsize)}
    }

    predicate BinsOk()
      reads this
    {
      SmallBins.Valid(small) && TreeBins.Valid(trees)
    }

    predicate Valid()
      reads this
    {
      && WellFormed(heads, foots, base, end, top, topsize) && BinsOk()
      && Indexed(heads, Binned(small, trees), Victim(dv, dvsize), Chunk(top, topsize))
      && (dvsize == 0 ==> dv == 0)
    }

    /** Everything holds except that the free chunk at p has been unlinked. */
    predicate ValidWithout(p: Addr, s: nat)
      reads this
    {
      && WellFormed(heads, foots, base, end, top, topsize) && BinsOk()
      && p in heads && heads[p].size == s && !heads[p].cinuse && p != top
      && All() + multiset{Chunk(p, s)} == multiset(FreeSet(heads))
      && (dvsize == 0 ==> dv == 0)
    }

    /** `unlink_chunk`. */
    method UnlinkChunk(p: Addr, s: nat)
      requires BinsOk() && Chunk(p, s) in Binned(small, trees)
      modifies this`small, this`trees
      ensures BinsOk() && Binned(small, trees) + multiset{Chunk(p, s)} == old(Binned(small, trees))
    {
      hide TreeBins.Chunks, SmallBins.ChunksFrom, TreeBins.Valid, SmallBins.Valid;
      BinCounts(small, trees);
      WhereBinned(small, trees, Chunk(p, s));
      if SmallBins.IsSmall(s) {
        SmallBins.UnlinkSmallOk(small, p, s);
        small := SmallBins.UnlinkSmall(small, p, s);
      } else {
        TreeBins.UnlinkLargeOk(trees, p, s);
        trees := TreeBins.UnlinkLarge(trees, p, s);
      }
    }

    /** `insert_chunk`. */
    method InsertChunk(p: Addr, s: nat)
      requires BinsOk() && Aligned(s) && s < WORD
      modifies this`small, this`trees
      ensures BinsOk() && Binned(small, trees) == old(Binned(small, trees)) + multiset{Chunk(p, s)}
      ensures SmallBins.IsSmall(s) ==> trees == old(trees)
    {
      hide TreeBins.Chunks, SmallBins.ChunksFrom, TreeBins.Valid;
      BinCounts(small, trees);
      if SmallBins.IsSmall(s) {
        SmallBins.InsertSmallOk(small, p, s);
        small := SmallBins.InsertSmall(small, p, s);
      } else {
        TreeBins.InsertLargeOk(trees, p, s);
        trees := TreeBins.InsertLarge(trees, p, s);
      }
    }

    /** `replace_dv`: the old victim, known to be small, goes to its bin. */
    method ReplaceDv(p: Addr, s: nat)
      requires BinsOk() && Aligned(dvsize) && SmallBins.IsSmall(dvsize) && s > 0
      modifies this`small, this`dv, this`dvsize
      ensures BinsOk() && dv == p && dvsize == s
      ensures Loose() == old(Loose()) + multiset{Chunk(p, s)}
    {
      hide TreeBins.Chunks, SmallBins.ChunksFrom, TreeBins.Valid;
      if dvsize != 0 {
        SmallBins.InsertSmallOk(small, dv, dvsize);
        small := SmallBins.InsertSmall(small, dv, dvsize);
      }
      dvsize, dv := s, p;
    }

    /** `set_inuse_and_pinuse` on an unlinked chunk that leaves no usable remainder. */
    method TakeChunk(p: Addr, s: nat, ghost nb: nat) returns (mem: nat)
      requires ValidWithout(p, s) && nb <= s < nb + MIN_CHUNK_SIZE
      modifies this`heads
      ensures Valid() && mem != 0 && Took(old(heads), heads, mem, nb)
    {
      hide WellFormed, TakeWhole, FreeSet, Took, Binned, SmallBins.Valid, TreeBins.Valid;
      WholeTaken(heads, foots, base, end, top, topsize, p);
      WholeIndexed(heads, p, multiset(FreeSet(heads)), All());
      WholeTook(heads, p, nb);
      heads := TakeWhole(heads, p, s);
      mem := p + MEM_OFFSET;
    }

    /** Splits an unlinked chunk; what is left becomes the designated victim. */
    method CarveForVictim(p: Addr, s: nat, nb: nat) returns (mem: nat)
      requires ValidWithout(p, s) && Aligned(nb) && MIN_CHUNK_SIZE <= nb <= s
      requires Aligned(dvsize) && SmallBins.IsSmall(dvsize)
      modifies this
      ensures Valid() && mem != 0 && Took(old(heads), heads, mem, nb)
    {
      hide WellFormed, TakePart, FreeSet, Took, Binned, Victim, Tiled, SmallBins.Valid, TreeBins.Valid, SmallBins.IsSmall, Aligned;
      var rsize := s - nb;
      if rsize < MIN_CHUNK_SIZE {
        mem := TakeChunk(p, s, nb);
      } else {
        var r := p + nb;
        ghost var h, loose := heads, Loose();
        SizeFacts(heads, foots, base, end, top, topsize, p);
        AlignedSum(s, nb);
        PartTaken(heads, foots, base, end, top, topsize, p, nb);
        PartTook(heads, base, end, p, nb);
        heads, foots := TakePart(heads, p, nb, s), foots[p + s := rsize];
        ReplaceDv(r, rsize);
        CarvedIndexed(h, base, end, p, nb, loose, Loose(), Chunk(top, topsize));
        mem := p + MEM_OFFSET;
      }
    }

    /** Splits an unlinked chunk; what is left goes to its bin. */
    method CarveForBin(p: Addr, s: nat, nb: nat) returns (mem: nat)
      requires ValidWithout(p, s) && Aligned(nb) && MIN_CHUNK_SIZE <= nb <= s
      modifies this
      ensures Valid() && mem != 0 && Took(old(heads), heads, mem, nb)
    {
      hide WellFormed, TakePart, FreeSet, Took, Binned, Victim, Tiled, SmallBins.Valid, TreeBins.Valid, SmallBins.IsSmall, Aligned;
      var rsize := s - nb;
      if rsize < MIN_CHUNK_SIZE {
        mem := TakeChunk(p, s, nb);
      } else {
        var r := p + nb;
        ghost var h, loose := heads, Loose();
        SizeFacts(heads, foots, base, end, top, topsize, p);
        AlignedSum(s, nb);
        PartTaken(heads, foots, base, end, top, topsize, p, nb);
        PartTook(heads, base, end, p, nb);
        heads, foots := TakePart(heads, p, nb, s), foots[p + s := rsize];
        InsertChunk(r, rsize);
        assert Loose() == loose + multiset{Chunk(r, rsize)};
        CarvedIndexed(h, base, end, p, nb, loose, Loose(), Chunk(top, topsize));
        mem := p + MEM_OFFSET;
      }
    }

    /** Takes a chunk out of its bin. */
    method Detach(p: Addr, s: nat)
      requires Valid() && Chunk(p, s) in Binned(small, trees)
      modifies this`small, this`trees
      ensures ValidWithout(p, s)
    {
      hide WellFormed, FreeSet, Binned, Victim, SmallBins.Valid, TreeBins.Valid;
      BinnedIsFree(heads, Binned(small, trees), Victim(dv, dvsize), Chunk(top, topsize), Chunk(p, s));
      UnlinkChunk(p, s);
    }

    /** `tmalloc_small`. */
    method TmallocSmall(nb: nat) returns (mem: nat)
      requires Valid() && Aligned(nb) && MIN_CHUNK_SIZE <= nb < MIN_LARGE_SIZE && trees.treemap != 0 && dvsize < nb
      modifies this
      ensures Valid() && mem != 0 && Took(old(heads), heads, mem, nb)
    {
      hide WellFormed, FreeSet, Victim, SmallBins.Valid, TreeBins.Valid, TreeBins.Chunks, SmallBins.Chunks, Took;
      var v := TreeBins.SmallestLarge(trees, nb);
      VictimFacts(heads, foots, base, end, top, topsize, Binned(small, trees), dv, dvsize);
      Detach(v.value.addr, v.value.size);
      mem := CarveForVictim(v.value.addr, v.value.size, nb);
    }

    /** `tmalloc_large`: declines only if no large chunk fits or the victim fits at least as well. */
    method TmallocLarge(nb: nat) returns (mem: nat)
      requires Valid() && Aligned(nb) && MIN_LARGE_SIZE <= nb < WORD
      modifies this
      ensures Valid() && (mem != 0 ==> Took(old(heads), heads, mem, nb))
      ensures mem == 0 ==> unchanged(this)
      ensures mem == 0 ==> forall c :: c in TreeBins.Chunks(trees.trees) && nb <= c.size ==> nb <= dvsize <= c.size
    {
      hide WellFormed, FreeSet, Victim, SmallBins.Valid, TreeBins.Valid, TreeBins.Chunks, SmallBins.Chunks;
      VictimFacts(heads, foots, base, end, top, topsize, Binned(small, trees), dv, dvsize);
      var v := TreeBins.ChooseLarge(trees, nb, dvsize);
      mem := 0;
      if v.Some? {
        Detach(v.value.addr, v.value.size);
        mem := CarveForBin(v.value.addr, v.value.size, nb);
      }
    }

    /** Takes the request from the designated victim. */
    method SplitDv(nb: nat) returns (mem: nat)
      requires Valid() && Aligned(nb) && MIN_CHUNK_SIZE <= nb <= dvsize
      modifies this
      ensures Valid() && mem != 0 && Took(old(heads), heads, mem, nb)
    {
      hide WellFormed, FreeSet, Binned, Took, TakePart, TakeWhole, Tiled, SmallBins.Valid, TreeBins.Valid, Aligned;
      VictimFacts(heads, foots, base, end, top, topsize, Binned(small, trees), dv, dvsize);
      var rsize, p := dvsize - nb, dv;
      ghost var h, bins := heads, Binned(small, trees);
      if rsize >= MIN_CHUNK_SIZE {
        SizeFacts(heads, foots, base, end, top, topsize, p);
        PartTaken(heads, foots, base, end, top, topsize, p, nb);
        PartTook(heads, base, end, p, nb);
        CarvedIndexed(heads, base, end, p, nb, bins, bins + multiset{Chunk(p + nb, rsize)}, Chunk(top, topsize));
        var r := p + nb;
        heads, foots := TakePart(heads, p, nb, dvsize), foots[p + dvsize := rsize];
        dv, dvsize := r, rsize;
      } else {
        var dvs := dvsize;
        WholeTaken(heads, foots, base, end, top, topsize, p);
        WholeTook(heads, p, nb);
        WholeIndexed(heads, p, multiset(FreeSet(heads)), bins + multiset{Chunk(top, topsize)});
        dvsize, dv := 0, 0;
        heads := TakeWhole(heads, p, dvs);
      }
      mem := p + MEM_OFFSET;
    }

    /** Takes the request from the top chunk, which never runs empty. */
    method SplitTop(nb: nat) returns (mem: nat)
      requires Valid() && Aligned(nb) && MIN_CHUNK_SIZE <= nb < topsize
      modifies this`heads, this`top, this`topsize
      ensures Valid() && mem != 0 && Took(old(heads), heads, mem, nb)
    {
      hide WellFormed, FreeSet, Binned, Victim, Took, TakePart, Tiled, SmallBins.Valid, TreeBins.Valid, Aligned;
      TopFacts(heads, foots, base, end, top, topsize);
      TopTaken(heads, foots, base, end, top, topsize, nb);
      PartTook(heads, base, end, top, nb);
      ghost var loose := Loose();
      PartIndexed(heads, base, end, top, nb, multiset(FreeSet(heads)), loose + multiset{Chunk(top + nb, topsize - nb)});
      var p := top;
      heads := TakePart(heads, p, nb, topsize);
      topsize := topsize - nb;
      top := p + nb;
      mem := p + MEM_OFFSET;
    }

    /** The small-bin part of a small request: an exact list or the next, then any larger list. */
    method SmallFromBins(nb: nat) returns (mem: nat)
      requires Valid() && Aligned(nb) && MIN_CHUNK_SIZE <= nb < MIN_LARGE_SIZE
      modifies this
      ensures Valid() && (mem != 0 ==> Took(old(heads), heads, mem, nb))
      ensures mem == 0 ==> unchanged(this)
      ensures mem == 0 && dvsize < nb ==> forall c :: c in Binned(small, trees) ==> c.size < nb
    {
      hide WellFormed, FreeSet, Victim, Took, BinMap.Meets, SmallBins.SmallBits, TreeBins.Valid, SmallBins.ChunksFrom, TreeBins.Chunks;
      mem := 0;
      var idx := nb / 8;
      assert idx + 1 < SmallBins.NSMALLBINS;
      var smallbits := SmallBins.SmallBits(small, idx);
      SmallBins.LowTwo(small, idx);
      VictimFacts(heads, foots, base, end, top, topsize, Binned(small, trees), dv, dvsize);
      if BinMap.Meets(smallbits, 3) {
        idx := idx + if BinMap.Meets(smallbits, 1) then 0 else 1;
        var p := small.lists[idx][0];
        FirstInList(small, trees, idx);
        Detach(p, 8 * idx);
        mem := TakeChunk(p, 8 * idx, nb);
      } else if nb > dvsize {
        SmallBins.NextList(small, idx);
        if smallbits != 0 {
          var i := BinMap.Lowest(SmallBins.LeftLists(small, idx));
          var p := small.lists[i][0];
          FirstInList(small, trees, i);
          Detach(p, 8 * i);
          mem := CarveForVictim(p, 8 * i, nb);
        } else if trees.treemap != 0 {
          mem := TmallocSmall(nb);
        } else {
          TreeBins.MapTellsEmpty(trees);
          ListsTooSmall(small, trees, nb);
        }
      }
    }

    /** `mspace_malloc`. It fails only if no free chunk can serve the request, and then changes
        nothing; otherwise exactly one chunk that was free is handed out. */
    method Malloc(bytes: nat) returns (mem: nat)
      requires Valid() && bytes < WORD
      modifies this
      ensures Valid()
      ensures mem != 0 ==> Took(old(heads), heads, mem, ChunkSize(bytes)) && bytes < MAX_REQUEST
      ensures mem != 0 ==> LendsNew(old(heads), heads, mem, bytes)
      ensures mem == 0 ==> unchanged(this) && NothingFits(heads, top, ChunkSize(bytes))
    {
      hide WellFormed, FreeSet, Victim, Took, Indexed, Binned, SmallBins.Valid, TreeBins.Valid, TreeBins.Chunks, Tiled,
        PadRequest, Aligned, NothingFits, LendsNew, Live;
      ChunkSizeFits(bytes);
      VictimFacts(heads, foots, base, end, top, topsize, Binned(small, trees), dv, dvsize);
      TopFacts(heads, foots, base, end, top, topsize);
      mem := 0;
      var nb;
      if bytes <= MAX_SMALL_REQUEST {
        nb := if bytes < MIN_REQUEST then MIN_CHUNK_SIZE else PadRequest(bytes);
        mem := SmallFromBins(nb);
      } else if bytes >= MAX_REQUEST {
        nb := WORD - 1;
      } else {
        nb := PadRequest(bytes);
        if trees.treemap != 0 {
          mem := TmallocLarge(nb);
        }
      }
      if mem != 0 {
        TookLends(old(heads), heads, foots, base, end, top, topsize, mem, bytes);
        return;
      }
      if nb <= dvsize {
        mem := SplitDv(nb);
      } else if nb < topsize {
        mem := SplitTop(nb);
      } else {
        if bytes >= MAX_REQUEST {
          NoneSoLarge(heads, foots, base, end, top, topsize);
        } else {
          if bytes > MAX_SMALL_REQUEST { LargeTooSmall(small, trees, dvsize, nb); }
          NoFit(heads, Binned(small, trees), dv, dvsize, top, topsize, nb);
        }
      }
      if mem != 0 { TookLends(old(heads), heads, foots, base, end, top, topsize, mem, bytes); }
    }

    /** The chunk at p0 is being freed: a free chunk in front has left the bins, unless it is the
        victim, and nothing else has happened yet. */
    predicate Freeing(p0: Addr)
      reads this
    {
      && WellFormed(heads, foots, base, end, top, topsize) && BinsOk() && (dvsize == 0 ==> dv == 0)
      && p0 in heads && heads[p0].cinuse
      && Indexed(heads, Binned(small, trees) + Held(heads, foots, dv, p0), Victim(dv, dvsize), Chunk(top, topsize))
    }

    /** The bytes in front of the top join it. */
    method FreeIntoTop(p: Addr, psize: nat, ghost p0: Addr)
      requires Freeing(p0) && p == SpanStart(heads, foots, p0) && p + psize == Next(heads, p0) == top
      modifies this`heads, this`top, this`topsize, this`dv, this`dvsize
      ensures Valid() && Live(heads) == Live(old(heads)) - {p0}
    {
      hide WellFormed, FreeSet, Live, Binned, SetFree, Freed, Tiled, SmallBins.Valid, TreeBins.Valid;
      hide BagBefore, BagAfter, SpanStart, SpanEnd;
      TopFacts(heads, foots, base, end, top, topsize);
      TopIsLast(heads, foots, base, end, top, topsize, p0);
      FreeingFacts(heads, foots, base, end, top, topsize, Binned(small, trees), dv, dvsize, p0);
      SetFreeIsFreed(heads, foots, base, end, top, topsize, p0);
      var tsize := topsize + psize;
      ghost var victim := if p == dv then multiset{} else Victim(dv, dvsize);
      Released(heads, foots, base, end, top, topsize, p0, Binned(small, trees) + victim + multiset{Chunk(p, tsize)});
      topsize, top := tsize, p;
      heads := SetFree(heads, p, tsize);
      if p == dv {
        dv, dvsize := 0, 0;
      }
    }

    /** The bytes in front of the victim join it. */
    method FreeIntoDv(p: Addr, psize: nat, ghost p0: Addr)
      requires Freeing(p0) && p == SpanStart(heads, foots, p0) && p + psize == Next(heads, p0) == dv && dv != top && p != dv
      modifies this`heads, this`foots, this`dv, this`dvsize
      ensures Valid() && Live(heads) == Live(old(heads)) - {p0}
    {
      hide WellFormed, FreeSet, Live, Binned, SetFree, Freed, Tiled, SmallBins.Valid, TreeBins.Valid;
      hide BagBefore, BagAfter, SpanStart, SpanEnd;
      FreeingFacts(heads, foots, base, end, top, topsize, Binned(small, trees), dv, dvsize, p0);
      VictimFacts(heads, foots, base, end, top, topsize, Binned(small, trees) + Held(heads, foots, dv, p0), dv, dvsize);
      SetFreeIsFreed(heads, foots, base, end, top, topsize, p0);
      NextOfFree(heads, foots, base, end, top, topsize, dv);
      var dsize := dvsize + psize;
      Released(heads, foots, base, end, top, topsize, p0, Binned(small, trees) + multiset{Chunk(p, dsize)} + multiset{Chunk(top, topsize)});
      dvsize, dv := dsize, p;
      heads, foots := SetFree(heads, p, dsize), foots[p + dsize := dsize];
    }

    /** The freed chunk is the grown victim or goes to its bin. */
    method Settle(p: Addr, s: nat, ghost p0: Addr, ghost h: Heads, ghost f: map<Addr, nat>)
      requires WellFormed(h, f, base, end, top, topsize) && p0 in h && h[p0].cinuse && (dvsize == 0 ==> dv == 0)
      requires p == SpanStart(h, f, p0) && p + s == SpanEnd(h, p0) <= top
      requires heads == Freed(h, p, s) && foots == f[p + s := s] && BinsOk()
      requires p == dv ==> BagBefore(h, f, p0) == Victim(dv, dvsize)
      requires Binned(small, trees) + Held(h, f, dv, p0) + BagAfter(h, p0) + Victim(dv, dvsize) + multiset{Chunk(top, topsize)}
            == multiset(FreeSet(h))
      modifies this`small, this`trees, this`dvsize
      ensures Valid() && Live(heads) == Live(h) - {p0}
    {
      hide WellFormed, FreeSet, Live, Binned, Freed, Tiled, SmallBins.Valid, TreeBins.Valid, SmallBins.IsSmall, Aligned;
      hide BagBefore, BagAfter, SpanStart, SpanEnd;
      Coalesced(h, f, base, end, top, topsize, p0);
      EndIsWord(h, f, base, end, top, topsize);
      ghost var bins, t, c := Binned(small, trees), multiset{Chunk(top, topsize)}, multiset{Chunk(p, s)};
      if p == dv {
        Released(h, f, base, end, top, topsize, p0, bins + c + t);
        dvsize := s;
      } else {
        Released(h, f, base, end, top, topsize, p0, bins + c + Victim(dv, dvsize) + t);
        InsertChunk(p, s);
      }
    }

    /** The free chunk behind leaves its bin and joins. */
    method FreeWithNext(p: Addr, psize: nat, ghost p0: Addr)
      requires Freeing(p0) && p == SpanStart(heads, foots, p0) && p + psize == Next(heads, p0)
      requires Next(heads, p0) in heads && !heads[Next(heads, p0)].cinuse && Next(heads, p0) != top && Next(heads, p0) != dv
      modifies this
      ensures Valid() && Live(heads) == Live(old(heads)) - {p0}
    {
      hide WellFormed, FreeSet, Live, Binned, SetFree, Freed, Tiled, SmallBins.Valid, TreeBins.Valid, Held, BagBefore, Victim;
      var next := p + psize;
      var nsize := heads[next].size;
      ghost var h, f := heads, foots;
      FreeingFacts(heads, foots, base, end, top, topsize, Binned(small, trees), dv, dvsize, p0);
      SetFreeIsFreed(heads, foots, base, end, top, topsize, p0);
      NextOfFree(heads, foots, base, end, top, topsize, next);
      NextIsBinned(heads, foots, base, end, top, topsize, Binned(small, trees), dv, dvsize, p0);
      UnlinkChunk(next, nsize);
      var s := psize + nsize;
      heads, foots := SetFree(heads, p, s), foots[p + s := s];
      Settle(p, s, p0, h, f);
    }

    /** Nothing free behind: the chunk, with any free chunk in front, becomes free. */
    method FreeAlone(p: Addr, psize: nat, ghost p0: Addr)
      requires Freeing(p0) && p == SpanStart(heads, foots, p0) && p + psize == Next(heads, p0)
      requires Next(heads, p0) in heads && heads[Next(heads, p0)].cinuse
      modifies this
      ensures Valid() && Live(heads) == Live(old(heads)) - {p0}
    {
      hide WellFormed, FreeSet, Live, Binned, Freed, Tiled, SmallBins.Valid, TreeBins.Valid, Held, BagBefore, Victim;
      ghost var h, f := heads, foots;
      FreeingFacts(heads, foots, base, end, top, topsize, Binned(small, trees), dv, dvsize, p0);
      NextOfLive(heads, foots, base, end, top, topsize, p0);
      heads, foots := Freed(heads, p, psize), foots[p + psize := psize];
      Settle(p, psize, p0, h, f);
    }

    /** `mspace_free`: gives back one chunk in use and leaves every other one alone. */
    method Free(mem: nat)
      requires Valid() && (mem != 0 ==> mem >= 16 && mem - 16 in Live(heads))
      modifies this
      ensures Valid()
      ensures mem == 0 ==> unchanged(this)
      ensures mem != 0 ==> Live(heads) == Live(old(heads)) - {mem - 16}
    {
      hide WellFormed, FreeSet, Binned, Freed, Tiled, SmallBins.Valid, TreeBins.Valid, Aligned, Indexed, Victim;
      if mem == 0 {
        return;
      }
      var p := mem - MEM_OFFSET;
      ghost var p0 := p;
      var psize := heads[p].size;
      var next := p + psize;
      NextOfLive(heads, foots, base, end, top, topsize, p);
      StartFreeing(heads, foots, base, end, top, topsize, Binned(small, trees), dv, dvsize, p0);
      if !heads[p].pinuse {
        PrevIsFree(heads, foots, base, end, top, topsize, p);
        var prevsize := foots[p];
        p, psize := p - prevsize, psize + prevsize;
        if p != dv {
          UnlinkChunk(p, prevsize);
        }
      }
      if !heads[next].cinuse {
        if next == top {
          FreeIntoTop(p, psize, p0);
        } else if next == dv {
          FreeIntoDv(p, psize, p0);
        } else {
          FreeWithNext(p, psize, p0);
        }
      } else {
        FreeAlone(p, psize, p0);
      }
    }

    /** Every range in use is lent by its own chunk. */
    predicate Backed(held: map<nat, nat>)
      reads this
    {
      forall mem :: mem in held ==> mem >= 16 && mem - 16 in Live(heads) && Lends(mem - 16, Live(heads)[mem - 16], mem, held[mem])
    }

    /** One request or release, given the memory that is held. */
    method Do(op: Op, ghost held: map<nat, nat>) returns (mem: nat)
      requires Valid() && Backed(held) && (op.Get? ==> op.bytes < WORD)
      modifies this
      ensures Valid() && OpOk(old(heads), op, mem, heads) && Backed(HeldNext(held, op, mem))
      ensures forall p :: p in Live(old(heads)) && Give(p + 16) != op ==> p in Live(heads) && Live(heads)[p] == Live(old(heads))[p]
    {
      hide Valid, Live, Lends, Took, LendsNew, NothingFits, TooSmall;
      ghost var h := heads;
      mem := 0;
      match op
      case Get(bytes) =>
        mem := Malloc(bytes);
        if mem != 0 { WhatWasTaken(h, mem, bytes); } else { NoneLarge(h, top, ChunkSize(bytes)); }
      case Give(m) =>
        if m >= 16 && m - 16 in Live(heads) {
          Free(m);
        }
    }

    /** Any sequence of requests and releases: each request gets new memory, or none and nothing is large enough;
        each release gives back its chunk. The memory obtained and not released is lent by chunks in use, and no two
        ranges overlap. Chunks that are never released stay where they are and keep their size. */
    method Run(ops: seq<Op>) returns (mems: seq<nat>, ghost segs: seq<Heads>)
      requires Valid() && forall k :: 0 <= k < |ops| && ops[k].Get? ==> ops[k].bytes < WORD
      modifies this
      ensures |mems| == |ops| == |segs| - 1 && segs[0] == old(heads) && segs[|ops|] == heads
      ensures forall k :: 0 <= k < |ops| ==> OpOk(segs[k], ops[k], mems[k], segs[k + 1])
      ensures Valid() && Backed(HeldAfter(ops, mems)) && NoOverlap(HeldAfter(ops, mems))
      ensures forall p :: p in Live(old(heads)) && Give(p + 16) !in ops ==> p in Live(heads) && Live(heads)[p] == Live(old(heads))[p]
    {
      hide Valid, Live, Lends, OpOk, HeldAfter, HeldNext;
      mems, segs := [], [heads];
      NothingHeld();
      for k := 0 to |ops|
        invariant |mems| == k && |segs| == k + 1 && segs[0] == old(heads) && segs[k] == heads
        invariant forall j :: 0 <= j < k ==> OpOk(segs[j], ops[j], mems[j], segs[j + 1])
        invariant Valid() && Backed(HeldAfter(ops[..k], mems))
        invariant forall p :: p in Live(old(heads)) && Give(p + 16) !in ops[..k] ==>
          p in Live(heads) && Live(heads)[p] == Live(old(heads))[p]
      {
        var mem := Do(ops[k], HeldAfter(ops[..k], mems));
        HeldStep(ops[..k], mems, ops[k], mem);
        mems, segs := mems + [mem], segs + [heads];
        assert ops[..k + 1] == ops[..k] + [ops[k]];
        assert segs[k + 1] == heads;
      }
      assert ops[..|ops|] == ops;
      HeldApart(HeldAfter(ops, mems));
    }

    lemma WhatWasTaken(h: Heads, mem: nat, bytes: nat)
      requires Valid() && Took(h, heads, mem, ChunkSize(bytes)) && bytes < MAX_REQUEST
      ensures mem >= 16 && mem - 16 in Live(heads) && Lends(mem - 16, Live(heads)[mem - 16], mem, bytes)
      ensures forall p :: p in Live(h) ==> p in Live(heads) && Live(heads)[p] == Live(h)[p] && p != mem - 16
    {
      hide WellFormed, Indexed, BinsOk, Binned, Lends, LendsNew;
      TookLends(h, heads, foots, base, end, top, topsize, mem, bytes);
    }

    lemma HeldApart(held: map<nat, nat>)
      requires Valid() && Backed(held)
      ensures NoOverlap(held)
    {
      hide WellFormed, Indexed, BinsOk, Binned;
      forall m, n | m in held && n in held && m < n ensures m + held[m] <= n {
        LiveApart(heads, foots, base, end, top, topsize, m - 16, n - 16);
      }
    }
  }

  predicate NoOverlap(held: map<nat, nat>)
  {
    forall m, n :: m in held && n in held && m < n ==> m + held[m] <= n
  }

  datatype Op = Get(bytes: nat) | Give(mem: nat)

  predicate TooSmall(h: Heads, nb: nat)
  {
    forall p :: p in h && !h[p].cinuse ==> h[p].size <= nb
  }

  lemma NoneLarge(h: Heads, top: Addr, nb: nat)
    requires NothingFits(h, top, nb)
    ensures TooSmall(h, nb)
  {
  }

  /** What one request or release does to the segment, given what it returned. */
  predicate OpOk(h: Heads, op: Op, mem: nat, h': Heads)
  {
    match op
    case Get(bytes) => if mem == 0 then h' == h && TooSmall(h, ChunkSize(bytes)) else LendsNew(h, h', mem, bytes)
    case Give(m) => if m >= 16 && m - 16 in Live(h) then Live(h') == Live(h) - {m - 16} else h' == h
  }

  /** The memory obtained and not released, with the sizes requested. */
  function HeldAfter(ops: seq<Op>, mems: seq<nat>): map<nat, nat>
    requires |ops| == |mems|
  {
    if ops == [] then map[]
    else
      var n := |ops| - 1;
      var held := HeldAfter(ops[..n], mems[..n]);
      HeldNext(held, ops[n], mems[n])
  }

  function HeldNext(held: map<nat, nat>, op: Op, mem: nat): map<nat, nat>
  {
    match op
    case Get(bytes) => if mem == 0 then held else held[mem := bytes]
    case Give(m) => held - {m}
  }

  lemma NothingHeld()
    ensures HeldAfter([], []) == map[]
  {
  }

  lemma HeldStep(ops: seq<Op>, mems: seq<nat>, op: Op, mem: nat)
    requires |ops| == |mems|
    ensures HeldAfter(ops + [op], mems + [mem]) == HeldNext(HeldAfter(ops, mems), op, mem)
  {
    assert (ops + [op])[..|ops|] == ops && (mems + [mem])[..|mems|] == mems;
  }

  /** Before anything is unlinked the held chunk is still in the bins. */
  lemma StartFreeing(h: Heads, f: map<Addr, nat>, base: Addr, end: Addr, top: Addr, topsize: nat,
                     bins: multiset<Chunk>, dv: Addr, dvsize: nat, p0: Addr)
    requires WellFormed(h, f, base, end, top, topsize) && p0 in h && h[p0].cinuse && (dvsize == 0 ==> dv == 0)
    requires Indexed(h, bins, Victim(dv, dvsize), Chunk(top, topsize))
    ensures Held(h, f, dv, p0) <= bins && dv != p0
    ensures forall b :: b + Held(h, f, dv, p0) == bins ==> Indexed(h, b + Held(h, f, dv, p0), Victim(dv, dvsize), Chunk(top, topsize))
  {
    hide WellFormed, Tiled, FreeSet;
    VictimFacts(h, f, base, end, top, topsize, bins, dv, dvsize);
    SizeFacts(h, f, base, end, top, topsize, p0);
    if SpanStart(h, f, p0) != p0 && SpanStart(h, f, p0) != dv {
      PrevIsFree(h, f, base, end, top, topsize, p0);
      var c := Chunk(p0 - f[p0], f[p0]);
      InFreeSet(h, c);
      FreeIsBinned(h, bins, Victim(dv, dvsize), Chunk(top, topsize), c);
    }
  }

  /** A free chunk behind that is neither victim nor top is in the bins. */
  lemma NextIsBinned(h: Heads, f: map<Addr, nat>, base: Addr, end: Addr, top: Addr, topsize: nat,
                     bins: multiset<Chunk>, dv: Addr, dvsize: nat, p0: Addr)
    requires WellFormed(h, f, base, end, top, topsize) && p0 in h && h[p0].cinuse && (dvsize == 0 ==> dv == 0)
    requires Indexed(h, bins + Held(h, f, dv, p0), Victim(dv, dvsize), Chunk(top, topsize))
    requires Next(h, p0) in h && !h[Next(h, p0)].cinuse && Next(h, p0) != top && Next(h, p0) != dv
    ensures Chunk(Next(h, p0), h[Next(h, p0)].size) in bins
  {
    hide WellFormed, FreeSet;
    var c := Chunk(Next(h, p0), h[Next(h, p0)].size);
    InFreeSet(h, c);
    FreeIsBinned(h, bins + Held(h, f, dv, p0), Victim(dv, dvsize), Chunk(top, topsize), c);
  }

  lemma EndIsWord(h: Heads, f: map<Addr, nat>, base: Addr, end: Addr, top: Addr, topsize: nat)
    requires WellFormed(h, f, base, end, top, topsize)
    ensures top <= end < WORD
  {
    hide Tiled, Tagged, Sized;
  }

  /** The chunk in front that has left the bins. */
  function Held(h: Heads, f: map<Addr, nat>, dv: Addr, p0: Addr): multiset<Chunk>
    requires p0 in h
  {
    if SpanStart(h, f, p0) == dv then multiset{} else BagBefore(h, f, p0)
  }

  /** The bags of the neighbours are what the victim's and the top's headers say. */
  lemma FreeingFacts(h: Heads, f: map<Addr, nat>, base: Addr, end: Addr, top: Addr, topsize: nat,
                     bins: multiset<Chunk>, dv: Addr, dvsize: nat, p0: Addr)
    requires WellFormed(h, f, base, end, top, topsize) && p0 in h && h[p0].cinuse && (dvsize == 0 ==> dv == 0)
    requires Indexed(h, bins + Held(h, f, dv, p0), Victim(dv, dvsize), Chunk(top, topsize))
    ensures SpanStart(h, f, p0) == dv ==> BagBefore(h, f, p0) == Victim(dv, dvsize)
    ensures Next(h, p0) in h && (Next(h, p0) == dv ==> BagAfter(h, p0) == Victim(dv, dvsize) && SpanEnd(h, p0) == dv + dvsize)
    ensures top in h && (Next(h, p0) == top ==> BagAfter(h, p0) == multiset{Chunk(top, topsize)} && SpanEnd(h, p0) == top + topsize)
  {
    hide WellFormed, Indexed, Tiled;
    VictimFacts(h, f, base, end, top, topsize, bins + Held(h, f, dv, p0), dv, dvsize);
    TopFacts(h, f, base, end, top, topsize);
    NextOfLive(h, f, base, end, top, topsize, p0);
    SizeFacts(h, f, base, end, top, topsize, p0);
    SizeFacts(h, f, base, end, top, topsize, Next(h, p0));
    if !h[p0].pinuse {
      PrevIsFree(h, f, base, end, top, topsize, p0);
      SizeFacts(h, f, base, end, top, topsize, p0 - f[p0]);
    }
  }

  /** No free chunk is large enough: none but the top has nb bytes, and the top has no byte more. */
  predicate NothingFits(h: Heads, top: Addr, nb: nat)
  {
    forall p :: p in h && !h[p].cinuse ==> if p == top then h[p].size <= nb else h[p].size < nb
  }

  lemma NoFit(h: Heads, bins: multiset<Chunk>, dv: Addr, dvsize: nat, top: Addr, topsize: nat, nb: nat)
    requires Indexed(h, bins, Victim(dv, dvsize), Chunk(top, topsize)) && dvsize < nb && topsize <= nb
    requires forall c :: c in bins ==> c.size < nb
    ensures NothingFits(h, top, nb)
  {
    hide FreeSet;
    var t := Chunk(top, topsize);
    forall p | p in h && !h[p].cinuse ensures if p == top then h[p].size <= nb else h[p].size < nb {
      var c := Chunk(p, h[p].size);
      InFreeSet(h, c);
      InFreeSet(h, t);
      assert t in bins + Victim(dv, dvsize) + multiset{t};
      if c !in Victim(dv, dvsize) && c != t { FreeIsBinned(h, bins, Victim(dv, dvsize), t, c); }
    }
  }

  lemma TopFacts(h: Heads, f: map<Addr, nat>, base: Addr, end: Addr, top: Addr, topsize: nat)
    requires WellFormed(h, f, base, end, top, topsize)
    ensures Tiled(h, base, end) && top in h && h[top] == Head(topsize, false, true) && topsize < WORD - 1 && top + topsize == end
  {
    hide Apart, Tagged;
    SizeFacts(h, f, base, end, top, topsize, top);
  }

  /** When the tree bins have no fit and the victim is too small, nothing binned fits a large request. */
  lemma LargeTooSmall(small: SmallBins.Bins, trees: TreeBins.Bins, dvsize: nat, nb: nat)
    requires SmallBins.Valid(small) && TreeBins.Valid(trees) && MIN_LARGE_SIZE <= nb && dvsize < nb
    requires trees.treemap == 0 || forall c :: c in TreeBins.Chunks(trees.trees) && nb <= c.size ==> nb <= dvsize <= c.size
    ensures forall c :: c in Binned(small, trees) ==> c.size < nb
  {
    if trees.treemap == 0 { TreeBins.MapTellsEmpty(trees); }
    hide TreeBins.Chunks, SmallBins.ChunksFrom, TreeBins.Valid, SmallBins.Valid;
    BinCounts(small, trees);
    forall c | c in Binned(small, trees) ensures c.size < nb {
      WhereBinned(small, trees, c);
    }
  }

  lemma NoneSoLarge(h: Heads, f: map<Addr, nat>, base: Addr, end: Addr, top: Addr, topsize: nat)
    requires WellFormed(h, f, base, end, top, topsize)
    ensures NothingFits(h, top, WORD - 1)
  {
    hide WellFormed;
    forall p | p in h ensures h[p].size < WORD - 1 { SizeFacts(h, f, base, end, top, topsize, p); }
  }

  lemma FirstInList(small: SmallBins.Bins, trees: TreeBins.Bins, i: nat)
    requires i < |small.lists| && small.lists[i] != []
    ensures Chunk(small.lists[i][0], 8 * i) in Binned(small, trees)
  {
    SmallBins.InList(small.lists, 0, Chunk(small.lists[i][0], 8 * i));
  }

  lemma ListsTooSmall(small: SmallBins.Bins, trees: TreeBins.Bins, nb: nat)
    requires TreeBins.Chunks(trees.trees) == multiset{}
    requires forall j :: nb / 8 <= j < |small.lists| ==> small.lists[j] == []
    ensures forall c :: c in Binned(small, trees) ==> c.size < nb
  {
    forall c | c in Binned(small, trees) ensures c.size < nb { SmallBins.InList(small.lists, 0, c); }
  }

  /** The victim's size is an aligned word, and zero stands for no victim. */
  lemma VictimFacts(h: Heads, f: map<Addr, nat>, base: Addr, end: Addr, top: Addr, topsize: nat, bins: multiset<Chunk>, dv: Addr, dvsize: nat)
    requires WellFormed(h, f, base, end, top, topsize) && Indexed(h, bins, Victim(dv, dvsize), Chunk(top, topsize))
    ensures Aligned(dvsize) && dvsize < WORD - 1 && (dvsize < MIN_LARGE_SIZE ==> SmallBins.IsSmall(dvsize))
    ensures dvsize > 0 ==> dv in h && h[dv].size == dvsize && !h[dv].cinuse && dv != top && dv > 0
  {
    hide WellFormed, FreeSet;
    if dvsize > 0 {
      VictimIsFree(h, bins, Victim(dv, dvsize), Chunk(top, topsize), Chunk(dv, dvsize));
      SizeFacts(h, f, base, end, top, topsize, dv);
    }
  }

  /** Sizes are words, and aligned. */
  lemma SizeFacts(h: Heads, f: map<Addr, nat>, base: Addr, end: Addr, top: Addr, topsize: nat, p: Addr)
    requires WellFormed(h, f, base, end, top, topsize) && p in h
    ensures Tiled(h, base, end) && Aligned(p) && Aligned(h[p].size) && 0 < h[p].size < WORD - 1 && p > 0
  {
    hide Apart, Tagged;
    assert TileAt(h, base, end, p) && SizedAt(p, h[p].size, top);
  }

  lemma OneChunk(base: Addr, size: nat)
    requires 0 < base && Aligned(base) && Aligned(size) && 0 < size && base + size < WORD
    ensures var h: Heads := map[base := Head(size, false, true)];
            WellFormed(h, map[], base, base + size, base, size) && FreeSet(h) == {Chunk(base, size)}
  {
    var h: Heads := map[base := Head(size, false, true)];
    forall c ensures c in FreeSet(h) <==> c == Chunk(base, size) { InFreeSet(h, c); }
  }

  lemma EmptyBins(small: SmallBins.Bins, trees: TreeBins.Bins)
    requires small == SmallBins.Bins(seq(32, _ => []), 0) && trees == TreeBins.Bins(seq(32, _ => Nil), 0)
    ensures SmallBins.Valid(small) && TreeBins.Valid(trees) && Binned(small, trees) == multiset{}
  {
    forall i: nat ensures !BinMap.Marked(0, i) { BinMap.NoMarks(i); }
    hide BinMap.Marked;
    forall c ensures c !in SmallBins.Chunks(small) { SmallBins.InList(small.lists, 0, c); }
    forall c ensures c !in TreeBins.Chunks(trees.trees) { TreeBins.InChunks(trees.trees, c); }
    hide TreeBins.Chunks, SmallBins.Chunks;
  }

  lemma BinCounts(small: SmallBins.Bins, trees: TreeBins.Bins)
    requires SmallBins.Valid(small) && TreeBins.Valid(trees)
    ensures |small.lists| == SmallBins.NSMALLBINS && |trees.trees| == NTREEBINS
  {
  }

  /** The size of a binned chunk tells where it is binned. */
  lemma WhereBinned(small: SmallBins.Bins, trees: TreeBins.Bins, c: Chunk)
    requires SmallBins.Valid(small) && TreeBins.Valid(trees) && c in Binned(small, trees)
    ensures if SmallBins.IsSmall(c.size) then c.size % 8 == 0 && c.addr in small.lists[c.size / 8]
            else c in TreeBins.Chunks(trees.trees)
  {
    SmallBins.InList(small.lists, 0, c);
    hide SmallBins.ChunksFrom, TreeBins.Chunks, TreeBins.Valid, ComputeTreeIndex;
    if c in TreeBins.Chunks(trees.trees) {
      var i := TreeBins.WhichBin(trees, c);
    }
  }

  // ----- Coalescing

  /** The chunk in front, if it is free. */
  function FreeBefore(h: Heads, f: map<Addr, nat>, p: Addr): set<Addr>
    requires p in h
  {
    if h[p].pinuse || p !in f || p < f[p] then {} else {p - f[p]}
  }

  /** The chunk behind, if it is free. */
  function FreeAfter(h: Heads, p: Addr): set<Addr>
    requires p in h
  {
    if Next(h, p) in h && !h[Next(h, p)].cinuse then {Next(h, p)} else {}
  }

  function SpanStart(h: Heads, f: map<Addr, nat>, p: Addr): Addr
    requires p in h
  {
    if h[p].pinuse || p !in f || p < f[p] then p else p - f[p]
  }

  function SpanEnd(h: Heads, p: Addr): Addr
    requires p in h
  {
    var n := Next(h, p);
    if n in h && !h[n].cinuse then Next(h, n) else n
  }

  /** A chunk in use is followed by a chunk and is not the top. */
  lemma NextOfLive(h: Heads, f: map<Addr, nat>, base: Addr, end: Addr, top: Addr, topsize: nat, p: Addr)
    requires WellFormed(h, f, base, end, top, topsize) && p in h && h[p].cinuse
    ensures Next(h, p) in h && h[Next(h, p)].pinuse && Next(h, p) <= top
  {
    hide WellFormed, Tiled;
    TagsOf(h, f, base, end, top, topsize, p);
    TopFacts(h, f, base, end, top, topsize);
    ApartOrder(h, f, base, end, top, topsize, p);
  }

  /** The top chunk is the last. */
  lemma ApartOrder(h: Heads, f: map<Addr, nat>, base: Addr, end: Addr, top: Addr, topsize: nat, p: Addr)
    requires WellFormed(h, f, base, end, top, topsize) && p in h && p != top
    ensures Next(h, p) <= top && Next(h, p) in h
  {
    hide Tagged, Sized;
    assert TileAt(h, base, end, p) && Apart(h, p, top) && TileAt(h, base, end, top);
  }

  /** A free chunk other than the top is followed by one in use that has its pinuse bit clear. */
  lemma NextOfFree(h: Heads, f: map<Addr, nat>, base: Addr, end: Addr, top: Addr, topsize: nat, p: Addr)
    requires WellFormed(h, f, base, end, top, topsize) && p in h && !h[p].cinuse && p != top
    ensures Next(h, p) in h && h[Next(h, p)].cinuse && !h[Next(h, p)].pinuse && Next(h, p) <= top && h[p].pinuse
  {
    hide Tiled, Sized, Apart;
    ApartOrder(h, f, base, end, top, topsize, p);
    assert TagsAt(h, f, p) && TagsAt(h, f, Next(h, p));
  }

  predicate FreePrev(h: Heads, f: map<Addr, nat>, top: Addr, p: Addr)
  {
    && p in f && 0 < f[p] <= p && p - f[p] in h && p - f[p] != top
    && h[p - f[p]] == Head(f[p], false, true)
  }

  /** A clear pinuse bit leads to the free chunk in front. */
  lemma PrevIsFree(h: Heads, f: map<Addr, nat>, base: Addr, end: Addr, top: Addr, topsize: nat, p: Addr)
    requires WellFormed(h, f, base, end, top, topsize) && p in h && !h[p].pinuse
    ensures FreePrev(h, f, top, p)
  {
    hide WellFormed, Tiled;
    TagsOf(h, f, base, end, top, topsize, p);
    TagsOf(h, f, base, end, top, topsize, p - f[p]);
    SizeFacts(h, f, base, end, top, topsize, p - f[p]);
    TopIsLast(h, f, base, end, top, topsize, p);
  }

  lemma TagsOf(h: Heads, f: map<Addr, nat>, base: Addr, end: Addr, top: Addr, topsize: nat, p: Addr)
    requires WellFormed(h, f, base, end, top, topsize) && p in h
    ensures TagsAt(h, f, p)
  {
  }

  lemma TopIsLast(h: Heads, f: map<Addr, nat>, base: Addr, end: Addr, top: Addr, topsize: nat, p: Addr)
    requires WellFormed(h, f, base, end, top, topsize) && p in h
    ensures top in h && p <= top < Next(h, top) == end
  {
    hide Tagged, Sized;
    assert TileAt(h, base, end, p) && Apart(h, p, top) && TileAt(h, base, end, top);
  }

  /** What a chunk in use and its free neighbours make up. */
  lemma Coalesced(h: Heads, f: map<Addr, nat>, base: Addr, end: Addr, top: Addr, topsize: nat, p0: Addr)
    requires WellFormed(h, f, base, end, top, topsize) && p0 in h && h[p0].cinuse
    ensures var p, e := SpanStart(h, f, p0), SpanEnd(h, p0);
            && p <= p0 < e && Span(h, end, p, e - p) && Aligned(e - p) && (e <= top || e == end)
  {
    hide WellFormed, Aligned, Tiled;
    SizeFacts(h, f, base, end, top, topsize, p0);
    NextOfLive(h, f, base, end, top, topsize, p0);
    var n := Next(h, p0);
    SizeFacts(h, f, base, end, top, topsize, n);
    TopIsLast(h, f, base, end, top, topsize, n);
    if !h[n].cinuse && n != top { NextOfFree(h, f, base, end, top, topsize, n); }
    if !h[p0].pinuse {
      PrevIsFree(h, f, base, end, top, topsize, p0);
      SizeFacts(h, f, base, end, top, topsize, p0 - f[p0]);
    }
    SpanAligned(h, f, p0);
    NoStartAtEndOf(h, f, base, end, top, topsize);
  }

  lemma NoStartAtEndOf(h: Heads, f: map<Addr, nat>, base: Addr, end: Addr, top: Addr, topsize: nat)
    requires WellFormed(h, f, base, end, top, topsize)
    ensures end !in h
  {
    NoStartAtEnd(h, base, end);
  }

  lemma SpanAligned(h: Heads, f: map<Addr, nat>, p: Addr)
    requires p in h && Aligned(h[p].size) && (Next(h, p) in h ==> Aligned(h[Next(h, p)].size))
    requires !h[p].pinuse && p in f ==> Aligned(f[p])
    ensures SpanStart(h, f, p) <= SpanEnd(h, p) && Aligned(SpanEnd(h, p) - SpanStart(h, f, p))
  {
  }

  lemma CoalescedMadeOf(h: Heads, f: map<Addr, nat>, base: Addr, end: Addr, top: Addr, topsize: nat, p0: Addr)
    requires WellFormed(h, f, base, end, top, topsize) && p0 in h && h[p0].cinuse
    ensures var p, e := SpanStart(h, f, p0), SpanEnd(h, p0);
            p <= e && MadeOf(h, p, e - p, p0, FreeBefore(h, f, p0) + FreeAfter(h, p0))
  {
    hide WellFormed, Tiled, Aligned;
    Coalesced(h, f, base, end, top, topsize, p0);
    SizeFacts(h, f, base, end, top, topsize, p0);
    var p, n, e := SpanStart(h, f, p0), Next(h, p0), SpanEnd(h, p0);
    NextOfLive(h, f, base, end, top, topsize, p0);
    SizeFacts(h, f, base, end, top, topsize, n);
    if p < p0 { PrevIsFree(h, f, base, end, top, topsize, p0); }
    forall q | q in h ensures p <= q < e <==> q == p0 || q in FreeBefore(h, f, p0) + FreeAfter(h, p0) {
      if p <= q < p0 {
        OnlyStart(h, base, end, p, q);
      } else if p0 <= q < n {
        OnlyStart(h, base, end, p0, q);
      } else if n <= q < e {
        OnlyStart(h, base, end, n, q);
      }
    }
  }

  /** The free chunk in front as it stands in the bins, if there is one. */
  function BagBefore(h: Heads, f: map<Addr, nat>, p: Addr): multiset<Chunk>
    requires p in h
  {
    if SpanStart(h, f, p) == p then multiset{} else multiset{Chunk(SpanStart(h, f, p), p - SpanStart(h, f, p))}
  }

  function BagAfter(h: Heads, p: Addr): multiset<Chunk>
    requires p in h
  {
    var n := Next(h, p);
    if n in h && !h[n].cinuse then multiset{Chunk(n, h[n].size)} else multiset{}
  }

  /** `set_size_and_pinuse_of_free_chunk` without the footer. */
  function SetFree(h: Heads, p: Addr, s: nat): Heads
  {
    Forget(h[p := Head(s, false, true)], p, s)
  }

  /** Clearing the next pinuse bit is needed only behind a chunk that was in use. */
  lemma SetFreeIsFreed(h: Heads, f: map<Addr, nat>, base: Addr, end: Addr, top: Addr, topsize: nat, p0: Addr)
    requires WellFormed(h, f, base, end, top, topsize) && p0 in h && h[p0].cinuse && Next(h, p0) in h && !h[Next(h, p0)].cinuse
    ensures var p, e := SpanStart(h, f, p0), SpanEnd(h, p0);
            p < e && SetFree(h, p, e - p) == Freed(h, p, e - p)
  {
    hide WellFormed, Aligned;
    Coalesced(h, f, base, end, top, topsize, p0);
    var n := Next(h, p0);
    if n == top {
      TopIsLast(h, f, base, end, top, topsize, top);
      NoStartAtEndOf(h, f, base, end, top, topsize);
    } else {
      NextOfFree(h, f, base, end, top, topsize, n);
    }
  }

  lemma GoneBag(h: Heads, f: map<Addr, nat>, base: Addr, end: Addr, top: Addr, topsize: nat, p0: Addr)
    requires WellFormed(h, f, base, end, top, topsize) && p0 in h && h[p0].cinuse
    ensures forall q :: q in FreeBefore(h, f, p0) + FreeAfter(h, p0) ==> q in h
    ensures multiset(set q | q in FreeBefore(h, f, p0) + FreeAfter(h, p0) :: Chunk(q, h[q].size))
         == BagBefore(h, f, p0) + BagAfter(h, p0)
  {
    hide WellFormed, FreeBefore, FreeAfter, BagBefore, BagAfter, Tiled, Aligned;
    var x, y := FreeBefore(h, f, p0), FreeAfter(h, p0);
    BeforeBag(h, f, base, end, top, topsize, p0);
    AfterBag(h, f, base, end, top, topsize, p0);
    var a, b := set q | q in x :: Chunk(q, h[q].size), set q | q in y :: Chunk(q, h[q].size);
    assert (set q | q in x + y :: Chunk(q, h[q].size)) == a + b;
    BagOfUnion(a, b);
  }

  lemma BeforeBag(h: Heads, f: map<Addr, nat>, base: Addr, end: Addr, top: Addr, topsize: nat, p0: Addr)
    requires WellFormed(h, f, base, end, top, topsize) && p0 in h && h[p0].cinuse
    ensures forall q :: q in FreeBefore(h, f, p0) ==> q in h && q < p0
    ensures multiset(set q | q in FreeBefore(h, f, p0) :: Chunk(q, h[q].size)) == BagBefore(h, f, p0)
  {
    hide WellFormed;
    if !h[p0].pinuse { PrevIsFree(h, f, base, end, top, topsize, p0); }
    SizeFacts(h, f, base, end, top, topsize, p0);
    hide Tiled, Aligned;
    var x := set q | q in FreeBefore(h, f, p0) :: Chunk(q, h[q].size);
    assert x == if h[p0].pinuse then {} else {Chunk(p0 - f[p0], f[p0])};
  }

  lemma AfterBag(h: Heads, f: map<Addr, nat>, base: Addr, end: Addr, top: Addr, topsize: nat, p0: Addr)
    requires WellFormed(h, f, base, end, top, topsize) && p0 in h && h[p0].cinuse
    ensures forall q :: q in FreeAfter(h, p0) ==> q in h && q > p0
    ensures multiset(set q | q in FreeAfter(h, p0) :: Chunk(q, h[q].size)) == BagAfter(h, p0)
  {
    hide WellFormed, Tiled, Aligned;
    SizeFacts(h, f, base, end, top, topsize, p0);
    var n, y := Next(h, p0), set q | q in FreeAfter(h, p0) :: Chunk(q, h[q].size);
    assert y == if n in h && !h[n].cinuse then {Chunk(n, h[n].size)} else {};
  }

  lemma BagOfUnion(a: set<Chunk>, b: set<Chunk>)
    requires a !! b
    ensures multiset(a + b) == multiset(a) + multiset(b)
  {
    SetApart(a + b, b);
    assert a + b - b == a;
  }

  /** All but the new free chunk being accounted for, the segment and its index are whole again. */
  lemma Released(h: Heads, f: map<Addr, nat>, base: Addr, end: Addr, top: Addr, topsize: nat, p0: Addr, all: multiset<Chunk>)
    requires WellFormed(h, f, base, end, top, topsize) && p0 in h && h[p0].cinuse
    requires SpanStart(h, f, p0) <= SpanEnd(h, p0)
    requires var p, e := SpanStart(h, f, p0), SpanEnd(h, p0);
             all + BagBefore(h, f, p0) + BagAfter(h, p0) == multiset(FreeSet(h)) + multiset{Chunk(p, e - p)}
    ensures var p, e := SpanStart(h, f, p0), SpanEnd(h, p0);
            && all == multiset(FreeSet(Freed(h, p, e - p))) && Live(Freed(h, p, e - p)) == Live(h) - {p0}
            && (e <= top ==> WellFormed(Freed(h, p, e - p), f[e := e - p], base, end, top, topsize))
            && (e == end ==> WellFormed(Freed(h, p, e - p), f, base, end, p, e - p))
  {
    hide WellFormed, Aligned, Freed, FreeSet, Live, Span, MadeOf;
    var p, e := SpanStart(h, f, p0), SpanEnd(h, p0);
    Coalesced(h, f, base, end, top, topsize, p0);
    CoalescedMadeOf(h, f, base, end, top, topsize, p0);
    GoneBag(h, f, base, end, top, topsize, p0);
    var ks := FreeBefore(h, f, p0) + FreeAfter(h, p0);
    var gone := set q | q in ks :: Chunk(q, h[q].size);
    hide BagBefore, BagAfter, SpanStart, SpanEnd, FreeBefore, FreeAfter;
    FreedIndexed(h, p, e - p, p0, ks, gone, multiset(FreeSet(h)), all);
    if e <= top { SpanFreed(h, f, base, end, top, topsize, p, e - p); }
    TopIsLast(h, f, base, end, top, topsize, p0);
    if e == end { TopFreed(h, f, base, end, top, topsize, p, e - p); }
  }

  // ----- What a valid mspace means

  lemma PairApart(h: Heads, f: map<Addr, nat>, base: Addr, end: Addr, top: Addr, topsize: nat, p: Addr, q: Addr)
    requires WellFormed(h, f, base, end, top, topsize) && p in h && q in h
    ensures Apart(h, p, q) && base <= p
  {
    hide Tagged, Sized;
    assert TileAt(h, base, end, p);
  }

  /** Chunks in use are disjoint and lie in the segment, aligned. */
  lemma LiveApart(h: Heads, f: map<Addr, nat>, base: Addr, end: Addr, top: Addr, topsize: nat, p: Addr, q: Addr)
    requires WellFormed(h, f, base, end, top, topsize) && p in Live(h) && q in Live(h) && p < q
    ensures base <= p && p + Live(h)[p] <= q && q + Live(h)[q] <= top && (p + 16) % 16 == 0
  {
    hide WellFormed, Tiled;
    PairApart(h, f, base, end, top, topsize, p, q);
    NextOfLive(h, f, base, end, top, topsize, q);
    SizeFacts(h, f, base, end, top, topsize, p);
  }

  /** The bytes that a chunk in use may lend touch nothing else: no head, no other chunk's lendable bytes, and of
      a free chunk neither the links in its body nor the size behind it. */
  lemma LentBytesAreApart(h: Heads, f: map<Addr, nat>, base: Addr, end: Addr, top: Addr, topsize: nat, p: Addr, x: Addr, q: Addr)
    requires WellFormed(h, f, base, end, top, topsize) && p in Live(h) && p + 16 <= x < p + Live(h)[p] + 8 && q in h
    ensures base <= x < end
    ensures !(q + 8 <= x < q + 16)
    ensures q in Live(h) && q != p ==> !(q + 16 <= x < q + Live(h)[q] + 8)
    ensures !h[q].cinuse && q != top ==> !(q + 16 <= x < q + h[q].size + 8)
  {
    hide WellFormed, Tiled;
    PairApart(h, f, base, end, top, topsize, p, q);
    PairApart(h, f, base, end, top, topsize, q, p);
    NextOfLive(h, f, base, end, top, topsize, p);
    TopFacts(h, f, base, end, top, topsize);
    SizeFacts(h, f, base, end, top, topsize, p);
    SizeFacts(h, f, base, end, top, topsize, q);
    SizeFacts(h, f, base, end, top, topsize, top);
  }

  /** No two neighbours are both free. */
  lemma NoAdjacentFree(h: Heads, f: map<Addr, nat>, base: Addr, end: Addr, top: Addr, topsize: nat, p: Addr)
    requires WellFormed(h, f, base, end, top, topsize) && p in h && Next(h, p) in h
    ensures h[p].cinuse || h[Next(h, p)].cinuse
  {
    hide WellFormed;
    TagsOf(h, f, base, end, top, topsize, p);
    TagsOf(h, f, base, end, top, topsize, Next(h, p));
  }

  /** Each free chunk is in exactly one of its small bin, its tree bin, the victim and the top; what is
      in use is in none of them. */
  lemma InExactlyOnePlace(h: Heads, small: SmallBins.Bins, trees: TreeBins.Bins, dv: Addr, dvsize: nat, top: Addr, topsize: nat, c: Chunk)
    requires Indexed(h, Binned(small, trees), Victim(dv, dvsize), Chunk(top, topsize))
    ensures SmallBins.Chunks(small)[c] + TreeBins.Chunks(trees.trees)[c] + Victim(dv, dvsize)[c] + multiset{Chunk(top, topsize)}[c]
         == if c.addr in h && !h[c.addr].cinuse && h[c.addr].size == c.size then 1 else 0
  {
    InFreeSet(h, c);
    hide SmallBins.Chunks, TreeBins.Chunks, FreeSet;
    assert multiset(FreeSet(h))[c] == if c in FreeSet(h) then 1 else 0;
  }
}
