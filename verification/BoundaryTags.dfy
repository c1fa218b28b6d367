/** Chunk headers and footers inside one segment: how chunks tile it, and how taking and freeing a
    chunk rewrites the boundary tags. A header that is merged away leaves the map, so nothing can
    read it afterwards. */
module BoundaryTags {
  import opened BinTrie

  datatype Head = Head(size: nat, cinuse: bool, pinuse: bool)

  type Heads = map<Addr, Head>

  /** `next_chunk`. */
  function Next(h: Heads, p: Addr): Addr
    requires p in h
  {
    p + h[p].size
  }

  /** A chunk ends where the next one starts or at the end of the segment. */
  predicate TileAt(h: Heads, base: Addr, end: Addr, p: Addr)
    requires p in h
  {
    base <= p && h[p].size > 0 && Next(h, p) <= end && (Next(h, p) == end || Next(h, p) in h)
  }

  predicate Apart(h: Heads, p: Addr, q: Addr)
    requires p in h && q in h
  {
    (p < q ==> Next(h, p) <= q) && (q < p ==> Next(h, q) <= p)
  }

  /** Chunks fill the segment without overlapping. */
  predicate Tiled(h: Heads, base: Addr, end: Addr)
  {
    && base in h && h[base].pinuse
    && (forall p :: p in h ==> TileAt(h, base, end, p))
    && (forall p, q :: p in h && q in h ==> Apart(h, p, q))
  }

  /** The tags around a chunk agree: its cinuse bit is the next chunk's pinuse bit, if it is free its
      size is in the footer behind it, it and the chunk in front are not both free, and a clear
      pinuse bit leads back to the chunk in front. */
  predicate TagsAt(h: Heads, f: map<Addr, nat>, p: Addr)
    requires p in h
  {
    && (h[p].cinuse || h[p].pinuse)
    && (Next(h, p) in h ==> h[Next(h, p)].pinuse == h[p].cinuse)
    && (Next(h, p) in h && !h[p].cinuse ==> Next(h, p) in f && f[Next(h, p)] == h[p].size)
    && (!h[p].pinuse ==> p in f && f[p] <= p && p - f[p] in h && h[p - f[p]].size == f[p])
  }

  predicate Tagged(h: Heads, f: map<Addr, nat>)
  {
    forall p :: p in h ==> TagsAt(h, f, p)
  }

  function FreeSet(h: Heads): set<Chunk>
  {
    set p | p in h && !h[p].cinuse :: Chunk(p, h[p].size)
  }

  /** The chunks in use. */
  function Live(h: Heads): map<Addr, nat>
  {
    map p | p in h && h[p].cinuse :: h[p].size
  }

  function SetPinuse(h: Heads, p: Addr, b: bool): Heads
  {
    if p in h then h[p := h[p].(pinuse := b)] else h
  }

  /** `set_inuse_and_pinuse` on the whole of a free chunk. */
  function TakeWhole(h: Heads, p: Addr, s: nat): Heads
  {
    SetPinuse(h[p := Head(s, true, true)], p + s, true)
  }

  /** The headers after nb bytes at the front of a free chunk of s bytes are taken. */
  function TakePart(h: Heads, p: Addr, nb: nat, s: nat): Heads
    requires nb <= s
  {
    h[p := Head(nb, true, true)][p + nb := Head(s - nb, false, true)]
  }

  /** Headers strictly inside the chunk at p are headers no more. */
  function Forget(h: Heads, p: Addr, s: nat): Heads
  {
    map q | q in h && !(p < q < p + s) :: h[q]
  }

  /** The headers after the bytes from p to p + s became one free chunk. */
  function Freed(h: Heads, p: Addr, s: nat): Heads
  {
    SetPinuse(Forget(h[p := Head(s, false, true)], p, s), p + s, false)
  }

  // ----- Taking a chunk

  lemma TakeWholeAt(h: Heads, f: map<Addr, nat>, base: Addr, end: Addr, p: Addr, q: Addr)
    requires p in h && q in h && Apart(h, p, q) && TileAt(h, base, end, q) && TileAt(h, base, end, p)
    requires TagsAt(h, f, p) && TagsAt(h, f, q) && !h[p].cinuse
    ensures TileAt(TakeWhole(h, p, h[p].size), base, end, q) && TagsAt(TakeWhole(h, p, h[p].size), f, q)
  {
  }

  lemma TakeWholeOk(h: Heads, f: map<Addr, nat>, base: Addr, end: Addr, p: Addr)
    requires Tiled(h, base, end) && Tagged(h, f) && p in h && !h[p].cinuse
    ensures Tiled(TakeWhole(h, p, h[p].size), base, end) && Tagged(TakeWhole(h, p, h[p].size), f)
  {
    hide TagsAt, TileAt;
    var h' := TakeWhole(h, p, h[p].size);
    forall q | q in h' ensures TileAt(h', base, end, q) && TagsAt(h', f, q) { TakeWholeAt(h, f, base, end, p, q); }
    forall q, r | q in h' && r in h' ensures Apart(h', q, r) { assert Apart(h, q, r); }
  }

  /** What is known about a chunk q in a well-formed segment in which chunk p is to change. */
  predicate Around(h: Heads, f: map<Addr, nat>, base: Addr, end: Addr, p: Addr, q: Addr)
    requires p in h && q in h
  {
    && TileAt(h, base, end, p) && TileAt(h, base, end, q) && Apart(h, p, q)
    && TagsAt(h, f, p) && TagsAt(h, f, q) && (!h[q].pinuse ==> Apart(h, p, q - f[q]))
  }

  lemma AroundAll(h: Heads, f: map<Addr, nat>, base: Addr, end: Addr, p: Addr, q: Addr)
    requires Tiled(h, base, end) && Tagged(h, f) && p in h && q in h
    ensures Around(h, f, base, end, p, q)
  {
    hide Apart, TileAt;
    assert TagsAt(h, f, q);
  }

  lemma TakePartAt(h: Heads, f: map<Addr, nat>, base: Addr, end: Addr, p: Addr, nb: nat, q: Addr)
    requires p in h && q in h && Around(h, f, base, end, p, q) && !h[p].cinuse && 0 < nb < h[p].size
    ensures var h', f' := TakePart(h, p, nb, h[p].size), f[Next(h, p) := h[p].size - nb];
            TileAt(h', base, end, q) && TagsAt(h', f', q)
  {
  }

  lemma TakePartRest(h: Heads, f: map<Addr, nat>, base: Addr, end: Addr, p: Addr, nb: nat)
    requires p in h && 0 < nb < h[p].size && TileAt(h, base, end, p) && TagsAt(h, f, p) && !h[p].cinuse
    ensures var h', f' := TakePart(h, p, nb, h[p].size), f[Next(h, p) := h[p].size - nb];
            TileAt(h', base, end, p + nb) && TagsAt(h', f', p + nb)
  {
  }

  lemma TakePartApart(h: Heads, base: Addr, end: Addr, p: Addr, nb: nat, q: Addr, r: Addr)
    requires Tiled(h, base, end) && p in h && 0 < nb < h[p].size
    requires q in TakePart(h, p, nb, h[p].size) && r in TakePart(h, p, nb, h[p].size)
    ensures Apart(TakePart(h, p, nb, h[p].size), q, r)
  {
    hide TileAt;
    if q in h && r in h {
      assert Apart(h, q, r);
    }
    if q in h { assert Apart(h, p, q); }
    if r in h { assert Apart(h, p, r); }
  }

  /** Splitting a free chunk in two, the front in use, the rest free. */
  lemma TakePartOk(h: Heads, f: map<Addr, nat>, base: Addr, end: Addr, p: Addr, nb: nat)
    requires Tiled(h, base, end) && Tagged(h, f) && p in h && !h[p].cinuse && 0 < nb < h[p].size
    ensures var h', f' := TakePart(h, p, nb, h[p].size), f[Next(h, p) := h[p].size - nb];
            Tiled(h', base, end) && Tagged(h', f')
  {
    hide TagsAt, TileAt, Apart, Around;
    var h', f' := TakePart(h, p, nb, h[p].size), f[Next(h, p) := h[p].size - nb];
    forall q | q in h' ensures TileAt(h', base, end, q) && TagsAt(h', f', q) {
      AroundAll(h, f, base, end, p, if q in h then q else p);
      if q in h { TakePartAt(h, f, base, end, p, nb, q); } else { TakePartRest(h, f, base, end, p, nb); }
    }
    forall q, r | q in h' && r in h' ensures Apart(h', q, r) { TakePartApart(h, base, end, p, nb, q, r); }
  }

  // ----- Freeing a chunk

  /** The bytes from p to p + s are whole chunks, with nothing free on either side. */
  predicate Span(h: Heads, end: Addr, p: Addr, s: nat)
  {
    && p in h && h[p].size <= s && (p + s in h || p + s == end)
    && h[p].pinuse && (p + s in h ==> h[p + s].cinuse)
  }

  lemma FreedTile(h: Heads, f: map<Addr, nat>, base: Addr, end: Addr, p: Addr, s: nat, q: Addr)
    requires Span(h, end, p, s) && q in Freed(h, p, s) && Around(h, f, base, end, p, q)
    requires p + s in h ==> Around(h, f, base, end, p + s, q)
    ensures TileAt(Freed(h, p, s), base, end, q)
  {
  }

  lemma FreedTags(h: Heads, f: map<Addr, nat>, base: Addr, end: Addr, p: Addr, s: nat, q: Addr)
    requires Span(h, end, p, s) && q in Freed(h, p, s) && Around(h, f, base, end, p, q)
    requires p + s in h ==> Around(h, f, base, end, p + s, q)
    ensures TagsAt(Freed(h, p, s), f[p + s := s], q)
  {
  }

  lemma BaseStays(h: Heads, base: Addr, end: Addr, p: Addr, s: nat)
    requires Tiled(h, base, end) && Span(h, end, p, s)
    ensures base in Freed(h, p, s) && Freed(h, p, s)[base].pinuse
  {
    assert TileAt(h, base, end, p);
  }

  lemma FreedApart(h: Heads, base: Addr, end: Addr, p: Addr, s: nat, q: Addr, r: Addr)
    requires Tiled(h, base, end) && Span(h, end, p, s) && q in Freed(h, p, s) && r in Freed(h, p, s)
    ensures Apart(Freed(h, p, s), q, r)
  {
    assert Apart(h, q, r) && Apart(h, p, q) && Apart(h, p, r);
    if p + s in h { assert Apart(h, q, p + s) && Apart(h, p + s, r); }
    hide Tiled;
  }

  /** Turning whole chunks into one free chunk. */
  lemma FreedOk(h: Heads, f: map<Addr, nat>, base: Addr, end: Addr, p: Addr, s: nat)
    requires Tiled(h, base, end) && Tagged(h, f) && Span(h, end, p, s)
    ensures Tiled(Freed(h, p, s), base, end) && Tagged(Freed(h, p, s), f[p + s := s])
  {
    hide TagsAt, TileAt, Apart, Around;
    var h', f' := Freed(h, p, s), f[p + s := s];
    assert base in h' && h'[base].pinuse by { BaseStays(h, base, end, p, s); }
    forall q | q in h' ensures TileAt(h', base, end, q) && TagsAt(h', f', q) {
      AroundAll(h, f, base, end, p, q);
      if p + s in h { AroundAll(h, f, base, end, p + s, q); }
      FreedTile(h, f, base, end, p, s, q);
      FreedTags(h, f, base, end, p, s, q);
    }
    forall q, r | q in h' && r in h' ensures Apart(h', q, r) { FreedApart(h, base, end, p, s, q, r); }
  }

  // ----- Which chunks are free and which in use

  lemma InFreeSet(h: Heads, c: Chunk)
    ensures c in FreeSet(h) <==> c.addr in h && !h[c.addr].cinuse && h[c.addr].size == c.size
  {
  }

  lemma TakeWholeEffect(h: Heads, p: Addr)
    requires p in h && !h[p].cinuse
    ensures var h' := TakeWhole(h, p, h[p].size);
            FreeSet(h') == FreeSet(h) - {Chunk(p, h[p].size)} && Live(h') == Live(h)[p := h[p].size]
  {
    var h' := TakeWhole(h, p, h[p].size);
    forall c ensures c in FreeSet(h') <==> c in FreeSet(h) - {Chunk(p, h[p].size)} {
      InFreeSet(h, c);
      InFreeSet(h', c);
    }
  }

  lemma NoStartInside(h: Heads, base: Addr, end: Addr, p: Addr, q: Addr)
    requires Tiled(h, base, end) && p in h && p < q < Next(h, p)
    ensures q !in h
  {
    if q in h { OnlyStart(h, base, end, p, q); }
  }

  lemma TakePartEffect(h: Heads, base: Addr, end: Addr, p: Addr, nb: nat)
    requires Tiled(h, base, end) && p in h && !h[p].cinuse && 0 < nb < h[p].size
    ensures var h', s := TakePart(h, p, nb, h[p].size), h[p].size;
            && FreeSet(h') == FreeSet(h) - {Chunk(p, s)} + {Chunk(p + nb, s - nb)} && Live(h') == Live(h)[p := nb]
            && Chunk(p + nb, s - nb) !in FreeSet(h)
  {
    hide Tiled;
    NoStartInside(h, base, end, p, p + nb);
    var h', s := TakePart(h, p, nb, h[p].size), h[p].size;
    forall c ensures c in FreeSet(h') <==> c in FreeSet(h) - {Chunk(p, s)} + {Chunk(p + nb, s - nb)} {
      InFreeSet(h, c);
      InFreeSet(h', c);
    }
  }

  /** The chunks ks around the chunk p0 in use make up the bytes from p to p + s. */
  predicate MadeOf(h: Heads, p: Addr, s: nat, p0: Addr, ks: set<Addr>)
  {
    && p in h && p0 in h && h[p0].cinuse
    && (forall q :: q in ks ==> q in h && !h[q].cinuse)
    && forall q :: q in h ==> (p <= q < p + s <==> q == p0 || q in ks)
  }

  lemma FreedEffect(h: Heads, p: Addr, s: nat, p0: Addr, ks: set<Addr>)
    requires MadeOf(h, p, s, p0, ks)
    ensures var h', gone := Freed(h, p, s), set q | q in ks :: Chunk(q, h[q].size);
            && FreeSet(h') == FreeSet(h) - gone + {Chunk(p, s)} && Live(h') == Live(h) - {p0}
            && gone <= FreeSet(h) && Chunk(p, s) !in FreeSet(h) - gone
  {
    var h', gone := Freed(h, p, s), set q | q in ks :: Chunk(q, h[q].size);
    forall c ensures c in gone <==> c.addr in ks && h[c.addr].size == c.size {}
    forall c ensures c in FreeSet(h') <==> c in FreeSet(h) - gone + {Chunk(p, s)} {
      InFreeSet(h, c);
      InFreeSet(h', c);
    }
  }

  /** Only a chunk's own start lies in it. */
  lemma OnlyStart(h: Heads, base: Addr, end: Addr, p: Addr, q: Addr)
    requires Tiled(h, base, end) && p in h && q in h && p <= q < Next(h, p)
    ensures q == p
  {
    assert Apart(h, p, q);
  }

  /** Every byte of the segment lies in exactly one chunk. */
  lemma {:induction false} TilesExactly(h: Heads, base: Addr, end: Addr, x: nat, from: Addr) returns (p: Addr)
    requires Tiled(h, base, end) && from in h && from <= x < end
    ensures p in h && p <= x < Next(h, p)
    ensures forall q :: q in h && q <= x < Next(h, q) ==> q == p
    decreases end - from
  {
    assert TileAt(h, base, end, from);
    if x < Next(h, from) {
      p := from;
      forall q | q in h && q <= x < Next(h, q) ensures q == p { assert Apart(h, p, q); }
    } else {
      p := TilesExactly(h, base, end, x, Next(h, from));
    }
  }
}
