/** A tree bin: a bitwise trie keyed on chunk sizes, with a ring of chunks for each size. The node
    at the root of a subtree may hold any size of the subtree's range; below it each level decides
    one more bit of the size. */
module BinTrie {
  import opened TreeIndex

  type Addr = nat

  datatype Chunk = Chunk(addr: Addr, size: nat)

  /** `ring` lists the chunks of one size, from the one in the tree along the fd links. */
  datatype Trie = Nil | Node(size: nat, ring: seq<Addr>, left: Trie, right: Trie)

  function Ring(size: nat, ring: seq<Addr>): seq<Chunk>
  {
    seq(|ring|, i requires 0 <= i < |ring| => Chunk(ring[i], size))
  }

  /** All chunks of a trie. */
  function Bag(t: Trie): multiset<Chunk>
  {
    match t
    case Nil => multiset{}
    case Node(size, ring, l, r) => multiset(Ring(size, ring)) + Bag(l) + Bag(r)
  }

  /** The trie covers the sizes lo to lo + 2^h, its left half in the left subtree; each size has
      one node, and every node has a chunk. */
  predicate Ok(t: Trie, lo: nat, h: nat)
  {
    match t
    case Nil => true
    case Node(size, ring, l, r) =>
      && lo <= size < lo + Pow2(h) && ring != []
      && Absent(size, l) && Absent(size, r)
      && (h == 0 ==> l == Nil && r == Nil)
      && (h > 0 ==> Ok(l, lo, h - 1) && Ok(r, lo + Pow2(h - 1), h - 1))
  }

  /** No node of the trie has this size. */
  predicate Absent(size: nat, t: Trie)
  {
    t.Node? ==> t.size != size && Absent(size, t.left) && Absent(size, t.right)
  }

  predicate TopBitClear(w: nat)
  {
    w / (WORD / 2) == 0
  }

  function ShiftLeft(w: nat): nat
  {
    w * 2 % WORD
  }

  /** `insert_large_chunk` below a bin's head: w holds the size bits still to be looked at. A chunk
      of a size already present joins that node's ring behind the node. */
  function Insert(t: Trie, s: nat, a: Addr, w: nat): Trie
  {
    match t
    case Nil => Node(s, [a], Nil, Nil)
    case Node(size, ring, l, r) =>
      if size != s then
        if TopBitClear(w) then Node(size, ring, Insert(l, s, a, ShiftLeft(w)), r)
        else Node(size, ring, l, Insert(r, s, a, ShiftLeft(w)))
      else if ring == [] then Node(size, [a], l, r)
      else Node(size, [ring[0], a] + ring[1..], l, r)
  }

  /** Detaches the leaf reached by preferring right children. */
  function TakeLeaf(t: Trie): (r: (nat, seq<Addr>, Trie))
    requires t.Node?
  {
    if t.right.Node? then
      var (size, ring, rest) := TakeLeaf(t.right);
      (size, ring, t.(right := rest))
    else if t.left.Node? then
      var (size, ring, rest) := TakeLeaf(t.left);
      (size, ring, t.(left := rest))
    else (t.size, t.ring, Nil)
  }

  /** What replaces a node whose last chunk leaves: a leaf from below it, or nothing. */
  function RemoveRoot(l: Trie, r: Trie): Trie
  {
    if r.Node? then
      var (size, ring, rest) := TakeLeaf(r);
      Node(size, ring, l, rest)
    else if l.Node? then
      var (size, ring, rest) := TakeLeaf(l);
      Node(size, ring, rest, Nil)
    else Nil
  }

  function IndexIn(ring: seq<Addr>, a: Addr): (i: nat)
    requires a in ring
    ensures i < |ring| && ring[i] == a
  {
    if ring[0] == a then 0 else 1 + IndexIn(ring[1..], a)
  }

  /** Leaving a ring; when the chunk in the tree leaves, its bk neighbour takes its place. */
  function LeaveRing(ring: seq<Addr>, a: Addr): seq<Addr>
    requires a in ring
  {
    var i, n := IndexIn(ring, a), |ring| - 1;
    if i > 0 then ring[..i] + ring[i + 1..]
    else if n == 0 then []
    else [ring[n]] + ring[1..n]
  }

  /** `unlink_large_chunk`: the node of size s is found by its size bits. */
  function Unlink(t: Trie, s: nat, a: Addr, w: nat): Trie
  {
    match t
    case Nil => Nil
    case Node(size, ring, l, r) =>
      if size != s then
        if TopBitClear(w) then Node(size, ring, Unlink(l, s, a, ShiftLeft(w)), r)
        else Node(size, ring, l, Unlink(r, s, a, ShiftLeft(w)))
      else if a !in ring then t
      else if |ring| > 1 then Node(size, LeaveRing(ring, a), l, r)
      else RemoveRoot(l, r)
  }

  // ----- Properties

  lemma RingConcat(size: nat, a: seq<Addr>, b: seq<Addr>)
    ensures Ring(size, a + b) == Ring(size, a) + Ring(size, b)
  {
  }

  lemma RingOne(size: nat, a: Addr)
    ensures multiset(Ring(size, [a])) == multiset{Chunk(a, size)}
  {
    assert Ring(size, [a]) == [Chunk(a, size)];
  }

  lemma RingMember(size: nat, ring: seq<Addr>, a: Addr)
    ensures Chunk(a, size) in multiset(Ring(size, ring)) <==> a in ring
    ensures forall c :: c in multiset(Ring(size, ring)) ==> c.size == size
  {
    if a in ring {
      var i :| 0 <= i < |ring| && ring[i] == a;
      assert Ring(size, ring)[i] == Chunk(a, size);
    }
  }

  /** A chunk of a trie is in the root's ring or in one of the subtrees. */
  lemma WhereInBag(t: Trie, c: Chunk)
    requires t.Node? && c in Bag(t)
    ensures (c.size == t.size && c.addr in t.ring) || c in Bag(t.left) || c in Bag(t.right)
  {
    RingMember(t.size, t.ring, c.addr);
    hide Ring;
    assert Bag(t) == multiset(Ring(t.size, t.ring)) + Bag(t.left) + Bag(t.right);
    if c in multiset(Ring(t.size, t.ring)) { assert c == Chunk(c.addr, t.size); }
  }

  /** Sizes lie in the range the trie covers. */
  lemma {:induction false} SizeInRange(t: Trie, lo: nat, h: nat, c: Chunk)
    requires Ok(t, lo, h) && c in Bag(t)
    ensures lo <= c.size < lo + Pow2(h)
  {
    WhereInBag(t, c);
    if c.size == t.size && c.addr in t.ring {
    } else if c in Bag(t.left) {
      SizeInRange(t.left, lo, h - 1, c);
    } else {
      SizeInRange(t.right, lo + Pow2(h - 1), h - 1, c);
    }
  }

  lemma InRange(t: Trie, lo: nat, h: nat)
    requires Ok(t, lo, h)
    ensures forall c :: c in Bag(t) ==> lo <= c.size < lo + Pow2(h)
  {
    forall c | c in Bag(t) ensures lo <= c.size < lo + Pow2(h) { SizeInRange(t, lo, h, c); }
  }

  lemma {:induction false} AbsentFromBag(size: nat, t: Trie, c: Chunk)
    requires Absent(size, t) && c in Bag(t)
    ensures c.size != size
  {
    WhereInBag(t, c);
    if c in Bag(t.left) {
      AbsentFromBag(size, t.left, c);
    } else if c in Bag(t.right) {
      AbsentFromBag(size, t.right, c);
    }
  }

  /** The node in the tree is one of the trie's chunks. */
  lemma HeadInBag(t: Trie)
    requires t.Node? && t.ring != []
    ensures Chunk(t.ring[0], t.size) in Bag(t)
  {
    RingMember(t.size, t.ring, t.ring[0]);
  }

  lemma RingInsert(size: nat, ring: seq<Addr>, a: Addr)
    requires ring != []
    ensures multiset(Ring(size, [ring[0], a] + ring[1..])) == multiset(Ring(size, ring)) + multiset{Chunk(a, size)}
  {
    assert ring == [ring[0]] + ring[1..];
    assert [ring[0], a] + ring[1..] == [ring[0]] + ([a] + ring[1..]);
    RingConcat(size, [ring[0]], ring[1..]);
    RingConcat(size, [ring[0]], [a] + ring[1..]);
    RingConcat(size, [a], ring[1..]);
    RingOne(size, a);
    hide Ring;
  }

  /** A node of another size stays the only one of its size. */
  lemma {:induction false} InsertAbsent(size: nat, t: Trie, s: nat, a: Addr, w: nat)
    requires Absent(size, t) && size != s
    ensures Absent(size, Insert(t, s, a, w))
  {
    if t.Node? && t.size != s {
      if TopBitClear(w) {
        InsertAbsent(size, t.left, s, a, ShiftLeft(w));
      } else {
        InsertAbsent(size, t.right, s, a, ShiftLeft(w));
      }
      hide TopBitClear, ShiftLeft;
    }
  }

  /** Insertion keeps the trie in order. */
  lemma {:induction false} InsertOk(t: Trie, lo: nat, h: nat, s: nat, a: Addr)
    requires Ok(t, lo, h) && h <= 64 && lo <= s < lo + Pow2(h)
    ensures var t' := Insert(t, s, a, SizeBits(s - lo, h)); Ok(t', lo, h) && t'.Node?
  {
    if t.Node? && t.size != s {
      DescendBits(s - lo, h);
      var w := SizeBits(s - lo, h);
      hide SizeBits;
      var half := Pow2(h - 1);
      if s - lo < half {
        InsertOk(t.left, lo, h - 1, s, a);
        InsertAbsent(t.size, t.left, s, a, ShiftLeft(w));
      } else {
        InsertOk(t.right, lo + half, h - 1, s, a);
        InsertAbsent(t.size, t.right, s, a, ShiftLeft(w));
      }
    }
  }

  /** Insertion adds exactly the new chunk, whatever the size bits. */
  lemma {:induction false} InsertBag(t: Trie, s: nat, a: Addr, w: nat)
    ensures Bag(Insert(t, s, a, w)) == Bag(t) + multiset{Chunk(a, s)}
  {
    match t
    case Nil => RingOne(s, a);
    case Node(size, ring, l, r) =>
      if size != s {
        var w' := ShiftLeft(w);
        InsertBag(l, s, a, w');
        InsertBag(r, s, a, w');
        assert Insert(t, s, a, w)
            == if TopBitClear(w) then t.(left := Insert(l, s, a, w')) else t.(right := Insert(r, s, a, w'));
        hide ShiftLeft, TopBitClear, Ring, Insert;
      } else if ring == [] {
        RingOne(s, a);
      } else {
        RingInsert(size, ring, a);
        hide Ring;
      }
  }

  // ----- Unlinking

  /** Taking a leaf away keeps the rest in order; the leaf's size is in range and now absent. */
  lemma {:induction false} TakeLeafOk(t: Trie, lo: nat, h: nat)
    requires Ok(t, lo, h) && t.Node?
    ensures var (size, ring, rest) := TakeLeaf(t);
            Ok(rest, lo, h) && lo <= size < lo + Pow2(h) && ring != [] && Absent(size, rest)
  {
    if t.right.Node? {
      TakeLeafOk(t.right, lo + Pow2(h - 1), h - 1);
      TakeLeafAbsent(t.size, t.right);
      OutOfRangeAbsent(TakeLeaf(t.right).0, t.left, lo, h - 1);
    } else if t.left.Node? {
      TakeLeafOk(t.left, lo, h - 1);
      TakeLeafAbsent(t.size, t.left);
    }
  }

  lemma {:induction false} TakeLeafAbsent(size: nat, t: Trie)
    requires Absent(size, t) && t.Node?
    ensures TakeLeaf(t).0 != size && Absent(size, TakeLeaf(t).2)
  {
    if t.right.Node? {
      TakeLeafAbsent(size, t.right);
    } else if t.left.Node? {
      TakeLeafAbsent(size, t.left);
    }
  }

  /** A size outside the covered range is absent. */
  lemma {:induction false} OutOfRangeAbsent(size: nat, t: Trie, lo: nat, h: nat)
    requires Ok(t, lo, h) && !(lo <= size < lo + Pow2(h))
    ensures Absent(size, t)
  {
    if t.Node? && h > 0 {
      OutOfRangeAbsent(size, t.left, lo, h - 1);
      OutOfRangeAbsent(size, t.right, lo + Pow2(h - 1), h - 1);
    }
  }

  lemma {:induction false} TakeLeafBag(t: Trie)
    requires t.Node?
    ensures var (size, ring, rest) := TakeLeaf(t); Bag(t) == multiset(Ring(size, ring)) + Bag(rest)
  {
    hide Ring;
    if t.right.Node? {
      TakeLeafBag(t.right);
    } else if t.left.Node? {
      TakeLeafBag(t.left);
    }
  }

  lemma RemoveRootOk(l: Trie, r: Trie, lo: nat, h: nat)
    requires h > 0 && Ok(l, lo, h - 1) && Ok(r, lo + Pow2(h - 1), h - 1)
    ensures Ok(RemoveRoot(l, r), lo, h)
  {
    if r.Node? {
      TakeLeafOk(r, lo + Pow2(h - 1), h - 1);
      OutOfRangeAbsent(TakeLeaf(r).0, l, lo, h - 1);
    } else if l.Node? {
      TakeLeafOk(l, lo, h - 1);
    }
    hide TakeLeaf;
  }

  lemma RemoveRootBag(l: Trie, r: Trie)
    ensures Bag(RemoveRoot(l, r)) == Bag(l) + Bag(r)
  {
    hide Ring;
    if r.Node? {
      TakeLeafBag(r);
    } else if l.Node? {
      TakeLeafBag(l);
    }
    hide TakeLeaf;
  }

  lemma {:induction false} RemoveRootAbsent(size: nat, l: Trie, r: Trie)
    requires Absent(size, l) && Absent(size, r)
    ensures Absent(size, RemoveRoot(l, r))
  {
    if r.Node? {
      TakeLeafAbsent(size, r);
    } else if l.Node? {
      TakeLeafAbsent(size, l);
    }
    hide TakeLeaf;
  }

  lemma {:induction false} UnlinkAbsent(size: nat, t: Trie, s: nat, a: Addr, w: nat)
    requires Absent(size, t)
    ensures Absent(size, Unlink(t, s, a, w))
  {
    if t.Node? {
      if t.size != s {
        UnlinkAbsent(size, t.left, s, a, ShiftLeft(w));
        UnlinkAbsent(size, t.right, s, a, ShiftLeft(w));
      } else {
        RemoveRootAbsent(size, t.left, t.right);
      }
      hide TopBitClear, ShiftLeft, RemoveRoot, LeaveRing;
    }
  }

  /** Unlinking keeps the trie in order. */
  lemma {:induction false} UnlinkOk(t: Trie, lo: nat, h: nat, s: nat, a: Addr)
    requires Ok(t, lo, h) && h <= 64 && lo <= s < lo + Pow2(h)
    ensures Ok(Unlink(t, s, a, SizeBits(s - lo, h)), lo, h)
  {
    if t.Node? {
      if t.size == s {
        if h > 0 { RemoveRootOk(t.left, t.right, lo, h); }
      } else {
        DescendBits(s - lo, h);
        var w, half := SizeBits(s - lo, h), Pow2(h - 1);
        hide SizeBits, RemoveRoot, LeaveRing;
        if s - lo < half {
          UnlinkOk(t.left, lo, h - 1, s, a);
          UnlinkAbsent(t.size, t.left, s, a, ShiftLeft(w));
        } else {
          UnlinkOk(t.right, lo + half, h - 1, s, a);
          UnlinkAbsent(t.size, t.right, s, a, ShiftLeft(w));
        }
      }
    }
  }

  lemma RemoveAtBag(size: nat, ring: seq<Addr>, i: nat)
    requires i < |ring|
    ensures multiset(Ring(size, ring[..i] + ring[i + 1..])) + multiset{Chunk(ring[i], size)}
         == multiset(Ring(size, ring))
  {
    assert ring == ring[..i] + ([ring[i]] + ring[i + 1..]);
    RingConcat(size, ring[..i], [ring[i]] + ring[i + 1..]);
    RingConcat(size, [ring[i]], ring[i + 1..]);
    RingConcat(size, ring[..i], ring[i + 1..]);
    RingOne(size, ring[i]);
    hide Ring;
  }

  /** The bk neighbour of the head moves to the front of what is left. */
  lemma RotateBag(size: nat, rest: seq<Addr>)
    requires rest != []
    ensures multiset(Ring(size, [rest[|rest| - 1]] + rest[..|rest| - 1])) == multiset(Ring(size, rest))
  {
    var n := |rest| - 1;
    assert rest == rest[..n] + [rest[n]];
    RingConcat(size, rest[..n], [rest[n]]);
    RingConcat(size, [rest[n]], rest[..n]);
    hide Ring;
  }

  lemma LeaveRingBag(size: nat, ring: seq<Addr>, a: Addr)
    requires a in ring
    ensures multiset(Ring(size, LeaveRing(ring, a))) + multiset{Chunk(a, size)} == multiset(Ring(size, ring))
    ensures |ring| > 1 ==> LeaveRing(ring, a) != []
  {
    var i, n := IndexIn(ring, a), |ring| - 1;
    RemoveAtBag(size, ring, i);
    if i == 0 {
      assert ring[..0] + ring[1..] == ring[1..];
      if n > 0 {
        assert ring[1..][..n - 1] == ring[1..n] && ring[1..][n - 1] == ring[n];
        RotateBag(size, ring[1..]);
      }
    }
    hide Ring, IndexIn;
  }

  /** The size bits lead to the subtree that holds the chunk. */
  lemma Located(t: Trie, lo: nat, h: nat, c: Chunk)
    requires Ok(t, lo, h) && c in Bag(t) && c.size != t.size
    ensures h > 0 && lo <= c.size < lo + Pow2(h)
    ensures if c.size - lo < Pow2(h - 1) then c in Bag(t.left) else c in Bag(t.right)
    ensures Ok(t.left, lo, h - 1) && Ok(t.right, lo + Pow2(h - 1), h - 1)
  {
    SizeInRange(t, lo, h, c);
    WhereInBag(t, c);
    hide Bag;
    if c in Bag(t.left) {
      SizeInRange(t.left, lo, h - 1, c);
    } else {
      SizeInRange(t.right, lo + Pow2(h - 1), h - 1, c);
    }
  }

  lemma UnlinkDescends(t: Trie, lo: nat, h: nat, s: nat, a: Addr)
    requires t.Node? && 0 < h <= 64 && lo <= s < lo + Pow2(h) && t.size != s
    ensures Unlink(t, s, a, SizeBits(s - lo, h))
         == if s - lo < Pow2(h - 1)
            then t.(left := Unlink(t.left, s, a, SizeBits(s - lo, h - 1)))
            else t.(right := Unlink(t.right, s, a, SizeBits(s - lo - Pow2(h - 1), h - 1)))
  {
    DescendBits(s - lo, h);
    hide SizeBits, Pow2, RemoveRoot, LeaveRing;
  }

  /** Replacing a subtree by one without a chunk takes just that chunk out of the whole. */
  lemma ReplaceSubtreeBag(t: Trie, u: Trie, x: multiset<Chunk>)
    requires t.Node?
    ensures Bag(u) + x == Bag(t.left) ==> Bag(t.(left := u)) + x == Bag(t)
    ensures Bag(u) + x == Bag(t.right) ==> Bag(t.(right := u)) + x == Bag(t)
  {
    hide Ring;
  }

  /** Unlinking a chunk of the trie removes exactly that chunk. */
  lemma {:induction false} UnlinkBag(t: Trie, lo: nat, h: nat, s: nat, a: Addr)
    requires Ok(t, lo, h) && h <= 64 && Chunk(a, s) in Bag(t) && lo <= s
    ensures Bag(Unlink(t, s, a, SizeBits(s - lo, h))) + multiset{Chunk(a, s)} == Bag(t)
  {
    hide Bag, Unlink, SizeBits, Pow2, Ok;
    NodeOfBag(t, Chunk(a, s));
    if t.size == s {
      UnlinkRootBag(t, lo, h, a, SizeBits(s - lo, h));
    } else {
      Located(t, lo, h, Chunk(a, s));
      var x, half := multiset{Chunk(a, s)}, Pow2(h - 1);
      UnlinkDescends(t, lo, h, s, a);
      if s - lo < half {
        UnlinkBag(t.left, lo, h - 1, s, a);
        ReplaceSubtreeBag(t, Unlink(t.left, s, a, SizeBits(s - lo, h - 1)), x);
      } else {
        UnlinkBag(t.right, lo + half, h - 1, s, a);
        ReplaceSubtreeBag(t, Unlink(t.right, s, a, SizeBits(s - lo - half, h - 1)), x);
      }
    }
  }

  lemma NodeOfBag(t: Trie, c: Chunk)
    requires c in Bag(t)
    ensures t.Node?
  {
  }

  lemma UnlinkRootBag(t: Trie, lo: nat, h: nat, a: Addr, w: nat)
    requires Ok(t, lo, h) && t.Node? && Chunk(a, t.size) in Bag(t)
    ensures Bag(Unlink(t, t.size, a, w)) + multiset{Chunk(a, t.size)} == Bag(t)
  {
    RootHasSize(t, lo, h, a);
    hide Ring, Ok, Absent, LeaveRing, RemoveRoot;
    if |t.ring| > 1 {
      LeaveRingBag(t.size, t.ring, a);
    } else {
      assert t.ring == [a];
      RingOne(t.size, a);
      RemoveRootBag(t.left, t.right);
    }
  }

  lemma RootHasSize(t: Trie, lo: nat, h: nat, a: Addr)
    requires Ok(t, lo, h) && t.Node? && Chunk(a, t.size) in Bag(t)
    ensures a in t.ring
  {
    var c := Chunk(a, t.size);
    WhereInBag(t, c);
    if c in Bag(t.left) { AbsentFromBag(t.size, t.left, c); }
    if c in Bag(t.right) { AbsentFromBag(t.size, t.right, c); }
  }
}
