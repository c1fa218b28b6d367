/** Page diffs against a twin: runs of changed bytes are written one by one, or packed into a buffer
    of (index, size, bytes) records and unpacked elsewhere. */
module DiffCodec {

  type byte = x: int | 0 <= x < 256

  const U32 := 0x1_0000_0000

  // ----- Specification

  /** What the receiver should see: the changed bytes of l, and its own bytes elsewhere. */
  function Merge(l: seq<byte>, t: seq<byte>, r: seq<byte>): (m: seq<byte>)
    requires |l| == |t| == |r|
    ensures |m| == |r|
  {
    seq(|r|, i requires 0 <= i < |r| => if l[i] != t[i] then l[i] else r[i])
  }

  /** The first changed byte from i on, or the end. */
  function NextDirty(l: seq<byte>, t: seq<byte>, i: nat): (k: nat)
    requires |l| == |t| && i <= |l|
    ensures i <= k <= |l| && (k < |l| ==> l[k] != t[k])
    ensures forall x :: i <= x < k ==> l[x] == t[x]
    decreases |l| - i
  {
    if i < |l| && l[i] == t[i] then NextDirty(l, t, i + 1) else i
  }

  /** The first unchanged byte from i on, or the end. */
  function NextClean(l: seq<byte>, t: seq<byte>, i: nat): (k: nat)
    requires |l| == |t| && i <= |l|
    ensures i <= k <= |l| && (k < |l| ==> l[k] == t[k])
    ensures forall x :: i <= x < k ==> l[x] != t[x]
    decreases |l| - i
  {
    if i < |l| && l[i] != t[i] then NextClean(l, t, i + 1) else i
  }

  /** A diff_size_t in memory, low byte first. */
  function Enc32(n: nat): (b: seq<byte>)
    requires n < U32
    ensures |b| == 4
  {
    [n % 0x100, n / 0x100 % 0x100, n / 0x1_0000 % 0x100, n / 0x100_0000]
  }

  function Dec32(b: seq<byte>): (n: nat)
    requires |b| == 4
    ensures n < U32
  {
    b[0] as int + b[1] as int * 0x100 + b[2] as int * 0x1_0000 + b[3] as int * 0x100_0000
  }

  /** The low byte comes first, as on the processors that the program runs on. */
  lemma LowByteFirst(n: nat)
    requires n < 0x100
    ensures Enc32(n) == [n, 0, 0, 0]
  {
  }

  lemma Dec32Enc32(n: nat)
    requires n < U32
    ensures Dec32(Enc32(n)) == n
  {
    var a := n / 0x100;
    var b := a / 0x100;
    assert n / 0x1_0000 == b && n / 0x100_0000 == b / 0x100;
    assert n == a * 0x100 + n % 0x100 && a == b * 0x100 + a % 0x100 && b == b / 0x100 * 0x100 + b % 0x100;
  }

  /** The records for the changes from i on. */
  function Records(l: seq<byte>, t: seq<byte>, i: nat): seq<byte>
    requires |l| == |t| < U32 && i <= |l|
    decreases |l| - i
  {
    var k := NextDirty(l, t, i);
    if k == |l| then []
    else
      var j := NextClean(l, t, k);
      Enc32(k) + Enc32(j - k) + l[k..j] + Records(l, t, j)
  }

  /** The size of a packed diff, its own length word included. */
  function DiffSize(l: seq<byte>, t: seq<byte>): nat
    requires |l| == |t| < U32
  {
    4 + |Records(l, t, 0)|
  }

  function Packed(l: seq<byte>, t: seq<byte>): seq<byte>
    requires |l| == |t| < U32 && DiffSize(l, t) < U32
  {
    Enc32(DiffSize(l, t)) + Records(l, t, 0)
  }

  /** The records stay inside the buffer and inside a block of n bytes. */
  predicate InBounds(d: seq<byte>, n: nat)
    decreases |d|
  {
    d == [] || (|d| >= 8
                && var k, s := Dec32(d[..4]), Dec32(d[4..8]);
                8 + s <= |d| && k < n && k + s <= n && InBounds(d[8 + s..], n))
  }

  function Overwrite(r: seq<byte>, k: nat, b: seq<byte>): (r': seq<byte>)
    requires k + |b| <= |r|
    ensures |r'| == |r|
  {
    r[..k] + b + r[k + |b|..]
  }

  /** What unpacking does to a block. */
  function Apply(r: seq<byte>, d: seq<byte>): (r': seq<byte>)
    requires InBounds(d, |r|)
    ensures |r'| == |r|
    decreases |d|
  {
    if d == [] then r
    else
      var k, s := Dec32(d[..4]), Dec32(d[4..8]);
      Apply(Overwrite(r, k, d[8..8 + s]), d[8 + s..])
  }

  // ----- Properties

  /** One record and what follows it. */
  lemma SplitRecord(k: nat, b: seq<byte>, rest: seq<byte>)
    requires k < U32 && |b| < U32
    ensures var d := Enc32(k) + Enc32(|b|) + b + rest;
            |d| >= 8 + |b| && Dec32(d[..4]) == k && Dec32(d[4..8]) == |b| && d[8..8 + |b|] == b && d[8 + |b|..] == rest
  {
    var d := Enc32(k) + Enc32(|b|) + b + rest;
    assert d[..4] == Enc32(k) && d[4..8] == Enc32(|b|);
    Dec32Enc32(k);
    Dec32Enc32(|b|);
  }

  /** Merge restricted to the bytes from i on. */
  function MergeFrom(l: seq<byte>, t: seq<byte>, r: seq<byte>, i: nat): (m: seq<byte>)
    requires |l| == |t| == |r| && i <= |l|
  {
    r[..i] + Merge(l, t, r)[i..]
  }

  /** Overwriting one run is the next step of the merge. */
  lemma MergeStep(l: seq<byte>, t: seq<byte>, r: seq<byte>, i: nat, k: nat, j: nat)
    requires |l| == |t| == |r| && i <= k <= j <= |l|
    requires (forall x :: i <= x < k ==> l[x] == t[x]) && forall x :: k <= x < j ==> l[x] != t[x]
    ensures MergeFrom(l, t, Overwrite(r, k, l[k..j]), j) == MergeFrom(l, t, r, i)
  {
  }

  lemma NothingDirty(l: seq<byte>, t: seq<byte>, r: seq<byte>, i: nat)
    requires |l| == |t| == |r| && i <= |l| && forall x :: i <= x < |l| ==> l[x] == t[x]
    ensures MergeFrom(l, t, r, i) == r
  {
  }

  lemma ApplyRecord(r: seq<byte>, k: nat, b: seq<byte>, rest: seq<byte>)
    requires k < U32 && |b| < U32 && k < |r| && k + |b| <= |r| && InBounds(rest, |r|)
    ensures var d := Enc32(k) + Enc32(|b|) + b + rest;
            InBounds(d, |r|) && Apply(r, d) == Apply(Overwrite(r, k, b), rest)
  {
    hide Dec32, Enc32;
    SplitRecord(k, b, rest);
  }

  lemma {:induction false} RecordsApply(l: seq<byte>, t: seq<byte>, i: nat, r: seq<byte>)
    requires |l| == |t| == |r| < U32 && i <= |l|
    ensures InBounds(Records(l, t, i), |r|) && Apply(r, Records(l, t, i)) == MergeFrom(l, t, r, i)
    decreases |l| - i
  {
    hide Dec32, Enc32, MergeFrom, Overwrite, NextDirty, NextClean;
    var k := NextDirty(l, t, i);
    if k < |l| {
      var j := NextClean(l, t, k);
      var r' := Overwrite(r, k, l[k..j]);
      RecordsApply(l, t, j, r');
      ApplyRecord(r, k, l[k..j], Records(l, t, j));
      MergeStep(l, t, r, i, k, j);
    } else {
      NothingDirty(l, t, r, i);
    }
  }

  /** Unpacking a packed diff gives the changed bytes where there are any, for every receiver. */
  lemma RoundTrip(l: seq<byte>, t: seq<byte>, r: seq<byte>)
    requires |l| == |t| == |r| < U32 && DiffSize(l, t) < U32
    ensures var d := Packed(l, t);
            Dec32(d[..4]) == |d| && InBounds(d[4..], |r|) && Apply(r, d[4..]) == Merge(l, t, r)
  {
    var d := Packed(l, t);
    assert d[..4] == Enc32(DiffSize(l, t)) && d[4..] == Records(l, t, 0);
    Dec32Enc32(DiffSize(l, t));
    RecordsApply(l, t, 0, r);
  }

  /** The buffer of 4 + 9 * block_size bytes is large enough. */
  lemma {:induction false} RecordsSize(l: seq<byte>, t: seq<byte>, i: nat)
    requires |l| == |t| < U32 && i <= |l|
    ensures |Records(l, t, i)| <= 9 * (|l| - i)
    decreases |l| - i
  {
    var k := NextDirty(l, t, i);
    if k < |l| { RecordsSize(l, t, NextClean(l, t, k)); }
  }

  /** The most bytes that the records of a block of n bytes can take: a run of changed bytes costs
      eight bytes more than it has, and needs a clean byte behind it if another is to follow. */
  function Most(n: nat): nat
  {
    if n % 2 == 1 then 9 * ((n + 1) / 2) else if n == 0 then 0 else 9 * (n / 2) + 1
  }

  lemma MostGrows(m: nat, n: nat)
    requires m <= n
    ensures Most(m) <= Most(n)
  {
  }

  /** A run of c bytes, and what m bytes behind its clean byte can take. */
  lemma MostStep(c: nat, m: nat)
    requires c > 0
    ensures 8 + c <= Most(c) && 8 + c + Most(m) <= Most(m + c + 1)
  {
  }

  /** Behind a run the scan goes on after the clean byte. */
  lemma SkipClean(l: seq<byte>, t: seq<byte>, j: nat)
    requires |l| == |t| < U32 && j < |l| && l[j] == t[j]
    ensures Records(l, t, j) == Records(l, t, j + 1)
  {
  }

  /** What the next run adds. */
  lemma RecordsLength(l: seq<byte>, t: seq<byte>, i: nat)
    requires |l| == |t| < U32 && i <= |l|
    ensures var k := NextDirty(l, t, i);
            if k == |l| then |Records(l, t, i)| == 0
            else
              var j := NextClean(l, t, k);
              k < j && |Records(l, t, i)| == 8 + (j - k) + |Records(l, t, j)|
  {
    hide Enc32;
  }

  lemma {:induction false} RecordsAtMost(l: seq<byte>, t: seq<byte>, i: nat)
    requires |l| == |t| < U32 && i <= |l|
    ensures |Records(l, t, i)| <= Most(|l| - i)
    decreases |l| - i
  {
    hide Enc32, Most, Records, NextDirty, NextClean;
    RecordsLength(l, t, i);
    var k := NextDirty(l, t, i);
    if k < |l| {
      var j := NextClean(l, t, k);
      MostGrows(|l| - k, |l| - i);
      if j < |l| {
        SkipClean(l, t, j);
        RecordsAtMost(l, t, j + 1);
        MostStep(j - k, |l| - j - 1);
      } else {
        RecordsLength(l, t, j);
        MostStep(j - k, 0);
      }
    }
  }

  /** A block of n bytes in which every other byte is changed, m bytes in all. */
  function Striped(n: nat, m: nat): (l: seq<byte>)
    ensures |l| == n
  {
    seq(n, i => if i % 2 == 0 && i < 2 * m then 1 else 0)
  }

  function Blank(n: nat): (t: seq<byte>)
    ensures |t| == n
  {
    seq(n, _ => 0)
  }

  lemma StripedScan(n: nat, m: nat, i: nat)
    requires i < m && 2 * m <= n + 1
    ensures var l, t := Striped(n, m), Blank(n);
            && NextDirty(l, t, 2 * i) == 2 * i && NextClean(l, t, 2 * i) == 2 * i + 1
            && (2 * i + 1 < n ==> l[2 * i + 1] == t[2 * i + 1])
  {
    var l, t := Striped(n, m), Blank(n);
    assert l[2 * i] == 1 && t[2 * i] == 0;
    assert 2 * i + 1 < n ==> l[2 * i + 1] == 0 && t[2 * i + 1] == 0;
    hide Striped, Blank;
  }

  lemma StripedEnd(n: nat, m: nat)
    requires 2 * m <= n + 1
    ensures NextDirty(Striped(n, m), Blank(n), if 2 * m <= n then 2 * m else n) == n
  {
    hide NextDirty;
    var l, t, i := Striped(n, m), Blank(n), if 2 * m <= n then 2 * m else n;
    assert forall k :: i <= k < n ==> l[k] == t[k];
  }

  lemma {:induction false} StripedSize(n: nat, m: nat, i: nat)
    requires i <= m && 2 * m <= n + 1 && n < U32
    ensures |Records(Striped(n, m), Blank(n), if 2 * i <= n then 2 * i else n)| == 9 * (m - i)
    decreases m - i
  {
    hide Striped, Blank, Records, NextDirty, NextClean;
    var l, t := Striped(n, m), Blank(n);
    RecordsLength(l, t, if 2 * i <= n then 2 * i else n);
    if i < m {
      StripedScan(n, m, i);
      if 2 * i + 1 < n { SkipClean(l, t, 2 * i + 1); }
      StripedSize(n, m, i + 1);
    } else {
      StripedEnd(n, m);
    }
  }

  /** The largest block whose diff size fits 32 bits whatever was changed. */
  const MAX_BLOCK := 954_437_174

  lemma BlockFits(l: seq<byte>, t: seq<byte>)
    requires |l| == |t| <= MAX_BLOCK
    ensures DiffSize(l, t) < U32
  {
    RecordsAtMost(l, t, 0);
    MostGrows(|l|, MAX_BLOCK);
  }

  /** Every diff of a block of n bytes fits its 32-bit size exactly if the block has at most MAX_BLOCK
      bytes: from there on, changing every other byte of the front takes 2^32 bytes. */
  lemma SizeFitsIff(n: nat)
    requires n < U32
    ensures (forall l: seq<byte>, t: seq<byte> :: |l| == |t| == n ==> DiffSize(l, t) < U32) <==> n <= MAX_BLOCK
  {
    if n <= MAX_BLOCK {
      forall l: seq<byte>, t: seq<byte> | |l| == |t| == n ensures DiffSize(l, t) < U32 { BlockFits(l, t); }
    } else {
      var m := MAX_BLOCK / 2 + 1;
      StripedSize(n, m, 0);
      hide Records;
      assert DiffSize(Striped(n, m), Blank(n)) == U32;
    }
  }

  /** The round trip for every block that a caller can check to be small enough. */
  lemma BlockRoundTrip(l: seq<byte>, t: seq<byte>, r: seq<byte>)
    requires |l| == |t| == |r| <= MAX_BLOCK
    ensures DiffSize(l, t) < U32
    ensures var d := Packed(l, t);
            Dec32(d[..4]) == |d| && InBounds(d[4..], |r|) && Apply(r, d[4..]) == Merge(l, t, r)
  {
    hide Packed, Records, Merge, Dec32, Apply, InBounds;
    BlockFits(l, t);
    RoundTrip(l, t, r);
  }

  /** Two diffs commute exactly when they agree on the bytes that both changed; in particular when no
      byte was changed in both. */
  lemma CommuteIff(l1: seq<byte>, t1: seq<byte>, l2: seq<byte>, t2: seq<byte>, r: seq<byte>)
    requires |l1| == |t1| == |l2| == |t2| == |r|
    ensures Merge(l1, t1, Merge(l2, t2, r)) == Merge(l2, t2, Merge(l1, t1, r))
       <==> forall i :: 0 <= i < |r| && l1[i] != t1[i] && l2[i] != t2[i] ==> l1[i] == l2[i]
  {
    var a, b := Merge(l1, t1, Merge(l2, t2, r)), Merge(l2, t2, Merge(l1, t1, r));
    forall i | 0 <= i < |r|
      ensures a[i] == b[i] <==> (l1[i] != t1[i] && l2[i] != t2[i] ==> l1[i] == l2[i])
    {
    }
    assert a == b <==> forall i :: 0 <= i < |r| ==> a[i] == b[i];
  }

  /** The same, for packing on two nodes and unpacking on a third in either order. */
  lemma PackedDiffsCommute(l1: seq<byte>, t1: seq<byte>, l2: seq<byte>, t2: seq<byte>, r: seq<byte>)
    requires |l1| == |t1| == |l2| == |t2| == |r| < U32 && DiffSize(l1, t1) < U32 && DiffSize(l2, t2) < U32
    requires forall i :: 0 <= i < |r| ==> l1[i] == t1[i] || l2[i] == t2[i]
    ensures var d1, d2 := Packed(l1, t1)[4..], Packed(l2, t2)[4..];
            && InBounds(d1, |r|) && InBounds(d2, |r|)
            && Apply(Apply(r, d1), d2) == Apply(Apply(r, d2), d1)
  {
    RoundTrip(l1, t1, r);
    RoundTrip(l2, t2, r);
    RoundTrip(l2, t2, Merge(l1, t1, r));
    RoundTrip(l1, t1, Merge(l2, t2, r));
    CommuteIff(l1, t1, l2, t2, r);
  }

  // ----- The methods

  /** memcpy between different buffers. */
  method CopyBytes(dst: array<byte>, at: nat, src: array<byte>, from: nat, len: nat)
    requires dst != src && at + len <= dst.Length && from + len <= src.Length
    modifies dst
    ensures dst[..] == Overwrite(old(dst[..]), at, src[from..from + len])
  {
    forall k | 0 <= k < len { dst[at + k] := src[from + k]; }
  }

  /** memcpy of a diff_size_t. */
  method PutWord(dst: array<byte>, at: nat, n: nat)
    requires n < U32 && at + 4 <= dst.Length
    modifies dst
    ensures dst[..] == Overwrite(old(dst[..]), at, Enc32(n))
  {
    var b := Enc32(n);
    dst[at], dst[at + 1], dst[at + 2], dst[at + 3] := b[0], b[1], b[2], b[3];
  }

  /** The scan of both encoders: the next run of changed bytes. */
  method NextRun(l: array<byte>, twin: array<byte>, from: nat) returns (i: nat, j: nat)
    requires l.Length == twin.Length && from <= l.Length
    ensures i == NextDirty(l[..], twin[..], from)
    ensures i < l.Length ==> j == NextClean(l[..], twin[..], i) && i < j <= l.Length
  {
    i := from;
    while i < l.Length && l[i] == twin[i]
      invariant from <= i <= l.Length
      invariant NextDirty(l[..], twin[..], from) == NextDirty(l[..], twin[..], i)
    {
      i := i + 1;
    }
    j := i;
    if i < l.Length {
      j := i + 1;
      while j < l.Length && l[j] != twin[j]
        invariant i < j <= l.Length
        invariant NextClean(l[..], twin[..], i) == NextClean(l[..], twin[..], j)
      {
        j := j + 1;
      }
    }
  }

  /** The scan from i on depends only on the bytes from i on. */
  lemma {:induction false} DirtyFrom(l: seq<byte>, t: seq<byte>, t': seq<byte>, i: nat)
    requires |l| == |t| == |t'| && i <= |l| && forall x :: i <= x < |l| ==> t[x] == t'[x]
    ensures NextDirty(l, t, i) == NextDirty(l, t', i)
    decreases |l| - i
  {
    if i < |l| {
      DirtyFrom(l, t, t', i + 1);
    }
  }

  lemma {:induction false} CleanFrom(l: seq<byte>, t: seq<byte>, t': seq<byte>, i: nat)
    requires |l| == |t| == |t'| && i <= |l| && forall x :: i <= x < |l| ==> t[x] == t'[x]
    ensures NextClean(l, t, i) == NextClean(l, t', i)
    decreases |l| - i
  {
    if i < |l| {
      CleanFrom(l, t, t', i + 1);
    }
  }

  /** The twin holds the new bytes up to i and the old ones from there. */
  predicate TwinAt(tw: seq<byte>, l: seq<byte>, t: seq<byte>, i: nat)
  {
    && |tw| == |l| == |t| && i <= |l|
    && (forall x :: 0 <= x < i ==> tw[x] == l[x]) && forall x :: i <= x < |l| ==> tw[x] == t[x]
  }

  /** One run of changes, seen through the partly updated twin, and the twin after it. */
  lemma TwinStep(tw: seq<byte>, l: seq<byte>, t: seq<byte>, i: nat)
    requires TwinAt(tw, l, t, i)
    ensures NextDirty(l, tw, i) == NextDirty(l, t, i)
    ensures var k := NextDirty(l, t, i);
            if k == |l| then tw == l
            else
              var j := NextClean(l, t, k);
              NextClean(l, tw, k) == j && TwinAt(Overwrite(tw, k, l[k..j]), l, t, j)
  {
    DirtyFrom(l, tw, t, i);
    var k := NextDirty(l, t, i);
    CleanFrom(l, tw, t, k);
  }

  /** `write_discontiguous`: every run goes straight to the remote block. */
  method WriteDiscontiguous(remote: array<byte>, l: array<byte>, twin: array<byte>)
    requires l.Length == twin.Length == remote.Length && l != twin && remote != twin && remote != l
    modifies remote, twin
    ensures remote[..] == Merge(l[..], old(twin[..]), old(remote[..])) && twin[..] == l[..]
  {
    hide Merge, MergeFrom, Overwrite, NextDirty, NextClean, TwinAt;
    var i := 0;
    ghost var t, r := twin[..], remote[..];
    MergeEnds(l[..], t, r);
    while i < l.Length
      invariant i <= l.Length && TwinAt(twin[..], l[..], t, i)
      invariant MergeFrom(l[..], t, remote[..], i) == Merge(l[..], t, r)
    {
      TwinStep(twin[..], l[..], t, i);
      var k, j := NextRun(l, twin, i);
      if k == l.Length { break; }
      MergeStep(l[..], t, remote[..], i, k, j);
      CopyBytes(remote, k, l, k, j - k);
      CopyBytes(twin, k, l, k, j - k);
      i := j;
    }
    TwinStep(twin[..], l[..], t, i);
    NothingDirty(l[..], t, remote[..], i);
  }

  lemma MergeEnds(l: seq<byte>, t: seq<byte>, r: seq<byte>)
    requires |l| == |t| == |r|
    ensures MergeFrom(l, t, r, 0) == Merge(l, t, r) && TwinAt(t, l, t, 0)
  {
  }

  /** The value that a diff_size_t keeps. */
  function Wrap(n: nat): (r: nat)
    ensures r < U32
  {
    n % U32
  }

  /** diff_size_t addition. */
  function Add32(a: nat, b: nat): nat
  {
    Wrap(a + b)
  }

  /** Writing behind the first idx bytes extends them. */
  lemma Extend(out: seq<byte>, idx: nat, b: seq<byte>)
    requires 4 <= idx && idx + |b| <= |out|
    ensures Overwrite(out, idx, b)[4..idx + |b|] == out[4..idx] + b
  {
  }

  /** The next record, in the terms of the loop. */
  lemma RecordsStep(l: seq<byte>, t: seq<byte>, i: nat)
    requires |l| == |t| < U32 && i <= |l|
    ensures var k := NextDirty(l, t, i);
            if k == |l| then Records(l, t, i) == []
            else
              var j := NextClean(l, t, k);
              k < j <= |l| && Records(l, t, i) == Record(l, k, j) + Records(l, t, j)
  {
    hide Enc32;
  }

  /** The record of the run from k to j. */
  function Record(l: seq<byte>, k: nat, j: nat): (b: seq<byte>)
    requires k < j <= |l| < U32
    ensures |b| == 8 + j - k
  {
    Enc32(k) + Enc32(j - k) + l[k..j]
  }

  /** Writes one record; the index wraps like a diff_size_t. */
  method PutRecord(out: array<byte>, at: nat, l: array<byte>, k: nat, j: nat) returns (size: nat)
    requires out != l && k < j <= l.Length < U32 && at < U32 && at + 8 + j - k <= out.Length
    modifies out
    ensures size == Add32(at, 8 + j - k)
    ensures 4 <= at && at + 8 + j - k < U32 ==> out[4..at + 8 + j - k] == old(out[4..at]) + Record(l[..], k, j)
  {
    hide Enc32, Overwrite;
    if 4 <= at { ThreeWrites(out[..], at, Enc32(k), Enc32(j - k), l[k..j]); }
    Wraps(at, j - k);
    size := at;
    PutWord(out, size, k);
    size := Add32(size, 4);
    PutWord(out, size, j - k);
    size := Add32(size, 4);
    CopyBytes(out, size, l, k, j - k);
    size := Add32(size, j - k);
  }

  lemma AddTwice(a: nat, b: nat, c: nat)
    ensures Add32(Add32(a, b), c) == Add32(a, b + c)
  {
  }

  lemma AddSmall(a: nat, b: nat)
    ensures Add32(a, b) <= a + b && (a + b < U32 ==> Add32(a, b) == a + b)
  {
  }

  lemma Wraps(at: nat, len: nat)
    ensures Add32(at, 4) <= at + 4 && Add32(Add32(at, 4), 4) <= at + 8
    ensures Add32(Add32(Add32(at, 4), 4), len) == Add32(at, 8 + len)
    ensures at + 8 + len < U32 ==> Add32(at, 4) == at + 4 && Add32(at + 4, 4) == at + 8 && Add32(at, 8 + len) == at + 8 + len
  {
    hide Add32;
    AddTwice(at, 4, 4);
    AddTwice(at, 8, len);
    AddSmall(at, 4);
    AddSmall(at + 4, 4);
    AddSmall(at, 8);
    AddSmall(at, 8 + len);
  }

  lemma ThreeWrites(out: seq<byte>, at: nat, a: seq<byte>, b: seq<byte>, c: seq<byte>)
    requires |a| == |b| == 4 <= at && at + 8 + |c| <= |out|
    ensures var w := Overwrite(Overwrite(Overwrite(out, at, a), at + 4, b), at + 8, c);
            w[4..at + 8 + |c|] == out[4..at] + (a + b + c)
  {
    hide Overwrite;
    var o1 := Overwrite(out, at, a);
    var o2 := Overwrite(o1, at + 4, b);
    Extend(out, at, a);
    Extend(o1, at + 4, b);
    Extend(o2, at + 8, c);
    Regroup(out[4..at], a, b, c);
  }

  lemma Regroup(a: seq<byte>, b: seq<byte>, c: seq<byte>, d: seq<byte>)
    ensures a + b + c + d == a + (b + c + d)
  {
  }

  /** Unless the size has wrapped, the buffer holds the records of the changes before i. */
  predicate Holding(out: seq<byte>, total: nat, l: seq<byte>, t: seq<byte>, i: nat)
    requires |l| == |t| < U32 && i <= |l|
  {
    total < U32 ==> 4 <= total <= |out| && out[4..total] + Records(l, t, i) == Records(l, t, 0)
  }

  /** A record has been put at the wrapped size. */
  lemma HoldingNext(out: seq<byte>, out': seq<byte>, total: nat, size: nat, size': nat, l: seq<byte>, t: seq<byte>, i: nat, k: nat, j: nat)
    requires |l| == |t| < U32 && i <= |l| && Holding(out, total, l, t, i) && k < j <= |l| && 4 <= total
    requires Records(l, t, i) == Record(l, k, j) + Records(l, t, j)
    requires size == Wrap(total) && size + 8 + j - k <= |out| == |out'| && size' == Add32(size, 8 + j - k)
    requires 4 <= size && size + 8 + j - k < U32 ==> out'[4..size + 8 + j - k] == out[4..size] + Record(l, k, j)
    ensures Holding(out', total + 8 + j - k, l, t, j) && size' == Wrap(total + 8 + j - k)
  {
    hide Records, Record, Holding;
    WrapsOn(total, 8 + j - k);
    HoldingStep(out, out', total, l, t, i, k, j);
  }

  lemma HoldingStep(out: seq<byte>, out': seq<byte>, total: nat, l: seq<byte>, t: seq<byte>, i: nat, k: nat, j: nat)
    requires |l| == |t| < U32 && i <= |l| && Holding(out, total, l, t, i) && k < j <= |l| && 4 <= total
    requires Records(l, t, i) == Record(l, k, j) + Records(l, t, j)
    requires var end := total + 8 + j - k;
             end < U32 ==> total <= |out| && end <= |out'| && out'[4..end] == out[4..total] + Record(l, k, j)
    ensures Holding(out', total + 8 + j - k, l, t, j)
  {
    hide Records, Record;
    var end := total + 8 + j - k;
    if end < U32 {
      var done, record, rest := out[4..total], Record(l, k, j), Records(l, t, j);
      assert (done + record) + rest == done + (record + rest);
    }
  }

  /** The loop of `pack_diff`. */
  method PackRecords(l: array<byte>, twin: array<byte>, out: array<byte>) returns (size: nat)
    requires l.Length == twin.Length < U32 && l != twin && out != l && out != twin && out.Length >= 4 + 9 * l.Length
    modifies twin, out
    ensures twin[..] == l[..] && size == Wrap(DiffSize(l[..], old(twin[..])))
    ensures Holding(out[..], DiffSize(l[..], old(twin[..])), l[..], old(twin[..]), l.Length)
  {
    hide Overwrite, NextDirty, NextClean, TwinAt, Enc32, Records, Record, Merge, MergeFrom, Holding, Add32, Wrap;
    ghost var t := twin[..];
    MergeEnds(l[..], t, t);
    RecordsSize(l[..], t, 0);
    HoldingStart(out[..], l[..], t);
    size := Add32(0, 4);
    ghost var total: nat := 4;
    var i := 0;
    while i < l.Length
      invariant i <= l.Length && TwinAt(twin[..], l[..], t, i)
      invariant 4 <= total && total + |Records(l[..], t, i)| == DiffSize(l[..], t) && size == Wrap(total)
      invariant Holding(out[..], total, l[..], t, i)
    {
      TwinStep(twin[..], l[..], t, i);
      RecordsStep(l[..], t, i);
      var k, j := NextRun(l, twin, i);
      if k == l.Length { break; }
      WrapsOn(total, 8 + j - k);
      ghost var before := out[..];
      ghost var at := size;
      size := PutRecord(out, size, l, k, j);
      HoldingNext(before, out[..], total, at, size, l[..], t, i, k, j);
      total := total + 8 + j - k;
      CopyBytes(twin, k, l, k, j - k);
      i := j;
    }
    TwinStep(twin[..], l[..], t, i);
    RecordsStep(l[..], t, i);
    RecordsStep(l[..], t, l.Length);
    HoldingEnd(out[..], total, l[..], t, i);
  }

  lemma HoldingStart(out: seq<byte>, l: seq<byte>, t: seq<byte>)
    requires |l| == |t| < U32 && 4 <= |out|
    ensures Holding(out, 4, l, t, 0) && Add32(0, 4) == Wrap(4)
  {
    hide Records;
    assert out[4..4] == [];
  }

  lemma HoldingEnd(out: seq<byte>, total: nat, l: seq<byte>, t: seq<byte>, i: nat)
    requires |l| == |t| < U32 && i <= |l| && Holding(out, total, l, t, i)
    requires Records(l, t, i) == Records(l, t, |l|) == []
    ensures Holding(out, total, l, t, |l|)
  {
  }

  /** `pack_diff`, on every block that a diff_size_t can index. The size counter is 32 bits wide and
      wraps; the buffer holds the diff if the size does not, and it does not in any block of at most
      MAX_BLOCK bytes. */
  method PackDiff(l: array<byte>, twin: array<byte>, out: array<byte>) returns (size: nat)
    requires l.Length == twin.Length < U32 && l != twin && out != l && out != twin && out.Length >= 4 + 9 * l.Length
    modifies twin, out
    ensures twin[..] == l[..] && size == Wrap(DiffSize(l[..], old(twin[..])))
    ensures DiffSize(l[..], old(twin[..])) <= 4 + 9 * l.Length
    ensures DiffSize(l[..], old(twin[..])) < U32 ==> out[..size] == Packed(l[..], old(twin[..]))
    ensures l.Length <= MAX_BLOCK ==> DiffSize(l[..], old(twin[..])) < U32
  {
    hide Overwrite, Enc32, Records;
    ghost var t := twin[..];
    RecordsSize(l[..], t, 0);
    if l.Length <= MAX_BLOCK { BlockFits(l[..], t); }
    size := PackRecords(l, twin, out);
    RecordsStep(l[..], t, l.Length);
    if DiffSize(l[..], t) < U32 {
      assert out[4..size] + [] == out[4..size];
      Header(out[..], size, Enc32(size));
    }
    PutWord(out, 0, size);
  }

  lemma WrapsOn(total: nat, len: nat)
    ensures Wrap(total) <= total && Add32(Wrap(total), len) == Wrap(total + len)
    ensures total + len < U32 ==> Wrap(total) == total && Wrap(total + len) == total + len
  {
  }

  lemma Header(out: seq<byte>, size: nat, b: seq<byte>)
    requires |b| == 4 <= size <= |out|
    ensures Overwrite(out, 0, b)[..size] == b + out[4..size]
  {
  }

  /** `unpack_diff` on any buffer whose records stay in bounds. */
  method UnpackDiff(l: array<byte>, diff: array<byte>)
    requires l != diff && diff.Length >= 4
    requires var size := Dec32(diff[..4]); 4 <= size <= diff.Length && InBounds(diff[4..size], l.Length)
    modifies l
    ensures l[..] == Apply(old(l[..]), diff[4..Dec32(diff[..4])])
  {
    hide Dec32, Overwrite, InBounds, Apply;
    var size := Dec32(diff[..4]);
    ghost var r := l[..];
    var i := 4;
    while i < size
      invariant 4 <= i <= size && InBounds(diff[i..size], l.Length)
      invariant Apply(l[..], diff[i..size]) == Apply(r, diff[4..size])
    {
      ghost var d := diff[i..size];
      FirstRecord(d, l[..]);
      HeadSlices(diff[..], i, size, d);
      var index, len := Dec32(diff[i..i + 4]), Dec32(diff[i + 4..i + 8]);
      TailSlices(diff[..], i, size, d, len);
      i := i + 8;
      CopyBytes(l, index, diff, i, len);
      i := i + len;
    }
    assert diff[i..size] == [];
    EmptyDiff(l[..]);
  }

  lemma EmptyDiff(r: seq<byte>)
    ensures InBounds([], |r|) && Apply(r, []) == r
  {
  }

  lemma FirstRecord(d: seq<byte>, r: seq<byte>)
    requires d != [] && InBounds(d, |r|)
    ensures |d| >= 8
    ensures var k, s := Dec32(d[..4]), Dec32(d[4..8]);
            && 8 + s <= |d| && k + s <= |r| && InBounds(d[8 + s..], |r|)
            && Apply(r, d) == Apply(Overwrite(r, k, d[8..8 + s]), d[8 + s..])
  {
    hide Dec32, Overwrite;
  }

  lemma SliceOfSlice(diff: seq<byte>, i: nat, size: nat, a: nat, b: nat)
    requires i <= size <= |diff| && a <= b && i + b <= size
    ensures diff[i..size][a..b] == diff[i + a..i + b]
  {
    var d, e := diff[i..size][a..b], diff[i + a..i + b];
    forall x | 0 <= x < |d| ensures d[x] == e[x] { assert d[x] == diff[i..size][a + x] == diff[i + a + x]; }
    assert |d| == |e|;
  }

  lemma HeadSlices(diff: seq<byte>, i: nat, size: nat, d: seq<byte>)
    requires i <= size <= |diff| && d == diff[i..size] && |d| >= 8
    ensures d[..4] == diff[i..i + 4] && d[4..8] == diff[i + 4..i + 8]
  {
    assert d[..4] == d[0..4];
    SliceOfSlice(diff, i, size, 0, 4);
    SliceOfSlice(diff, i, size, 4, 8);
  }

  lemma TailSlices(diff: seq<byte>, i: nat, size: nat, d: seq<byte>, s: nat)
    requires i <= size <= |diff| && d == diff[i..size] && |d| >= 8 + s
    ensures d[8..8 + s] == diff[i + 8..i + 8 + s] && d[8 + s..] == diff[i + 8 + s..size]
  {
    assert d[8 + s..] == d[8 + s..size - i];
    SliceOfSlice(diff, i, size, 8, 8 + s);
    SliceOfSlice(diff, i, size, 8 + s, size - i);
  }
}
