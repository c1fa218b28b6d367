/** The object pool that returns nodes to the worker that created them. Each worker has a private
    list, a list that others return to under a lock, and one buffer for every other worker. */
module ReturnPool {

  type Node = nat
  type Worker = nat

  /** Where a node can be when it is not handed out; Taken and Hand are the local variables of a
      worker between the locked and the private part of a call. */
  datatype Place =
    | Local(w: Worker)
    | Remote(w: Worker)
    | Buffer(u: Worker, v: Worker)
    | Taken(w: Worker)
    | Hand(w: Worker)

  datatype Pc = Idle | Taking | Creating | Returning

  datatype Params = Params(workers: nat, threshold: nat)

  datatype Pool = Pool(
    lists: map<Place, seq<Node>>,
    pc: map<Worker, Pc>,
    owner: map<Node, Worker>,    // wk_num of every node ever created
    live: set<Node>,
    peak: map<Worker, nat>)      // the largest demand seen so far

  function At(lists: map<Place, seq<Node>>, p: Place): seq<Node>
  {
    if p in lists then lists[p] else []
  }

  function PcOf(s: Pool, w: Worker): Pc
  {
    if w in s.pc then s.pc[w] else Idle
  }

  datatype Action =
    | AllocLocal(w: Worker)              // pops con_local
    | AllocTake(w: Worker)               // takes con_remote, locked
    | AllocTaken(w: Worker)              // the rest of it becomes con_local
    | AllocMiss(w: Worker)               // finds both lists empty
    | AllocNew(w: Worker, n: Node)       // calls alloc_func
    | Free(w: Worker, n: Node)           // a return that needs no lock
    | FreeSplice(w: Worker, n: Node)     // passes a full buffer on, locked
    | FreeFinish(w: Worker)              // starts the buffer anew

  predicate Enabled(k: Params, s: Pool, a: Action)
  {
    a.w < k.workers &&
    match a
    case AllocLocal(w) => PcOf(s, w) == Idle && At(s.lists, Local(w)) != []
    case AllocTake(w) => PcOf(s, w) == Idle && At(s.lists, Local(w)) == [] && At(s.lists, Remote(w)) != []
    case AllocTaken(w) => PcOf(s, w) == Taking && At(s.lists, Taken(w)) != []
    case AllocMiss(w) => PcOf(s, w) == Idle && At(s.lists, Local(w)) == [] && At(s.lists, Remote(w)) == []
    case AllocNew(w, n) => PcOf(s, w) == Creating && n !in s.owner
    case Free(w, n) =>
      && PcOf(s, w) == Idle && n in s.live && n in s.owner
      && (s.owner[n] == w || |At(s.lists, Buffer(w, s.owner[n]))| < k.threshold)
    case FreeSplice(w, n) =>
      && PcOf(s, w) == Idle && n in s.live && n in s.owner
      && s.owner[n] != w && |At(s.lists, Buffer(w, s.owner[n]))| >= k.threshold
    case FreeFinish(w) =>
      PcOf(s, w) == Returning && At(s.lists, Hand(w)) != [] && At(s.lists, Hand(w))[0] in s.owner
  }

  /** What one step does, before the record of the peak demand is brought up to date. */
  function Move(s: Pool, a: Action): Pool
  {
    match a
    case AllocLocal(w) =>
      var l := At(s.lists, Local(w));
      if l == [] then s
      else s.(lists := s.lists[Local(w) := l[1..]], live := s.live + {l[0]}, owner := s.owner[l[0] := w])
    case AllocTake(w) =>
      s.(lists := s.lists[Taken(w) := At(s.lists, Remote(w))][Remote(w) := []], pc := s.pc[w := Taking])
    case AllocTaken(w) =>
      var l := At(s.lists, Taken(w));
      if l == [] then s
      else s.(lists := s.lists[Local(w) := l[1..]][Taken(w) := []], live := s.live + {l[0]},
              owner := s.owner[l[0] := w], pc := s.pc[w := Idle])
    case AllocMiss(w) => s.(pc := s.pc[w := Creating])
    case AllocNew(w, n) => s.(owner := s.owner[n := w], live := s.live + {n}, pc := s.pc[w := Idle])
    case Free(w, n) =>
      var p := if n in s.owner && s.owner[n] != w then Buffer(w, s.owner[n]) else Local(w);
      s.(lists := s.lists[p := [n] + At(s.lists, p)], live := s.live - {n})
    case FreeSplice(w, n) =>
      var v := if n in s.owner then s.owner[n] else w;
      s.(lists := s.lists[Remote(v) := At(s.lists, Buffer(w, v)) + At(s.lists, Remote(v))][Buffer(w, v) := []][Hand(w) := [n]],
         live := s.live - {n}, pc := s.pc[w := Returning])
    case FreeFinish(w) =>
      var l := At(s.lists, Hand(w));
      if l == [] || l[0] !in s.owner then s
      else s.(lists := s.lists[Buffer(w, s.owner[l[0]]) := l][Hand(w) := []], pc := s.pc[w := Idle])
  }

  /** The nodes of v that are handed out. */
  function LiveOf(s: Pool, v: Worker): set<Node>
  {
    set n | n in s.live && n in s.owner && s.owner[n] == v
  }

  /** What v's users hold, counting a request for which a node is being created. */
  function Demand(s: Pool, v: Worker): nat
  {
    |LiveOf(s, v)| + if PcOf(s, v) == Creating then 1 else 0
  }

  function PeakOf(s: Pool, v: Worker): nat
  {
    if v in s.peak then s.peak[v] else 0
  }

  function Record(k: Params, s: Pool): Pool
  {
    s.(peak := map v | 0 <= v < k.workers :: if PeakOf(s, v) < Demand(s, v) then Demand(s, v) else PeakOf(s, v))
  }

  function Step(k: Params, s: Pool, a: Action): Pool
  {
    if Enabled(k, s, a) then Record(k, Move(s, a)) else s
  }

  const Empty := Pool(map[], map[], map[], {}, map[])

  /** The pool after any interleaving of steps; what is not enabled does nothing. */
  function Run(k: Params, acts: seq<Action>): Pool
    decreases |acts|
  {
    var n := |acts|;
    if n == 0 then Empty else Step(k, Run(k, acts[..n - 1]), acts[n - 1])
  }

  // ----- Where every node is

  /** The place of a node: handed out or in one list. */
  datatype Where = Out | In(p: Place)

  type Map = map<Node, Where>

  ghost predicate Lists(lists: map<Place, seq<Node>>, at: Map)
  {
    && (forall p, i :: p in lists && 0 <= i < |lists[p]| ==> lists[p][i] in at && at[lists[p][i]] == In(p))
    && (forall p, i, j :: p in lists && 0 <= i < j < |lists[p]| ==> lists[p][i] != lists[p][j])
    && (forall n :: n in at && at[n].In? ==> n in At(lists, at[n].p))
  }

  /** Each list holds exactly the nodes placed there, each once, and the others are handed out. */
  ghost predicate Placed(lists: map<Place, seq<Node>>, live: set<Node>, at: Map)
  {
    Lists(lists, at) && forall n :: n in live <==> n in at && at[n] == Out
  }

  lemma PopPlaced(lists: map<Place, seq<Node>>, live: set<Node>, at: Map, p: Place)
    requires Placed(lists, live, at) && At(lists, p) != []
    ensures var l := lists[p]; l[0] in at && Placed(lists[p := l[1..]], live + {l[0]}, at[l[0] := Out])
  {
    var l := lists[p];
    var lists', at' := lists[p := l[1..]], at[l[0] := Out];
    forall n | n in at' && at'[n].In? ensures n in At(lists', at'[n].p) {
      if at[n].p == p {
        var i :| 0 <= i < |l| && l[i] == n;
        assert l[1..][i - 1] == n;
      }
    }
  }

  lemma PushPlaced(lists: map<Place, seq<Node>>, live: set<Node>, at: Map, p: Place, n: Node)
    requires Placed(lists, live, at) && n in live
    ensures Placed(lists[p := [n] + At(lists, p)], live - {n}, at[n := In(p)])
  {
    var l := [n] + At(lists, p);
    var lists', at' := lists[p := l], at[n := In(p)];
    forall m | m in at' && at'[m].In? ensures m in At(lists', at'[m].p) {
      if m != n && at[m].p == p {
        var i :| 0 <= i < |lists[p]| && lists[p][i] == m;
        assert l[i + 1] == m;
      }
    }
  }

  function MoveAll(at: Map, p: Place, q: Place): Map
  {
    map n | n in at :: if at[n] == In(p) then In(q) else at[n]
  }

  lemma MovePlaced(lists: map<Place, seq<Node>>, live: set<Node>, at: Map, p: Place, q: Place)
    requires Placed(lists, live, at) && p != q
    ensures Placed(lists[q := At(lists, p) + At(lists, q)][p := []], live, MoveAll(at, p, q))
  {
    var a, b := At(lists, p), At(lists, q);
    var lists', at' := lists[q := a + b][p := []], MoveAll(at, p, q);
    forall m | m in at' && at'[m].In? ensures m in At(lists', at'[m].p) {
      if at[m] == In(p) {
        var i :| 0 <= i < |a| && a[i] == m;
        assert (a + b)[i] == m;
      } else if at[m] == In(q) {
        var i :| 0 <= i < |b| && b[i] == m;
        assert (a + b)[|a| + i] == m;
      }
    }
  }

  /** The list a freed node goes to when no lock is needed. */
  function FreePlace(s: Pool, w: Worker, n: Node): Place
  {
    if n in s.owner && s.owner[n] != w then Buffer(w, s.owner[n]) else Local(w)
  }

  function OwnerOr(s: Pool, n: Node, w: Worker): Worker
  {
    if n in s.owner then s.owner[n] else w
  }

  /** Where the nodes are after a step. */
  ghost function AtAfter(s: Pool, at: Map, a: Action): Map
  {
    match a
    case AllocLocal(w) => if At(s.lists, Local(w)) == [] then at else at[At(s.lists, Local(w))[0] := Out]
    case AllocTake(w) => MoveAll(at, Remote(w), Taken(w))
    case AllocTaken(w) =>
      if At(s.lists, Taken(w)) == [] then at
      else MoveAll(at, Taken(w), Local(w))[At(s.lists, Taken(w))[0] := Out]
    case AllocMiss(w) => at
    case AllocNew(w, n) => at[n := Out]
    case Free(w, n) => at[n := In(FreePlace(s, w, n))]
    case FreeSplice(w, n) =>
      MoveAll(at, Buffer(w, OwnerOr(s, n, w)), Remote(OwnerOr(s, n, w)))[n := In(Hand(w))]
    case FreeFinish(w) =>
      var l := At(s.lists, Hand(w));
      if l == [] || l[0] !in s.owner then at else MoveAll(at, Hand(w), Buffer(w, s.owner[l[0]]))
  }

  /** What a worker holds in its hands fits where it is in its call. */
  predicate PcOk(lists: map<Place, seq<Node>>, owner: map<Node, Worker>, w: Worker, pc: Pc)
  {
    && (pc != Taking ==> At(lists, Taken(w)) == [])
    && (pc == Taking ==> At(lists, Taken(w)) != [] && At(lists, Local(w)) == [])
    && (pc != Returning ==> At(lists, Hand(w)) == [])
    && (pc == Returning ==>
          |At(lists, Hand(w))| == 1 && At(lists, Hand(w))[0] in owner && At(lists, Buffer(w, owner[At(lists, Hand(w))[0]])) == [])
  }

  ghost predicate PcsOk(s: Pool)
  {
    forall w: Worker {:trigger PcOf(s, w)} :: PcOk(s.lists, s.owner, w, PcOf(s, w))
  }

  /** A list is kept only for the owner of its nodes. */
  predicate ForOwner(p: Place, v: Worker, workers: nat)
  {
    match p
    case Local(w) => w == v
    case Remote(w) => w == v
    case Taken(w) => w == v
    case Buffer(u, w) => w == v && u != v && u < workers
    case Hand(w) => w != v && w < workers
  }

  predicate Belongs(owner: map<Node, Worker>, at: Map, workers: nat)
  {
    && at.Keys == owner.Keys
    && forall n :: n in at && n in owner ==> owner[n] < workers && (at[n].In? ==> ForOwner(at[n].p, owner[n], workers))
  }

  ghost predicate Buffered(lists: map<Place, seq<Node>>, threshold: nat)
  {
    forall u, v :: |At(lists, Buffer(u, v))| <= threshold
  }

  // ----- Every step keeps the nodes in place

  lemma StepPlaced(k: Params, s: Pool, at: Map, a: Action)
    requires Placed(s.lists, s.live, at) && PcsOk(s) && Belongs(s.owner, at, k.workers) && Enabled(k, s, a)
    ensures var s' := Move(s, a); Placed(s'.lists, s'.live, AtAfter(s, at, a))
  {
    hide Placed;
    match a
    case AllocLocal(w) =>
      PopPlaced(s.lists, s.live, at, Local(w));
    case AllocTake(w) =>
      assert PcOk(s.lists, s.owner, w, PcOf(s, w));
      MovePlaced(s.lists, s.live, at, Remote(w), Taken(w));
      assert At(s.lists, Remote(w)) + [] == At(s.lists, Remote(w));
    case AllocTaken(w) =>
      TakenPlaced(s, at, w);
    case AllocMiss(w) =>
    case AllocNew(w, n) =>
      NewPlaced(s.lists, s.live, at, n);
    case Free(w, n) =>
      PushPlaced(s.lists, s.live, at, FreePlace(s, w, n), n);
    case FreeSplice(w, n) =>
      SplicePlaced(s, at, w, n);
    case FreeFinish(w) =>
      assert PcOk(s.lists, s.owner, w, PcOf(s, w));
      var l := At(s.lists, Hand(w));
      MovePlaced(s.lists, s.live, at, Hand(w), Buffer(w, s.owner[l[0]]));
      assert l + [] == l;
  }

  lemma NewPlaced(lists: map<Place, seq<Node>>, live: set<Node>, at: Map, n: Node)
    requires Placed(lists, live, at) && n !in at
    ensures Placed(lists, live + {n}, at[n := Out])
  {
  }

  lemma TakenPlaced(s: Pool, at: Map, w: Worker)
    requires Placed(s.lists, s.live, at) && PcsOk(s) && PcOf(s, w) == Taking && At(s.lists, Taken(w)) != []
    ensures var s' := Move(s, AllocTaken(w)); Placed(s'.lists, s'.live, AtAfter(s, at, AllocTaken(w)))
  {
    hide Placed;
    assert PcOk(s.lists, s.owner, w, PcOf(s, w));
    var l := At(s.lists, Taken(w));
    MovePlaced(s.lists, s.live, at, Taken(w), Local(w));
    assert l + [] == l;
    var lists := s.lists[Local(w) := l][Taken(w) := []];
    PopPlaced(lists, s.live, MoveAll(at, Taken(w), Local(w)), Local(w));
    assert lists[Local(w) := l[1..]] == s.lists[Local(w) := l[1..]][Taken(w) := []];
  }

  lemma SplicePlaced(s: Pool, at: Map, w: Worker, n: Node)
    requires Placed(s.lists, s.live, at) && PcsOk(s) && PcOf(s, w) == Idle && n in s.live && n in s.owner
    ensures var s' := Move(s, FreeSplice(w, n)); Placed(s'.lists, s'.live, AtAfter(s, at, FreeSplice(w, n)))
  {
    hide Placed;
    assert PcOk(s.lists, s.owner, w, PcOf(s, w));
    var p, q := Buffer(w, s.owner[n]), Remote(s.owner[n]);
    MovePlaced(s.lists, s.live, at, p, q);
    var lists := s.lists[q := At(s.lists, p) + At(s.lists, q)][p := []];
    PushPlaced(lists, s.live, MoveAll(at, p, q), Hand(w), n);
    assert [n] + [] == [n];
  }

  lemma HeadIsPlaced(lists: map<Place, seq<Node>>, live: set<Node>, at: Map, p: Place)
    requires Placed(lists, live, at) && At(lists, p) != []
    ensures At(lists, p)[0] in at && at[At(lists, p)[0]] == In(p)
  {
    assert lists[p][0] in at;
  }

  lemma LiveIsPlaced(lists: map<Place, seq<Node>>, live: set<Node>, at: Map, n: Node)
    requires Placed(lists, live, at) && n in live
    ensures n in at && at[n] == Out
  {
  }

  /** The worker number written into a node that is handed out again is the one it had. */
  lemma StepOwner(k: Params, s: Pool, at: Map, a: Action)
    requires Placed(s.lists, s.live, at) && Belongs(s.owner, at, k.workers) && Enabled(k, s, a)
    ensures forall n :: n in s.owner ==> n in Move(s, a).owner && Move(s, a).owner[n] == s.owner[n]
  {
    hide Placed;
    match a
    case AllocLocal(w) => HeadIsPlaced(s.lists, s.live, at, Local(w));
    case AllocTaken(w) => HeadIsPlaced(s.lists, s.live, at, Taken(w));
    case _ =>
  }

  lemma StepBelongs(k: Params, s: Pool, at: Map, a: Action)
    requires Placed(s.lists, s.live, at) && Belongs(s.owner, at, k.workers) && PcsOk(s) && Enabled(k, s, a)
    ensures Belongs(Move(s, a).owner, AtAfter(s, at, a), k.workers)
  {
    hide Placed, PcsOk, PcOk;
    match a
    case AllocLocal(w) => HeadIsPlaced(s.lists, s.live, at, Local(w));
    case AllocTake(w) =>
    case AllocTaken(w) => HeadIsPlaced(s.lists, s.live, at, Taken(w));
    case AllocMiss(w) =>
    case AllocNew(w, n) =>
    case Free(w, n) => LiveIsPlaced(s.lists, s.live, at, n);
    case FreeSplice(w, n) => LiveIsPlaced(s.lists, s.live, at, n);
    case FreeFinish(w) =>
      OneInHand(s, w);
      FinishBelongs(k, s, at, w);
  }

  lemma OneInHand(s: Pool, w: Worker)
    requires PcsOk(s) && PcOf(s, w) == Returning
    ensures |At(s.lists, Hand(w))| == 1
  {
  }

  /** A hand holds one node, so what is moved to the buffer belongs there. */
  lemma FinishBelongs(k: Params, s: Pool, at: Map, w: Worker)
    requires Placed(s.lists, s.live, at) && Belongs(s.owner, at, k.workers) && |At(s.lists, Hand(w))| == 1
    ensures Belongs(s.owner, AtAfter(s, at, FreeFinish(w)), k.workers)
  {
    HeadIsPlaced(s.lists, s.live, at, Hand(w));
    OnlyOne(s.lists, s.live, at, Hand(w));
    hide Placed;
  }

  lemma OnlyOne(lists: map<Place, seq<Node>>, live: set<Node>, at: Map, p: Place)
    requires Placed(lists, live, at) && |At(lists, p)| == 1
    ensures forall n :: n in at && at[n] == In(p) ==> n == At(lists, p)[0]
  {
  }

  lemma StepBuffered(k: Params, s: Pool, a: Action)
    requires Buffered(s.lists, k.threshold) && Enabled(k, s, a) && k.threshold >= 1 && PcsOk(s)
    ensures Buffered(Move(s, a).lists, k.threshold)
  {
    assert PcOk(s.lists, s.owner, a.w, PcOf(s, a.w));
  }

  lemma StepPcs(k: Params, s: Pool, a: Action)
    requires PcsOk(s) && Enabled(k, s, a)
    requires forall n :: n in s.owner ==> n in Move(s, a).owner && Move(s, a).owner[n] == s.owner[n]
    ensures PcsOk(Move(s, a))
  {
    hide PcOk, Move, Enabled;
    var s' := Move(s, a);
    forall w: Worker ensures PcOk(s'.lists, s'.owner, w, PcOf(s', w)) {
      assert PcOk(s.lists, s.owner, w, PcOf(s, w)) && PcOk(s.lists, s.owner, a.w, PcOf(s, a.w));
      PcKept(k, s, a, w);
    }
  }

  lemma PcKept(k: Params, s: Pool, a: Action, w: Worker)
    requires Enabled(k, s, a) && PcOk(s.lists, s.owner, w, PcOf(s, w)) && PcOk(s.lists, s.owner, a.w, PcOf(s, a.w))
    requires forall n :: n in s.owner ==> n in Move(s, a).owner && Move(s, a).owner[n] == s.owner[n]
    ensures PcOk(Move(s, a).lists, Move(s, a).owner, w, PcOf(Move(s, a), w))
  {
  }

  // ----- How many nodes are ever created

  /** The nodes ever created for v. */
  function Owned(owner: map<Node, Worker>, v: Worker): set<Node>
  {
    set n | n in owner && owner[n] == v
  }

  function Elems(l: seq<Node>): set<Node>
  {
    set n | n in l
  }

  lemma {:induction false} ElemsSize(l: seq<Node>)
    ensures |Elems(l)| <= |l|
  {
    if l == [] {
      assert Elems(l) == {};
    } else {
      ElemsSize(l[1..]);
      assert Elems(l) == {l[0]} + Elems(l[1..]);
    }
  }

  /** What u holds back of v's nodes. */
  function Stash(lists: map<Place, seq<Node>>, owner: map<Node, Worker>, u: Worker, v: Worker): set<Node>
  {
    Elems(At(lists, Buffer(u, v))) + set n | n in At(lists, Hand(u)) && n in owner && owner[n] == v
  }

  lemma StashSize(s: Pool, threshold: nat, u: Worker, v: Worker)
    requires Buffered(s.lists, threshold) && threshold >= 1 && PcOk(s.lists, s.owner, u, PcOf(s, u))
    ensures |Stash(s.lists, s.owner, u, v)| <= threshold
  {
    var b, h := At(s.lists, Buffer(u, v)), At(s.lists, Hand(u));
    var held := set n | n in h && n in s.owner && s.owner[n] == v;
    ElemsSize(b);
    if held == {} {
      assert Stash(s.lists, s.owner, u, v) == Elems(b);
    } else {
      assert b == [] && |h| == 1;
      assert held <= {h[0]};
      assert Stash(s.lists, s.owner, u, v) == {h[0]};
    }
  }

  /** What the workers below m, except v itself, hold back of v's nodes. */
  function HeldBack(lists: map<Place, seq<Node>>, owner: map<Node, Worker>, v: Worker, m: nat): set<Node>
  {
    if m == 0 then {}
    else HeldBack(lists, owner, v, m - 1) + if m - 1 == v then {} else Stash(lists, owner, m - 1, v)
  }

  lemma {:induction false} HeldBackSize(s: Pool, threshold: nat, v: Worker, m: nat)
    requires Buffered(s.lists, threshold) && threshold >= 1 && PcsOk(s)
    ensures |HeldBack(s.lists, s.owner, v, m)| <= (if v < m then m - 1 else m) * threshold
  {
    hide Stash, Buffered, PcsOk, PcOk;
    if m > 0 {
      HeldBackSize(s, threshold, v, m - 1);
      if m - 1 != v {
        var a, b := HeldBack(s.lists, s.owner, v, m - 1), Stash(s.lists, s.owner, m - 1, v);
        PcOfWorker(s, m - 1);
        StashSize(s, threshold, m - 1, v);
        OneMore(a, b, if v < m - 1 then m - 2 else m - 1, threshold);
      } else {
        assert HeldBack(s.lists, s.owner, v, m) == HeldBack(s.lists, s.owner, v, m - 1);
      }
    }
  }

  lemma PcOfWorker(s: Pool, w: Worker)
    requires PcsOk(s)
    ensures PcOk(s.lists, s.owner, w, PcOf(s, w))
  {
  }

  lemma OneMore(a: set<Node>, b: set<Node>, c: nat, threshold: nat)
    requires |a| <= c * threshold && |b| <= threshold
    ensures |a + b| <= (c + 1) * threshold
  {
    SumSize(a, b);
    assert (c + 1) * threshold == c * threshold + threshold;
  }

  lemma SumSize(a: set<Node>, b: set<Node>)
    ensures |a + b| <= |a| + |b|
  {
    assert a + b == a + (b - a);
  }

  lemma {:induction false} InHeldBack(lists: map<Place, seq<Node>>, owner: map<Node, Worker>, u: Worker, v: Worker, m: nat, n: Node)
    requires u < m && u != v && n in Stash(lists, owner, u, v)
    ensures n in HeldBack(lists, owner, v, m)
  {
    if u < m - 1 { InHeldBack(lists, owner, u, v, m - 1, n); }
  }

  /** When v finds both its lists empty, its nodes are handed out or held back by others. */
  lemma MissMeansHeld(k: Params, s: Pool, at: Map, v: Worker)
    requires Placed(s.lists, s.live, at) && Belongs(s.owner, at, k.workers) && PcsOk(s)
    requires PcOf(s, v) == Idle && At(s.lists, Local(v)) == [] && At(s.lists, Remote(v)) == []
    ensures Owned(s.owner, v) <= LiveOf(s, v) + HeldBack(s.lists, s.owner, v, k.workers)
  {
    assert PcOk(s.lists, s.owner, v, PcOf(s, v));
    forall n | n in Owned(s.owner, v) ensures n in LiveOf(s, v) + HeldBack(s.lists, s.owner, v, k.workers) {
      assert n in at;
      if at[n].In? {
        var p := at[n].p;
        assert n in At(s.lists, p) && ForOwner(p, v, k.workers);
        assert p.Buffer? || p.Hand?;
        var u := if p.Buffer? then p.u else p.w;
        InHeldBack(s.lists, s.owner, u, v, k.workers, n);
      }
    }
  }

  /** Enough demand has been seen to account for every node created for v. */
  predicate Bounded(k: Params, s: Pool, v: Worker)
  {
    |Owned(s.owner, v)| + (if PcOf(s, v) == Creating then 1 else 0) <= PeakOf(s, v) + (k.workers - 1) * k.threshold
  }

  ghost predicate Inv(k: Params, s: Pool, at: Map)
  {
    && Placed(s.lists, s.live, at) && Belongs(s.owner, at, k.workers) && PcsOk(s) && Buffered(s.lists, k.threshold)
    && forall v :: 0 <= v < k.workers ==> Bounded(k, s, v)
  }

  lemma StepBounded(k: Params, s: Pool, at: Map, a: Action, v: Worker)
    requires Inv(k, s, at) && Enabled(k, s, a) && v < k.workers && k.threshold >= 1
    ensures Bounded(k, Step(k, s, a), v)
  {
    hide Placed, Belongs, PcsOk, Buffered, LiveOf, HeldBack, Owned, Move, Enabled, Step, Demand;
    assert Bounded(k, s, v);
    PeakSeen(k, s, a, v);
    if a.AllocMiss? && a.w == v {
      MissDemand(k, s, v);
      MissMeansHeld(k, s, at, v);
      HeldBackSize(s, k.threshold, v, k.workers);
      SumSize(LiveOf(s, v), HeldBack(s.lists, s.owner, v, k.workers));
      SubSize(Owned(s.owner, v), LiveOf(s, v) + HeldBack(s.lists, s.owner, v, k.workers));
    } else if a.AllocNew? && a.w == v {
      OneCreated(k, s, a);
      NewIsIdle(k, s, a);
    } else {
      SameOwned(k, s, at, a, v);
      StepIs(k, s, a);
    }
  }

  lemma PeakSeen(k: Params, s: Pool, a: Action, v: Worker)
    requires Enabled(k, s, a) && v < k.workers
    ensures var t := Step(k, s, a); PeakOf(s, v) <= PeakOf(t, v) && Demand(t, v) <= PeakOf(t, v)
  {
    hide Enabled, Demand, Move;
    MovedPeak(s, a);
    RecordedDemand(k, Move(s, a), v);
  }

  lemma MissDemand(k: Params, s: Pool, v: Worker)
    requires Enabled(k, s, AllocMiss(v))
    ensures var t := Step(k, s, AllocMiss(v));
            && PcOf(s, v) == Idle && At(s.lists, Local(v)) == [] && At(s.lists, Remote(v)) == []
            && PcOf(t, v) == Creating && t.owner == s.owner && Demand(t, v) == |LiveOf(s, v)| + 1
  {
    StepIs(k, s, AllocMiss(v));
    var t := Step(k, s, AllocMiss(v));
    hide Step, LiveOf;
    SameLive(s, t, v);
  }

  lemma NewIsIdle(k: Params, s: Pool, a: Action)
    requires Enabled(k, s, a) && a.AllocNew?
    ensures PcOf(Step(k, s, a), a.w) == Idle
  {
  }

  lemma SubSize(a: set<Node>, b: set<Node>)
    requires a <= b
    ensures |a| <= |b|
  {
    assert b == a + (b - a);
  }

  lemma SameLive(s: Pool, t: Pool, v: Worker)
    requires s.live == t.live && s.owner == t.owner
    ensures LiveOf(s, v) == LiveOf(t, v)
  {
  }

  lemma SameOwned(k: Params, s: Pool, at: Map, a: Action, v: Worker)
    requires Inv(k, s, at) && Enabled(k, s, a) && !(a.AllocMiss? && a.w == v) && !(a.AllocNew? && a.w == v)
    ensures Owned(Move(s, a).owner, v) == Owned(s.owner, v) && (PcOf(Move(s, a), v) == Creating ==> PcOf(s, v) == Creating)
  {
    hide Placed, PcsOk, Buffered, Bounded;
    StepOwner(k, s, at, a);
    match a
    case AllocLocal(w) => HeadIsPlaced(s.lists, s.live, at, Local(w));
    case AllocTaken(w) => HeadIsPlaced(s.lists, s.live, at, Taken(w));
    case _ =>
  }

  lemma StepKeepsInv(k: Params, s: Pool, at: Map, a: Action)
    requires Inv(k, s, at) && Enabled(k, s, a) && k.threshold >= 1
    ensures Inv(k, Step(k, s, a), AtAfter(s, at, a))
  {
    hide Placed, Belongs, PcOk, Buffered, Bounded, Move, AtAfter, Enabled;
    var s' := Move(s, a);
    StepPlaced(k, s, at, a);
    StepOwner(k, s, at, a);
    StepBelongs(k, s, at, a);
    StepPcs(k, s, a);
    StepBuffered(k, s, a);
    assert PcsOk(Step(k, s, a)) by { PeakIsNoPc(k, s'); }
    forall v: nat | v < k.workers ensures Bounded(k, Step(k, s, a), v) { StepBounded(k, s, at, a, v); }
  }

  lemma PeakIsNoPc(k: Params, s: Pool)
    requires PcsOk(s)
    ensures PcsOk(Record(k, s))
  {
    forall w: Worker ensures PcOf(Record(k, s), w) == PcOf(s, w) {}
  }

  // ----- Over every run

  lemma {:induction false} RunKeepsInv(k: Params, acts: seq<Action>) returns (at: Map)
    requires k.threshold >= 1
    ensures Inv(k, Run(k, acts), at)
    decreases |acts|
  {
    var n := |acts|;
    if n == 0 {
      at := map[];
      EmptyInv(k);
    } else {
      hide Inv, Enabled, Move, AtAfter;
      at := RunKeepsInv(k, acts[..n - 1]);
      var s := Run(k, acts[..n - 1]);
      if Enabled(k, s, acts[n - 1]) {
        StepKeepsInv(k, s, at, acts[n - 1]);
        at := AtAfter(s, at, acts[n - 1]);
      }
    }
  }

  lemma EmptyInv(k: Params)
    ensures Inv(k, Empty, map[])
  {
    assert forall v :: Owned(Empty.owner, v) == {};
    if k.workers > 0 {
      assert 0 <= (k.workers - 1) * k.threshold;
    }
  }

  /** Every node ever created is handed out or in exactly one list, once. */
  lemma OnePlaceEach(k: Params, acts: seq<Action>, n: Node)
    requires k.threshold >= 1 && n in Run(k, acts).owner
    ensures var s := Run(k, acts);
            if n in s.live then forall p :: n !in At(s.lists, p)
            else exists p :: n in At(s.lists, p) && ForOwner(p, s.owner[n], k.workers) && forall q :: n in At(s.lists, q) ==> q == p
    ensures var s := Run(k, acts);
            forall p, i, j :: 0 <= i < j < |At(s.lists, p)| ==> At(s.lists, p)[i] != At(s.lists, p)[j]
  {
    var at := RunKeepsInv(k, acts);
    var s := Run(k, acts);
    hide Run, PcsOk, Buffered, Bounded;
    forall p | n in At(s.lists, p) ensures at[n] == In(p) {
      var i :| 0 <= i < |s.lists[p]| && s.lists[p][i] == n;
    }
    if n !in s.live {
      assert n in At(s.lists, at[n].p);
    }
  }

  /** A producer buffer never holds more than the threshold. */
  lemma BuffersStaySmall(k: Params, acts: seq<Action>, u: Worker, v: Worker)
    requires k.threshold >= 1
    ensures |At(Run(k, acts).lists, Buffer(u, v))| <= k.threshold
  {
    var at := RunKeepsInv(k, acts);
  }

  /** A node keeps its owner. */
  lemma {:induction false} OwnerNeverChanges(k: Params, acts: seq<Action>, j: nat, n: Node)
    requires k.threshold >= 1 && j <= |acts| && n in Run(k, acts[..j]).owner
    ensures n in Run(k, acts).owner && Run(k, acts).owner[n] == Run(k, acts[..j]).owner[n]
    decreases |acts|
  {
    var m := |acts|;
    if j == m {
      assert acts[..j] == acts;
    } else {
      assert acts[..m - 1][..j] == acts[..j];
      OwnerNeverChanges(k, acts[..m - 1], j, n);
      var at := RunKeepsInv(k, acts[..m - 1]);
      var s, a := Run(k, acts[..m - 1]), acts[m - 1];
      hide Enabled, Move, Placed, Belongs, PcsOk, Buffered, Bounded;
      if Enabled(k, s, a) { StepOwner(k, s, at, a); }
    }
  }

  /** The recorded peak is the demand at some point of the run. */
  lemma {:induction false} PeakWasSeen(k: Params, acts: seq<Action>, v: Worker) returns (j: nat)
    ensures j <= |acts| && PeakOf(Run(k, acts), v) <= Demand(Run(k, acts[..j]), v)
    decreases |acts|
  {
    hide Demand, Enabled, Move;
    var m := |acts|;
    if m == 0 {
      j := 0;
    } else {
      j := PeakWasSeen(k, acts[..m - 1], v);
      assert acts[..m - 1][..j] == acts[..j] && acts[..m] == acts;
      var s, a := Run(k, acts[..m - 1]), acts[m - 1];
      if Enabled(k, s, a) {
        MovedPeak(s, a);
        RecordedDemand(k, Move(s, a), v);
        if Demand(Run(k, acts), v) > Demand(Run(k, acts[..j]), v) { j := m; }
      }
    }
  }

  lemma MovedPeak(s: Pool, a: Action)
    ensures Move(s, a).peak == s.peak
  {
  }

  lemma RecordedDemand(k: Params, s: Pool, v: Worker)
    ensures Demand(Record(k, s), v) == Demand(s, v)
    ensures PeakOf(Record(k, s), v) <= PeakOf(s, v) || PeakOf(Record(k, s), v) == Demand(s, v)
  {
    assert LiveOf(Record(k, s), v) == LiveOf(s, v);
  }

  /** The pool is free from resource exhaustion: the nodes ever created for a worker never exceed its
      demand at some moment of the run by more than the other workers may hold back. */
  lemma CreatedIsBounded(k: Params, acts: seq<Action>, v: Worker) returns (j: nat)
    requires k.threshold >= 1 && v < k.workers
    ensures j <= |acts|
    ensures |Owned(Run(k, acts).owner, v)| <= Demand(Run(k, acts[..j]), v) + (k.workers - 1) * k.threshold
    ensures |Owned(Run(k, acts).owner, v)| <= |LiveOf(Run(k, acts[..j]), v)| + 1 + (k.workers - 1) * k.threshold
  {
    var at := RunKeepsInv(k, acts);
    assert Bounded(k, Run(k, acts), v);
    j := PeakWasSeen(k, acts, v);
    hide Run, Owned, LiveOf, Inv;
  }

  // ----- When the nodes handed out alone give the bound

  /** The pool after the first i steps. */
  function After(k: Params, acts: seq<Action>, i: nat): Pool
    requires i <= |acts|
  {
    Run(k, acts[..i])
  }

  lemma AfterStep(k: Params, acts: seq<Action>, i: nat)
    requires i < |acts|
    ensures After(k, acts, i + 1) == Step(k, After(k, acts, i), acts[i])
  {
    assert acts[..i + 1][..i] == acts[..i];
  }

  lemma AfterPrefix(k: Params, acts: seq<Action>, n: nat, i: nat)
    requires i <= n <= |acts|
    ensures After(k, acts[..n], i) == After(k, acts, i)
  {
    assert acts[..n][..i] == acts[..i];
  }

  lemma AfterAll(k: Params, acts: seq<Action>)
    ensures After(k, acts, |acts|) == Run(k, acts)
  {
    assert acts[..|acts|] == acts;
  }

  /** Step i finds both lists of v empty. */
  predicate MissAt(k: Params, acts: seq<Action>, v: Worker, i: nat)
    requires i < |acts|
  {
    acts[i] == AllocMiss(v) && Enabled(k, After(k, acts, i), acts[i])
  }

  /** Step i creates a node for v. */
  predicate NewAt(k: Params, acts: seq<Action>, v: Worker, i: nat)
    requires i < |acts|
  {
    acts[i].AllocNew? && acts[i].w == v && Enabled(k, After(k, acts, i), acts[i])
  }

  /** Step i returns a node of v while v is creating one. */
  predicate OvertakenAt(k: Params, acts: seq<Action>, v: Worker, i: nat)
    requires i < |acts|
  {
    var s, a := After(k, acts, i), acts[i];
    Enabled(k, s, a) && PcOf(s, v) == Creating && Returns(s, a, v)
  }

  lemma OvertakenPrefix(k: Params, acts: seq<Action>, n: nat, v: Worker, i: nat)
    requires i < n <= |acts|
    ensures OvertakenAt(k, acts[..n], v, i) == OvertakenAt(k, acts, v, i)
  {
    hide Run, Enabled, Returns;
    AfterPrefix(k, acts, n, i);
  }

  predicate Returns(s: Pool, a: Action, v: Worker)
  {
    (a.Free? || a.FreeSplice?) && a.n in s.owner && s.owner[a.n] == v
  }

  /** From step m to before step n, v is creating one node. */
  predicate CreatingFrom(k: Params, acts: seq<Action>, v: Worker, m: nat, n: nat)
    requires m < n <= |acts|
  {
    MissAt(k, acts, v, m) && forall i :: m < i <= n ==> PcOf(After(k, acts, i), v) == Creating
  }

  /** While v creates a node it has the same nodes, and fewer handed out only if one is returned. */
  lemma WhileCreating(k: Params, s: Pool, at: Map, a: Action, v: Worker)
    requires Inv(k, s, at) && Enabled(k, s, a) && PcOf(s, v) == Creating && !(a.AllocNew? && a.w == v)
    ensures var t := Step(k, s, a);
            && PcOf(t, v) == Creating && Owned(t.owner, v) == Owned(s.owner, v) && LiveOf(t, v) <= LiveOf(s, v)
            && (!Returns(s, a, v) ==> LiveOf(t, v) == LiveOf(s, v))
  {
    hide Placed, PcsOk, Buffered, Bounded;
    StepOwner(k, s, at, a);
    SameOwned(k, s, at, a, v);
    match a
    case AllocLocal(w) => HeadIsPlaced(s.lists, s.live, at, Local(w));
    case AllocTaken(w) => HeadIsPlaced(s.lists, s.live, at, Taken(w));
    case _ =>
  }

  /** The request for which v is creating a node. */
  lemma {:induction false} LastMiss(k: Params, acts: seq<Action>, v: Worker) returns (m: nat)
    requires k.threshold >= 1 && v < k.workers && PcOf(Run(k, acts), v) == Creating
    ensures m < |acts| && CreatingFrom(k, acts, v, m, |acts|)
    ensures var s, t := After(k, acts, m), Run(k, acts);
            && Owned(t.owner, v) == Owned(s.owner, v) && LiveOf(t, v) <= LiveOf(s, v)
            && ((forall i :: m < i < |acts| ==> !OvertakenAt(k, acts, v, i)) ==> LiveOf(t, v) == LiveOf(s, v))
    decreases |acts|
  {
    hide Enabled, Inv, Owned, LiveOf, Step, Returns;
    var n := |acts| - 1;
    assert |acts| > 0;
    var s, a, pre := Run(k, acts[..n]), acts[n], acts[..n];
    AfterAll(k, acts);
    AfterPrefix(k, acts, n, n);
    AfterStep(k, acts, n);
    if PcOf(s, v) == Creating {
      m := LastMiss(k, pre, v);
      forall i | 0 <= i <= n ensures After(k, pre, i) == After(k, acts, i) { AfterPrefix(k, acts, n, i); }
      forall i | 0 <= i < n ensures OvertakenAt(k, pre, v, i) == OvertakenAt(k, acts, v, i) { OvertakenPrefix(k, acts, n, v, i); }
      AfterAll(k, pre);
      var at := RunKeepsInv(k, pre);
      Continues(k, s, at, a, v);
      if forall i :: m < i < |acts| ==> !OvertakenAt(k, acts, v, i) {
        assert !OvertakenAt(k, acts, v, n);
      }
    } else {
      m := n;
      var at := RunKeepsInv(k, pre);
      Begins(k, s, at, a, v);
    }
  }

  lemma Continues(k: Params, s: Pool, at: Map, a: Action, v: Worker)
    requires Inv(k, s, at) && PcOf(s, v) == Creating && PcOf(Step(k, s, a), v) == Creating
    ensures var t := Step(k, s, a);
            && Owned(t.owner, v) == Owned(s.owner, v) && LiveOf(t, v) <= LiveOf(s, v)
            && (!(Enabled(k, s, a) && Returns(s, a, v)) ==> LiveOf(t, v) == LiveOf(s, v))
  {
    hide Inv, Owned, LiveOf;
    if Enabled(k, s, a) && !(a.AllocNew? && a.w == v) { WhileCreating(k, s, at, a, v); }
  }

  lemma Begins(k: Params, s: Pool, at: Map, a: Action, v: Worker)
    requires Inv(k, s, at) && PcOf(s, v) != Creating && PcOf(Step(k, s, a), v) == Creating
    ensures a == AllocMiss(v) && Enabled(k, s, a)
    ensures var t := Step(k, s, a); Owned(t.owner, v) == Owned(s.owner, v) && LiveOf(t, v) == LiveOf(s, v)
  {
    hide Inv;
  }

  lemma OneMoreOwned(s: Pool, t: Pool, w: Worker, n: Node)
    requires n !in s.owner && t.owner == s.owner[n := w] && t.live == s.live + {n}
    ensures Owned(t.owner, w) == Owned(s.owner, w) + {n} && n !in Owned(s.owner, w)
    ensures LiveOf(t, w) == LiveOf(s, w) + {n} && n !in LiveOf(s, w)
  {
  }

  /** Creating adds one node to those of v and to those handed out. */
  lemma OneCreated(k: Params, s: Pool, a: Action)
    requires Enabled(k, s, a) && a.AllocNew?
    ensures PcOf(s, a.w) == Creating
    ensures var t := Step(k, s, a);
            |Owned(t.owner, a.w)| == |Owned(s.owner, a.w)| + 1 && |LiveOf(t, a.w)| == |LiveOf(s, a.w)| + 1
  {
    hide Owned, LiveOf, Step;
    StepIs(k, s, a);
    OneMoreOwned(s, Step(k, s, a), a.w, a.n);
  }

  /** The nodes of v only grow in number. */
  lemma {:induction false} OwnedGrows(k: Params, acts: seq<Action>, v: Worker, i: nat)
    requires k.threshold >= 1 && i <= |acts|
    ensures Owned(After(k, acts, i).owner, v) <= Owned(Run(k, acts).owner, v)
    decreases |acts|
  {
    hide Run;
    forall n | n in Owned(After(k, acts, i).owner, v) ensures n in Owned(Run(k, acts).owner, v) {
      OwnerNeverChanges(k, acts, i, n);
    }
  }

  /** The last creation for v. */
  lemma {:induction false} LastCreation(k: Params, acts: seq<Action>, v: Worker) returns (i: nat)
    requires k.threshold >= 1 && Owned(Run(k, acts).owner, v) != {}
    ensures i < |acts| && NewAt(k, acts, v, i)
    ensures Owned(Run(k, acts).owner, v) == Owned(After(k, acts, i + 1).owner, v)
    decreases |acts|
  {
    hide Enabled, Inv, Step;
    NothingOwnedAtFirst(v);
    assert |acts| > 0;
    var n := |acts| - 1;
    var s, a, pre := Run(k, acts[..n]), acts[n], acts[..n];
    AfterAll(k, acts);
    AfterPrefix(k, acts, n, n);
    AfterStep(k, acts, n);
    if Enabled(k, s, a) && a.AllocNew? && a.w == v {
      i := n;
    } else {
      var at := RunKeepsInv(k, pre);
      NoneCreated(k, s, at, a, v);
      i := LastCreation(k, pre, v);
      AfterPrefix(k, acts, n, i);
      AfterPrefix(k, acts, n, i + 1);
    }
  }

  lemma NothingOwnedAtFirst(v: Worker)
    ensures Owned(Empty.owner, v) == {}
  {
  }

  lemma NoneCreated(k: Params, s: Pool, at: Map, a: Action, v: Worker)
    requires Inv(k, s, at) && !(Enabled(k, s, a) && a.AllocNew? && a.w == v)
    ensures Owned(Step(k, s, a).owner, v) == Owned(s.owner, v)
  {
    hide Inv, Owned;
    if Enabled(k, s, a) && !(a.AllocMiss? && a.w == v) { SameOwned(k, s, at, a, v); }
  }

  /** How many of v's nodes the others hold back. */
  function Withheld(k: Params, s: Pool, v: Worker): nat
  {
    |HeldBack(s.lists, s.owner, v, k.workers)|
  }

  /** At a miss v's nodes are those handed out and those held back, and the others hold back no more
      than their buffers have room for. */
  lemma AtMiss(k: Params, s: Pool, at: Map, v: Worker)
    requires Inv(k, s, at) && k.threshold >= 1 && v < k.workers && Enabled(k, s, AllocMiss(v))
    ensures |Owned(s.owner, v)| == |LiveOf(s, v)| + Withheld(k, s, v)
    ensures Withheld(k, s, v) <= (k.workers - 1) * k.threshold
  {
    hide Placed, Belongs, PcsOk, Buffered, Bounded, HeldBack, LiveOf, Owned;
    var live, held := LiveOf(s, v), HeldBack(s.lists, s.owner, v, k.workers);
    MissMeansHeld(k, s, at, v);
    HeldBackSize(s, k.threshold, v, k.workers);
    forall n | n in held ensures n in Owned(s.owner, v) && n !in live { HeldIsOwned(k, s, at, v, k.workers, n); }
    LiveIsOwned(s, v);
    assert Owned(s.owner, v) == live + held && live !! held;
  }

  lemma LiveIsOwned(s: Pool, v: Worker)
    ensures LiveOf(s, v) <= Owned(s.owner, v)
  {
  }

  lemma {:induction false} HeldIsOwned(k: Params, s: Pool, at: Map, v: Worker, m: nat, n: Node)
    requires Inv(k, s, at) && n in HeldBack(s.lists, s.owner, v, m)
    ensures n in Owned(s.owner, v) && n !in LiveOf(s, v)
  {
    hide PcsOk, Buffered, Bounded, Stash;
    if n in HeldBack(s.lists, s.owner, v, m - 1) {
      HeldIsOwned(k, s, at, v, m - 1, n);
    } else {
      StashIsOwned(k, s, at, m - 1, v, n);
    }
  }

  lemma StashIsOwned(k: Params, s: Pool, at: Map, u: Worker, v: Worker, n: Node)
    requires Inv(k, s, at) && n in Stash(s.lists, s.owner, u, v)
    ensures n in Owned(s.owner, v) && n !in LiveOf(s, v)
  {
    hide PcsOk, Buffered, Bounded;
    var p := if n in At(s.lists, Buffer(u, v)) then Buffer(u, v) else Hand(u);
    var i :| 0 <= i < |s.lists[p]| && s.lists[p][i] == n;
  }

  /** Every node of v beyond the first came from a request that missed: the nodes are those handed out
      and held back at that miss, and the new one. */
  lemma Creation(k: Params, acts: seq<Action>, v: Worker) returns (m: nat, i: nat)
    requires k.threshold >= 1 && v < k.workers && Owned(Run(k, acts).owner, v) != {}
    ensures m < i < |acts| && CreatingFrom(k, acts, v, m, i) && NewAt(k, acts, v, i)
    ensures var s, t := After(k, acts, m), After(k, acts, i + 1);
            && |Owned(Run(k, acts).owner, v)| == |LiveOf(s, v)| + Withheld(k, s, v) + 1
            && Withheld(k, s, v) <= (k.workers - 1) * k.threshold
            && |LiveOf(t, v)| <= |LiveOf(s, v)| + 1
            && ((forall x :: m < x < i ==> !OvertakenAt(k, acts, v, x)) ==> |LiveOf(t, v)| == |LiveOf(s, v)| + 1)
  {
    hide Enabled, Inv, Owned, LiveOf, Step, Withheld, Run, Returns;
    i := LastCreation(k, acts, v);
    var pre := acts[..i];
    OneCreated(k, After(k, acts, i), acts[i]);
    AfterStep(k, acts, i);
    m := LastMiss(k, pre, v);
    forall x | 0 <= x <= i ensures After(k, pre, x) == After(k, acts, x) { AfterPrefix(k, acts, i, x); }
    AfterAll(k, pre);
    forall x | 0 <= x < i ensures OvertakenAt(k, pre, v, x) == OvertakenAt(k, acts, v, x) { OvertakenPrefix(k, acts, i, v, x); }
    var at := RunKeepsInv(k, acts[..m]);
    AtMiss(k, After(k, acts, m), at, v);
    SubSize(LiveOf(After(k, acts, i), v), LiveOf(After(k, acts, m), v));
  }

  /** If no node of v is returned while v is creating one, the nodes ever created for v exceed those
      handed out at some moment of the run by at most what the others may hold back. */
  lemma BoundUnlessOvertaken(k: Params, acts: seq<Action>, v: Worker) returns (j: nat)
    requires k.threshold >= 1 && v < k.workers
    requires forall i :: 0 <= i < |acts| ==> !OvertakenAt(k, acts, v, i)
    ensures j <= |acts|
    ensures |Owned(Run(k, acts).owner, v)| <= |LiveOf(After(k, acts, j), v)| + (k.workers - 1) * k.threshold
  {
    hide Run, Owned, LiveOf, OvertakenAt, Withheld, CreatingFrom, NewAt, After;
    if Owned(Run(k, acts).owner, v) == {} {
      j := 0;
      assert 0 <= (k.workers - 1) * k.threshold;
    } else {
      var m, i := Creation(k, acts, v);
      j := i + 1;
    }
  }

  /** At every moment of the run fewer nodes of v are handed out than the bound needs. */
  predicate Exceeded(k: Params, acts: seq<Action>, v: Worker)
  {
    forall j :: 0 <= j <= |acts| ==> |Owned(Run(k, acts).owner, v)| > |LiveOf(After(k, acts, j), v)| + (k.workers - 1) * k.threshold
  }

  /** A request of v that missed when never more nodes of v were handed out in the run and all the
      others' buffers for v were full, and for which a node was then created. */
  predicate MissAtPeak(k: Params, acts: seq<Action>, v: Worker, m: nat, i: nat)
  {
    && m < i < |acts| && CreatingFrom(k, acts, v, m, i) && NewAt(k, acts, v, i)
    && Withheld(k, After(k, acts, m), v) == (k.workers - 1) * k.threshold
    && forall j :: 0 <= j <= |acts| ==> |LiveOf(After(k, acts, j), v)| <= |LiveOf(After(k, acts, m), v)|
  }

  /** There is one node more than the peak at m and the others' buffers account for, and step x returned a
      node of v between the miss and the creation. */
  predicate ByOne(k: Params, acts: seq<Action>, v: Worker, m: nat, i: nat, x: nat)
  {
    && MissAtPeak(k, acts, v, m, i) && m < x < i && OvertakenAt(k, acts, v, x)
    && |Owned(Run(k, acts).owner, v)| == |LiveOf(After(k, acts, m), v)| + (k.workers - 1) * k.threshold + 1
  }

  /** The bound by the nodes handed out is exceeded exactly if some request missed at the peak with all the
      others' buffers full. Then it is exceeded by one, and a node of v was returned meanwhile. */
  lemma ExceededIff(k: Params, acts: seq<Action>, v: Worker)
    requires k.threshold >= 1 && v < k.workers
    ensures Exceeded(k, acts, v) <==> exists m, i :: MissAtPeak(k, acts, v, m, i)
    ensures Exceeded(k, acts, v) ==> exists m, i, x :: ByOne(k, acts, v, m, i, x)
  {
    hide Run, Owned, LiveOf, OvertakenAt, Withheld, CreatingFrom, NewAt, After;
    if Exceeded(k, acts, v) {
      var m, i, x := ExceededMeans(k, acts, v);
    }
    if m, i :| MissAtPeak(k, acts, v, m, i) { PeakExceeds(k, acts, v, m, i); }
  }

  lemma ExceededMeans(k: Params, acts: seq<Action>, v: Worker) returns (m: nat, i: nat, x: nat)
    requires k.threshold >= 1 && v < k.workers && Exceeded(k, acts, v)
    ensures ByOne(k, acts, v, m, i, x)
  {
    hide Run, Owned, LiveOf, OvertakenAt, Withheld, CreatingFrom, NewAt, After;
    SomeOwned(k, acts, v);
    m, i := Creation(k, acts, v);
    var room := (k.workers - 1) * k.threshold;
    assert |Owned(Run(k, acts).owner, v)| > |LiveOf(After(k, acts, m), v)| + room;
    assert |Owned(Run(k, acts).owner, v)| > |LiveOf(After(k, acts, i + 1), v)| + room;
    x :| m < x < i && OvertakenAt(k, acts, v, x);
  }

  lemma SomeOwned(k: Params, acts: seq<Action>, v: Worker)
    requires v < k.workers && Exceeded(k, acts, v)
    ensures Owned(Run(k, acts).owner, v) != {}
  {
    hide Run, Owned, LiveOf, After;
    assert 0 <= (k.workers - 1) * k.threshold;
    assert |Owned(Run(k, acts).owner, v)| > |LiveOf(After(k, acts, 0), v)| + (k.workers - 1) * k.threshold;
  }

  lemma PeakExceeds(k: Params, acts: seq<Action>, v: Worker, m: nat, i: nat)
    requires k.threshold >= 1 && v < k.workers && MissAtPeak(k, acts, v, m, i)
    ensures Exceeded(k, acts, v)
  {
    hide Enabled, Inv, Owned, LiveOf, Step, Withheld, Run, Returns;
    var s, t := After(k, acts, m), After(k, acts, i + 1);
    var at := RunKeepsInv(k, acts[..m]);
    AtMiss(k, s, at, v);
    SameWhileCreating(k, acts, v, m, i);
    OneCreated(k, After(k, acts, i), acts[i]);
    AfterStep(k, acts, i);
    OwnedGrows(k, acts, v, i + 1);
    SubSize(Owned(t.owner, v), Owned(Run(k, acts).owner, v));
    hide CreatingFrom, NewAt, After;
  }

  lemma {:induction false} SameWhileCreating(k: Params, acts: seq<Action>, v: Worker, m: nat, i: nat)
    requires k.threshold >= 1 && v < k.workers && m < i <= |acts| && CreatingFrom(k, acts, v, m, i)
    ensures Owned(After(k, acts, i).owner, v) == Owned(After(k, acts, m).owner, v)
    decreases i - m
  {
    hide Enabled, Inv, Owned, LiveOf, Step, Run, Returns;
    AfterStep(k, acts, i - 1);
    var s := After(k, acts, i - 1);
    var at := RunKeepsInv(k, acts[..i - 1]);
    if m + 1 < i {
      SameWhileCreating(k, acts, v, m, i - 1);
      Continues(k, s, at, acts[i - 1], v);
    } else {
      MissKeepsOwned(k, s, v);
    }
  }

  lemma MissKeepsOwned(k: Params, s: Pool, v: Worker)
    ensures Owned(Step(k, s, AllocMiss(v)).owner, v) == Owned(s.owner, v)
  {
  }

  // ----- Counting a request in progress is necessary

  lemma RunSnoc(k: Params, acts: seq<Action>, j: nat)
    requires j < |acts|
    ensures Run(k, acts[..j + 1]) == Step(k, Run(k, acts[..j]), acts[j])
  {
    assert acts[..j + 1][..j] == acts[..j];
  }

  /** A pool but for the recorded peak. */
  predicate Is(s: Pool, lists: map<Place, seq<Node>>, pc: map<Worker, Pc>, owner: map<Node, Worker>, live: set<Node>)
  {
    s.lists == lists && s.pc == pc && s.owner == owner && s.live == live
  }

  lemma StepIs(k: Params, s: Pool, a: Action)
    requires Enabled(k, s, a)
    ensures Is(Step(k, s, a), Move(s, a).lists, Move(s, a).pc, Move(s, a).owner, Move(s, a).live)
  {
  }

  lemma FewLive(s: Pool, v: Worker, a: Node, b: Node)
    requires s.live <= {a, b}
    ensures |LiveOf(s, v)| <= 2
  {
    SubSize(LiveOf(s, v), {a, b});
    assert |{a, b}| <= 2 by { SumSize({a}, {b}); assert {a, b} == {a} + {b}; }
  }

  /** Two workers and a threshold of 1: while worker 0, having found its lists empty, creates a node,
      worker 1 returns one. No more than two nodes are ever handed out at once, yet four are created. */
  function Overtaken(): (acts: seq<Action>)
    ensures |acts| == 11
  {
    [AllocMiss(0), AllocNew(0, 1), AllocMiss(0), AllocNew(0, 2), Free(1, 1), AllocMiss(0), AllocNew(0, 3), AllocMiss(0),
     FreeSplice(1, 2), FreeFinish(1), AllocNew(0, 4)]
  }

  /** Worker 0 finds its lists empty and creates node n. */
  lemma MissIs(k: Params, s: Pool, lists: map<Place, seq<Node>>, pc: map<Worker, Pc>, owner: map<Node, Worker>, live: set<Node>)
    requires Is(s, lists, pc, owner, live) && k.workers > 0 && PcOf(s, 0) == Idle
    requires At(lists, Local(0)) == [] && At(lists, Remote(0)) == []
    ensures Is(Step(k, s, AllocMiss(0)), lists, pc[0 := Creating], owner, live)
  {
    StepIs(k, s, AllocMiss(0));
  }

  lemma NewIs(k: Params, s: Pool, lists: map<Place, seq<Node>>, pc: map<Worker, Pc>, owner: map<Node, Worker>, live: set<Node>, n: Node)
    requires Is(s, lists, pc, owner, live) && k.workers > 0 && PcOf(s, 0) == Creating && n !in owner
    ensures Is(Step(k, s, AllocNew(0, n)), lists, pc[0 := Idle], owner[n := 0], live + {n})
  {
    StepIs(k, s, AllocNew(0, n));
  }

  lemma FreeIs(k: Params, s: Pool, pc: map<Worker, Pc>, owner: map<Node, Worker>, live: set<Node>)
    requires Is(s, map[], pc, owner, live) && k == Params(2, 1) && PcOf(s, 1) == Idle && 1 in live && 1 in owner && owner[1] == 0
    ensures Is(Step(k, s, Free(1, 1)), map[Buffer(1, 0) := [1]], pc, owner, live - {1})
  {
    StepIs(k, s, Free(1, 1));
    assert [1] + [] == [1];
  }

  lemma ReturnIs(k: Params, s: Pool, pc: map<Worker, Pc>, owner: map<Node, Worker>, live: set<Node>)
    requires Is(s, map[Buffer(1, 0) := [1]], pc, owner, live) && k == Params(2, 1) && PcOf(s, 1) == Idle
    requires 2 in live && 2 in owner && owner[2] == 0
    ensures var t := Step(k, s, FreeSplice(1, 2));
            && t.live == live - {2} && t.owner == owner && t.pc == pc[1 := Returning]
            && var u := Step(k, t, FreeFinish(1));
            u.live == live - {2} && u.owner == owner && u.pc == pc[1 := Idle]
  {
    StepIs(k, s, FreeSplice(1, 2));
    StepIs(k, Step(k, s, FreeSplice(1, 2)), FreeFinish(1));
  }

  lemma OwnedBy0(owner: map<Node, Worker>)
    requires owner == map[1 := 0, 2 := 0, 3 := 0, 4 := 0]
    ensures |Owned(owner, 0)| == 4
  {
    assert Owned(owner, 0) == {1, 2, 3, 4};
  }

  ghost predicate Small(k: Params, j: nat)
    requires j <= 11
  {
    |LiveOf(Run(k, Overtaken()[..j]), 0)| <= 2
  }

  lemma ToFour(k: Params)
    requires k == Params(2, 1)
    ensures Small(k, 0) && Small(k, 1) && Small(k, 2) && Small(k, 3) && Small(k, 4)
    ensures Is(Run(k, Overtaken()[..4]), map[], map[0 := Idle], map[1 := 0, 2 := 0], {1, 2})
  {
    hide Enabled, Move, Step, LiveOf;
    var acts := Overtaken();
    var s0, s1, s2, s3, s4 := Run(k, acts[..0]), Run(k, acts[..1]), Run(k, acts[..2]), Run(k, acts[..3]), Run(k, acts[..4]);
    assert s0 == Empty;
    RunSnoc(k, acts, 0);
    RunSnoc(k, acts, 1);
    RunSnoc(k, acts, 2);
    RunSnoc(k, acts, 3);
    hide Run;
    MissIs(k, s0, map[], map[], map[], {});
    NewIs(k, s1, map[], map[0 := Creating], map[], {}, 1);
    MissIs(k, s2, map[], map[0 := Idle], map[1 := 0], {1});
    NewIs(k, s3, map[], map[0 := Creating], map[1 := 0], {1}, 2);
    FewLive(s0, 0, 1, 2);
    FewLive(s1, 0, 1, 2);
    FewLive(s2, 0, 1, 2);
    FewLive(s3, 0, 1, 2);
    FewLive(s4, 0, 1, 2);
  }

  lemma ToEight(k: Params)
    requires k == Params(2, 1)
    ensures Small(k, 5) && Small(k, 6) && Small(k, 7) && Small(k, 8)
    ensures Is(Run(k, Overtaken()[..8]), map[Buffer(1, 0) := [1]], map[0 := Creating], map[1 := 0, 2 := 0, 3 := 0], {2, 3})
  {
    hide Enabled, Move, Step, LiveOf, Run;
    var acts := Overtaken();
    var s4, s5, s6, s7, s8 := Run(k, acts[..4]), Run(k, acts[..5]), Run(k, acts[..6]), Run(k, acts[..7]), Run(k, acts[..8]);
    ToFour(k);
    RunSnoc(k, acts, 4);
    RunSnoc(k, acts, 5);
    RunSnoc(k, acts, 6);
    RunSnoc(k, acts, 7);
    var b := map[Buffer(1, 0) := [1]];
    FreeIs(k, s4, map[0 := Idle], map[1 := 0, 2 := 0], {1, 2});
    MissIs(k, s5, b, map[0 := Idle], map[1 := 0, 2 := 0], {2});
    NewIs(k, s6, b, map[0 := Creating], map[1 := 0, 2 := 0], {2}, 3);
    MissIs(k, s7, b, map[0 := Idle], map[1 := 0, 2 := 0, 3 := 0], {2, 3});
    FewLive(s5, 0, 2, 3);
    FewLive(s6, 0, 2, 3);
    FewLive(s7, 0, 2, 3);
    FewLive(s8, 0, 2, 3);
  }

  lemma ToEleven(k: Params)
    requires k == Params(2, 1)
    ensures Small(k, 9) && Small(k, 10) && Small(k, 11) && |Owned(Run(k, Overtaken()).owner, 0)| == 4
  {
    hide Enabled, Move, Step, LiveOf, Run;
    var acts := Overtaken();
    var s8, s9, s10, s11 := Run(k, acts[..8]), Run(k, acts[..9]), Run(k, acts[..10]), Run(k, acts[..11]);
    ToEight(k);
    RunSnoc(k, acts, 8);
    RunSnoc(k, acts, 9);
    RunSnoc(k, acts, 10);
    assert acts[..11] == acts;
    ReturnIs(k, s8, map[0 := Creating], map[1 := 0, 2 := 0, 3 := 0], {2, 3});
    NewIs(k, s10, s10.lists, map[0 := Creating, 1 := Idle], map[1 := 0, 2 := 0, 3 := 0], {3}, 4);
    OwnedBy0(s11.owner);
    FewLive(s9, 0, 2, 3);
    FewLive(s10, 0, 2, 3);
    FewLive(s11, 0, 3, 4);
  }

  lemma AllSmall(k: Params, j: nat)
    requires k == Params(2, 1) && j <= 11
    ensures Small(k, j)
  {
    hide LiveOf, Run, Is, Owned, Overtaken, Small;
    ToFour(k);
    ToEight(k);
    ToEleven(k);
    assert j == 0 || j == 1 || j == 2 || j == 3 || j == 4 || j == 5 || j == 6 || j == 7 || j == 8 || j == 9 || j == 10 || j == 11;
  }

  /** So a bound by the nodes handed out, without the request in progress, does not hold: here it
      would be 2 + 1 * 1. */
  lemma RequestsInProgressCount()
    ensures var k, acts := Params(2, 1), Overtaken();
            && |Owned(Run(k, acts).owner, 0)| == 4
            && forall j :: 0 <= j <= |acts| ==> |LiveOf(Run(k, acts[..j]), 0)| <= 2
  {
    hide LiveOf, Run, Owned, Overtaken;
    var k := Params(2, 1);
    ToEleven(k);
    forall j: nat | j <= 11 ensures |LiveOf(Run(k, Overtaken()[..j]), 0)| <= 2 { AllSmall(k, j); }
  }
}
