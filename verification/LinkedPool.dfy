/** The pool's lists as they are in memory: nodes linked through `next`, spliced in place. Every call
    is shown to be one or two steps of the pool. */
module LinkedPool {
  import opened ReturnPool

  const NULL: Node := 0

  /** A chain of nodes from head through next. */
  predicate Chain(next: map<Node, Node>, head: Node, l: seq<Node>)
    decreases |l|
  {
    if l == [] then head == NULL
    else head == l[0] && head != NULL && head in next && Chain(next, next[head], l[1..])
  }

  /** Writing the link of a node outside a chain does not change it. */
  lemma {:induction false} ChainFrame(next: map<Node, Node>, n: Node, x: Node, head: Node, l: seq<Node>)
    requires Chain(next, head, l) && n !in l
    ensures Chain(next[n := x], head, l)
    decreases |l|
  {
    if l != [] { ChainFrame(next, n, x, next[head], l[1..]); }
  }

  lemma ChainPush(next: map<Node, Node>, n: Node, head: Node, l: seq<Node>)
    requires Chain(next, head, l) && n !in l && n != NULL
    ensures Chain(next[n := head], n, [n] + l)
  {
    ChainFrame(next, n, head, head, l);
    assert ([n] + l)[1..] == l;
  }

  /** Linking the last node of one chain to another joins them. */
  lemma {:induction false} ChainSplice(next: map<Node, Node>, a: seq<Node>, h: Node, b: seq<Node>, g: Node)
    requires Chain(next, h, a) && Chain(next, g, b) && a != []
    requires (forall i, j :: 0 <= i < j < |a| ==> a[i] != a[j]) && a[|a| - 1] !in b
    ensures Chain(next[a[|a| - 1] := g], h, a + b)
    decreases |a|
  {
    var e := a[|a| - 1];
    var next' := next[e := g];
    if |a| == 1 {
      ChainFrame(next, e, g, g, b);
      assert (a + b)[1..] == b;
    } else {
      ChainSplice(next, a[1..], next[h], b, g);
      assert (a + b)[1..] == a[1..] + b;
    }
  }

  /** The lists that are chains in memory. */
  predicate InMemory(p: Place)
  {
    p.Local? || p.Remote? || p.Buffer?
  }

  function HeadOf(head: map<Place, Node>, p: Place): Node
  {
    if p in head then head[p] else NULL
  }

  function NumOf(num: map<Place, nat>, p: Place): nat
  {
    if p in num then num[p] else 0
  }

  /** A list and its chain; a buffer also knows its last node and its length. */
  predicate Linked(next: map<Node, Node>, head: map<Place, Node>, last: map<Place, Node>, num: map<Place, nat>, p: Place, l: seq<Node>)
  {
    && Chain(next, HeadOf(head, p), l)
    && (p.Buffer? ==> NumOf(num, p) == |l| && (l != [] ==> HeadOf(last, p) == l[|l| - 1]))
  }

  ghost predicate AllLinked(next: map<Node, Node>, head: map<Place, Node>, last: map<Place, Node>, num: map<Place, nat>, lists: map<Place, seq<Node>>)
  {
    forall p :: InMemory(p) ==> Linked(next, head, last, num, p, At(lists, p))
  }

  /** Lists that no pointer write touches stay linked. */
  lemma Untouched(next: map<Node, Node>, head: map<Place, Node>, last: map<Place, Node>, num: map<Place, nat>, p: Place, l: seq<Node>, n: Node, x: Node)
    requires Linked(next, head, last, num, p, l) && n !in l
    ensures Linked(next[n := x], head, last, num, p, l)
  {
    ChainFrame(next, n, x, HeadOf(head, p), l);
  }

  lemma PopLinked(next: map<Node, Node>, head: map<Place, Node>, last: map<Place, Node>, num: map<Place, nat>, lists: map<Place, seq<Node>>, p: Place)
    requires AllLinked(next, head, last, num, lists) && (p.Local? || p.Remote?) && At(lists, p) != []
    ensures HeadOf(head, p) == At(lists, p)[0] != NULL && HeadOf(head, p) in next
    ensures AllLinked(next, head[p := next[HeadOf(head, p)]], last, num, lists[p := At(lists, p)[1..]])
  {
    assert Linked(next, head, last, num, p, At(lists, p));
    var head', lists' := head[p := next[HeadOf(head, p)]], lists[p := At(lists, p)[1..]];
    forall q | InMemory(q) ensures Linked(next, head', last, num, q, At(lists', q)) {
      assert Linked(next, head, last, num, q, At(lists, q));
    }
  }

  lemma TakeLinked(next: map<Node, Node>, head: map<Place, Node>, last: map<Place, Node>, num: map<Place, nat>, lists: map<Place, seq<Node>>, w: Worker)
    requires AllLinked(next, head, last, num, lists) && At(lists, Remote(w)) != []
    ensures var r := At(lists, Remote(w)); var n := HeadOf(head, Remote(w));
            && n == r[0] != NULL && n in next
            && AllLinked(next, head[Remote(w) := NULL][Local(w) := next[n]], last, num, lists[Remote(w) := []][Local(w) := r[1..]])
  {
    var r, n := At(lists, Remote(w)), HeadOf(head, Remote(w));
    assert Linked(next, head, last, num, Remote(w), r);
    var head', lists' := head[Remote(w) := NULL][Local(w) := next[n]], lists[Remote(w) := []][Local(w) := r[1..]];
    forall q | InMemory(q) ensures Linked(next, head', last, num, q, At(lists', q)) {
      assert Linked(next, head, last, num, q, At(lists, q));
    }
  }

  lemma PushLinked(next: map<Node, Node>, head: map<Place, Node>, last: map<Place, Node>, num: map<Place, nat>, lists: map<Place, seq<Node>>, p: Place, n: Node)
    requires AllLinked(next, head, last, num, lists) && (p.Local? || p.Buffer?) && n != NULL && forall q :: n !in At(lists, q)
    ensures AllLinked(next[n := HeadOf(head, p)], head[p := n],
                      if p.Buffer? && NumOf(num, p) == 0 then last[p := n] else last,
                      if p.Buffer? then num[p := NumOf(num, p) + 1] else num,
                      lists[p := [n] + At(lists, p)])
  {
    var l := At(lists, p);
    var next', head', lists' := next[n := HeadOf(head, p)], head[p := n], lists[p := [n] + l];
    var last' := if p.Buffer? && NumOf(num, p) == 0 then last[p := n] else last;
    var num' := if p.Buffer? then num[p := NumOf(num, p) + 1] else num;
    assert Linked(next, head, last, num, p, l);
    ChainPush(next, n, HeadOf(head, p), l);
    forall q | InMemory(q) ensures Linked(next', head', last', num', q, At(lists', q)) {
      if q != p { Untouched(next, head, last, num, q, At(lists, q), n, HeadOf(head, p)); }
    }
  }

  /** The splice: the buffer's last node is linked to the returned list, and the buffer starts anew. */
  lemma SpliceLinked(next: map<Node, Node>, head: map<Place, Node>, last: map<Place, Node>, num: map<Place, nat>, lists: map<Place, seq<Node>>, p: Place, q: Place, n: Node)
    requires AllLinked(next, head, last, num, lists) && p.Buffer? && q.Remote? && At(lists, p) != []
    requires n != NULL && forall r :: n !in At(lists, r)
    requires forall r :: r != p ==> At(lists, p)[|At(lists, p)| - 1] !in At(lists, r)
    requires forall i, j :: 0 <= i < j < |At(lists, p)| ==> At(lists, p)[i] != At(lists, p)[j]
    ensures HeadOf(last, p) == At(lists, p)[|At(lists, p)| - 1]
    ensures AllLinked(next[HeadOf(last, p) := HeadOf(head, q)][n := NULL], head[q := HeadOf(head, p)][p := n], last[p := n], num[p := 1],
                      lists[q := At(lists, p) + At(lists, q)][p := [n]])
  {
    var a, b, e, g := At(lists, p), At(lists, q), HeadOf(last, p), HeadOf(head, q);
    assert Linked(next, head, last, num, p, a) && Linked(next, head, last, num, q, b);
    var next1 := next[e := g];
    var next', head' := next1[n := NULL], head[q := HeadOf(head, p)][p := n];
    var last', num', lists' := last[p := n], num[p := 1], lists[q := a + b][p := [n]];
    ChainSplice(next, a, HeadOf(head, p), b, g);
    ChainFrame(next1, n, NULL, HeadOf(head, p), a + b);
    forall r | InMemory(r) ensures Linked(next', head', last', num', r, At(lists', r)) {
      if r != p && r != q {
        Untouched(next, head, last, num, r, At(lists, r), e, g);
        Untouched(next1, head, last, num, r, At(lists, r), n, NULL);
      }
    }
  }

  /** What a step does to the lists, the owners and the nodes handed out. */
  lemma StepMoves(k: Params, s: ReturnPool.Pool, act: Action)
    requires Enabled(k, s, act)
    ensures var t, m := Step(k, s, act), Move(s, act); t.lists == m.lists && t.owner == m.owner && t.live == m.live && t.pc == m.pc
  {
  }

  lemma SameAt(next: map<Node, Node>, head: map<Place, Node>, last: map<Place, Node>, num: map<Place, nat>,
               lists: map<Place, seq<Node>>, lists': map<Place, seq<Node>>)
    requires AllLinked(next, head, last, num, lists) && forall p :: InMemory(p) ==> At(lists', p) == At(lists, p)
    ensures AllLinked(next, head, last, num, lists')
  {
  }

  /** A live node is in no list, and lists are disjoint. */
  lemma InNoList(k: Params, s: ReturnPool.Pool, at: Map, n: Node, p: Place)
    requires Inv(k, s, at) && (n in s.live || n !in s.owner)
    ensures n !in At(s.lists, p)
  {
    if n in At(s.lists, p) { PlacedIn(k, s, at, n, p); }
  }

  lemma PlacedIn(k: Params, s: ReturnPool.Pool, at: Map, n: Node, p: Place)
    requires Inv(k, s, at) && n in At(s.lists, p)
    ensures n in at && at[n] == In(p) && n in s.owner && n !in s.live
  {
    hide PcsOk, Buffered, Bounded;
    var i :| 0 <= i < |s.lists[p]| && s.lists[p][i] == n;
  }

  lemma DistinctIn(k: Params, s: ReturnPool.Pool, at: Map, p: Place)
    requires Inv(k, s, at)
    ensures forall i, j :: 0 <= i < j < |At(s.lists, p)| ==> At(s.lists, p)[i] != At(s.lists, p)[j]
  {
    hide PcsOk, Buffered, Bounded, Belongs;
  }

  lemma IdleAfter(k: Params, s: ReturnPool.Pool, act: Action)
    requires Enabled(k, s, act) && forall w: Worker :: w != act.w ==> PcOf(s, w) == Idle
    requires act.AllocLocal? || act.AllocTaken? || act.AllocNew? || act.Free? || act.FreeFinish?
    ensures forall w: Worker :: PcOf(Step(k, s, act), w) == Idle
  {
    StepMoves(k, s, act);
    var t := Step(k, s, act);
    hide Step;
    forall w: Worker ensures PcOf(t, w) == Idle {
      assert w != act.w ==> PcOf(s, w) == Idle;
    }
  }

  /** No call is in progress. */
  ghost predicate Quiet(k: Params, s: ReturnPool.Pool, at: Map)
  {
    k.threshold >= 1 && Inv(k, s, at) && NULL !in s.owner && forall w: Worker :: PcOf(s, w) == Idle
  }

  lemma LocalCall(k: Params, s: ReturnPool.Pool, at: Map, w: Worker)
    requires Quiet(k, s, at) && w < k.workers && At(s.lists, Local(w)) != []
    ensures Enabled(k, s, AllocLocal(w))
    ensures var t, l := Step(k, s, AllocLocal(w)), At(s.lists, Local(w));
            && Quiet(k, t, AtAfter(s, at, AllocLocal(w))) && t.lists == s.lists[Local(w) := l[1..]]
            && l[0] in s.owner && s.owner[l[0]] == w && t.owner == s.owner
  {
    hide Inv;
    var act, l := AllocLocal(w), At(s.lists, Local(w));
    StepMoves(k, s, act);
    StepKeepsInv(k, s, at, act);
    IdleAfter(k, s, act);
    PlacedIn(k, s, at, l[0], Local(w));
    OwnerHere(k, s, at, l[0]);
    hide Step, Enabled;
  }

  lemma OwnerHere(k: Params, s: ReturnPool.Pool, at: Map, n: Node)
    requires Inv(k, s, at) && n in at && n in s.owner
    ensures at[n].In? ==> ForOwner(at[n].p, s.owner[n], k.workers)
  {
    hide Placed, PcsOk, Buffered, Bounded;
  }

  lemma RemoteCall(k: Params, s: ReturnPool.Pool, at: Map, w: Worker)
    requires Quiet(k, s, at) && w < k.workers && At(s.lists, Local(w)) == [] && At(s.lists, Remote(w)) != []
    ensures Enabled(k, s, AllocTake(w)) && Enabled(k, Step(k, s, AllocTake(w)), AllocTaken(w))
    ensures var t := Step(k, s, AllocTake(w)); var u, r := Step(k, t, AllocTaken(w)), At(s.lists, Remote(w));
            && Quiet(k, u, AtAfter(t, AtAfter(s, at, AllocTake(w)), AllocTaken(w)))
            && (forall p :: InMemory(p) ==> At(u.lists, p) == At(s.lists[Remote(w) := []][Local(w) := r[1..]], p))
            && r[0] in s.owner && s.owner[r[0]] == w && u.owner == s.owner
  {
    hide Inv, AtAfter;
    var one, two, r := AllocTake(w), AllocTaken(w), At(s.lists, Remote(w));
    var t := Step(k, s, one);
    StepMoves(k, s, one);
    StepKeepsInv(k, s, at, one);
    StepMoves(k, t, two);
    StepKeepsInv(k, t, AtAfter(s, at, one), two);
    OnlyOwnPc(k, s, one);
    IdleAfter(k, t, two);
    PlacedIn(k, s, at, r[0], Remote(w));
    OwnerHere(k, s, at, r[0]);
    hide Step, Enabled;
  }

  lemma OnlyOwnPc(k: Params, s: ReturnPool.Pool, act: Action)
    requires Enabled(k, s, act)
    ensures forall u: Worker :: u != act.w ==> PcOf(Step(k, s, act), u) == PcOf(s, u)
  {
    StepMoves(k, s, act);
    hide Step, Enabled;
  }

  lemma NewCall(k: Params, s: ReturnPool.Pool, at: Map, w: Worker, n: Node)
    requires Quiet(k, s, at) && w < k.workers && At(s.lists, Local(w)) == [] && At(s.lists, Remote(w)) == []
    requires n != NULL && n !in s.owner
    ensures Enabled(k, s, AllocMiss(w)) && Enabled(k, Step(k, s, AllocMiss(w)), AllocNew(w, n))
    ensures var t := Step(k, s, AllocMiss(w)); var u := Step(k, t, AllocNew(w, n));
            && Quiet(k, u, AtAfter(t, AtAfter(s, at, AllocMiss(w)), AllocNew(w, n)))
            && u.lists == s.lists && u.owner == s.owner[n := w]
  {
    hide Inv, AtAfter;
    var one, two := AllocMiss(w), AllocNew(w, n);
    var t := Step(k, s, one);
    StepMoves(k, s, one);
    StepKeepsInv(k, s, at, one);
    StepMoves(k, t, two);
    StepKeepsInv(k, t, AtAfter(s, at, one), two);
    OnlyOwnPc(k, s, one);
    IdleAfter(k, t, two);
    hide Step, Enabled;
  }

  lemma FreeCall(k: Params, s: ReturnPool.Pool, at: Map, w: Worker, n: Node)
    requires Quiet(k, s, at) && w < k.workers && n in s.live && n in s.owner
    requires s.owner[n] == w || |At(s.lists, Buffer(w, s.owner[n]))| < k.threshold
    ensures Enabled(k, s, Free(w, n))
    ensures var t, p := Step(k, s, Free(w, n)), if s.owner[n] == w then Local(w) else Buffer(w, s.owner[n]);
            && Quiet(k, t, AtAfter(s, at, Free(w, n))) && t.lists == s.lists[p := [n] + At(s.lists, p)] && t.owner == s.owner
    ensures n != NULL && forall q :: n !in At(s.lists, q)
  {
    hide Inv;
    var act := Free(w, n);
    StepMoves(k, s, act);
    StepKeepsInv(k, s, at, act);
    IdleAfter(k, s, act);
    forall q ensures n !in At(s.lists, q) { InNoList(k, s, at, n, q); }
    hide Step, Enabled;
  }

  lemma SpliceCall(k: Params, s: ReturnPool.Pool, at: Map, w: Worker, n: Node)
    requires Quiet(k, s, at) && w < k.workers && n in s.live && n in s.owner
    requires s.owner[n] != w && |At(s.lists, Buffer(w, s.owner[n]))| >= k.threshold
    ensures Enabled(k, s, FreeSplice(w, n)) && Enabled(k, Step(k, s, FreeSplice(w, n)), FreeFinish(w))
    ensures var t := Step(k, s, FreeSplice(w, n)); var u := Step(k, t, FreeFinish(w));
            var p, q := Buffer(w, s.owner[n]), Remote(s.owner[n]);
            && Quiet(k, u, AtAfter(t, AtAfter(s, at, FreeSplice(w, n)), FreeFinish(w)))
            && (forall r :: InMemory(r) ==>
                  At(u.lists, r) == At(s.lists[q := At(s.lists, p) + At(s.lists, q)][p := [n]], r))
            && u.owner == s.owner
  {
    hide Inv, AtAfter;
    var one, two := FreeSplice(w, n), FreeFinish(w);
    var t := Step(k, s, one);
    StepMoves(k, s, one);
    StepKeepsInv(k, s, at, one);
    StepMoves(k, t, two);
    StepKeepsInv(k, t, AtAfter(s, at, one), two);
    OnlyOwnPc(k, s, one);
    IdleAfter(k, t, two);
    hide Step, Enabled;
  }

  /** What the splice needs to know about the buffer. */
  lemma BufferAlone(k: Params, s: ReturnPool.Pool, at: Map, p: Place, n: Node)
    requires Inv(k, s, at) && At(s.lists, p) != [] && n in s.live
    ensures var l := At(s.lists, p);
            && (forall q :: n !in At(s.lists, q)) && (forall q :: q != p ==> l[|l| - 1] !in At(s.lists, q))
            && forall i, j :: 0 <= i < j < |l| ==> l[i] != l[j]
  {
    hide Inv;
    var l := At(s.lists, p);
    forall q ensures n !in At(s.lists, q) { InNoList(k, s, at, n, q); }
    forall q | q != p ensures l[|l| - 1] !in At(s.lists, q) { Elsewhere(k, s, at, l[|l| - 1], p, q); }
    DistinctIn(k, s, at, p);
  }

  lemma LinkedAt(next: map<Node, Node>, head: map<Place, Node>, last: map<Place, Node>, num: map<Place, nat>, lists: map<Place, seq<Node>>, p: Place)
    requires AllLinked(next, head, last, num, lists) && InMemory(p)
    ensures HeadOf(head, p) == NULL <==> At(lists, p) == []
    ensures p.Buffer? ==> NumOf(num, p) == |At(lists, p)|
  {
    assert Linked(next, head, last, num, p, At(lists, p));
  }

  class Pool {
    const k: Params
    var next: map<Node, Node>
    var wkNum: map<Node, Worker>
    var head: map<Place, Node>     // con_local, con_remote and the first of each buffer
    var last: map<Place, Node>
    var num: map<Place, nat>
    ghost var a: ReturnPool.Pool
    ghost var at: Map

    ghost predicate Valid()
      reads this
    {
      Quiet(k, a, at) && wkNum == a.owner && AllLinked(next, head, last, num, a.lists)
    }

    constructor (k: Params)
      requires k.threshold >= 1
      ensures Valid() && this.k == k && a == Empty
    {
      this.k := k;
      next, wkNum, head, last, num := map[], map[], map[], map[], map[];
      a, at := Empty, map[];
      new;
      EmptyInv(k);
    }

    /** `allocate` finding a node in con_local. */
    method AllocateLocal(w: Worker) returns (n: Node)
      requires Valid() && w < k.workers && HeadOf(head, Local(w)) != NULL
      modifies this
      ensures Valid() && Enabled(k, old(a), AllocLocal(w)) && a == Step(k, old(a), AllocLocal(w))
      ensures At(old(a).lists, Local(w)) != [] && n == At(old(a).lists, Local(w))[0]
    {
      hide Quiet, AllLinked, Step, Enabled, AtAfter;
      LinkedAt(next, head, last, num, a.lists, Local(w));
      LocalCall(k, a, at, w);
      PopLinked(next, head, last, num, a.lists, Local(w));
      n := HeadOf(head, Local(w));
      head := head[Local(w) := next[n]];
      wkNum := wkNum[n := w];
      at := AtAfter(a, at, AllocLocal(w));
      a := Step(k, a, AllocLocal(w));
    }

    /** `allocate` taking over the list that others returned. */
    method AllocateRemote(w: Worker) returns (n: Node)
      requires Valid() && w < k.workers && HeadOf(head, Local(w)) == NULL && HeadOf(head, Remote(w)) != NULL
      modifies this
      ensures Valid() && Enabled(k, old(a), AllocTake(w)) && Enabled(k, Step(k, old(a), AllocTake(w)), AllocTaken(w))
      ensures a == Step(k, Step(k, old(a), AllocTake(w)), AllocTaken(w))
      ensures At(old(a).lists, Remote(w)) != [] && n == At(old(a).lists, Remote(w))[0]
    {
      hide Quiet, AllLinked, Step, Enabled, AtAfter;
      LinkedAt(next, head, last, num, a.lists, Local(w));
      LinkedAt(next, head, last, num, a.lists, Remote(w));
      RemoteCall(k, a, at, w);
      TakeLinked(next, head, last, num, a.lists, w);
      ghost var r, lists := At(a.lists, Remote(w)), a.lists;
      n := HeadOf(head, Remote(w));
      head := head[Remote(w) := NULL];
      head := head[Local(w) := next[n]];
      wkNum := wkNum[n := w];
      ghost var t := Step(k, a, AllocTake(w));
      at := AtAfter(t, AtAfter(a, at, AllocTake(w)), AllocTaken(w));
      a := Step(k, t, AllocTaken(w));
      SameAt(next, head, last, num, lists[Remote(w) := []][Local(w) := r[1..]], a.lists);
    }

    /** `allocate` with both lists empty: a new node. */
    method AllocateNew(w: Worker, newNode: Node) returns (n: Node)
      requires Valid() && w < k.workers && HeadOf(head, Local(w)) == NULL && HeadOf(head, Remote(w)) == NULL
      requires newNode != NULL && newNode !in wkNum
      modifies this
      ensures Valid() && Enabled(k, old(a), AllocMiss(w)) && Enabled(k, Step(k, old(a), AllocMiss(w)), AllocNew(w, newNode))
      ensures a == Step(k, Step(k, old(a), AllocMiss(w)), AllocNew(w, newNode)) && n == newNode
    {
      hide Quiet, AllLinked, Step, Enabled, AtAfter;
      LinkedAt(next, head, last, num, a.lists, Local(w));
      LinkedAt(next, head, last, num, a.lists, Remote(w));
      NewCall(k, a, at, w, newNode);
      n := newNode;
      wkNum := wkNum[n := w];
      ghost var t := Step(k, a, AllocMiss(w));
      at := AtAfter(t, AtAfter(a, at, AllocMiss(w)), AllocNew(w, n));
      a := Step(k, t, AllocNew(w, n));
    }

    /** `allocate`: the node comes from con_local, else from con_remote, else it is new. */
    method Allocate(w: Worker, newNode: Node) returns (n: Node)
      requires Valid() && w < k.workers && newNode != NULL && newNode !in wkNum
      modifies this
      ensures Valid() && n in a.live && n !in old(a).live && n in wkNum && wkNum[n] == w
      ensures a.live == old(a).live + {n}
      ensures n == newNode <==> At(old(a).lists, Local(w)) == [] && At(old(a).lists, Remote(w)) == []
    {
      hide Inv;
      ghost var l, r := At(a.lists, Local(w)), At(a.lists, Remote(w));
      assert Linked(next, head, last, num, Local(w), l) && Linked(next, head, last, num, Remote(w), r);
      ghost var s := a;
      if l != [] { PlacedIn(k, a, at, l[0], Local(w)); }
      if r != [] { PlacedIn(k, a, at, r[0], Remote(w)); }
      if newNode in a.live { PlacedLive(k, a, at, newNode); }
      if HeadOf(head, Local(w)) != NULL {
        n := AllocateLocal(w);
        StepMoves(k, s, AllocLocal(w));
      } else if HeadOf(head, Remote(w)) != NULL {
        n := AllocateRemote(w);
        StepMoves(k, s, AllocTake(w));
        StepMoves(k, Step(k, s, AllocTake(w)), AllocTaken(w));
      } else {
        n := AllocateNew(w, newNode);
        StepMoves(k, s, AllocMiss(w));
        StepMoves(k, Step(k, s, AllocMiss(w)), AllocNew(w, newNode));
      }
    }

    /** `deallocate` on the owner, or into a buffer that is not full. */
    method DeallocateHere(w: Worker, n: Node)
      requires Valid() && w < k.workers && n in a.live && n in wkNum
      requires wkNum[n] == w || NumOf(num, Buffer(w, wkNum[n])) < k.threshold
      modifies this
      ensures Valid() && Enabled(k, old(a), Free(w, n)) && a == Step(k, old(a), Free(w, n))
    {
      hide Quiet, AllLinked, Step, Enabled, AtAfter;
      var v := wkNum[n];
      LinkedAt(next, head, last, num, a.lists, Buffer(w, v));
      FreeCall(k, a, at, w, n);
      PushLinked(next, head, last, num, a.lists, if v == w then Local(w) else Buffer(w, v), n);
      if v == w {
        next := next[n := HeadOf(head, Local(w))];
        head := head[Local(w) := n];
      } else {
        var pe := Buffer(w, v);
        if NumOf(num, pe) == 0 {
          last := last[pe := n];
        }
        next := next[n := HeadOf(head, pe)];
        head := head[pe := n];
        num := num[pe := NumOf(num, pe) + 1];
      }
      at := AtAfter(a, at, Free(w, n));
      a := Step(k, a, Free(w, n));
    }

    /** `deallocate` with a full buffer: it is passed to the owner and starts anew with this node. */
    method DeallocateSplice(w: Worker, n: Node)
      requires Valid() && w < k.workers && n in a.live && n in wkNum
      requires wkNum[n] != w && NumOf(num, Buffer(w, wkNum[n])) >= k.threshold
      modifies this
      ensures Valid() && Enabled(k, old(a), FreeSplice(w, n)) && Enabled(k, Step(k, old(a), FreeSplice(w, n)), FreeFinish(w))
      ensures a == Step(k, Step(k, old(a), FreeSplice(w, n)), FreeFinish(w))
    {
      hide Quiet, AllLinked, Step, Enabled, AtAfter, Inv;
      var v := wkNum[n];
      var pe, re := Buffer(w, v), Remote(v);
      LinkedAt(next, head, last, num, a.lists, pe);
      QuietInv(k, a, at);
      SpliceCall(k, a, at, w, n);
      BufferAlone(k, a, at, pe, n);
      NotNull(k, a, at, n);
      SpliceLinked(next, head, last, num, a.lists, pe, re, n);
      ghost var lists := a.lists[re := At(a.lists, pe) + At(a.lists, re)][pe := [n]];
      var first, end := HeadOf(head, pe), HeadOf(last, pe);
      next := next[end := HeadOf(head, re)];
      head := head[re := first];
      head := head[pe := n];
      last := last[pe := n];
      num := num[pe := 1];
      next := next[n := NULL];
      ghost var t := Step(k, a, FreeSplice(w, n));
      at := AtAfter(t, AtAfter(a, at, FreeSplice(w, n)), FreeFinish(w));
      a := Step(k, t, FreeFinish(w));
      SameAt(next, head, last, num, lists, a.lists);
    }

    /** `deallocate`: the node leaves the hands of its user and changes nobody's owner. */
    method Deallocate(w: Worker, n: Node)
      requires Valid() && w < k.workers && n in a.live && n in wkNum
      modifies this
      ensures Valid() && a.live == old(a).live - {n} && wkNum == old(wkNum)
      ensures NumOf(num, Buffer(w, wkNum[n])) <= k.threshold
    {
      hide Inv;
      ghost var s := a;
      if wkNum[n] == w || NumOf(num, Buffer(w, wkNum[n])) < k.threshold {
        DeallocateHere(w, n);
        StepMoves(k, s, Free(w, n));
      } else {
        DeallocateSplice(w, n);
        StepMoves(k, s, FreeSplice(w, n));
        StepMoves(k, Step(k, s, FreeSplice(w, n)), FreeFinish(w));
      }
      SmallBuffer(k, a, at, w, wkNum[n]);
      assert Linked(next, head, last, num, Buffer(w, wkNum[n]), At(a.lists, Buffer(w, wkNum[n])));
    }
  }

  lemma QuietInv(k: Params, s: ReturnPool.Pool, at: Map)
    requires Quiet(k, s, at)
    ensures k.threshold >= 1 && Inv(k, s, at)
  {
    hide Inv;
  }

  lemma NotNull(k: Params, s: ReturnPool.Pool, at: Map, n: Node)
    requires Quiet(k, s, at) && n in s.owner
    ensures n != NULL
  {
    hide Inv;
  }

  lemma PlacedLive(k: Params, s: ReturnPool.Pool, at: Map, n: Node)
    requires Inv(k, s, at) && n in s.live
    ensures n in s.owner
  {
    hide PcsOk, Buffered, Bounded;
  }

  lemma Elsewhere(k: Params, s: ReturnPool.Pool, at: Map, n: Node, p: Place, q: Place)
    requires Inv(k, s, at) && n in At(s.lists, p) && p != q
    ensures n !in At(s.lists, q)
  {
    hide Inv;
    PlacedIn(k, s, at, n, p);
    if n in At(s.lists, q) { PlacedIn(k, s, at, n, q); }
  }

  lemma SmallBuffer(k: Params, s: ReturnPool.Pool, at: Map, u: Worker, v: Worker)
    requires Inv(k, s, at)
    ensures |At(s.lists, Buffer(u, v))| <= k.threshold
  {
    hide PcsOk, Placed, Bounded, Belongs;
  }
}
