/** The MCS list as a lock queue: `basic_mcs_core` with the node pool of `basic_mcs_queue`.
    Every atomic access to `tail_`, `head_` or a node's `next` is one step. */
module McsQueue {
  import opened Wrappers
  import opened LockQueue

  /** Where a thread is inside `start_lock` or before its `set_next`. */
  datatype Client =
    | Out
    | ClearNext(cur: Node)
    | Exchange(cur: Node)
    | PutHead(cur: Node)
    | SetNext(prev: Node, cur: Node, ticket: nat)

  /** Where the lock holder is inside `try_unlock` or `try_follow_head`. */
  datatype Holder =
    | Nobody
    | Arriving(t: Tid)
    | Ready
    | UnlockCas(h: Node)
    | UnlockFailed(h: Node)
    | Advance(h: Node, n: Node)

  /** Who is responsible for an allocated node. */
  datatype Place = HeldBy(t: Tid) | InQueue(ticket: nat) | Retired

  datatype Core = Core(tail: Option<Node>, head: Option<Node>, next: map<Node, Node>)

  /** The core, the allocated nodes and the program counters; then the history: the abstract
      queue and the observations made so far. A node outside `place` is in the pool. */
  datatype State = State(
    c: Core, place: map<Node, Place>, clients: seq<Client>, holder: Holder,
    a: Queue, hist: seq<Event>)

  datatype Action =
    | Allocate(t: Tid, n: Node)
    | ClientMoves(t: Tid)
    | StartUnlock
    | StartFollow
    | HolderMoves
    | Deallocate(n: Node)

  predicate Initial(s: State)
  {
    && s.c == Core(None, None, map[]) && s.place == map[] && s.holder == Nobody
    && (forall t :: 0 <= t < |s.clients| ==> s.clients[t] == Out)
    && s.a == EMPTY && s.hist == []
  }

  function Observe(s: State, e: Event): State
  {
    s.(a := Apply(s.a, e).GetOr(s.a), hist := s.hist + [e])
  }

  function ClientStep(s: State, t: Tid): (r: State)
    requires t < |s.clients|
    ensures |r.clients| == |s.clients|
  {
    match s.clients[t]
    case Out => s
    case ClearNext(cur) =>
      s.(c := s.c.(next := s.c.next - {cur}), clients := s.clients[t := Exchange(cur)])
    case Exchange(cur) =>
      var ticket := s.a.left + |s.a.entries|;
      var s1 := s.(c := s.c.(tail := Some(cur)), place := s.place[cur := InQueue(ticket)]);
      if s.c.tail.None?
      then Observe(s1.(clients := s.clients[t := PutHead(cur)], holder := Arriving(t)), Enqueued(cur, t, true))
      else Observe(s1.(clients := s.clients[t := SetNext(s.c.tail.value, cur, ticket)]), Enqueued(cur, t, false))
    case PutHead(cur) =>
      s.(c := s.c.(head := Some(cur)), clients := s.clients[t := Out], holder := Ready)
    case SetNext(prev, cur, ticket) =>
      Observe(s.(c := s.c.(next := s.c.next[prev := cur]), clients := s.clients[t := Out]), Linked(ticket))
  }

  function HolderStep(s: State): (r: State)
    ensures |r.clients| == |s.clients|
  {
    match s.holder
    case UnlockCas(h) =>
      if s.c.tail == Some(h)
      then Observe(s.(c := s.c.(tail := None), place := s.place[h := Retired], holder := Nobody), Unlocked(h))
      else Observe(s.(holder := UnlockFailed(h)), UnlockRefused(h))
    case UnlockFailed(h) => s.(c := s.c.(head := Some(h)), holder := Ready)
    case Advance(h, n) =>
      Observe(s.(c := s.c.(head := Some(n)), place := s.place[h := Retired], holder := Ready), Followed(h, n))
    case _ => s
  }

  function Step(s: State, act: Action): (r: State)
    ensures |r.clients| == |s.clients|
  {
    match act
    case Allocate(t, n) =>
      if t < |s.clients| && s.clients[t] == Out && n !in s.place
      then s.(place := s.place[n := HeldBy(t)], clients := s.clients[t := ClearNext(n)]) else s
    case ClientMoves(t) => if t < |s.clients| then ClientStep(s, t) else s
    case StartUnlock =>
      if s.holder == Ready && s.c.head.Some?
      then s.(c := s.c.(head := None), holder := UnlockCas(s.c.head.value)) else s
    case StartFollow =>
      if s.holder == Ready && s.c.head.Some? then
        var h := s.c.head.value;
        if h in s.c.next then s.(holder := Advance(h, s.c.next[h])) else Observe(s, FollowRefused(h))
      else s
    case HolderMoves => HolderStep(s)
    case Deallocate(n) =>
      if n in s.place && s.place[n] == Retired then s.(place := s.place - {n}) else s
  }

  function Run(s: State, acts: seq<Action>): (r: State)
    ensures |r.clients| == |s.clients|
  {
    if acts == [] then s else Step(Run(s, acts[..|acts| - 1]), acts[|acts| - 1])
  }

  // ----- The inductive invariant, one predicate for each part of the state

  /** The pointers spell out the abstract queue: tail is the last entry, and an entry's `next`
      is written exactly when its successor is published. */
  predicate Shape(c: Core, entries: seq<Entry>)
  {
    && c.tail == (if entries == [] then None else Some(entries[|entries| - 1].node))
    && forall k :: 0 <= k < |entries| ==> LinkShape(c.next, entries, k)
  }

  predicate LinkShape(next: map<Node, Node>, entries: seq<Entry>, k: nat)
    requires k < |entries|
  {
    if k + 1 < |entries| && entries[k + 1].link == Published
    then entries[k].node in next && next[entries[k].node] == entries[k + 1].node
    else entries[k].node !in next
  }

  predicate Placed(place: map<Node, Place>, a: Queue)
  {
    forall k :: 0 <= k < |a.entries| ==>
      a.entries[k].node in place && place[a.entries[k].node] == InQueue(a.left + k)
  }

  predicate ClientInv(next: map<Node, Node>, place: map<Node, Place>, a: Queue, holder: Holder,
                      t: Tid, cl: Client)
  {
    match cl
    case Out => holder != Arriving(t)
    case ClearNext(cur) => cur in place && place[cur] == HeldBy(t) && holder != Arriving(t)
    case Exchange(cur) =>
      cur in place && place[cur] == HeldBy(t) && cur !in next && holder != Arriving(t)
    case PutHead(cur) => holder == Arriving(t) && a.entries != [] && a.entries[0].node == cur
    case SetNext(prev, cur, ticket) =>
      var k := ticket - a.left;
      && 0 < k < |a.entries| && a.entries[k] == Entry(cur, Pending(t)) && a.entries[k - 1].node == prev
      && holder != Arriving(t)
  }

  predicate HolderInv(head: Option<Node>, holder: Holder, clients: seq<Client>, a: Queue)
  {
    match holder
    case Nobody => head == None && a.entries == []
    case Arriving(t) => head == None && a.entries != [] && t < |clients| && clients[t].PutHead?
    case Ready => a.entries != [] && head == Some(a.entries[0].node)
    case UnlockCas(h) => head == None && a.entries != [] && h == a.entries[0].node
    case UnlockFailed(h) => head == None && a.entries != [] && h == a.entries[0].node
    case Advance(h, n) =>
      SuccessorPublished(a) && head == Some(h) && h == a.entries[0].node && n == a.entries[1].node
  }

  predicate Inv(s: State)
  {
    && Shape(s.c, s.a.entries)
    && Placed(s.place, s.a)
    && ClientsInv(s)
    && HolderInv(s.c.head, s.holder, s.clients, s.a)
    && Replay(s.hist) == Some(s.a)
  }

  predicate ClientsInv(s: State)
  {
    forall t :: 0 <= t < |s.clients| ==>
      ClientInv(s.c.next, s.place, s.a, s.holder, t, s.clients[t])
  }

  /** Entries are distinct nodes: each is placed at its own ticket. */
  lemma DistinctEntries(s: State, j: nat, k: nat)
    requires Placed(s.place, s.a) && j < |s.a.entries| && k < |s.a.entries|
    requires s.a.entries[j].node == s.a.entries[k].node
    ensures j == k
  {
    assert s.place[s.a.entries[j].node] == InQueue(s.a.left + j);
    assert s.place[s.a.entries[k].node] == InQueue(s.a.left + k);
  }

  /** Recording an observation that the abstract queue agrees with. */
  lemma ObserveReplays(s: State, e: Event)
    requires Replay(s.hist) == Some(s.a) && Apply(s.a, e).Some?
    ensures Replay(Observe(s, e).hist) == Some(Observe(s, e).a) == Apply(s.a, e)
  {
    ReplayStep(s.hist, e);
  }

  lemma ClearNextKeepsInv(s: State, t: Tid)
    requires Inv(s) && t < |s.clients| && s.clients[t].ClearNext?
    ensures Inv(ClientStep(s, t))
  {
    hide Replay;
    var s' := ClientStep(s, t);
    assert ClientInv(s.c.next, s.place, s.a, s.holder, t, s.clients[t]);
    forall k | 0 <= k < |s.a.entries| ensures LinkShape(s'.c.next, s.a.entries, k) {
      assert LinkShape(s.c.next, s.a.entries, k);
    }
    forall u | 0 <= u < |s.clients|
      ensures ClientInv(s'.c.next, s'.place, s'.a, s'.holder, u, s'.clients[u])
    {
      assert ClientInv(s.c.next, s.place, s.a, s.holder, u, s.clients[u]);
    }
  }

  /** A new last entry whose link is pending leaves every older `next` as it was. */
  lemma AppendKeepsShape(c: Core, entries: seq<Entry>, cur: Node, link: Link, c': Core)
    requires Shape(c, entries) && c' == c.(tail := Some(cur)) && cur !in c.next
    requires entries == [] || link.Pending?
    ensures Shape(c', entries + [Entry(cur, link)])
  {
    forall k | 0 <= k < |entries| ensures LinkShape(c.next, entries + [Entry(cur, link)], k) {
      assert LinkShape(c.next, entries, k);
    }
  }

  lemma ExchangeKeepsQueue(s: State, t: Tid)
    requires Inv(s) && t < |s.clients| && s.clients[t].Exchange?
    ensures var s', cur := ClientStep(s, t), s.clients[t].cur;
            && Shape(s'.c, s'.a.entries) && Placed(s'.place, s'.a) && Replay(s'.hist) == Some(s'.a)
            && s'.a == Queue(s.a.entries + [Entry(cur, if s.c.tail.None? then Published else Pending(t))],
                             s.a.left)
  {
    var s', cur := ClientStep(s, t), s.clients[t].cur;
    assert ClientInv(s.c.next, s.place, s.a, s.holder, t, s.clients[t]);
    hide ClientsInv, HolderInv;
    assert !Contains(s.a.entries, cur);
    ObserveReplays(s, Enqueued(cur, t, s.c.tail.None?));
    hide Replay, Contains;
    AppendKeepsShape(s.c, s.a.entries, cur, s'.a.entries[|s.a.entries|].link, s'.c);
  }

  lemma ExchangeKeepsInv(s: State, t: Tid)
    requires Inv(s) && t < |s.clients| && s.clients[t].Exchange?
    ensures Inv(ClientStep(s, t))
  {
    var s' := ClientStep(s, t);
    ExchangeKeepsQueue(s, t);
    hide Replay, Contains, Placed;
    assert ClientInv(s.c.next, s.place, s.a, s.holder, t, s.clients[t]);
    assert HolderInv(s'.c.head, s'.holder, s'.clients, s'.a);
    forall u | 0 <= u < |s.clients|
      ensures ClientInv(s'.c.next, s'.place, s'.a, s'.holder, u, s'.clients[u])
    {
      assert ClientInv(s.c.next, s.place, s.a, s.holder, u, s.clients[u]);
    }
  }

  /** Publishing entry k by writing its predecessor's `next`. */
  lemma SetNextKeepsShape(s: State, k: nat)
    requires Shape(s.c, s.a.entries) && Placed(s.place, s.a) && 0 < k < |s.a.entries|
    ensures Shape(s.c.(next := s.c.next[s.a.entries[k - 1].node := s.a.entries[k].node]),
                  s.a.entries[k := s.a.entries[k].(link := Published)])
  {
    forall j | 0 <= j < |s.a.entries| && s.a.entries[j].node == s.a.entries[k - 1].node ensures j == k - 1 {
      DistinctEntries(s, j, k - 1);
    }
    var es := s.a.entries[k := s.a.entries[k].(link := Published)];
    var next := s.c.next[s.a.entries[k - 1].node := s.a.entries[k].node];
    forall j | 0 <= j < |es| ensures LinkShape(next, es, j) {
      assert LinkShape(s.c.next, s.a.entries, j);
    }
  }

  lemma SetNextKeepsQueue(s: State, t: Tid)
    requires Inv(s) && t < |s.clients| && s.clients[t].SetNext?
    ensures var s', k := ClientStep(s, t), s.clients[t].ticket - s.a.left;
            && Shape(s'.c, s'.a.entries) && Placed(s'.place, s'.a) && Replay(s'.hist) == Some(s'.a)
            && 0 < k < |s.a.entries| && s.place[s.clients[t].prev] == InQueue(s.a.left + k - 1)
            && s'.a == s.a.(entries := s.a.entries[k := s.a.entries[k].(link := Published)])
  {
    assert ClientInv(s.c.next, s.place, s.a, s.holder, t, s.clients[t]);
    hide ClientsInv, HolderInv;
    var SetNext(prev, cur, ticket) := s.clients[t];
    ObserveReplays(s, Linked(ticket));
    SetNextKeepsShape(s, ticket - s.a.left);
    hide Replay, Shape;
    assert s.a.entries[ticket - s.a.left - 1].node in s.place;
  }

  lemma SetNextKeepsInv(s: State, t: Tid)
    requires Inv(s) && t < |s.clients| && s.clients[t].SetNext?
    ensures Inv(ClientStep(s, t))
  {
    SetNextKeepsQueue(s, t);
    hide Replay, Shape, Placed;
    var s' := ClientStep(s, t);
    assert ClientInv(s.c.next, s.place, s.a, s.holder, t, s.clients[t]);
    assert HolderInv(s'.c.head, s'.holder, s'.clients, s'.a);
    forall u | 0 <= u < |s.clients|
      ensures ClientInv(s'.c.next, s'.place, s'.a, s'.holder, u, s'.clients[u])
    {
      assert ClientInv(s.c.next, s.place, s.a, s.holder, u, s.clients[u]);
    }
  }

  lemma ClientKeepsInv(s: State, t: Tid)
    requires Inv(s) && t < |s.clients|
    ensures Inv(ClientStep(s, t))
  {
    match s.clients[t]
    case Out =>
    case ClearNext(_) => ClearNextKeepsInv(s, t);
    case Exchange(_) => ExchangeKeepsInv(s, t);
    case SetNext(_, _, _) => SetNextKeepsInv(s, t);
    case PutHead(cur) =>
      hide Replay;
      var s' := ClientStep(s, t);
      assert ClientInv(s.c.next, s.place, s.a, s.holder, t, s.clients[t]);
      forall u | 0 <= u < |s.clients|
        ensures ClientInv(s'.c.next, s'.place, s'.a, s'.holder, u, s'.clients[u])
      {
        assert ClientInv(s.c.next, s.place, s.a, s.holder, u, s.clients[u]);
      }
  }

  lemma UnlockKeepsInv(s: State)
    requires Inv(s) && s.holder.UnlockCas?
    ensures Inv(HolderStep(s))
  {
    var s', h, n := HolderStep(s), s.holder.h, |s.a.entries|;
    if s.c.tail == Some(h) {
      DistinctEntries(s, 0, n - 1);
      ObserveReplays(s, Unlocked(h));
    } else {
      ObserveReplays(s, UnlockRefused(h));
    }
    hide Replay;
    forall u | 0 <= u < |s.clients|
      ensures ClientInv(s'.c.next, s'.place, s'.a, s'.holder, u, s'.clients[u])
    {
      assert ClientInv(s.c.next, s.place, s.a, s.holder, u, s.clients[u]);
    }
  }

  lemma DropKeepsShape(c: Core, entries: seq<Entry>, c': Core)
    requires Shape(c, entries) && |entries| >= 2 && c'.next == c.next && c'.tail == c.tail
    ensures Shape(c', entries[1..])
  {
    var rest := entries[1..];
    forall k | 0 <= k < |rest|
      ensures LinkShape(c.next, rest, k)
    {
      assert LinkShape(c.next, entries, k + 1);
    }
  }

  lemma AdvanceKeepsInv(s: State)
    requires Inv(s) && s.holder.Advance?
    ensures Inv(HolderStep(s))
  {
    var s', h := HolderStep(s), s.holder.h;
    ObserveReplays(s, Followed(h, s.holder.n));
    hide Replay;
    forall k | 0 <= k < |s'.a.entries|
      ensures s'.a.entries[k] == s.a.entries[k + 1] && s'.a.entries[k].node != h
    {
      assert s.place[h] == InQueue(s.a.left);
    }
    DropKeepsShape(s.c, s.a.entries, s'.c);
    hide Shape;
    assert Placed(s'.place, s'.a);
    forall u | 0 <= u < |s.clients|
      ensures ClientInv(s'.c.next, s'.place, s'.a, s'.holder, u, s'.clients[u])
    {
      assert ClientInv(s.c.next, s.place, s.a, s.holder, u, s.clients[u]);
    }
  }

  lemma HolderKeepsInv(s: State)
    requires Inv(s)
    ensures Inv(HolderStep(s))
  {
    match s.holder
    case UnlockCas(_) => UnlockKeepsInv(s);
    case Advance(_, _) => AdvanceKeepsInv(s);
    case UnlockFailed(_) =>
      hide Replay;
      var s' := HolderStep(s);
      forall u | 0 <= u < |s.clients|
        ensures ClientInv(s'.c.next, s'.place, s'.a, s'.holder, u, s'.clients[u])
      {
        assert ClientInv(s.c.next, s.place, s.a, s.holder, u, s.clients[u]);
      }
    case _ =>
  }

  /** The remaining actions: taking a node from the pool, giving one back, and the holder's
      first steps. */
  lemma OtherStepKeepsInv(s: State, act: Action)
    requires Inv(s) && !act.ClientMoves? && !act.HolderMoves?
    ensures Inv(Step(s, act))
  {
    var s' := Step(s, act);
    if act.StartFollow? && s.holder == Ready && s.c.head.Some? && s.c.head.value !in s.c.next {
      assert LinkShape(s.c.next, s.a.entries, 0);
      ObserveReplays(s, FollowRefused(s.c.head.value));
    }
    hide Replay;
    if act.Allocate? && act.t < |s.clients| {
      assert ClientInv(s.c.next, s.place, s.a, s.holder, act.t, s.clients[act.t]);
    } else if act.StartFollow? && s.holder == Ready {
      assert LinkShape(s.c.next, s.a.entries, 0);
    }
    hide Shape;
    assert Placed(s'.place, s'.a);
    assert HolderInv(s'.c.head, s'.holder, s'.clients, s'.a);
    hide Placed, HolderInv;
    forall u | 0 <= u < |s.clients|
      ensures ClientInv(s'.c.next, s'.place, s'.a, s'.holder, u, s'.clients[u])
    {
      assert ClientInv(s.c.next, s.place, s.a, s.holder, u, s.clients[u]);
    }
  }

  lemma StepKeepsInv(s: State, act: Action)
    requires Inv(s)
    ensures Inv(Step(s, act))
  {
    match act
    case ClientMoves(t) => if t < |s.clients| { ClientKeepsInv(s, t); }
    case HolderMoves => HolderKeepsInv(s);
    case _ => OtherStepKeepsInv(s, act);
  }

  lemma {:induction false} RunKeepsInv(s: State, acts: seq<Action>)
    requires Initial(s)
    ensures Inv(Run(s, acts))
  {
    if acts != [] {
      RunKeepsInv(s, acts[..|acts| - 1]);
      StepKeepsInv(Run(s, acts[..|acts| - 1]), acts[|acts| - 1]);
    }
  }

  // ----- What every run guarantees

  /** Refinement: whatever the interleaving, the answers given by the MCS list are answers the
      abstract lock queue gives, in the order of the steps that decided them. */
  lemma RefinesLockQueue(s: State, acts: seq<Action>)
    requires Initial(s)
    ensures Replay(Run(s, acts).hist) == Some(Run(s, acts).a)
  {
    RunKeepsInv(s, acts);
  }

  /** `is_unlockable` read by the holder is true exactly when the holder is alone. */
  lemma UnlockableIffAlone(s: State, acts: seq<Action>)
    requires Initial(s) && Run(s, acts).holder == Ready
    ensures var r := Run(s, acts);
            r.c.head.Some? && (r.c.tail == r.c.head <==> |r.a.entries| == 1)
  {
    RunKeepsInv(s, acts);
    var r := Run(s, acts);
    if r.c.tail == r.c.head {
      DistinctEntries(r, 0, |r.a.entries| - 1);
    }
  }

  /** Reclamation: a client that still has to write its predecessor's `next` writes to a node
      that is in the queue, so neither retired nor back in the pool, with nothing written yet. */
  lemma PendingLinkIsLive(s: State, acts: seq<Action>, t: Tid)
    requires Initial(s) && t < |s.clients|
    requires Run(s, acts).clients[t].SetNext?
    ensures var r := Run(s, acts); var prev := r.clients[t].prev;
            prev in r.place && r.place[prev].InQueue? && prev !in r.c.next
  {
    hide Inv, Run;
    RunKeepsInv(s, acts);
    PendingInState(Run(s, acts), t);
  }

  lemma PendingInState(r: State, t: Tid)
    requires Inv(r) && t < |r.clients| && r.clients[t].SetNext?
    ensures var prev := r.clients[t].prev; prev in r.place && r.place[prev].InQueue? && prev !in r.c.next
  {
    hide Replay, HolderInv;
    assert ClientInv(r.c.next, r.place, r.a, r.holder, t, r.clients[t]);
    var k := r.clients[t].ticket - r.a.left - 1;
    assert LinkShape(r.c.next, r.a.entries, k);
    assert r.place[r.a.entries[k].node] == InQueue(r.a.left + k);
  }
}
