/** The ring buffer as a lock queue: `basic_ring_buf_core` with the ready flags of
    `basic_ring_buf_queue`. The head counter counts in twos; bit 0 of the tail counter is
    the lock bit. Every atomic access is one step. */
module RingQueue {
  import opened Wrappers
  import opened CircularIndex
  import opened LockQueue

  /** Where a thread is inside the retry loop of `start_lock` or before its `set_next`. */
  datatype Client =
    | Out
    | LoadHead
    | LoadTail(h: nat)
    | TailCas(h: nat, t: nat)
    | SetReady(prev: Node, cur: Node, ticket: nat)

  /** Where the lock holder is inside `try_follow_head`. */
  datatype Holder = Nobody | Ready | ResetReady | StoreHead

  datatype Core = Core(head: nat, tail: nat, ready: seq<bool>)
  {
    function Slot(counter: int): (n: Node)
      requires |ready| > 0
    {
      RealIndex(|ready|, counter)
    }
  }

  /** The core and the program counters, then the abstract queue and its observations. */
  datatype State = State(c: Core, clients: seq<Client>, holder: Holder, a: Queue, hist: seq<Event>)

  /** `spurious` lets the weak compare-and-swap fail although the tail matches. */
  datatype Action = CallLock(t: Tid) | ClientMoves(t: Tid, spurious: bool) | TryUnlock | TryFollow | HolderMoves

  predicate Initial(s: State)
  {
    && s.c.head == s.c.tail == 0 && |s.c.ready| >= 2
    && (forall k :: 0 <= k < |s.c.ready| ==> !s.c.ready[k])
    && (forall t :: 0 <= t < |s.clients| ==> s.clients[t] == Out)
    && s.holder == Nobody && s.a == EMPTY && s.hist == []
  }

  function Observe(s: State, e: Event): State
  {
    s.(a := Apply(s.a, e).GetOr(s.a), hist := s.hist + [e])
  }

  function ClientStep(s: State, t: Tid, spurious: bool): (r: State)
    requires t < |s.clients| && |s.c.ready| > 0
    ensures |r.clients| == |s.clients| && |r.c.ready| == |s.c.ready|
  {
    var cap := |s.c.ready|;
    match s.clients[t]
    case Out => s
    case LoadHead => s.(clients := s.clients[t := LoadTail(s.c.head)])
    case LoadTail(h) =>
      if s.c.tail - h >= (cap - 1) * 2
      then s.(clients := s.clients[t := LoadHead])  // full: retry
      else s.(clients := s.clients[t := TailCas(h, s.c.tail)])
    case TailCas(h, tail) =>
      if spurious || s.c.tail != tail then s.(clients := s.clients[t := LoadHead])
      else if tail % 2 == 0 then
        Observe(s.(c := s.c.(tail := tail + 1), clients := s.clients[t := Out], holder := Ready),
                Enqueued(s.c.Slot(tail / 2), t, true))
      else
        var prev, cur := s.c.Slot(tail / 2), s.c.Slot((tail + 2) / 2);
        Observe(s.(c := s.c.(tail := tail + 2),
                   clients := s.clients[t := SetReady(prev, cur, s.a.left + |s.a.entries|)]),
                Enqueued(cur, t, false))
    case SetReady(prev, cur, ticket) =>
      if prev < cap
      then Observe(s.(c := s.c.(ready := s.c.ready[prev := true]), clients := s.clients[t := Out]), Linked(ticket))
      else s
  }

  function HolderStep(s: State): (r: State)
    requires |s.c.ready| > 0
    ensures r.clients == s.clients && |r.c.ready| == |s.c.ready|
  {
    var h := s.c.Slot(s.c.head / 2);
    match s.holder
    case ResetReady => s.(c := s.c.(ready := s.c.ready[h := false]), holder := StoreHead)
    case StoreHead =>
      Observe(s.(c := s.c.(head := s.c.head + 2), holder := Ready), Followed(h, s.c.Slot((s.c.head + 2) / 2)))
    case _ => s
  }

  function Step(s: State, act: Action): (r: State)
    requires |s.c.ready| > 0
    ensures |r.clients| == |s.clients| && |r.c.ready| == |s.c.ready|
  {
    var h := s.c.Slot(s.c.head / 2);
    match act
    case CallLock(t) =>
      if t < |s.clients| && s.clients[t] == Out then s.(clients := s.clients[t := LoadHead]) else s
    case ClientMoves(t, spurious) => if t < |s.clients| then ClientStep(s, t, spurious) else s
    case TryUnlock =>
      // Only the holder writes head_, so the swap of head|1 for head decides in one step.
      if s.holder != Ready then s
      else if s.c.tail == s.c.head + 1
      then Observe(s.(c := s.c.(tail := s.c.head), holder := Nobody), Unlocked(h))
      else Observe(s, UnlockRefused(h))
    case TryFollow =>
      if s.holder != Ready then s
      else if s.c.ready[h] then s.(holder := ResetReady)
      else Observe(s, FollowRefused(h))
    case HolderMoves => HolderStep(s)
  }

  function Run(s: State, acts: seq<Action>): (r: State)
    requires |s.c.ready| > 0
    ensures |r.clients| == |s.clients| && |r.c.ready| == |s.c.ready|
  {
    if acts == [] then s else Step(Run(s, acts[..|acts| - 1]), acts[|acts| - 1])
  }

  // ----- The inductive invariant

  /** The counters measure the queue, which never outgrows the ring. */
  predicate Counters(c: Core, entries: seq<Entry>)
  {
    && |c.ready| >= 2 && c.head % 2 == 0 && |entries| <= |c.ready|
    && c.tail == (if entries == [] then c.head else c.head + 2 * |entries| - 1)
    && forall k :: 0 <= k < |entries| ==> entries[k].node == At(|c.ready|, c.head / 2, k)
  }

  /** Whether the entry k places behind the head has a published, not yet followed successor. */
  predicate Flag(entries: seq<Entry>, resetting: bool, k: nat)
  {
    k + 1 < |entries| && entries[k + 1].link == Published && !(resetting && k == 0)
  }

  /** Once around the ring from the head, a slot is ready exactly when its flag says so; slots
      behind the tail are not ready, so the next user of a slot finds it reset. */
  predicate Flags(ready: seq<bool>, half: nat, entries: seq<Entry>, resetting: bool)
    requires |ready| > 0
  {
    forall k :: 0 <= k < |ready| ==>
      ready[At(|ready|, half, k)] == Flag(entries, resetting, k)
  }

  predicate ClientInv(head: nat, cap: nat, a: Queue, t: Tid, cl: Client)
  {
    match cl
    case LoadTail(h) => h <= head
    case TailCas(h, tail) => h <= head && tail - h < (cap - 1) * 2
    case SetReady(prev, cur, ticket) =>
      var k := ticket - a.left;
      0 < k < |a.entries| && a.entries[k] == Entry(cur, Pending(t)) && a.entries[k - 1].node == prev
    case _ => true
  }

  predicate HolderInv(holder: Holder, a: Queue)
  {
    match holder
    case Nobody => a.entries == []
    case Ready => a.entries != []
    case _ => SuccessorPublished(a)
  }

  predicate ClientsInv(head: nat, cap: nat, a: Queue, clients: seq<Client>)
  {
    forall t :: 0 <= t < |clients| ==> ClientInv(head, cap, a, t, clients[t])
  }

  predicate Inv(s: State)
  {
    && Counters(s.c, s.a.entries)
    && Flags(s.c.ready, s.c.head / 2, s.a.entries, s.holder == StoreHead)
    && ClientsInv(s.c.head, |s.c.ready|, s.a, s.clients)
    && HolderInv(s.holder, s.a)
    && Replay(s.hist) == Some(s.a)
  }

  /** The slot after the last entry is not in use. */
  lemma FreshSlot(c: Core, entries: seq<Entry>)
    requires Counters(c, entries) && |entries| < |c.ready|
    ensures !Contains(entries, At(|c.ready|, c.head / 2, |entries|))
  {
    forall k | 0 <= k < |entries| ensures entries[k].node != At(|c.ready|, c.head / 2, |entries|) {
      AtInjective(|c.ready|, c.head / 2, k, |entries|);
    }
  }

  lemma ObserveReplays(s: State, e: Event)
    requires Replay(s.hist) == Some(s.a) && Apply(s.a, e).Some?
    ensures Replay(Observe(s, e).hist) == Some(Observe(s, e).a) == Apply(s.a, e)
  {
    ReplayStep(s.hist, e);
  }

  /** The counter arithmetic of a successful compare-and-swap: an odd tail means that the lock
      is held, and the capacity test, made with a head that may be stale, leaves a free slot. */
  lemma TailCasCounters(c: Core, entries: seq<Entry>, h: nat)
    requires Counters(c, entries) && h <= c.head && c.tail - h < (|c.ready| - 1) * 2
    ensures c.tail % 2 == 0 <==> entries == []
    ensures |entries| < |c.ready|
    ensures c.tail % 2 == 0 ==> c.Slot(c.tail / 2) == At(|c.ready|, c.head / 2, 0)
    ensures c.tail % 2 == 1 ==>
      && c.Slot(c.tail / 2) == entries[|entries| - 1].node
      && c.Slot((c.tail + 2) / 2) == At(|c.ready|, c.head / 2, |entries|)
  {
    hide RealIndex;
    assert entries != [] ==> c.tail / 2 == c.head / 2 + (|entries| - 1);
    assert entries != [] ==>
      entries[|entries| - 1].node == At(|c.ready|, c.head / 2, |entries| - 1);
  }

  lemma AppendKeepsFlags(ready: seq<bool>, half: nat, entries: seq<Entry>, e: Entry, resetting: bool)
    requires |ready| > 0 && Flags(ready, half, entries, resetting)
    requires entries == [] || e.link.Pending?
    ensures Flags(ready, half, entries + [e], resetting)
  {
    hide At;
    forall k | 0 <= k < |ready| ensures ready[At(|ready|, half, k)] == Flag(entries + [e], resetting, k) {
      assert ready[At(|ready|, half, k)] == Flag(entries, resetting, k);
    }
  }

  /** Setting the ready flag of entry k-1's slot publishes entry k and disturbs no other slot. */
  lemma PublishKeepsFlags(ready: seq<bool>, half: nat, entries: seq<Entry>, k: nat, resetting: bool)
    requires 0 < k < |entries| <= |ready| && Flags(ready, half, entries, resetting)
    requires resetting ==> k > 1
    ensures Flags(ready[At(|ready|, half, k - 1) := true], half,
                  entries[k := entries[k].(link := Published)], resetting)
  {
    var es := entries[k := entries[k].(link := Published)];
    var ready' := ready[At(|ready|, half, k - 1) := true];
    forall j | 0 <= j < |ready| ensures ready'[At(|ready|, half, j)] == Flag(es, resetting, j) {
      AtInjective(|ready|, half, j, k - 1);
      hide At;
      assert ready[At(|ready|, half, j)] == Flag(entries, resetting, j);
    }
  }

  lemma AppendKeepsClients(head: nat, cap: nat, a: Queue, clients: seq<Client>, t: Tid, e: Entry, cl: Client)
    requires ClientsInv(head, cap, a, clients) && t < |clients|
    requires ClientInv(head, cap, a.(entries := a.entries + [e]), t, cl)
    ensures ClientsInv(head, cap, a.(entries := a.entries + [e]), clients[t := cl])
  {
    forall u | 0 <= u < |clients| && u != t
      ensures ClientInv(head, cap, a.(entries := a.entries + [e]), u, clients[u])
    {
      assert ClientInv(head, cap, a, u, clients[u]);
    }
  }

  lemma PublishKeepsClients(head: nat, cap: nat, a: Queue, clients: seq<Client>, t: Tid, k: nat)
    requires ClientsInv(head, cap, a, clients) && t < |clients| && 0 < k < |a.entries|
    requires a.entries[k].link == Pending(t)
    ensures ClientsInv(head, cap, a.(entries := a.entries[k := a.entries[k].(link := Published)]), clients[t := Out])
  {
    var a' := a.(entries := a.entries[k := a.entries[k].(link := Published)]);
    forall u | 0 <= u < |clients| && u != t ensures ClientInv(head, cap, a', u, clients[u]) {
      assert ClientInv(head, cap, a, u, clients[u]);
    }
  }

  lemma DropKeepsClients(head: nat, cap: nat, a: Queue, clients: seq<Client>)
    requires ClientsInv(head, cap, a, clients) && SuccessorPublished(a)
    ensures ClientsInv(head + 2, cap, Queue(a.entries[1..], a.left + 1), clients)
  {
    forall u | 0 <= u < |clients|
      ensures ClientInv(head + 2, cap, Queue(a.entries[1..], a.left + 1), u, clients[u])
    {
      assert ClientInv(head, cap, a, u, clients[u]);
    }
  }

  lemma AppendKeepsCounters(c: Core, entries: seq<Entry>, e: Entry)
    requires Counters(c, entries) && |entries| < |c.ready| && e.node == At(|c.ready|, c.head / 2, |entries|)
    ensures Counters(c.(tail := c.head + 2 * |entries| + 1), entries + [e])
  {
    hide At;
  }

  lemma PublishKeepsCounters(c: Core, entries: seq<Entry>, k: nat, ready: seq<bool>)
    requires Counters(c, entries) && k < |entries| && |ready| == |c.ready|
    ensures Counters(c.(ready := ready), entries[k := entries[k].(link := Published)])
  {
    hide At;
  }

  /** The entry that a successful compare-and-swap appends. */
  function NewEntry(s: State, t: Tid): Entry
    requires |s.c.ready| > 0
  {
    Entry(At(|s.c.ready|, s.c.head / 2, |s.a.entries|), if s.a.entries == [] then Published else Pending(t))
  }

  /** What a successful compare-and-swap does, in terms of the abstract queue. */
  function Appended(s: State, t: Tid): State
    requires |s.c.ready| > 0 && t < |s.clients|
  {
    var e, n := NewEntry(s, t), |s.a.entries|;
    State(s.c.(tail := s.c.head + 2 * n + 1),
          s.clients[t := if n == 0 then Out else SetReady(s.a.entries[n - 1].node, e.node, s.a.left + n)],
          if n == 0 then Ready else s.holder,
          Queue(s.a.entries + [e], s.a.left), s.hist + [Enqueued(e.node, t, n == 0)])
  }

  lemma EnqueueReplays(s: State, t: Tid)
    requires Inv(s) && t < |s.clients| && s.clients[t].TailCas? && s.c.tail == s.clients[t].t
    ensures |s.a.entries| < |s.c.ready| && Replay(Appended(s, t).hist) == Some(Appended(s, t).a)
    ensures Apply(s.a, Enqueued(NewEntry(s, t).node, t, s.a.entries == [])) == Some(Appended(s, t).a)
  {
    assert ClientInv(s.c.head, |s.c.ready|, s.a, t, s.clients[t]);
    hide At, RealIndex, ClientsInv, Flags, HolderInv;
    TailCasCounters(s.c, s.a.entries, s.clients[t].h);
    FreshSlot(s.c, s.a.entries);
    hide Contains, Counters;
    ReplayStep(s.hist, Enqueued(NewEntry(s, t).node, t, s.a.entries == []));
    hide Replay;
  }

  lemma EnqueueEffect(s: State, t: Tid)
    requires Inv(s) && t < |s.clients| && s.clients[t].TailCas? && s.c.tail == s.clients[t].t
    ensures ClientStep(s, t, false) == Appended(s, t)
  {
    hide At, RealIndex, ClientsInv, Flags, HolderInv, Replay, Contains, Apply;
    EnqueueReplays(s, t);
    ClientOf(s, t);
    TailCasCounters(s.c, s.a.entries, s.clients[t].h);
    assert s.c.tail == if s.a.entries == [] then s.c.head else s.c.head + 2 * |s.a.entries| - 1;
    hide Counters;
  }

  lemma EnqueueKeepsInv(s: State, t: Tid)
    requires Inv(s) && t < |s.clients| && s.clients[t].TailCas? && s.c.tail == s.clients[t].t
    ensures Inv(ClientStep(s, t, false))
  {
    hide At, RealIndex, Replay, ClientStep, Flags, Counters, ClientsInv;
    ClientOf(s, t);
    var s' := ClientStep(s, t, false);
    EnqueueReplays(s, t);
    EnqueueEffect(s, t);
    var e, n := NewEntry(s, t), |s.a.entries|;
    AppendKeepsFlags(s.c.ready, s.c.head / 2, s.a.entries, e, s.holder == StoreHead);
    AppendKeepsCounters(s.c, s.a.entries, e);
    AppendKeepsClients(s.c.head, |s.c.ready|, s.a, s.clients, t, e, s'.clients[t]);
  }

  lemma SetReadyEffect(s: State, t: Tid)
    requires Inv(s) && t < |s.clients| && s.clients[t].SetReady?
    ensures var s', k := ClientStep(s, t, false), s.clients[t].ticket - s.a.left;
            && 0 < k < |s.a.entries| && (s.holder == StoreHead ==> k > 1) && s.a.entries[k].link == Pending(t)
            && s'.c == s.c.(ready := s.c.ready[At(|s.c.ready|, s.c.head / 2, k - 1) := true])
            && s'.a == s.a.(entries := s.a.entries[k := s.a.entries[k].(link := Published)])
            && Replay(s'.hist) == Some(s'.a)
            && s'.clients == s.clients[t := Out] && s'.holder == s.holder
  {
    hide At, RealIndex, ClientsInv, Flags, Replay, Counters;
    ClientOf(s, t);
    var k := s.clients[t].ticket - s.a.left;
    ObserveReplays(s, Linked(s.clients[t].ticket));
    assert s.clients[t].prev == At(|s.c.ready|, s.c.head / 2, k - 1);
  }

  lemma ClientOf(s: State, t: Tid)
    requires Inv(s) && t < |s.clients|
    ensures ClientInv(s.c.head, |s.c.ready|, s.a, t, s.clients[t]) && 2 <= |s.c.ready| && |s.a.entries| <= |s.c.ready|
    ensures forall k :: 0 <= k < |s.a.entries| ==> s.a.entries[k].node == At(|s.c.ready|, s.c.head / 2, k)
  {
    hide ClientInv, Flags, Replay, HolderInv, At;
  }

  lemma SetReadyKeepsInv(s: State, t: Tid)
    requires Inv(s) && t < |s.clients| && s.clients[t].SetReady?
    ensures Inv(ClientStep(s, t, false))
  {
    hide At, RealIndex, Replay, ClientStep, Flags, Counters, ClientsInv;
    ClientOf(s, t);
    var s' := ClientStep(s, t, false);
    SetReadyEffect(s, t);
    var k := s.clients[t].ticket - s.a.left;
    PublishKeepsFlags(s.c.ready, s.c.head / 2, s.a.entries, k, s.holder == StoreHead);
    PublishKeepsCounters(s.c, s.a.entries, k, s'.c.ready);
    PublishKeepsClients(s.c.head, |s.c.ready|, s.a, s.clients, t, k);
  }

  lemma ClientKeepsInv(s: State, t: Tid, spurious: bool)
    requires Inv(s) && t < |s.clients|
    ensures Inv(ClientStep(s, t, spurious))
  {
    if s.clients[t].SetReady? {
      SetReadyKeepsInv(s, t);
    } else if s.clients[t].TailCas? && !spurious && s.c.tail == s.clients[t].t {
      EnqueueKeepsInv(s, t);
    } else {
      hide At, RealIndex, Replay, Flags, Flag;
      var s' := ClientStep(s, t, spurious);
      forall u | 0 <= u < |s.clients| ensures ClientInv(s'.c.head, |s'.c.ready|, s'.a, u, s'.clients[u]) {
        assert ClientInv(s.c.head, |s.c.ready|, s.a, u, s.clients[u]);
      }
    }
  }

  lemma ResetKeepsFlags(ready: seq<bool>, half: nat, entries: seq<Entry>)
    requires |ready| > 0 && Flags(ready, half, entries, false)
    ensures Flags(ready[At(|ready|, half, 0) := false], half, entries, true)
  {
    var ready' := ready[At(|ready|, half, 0) := false];
    forall j | 0 <= j < |ready| ensures ready'[At(|ready|, half, j)] == Flag(entries, true, j) {
      AtInjective(|ready|, half, j, 0);
      hide At;
      assert ready[At(|ready|, half, j)] == Flag(entries, false, j);
    }
  }

  /** Advancing the head: the old head's slot, reset before, becomes the last free one. */
  lemma DropKeepsFlags(ready: seq<bool>, half: nat, entries: seq<Entry>)
    requires |ready| > 0 && |entries| >= 2 && Flags(ready, half, entries, true)
    requires |entries| <= |ready|
    ensures Flags(ready, half + 1, entries[1..], false)
  {
    forall k | 0 <= k < |ready|
      ensures ready[At(|ready|, half + 1, k)] == Flag(entries[1..], false, k)
    {
      if k + 1 < |ready| {
        assert ready[At(|ready|, half, k + 1)] == Flag(entries, true, k + 1);
        assert half + 1 + k == half + (k + 1);
      } else {
        SamePlace(half, |ready|);
        assert ready[At(|ready|, half, 0)] == Flag(entries, true, 0);
        assert half + 1 + k == half + |ready|;
      }
    }
  }

  lemma ResetKeepsInv(s: State)
    requires Inv(s) && s.holder == ResetReady
    ensures Inv(HolderStep(s))
  {
    var s' := HolderStep(s);
    ResetKeepsFlags(s.c.ready, s.c.head / 2, s.a.entries);
    hide Flags;
    hide At, RealIndex, Replay;
    forall u | 0 <= u < |s.clients| ensures ClientInv(s'.c.head, |s'.c.ready|, s'.a, u, s'.clients[u]) {
      assert ClientInv(s.c.head, |s.c.ready|, s.a, u, s.clients[u]);
    }
  }

  lemma StoreHeadEffect(s: State)
    requires Inv(s) && s.holder == StoreHead
    ensures var s' := HolderStep(s);
            && s'.c == s.c.(head := s.c.head + 2) && s'.holder == Ready && s'.clients == s.clients
            && |s.a.entries| >= 2 && s'.a == Queue(s.a.entries[1..], s.a.left + 1)
            && Replay(s'.hist) == Some(s'.a)
  {
    hide RealIndex, Flags, ClientsInv;
    var half := s.c.head / 2;
    assert (s.c.head + 2) / 2 == half + 1;
    assert s.a.entries[0].node == At(|s.c.ready|, half, 0) && s.a.entries[1].node == At(|s.c.ready|, half, 1);
    ObserveReplays(s, Followed(s.a.entries[0].node, s.a.entries[1].node));
    hide Replay, Counters;
  }

  lemma DropKeepsCounters(c: Core, entries: seq<Entry>)
    requires Counters(c, entries) && |entries| >= 2
    ensures Counters(c.(head := c.head + 2), entries[1..])
  {
    hide RealIndex;
    forall k | 0 <= k < |entries| - 1
      ensures entries[1..][k].node == At(|c.ready|, (c.head + 2) / 2, k)
    {
      assert entries[k + 1].node == At(|c.ready|, c.head / 2, k + 1);
    }
  }

  lemma FewEntries(c: Core, entries: seq<Entry>)
    requires Counters(c, entries)
    ensures |c.ready| > 0 && |entries| <= |c.ready|
  {
  }

  lemma StoreHeadKeepsInv(s: State)
    requires Inv(s) && s.holder == StoreHead
    ensures Inv(HolderStep(s))
  {
    hide At, RealIndex, Replay, Flags, Counters, HolderStep, ClientsInv;
    FewEntries(s.c, s.a.entries);
    var s' := HolderStep(s);
    StoreHeadEffect(s);
    DropKeepsCounters(s.c, s.a.entries);
    DropKeepsFlags(s.c.ready, s.c.head / 2, s.a.entries);
    assert s'.c.head / 2 == s.c.head / 2 + 1;
    DropKeepsClients(s.c.head, |s.c.ready|, s.a, s.clients);
  }

  lemma TryUnlockKeepsInv(s: State)
    requires Inv(s) && s.holder == Ready
    ensures Inv(Step(s, TryUnlock))
  {
    var s', h := Step(s, TryUnlock), s.c.Slot(s.c.head / 2);
    assert s.a.entries[0].node == At(|s.c.ready|, s.c.head / 2, 0);
    ObserveReplays(s, if s.c.tail == s.c.head + 1 then Unlocked(h) else UnlockRefused(h));
    forall k: nat ensures |s.a.entries| == 1 ==> Flag(s.a.entries, false, k) == Flag([], false, k) {}
    hide At, RealIndex, Replay;
    forall u | 0 <= u < |s.clients| ensures ClientInv(s'.c.head, |s'.c.ready|, s'.a, u, s'.clients[u]) {
      assert ClientInv(s.c.head, |s.c.ready|, s.a, u, s.clients[u]);
    }
  }

  lemma TryFollowKeepsInv(s: State)
    requires Inv(s) && s.holder == Ready
    ensures Inv(Step(s, TryFollow))
  {
    var s', h := Step(s, TryFollow), s.c.Slot(s.c.head / 2);
    assert s.a.entries[0].node == At(|s.c.ready|, s.c.head / 2, 0);
    assert s.c.ready[At(|s.c.ready|, s.c.head / 2, 0)] == Flag(s.a.entries, false, 0);
    if !s.c.ready[h] {
      ObserveReplays(s, FollowRefused(h));
    }
    hide At, RealIndex, Replay;
  }

  lemma StepKeepsInv(s: State, act: Action)
    requires Inv(s)
    ensures Inv(Step(s, act))
  {
    match act
    case ClientMoves(t, spurious) => if t < |s.clients| { ClientKeepsInv(s, t, spurious); }
    case HolderMoves =>
      if s.holder == ResetReady { ResetKeepsInv(s); } else if s.holder == StoreHead { StoreHeadKeepsInv(s); }
    case TryUnlock => if s.holder == Ready { TryUnlockKeepsInv(s); }
    case TryFollow => if s.holder == Ready { TryFollowKeepsInv(s); }
    case CallLock(t) => hide At, RealIndex, Replay, Flags;
  }

  lemma {:induction false} RunKeepsInv(s: State, acts: seq<Action>)
    requires Initial(s)
    ensures Inv(Run(s, acts))
  {
    if acts != [] {
      RunKeepsInv(s, acts[..|acts| - 1]);
      StepKeepsInv(Run(s, acts[..|acts| - 1]), acts[|acts| - 1]);
    }
  }

  // ----- What every run guarantees

  /** Refinement: the ring buffer gives only answers of the abstract lock queue. Each node it
      hands out is new to the queue, which is part of what the abstract queue accepts. */
  lemma RefinesLockQueue(s: State, acts: seq<Action>)
    requires Initial(s)
    ensures Replay(Run(s, acts).hist) == Some(Run(s, acts).a)
  {
    RunKeepsInv(s, acts);
  }

  /** The ring never holds more nodes than it has slots, even though the capacity test reads a
      head that may be stale and the tail may return to an earlier value in between. */
  lemma NeverOverfull(s: State, acts: seq<Action>)
    requires Initial(s)
    ensures |Run(s, acts).a.entries| <= |s.c.ready|
    ensures var c := Run(s, acts).c; c.head <= c.tail < c.head + 2 * |s.c.ready|
  {
    RunKeepsInv(s, acts);
  }

  lemma CountersGiveParity(r: State)
    requires Inv(r) && r.holder == Ready
    ensures r.c.head % 2 == 0 && r.c.tail % 2 == 1 && (r.c.head + 1 == r.c.tail <==> |r.a.entries| == 1)
  {
    hide At, RealIndex, Replay, Flags, ClientsInv;
  }

  /** `is_unlockable` read by the holder is true exactly when the holder is alone. */
  lemma UnlockableIffAlone(s: State, acts: seq<Action>)
    requires Initial(s) && Run(s, acts).holder == Ready
    ensures var r := Run(s, acts);
            r.c.head % 2 == 0 && r.c.tail % 2 == 1 && (r.c.head + 1 == r.c.tail <==> |r.a.entries| == 1)
  {
    RunKeepsInv(s, acts);
    hide At, RealIndex, Replay, Flags, ClientsInv, Run, Inv;
    CountersGiveParity(Run(s, acts));
  }
}
