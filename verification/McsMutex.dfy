/** The suspending MCS mutex and its condition variable. A waiter saves itself in its
    predecessor's node, and the unlocking thread resumes whom it finds in its own node.
    Queue operations are those of the abstract lock queue, which the MCS core refines;
    the notifier is assumed to hold the mutex, as the barrier does. */
module McsMutex {
  import opened Wrappers
  import opened LockQueue

  /** Where a thread is in `lock`, `unlock` or `unlock_and_wait`. */
  datatype Thread =
    | Out
    | Fresh(cur: Node)                                  // allocated, before start_lock
    | Saving(prev: Node, cur: Node, ticket: nat)        // about to save itself in prev's sth
    | Linking(prev: Node, cur: Node, ticket: nat)       // about to set_next
    | Suspended(ticket: nat)
    | Critical
    | Notified(we: Tid)                                 // made a waiter runnable, about to read its link
    | CheckUnlock
    | TryUnlock(wait: bool)
    | Follow(wait: bool)
    | Hand(cur: Node, wait: bool)                       // past its node, about to resume the successor
    | FreeNode(cur: Node)                               // about to deallocate
    | Parked(cur: Node)                                 // saved in its own suspended_thread

  /** A node outside `place` is in the pool. */
  datatype Place = InQueue(ticket: nat) | With(t: Tid)

  datatype Nodes = Nodes(a: Queue, place: map<Node, Place>, sth: map<Node, Tid>)

  /** `requests` are the lockers in arrival order, `log` those granted so far, in order. The
      condition variable: `waiting_`, the wait entries with their links, each on the stack of its thread
      until the thread has the lock again, and the threads that are to be notified, newest first. */
  datatype State = State(
    m: Nodes, threads: seq<Thread>, token: Option<Tid>,
    requests: seq<Tid>, log: seq<Tid>,
    head: Option<Tid>, frames: map<Tid, Option<Tid>>, waiting: seq<Tid>)

  datatype Action =
    | Allocate(t: Tid, n: Node)
    | Moves(t: Tid, wait: bool)
    | Resume(t: Tid)
    | CvWait(t: Tid)
    | Notify(t: Tid)

  predicate Initial(s: State)
  {
    && s.m == Nodes(EMPTY, map[], map[])
    && (forall t :: 0 <= t < |s.threads| ==> s.threads[t] == Out)
    && s.token == None && s.requests == s.log == [] && s.head == None && s.frames == map[] && s.waiting == []
  }

  function QueueDoes(m: Nodes, e: Event): Nodes
  {
    m.(a := Apply(m.a, e).GetOr(m.a))
  }

  function Head(m: Nodes): Node
    requires m.a.entries != []
  {
    m.a.entries[0].node
  }

  /** The head leaves the queue but stays with thread t until t deallocates it. */
  function Leave(m: Nodes, t: Tid): Nodes
    requires m.a.entries != []
  {
    var n := Head(m);
    var e := if |m.a.entries| == 1 then Unlocked(n) else Followed(n, m.a.entries[1].node);
    QueueDoes(m.(place := m.place[n := With(t)]), e)
  }

  function LockStep(s: State, t: Tid, cur: Node): State
    requires t < |s.threads|
  {
    var ticket := s.m.a.left + |s.m.a.entries|;
    var locked := s.m.a.entries == [];
    var s1 := s.(m := QueueDoes(s.m.(place := s.m.place[cur := InQueue(ticket)]), Enqueued(cur, t, locked)),
                 requests := s.requests + [t]);
    if locked
    then s1.(threads := s.threads[t := Critical], token := Some(t), log := s.log + [t], frames := s.frames - {t})
    else s1.(threads := s.threads[t := Saving(s.m.a.entries[|s.m.a.entries| - 1].node, cur, ticket)])
  }

  /** After unlocking, a waiting thread is saved in its own object; another one goes on. */
  function After(wait: bool, cur: Node): Thread
  {
    if wait then Parked(cur) else FreeNode(cur)
  }

  function ThreadStep(s: State, t: Tid, wait: bool): State
    requires t < |s.threads|
  {
    var m := s.m;
    match s.threads[t]
    case Fresh(cur) => LockStep(s, t, cur)
    case Saving(prev, cur, ticket) =>
      s.(m := m.(sth := m.sth[prev := t]), threads := s.threads[t := Linking(prev, cur, ticket)])
    case Linking(prev, cur, ticket) =>
      s.(m := QueueDoes(m, Linked(ticket)), threads := s.threads[t := Suspended(ticket)])
    case Critical => s.(threads := s.threads[t := if wait then CheckUnlock else TryUnlock(false)])
    case Notified(we) =>
      // If the entry were gone, anything could be read.
      s.(head := if we in s.frames then s.frames[we] else None, threads := s.threads[t := Critical])
    case CheckUnlock =>
      s.(threads := s.threads[t := if |m.a.entries| == 1 then TryUnlock(true) else Follow(true)])
    case TryUnlock(w) =>
      if |m.a.entries| == 1
      then s.(m := Leave(m, t), threads := s.threads[t := After(w, Head(m))], token := None)
      else s.(threads := s.threads[t := Follow(w)])
    case Follow(w) =>
      // The spin loop: nothing changes until the successor is published.
      if SuccessorPublished(m.a) then s.(m := Leave(m, t), threads := s.threads[t := Hand(Head(m), w)]) else s
    case Hand(cur, w) =>
      if cur in m.sth && m.sth[cur] < |s.threads| then
        var u := m.sth[cur];
        s.(m := m.(sth := m.sth - {cur}), threads := s.threads[t := After(w, cur)][u := Critical],
           token := Some(u), log := s.log + [u], frames := s.frames - {u})
      else s
    case FreeNode(cur) => s.(m := m.(place := m.place - {cur}), threads := s.threads[t := Out])
    case _ => s
  }

  function Step(s: State, act: Action): State
  {
    match act
    case Allocate(t, n) =>
      if t < |s.threads| && s.threads[t] == Out && n !in s.m.place
      then s.(m := s.m.(place := s.m.place[n := With(t)]), threads := s.threads[t := Fresh(n)]) else s
    case Moves(t, wait) => if t < |s.threads| then ThreadStep(s, t, wait) else s
    case Resume(t) =>
      if t < |s.threads| && s.threads[t].Parked? && t !in s.waiting
      then s.(threads := s.threads[t := FreeNode(s.threads[t].cur)]) else s
    case CvWait(t) =>
      if t < |s.threads| && s.threads[t] == Critical
      then s.(head := Some(t), frames := s.frames[t := s.head], waiting := [t] + s.waiting, threads := s.threads[t := CheckUnlock])
      else s
    case Notify(t) =>
      // `notify_one` and each round of `notify_all`: resume the waiter of the first entry, then read its link.
      if t < |s.threads| && s.threads[t] == Critical && s.head.Some? && s.head.value < |s.threads|
         && s.threads[s.head.value].Parked?
      then Notifies(s, t, s.head.value)
      else s
  }

  function Notifies(s: State, t: Tid, u: Tid): State
    requires t < |s.threads| && u < |s.threads| && s.threads[u].Parked?
  {
    s.(threads := s.threads[u := FreeNode(s.threads[u].cur)][t := Notified(u)],
       waiting := if s.waiting == [] then [] else s.waiting[1..])
  }

  function Run(s: State, acts: seq<Action>): State
  {
    if acts == [] then s else Step(Run(s, acts[..|acts| - 1]), acts[|acts| - 1])
  }

  // ----- The inductive invariant

  predicate Holding(th: Thread)
  {
    th.Critical? || th.Notified? || th.CheckUnlock? || th.TryUnlock? || th.Follow? || th.Hand?
  }

  /** Entry k > 0: its thread is about to save itself in the predecessor's node, or has done so.
      The last entry's node holds nobody. */
  predicate EntryInv(m: Nodes, threads: seq<Thread>, requests: seq<Tid>, k: nat)
    requires k < |m.a.entries| && m.a.left + k < |requests|
  {
    var e, ticket, t := m.a.entries[k], m.a.left + k, requests[m.a.left + k];
    && t < |threads|
    && (k + 1 == |m.a.entries| ==> e.node !in m.sth)
    && if k == 0 then e.link == Published
       else
         var prev := m.a.entries[k - 1].node;
         match e.link
         case Pending(u) =>
           && u == t
           && (|| (threads[t] == Saving(prev, e.node, ticket) && prev !in m.sth)
               || (threads[t] == Linking(prev, e.node, ticket) && prev in m.sth && m.sth[prev] == t))
         case Published => prev in m.sth && m.sth[prev] == t && threads[t] == Suspended(ticket)
  }

  predicate EntriesInv(m: Nodes, threads: seq<Thread>, requests: seq<Tid>)
  {
    && |requests| == m.a.left + |m.a.entries|
    && forall k :: 0 <= k < |m.a.entries| ==> EntryInv(m, threads, requests, k)
  }

  predicate PlaceInv(m: Nodes)
  {
    && (forall k :: 0 <= k < |m.a.entries| ==>
          m.a.entries[k].node in m.place && m.place[m.a.entries[k].node] == InQueue(m.a.left + k))
    && forall n :: n in m.sth ==> n in m.place
  }

  predicate Owns(m: Nodes, t: Tid, n: Node)
  {
    n in m.place && m.place[n] == With(t)
  }

  predicate ThreadInv(m: Nodes, requests: seq<Tid>, granted: bool, token: Option<Tid>, t: Tid, th: Thread)
  {
    && (Holding(th) <==> token == Some(t))
    && match th
       case Fresh(cur) => Owns(m, t, cur) && cur !in m.sth
       case Saving(prev, cur, ticket) => PendingEntry(m.a, requests, t, prev, cur, ticket)
       case Linking(prev, cur, ticket) => PendingEntry(m.a, requests, t, prev, cur, ticket)
       case Suspended(ticket) =>
         && 0 <= ticket - m.a.left < |m.a.entries| && ticket < |requests| && requests[ticket] == t
         && m.a.entries[ticket - m.a.left].link == Published && !(granted && ticket == m.a.left)
       case Hand(cur, _) =>
         && Owns(m, t, cur) && cur in m.sth && m.a.entries != [] && m.a.left < |requests|
         && m.sth[cur] == requests[m.a.left] && !granted
       case Notified(we) => we != t
       case FreeNode(cur) => Owns(m, t, cur) && cur !in m.sth
       case Parked(cur) => Owns(m, t, cur) && cur !in m.sth
       case _ => true
  }

  predicate PendingEntry(a: Queue, requests: seq<Tid>, t: Tid, prev: Node, cur: Node, ticket: nat)
  {
    var k := ticket - a.left;
    && 0 < k < |a.entries| && ticket < |requests| && requests[ticket] == t
    && a.entries[k] == Entry(cur, Pending(t)) && a.entries[k - 1].node == prev
  }

  predicate ThreadsInv(m: Nodes, threads: seq<Thread>, requests: seq<Tid>, granted: bool, token: Option<Tid>)
  {
    forall t :: 0 <= t < |threads| ==> ThreadInv(m, requests, granted, token, t, threads[t])
  }

  /** The lock is free exactly when the queue is empty; its head has been granted unless the
      previous holder is just handing over, and then the head is the thread it will resume. */
  predicate TokenInv(m: Nodes, threads: seq<Thread>, requests: seq<Tid>, token: Option<Tid>, granted: bool)
  {
    match token
    case None => m.a.entries == [] && !granted
    case Some(t) =>
      && m.a.entries != [] && t < |threads|
      && (granted <==> !threads[t].Hand?)
      && (granted || (m.a.left < |requests| && requests[m.a.left] < |threads|
                      && threads[requests[m.a.left]] == Suspended(m.a.left)))
  }

  predicate LogInv(left: nat, requests: seq<Tid>, log: seq<Tid>)
  {
    log <= requests && left <= |log| <= left + 1
  }

  function Front(l: seq<Tid>): Option<Tid>
  {
    if l == [] then None else Some(l[0])
  }

  /** Threads linked from the condition variable are on their way to sleep or asleep, and their entries
      are linked in order. */
  predicate CvInv(threads: seq<Thread>, waiting: seq<Tid>, frames: map<Tid, Option<Tid>>)
  {
    && (forall i | 0 <= i < |waiting| ::
          && waiting[i] < |threads| && GoingToWait(threads[waiting[i]])
          && waiting[i] in frames && frames[waiting[i]] == Front(waiting[i + 1..]))
    && forall i, j :: 0 <= i < j < |waiting| ==> waiting[i] != waiting[j]
  }

  /** The entry whose link the holder of the lock is about to read. */
  function Reading(threads: seq<Thread>, token: Option<Tid>): Option<Tid>
  {
    if token.Some? && token.value < |threads| && threads[token.value].Notified? then Some(threads[token.value].we) else None
  }

  /** `waiting_` points to the first entry; while a notifier has still to read the link of the entry whose
      thread it resumed, to that entry, which exists and is linked to the first of the others. */
  predicate HeadInv(reading: Option<Tid>, head: Option<Tid>, frames: map<Tid, Option<Tid>>, waiting: seq<Tid>)
  {
    match reading
    case None => head == Front(waiting)
    case Some(we) => head == Some(we) && we in frames && frames[we] == Front(waiting)
  }

  predicate GoingToWait(th: Thread)
  {
    th.Parked? || th.CheckUnlock? || (th.TryUnlock? && th.wait) || (th.Follow? && th.wait) || (th.Hand? && th.wait)
  }

  predicate Granted(s: State)
  {
    |s.log| == s.m.a.left + 1
  }

  predicate Core(s: State)
  {
    && EntriesInv(s.m, s.threads, s.requests)
    && PlaceInv(s.m)
    && ThreadsInv(s.m, s.threads, s.requests, Granted(s), s.token)
    && TokenInv(s.m, s.threads, s.requests, s.token, Granted(s))
    && LogInv(s.m.a.left, s.requests, s.log)
    && CvInv(s.threads, s.waiting, s.frames)
  }

  predicate Inv(s: State)
  {
    Core(s) && HeadInv(Reading(s.threads, s.token), s.head, s.frames, s.waiting)
  }

  // ----- Each part of the invariant under each kind of change

  predicate Queued(th: Thread)
  {
    th.Saving? || th.Linking? || th.Suspended?
  }

  /** A thread that no entry refers to may change freely. */
  lemma FreeThreadKeepsEntries(m: Nodes, threads: seq<Thread>, requests: seq<Tid>, t: Tid, th: Thread)
    requires EntriesInv(m, threads, requests) && t < |threads| && !Queued(threads[t])
    ensures EntriesInv(m, threads[t := th], requests)
  {
    var threads' := threads[t := th];
    forall k | 0 <= k < |m.a.entries| ensures EntryInv(m, threads', requests, k) {
      assert EntryInv(m, threads, requests, k);
    }
  }

  /** Entries depend on where nodes are only through the nodes in the queue. */
  lemma SameQueueKeepsEntries(m: Nodes, m': Nodes, threads: seq<Thread>, requests: seq<Tid>)
    requires EntriesInv(m, threads, requests) && m'.a == m.a && m'.sth == m.sth
    ensures EntriesInv(m', threads, requests)
  {
    forall k | 0 <= k < |m.a.entries| ensures EntryInv(m', threads, requests, k) {
      assert EntryInv(m, threads, requests, k);
    }
  }

  /** One thread moves, and the token with it at most. */
  lemma ThreadKeepsThreads(m: Nodes, threads: seq<Thread>, requests: seq<Tid>, granted: bool,
                           token: Option<Tid>, t: Tid, th: Thread, token': Option<Tid>)
    requires ThreadsInv(m, threads, requests, granted, token) && t < |threads|
    requires ThreadInv(m, requests, granted, token', t, th)
    requires forall u: Tid :: u != t ==> (token == Some(u) <==> token' == Some(u))
    ensures ThreadsInv(m, threads[t := th], requests, granted, token')
  {
    forall u | 0 <= u < |threads| && u != t ensures ThreadInv(m, requests, granted, token', u, threads[u]) {
      assert ThreadInv(m, requests, granted, token, u, threads[u]);
    }
  }

  /** Thread t takes a new node, or gives its own one back to the pool. */
  lemma NodeChangeKeepsThreads(m: Nodes, m': Nodes, threads: seq<Thread>, requests: seq<Tid>, granted: bool,
                               token: Option<Tid>, t: Tid, n: Node, th: Thread)
    requires ThreadsInv(m, threads, requests, granted, token) && t < |threads|
    requires m'.a == m.a && m'.sth == m.sth
    requires (n !in m.place && m'.place == m.place[n := With(t)]) || (Owns(m, t, n) && m'.place == m.place - {n})
    requires ThreadInv(m', requests, granted, token, t, th)
    ensures ThreadsInv(m', threads[t := th], requests, granted, token)
  {
    forall u | 0 <= u < |threads| && u != t ensures ThreadInv(m', requests, granted, token, u, threads[u]) {
      assert ThreadInv(m, requests, granted, token, u, threads[u]);
    }
  }

  /** Thread t's own node becomes the last entry. */
  lemma AppendKeepsEntries(m: Nodes, threads: seq<Thread>, requests: seq<Tid>, m': Nodes, t: Tid, cur: Node, th: Thread)
    requires EntriesInv(m, threads, requests) && t < |threads| && !Queued(threads[t]) && m.a.entries != []
    requires m' == m.(place := m'.place, a := Queue(m.a.entries + [Entry(cur, Pending(t))], m.a.left))
    requires cur !in m.sth
    requires th == Saving(m.a.entries[|m.a.entries| - 1].node, cur, m.a.left + |m.a.entries|)
    ensures EntriesInv(m', threads[t := th], requests + [t])
  {
    var threads' := threads[t := th];
    forall k | 0 <= k < |m'.a.entries| ensures EntryInv(m', threads', requests + [t], k) {
      if k < |m.a.entries| {
        assert EntryInv(m, threads, requests, k);
      } else {
        assert EntryInv(m, threads, requests, k - 1);
      }
    }
  }

  lemma AppendKeepsThreads(m: Nodes, threads: seq<Thread>, requests: seq<Tid>, granted: bool, token: Option<Tid>,
                           m': Nodes, t: Tid, cur: Node, e: Entry)
    requires ThreadsInv(m, threads, requests, granted, token) && t < |threads| && threads[t] == Fresh(cur)
    requires m'.a == Queue(m.a.entries + [e], m.a.left) && m'.sth == m.sth
    requires m'.place == m.place[cur := InQueue(m.a.left + |m.a.entries|)]
    ensures forall u :: 0 <= u < |threads| && u != t ==>
              ThreadInv(m', requests + [t], granted, token, u, threads[u])
  {
    assert ThreadInv(m, requests, granted, token, t, threads[t]);
    forall u | 0 <= u < |threads| && u != t
      ensures ThreadInv(m', requests + [t], granted, token, u, threads[u])
    {
      assert ThreadInv(m, requests, granted, token, u, threads[u]);
    }
  }

  /** Saving oneself in the predecessor's node, which is still in the queue. */
  lemma SaveKeepsEntries(m: Nodes, threads: seq<Thread>, requests: seq<Tid>, t: Tid)
    requires EntriesInv(m, threads, requests) && PlaceInv(m) && t < |threads| && threads[t].Saving?
    requires PendingEntry(m.a, requests, t, threads[t].prev, threads[t].cur, threads[t].ticket)
    ensures var Saving(prev, cur, ticket) := threads[t]; var m' := m.(sth := m.sth[prev := t]);
            EntriesInv(m', threads[t := Linking(prev, cur, ticket)], requests) && PlaceInv(m')
  {
    var Saving(prev, cur, ticket) := threads[t];
    var m', threads' := m.(sth := m.sth[prev := t]), threads[t := Linking(prev, cur, ticket)];
    var j := ticket - m.a.left - 1;
    assert m.place[m.a.entries[j].node] == InQueue(m.a.left + j);
    forall k | 0 <= k < |m.a.entries| ensures EntryInv(m', threads', requests, k) {
      assert EntryInv(m, threads, requests, k);
      assert m.place[m.a.entries[k].node] == InQueue(m.a.left + k);
      if k > 0 { assert m.place[m.a.entries[k - 1].node] == InQueue(m.a.left + (k - 1)); }
    }
  }

  lemma SaveKeepsThreads(m: Nodes, threads: seq<Thread>, requests: seq<Tid>, granted: bool, token: Option<Tid>,
                         t: Tid, prev: Node, th: Thread)
    requires ThreadsInv(m, threads, requests, granted, token) && t < |threads|
    requires prev in m.place && m.place[prev].InQueue?
    requires ThreadInv(m.(sth := m.sth[prev := t]), requests, granted, token, t, th)
    ensures ThreadsInv(m.(sth := m.sth[prev := t]), threads[t := th], requests, granted, token)
  {
    var m' := m.(sth := m.sth[prev := t]);
    forall u | 0 <= u < |threads| && u != t ensures ThreadInv(m', requests, granted, token, u, threads[u]) {
      assert ThreadInv(m, requests, granted, token, u, threads[u]);
    }
  }

  lemma PublishKeepsEntries(m: Nodes, threads: seq<Thread>, requests: seq<Tid>, t: Tid, m': Nodes)
    requires EntriesInv(m, threads, requests) && t < |threads| && threads[t].Linking?
    requires PendingEntry(m.a, requests, t, threads[t].prev, threads[t].cur, threads[t].ticket)
    requires var Linking(prev, cur, ticket) := threads[t];
             m' == m.(a := m.a.(entries := m.a.entries[ticket - m.a.left := Entry(cur, Published)]))
    ensures EntriesInv(m', threads[t := Suspended(threads[t].ticket)], requests)
  {
    var threads' := threads[t := Suspended(threads[t].ticket)];
    forall k | 0 <= k < |m.a.entries| ensures EntryInv(m', threads', requests, k) {
      assert EntryInv(m, threads, requests, k);
    }
  }

  lemma PublishKeepsThreads(m: Nodes, threads: seq<Thread>, requests: seq<Tid>, granted: bool, token: Option<Tid>,
                            t: Tid, m': Nodes)
    requires ThreadsInv(m, threads, requests, granted, token) && t < |threads| && threads[t].Linking?
    requires PendingEntry(m.a, requests, t, threads[t].prev, threads[t].cur, threads[t].ticket)
    requires var Linking(prev, cur, ticket) := threads[t];
             m' == m.(a := m.a.(entries := m.a.entries[ticket - m.a.left := Entry(cur, Published)]))
    ensures ThreadsInv(m', threads[t := Suspended(threads[t].ticket)], requests, granted, token)
  {
    var threads' := threads[t := Suspended(threads[t].ticket)];
    forall u | 0 <= u < |threads| ensures ThreadInv(m', requests, granted, token, u, threads'[u]) {
      assert ThreadInv(m, requests, granted, token, u, threads[u]);
    }
  }

  lemma LeaveEffect(m: Nodes, t: Tid)
    requires |m.a.entries| == 1 || SuccessorPublished(m.a)
    ensures Leave(m, t) == m.(a := Queue(m.a.entries[1..], m.a.left + 1), place := m.place[Head(m) := With(t)])
  {
  }

  lemma LeaveKeepsEntries(m: Nodes, threads: seq<Thread>, requests: seq<Tid>, t: Tid)
    requires EntriesInv(m, threads, requests) && (|m.a.entries| == 1 || SuccessorPublished(m.a))
    ensures EntriesInv(Leave(m, t), threads, requests)
  {
    LeaveEffect(m, t);
    hide Leave;
    forall k | 0 <= k < |m.a.entries| - 1 ensures EntryInv(Leave(m, t), threads, requests, k) {
      assert EntryInv(m, threads, requests, k + 1);
    }
  }

  lemma LeaveKeepsPlace(m: Nodes, t: Tid)
    requires PlaceInv(m) && (|m.a.entries| == 1 || SuccessorPublished(m.a))
    ensures PlaceInv(Leave(m, t))
  {
    LeaveEffect(m, t);
    hide Leave;
    forall k | 0 <= k < |m.a.entries| - 1
      ensures var n := Leave(m, t).a.entries[k].node;
              n in Leave(m, t).place && Leave(m, t).place[n] == InQueue(m.a.left + 1 + k)
    {
      assert m.place[m.a.entries[k + 1].node] == InQueue(m.a.left + (k + 1));
      assert m.place[m.a.entries[0].node] == InQueue(m.a.left + 0);
    }
  }

  lemma LeaveKeepsThreads(m: Nodes, threads: seq<Thread>, requests: seq<Tid>, token: Option<Tid>, t: Tid)
    requires ThreadsInv(m, threads, requests, true, token) && (|m.a.entries| == 1 || SuccessorPublished(m.a))
    requires Head(m) in m.place && m.place[Head(m)].InQueue?
    ensures ThreadsInv(Leave(m, t), threads, requests, false, token)
  {
    LeaveEffect(m, t);
    hide Leave;
    forall u | 0 <= u < |threads| ensures ThreadInv(Leave(m, t), requests, false, token, u, threads[u]) {
      assert ThreadInv(m, requests, true, token, u, threads[u]);
    }
  }

  /** Resuming the thread u found in cur. */
  lemma HandKeepsEntries(m: Nodes, threads: seq<Thread>, requests: seq<Tid>, t: Tid, cur: Node)
    requires EntriesInv(m, threads, requests) && PlaceInv(m) && Owns(m, t, cur)
    ensures EntriesInv(m.(sth := m.sth - {cur}), threads, requests) && PlaceInv(m.(sth := m.sth - {cur}))
  {
    var m' := m.(sth := m.sth - {cur});
    forall k | 0 <= k < |m.a.entries| ensures EntryInv(m', threads, requests, k) {
      assert EntryInv(m, threads, requests, k);
      assert m.place[m.a.entries[k].node] == InQueue(m.a.left + k);
      if k > 0 { assert m.place[m.a.entries[k - 1].node] == InQueue(m.a.left + (k - 1)); }
    }
  }

  lemma GrantedThreadIsFree(m: Nodes, threads: seq<Thread>, requests: seq<Tid>, u: Tid)
    requires EntriesInv(m, threads, requests) && u < |threads| && threads[u] == Suspended(m.a.left)
    ensures EntriesInv(m, threads[u := Critical], requests)
  {
    var threads' := threads[u := Critical];
    forall k | 0 <= k < |m.a.entries| ensures EntryInv(m, threads', requests, k) {
      assert EntryInv(m, threads, requests, k);
    }
  }

  lemma HandKeepsThreads(m: Nodes, threads: seq<Thread>, requests: seq<Tid>, t: Tid, u: Tid, cur: Node, wait: bool)
    requires ThreadsInv(m, threads, requests, false, Some(t)) && t < |threads| && u < |threads| && t != u
    requires Owns(m, t, cur) && m.a.left < |requests| && requests[m.a.left] == u
    ensures ThreadsInv(m.(sth := m.sth - {cur}), threads[t := After(wait, cur)][u := Critical], requests, true, Some(u))
  {
    var m', threads' := m.(sth := m.sth - {cur}), threads[t := After(wait, cur)][u := Critical];
    forall x | 0 <= x < |threads| ensures ThreadInv(m', requests, true, Some(u), x, threads'[x]) {
      assert ThreadInv(m, requests, false, Some(t), x, threads[x]);
    }
  }

  /** Threads linked from the condition variable that do not move stay on their way. */
  lemma MoveKeepsCv(threads: seq<Thread>, waiting: seq<Tid>, frames: map<Tid, Option<Tid>>, t: Tid, th: Thread)
    requires CvInv(threads, waiting, frames) && t < |threads|
    requires GoingToWait(threads[t]) ==> GoingToWait(th)
    ensures CvInv(threads[t := th], waiting, frames)
  {
  }

  // ----- Every step keeps the invariant

  lemma AllocateKeepsInv(s: State, t: Tid, n: Node)
    requires Inv(s) && t < |s.threads| && s.threads[t] == Out && n !in s.m.place
    ensures Inv(Step(s, Allocate(t, n)))
  {
    var s' := Step(s, Allocate(t, n));
    assert ThreadInv(s.m, s.requests, Granted(s), s.token, t, s.threads[t]);
    NodeChangeKeepsThreads(s.m, s'.m, s.threads, s.requests, Granted(s), s.token, t, n, Fresh(n));
    FreeThreadKeepsEntries(s.m, s.threads, s.requests, t, Fresh(n));
    SameQueueKeepsEntries(s.m, s'.m, s'.threads, s.requests);
    MoveKeepsCv(s.threads, s.waiting, s.frames, t, Fresh(n));
    hide EntriesInv, ThreadsInv, CvInv;
  }

  lemma DeallocateKeepsInv(s: State, t: Tid, wait: bool)
    requires Inv(s) && t < |s.threads| && s.threads[t].FreeNode?
    ensures Inv(ThreadStep(s, t, wait))
  {
    var s', cur := ThreadStep(s, t, wait), s.threads[t].cur;
    assert ThreadInv(s.m, s.requests, Granted(s), s.token, t, s.threads[t]);
    NodeChangeKeepsThreads(s.m, s'.m, s.threads, s.requests, Granted(s), s.token, t, cur, Out);
    FreeThreadKeepsEntries(s.m, s.threads, s.requests, t, Out);
    SameQueueKeepsEntries(s.m, s'.m, s'.threads, s.requests);
    MoveKeepsCv(s.threads, s.waiting, s.frames, t, Out);
    hide EntriesInv, ThreadsInv, CvInv;
  }

  lemma LockFreeKeepsInv(s: State, t: Tid, cur: Node)
    requires Inv(s) && t < |s.threads| && s.threads[t] == Fresh(cur) && s.m.a.entries == []
    ensures Inv(LockStep(s, t, cur))
  {
    var s', e := LockStep(s, t, cur), Entry(cur, Published);
    assert ThreadInv(s.m, s.requests, Granted(s), s.token, t, s.threads[t]);
    assert s'.m.a == Queue([e], s.m.a.left);
    AppendKeepsThreads(s.m, s.threads, s.requests, false, s.token, s'.m, t, cur, e);
    forall u | 0 <= u < |s.threads| && u != t
      ensures ThreadInv(s'.m, s'.requests, true, Some(t), u, s.threads[u])
    {
      assert ThreadInv(s.m, s.requests, false, s.token, u, s.threads[u]);
      assert ThreadInv(s'.m, s'.requests, false, s.token, u, s.threads[u]);
    }
    assert EntryInv(s'.m, s'.threads, s'.requests, 0);
    hide ThreadInv;
    assert ThreadsInv(s'.m, s'.threads, s'.requests, true, Some(t)) by {
      assert ThreadInv(s'.m, s'.requests, true, Some(t), t, Critical);
    }
    hide ThreadsInv;
  }

  lemma JoinQueueKeepsInv(s: State, t: Tid, cur: Node)
    requires Inv(s) && t < |s.threads| && s.threads[t] == Fresh(cur) && s.m.a.entries != []
    ensures Inv(LockStep(s, t, cur))
  {
    assert ThreadInv(s.m, s.requests, Granted(s), s.token, t, s.threads[t]);
    assert |s.requests| == s.m.a.left + |s.m.a.entries|;
    assert !Contains(s.m.a.entries, cur);
    hide Contains, EntryInv;
    var s', e := LockStep(s, t, cur), Entry(cur, Pending(t));
    assert s'.m.a == Queue(s.m.a.entries + [e], s.m.a.left);
    AppendKeepsThreads(s.m, s.threads, s.requests, Granted(s), s.token, s'.m, t, cur, e);
    AppendKeepsEntries(s.m, s.threads, s.requests, s'.m, t, cur, s'.threads[t]);
    MoveKeepsCv(s.threads, s.waiting, s.frames, t, s'.threads[t]);
    hide EntriesInv, CvInv;
    assert ThreadInv(s'.m, s'.requests, Granted(s), s.token, t, s'.threads[t]);
    assert PlaceInv(s'.m);
    hide PlaceInv, ThreadInv;
  }

  lemma SaveKeepsInv(s: State, t: Tid, wait: bool)
    requires Inv(s) && t < |s.threads| && s.threads[t].Saving?
    ensures Inv(ThreadStep(s, t, wait))
  {
    var s' := ThreadStep(s, t, wait);
    var Saving(prev, cur, ticket) := s.threads[t];
    assert ThreadInv(s.m, s.requests, Granted(s), s.token, t, s.threads[t]);
    assert s.m.place[s.m.a.entries[ticket - s.m.a.left - 1].node] == InQueue(ticket - 1);
    SaveKeepsEntries(s.m, s.threads, s.requests, t);
    SaveKeepsThreads(s.m, s.threads, s.requests, Granted(s), s.token, t, prev, s'.threads[t]);
    MoveKeepsCv(s.threads, s.waiting, s.frames, t, s'.threads[t]);
    hide EntriesInv, ThreadsInv, CvInv, PlaceInv;
  }

  lemma LinkKeepsInv(s: State, t: Tid, wait: bool)
    requires Inv(s) && t < |s.threads| && s.threads[t].Linking?
    ensures Inv(ThreadStep(s, t, wait))
  {
    var s' := ThreadStep(s, t, wait);
    var Linking(prev, cur, ticket) := s.threads[t];
    assert ThreadInv(s.m, s.requests, Granted(s), s.token, t, s.threads[t]);
    assert s'.m == s.m.(a := s.m.a.(entries := s.m.a.entries[ticket - s.m.a.left := Entry(cur, Published)]));
    PublishKeepsEntries(s.m, s.threads, s.requests, t, s'.m);
    PublishKeepsThreads(s.m, s.threads, s.requests, Granted(s), s.token, t, s'.m);
    MoveKeepsCv(s.threads, s.waiting, s.frames, t, s'.threads[t]);
    hide EntriesInv, ThreadsInv, CvInv;
  }

  /** The holder moves on without leaving the queue. */
  lemma HolderMovesKeepsInv(s: State, t: Tid, th: Thread)
    requires Inv(s) && t < |s.threads| && !s.threads[t].Hand? && !th.Hand? && !s.threads[t].Notified? && !th.Notified?
    requires Holding(s.threads[t]) && Holding(th) && (GoingToWait(s.threads[t]) ==> GoingToWait(th))
    ensures Inv(s.(threads := s.threads[t := th]))
  {
    hide Core;
    HolderMovesKeepsCore(s, t, th);
  }

  lemma HolderMovesKeepsCore(s: State, t: Tid, th: Thread)
    requires Core(s) && t < |s.threads| && !s.threads[t].Hand? && !th.Hand?
    requires Holding(s.threads[t]) && Holding(th) && (GoingToWait(s.threads[t]) ==> GoingToWait(th)) && th != Notified(t)
    ensures Core(s.(threads := s.threads[t := th])) && s.token == Some(t)
  {
    assert ThreadInv(s.m, s.requests, Granted(s), s.token, t, s.threads[t]);
    FreeThreadKeepsEntries(s.m, s.threads, s.requests, t, th);
    ThreadKeepsThreads(s.m, s.threads, s.requests, Granted(s), s.token, t, th, s.token);
    MoveKeepsCv(s.threads, s.waiting, s.frames, t, th);
    hide EntriesInv, ThreadsInv, CvInv, PlaceInv;
  }

  lemma UnlockKeepsInv(s: State, t: Tid, wait: bool)
    requires Inv(s) && t < |s.threads| && s.threads[t].TryUnlock? && |s.m.a.entries| == 1
    ensures Inv(ThreadStep(s, t, wait))
  {
    var s' := ThreadStep(s, t, wait);
    assert ThreadInv(s.m, s.requests, Granted(s), s.token, t, s.threads[t]);
    assert EntryInv(s.m, s.threads, s.requests, 0);
    assert Head(s.m) in s.m.place && s.m.place[s.m.a.entries[0].node] == InQueue(s.m.a.left + 0);
    LeaveEffect(s.m, t);
    LeaveKeepsEntries(s.m, s.threads, s.requests, t);
    LeaveKeepsPlace(s.m, t);
    LeaveKeepsThreads(s.m, s.threads, s.requests, s.token, t);
    hide Leave;
    FreeThreadKeepsEntries(s'.m, s.threads, s.requests, t, s'.threads[t]);
    ThreadKeepsThreads(s'.m, s.threads, s.requests, false, s.token, t, s'.threads[t], None);
    MoveKeepsCv(s.threads, s.waiting, s.frames, t, s'.threads[t]);
    hide EntriesInv, ThreadsInv, CvInv, PlaceInv;
  }

  lemma FollowKeepsInv(s: State, t: Tid, wait: bool)
    requires Inv(s) && t < |s.threads| && s.threads[t].Follow? && SuccessorPublished(s.m.a)
    ensures Inv(ThreadStep(s, t, wait))
  {
    var s' := ThreadStep(s, t, wait);
    assert ThreadInv(s.m, s.requests, Granted(s), s.token, t, s.threads[t]);
    assert EntryInv(s.m, s.threads, s.requests, 1);
    assert Head(s.m) in s.m.place && s.m.place[s.m.a.entries[0].node] == InQueue(s.m.a.left + 0);
    LeaveEffect(s.m, t);
    LeaveKeepsEntries(s.m, s.threads, s.requests, t);
    LeaveKeepsPlace(s.m, t);
    LeaveKeepsThreads(s.m, s.threads, s.requests, s.token, t);
    hide Leave;
    FreeThreadKeepsEntries(s'.m, s.threads, s.requests, t, s'.threads[t]);
    ThreadKeepsThreads(s'.m, s.threads, s.requests, false, s.token, t, s'.threads[t], s.token);
    MoveKeepsCv(s.threads, s.waiting, s.frames, t, s'.threads[t]);
    hide EntriesInv, ThreadsInv, CvInv, PlaceInv;
  }

  lemma HandKeepsInv(s: State, t: Tid, wait: bool)
    requires Inv(s) && t < |s.threads| && s.threads[t].Hand?
    ensures Inv(ThreadStep(s, t, wait))
  {
    var s' := ThreadStep(s, t, wait);
    var Hand(cur, w) := s.threads[t];
    assert ThreadInv(s.m, s.requests, Granted(s), s.token, t, s.threads[t]);
    var u := s.m.sth[cur];
    HandKeepsEntries(s.m, s.threads, s.requests, t, cur);
    FreeThreadKeepsEntries(s'.m, s.threads, s.requests, t, After(w, cur));
    GrantedThreadIsFree(s'.m, s.threads[t := After(w, cur)], s.requests, u);
    HandKeepsThreads(s.m, s.threads, s.requests, t, u, cur, w);
    MoveKeepsCv(s.threads, s.waiting, s.frames, t, After(w, cur));
    GrantKeepsCv(s.threads[t := After(w, cur)], s.waiting, s.frames, u);
    hide EntriesInv, ThreadsInv, CvInv, PlaceInv;
    assert s'.log == s.log + [s.requests[|s.log|]];
  }

  lemma GrantKeepsCv(threads: seq<Thread>, waiting: seq<Tid>, frames: map<Tid, Option<Tid>>, u: Tid)
    requires CvInv(threads, waiting, frames) && u < |threads| && threads[u].Suspended?
    ensures CvInv(threads[u := Critical], waiting, frames - {u})
  {
  }

  lemma ThreadStepKeepsInv(s: State, t: Tid, wait: bool)
    requires Inv(s) && t < |s.threads|
    ensures Inv(ThreadStep(s, t, wait))
  {
    hide Inv;
    match s.threads[t]
    case Fresh(cur) =>
      if s.m.a.entries == [] { LockFreeKeepsInv(s, t, cur); } else { JoinQueueKeepsInv(s, t, cur); }
    case Saving(_, _, _) => SaveKeepsInv(s, t, wait);
    case Linking(_, _, _) => LinkKeepsInv(s, t, wait);
    case Critical => HolderMovesKeepsInv(s, t, if wait then CheckUnlock else TryUnlock(false));
    case Notified(we) => ReadLinkKeepsInv(s, t, wait);
    case CheckUnlock =>
      HolderMovesKeepsInv(s, t, if |s.m.a.entries| == 1 then TryUnlock(true) else Follow(true));
    case TryUnlock(w) =>
      if |s.m.a.entries| == 1 { UnlockKeepsInv(s, t, wait); } else { HolderMovesKeepsInv(s, t, Follow(w)); }
    case Follow(_) => if SuccessorPublished(s.m.a) { FollowKeepsInv(s, t, wait); }
    case Hand(_, _) => HandKeepsInv(s, t, wait);
    case FreeNode(_) => DeallocateKeepsInv(s, t, wait);
    case _ =>
  }

  /** A parked thread is made runnable: by someone else if it is not linked from the condition
      variable, or by being popped from it. */
  lemma WakeKeepsCore(s: State, t: Tid, waiting: seq<Tid>)
    requires Core(s) && t < |s.threads| && s.threads[t].Parked?
    requires t !in waiting && CvInv(s.threads, waiting, s.frames)
    ensures Core(s.(threads := s.threads[t := FreeNode(s.threads[t].cur)], waiting := waiting))
  {
    var th := FreeNode(s.threads[t].cur);
    assert ThreadInv(s.m, s.requests, Granted(s), s.token, t, s.threads[t]);
    FreeThreadKeepsEntries(s.m, s.threads, s.requests, t, th);
    ThreadKeepsThreads(s.m, s.threads, s.requests, Granted(s), s.token, t, th, s.token);
    assert CvInv(s.threads[t := th], waiting, s.frames);
    hide EntriesInv, ThreadsInv, CvInv, PlaceInv;
  }

  lemma PopKeepsCv(threads: seq<Thread>, waiting: seq<Tid>, frames: map<Tid, Option<Tid>>)
    requires CvInv(threads, waiting, frames) && waiting != []
    ensures waiting[0] in frames && frames[waiting[0]] == Front(waiting[1..])
    ensures waiting[0] !in waiting[1..] && CvInv(threads, waiting[1..], frames)
  {
    var l := waiting[1..];
    forall i | 0 <= i < |l| ensures frames[l[i]] == Front(l[i + 1..]) {
      assert l[i] == waiting[i + 1] && l[i + 1..] == waiting[i + 2..];
    }
  }

  lemma NotifyKeepsInv(s: State, t: Tid)
    requires Inv(s) && t < |s.threads| && s.threads[t] == Critical && s.head.Some? && s.head.value < |s.threads|
    requires s.threads[s.head.value].Parked?
    ensures Inv(Notifies(s, t, s.head.value))
  {
    hide Core;
    var u := s.head.value;
    TokenOf(s, t);
    CvOf(s);
    PopKeepsCv(s.threads, s.waiting, s.frames);
    hide CvInv;
    WakeKeepsCore(s, u, s.waiting[1..]);
    HolderMovesKeepsCore(s.(threads := s.threads[u := FreeNode(s.threads[u].cur)], waiting := s.waiting[1..]), t, Notified(u));
  }

  lemma TokenOf(s: State, t: Tid)
    requires Core(s) && t < |s.threads| && Holding(s.threads[t])
    ensures s.token == Some(t)
  {
    assert ThreadInv(s.m, s.requests, Granted(s), s.token, t, s.threads[t]);
  }

  lemma CvOf(s: State)
    requires Core(s)
    ensures CvInv(s.threads, s.waiting, s.frames)
  {
  }

  lemma ReadLinkKeepsInv(s: State, t: Tid, wait: bool)
    requires Inv(s) && t < |s.threads| && s.threads[t].Notified?
    ensures Inv(ThreadStep(s, t, wait))
  {
    hide Core;
    HolderMovesKeepsCore(s, t, Critical);
    SameCore(s.(threads := s.threads[t := Critical]), ThreadStep(s, t, wait));
  }

  lemma SameCore(s: State, s': State)
    requires Core(s) && s' == s.(head := s'.head)
    ensures Core(s')
  {
    hide EntriesInv, ThreadsInv, CvInv, PlaceInv, TokenInv, LogInv;
  }

  lemma PushKeepsCv(threads: seq<Thread>, waiting: seq<Tid>, frames: map<Tid, Option<Tid>>, t: Tid)
    requires CvInv(threads, waiting, frames) && t < |threads| && !GoingToWait(threads[t])
    ensures CvInv(threads[t := CheckUnlock], [t] + waiting, frames[t := Front(waiting)])
  {
    var l, frames' := [t] + waiting, frames[t := Front(waiting)];
    forall i | 0 <= i < |l| ensures l[i] in frames' && frames'[l[i]] == Front(l[i + 1..]) {
      assert l[i + 1..] == waiting[i..];
    }
  }

  lemma CvWaitKeepsInv(s: State, t: Tid)
    requires Inv(s) && t < |s.threads| && s.threads[t] == Critical
    ensures Inv(Step(s, CvWait(t)))
  {
    TokenOf(s, t);
    HolderMovesKeepsCore(s, t, CheckUnlock);
    PushKeepsCv(s.threads, s.waiting, s.frames, t);
    hide EntriesInv, ThreadsInv, CvInv, PlaceInv;
  }

  lemma StepKeepsInv(s: State, act: Action)
    requires Inv(s)
    ensures Inv(Step(s, act))
  {
    match act
    case Allocate(t, n) =>
      hide Inv;
      if t < |s.threads| && s.threads[t] == Out && n !in s.m.place { AllocateKeepsInv(s, t, n); }
    case Moves(t, wait) =>
      hide Inv;
      if t < |s.threads| { ThreadStepKeepsInv(s, t, wait); }
    case Resume(t) =>
      if t < |s.threads| && s.threads[t].Parked? && t !in s.waiting { WakeKeepsCore(s, t, s.waiting); }
    case CvWait(t) =>
      hide Inv;
      if t < |s.threads| && s.threads[t] == Critical { CvWaitKeepsInv(s, t); }
    case Notify(t) =>
      hide Inv;
      if t < |s.threads| && s.threads[t] == Critical && s.head.Some? && s.head.value < |s.threads|
         && s.threads[s.head.value].Parked? { NotifyKeepsInv(s, t); }
  }

  lemma {:induction false} RunKeepsInv(s: State, acts: seq<Action>)
    requires Initial(s)
    ensures Inv(Run(s, acts))
  {
    if acts != [] {
      RunKeepsInv(s, acts[..|acts| - 1]);
      StepKeepsInv(Run(s, acts[..|acts| - 1]), acts[|acts| - 1]);
    }
  }

  // ----- What every run guarantees

  /** At most one thread is between taking the lock and giving it up, and none when it is free. */
  lemma MutualExclusion(s: State, acts: seq<Action>, t: Tid, u: Tid)
    requires Initial(s) && t < |Run(s, acts).threads| && u < |Run(s, acts).threads|
    requires Holding(Run(s, acts).threads[t]) && Holding(Run(s, acts).threads[u])
    ensures t == u && Run(s, acts).m.a.entries != []
  {
    RunKeepsInv(s, acts);
    hide Run, Inv;
    HoldersAgree(Run(s, acts), t, u);
  }

  lemma HoldersAgree(r: State, t: Tid, u: Tid)
    requires Inv(r) && t < |r.threads| && u < |r.threads| && Holding(r.threads[t]) && Holding(r.threads[u])
    ensures t == u && r.m.a.entries != [] && r.token == Some(t)
  {
    assert ThreadInv(r.m, r.requests, Granted(r), r.token, t, r.threads[t]);
    assert ThreadInv(r.m, r.requests, Granted(r), r.token, u, r.threads[u]);
  }

  lemma OnlyHolder(r: State, t: Tid)
    requires Inv(r) && t < |r.threads| && Holding(r.threads[t])
    ensures forall u :: 0 <= u < |r.threads| && Holding(r.threads[u]) ==> u == t
  {
    forall u | 0 <= u < |r.threads| && Holding(r.threads[u]) ensures u == t { HoldersAgree(r, t, u); }
  }

  /** First come, first served, exactly once: the grants are a prefix of the arrivals. */
  lemma GrantedInOrder(s: State, acts: seq<Action>)
    requires Initial(s)
    ensures var r := Run(s, acts);
            && r.log <= r.requests && |r.requests| == r.m.a.left + |r.m.a.entries|
            && r.m.a.left <= |r.log| <= r.m.a.left + 1
  {
    RunKeepsInv(s, acts);
  }

  /** Hand-off: the thread found in the unlocker's own node is the next in arrival order, and it
      is suspended there; resuming it makes it the holder. */
  lemma HandsOverToSuccessor(s: State, acts: seq<Action>, t: Tid)
    requires Initial(s) && t < |Run(s, acts).threads| && Run(s, acts).threads[t].Hand?
    ensures var r := Run(s, acts); var cur := r.threads[t].cur; var r' := ThreadStep(r, t, false);
            && cur in r.m.sth && |r.log| < |r.requests| && r.m.sth[cur] == r.requests[|r.log|]
            && r.m.sth[cur] < |r.threads| && r.threads[r.m.sth[cur]] == Suspended(|r.log|)
            && r'.threads[r.m.sth[cur]] == Critical && r'.log == r.requests[..|r.log| + 1]
  {
    RunKeepsInv(s, acts);
    hide Run, Inv;
    HandInState(Run(s, acts), t);
  }

  lemma HandInState(r: State, t: Tid)
    requires Inv(r) && t < |r.threads| && r.threads[t].Hand?
    ensures var cur := r.threads[t].cur; var r' := ThreadStep(r, t, false);
            && cur in r.m.sth && |r.log| < |r.requests| && r.m.sth[cur] == r.requests[|r.log|]
            && r.m.sth[cur] < |r.threads| && r.threads[r.m.sth[cur]] == Suspended(|r.log|)
            && r'.threads[r.m.sth[cur]] == Critical && r'.log == r.requests[..|r.log| + 1]
  {
    hide EntriesInv, CvInv, PlaceInv;
    assert ThreadInv(r.m, r.requests, Granted(r), r.token, t, r.threads[t]);
    hide ThreadsInv;
    assert r.requests[..|r.log| + 1] == r.log + [r.requests[|r.log|]];
  }

  /** Reclamation: the node a thread may still write (its predecessor's `sth` and `next`) is in the
      queue, so nobody owns it or can deallocate it; a node about to be freed holds nobody. */
  lemma WritableNodesAreLive(s: State, acts: seq<Action>, t: Tid, u: Tid)
    requires Initial(s) && t < |Run(s, acts).threads| && u < |Run(s, acts).threads|
    requires Run(s, acts).threads[t].Saving? || Run(s, acts).threads[t].Linking?
    requires Run(s, acts).threads[u].FreeNode? || Run(s, acts).threads[u].Parked? || Run(s, acts).threads[u].Fresh?
    ensures var r := Run(s, acts); var prev := r.threads[t].prev;
            && prev in r.m.place && r.m.place[prev].InQueue?
            && r.threads[u].cur in r.m.place && r.threads[u].cur != prev && r.threads[u].cur !in r.m.sth
  {
    RunKeepsInv(s, acts);
    var r := Run(s, acts);
    hide Run, EntriesInv, CvInv;
    assert ThreadInv(r.m, r.requests, Granted(r), r.token, t, r.threads[t]);
    assert ThreadInv(r.m, r.requests, Granted(r), r.token, u, r.threads[u]);
    var k := r.threads[t].ticket - r.m.a.left;
    assert r.m.place[r.m.a.entries[k - 1].node] == InQueue(r.m.a.left + (k - 1));
  }

  /** No lost wake-up: when a thread in its critical section looks at the condition variable, `waiting_` is
      the first of the entries, each is linked to the next, and each belongs to a parked thread, saved in
      its entry on a live stack frame. */
  lemma NotifierSeesSavedWaiters(s: State, acts: seq<Action>, t: Tid, i: nat)
    requires Initial(s) && t < |Run(s, acts).threads| && Run(s, acts).threads[t] == Critical
    requires i < |Run(s, acts).waiting|
    ensures var r := Run(s, acts);
            && r.head == Some(r.waiting[0])
            && r.waiting[i] < |r.threads| && r.threads[r.waiting[i]].Parked?
            && r.waiting[i] in r.frames && r.frames[r.waiting[i]] == Front(r.waiting[i + 1..])
  {
    RunKeepsInv(s, acts);
    var r := Run(s, acts);
    hide Run;
    TokenOf(r, t);
    OnlyHolder(r, t);
  }

  /** A notifier reads the link of an entry after it has made the entry's thread runnable. The entry is still
      there: that thread does not have the lock, without which it cannot leave the frame; and the link leads
      to the first entry not notified yet, or to none. */
  lemma LinkIsReadFromLiveFrame(s: State, acts: seq<Action>, t: Tid)
    requires Initial(s) && t < |Run(s, acts).threads| && Run(s, acts).threads[t].Notified?
    ensures var r := Run(s, acts); var we := r.threads[t].we;
            && we in r.frames && r.frames[we] == Front(r.waiting) && r.token == Some(t)
            && we != t && (we < |r.threads| ==> !Holding(r.threads[we]))
            && ThreadStep(r, t, false).head == Front(r.waiting)
  {
    RunKeepsInv(s, acts);
    var r := Run(s, acts);
    hide Run;
    TokenOf(r, t);
    OnlyHolder(r, t);
    assert ThreadInv(r.m, r.requests, Granted(r), r.token, t, r.threads[t]);
  }
}
