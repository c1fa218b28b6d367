/** Calls of the ring buffer: each has one answer; the holder's end after two steps; a locker retries only
    when the ring is full or another operation has moved the tail. */
module RingQueueCalls {
  import opened Wrappers
  import opened CircularIndex
  import opened LockQueue
  import opened RingQueue

  // ----- Every call has one answer

  function LockCall(s: State, act: Action, t: Tid): nat
  {
    if act == CallLock(t) && t < |s.clients| && s.clients[t] == Out then 1 else 0
  }

  function LockCalls(s: State, acts: seq<Action>, t: Tid): nat
    requires |s.c.ready| > 0
  {
    if acts == [] then 0
    else LockCalls(s, acts[..|acts| - 1], t) + LockCall(Run(s, acts[..|acts| - 1]), acts[|acts| - 1], t)
  }

  /** A call that has not yet joined the queue. */
  function Entering(cl: Client): nat
  {
    if cl.LoadHead? || cl.LoadTail? || cl.TailCas? then 1 else 0
  }

  function Ask(s: State, act: Action): seq<LockQueue.Ask>
  {
    if s.holder != Ready then [] else if act.TryUnlock? then [AskUnlock] else if act.TryFollow? then [AskFollow] else []
  }

  function Asks(s: State, acts: seq<Action>): seq<LockQueue.Ask>
    requires |s.c.ready| > 0
  {
    if acts == [] then [] else Asks(s, acts[..|acts| - 1]) + Ask(Run(s, acts[..|acts| - 1]), acts[|acts| - 1])
  }

  function Open(h: Holder): seq<LockQueue.Ask>
  {
    if h.ResetReady? || h.StoreHead? then [AskFollow] else []
  }

  predicate Answers(s: State, act: Action, s': State, t: Tid)
    requires t < |s.clients| == |s'.clients|
  {
    && Asked(s'.hist) + Open(s'.holder) == Asked(s.hist) + Open(s.holder) + Ask(s, act)
    && Enqueues(s'.hist, t) + Entering(s'.clients[t]) == Enqueues(s.hist, t) + Entering(s.clients[t]) + LockCall(s, act, t)
  }

  lemma ClientAnswers(s: State, u: Tid, spurious: bool, t: Tid)
    requires Inv(s) && t < |s.clients|
    ensures Answers(s, ClientMoves(u, spurious), Step(s, ClientMoves(u, spurious)), t)
  {
    hide At, RealIndex, Replay, Flags, Counters, ClientsInv, Asked, Enqueues, Apply, ClientStep;
    if u < |s.clients| {
      ClientOf(s, u);
      var s' := ClientStep(s, u, spurious);
      if s.clients[u].TailCas? && !spurious && s.c.tail == s.clients[u].t {
        EnqueueEffect(s, u);
        OneMoreEvent(s.hist, s'.hist[|s.hist|], t);
      } else if s.clients[u].SetReady? {
        SetReadyRecords(s, u, spurious);
        OneMoreEvent(s.hist, s'.hist[|s.hist|], t);
      } else {
        RetryRecords(s, u, spurious);
      }
    }
  }

  lemma SetReadyRecords(s: State, t: Tid, spurious: bool)
    requires Inv(s) && t < |s.clients| && s.clients[t].SetReady?
    ensures var s' := ClientStep(s, t, spurious);
            s'.hist == s.hist + [Linked(s.clients[t].ticket)] && s'.clients == s.clients[t := Out] && s'.holder == s.holder
  {
    hide RealIndex, Replay, Flags, ClientsInv, Apply;
    ClientOf(s, t);
    var k := s.clients[t].ticket - s.a.left;
    assert s.clients[t].prev == At(|s.c.ready|, s.c.head / 2, k - 1);
    hide At;
  }

  lemma RetryRecords(s: State, t: Tid, spurious: bool)
    requires t < |s.clients| && |s.c.ready| > 0 && !s.clients[t].SetReady?
    requires s.clients[t].TailCas? ==> spurious || s.c.tail != s.clients[t].t
    ensures var s' := ClientStep(s, t, spurious);
            && s'.hist == s.hist && s'.holder == s.holder && s'.a == s.a
            && s'.clients == s.clients[t := s'.clients[t]] && Entering(s'.clients[t]) == Entering(s.clients[t])
            && !s'.clients[t].SetReady?
  {
    hide RealIndex, Apply;
  }

  lemma StepAnswers(s: State, act: Action, t: Tid)
    requires Inv(s) && t < |s.clients| && |s.c.ready| > 0
    ensures Answers(s, act, Step(s, act), t)
  {
    hide At, RealIndex, Replay, Flags, Counters, ClientsInv, Asked, Enqueues, Apply;
    if act.ClientMoves? {
      ClientAnswers(s, act.t, act.spurious, t);
    } else {
      var s' := Step(s, act);
      if |s'.hist| > |s.hist| { OneMoreEvent(s.hist, s'.hist[|s.hist|], t); }
    }
  }

  /** In every interleaving, each call of `start_lock` joins the queue once, and the holder's calls of
      `try_unlock` and `try_follow_head` are answered one by one, in order. */
  lemma {:induction false} EveryCallIsAnswered(s: State, acts: seq<Action>, t: Tid)
    requires Initial(s) && t < |s.clients|
    ensures var r := Run(s, acts);
            && LockCalls(s, acts, t) == Enqueues(r.hist, t) + Entering(r.clients[t])
            && Asks(s, acts) == Asked(r.hist) + Open(r.holder)
            && (r.clients[t] == Out ==> LockCalls(s, acts, t) == Enqueues(r.hist, t))
            && (r.holder == Ready || r.holder == Nobody ==> Asks(s, acts) == Asked(r.hist))
  {
    hide Inv, Step, LockCall, Ask, Asked, Enqueues;
    if acts == [] {
      NoEvents(t);
    } else {
      var before := acts[..|acts| - 1];
      EveryCallIsAnswered(s, before, t);
      RunKeepsInv(s, before);
      StepAnswers(Run(s, before), acts[|acts| - 1], t);
    }
  }

  // ----- Every call of the holder ends

  function Remaining(h: Holder): nat
  {
    if h.ResetReady? then 2 else if h.StoreHead? then 1 else 0
  }

  function Moves(acts: seq<Action>, a: Action): nat
  {
    if acts == [] then 0 else Moves(acts[..|acts| - 1], a) + if acts[|acts| - 1] == a then 1 else 0
  }

  lemma HolderMovesOn(s: State, act: Action)
    requires |s.c.ready| > 0 && !act.TryUnlock? && !act.TryFollow?
    ensures var l, l' := Remaining(s.holder), Remaining(Step(s, act).holder);
            if act.HolderMoves? then l' == 0 || l' < l else l' == 0 || l' == l
  {
    hide Apply, RealIndex;
  }

  lemma {:induction false} HolderProgresses(s: State, acts: seq<Action>)
    requires |s.c.ready| > 0 && forall k :: 0 <= k < |acts| ==> !acts[k].TryUnlock? && !acts[k].TryFollow?
    ensures var left := Remaining(Run(s, acts).holder); left == 0 || left + Moves(acts, HolderMoves) <= Remaining(s.holder)
  {
    hide Step, Remaining;
    if acts != [] {
      HolderProgresses(s, acts[..|acts| - 1]);
      HolderMovesOn(Run(s, acts[..|acts| - 1]), acts[|acts| - 1]);
    }
  }

  // ----- Lockers

  /** A locker goes round its loop again only if the ring is full when seen with the head that it read, or
      its compare-and-swap failed spuriously or because the tail had moved. With an up-to-date head, full
      means that every slot is taken. */
  lemma RetriesForAReason(s: State, acts: seq<Action>, t: Tid, spurious: bool)
    requires Initial(s) && t < |s.clients| && Entering(Run(s, acts).clients[t]) == 1
    ensures var r := Run(s, acts); var r' := Step(r, ClientMoves(t, spurious)); var cl, cl' := r.clients[t], r'.clients[t];
            match cl
            case LoadHead => cl' == LoadTail(r.c.head)
            case LoadTail(h) =>
              if cl' == LoadHead then h < r.c.head || |r.a.entries| == |s.c.ready| else cl' == TailCas(h, r.c.tail)
            case TailCas(_, tail) =>
              if cl' == LoadHead then spurious || tail != r.c.tail
              else |r'.a.entries| == |r.a.entries| + 1 && (cl' == Out || cl'.SetReady?)
            case _ => false
  {
    hide Run, At, RealIndex, Replay, Flags, HolderInv;
    RunKeepsInv(s, acts);
    var r := Run(s, acts);
    ClientOf(r, t);
    if r.clients[t].TailCas? && !spurious && r.c.tail == r.clients[t].t { EnqueueEffect(r, t); }
    hide Apply;
  }

  // ----- Links

  predicate WriterOf(clients: seq<Client>, a: Queue, k: nat)
    requires k < |a.entries|
  {
    a.entries[k].link.Pending? ==>
      var t := a.entries[k].link.t;
      0 < k && t < |clients| && clients[t] == SetReady(a.entries[k - 1].node, a.entries[k].node, a.left + k)
  }

  /** Whoever has not been published yet is about to set the flag. */
  predicate Writers(clients: seq<Client>, a: Queue)
  {
    forall k :: 0 <= k < |a.entries| ==> WriterOf(clients, a, k)
  }

  lemma ClientWriters(s: State, t: Tid, spurious: bool)
    requires Inv(s) && Writers(s.clients, s.a) && t < |s.clients|
    ensures Writers(ClientStep(s, t, spurious).clients, ClientStep(s, t, spurious).a)
  {
    hide At, RealIndex, Replay, Flags, Counters, ClientsInv, Apply, ClientStep;
    ClientOf(s, t);
    var s' := ClientStep(s, t, spurious);
    if s.clients[t].TailCas? && !spurious && s.c.tail == s.clients[t].t {
      EnqueueEffect(s, t);
    } else if s.clients[t].SetReady? {
      SetReadyEffect(s, t);
      SameWhenSpurious(s, t, spurious);
    } else {
      RetryRecords(s, t, spurious);
    }
    forall k | 0 <= k < |s'.a.entries| ensures WriterOf(s'.clients, s'.a, k) {
      assert k < |s.a.entries| ==> WriterOf(s.clients, s.a, k);
    }
  }

  lemma SameWhenSpurious(s: State, t: Tid, spurious: bool)
    requires t < |s.clients| && |s.c.ready| > 0 && s.clients[t].SetReady?
    ensures ClientStep(s, t, spurious) == ClientStep(s, t, false)
  {
  }

  lemma DropWriters(clients: seq<Client>, a: Queue)
    requires Writers(clients, a) && (|a.entries| == 1 || SuccessorPublished(a))
    ensures Writers(clients, Changed(a, Drop))
  {
    var a' := Changed(a, Drop);
    forall k | 0 <= k < |a'.entries| ensures WriterOf(clients, a', k) {
      assert WriterOf(clients, a, k + 1);
    }
  }

  /** What the holder's steps do to the queue. */
  lemma HolderDrops(s: State, act: Action)
    requires Inv(s) && |s.c.ready| > 0 && !act.ClientMoves? && !act.CallLock?
    ensures var s' := Step(s, act);
            && s'.clients == s.clients
            && (s'.a == s.a || (s'.a == Changed(s.a, Drop) && (|s.a.entries| == 1 || SuccessorPublished(s.a))))
  {
    hide At, RealIndex, Replay, Flags, ClientsInv;
    if act.HolderMoves? && s.holder == StoreHead { StoreHeadEffect(s); }
    if act.TryUnlock? && s.holder == Ready && s.c.tail == s.c.head + 1 { assert s.a.entries[1..] == []; }
  }

  lemma WritersKept(s: State, act: Action)
    requires Inv(s) && Writers(s.clients, s.a) && |s.c.ready| > 0
    ensures Writers(Step(s, act).clients, Step(s, act).a)
  {
    hide Inv, Changed, HolderStep, ClientStep, Observe, SuccessorPublished;
    if act.ClientMoves? {
      if act.t < |s.clients| { ClientWriters(s, act.t, act.spurious); }
    } else if act.CallLock? {
      forall k | 0 <= k < |s.a.entries| ensures WriterOf(Step(s, act).clients, s.a, k) { assert WriterOf(s.clients, s.a, k); }
    } else {
      HolderDrops(s, act);
      if Step(s, act).a != s.a { DropWriters(s.clients, s.a); }
    }
  }

  /** In every interleaving, an entry that is not published has its writer: the thread that is about to set
      the flag, in the right slot. */
  lemma {:induction false} EveryLinkHasItsWriter(s: State, acts: seq<Action>)
    requires Initial(s)
    ensures Writers(Run(s, acts).clients, Run(s, acts).a)
  {
    hide Inv, Step, Writers;
    if acts == [] {
      FirstWriters(s);
    } else {
      EveryLinkHasItsWriter(s, acts[..|acts| - 1]);
      RunKeepsInv(s, acts[..|acts| - 1]);
      WritersKept(Run(s, acts[..|acts| - 1]), acts[|acts| - 1]);
    }
  }

  lemma FirstWriters(s: State)
    requires Initial(s)
    ensures Writers(s.clients, s.a)
  {
  }
}
