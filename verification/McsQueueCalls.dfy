/** Calls of the MCS list: every call ends after a bounded number of the caller's own steps, with one answer,
    and every node is accounted for. */
module McsQueueCalls {
  import opened Wrappers
  import opened LockQueue
  import opened McsQueue

  // ----- Every call has one answer

  /** Whether the action is a call of `start_lock` by thread t, which takes a node from the pool. */
  function LockCall(s: State, act: Action, t: Tid): nat
  {
    if act.Allocate? && act.t == t < |s.clients| && s.clients[t] == Out && act.n !in s.place then 1 else 0
  }

  function LockCalls(s: State, acts: seq<Action>, t: Tid): nat
  {
    if acts == [] then 0
    else LockCalls(s, acts[..|acts| - 1], t) + LockCall(Run(s, acts[..|acts| - 1]), acts[|acts| - 1], t)
  }

  /** A call that has not yet joined the queue. */
  function Entering(cl: Client): nat
  {
    if cl.ClearNext? || cl.Exchange? then 1 else 0
  }

  /** What the holder asks: it can only when it has the lock and no other call is in progress. */
  function Ask(s: State, act: Action): seq<LockQueue.Ask>
  {
    if s.holder != Ready then [] else if act.StartUnlock? then [AskUnlock] else if act.StartFollow? then [AskFollow] else []
  }

  function Asks(s: State, acts: seq<Action>): seq<LockQueue.Ask>
  {
    if acts == [] then [] else Asks(s, acts[..|acts| - 1]) + Ask(Run(s, acts[..|acts| - 1]), acts[|acts| - 1])
  }

  /** A question whose answer is not decided yet. */
  function Open(h: Holder): seq<LockQueue.Ask>
  {
    if h.UnlockCas? then [AskUnlock] else if h.Advance? then [AskFollow] else []
  }

  /** A step makes a call, or answers one in progress, or leaves them. */
  predicate Answers(s: State, act: Action, s': State, t: Tid)
    requires t < |s.clients| == |s'.clients|
  {
    && Asked(s'.hist) + Open(s'.holder) == Asked(s.hist) + Open(s.holder) + Ask(s, act)
    && Enqueues(s'.hist, t) + Entering(s'.clients[t]) == Enqueues(s.hist, t) + Entering(s.clients[t]) + LockCall(s, act, t)
  }

  lemma ClientAnswers(s: State, u: Tid, t: Tid)
    requires Inv(s) && t < |s.clients|
    ensures Answers(s, ClientMoves(u), Step(s, ClientMoves(u)), t)
  {
    hide Shape, Placed, Replay, Asked, Enqueues, Apply, HolderInv;
    var s' := Step(s, ClientMoves(u));
    if |s'.hist| > |s.hist| { OneMoreEvent(s.hist, s'.hist[|s.hist|], t); }
    TailIsLast(s);
    if u < |s.clients| { assert ClientInv(s.c.next, s.place, s.a, s.holder, u, s.clients[u]); }
  }

  lemma StepAnswers(s: State, act: Action, t: Tid)
    requires Inv(s) && t < |s.clients|
    ensures Answers(s, act, Step(s, act), t)
  {
    hide Shape, Placed, Replay, Asked, Enqueues, Apply, ClientInv;
    if act.ClientMoves? {
      ClientAnswers(s, act.t, t);
    } else {
      var s' := Step(s, act);
      if |s'.hist| > |s.hist| { OneMoreEvent(s.hist, s'.hist[|s.hist|], t); }
    }
  }

  lemma TailIsLast(s: State)
    requires Inv(s)
    ensures s.c.tail.None? ==> s.a.entries == [] && s.holder == Nobody
    ensures s.c.tail.Some? ==> s.a.entries != [] && s.c.tail.value == s.a.entries[|s.a.entries| - 1].node
  {
    hide Placed, Replay, ClientInv;
  }

  /** In every interleaving, each call of `start_lock` joins the queue once, and the holder's calls of
      `try_unlock` and `try_follow_head` are answered one by one, in order. */
  lemma {:induction false} EveryCallIsAnswered(s: State, acts: seq<Action>, t: Tid)
    requires Initial(s) && t < |s.clients|
    ensures var r := Run(s, acts);
            && LockCalls(s, acts, t) == Enqueues(r.hist, t) + Entering(r.clients[t])
            && Asks(s, acts) == Asked(r.hist) + Open(r.holder)
            && (r.clients[t] == Out ==> LockCalls(s, acts, t) == Enqueues(r.hist, t))
            && (r.holder == Ready || r.holder == Nobody ==> Asks(s, acts) == Asked(r.hist))
  {
    hide Inv, Step, LockCall, Ask, Asked, Enqueues;
    if acts == [] {
      NoEvents(t);
    } else {
      var before := acts[..|acts| - 1];
      EveryCallIsAnswered(s, before, t);
      RunKeepsInv(s, before);
      StepAnswers(Run(s, before), acts[|acts| - 1], t);
    }
  }

  // ----- Every call ends

  function Left(cl: Client): nat
  {
    match cl
    case Out => 0
    case ClearNext(_) => 3
    case Exchange(_) => 2
    case PutHead(_) => 1
    case SetNext(_, _, _) => 1
  }

  function Remaining(h: Holder): nat
  {
    match h
    case UnlockCas(_) => 2
    case UnlockFailed(_) => 1
    case Advance(_, _) => 1
    case _ => 0
  }

  function Moves(acts: seq<Action>, a: Action): nat
  {
    if acts == [] then 0 else Moves(acts[..|acts| - 1], a) + if acts[|acts| - 1] == a then 1 else 0
  }

  lemma ClientMovesOn(s: State, act: Action, t: Tid)
    requires t < |s.clients| && !(act.Allocate? && act.t == t)
    ensures var l, l' := Left(s.clients[t]), Left(Step(s, act).clients[t]);
            if act == ClientMoves(t) then l' == 0 || l' < l else l' == l
  {
    hide Apply;
  }

  lemma {:induction false} ClientProgresses(s: State, acts: seq<Action>, t: Tid)
    requires t < |s.clients| && forall k :: 0 <= k < |acts| ==> !(acts[k].Allocate? && acts[k].t == t)
    ensures var left := Left(Run(s, acts).clients[t]); left == 0 || left + Moves(acts, ClientMoves(t)) <= Left(s.clients[t])
  {
    hide Step, Left;
    if acts != [] {
      ClientProgresses(s, acts[..|acts| - 1], t);
      ClientMovesOn(Run(s, acts[..|acts| - 1]), acts[|acts| - 1], t);
    }
  }

  lemma {:induction false} HolderProgresses(s: State, acts: seq<Action>)
    requires forall k :: 0 <= k < |acts| ==> !acts[k].StartUnlock? && !acts[k].StartFollow?
    ensures var left := Remaining(Run(s, acts).holder); left == 0 || left + Moves(acts, HolderMoves) <= Remaining(s.holder)
  {
    hide Apply;
    if acts != [] { HolderProgresses(s, acts[..|acts| - 1]); }
  }

  /** The list is wait-free: whatever the others do, `start_lock` with its `set_next` is over after three steps
      of the caller, a call of the holder after two of its steps. */
  lemma WaitFree(s: State, acts: seq<Action>, t: Tid)
    ensures t < |s.clients| && (forall k :: 0 <= k < |acts| ==> !(acts[k].Allocate? && acts[k].t == t)) && Moves(acts, ClientMoves(t)) >= 3
            ==> Run(s, acts).clients[t] == Out
    ensures (forall k :: 0 <= k < |acts| ==> !acts[k].StartUnlock? && !acts[k].StartFollow?) && Moves(acts, HolderMoves) >= 2
            ==> Remaining(Run(s, acts).holder) == 0
  {
    hide Run, Moves;
    if t < |s.clients| && forall k :: 0 <= k < |acts| ==> !(acts[k].Allocate? && acts[k].t == t) { ClientProgresses(s, acts, t); }
    if forall k :: 0 <= k < |acts| ==> !acts[k].StartUnlock? && !acts[k].StartFollow? { HolderProgresses(s, acts); }
  }

  // ----- Links and nodes

  predicate WriterOf(clients: seq<Client>, a: Queue, k: nat)
    requires k < |a.entries|
  {
    a.entries[k].link.Pending? ==>
      var t := a.entries[k].link.t;
      0 < k && t < |clients| && clients[t] == SetNext(a.entries[k - 1].node, a.entries[k].node, a.left + k)
  }

  /** Whoever has not been linked yet is about to write the link. */
  predicate Writers(clients: seq<Client>, a: Queue)
  {
    forall k :: 0 <= k < |a.entries| ==> WriterOf(clients, a, k)
  }

  /** A node outside the pool belongs to a call that has not yet joined, or is in the queue, or left it. */
  predicate NodeOk(clients: seq<Client>, a: Queue, n: Node, p: Place, left: set<Node>)
  {
    match p
    case HeldBy(t) => t < |clients| && (clients[t] == ClearNext(n) || clients[t] == Exchange(n)) && n !in left
    case InQueue(ticket) => 0 <= ticket - a.left < |a.entries| && a.entries[ticket - a.left].node == n && n !in left
    case Retired => n in left
  }

  predicate NodesOk(s: State, left: set<Node>)
  {
    left <= s.place.Keys && forall n :: n in s.place ==> NodeOk(s.clients, s.a, n, s.place[n], left)
  }

  /** The nodes that have left the queue and not been deallocated since. */
  function LeftAfter(s: State, act: Action, left: set<Node>): set<Node>
  {
    if act.Deallocate? then left - {act.n}
    else if Step(s, act).a.left > s.a.left && s.a.entries != [] then left + {s.a.entries[0].node}
    else left
  }

  function LeftNodes(s: State, acts: seq<Action>): set<Node>
  {
    if acts == [] then {} else LeftAfter(Run(s, acts[..|acts| - 1]), acts[|acts| - 1], LeftNodes(s, acts[..|acts| - 1]))
  }

  /** The change that a step makes, from where its thread is. */
  function ChangeOf(s: State, act: Action): Change
  {
    match act
    case ClientMoves(t) =>
      if t >= |s.clients| then Same
      else if s.clients[t].Exchange? then Append(Entry(s.clients[t].cur, if s.c.tail.None? then Published else Pending(t)))
      else if s.clients[t].SetNext? && s.clients[t].ticket >= s.a.left then Publish(s.clients[t].ticket - s.a.left)
      else Same
    case HolderMoves => if s.holder.Advance? || (s.holder.UnlockCas? && s.c.tail == Some(s.holder.h)) then Drop else Same
    case _ => Same
  }

  lemma StepChanges(s: State, act: Action)
    requires Inv(s)
    ensures Step(s, act).a == Changed(s.a, ChangeOf(s, act))
    ensures ChangeOf(s, act).Drop? ==> |s.a.entries| == 1 || SuccessorPublished(s.a)
  {
    hide Replay, Shape, Placed, ClientInv, Contains;
    match act
    case ClientMoves(t) =>
      if t < |s.clients| {
        assert ClientInv(s.c.next, s.place, s.a, s.holder, t, s.clients[t]);
        if s.clients[t].Exchange? { ExchangeKeepsQueue(s, t); }
        if s.clients[t].SetNext? { SetNextKeepsQueue(s, t); }
      }
    case HolderMoves => HolderChanges(s);
    case _ =>
  }

  lemma HolderChanges(s: State)
    requires Inv(s)
    ensures HolderStep(s).a == Changed(s.a, ChangeOf(s, HolderMoves))
    ensures ChangeOf(s, HolderMoves).Drop? ==> |s.a.entries| == 1 || SuccessorPublished(s.a)
  {
    hide Replay, ClientInv;
    if s.holder.UnlockCas? && s.c.tail == Some(s.holder.h) {
      DistinctEntries(s, 0, |s.a.entries| - 1);
      assert s.a.entries[1..] == [];
    }
  }

  lemma WritersKept(s: State, act: Action)
    requires Inv(s) && Writers(s.clients, s.a)
    ensures Writers(Step(s, act).clients, Step(s, act).a)
  {
    hide Shape, Placed, Replay, Apply;
    StepChanges(s, act);
    var s', c := Step(s, act), ChangeOf(s, act);
    if act.ClientMoves? && act.t < |s.clients| {
      assert ClientInv(s.c.next, s.place, s.a, s.holder, act.t, s.clients[act.t]);
    }
    TailIsLast(s);
    forall k | 0 <= k < |s'.a.entries| ensures WriterOf(s'.clients, s'.a, k) {
      if c.Drop? {
        assert WriterOf(s.clients, s.a, k + 1) && s'.a.entries[k] == s.a.entries[k + 1];
      } else if k < |s.a.entries| {
        assert WriterOf(s.clients, s.a, k);
      }
    }
  }

  lemma ClientNodesKept(s: State, t: Tid, left: set<Node>)
    requires Inv(s) && NodesOk(s, left)
    ensures NodesOk(Step(s, ClientMoves(t)), LeftAfter(s, ClientMoves(t), left))
  {
    hide Shape, Replay, Apply, HolderInv, Placed;
    StepChanges(s, ClientMoves(t));
    var s' := Step(s, ClientMoves(t));
    if t < |s.clients| { assert ClientInv(s.c.next, s.place, s.a, s.holder, t, s.clients[t]); }
    hide ClientInv;
    forall n | n in s'.place ensures NodeOk(s'.clients, s'.a, n, s'.place[n], left) {
      assert n in s.place ==> NodeOk(s.clients, s.a, n, s.place[n], left);
    }
  }

  lemma OtherNodesKept(s: State, act: Action, left: set<Node>)
    requires Inv(s) && NodesOk(s, left) && !act.ClientMoves?
    ensures NodesOk(Step(s, act), LeftAfter(s, act, left))
  {
    hide Shape, Replay, Apply, ClientInv;
    StepChanges(s, act);
    var s', left' := Step(s, act), LeftAfter(s, act, left);
    if s.a.entries != [] { assert s.a.entries[0].node in s.place && s.place[s.a.entries[0].node] == InQueue(s.a.left + 0); }
    hide Placed;
    forall n | n in s'.place ensures NodeOk(s'.clients, s'.a, n, s'.place[n], left') {
      assert n in s.place ==> NodeOk(s.clients, s.a, n, s.place[n], left);
    }
  }

  lemma {:induction false} RunAccounts(s: State, acts: seq<Action>)
    requires Initial(s)
    ensures var r := Run(s, acts); Writers(r.clients, r.a) && NodesOk(r, LeftNodes(s, acts))
  {
    hide Inv, Step, Writers, NodesOk, LeftAfter;
    if acts == [] {
      FirstAccounts(s);
    } else {
      var before, a := acts[..|acts| - 1], acts[|acts| - 1];
      RunAccounts(s, before);
      RunKeepsInv(s, before);
      var r := Run(s, before);
      WritersKept(r, a);
      if a.ClientMoves? { ClientNodesKept(r, a.t, LeftNodes(s, before)); } else { OtherNodesKept(r, a, LeftNodes(s, before)); }
    }
  }

  lemma FirstAccounts(s: State)
    requires Initial(s)
    ensures Writers(s.clients, s.a) && NodesOk(s, {})
  {
  }

  /** In every interleaving, an entry without a published link has its writer: the thread that is about to
      store it, in the right place. */
  lemma EveryLinkHasItsWriter(s: State, acts: seq<Action>, k: nat)
    requires Initial(s) && k < |Run(s, acts).a.entries| && Run(s, acts).a.entries[k].link.Pending?
    ensures var r := Run(s, acts); var t := r.a.entries[k].link.t;
            && 0 < k && t < |r.clients|
            && r.clients[t] == SetNext(r.a.entries[k - 1].node, r.a.entries[k].node, r.a.left + k)
  {
    hide Run, LeftNodes, NodesOk;
    RunAccounts(s, acts);
    assert WriterOf(Run(s, acts).clients, Run(s, acts).a, k);
  }

  /** In every interleaving, a node outside the pool belongs to a call that is about to join the queue, or is
      an entry of the queue, or has left it and not been deallocated since; and those that have left it are
      outside the pool. */
  lemma NodesAccounted(s: State, acts: seq<Action>, n: Node)
    requires Initial(s)
    ensures var r, left := Run(s, acts), LeftNodes(s, acts);
            && (n in r.place ==> NodeOk(r.clients, r.a, n, r.place[n], left))
            && (n in left ==> n in r.place && r.place[n] == Retired)
  {
    hide Run, LeftNodes, Writers;
    RunAccounts(s, acts);
  }
}
