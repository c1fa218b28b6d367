/** The lock delegator: a critical section is either run by the client that holds the lock
    or handed to one consumer thread through the lock queue. Each step is one queue
    operation (atomic, as the queue implementations refine the abstract queue) or one access
    to state that only the holder of the lock token touches. */
module Delegator {
  import opened Wrappers
  import opened LockQueue

  /** What an entry of the queue asks for. */
  datatype Request = LockReq(t: Tid) | FuncReq(f: nat)

  /** Where a client is in `lock_or_delegate`, `unlock` or `unlock_and_wait`. */
  datatype Client =
    | Out
    | Parked                                              // waiting in its own suspended_thread
    | Writing(cur: Node, ticket: nat, req: Request)       // about to fill the node
    | Publishing(cur: Node, ticket: nat, req: Request)    // about to call set_next
    | Suspended(ticket: nat)                              // saved in its node's sth
    | Critical
    | UnlockStart(wait: bool)
    | UnlockTry(wait: bool)
    | UnlockFollow(wait: bool)
    | UnlockHand(wait: bool)
    | UnlockWake(wait: bool)

  /** Where the consumer is in `consume`. `ex` is its local copy of the executed flag and
      `awake` is the thread, if any, whose continuation it holds and has to make runnable. */
  datatype Consumer =
    | Start
    | Follow(ex: bool)
    | Serve(ex: bool)
    | Progress(ex: bool, awake: Option<Tid>, go: bool)   // go: progress() is to be called
    | Check(awake: Option<Tid>)
    | TryUnlock(awake: Option<Tid>)
    | Notify(awake: Option<Tid>)
    | Asleep

  datatype Token = Free | Client(t: Tid) | ConsumerHas

  /** One call of the consumer's `execute`, with the function it was given and what it returned. */
  datatype Try = Try(ticket: nat, f: nat, executed: bool, awake: Option<Tid>)

  /** The queue, the nodes' `sth` and `func`, `is_executed_` and whether `con_sth_` is saved;
      `place` names each queued node's ticket. */
  datatype Shared = Shared(
    a: Queue, place: map<Node, nat>, sth: map<Node, Tid>, func: map<Node, nat>,
    isExecuted: bool, conSaved: bool)

  /** The history: every request in enqueue order, the services begun or completed in order, all
      calls of `execute`, and the threads that the consumer was given to wake, woke and dropped. */
  datatype State = State(
    m: Shared, clients: seq<Client>, con: Consumer, token: Token,
    requests: seq<Request>, log: seq<Request>, tries: seq<Try>,
    given: multiset<Tid>, woken: multiset<Tid>, dropped: multiset<Tid>)

  datatype Action =
    | Call(t: Tid, n: Node, req: Request)
    | ClientMoves(t: Tid, wait: bool, active: bool)
    | Resume(t: Tid)
    | ConsumerMoves(active: bool, executed: bool, awake: Option<Tid>)

  /** Right after `start_consumer`: the starter's lock entry is the head, and the lock it took
      has become the consumer's. */
  predicate Initial(s: State, n: Node, starter: Tid)
  {
    && s.m == Shared(Queue([Entry(n, Published)], 0), map[n := 0], map[], map[], true, false)
    && (forall t :: 0 <= t < |s.clients| ==> s.clients[t] == Out)
    && s.con == Start && s.token == ConsumerHas
    && s.requests == s.log == [LockReq(starter)] && s.tries == []
    && s.given == s.woken == s.dropped == multiset{}
  }

  function QueueDoes(m: Shared, e: Event): Shared
  {
    m.(a := Apply(m.a, e).GetOr(m.a))
  }

  /** Removing the head, either because the holder is alone or because its successor takes over. */
  function Leave(m: Shared): Shared
    requires m.a.entries != []
  {
    var n := m.a.entries[0].node;
    var e := if |m.a.entries| == 1 then Unlocked(n) else Followed(n, m.a.entries[1].node);
    QueueDoes(m.(place := m.place - {n}), e)
  }

  function CallStep(s: State, t: Tid, n: Node, req: Request): State
    requires t < |s.clients|
  {
    var locked := s.m.a.entries == [];
    var ticket := s.m.a.left + |s.m.a.entries|;
    var m' := QueueDoes(s.m.(place := s.m.place[n := ticket]), Enqueued(n, t, locked));
    if locked
    then s.(m := m', clients := s.clients[t := Critical], token := Client(t),
            requests := s.requests + [req], log := s.log + [req])
    else s.(m := m', clients := s.clients[t := Writing(n, ticket, req)], requests := s.requests + [req])
  }

  /** The client that leaves the lock either goes on or stays suspended where it chose to wait. */
  function After(wait: bool): Client
  {
    if wait then Parked else Out
  }

  function ClientStep(s: State, t: Tid, wait: bool, active: bool): State
    requires t < |s.clients|
  {
    var m := s.m;
    match s.clients[t]
    case Writing(n, ticket, req) =>
      s.(clients := s.clients[t := Publishing(n, ticket, req)],
         m := if req.LockReq? then m.(sth := m.sth[n := t]) else m.(func := m.func[n := req.f]))
    case Publishing(n, ticket, req) =>
      s.(m := QueueDoes(m, Linked(ticket)),
         clients := s.clients[t := if req.LockReq? then Suspended(ticket) else Out])
    case Critical =>
      s.(m := m.(isExecuted := true), clients := s.clients[t := UnlockStart(wait)])
    case UnlockStart(w) =>
      // is_active() skips the attempt to unlock; waiting tests is_unlockable first.
      if active || (w && |m.a.entries| != 1)
      then s.(clients := s.clients[t := UnlockFollow(w)])
      else s.(clients := s.clients[t := UnlockTry(w)])
    case UnlockTry(w) =>
      if |m.a.entries| == 1
      then s.(m := Leave(m), clients := s.clients[t := After(w)], token := Free)
      else s.(clients := s.clients[t := UnlockFollow(w)])
    case UnlockFollow(w) =>
      if SuccessorPublished(m.a)
      then s.(m := Leave(m).(isExecuted := false), clients := s.clients[t := UnlockHand(w)])
      else s.(clients := s.clients[t := UnlockWake(w)])
    case UnlockHand(w) =>
      if m.a.entries != [] && m.a.entries[0].node in m.sth
      then Grant(s.(clients := s.clients[t := After(w)]))
      else s.(clients := s.clients[t := UnlockWake(w)])
    case UnlockWake(w) =>
      if m.conSaved
      then s.(m := m.(conSaved := false), clients := s.clients[t := After(w)], token := ConsumerHas, con := Start)
      else s
    case _ => s
  }

  /** Resumes the thread saved in the head's node; it now holds the lock. */
  function Grant(s: State): State
    requires s.m.a.entries != [] && s.m.a.entries[0].node in s.m.sth
  {
    var n := s.m.a.entries[0].node;
    var t := s.m.sth[n];
    if t < |s.clients|
    then s.(m := s.m.(sth := s.m.sth - {n}), clients := s.clients[t := Critical],
            token := Client(t), log := s.log + [LockReq(t)])
    else s
  }

  function One(x: Option<Tid>): multiset<Tid>
  {
    if x.Some? then multiset{x.value} else multiset{}
  }

  function ConsumerStep(s: State, active: bool, executed: bool, awake: Option<Tid>): State
  {
    var m := s.m;
    match s.con
    case Start => s.(con := Follow(m.isExecuted))
    case Follow(ex) =>
      if ex && SuccessorPublished(m.a) then s.(m := Leave(m), con := Serve(false)) else s.(con := Serve(ex))
    case Serve(ex) =>
      if m.a.entries == [] then s
      else if ex then s.(con := Progress(true, None, active))
      else ServeHead(s, executed, awake)
    case Progress(ex, held, go) =>
      // progress() may return a continuation; one already held is then woken first.
      var got := if go then awake else None;
      var s1 := s.(m := m.(isExecuted := ex), given := s.given + One(got),
                   woken := s.woken + if got.Some? then One(held) else multiset{});
      var held' := if got.Some? then got else held;
      if !active && ex then s1.(con := Check(held')) else s1.(con := Notify(held'))
    case Check(held) =>
      if |m.a.entries| == 1 then s.(m := m.(conSaved := true), con := TryUnlock(held)) else s.(con := Notify(held))
    case TryUnlock(held) =>
      if |m.a.entries| == 1
      then s.(m := Leave(m), con := Asleep, token := Free, woken := s.woken + One(held))
      else s.(m := m.(conSaved := false), con := Notify(held))
    case Notify(held) => s.(con := Start, woken := s.woken + One(held))
    case Asleep => s
  }

  /** The function in the head's node. */
  function Function(m: Shared): nat
    requires m.a.entries != []
  {
    var n := m.a.entries[0].node;
    if n in m.func then m.func[n] else 0
  }

  /** The head has not been executed: hand the lock over, or run the delegated function. */
  function ServeHead(s: State, executed: bool, awake: Option<Tid>): State
    requires s.m.a.entries != []
  {
    var m, n := s.m, s.m.a.entries[0].node;
    if n in m.sth then Grant(s.(m := m.(conSaved := true), con := Asleep))
    else
      var f := Function(m);
      var s1 := s.(tries := s.tries + [Try(m.a.left, f, executed, awake)], given := s.given + One(awake));
      if executed
      then s1.(m := m.(isExecuted := true), con := Start,
               log := s.log + [FuncReq(f)],
               dropped := s.dropped + One(awake))
      else s1.(con := Progress(false, awake, true))
  }

  function Step(s: State, act: Action): State
  {
    match act
    case Call(t, n, req) =>
      if t < |s.clients| && s.clients[t] == Out && n !in s.m.place && (req.LockReq? ==> req.t == t)
      then CallStep(s, t, n, req) else s
    case ClientMoves(t, wait, active) => if t < |s.clients| then ClientStep(s, t, wait, active) else s
    case Resume(t) =>
      if t < |s.clients| && s.clients[t] == Parked then s.(clients := s.clients[t := Out]) else s
    case ConsumerMoves(active, executed, awake) => ConsumerStep(s, active, executed, awake)
  }

  function Run(s: State, acts: seq<Action>): State
  {
    if acts == [] then s else Step(Run(s, acts[..|acts| - 1]), acts[|acts| - 1])
  }

  // ----- The inductive invariant, one predicate for each part of the state

  /** The node holds what was requested: a lock request its thread, a function its argument. */
  predicate Content(m: Shared, n: Node, req: Request)
  {
    match req
    case LockReq(t) => n in m.sth && m.sth[n] == t
    case FuncReq(f) => n !in m.sth && n in m.func && m.func[n] == f
  }

  /** Entry k: already served (only the head can be), still being written, or ready to be served. */
  predicate EntryInv(m: Shared, clients: seq<Client>, requests: seq<Request>, served: bool, k: nat)
    requires k < |m.a.entries| && m.a.left + k < |requests|
  {
    var e, ticket := m.a.entries[k], m.a.left + k;
    if served && k == 0 then e.node !in m.sth && e.link == Published
    else match e.link
         case Pending(t) =>
           && k > 0 && t < |clients|
           && (|| (clients[t] == Writing(e.node, ticket, requests[ticket]) && e.node !in m.sth)
               || (clients[t] == Publishing(e.node, ticket, requests[ticket]) && Content(m, e.node, requests[ticket])))
         case Published =>
           && Content(m, e.node, requests[ticket])
           && (requests[ticket].LockReq? ==>
                 requests[ticket].t < |clients| && clients[requests[ticket].t] == Suspended(ticket))
  }

  predicate EntriesInv(m: Shared, clients: seq<Client>, requests: seq<Request>, served: bool)
  {
    && |requests| == m.a.left + |m.a.entries|
    && forall k :: 0 <= k < |m.a.entries| ==> EntryInv(m, clients, requests, served, k)
  }

  /** Nodes in the queue are distinct, and only they can hold a suspended thread. */
  predicate PlaceInv(m: Shared)
  {
    && (forall k :: 0 <= k < |m.a.entries| ==>
          m.a.entries[k].node in m.place && m.place[m.a.entries[k].node] == m.a.left + k)
    && forall n :: n in m.sth ==> n in m.place
  }

  predicate InCritical(cl: Client)
  {
    cl.Critical? || cl.UnlockStart? || cl.UnlockTry? || cl.UnlockFollow? || cl.UnlockHand? || cl.UnlockWake?
  }

  predicate ClientInv(a: Queue, requests: seq<Request>, served: bool, token: Token, t: Tid, cl: Client)
  {
    && (InCritical(cl) <==> token == Client(t))
    && match cl
       case Writing(n, ticket, req) => PendingEntry(a, requests, t, n, ticket, req)
       case Publishing(n, ticket, req) => PendingEntry(a, requests, t, n, ticket, req)
       case Suspended(ticket) =>
         && 0 <= ticket - a.left < |a.entries| && ticket < |requests| && requests[ticket] == LockReq(t)
         && a.entries[ticket - a.left].link == Published && !(served && ticket == a.left)
       case _ => true
  }

  predicate PendingEntry(a: Queue, requests: seq<Request>, t: Tid, n: Node, ticket: nat, req: Request)
  {
    && 0 < ticket - a.left < |a.entries| && ticket < |requests|
    && a.entries[ticket - a.left] == Entry(n, Pending(t)) && requests[ticket] == req
    && (req.LockReq? ==> req.t == t)
  }

  predicate ClientsInv(a: Queue, clients: seq<Client>, requests: seq<Request>, served: bool, token: Token)
  {
    forall t :: 0 <= t < |clients| ==> ClientInv(a, requests, served, token, t, clients[t])
  }

  /** Who holds the token, whether the head has been served, and what `is_executed_` says. */
  predicate TokenInv(m: Shared, clients: seq<Client>, con: Consumer, token: Token, served: bool)
  {
    && (con == Asleep <==> token != ConsumerHas)
    && (m.conSaved <==> con == Asleep || con.TryUnlock?)
    && match token
       case Free => m.a.entries == [] && !served
       case Client(t) =>
         && m.a.entries != [] && t < |clients|
         && (match clients[t]
             case Critical => served
             case UnlockHand(_) => !served && !m.isExecuted
             case UnlockWake(_) => m.isExecuted == served
             case _ => served && m.isExecuted)
       case ConsumerHas =>
         && m.a.entries != []
         && (match con
             case Start => m.isExecuted == served
             case Follow(ex) => ex == served
             case Serve(ex) => ex == served
             case Progress(ex, _, _) => ex == served
             case Notify(_) => m.isExecuted == served
             case _ => served && m.isExecuted)
  }

  /** Calls of `execute` go through the tickets in order and stop at the first that succeeds. */
  predicate TriesInv(tries: seq<Try>, done: nat)
  {
    && (forall i :: 0 <= i < |tries| ==>
          tries[i].ticket <= done && (tries[i].executed ==> tries[i].ticket < done))
    && forall i, j :: 0 <= i < j < |tries| ==>
         tries[i].ticket <= tries[j].ticket && (tries[i].executed ==> tries[i].ticket < tries[j].ticket)
  }

  /** The thread that the consumer has still to wake. */
  function Held(con: Consumer): multiset<Tid>
  {
    match con
    case Progress(_, awake, _) => One(awake)
    case Check(awake) => One(awake)
    case TryUnlock(awake) => One(awake)
    case Notify(awake) => One(awake)
    case _ => multiset{}
  }

  predicate Served(s: State)
  {
    |s.log| == s.m.a.left + 1
  }

  predicate LogInv(left: nat, requests: seq<Request>, log: seq<Request>)
  {
    log <= requests && left <= |log| <= left + 1
  }

  predicate Inv(s: State)
  {
    && EntriesInv(s.m, s.clients, s.requests, Served(s))
    && PlaceInv(s.m)
    && ClientsInv(s.m.a, s.clients, s.requests, Served(s), s.token)
    && TokenInv(s.m, s.clients, s.con, s.token, Served(s))
    && LogInv(s.m.a.left, s.requests, s.log)
    && TriesInv(s.tries, |s.log|)
  }

  /** Every thread given to the consumer was woken, is held, or was dropped, counted by thread. */
  predicate WakeInv(s: State)
  {
    s.given == s.woken + s.dropped + Held(s.con) && s.dropped == Dropped(s.tries)
  }

  /** The threads that `execute` returned to wake together with "executed". */
  function Dropped(tries: seq<Try>): multiset<Tid>
  {
    if tries == [] then multiset{}
    else
      var last := tries[|tries| - 1];
      Dropped(tries[..|tries| - 1]) + if last.executed then One(last.awake) else multiset{}
  }

  // ----- Each part of the invariant under each kind of change

  predicate Waiting(cl: Client)
  {
    cl.Writing? || cl.Publishing? || cl.Suspended?
  }

  /** A client that no entry refers to may change freely. */
  lemma FreeClientKeepsEntries(m: Shared, clients: seq<Client>, requests: seq<Request>, served: bool,
                               t: Tid, cl: Client)
    requires EntriesInv(m, clients, requests, served) && t < |clients| && !Waiting(clients[t])
    ensures EntriesInv(m, clients[t := cl], requests, served)
  {
    var clients' := clients[t := cl];
    forall k | 0 <= k < |m.a.entries| ensures EntryInv(m, clients', requests, served, k) {
      assert EntryInv(m, clients, requests, served, k);
    }
  }

  /** One client moves, and the token with it at most. */
  lemma ClientKeepsClients(a: Queue, clients: seq<Client>, requests: seq<Request>, served: bool,
                           token: Token, t: Tid, cl: Client, token': Token)
    requires ClientsInv(a, clients, requests, served, token) && t < |clients|
    requires ClientInv(a, requests, served, token', t, cl)
    requires forall u: Tid :: u != t ==> (token == Client(u) <==> token' == Client(u))
    ensures ClientsInv(a, clients[t := cl], requests, served, token')
  {
    forall u | 0 <= u < |clients| && u != t ensures ClientInv(a, requests, served, token', u, clients[u]) {
      assert ClientInv(a, requests, served, token, u, clients[u]);
    }
  }

  /** The shared state depends on entries only through the nodes in the queue. */
  lemma AppendKeepsEntries(m: Shared, clients: seq<Client>, requests: seq<Request>, served: bool,
                           m': Shared, e: Entry, req: Request)
    requires EntriesInv(m, clients, requests, served)
    requires m'.a == Queue(m.a.entries + [e], m.a.left) && m'.sth == m.sth && m'.func == m.func
    requires var k := |m.a.entries|;
             m'.a.left + k < |requests + [req]| && EntryInv(m', clients, requests + [req], served, k)
    ensures EntriesInv(m', clients, requests + [req], served)
  {
    forall k | 0 <= k < |m.a.entries| ensures EntryInv(m', clients, requests + [req], served, k) {
      assert EntryInv(m, clients, requests, served, k);
    }
  }

  lemma AppendKeepsClients(a: Queue, clients: seq<Client>, requests: seq<Request>, served: bool,
                           token: Token, e: Entry, req: Request)
    requires ClientsInv(a, clients, requests, served, token)
    ensures ClientsInv(Queue(a.entries + [e], a.left), clients, requests + [req], served, token)
  {
    forall t | 0 <= t < |clients|
      ensures ClientInv(Queue(a.entries + [e], a.left), requests + [req], served, token, t, clients[t])
    {
      assert ClientInv(a, requests, served, token, t, clients[t]);
    }
  }

  /** What leaving the queue does, and that the queue accepts it. */
  lemma LeaveEffect(m: Shared)
    requires |m.a.entries| == 1 || SuccessorPublished(m.a)
    ensures Leave(m) == m.(a := Queue(m.a.entries[1..], m.a.left + 1), place := m.place - {m.a.entries[0].node})
  {
  }

  /** Once the head has been served it may leave; then nothing is served yet. */
  lemma LeaveKeepsEntries(m: Shared, clients: seq<Client>, requests: seq<Request>)
    requires EntriesInv(m, clients, requests, true)
    requires |m.a.entries| == 1 || SuccessorPublished(m.a)
    ensures EntriesInv(Leave(m), clients, requests, false)
  {
    LeaveEffect(m);
    hide Leave;
    forall k | 0 <= k < |m.a.entries| - 1 ensures EntryInv(Leave(m), clients, requests, false, k) {
      assert EntryInv(m, clients, requests, true, k + 1);
    }
  }

  lemma LeaveKeepsPlace(m: Shared, clients: seq<Client>, requests: seq<Request>)
    requires PlaceInv(m) && EntriesInv(m, clients, requests, true)
    requires |m.a.entries| == 1 || SuccessorPublished(m.a)
    ensures PlaceInv(Leave(m))
  {
    LeaveEffect(m);
    assert EntryInv(m, clients, requests, true, 0);
    hide Leave;
    forall k | 0 <= k < |m.a.entries| - 1
      ensures var n := Leave(m).a.entries[k].node; n in Leave(m).place && Leave(m).place[n] == m.a.left + 1 + k
    {
      assert m.a.entries[k + 1].node in m.place && m.place[m.a.entries[k + 1].node] == m.a.left + (k + 1);
      assert m.place[m.a.entries[0].node] == m.a.left + 0;
    }
  }

  lemma LeaveKeepsClients(a: Queue, clients: seq<Client>, requests: seq<Request>, token: Token)
    requires ClientsInv(a, clients, requests, true, token)
    requires |a.entries| == 1 || SuccessorPublished(a)
    ensures ClientsInv(Queue(a.entries[1..], a.left + 1), clients, requests, false, token)
  {
    forall t | 0 <= t < |clients|
      ensures ClientInv(Queue(a.entries[1..], a.left + 1), requests, false, token, t, clients[t])
    {
      assert ClientInv(a, requests, true, token, t, clients[t]);
    }
  }

  /** Serving the head: its node gives up the suspended thread, if it held one. */
  lemma ServeKeepsEntries(m: Shared, clients: seq<Client>, requests: seq<Request>, m': Shared)
    requires EntriesInv(m, clients, requests, false) && PlaceInv(m) && m.a.entries != []
    requires m' == m.(sth := m.sth - {m.a.entries[0].node}, conSaved := m'.conSaved, isExecuted := m'.isExecuted)
    ensures EntriesInv(m', clients, requests, true) && PlaceInv(m')
  {
    assert EntryInv(m, clients, requests, false, 0);
    forall k | 0 <= k < |m.a.entries| ensures EntryInv(m', clients, requests, true, k) {
      assert EntryInv(m, clients, requests, false, k);
      assert m.place[m.a.entries[k].node] == m.a.left + k && m.place[m.a.entries[0].node] == m.a.left + 0;
    }
  }

  /** After serving a lock request its thread is no longer suspended in the queue. */
  lemma ServeKeepsClients(a: Queue, clients: seq<Client>, requests: seq<Request>, token: Token, t: Tid)
    requires ClientsInv(a, clients, requests, false, token) && t < |clients|
    requires a.left < |requests| && requests[a.left] == LockReq(t)
    requires token == ConsumerHas
    ensures ClientsInv(a, clients[t := Critical], requests, true, Client(t))
  {
    forall u | 0 <= u < |clients| && u != t
      ensures ClientInv(a, requests, true, Client(t), u, clients[u])
    {
      assert ClientInv(a, requests, false, token, u, clients[u]);
    }
  }

  lemma ExecuteKeepsClients(a: Queue, clients: seq<Client>, requests: seq<Request>, token: Token)
    requires ClientsInv(a, clients, requests, false, token)
    requires a.left < |requests| && requests[a.left].FuncReq?
    ensures ClientsInv(a, clients, requests, true, token)
  {
    forall u | 0 <= u < |clients| ensures ClientInv(a, requests, true, token, u, clients[u]) {
      assert ClientInv(a, requests, false, token, u, clients[u]);
    }
  }

  lemma GrantedThreadIsFree(m: Shared, clients: seq<Client>, requests: seq<Request>, t: Tid)
    requires EntriesInv(m, clients, requests, true) && t < |clients| && clients[t] == Suspended(m.a.left)
    ensures EntriesInv(m, clients[t := Critical], requests, true)
  {
    var clients' := clients[t := Critical];
    forall k | 0 <= k < |m.a.entries| ensures EntryInv(m, clients', requests, true, k) {
      assert EntryInv(m, clients, requests, true, k);
    }
  }

  // ----- Every step keeps the invariant

  lemma TakeFreeLockKeepsInv(s: State, t: Tid, n: Node, req: Request)
    requires Inv(s) && t < |s.clients| && s.clients[t] == Out && n !in s.m.place && (req.LockReq? ==> req.t == t)
    requires s.m.a.entries == []
    ensures Inv(CallStep(s, t, n, req))
  {
    hide Dropped;
    assert TriesInv(s.tries, |s.log| + 1);
    hide TriesInv;
    var s' := CallStep(s, t, n, req);
    assert s'.m.a == Queue([Entry(n, Published)], s.m.a.left);
    AppendKeepsClients(s.m.a, s.clients, s.requests, false, s.token, Entry(n, Published), req);
    assert forall u :: 0 <= u < |s.clients| ==> ClientInv(s.m.a, s.requests, Served(s), s.token, u, s.clients[u]);
    assert s.token == Free by {
      assert ClientInv(s.m.a, s.requests, Served(s), s.token, t, s.clients[t]);
    }
    LockFreeKeepsClients(s'.m.a, s.clients, s'.requests, t);
    hide ClientsInv;
  }

  lemma JoinQueueKeepsInv(s: State, t: Tid, n: Node, req: Request)
    requires Inv(s) && t < |s.clients| && s.clients[t] == Out && n !in s.m.place && (req.LockReq? ==> req.t == t)
    requires s.m.a.entries != []
    ensures Inv(CallStep(s, t, n, req))
  {
    var s', e := CallStep(s, t, n, req), Entry(n, Pending(t));
    assert !Contains(s.m.a.entries, n);
    hide Contains, TriesInv, Dropped;
    assert s'.m.a == Queue(s.m.a.entries + [e], s.m.a.left);
    assert ClientInv(s.m.a, s.requests, Served(s), s.token, t, s.clients[t]);
    AppendKeepsClients(s.m.a, s.clients, s.requests, Served(s), s.token, e, req);
    FreeClientKeepsEntries(s.m, s.clients, s.requests, Served(s), t, s'.clients[t]);
    AppendKeepsEntries(s.m, s'.clients, s.requests, Served(s), s'.m, e, req);
    ClientKeepsClients(s'.m.a, s.clients, s'.requests, Served(s), s.token, t, s'.clients[t], s.token);
    hide ClientsInv, EntriesInv;
  }

  /** Taking a free lock: nobody else is in the queue. */
  lemma LockFreeKeepsClients(a: Queue, clients: seq<Client>, requests: seq<Request>, t: Tid)
    requires ClientsInv(a, clients, requests, false, Free) && t < |clients| && |a.entries| == 1
    requires forall u :: 0 <= u < |clients| ==> !Waiting(clients[u])
    ensures ClientsInv(a, clients[t := Critical], requests, true, Client(t))
  {
    forall u | 0 <= u < |clients| && u != t ensures ClientInv(a, requests, true, Client(t), u, clients[u]) {
      assert ClientInv(a, requests, false, Free, u, clients[u]);
    }
  }

  /** Filling one's own unpublished node. */
  lemma WriteKeepsEntries(m: Shared, clients: seq<Client>, requests: seq<Request>, served: bool,
                          t: Tid, m': Shared)
    requires EntriesInv(m, clients, requests, served) && PlaceInv(m) && t < |clients| && clients[t].Writing?
    requires var Writing(n, ticket, req) := clients[t];
      && PendingEntry(m.a, requests, t, n, ticket, req)
      && m' == if req.LockReq? then m.(sth := m.sth[n := t]) else m.(func := m.func[n := req.f])
    ensures var Writing(n, ticket, req) := clients[t];
            EntriesInv(m', clients[t := Publishing(n, ticket, req)], requests, served) && PlaceInv(m')
  {
    var Writing(n, ticket, req) := clients[t];
    var j, clients' := ticket - m.a.left, clients[t := Publishing(n, ticket, req)];
    assert m.place[m.a.entries[j].node] == m.a.left + j;
    forall k | 0 <= k < |m.a.entries| ensures EntryInv(m', clients', requests, served, k) {
      assert EntryInv(m, clients, requests, served, k);
      assert m.place[m.a.entries[k].node] == m.a.left + k;
    }
  }

  lemma WriteKeepsInv(s: State, t: Tid)
    requires Inv(s) && t < |s.clients| && s.clients[t].Writing?
    ensures Inv(ClientStep(s, t, false, false))
  {
    hide TriesInv, Dropped;
    var s' := ClientStep(s, t, false, false);
    assert ClientInv(s.m.a, s.requests, Served(s), s.token, t, s.clients[t]);
    WriteKeepsEntries(s.m, s.clients, s.requests, Served(s), t, s'.m);
    hide EntriesInv, PlaceInv;
    ClientKeepsClients(s.m.a, s.clients, s.requests, Served(s), s.token, t, s'.clients[t], s.token);
    hide ClientsInv;
  }

  /** The queue with client t's entry published. */
  function Publish(a: Queue, j: nat): Queue
    requires j < |a.entries|
  {
    a.(entries := a.entries[j := a.entries[j].(link := Published)])
  }

  lemma PublishEntries(m: Shared, clients: seq<Client>, requests: seq<Request>, served: bool, token: Token, t: Tid, cl: Client)
    requires EntriesInv(m, clients, requests, served) && t < |clients| && clients[t].Publishing?
    requires ClientInv(m.a, requests, served, token, t, clients[t])
    requires cl == if clients[t].req.LockReq? then Suspended(clients[t].ticket) else Out
    ensures var j := clients[t].ticket - m.a.left;
            0 < j < |m.a.entries| && EntriesInv(m.(a := Publish(m.a, j)), clients[t := cl], requests, served)
  {
    var j := clients[t].ticket - m.a.left;
    var m', clients' := m.(a := Publish(m.a, j)), clients[t := cl];
    assert EntryInv(m, clients, requests, served, j);
    forall k | 0 <= k < |m'.a.entries| ensures EntryInv(m', clients', requests, served, k) {
      assert EntryInv(m, clients, requests, served, k);
    }
  }

  lemma PublishClients(a: Queue, clients: seq<Client>, requests: seq<Request>, served: bool, token: Token, t: Tid, cl: Client)
    requires ClientsInv(a, clients, requests, served, token) && t < |clients| && clients[t].Publishing?
    requires cl == if clients[t].req.LockReq? then Suspended(clients[t].ticket) else Out
    ensures var j := clients[t].ticket - a.left;
            0 < j < |a.entries| && ClientsInv(Publish(a, j), clients[t := cl], requests, served, token)
  {
    assert ClientInv(a, requests, served, token, t, clients[t]);
    var a', clients' := Publish(a, clients[t].ticket - a.left), clients[t := cl];
    forall u | 0 <= u < |clients'| ensures ClientInv(a', requests, served, token, u, clients'[u]) {
      assert ClientInv(a, requests, served, token, u, clients[u]);
    }
  }

  lemma PublishKeepsEntries(s: State, t: Tid)
    requires Inv(s) && t < |s.clients| && s.clients[t].Publishing?
    ensures var s' := ClientStep(s, t, false, false);
            && EntriesInv(s'.m, s'.clients, s'.requests, Served(s))
            && s'.m.a.left == s.m.a.left && |s'.m.a.entries| == |s.m.a.entries|
            && ClientsInv(s'.m.a, s'.clients, s'.requests, Served(s), s.token)
            && PlaceInv(s'.m)
  {
    hide TriesInv, TokenInv, EntriesInv, LogInv;
    assert ClientInv(s.m.a, s.requests, Served(s), s.token, t, s.clients[t]);
    hide ClientsInv;
    var cl := if s.clients[t].req.LockReq? then Suspended(s.clients[t].ticket) else Out;
    PublishEntries(s.m, s.clients, s.requests, Served(s), s.token, t, cl);
    PublishClients(s.m.a, s.clients, s.requests, Served(s), s.token, t, cl);
  }

  lemma PublishKeepsInv(s: State, t: Tid)
    requires Inv(s) && t < |s.clients| && s.clients[t].Publishing?
    ensures Inv(ClientStep(s, t, false, false))
  {
    PublishKeepsEntries(s, t);
    hide TriesInv, Dropped, EntriesInv, PlaceInv;
    var s' := ClientStep(s, t, false, false);
    assert ClientInv(s.m.a, s.requests, Served(s), s.token, t, s.clients[t]);
    hide ClientsInv;
  }

  /** Handing the lock to the thread saved in the head's node. */
  lemma GrantKeepsInv(s: State)
    requires EntriesInv(s.m, s.clients, s.requests, false) && PlaceInv(s.m)
    requires ClientsInv(s.m.a, s.clients, s.requests, false, ConsumerHas)
    requires s.m.a.entries != [] && s.m.a.entries[0].node in s.m.sth
    requires s.m.conSaved && s.con == Asleep
    requires s.log <= s.requests && |s.log| == s.m.a.left
    requires TriesInv(s.tries, |s.log|)
    ensures Inv(Grant(s))
  {
    hide Dropped;
    assert EntryInv(s.m, s.clients, s.requests, false, 0);
    var t := s.m.sth[s.m.a.entries[0].node];
    var s' := Grant(s);
    ServeKeepsEntries(s.m, s.clients, s.requests, s'.m);
    GrantedThreadIsFree(s'.m, s.clients, s.requests, t);
    ServeKeepsClients(s.m.a, s.clients, s.requests, ConsumerHas, t);
    hide EntriesInv, PlaceInv, ClientsInv;
    assert s'.log == s.log + [s.requests[|s.log|]];
  }

  /** Steps of the holder that touch neither the queue nor the nodes. */
  lemma HolderMovesKeepsInv(s: State, t: Tid, wait: bool, active: bool)
    requires Inv(s) && t < |s.clients|
    requires var cl := s.clients[t];
      || cl.Critical? || cl.UnlockStart? || (cl.UnlockTry? && |s.m.a.entries| != 1)
      || (cl.UnlockFollow? && !SuccessorPublished(s.m.a)) || cl.UnlockWake?
      || (cl.UnlockHand? && (s.m.a.entries == [] || s.m.a.entries[0].node !in s.m.sth))
    ensures Inv(ClientStep(s, t, wait, active))
  {
    var s' := ClientStep(s, t, wait, active);
    assert ClientInv(s.m.a, s.requests, Served(s), s.token, t, s.clients[t]);
    FreeClientKeepsEntries(s.m, s.clients, s.requests, Served(s), t, s'.clients[t]);
    SameNodes(s.m, s'.m, s'.clients, s.requests, Served(s));
    ClientKeepsClients(s.m.a, s.clients, s.requests, Served(s), s.token, t, s'.clients[t], s'.token);
    hide EntriesInv, PlaceInv, ClientsInv, TriesInv, Dropped;
  }

  lemma SameNodes(m: Shared, m': Shared, clients: seq<Client>, requests: seq<Request>, served: bool)
    requires EntriesInv(m, clients, requests, served) && PlaceInv(m)
    requires m'.a == m.a && m'.sth == m.sth && m'.func == m.func && m'.place == m.place
    ensures EntriesInv(m', clients, requests, served) && PlaceInv(m')
  {
    forall k | 0 <= k < |m.a.entries| ensures EntryInv(m', clients, requests, served, k) {
      assert EntryInv(m, clients, requests, served, k);
    }
  }

  /** A successful unlock or follow by the holding client. */
  lemma HolderLeavesKeepsInv(s: State, t: Tid, wait: bool, active: bool)
    requires Inv(s) && t < |s.clients|
    requires (s.clients[t].UnlockTry? && |s.m.a.entries| == 1)
          || (s.clients[t].UnlockFollow? && SuccessorPublished(s.m.a))
    ensures Inv(ClientStep(s, t, wait, active))
  {
    var s' := ClientStep(s, t, wait, active);
    assert ClientInv(s.m.a, s.requests, Served(s), s.token, t, s.clients[t]);
    LeaveEffect(s.m);
    LeaveKeepsEntries(s.m, s.clients, s.requests);
    LeaveKeepsPlace(s.m, s.clients, s.requests);
    LeaveKeepsClients(s.m.a, s.clients, s.requests, s.token);
    hide Leave;
    FreeClientKeepsEntries(Leave(s.m), s.clients, s.requests, false, t, s'.clients[t]);
    SameNodes(Leave(s.m), s'.m, s'.clients, s.requests, false);
    ClientKeepsClients(s'.m.a, s.clients, s.requests, false, s.token, t, s'.clients[t], s'.token);
    hide EntriesInv, PlaceInv, ClientsInv, TriesInv, Dropped;
  }

  lemma HandOverKeepsInv(s: State, t: Tid, wait: bool, active: bool)
    requires Inv(s) && t < |s.clients| && s.clients[t].UnlockHand?
    requires s.m.a.entries != [] && s.m.a.entries[0].node in s.m.sth
    ensures Inv(ClientStep(s, t, wait, active))
  {
    assert ClientInv(s.m.a, s.requests, Served(s), s.token, t, s.clients[t]);
    var cl := After(s.clients[t].wait);
    var s1 := s.(clients := s.clients[t := cl], token := ConsumerHas);
    FreeClientKeepsEntries(s.m, s.clients, s.requests, Served(s), t, cl);
    ClientKeepsClients(s.m.a, s.clients, s.requests, Served(s), s.token, t, cl, ConsumerHas);
    GrantKeepsInv(s1);
  }

  lemma ClientStepKeepsInv(s: State, t: Tid, wait: bool, active: bool)
    requires Inv(s) && t < |s.clients|
    ensures Inv(ClientStep(s, t, wait, active))
  {
    hide Inv;
    match s.clients[t]
    case Writing(_, _, _) => WriteKeepsInv(s, t);
    case Publishing(_, _, _) => PublishKeepsInv(s, t);
    case Critical => HolderMovesKeepsInv(s, t, wait, active);
    case UnlockStart(_) => HolderMovesKeepsInv(s, t, wait, active);
    case UnlockTry(_) =>
      if |s.m.a.entries| == 1 { HolderLeavesKeepsInv(s, t, wait, active); }
      else { HolderMovesKeepsInv(s, t, wait, active); }
    case UnlockFollow(_) =>
      if SuccessorPublished(s.m.a) { HolderLeavesKeepsInv(s, t, wait, active); }
      else { HolderMovesKeepsInv(s, t, wait, active); }
    case UnlockHand(_) =>
      if s.m.a.entries != [] && s.m.a.entries[0].node in s.m.sth { HandOverKeepsInv(s, t, wait, active); }
      else { HolderMovesKeepsInv(s, t, wait, active); }
    case UnlockWake(_) => HolderMovesKeepsInv(s, t, wait, active);
    case _ =>
  }

  lemma TryExtends(tries: seq<Try>, done: nat, f: nat, executed: bool, awake: Option<Tid>)
    requires TriesInv(tries, done)
    ensures var tries' := tries + [Try(done, f, executed, awake)];
            && TriesInv(tries', if executed then done + 1 else done)
            && Dropped(tries') == Dropped(tries) + if executed then One(awake) else multiset{}
  {
    assert (tries + [Try(done, f, executed, awake)])[..|tries|] == tries;
  }

  /** Running the head's delegated function to completion. */
  lemma ExecutedKeepsInv(s: State, awake: Option<Tid>)
    requires Inv(s) && s.con == Serve(false) && s.m.a.entries != [] && s.m.a.entries[0].node !in s.m.sth
    ensures Inv(ServeHead(s, true, awake))
  {
    var s' := ServeHead(s, true, awake);
    TryExtends(s.tries, |s.log|, Function(s.m), true, awake);
    hide TriesInv, Dropped;
    assert EntryInv(s.m, s.clients, s.requests, false, 0);
    assert s'.log == s.log + [s.requests[|s.log|]];
    assert s.m.sth - {s.m.a.entries[0].node} == s.m.sth;
    ServeKeepsEntries(s.m, s.clients, s.requests, s'.m);
    ExecuteKeepsClients(s.m.a, s.clients, s.requests, s.token);
    hide EntriesInv, PlaceInv, ClientsInv, EntryInv;
  }

  lemma NotExecutedKeepsInv(s: State, awake: Option<Tid>)
    requires Inv(s) && s.con == Serve(false) && s.m.a.entries != [] && s.m.a.entries[0].node !in s.m.sth
    ensures Inv(ServeHead(s, false, awake))
  {
    TryExtends(s.tries, |s.log|, Function(s.m), false, awake);
    assert s.m.a.left == |s.log|;
    hide EntriesInv, PlaceInv, ClientsInv, TriesInv, Dropped, Grant, LogInv;
  }

  lemma ConsumerGrantKeepsInv(s: State, executed: bool, awake: Option<Tid>)
    requires Inv(s) && s.con == Serve(false) && s.m.a.entries != [] && s.m.a.entries[0].node in s.m.sth
    ensures Inv(ServeHead(s, executed, awake))
  {
    var s1 := s.(m := s.m.(conSaved := true), con := Asleep);
    SameNodes(s.m, s1.m, s.clients, s.requests, false);
    hide EntriesInv, PlaceInv, ClientsInv, TriesInv, Dropped;
    GrantKeepsInv(s1);
  }

  /** The consumer leaves the queue's head behind, by following or by unlocking. */
  lemma ConsumerLeavesKeepsInv(s: State, active: bool, executed: bool, awake: Option<Tid>)
    requires Inv(s)
    requires (s.con == Follow(true) && SuccessorPublished(s.m.a)) || (s.con.TryUnlock? && |s.m.a.entries| == 1)
    ensures Inv(ConsumerStep(s, active, executed, awake))
  {
    var s' := ConsumerStep(s, active, executed, awake);
    LeaveEffect(s.m);
    LeaveKeepsEntries(s.m, s.clients, s.requests);
    LeaveKeepsPlace(s.m, s.clients, s.requests);
    LeaveKeepsClients(s.m.a, s.clients, s.requests, s.token);
    hide Leave;
    if s.con.TryUnlock? {
      TokenDropKeepsClients(s'.m.a, s.clients, s.requests);
    }
    hide EntriesInv, PlaceInv, ClientsInv, TriesInv, Dropped;
  }

  lemma TokenDropKeepsClients(a: Queue, clients: seq<Client>, requests: seq<Request>)
    requires ClientsInv(a, clients, requests, false, ConsumerHas)
    ensures ClientsInv(a, clients, requests, false, Free)
  {
    forall u | 0 <= u < |clients| ensures ClientInv(a, requests, false, Free, u, clients[u]) {
      assert ClientInv(a, requests, false, ConsumerHas, u, clients[u]);
    }
  }

  lemma ConsumerStepKeepsInv(s: State, active: bool, executed: bool, awake: Option<Tid>)
    requires Inv(s)
    ensures Inv(ConsumerStep(s, active, executed, awake))
  {
    hide EntriesInv, PlaceInv, ClientsInv, TriesInv, Dropped, Leave, ServeHead, One;
    var s' := ConsumerStep(s, active, executed, awake);
    if s.con == Serve(false) && s.m.a.entries != [] {
      if s.m.a.entries[0].node in s.m.sth {
        ConsumerGrantKeepsInv(s, executed, awake);
      } else {
        if executed { ExecutedKeepsInv(s, awake); } else { NotExecutedKeepsInv(s, awake); }
      }
    } else if (s.con == Follow(true) && SuccessorPublished(s.m.a)) || (s.con.TryUnlock? && |s.m.a.entries| == 1) {
      ConsumerLeavesKeepsInv(s, active, executed, awake);
    } else {
      SameNodes(s.m, s'.m, s.clients, s.requests, Served(s));
    }
  }

  lemma StepKeepsInv(s: State, act: Action)
    requires Inv(s)
    ensures Inv(Step(s, act))
  {
    match act
    case Call(t, n, req) =>
      hide Inv;
      if t < |s.clients| && s.clients[t] == Out && n !in s.m.place && (req.LockReq? ==> req.t == t) {
        if s.m.a.entries == [] { TakeFreeLockKeepsInv(s, t, n, req); } else { JoinQueueKeepsInv(s, t, n, req); }
      }
    case ClientMoves(t, wait, active) =>
      hide Inv;
      if t < |s.clients| { ClientStepKeepsInv(s, t, wait, active); }
    case ConsumerMoves(active, executed, awake) =>
      hide Inv;
      ConsumerStepKeepsInv(s, active, executed, awake);
    case Resume(t) =>
      if t < |s.clients| && s.clients[t] == Parked {
        assert ClientInv(s.m.a, s.requests, Served(s), s.token, t, s.clients[t]);
        FreeClientKeepsEntries(s.m, s.clients, s.requests, Served(s), t, Out);
        ClientKeepsClients(s.m.a, s.clients, s.requests, Served(s), s.token, t, Out, s.token);
      }
      hide EntriesInv, PlaceInv, ClientsInv, TriesInv, Dropped;
  }

  lemma {:induction false} RunKeepsInv(s: State, n: Node, starter: Tid, acts: seq<Action>)
    requires Initial(s, n, starter)
    ensures Inv(Run(s, acts))
  {
    if acts != [] {
      RunKeepsInv(s, n, starter, acts[..|acts| - 1]);
      StepKeepsInv(Run(s, acts[..|acts| - 1]), acts[|acts| - 1]);
    }
  }

  // ----- What every run guarantees

  /** Mutual exclusion, and the helper can always be entered: at most one client is inside, never
      together with the consumer, and while a client is inside or the lock is free the consumer's
      continuation is saved in `con_sth_`. */
  lemma MutualExclusion(s: State, n: Node, starter: Tid, acts: seq<Action>)
    requires Initial(s, n, starter)
    ensures var r := Run(s, acts);
            && (forall t, u | 0 <= t < |r.clients| && 0 <= u < |r.clients| ::
                  InCritical(r.clients[t]) && InCritical(r.clients[u]) ==> t == u)
            && (forall t :: 0 <= t < |r.clients| && InCritical(r.clients[t]) ==> r.con == Asleep && r.m.conSaved)
            && (r.m.a.entries == [] ==> r.con == Asleep && r.m.conSaved)
  {
    RunKeepsInv(s, n, starter, acts);
    var r := Run(s, acts);
    hide Run;
    assert forall t :: 0 <= t < |r.clients| ==> ClientInv(r.m.a, r.requests, Served(r), r.token, t, r.clients[t]);
  }

  /** First come, first served, exactly once: the services (a lock granted to its requester, or a
      delegated function run to completion) are always a prefix of the requests in arrival order. */
  lemma ServedInOrder(s: State, n: Node, starter: Tid, acts: seq<Action>)
    requires Initial(s, n, starter)
    ensures var r := Run(s, acts);
            && r.log <= r.requests
            && |r.requests| == r.m.a.left + |r.m.a.entries|
            && r.m.a.left <= |r.log| <= r.m.a.left + 1
  {
    RunKeepsInv(s, n, starter, acts);
  }

  /** A waiting locker is resumed only by being served: it stays saved in its node until then. */
  lemma SuspendedUntilServed(s: State, n: Node, starter: Tid, acts: seq<Action>, t: Tid)
    requires Initial(s, n, starter) && t < |Run(s, acts).clients| && Run(s, acts).clients[t].Suspended?
    ensures var r := Run(s, acts); var ticket := r.clients[t].ticket;
            && |r.log| <= ticket < |r.requests| && r.requests[ticket] == LockReq(t)
            && r.m.a.left <= ticket < r.m.a.left + |r.m.a.entries|
            && var node := r.m.a.entries[ticket - r.m.a.left].node;
               node in r.m.sth && r.m.sth[node] == t
  {
    hide Run, Inv, Initial;
    RunKeepsInv(s, n, starter, acts);
    SuspendedInState(Run(s, acts), t);
  }

  lemma SuspendedInState(r: State, t: Tid)
    requires Inv(r) && t < |r.clients| && r.clients[t].Suspended?
    ensures var ticket := r.clients[t].ticket;
            && |r.log| <= ticket < |r.requests| && r.requests[ticket] == LockReq(t)
            && r.m.a.left <= ticket < r.m.a.left + |r.m.a.entries|
            && var node := r.m.a.entries[ticket - r.m.a.left].node;
               node in r.m.sth && r.m.sth[node] == t
  {
    hide TriesInv, TokenInv, Dropped, PlaceInv;
    assert ClientInv(r.m.a, r.requests, Served(r), r.token, t, r.clients[t]);
    hide ClientsInv;
    assert EntryInv(r.m, r.clients, r.requests, Served(r), r.clients[t].ticket - r.m.a.left);
  }

  /** A delegated function is run again only while it has not reported "executed", and no later
      function is run before that. */
  lemma RetriedUntilExecuted(s: State, n: Node, starter: Tid, acts: seq<Action>, i: nat, j: nat)
    requires Initial(s, n, starter) && i < j < |Run(s, acts).tries|
    ensures var tries := Run(s, acts).tries;
            && tries[i].ticket <= tries[j].ticket <= |Run(s, acts).log|
            && (tries[i].executed ==> tries[i].ticket < tries[j].ticket)
  {
    RunKeepsInv(s, n, starter, acts);
  }

  /** A client that wakes the consumer finds it asleep, so holding nobody. */
  lemma AsleepWhenWoken(s: State, t: Tid)
    requires Inv(s) && t < |s.clients| && s.clients[t].UnlockWake?
    ensures s.con == Asleep
  {
    assert ClientInv(s.m.a, s.requests, Served(s), s.token, t, s.clients[t]);
    hide EntriesInv, PlaceInv, ClientsInv, TriesInv, LogInv;
  }

  /** A client's step gives, wakes and drops nobody; it may start the consumer. */
  lemma ClientWakes(s: State, t: Tid, wait: bool, active: bool)
    requires t < |s.clients|
    ensures var r := ClientStep(s, t, wait, active);
            && r.given == s.given && r.woken == s.woken && r.dropped == s.dropped && r.tries == s.tries
            && (r.con == s.con || (s.clients[t].UnlockWake? && r.con == Start))
  {
    hide Leave, QueueDoes, Apply;
  }

  /** A call of `execute` adds the thread it returns to those given, and drops it if it has executed. */
  lemma ServeWakes(s: State, executed: bool, awake: Option<Tid>)
    requires s.con == Serve(false) && s.m.a.entries != []
    ensures var r := ServeHead(s, executed, awake);
            && r.woken == s.woken
            && if s.m.a.entries[0].node in s.m.sth
               then r.given == s.given && r.dropped == s.dropped && r.tries == s.tries && (r.con == Asleep || r.con == s.con)
               else && r.given == s.given + One(awake) && r.tries == s.tries + [Try(s.m.a.left, Function(s.m), executed, awake)]
                    && r.dropped == s.dropped + (if executed then One(awake) else multiset{})
                    && r.con == if executed then Start else Progress(false, awake, true)
  {
    hide Dropped, One;
  }

  lemma DroppedSnoc(tries: seq<Try>, x: Try)
    ensures Dropped(tries + [x]) == Dropped(tries) + if x.executed then One(x.awake) else multiset{}
  {
    hide One;
    assert (tries + [x])[..|tries|] == tries;
  }

  lemma ServeKeepsWake(s: State, executed: bool, awake: Option<Tid>)
    requires WakeInv(s) && s.con == Serve(false) && s.m.a.entries != []
    ensures WakeInv(ServeHead(s, executed, awake))
  {
    hide ServeHead, Dropped, One;
    ServeWakes(s, executed, awake);
    DroppedSnoc(s.tries, Try(s.m.a.left, Function(s.m), executed, awake));
  }

  /** Every other step of the consumer moves threads from those held to those woken. */
  lemma ConsumerWakes(s: State, active: bool, executed: bool, awake: Option<Tid>)
    requires !(s.con == Serve(false) && s.m.a.entries != [])
    ensures var r := ConsumerStep(s, active, executed, awake);
            && r.dropped == s.dropped && r.tries == s.tries
            && exists got: multiset<Tid> :: r.given == s.given + got && r.woken + Held(r.con) == s.woken + Held(s.con) + got
  {
    hide Leave, ServeHead, Dropped, One;
    var r := ConsumerStep(s, active, executed, awake);
    var got := if s.con.Progress? && s.con.go then One(awake) else multiset{};
    if s.con.Progress? { ProgressWakes(s.woken, s.con.awake, if s.con.go then awake else None); } else { ProgressWakes(s.woken, None, None); }
    assert r.given == s.given + got && r.woken + Held(r.con) == s.woken + Held(s.con) + got;
  }

  lemma ProgressWakes(woken: multiset<Tid>, held: Option<Tid>, got: Option<Tid>)
    ensures woken + (if got.Some? then One(held) else multiset{}) + One(if got.Some? then got else held) == woken + One(held) + One(got)
    ensures One(None) == multiset{}
  {
  }

  lemma ConsumerKeepsWake(s: State, active: bool, executed: bool, awake: Option<Tid>)
    requires WakeInv(s)
    ensures WakeInv(ConsumerStep(s, active, executed, awake))
  {
    hide Dropped, ConsumerStep, Held, One;
    if s.con == Serve(false) && s.m.a.entries != [] {
      ServeKeepsWake(s, executed, awake);
      ServesHead(s, active, executed, awake);
    } else {
      ConsumerWakes(s, active, executed, awake);
      var r := ConsumerStep(s, active, executed, awake);
      var got: multiset<Tid> :| r.given == s.given + got && r.woken + Held(r.con) == s.woken + Held(s.con) + got;
      Rearranged(s.woken, s.dropped, Held(s.con), got, r.woken, Held(r.con));
    }
  }

  lemma ServesHead(s: State, active: bool, executed: bool, awake: Option<Tid>)
    requires s.con == Serve(false) && s.m.a.entries != []
    ensures ConsumerStep(s, active, executed, awake) == ServeHead(s, executed, awake)
  {
    hide ServeHead;
  }

  lemma Rearranged(a: multiset<Tid>, b: multiset<Tid>, c: multiset<Tid>, got: multiset<Tid>, a': multiset<Tid>, c': multiset<Tid>)
    requires a' + c' == a + c + got
    ensures a' + b + c' == a + b + c + got
  {
    assert a' + b + c' == (a' + c') + b;
  }

  lemma StepKeepsWake(s: State, act: Action)
    requires Inv(s) && WakeInv(s)
    ensures WakeInv(Step(s, act))
  {
    hide Inv, Dropped, ConsumerStep, ClientStep, One, QueueDoes;
    match act
    case Call(t, n, req) =>
    case ClientMoves(t, wait, active) =>
      if t < |s.clients| {
        ClientWakes(s, t, wait, active);
        if s.clients[t].UnlockWake? { AsleepWhenWoken(s, t); }
      }
    case Resume(t) =>
    case ConsumerMoves(active, executed, awake) => ConsumerKeepsWake(s, active, executed, awake);
  }

  lemma {:induction false} RunKeepsWake(s: State, n: Node, starter: Tid, acts: seq<Action>)
    requires Initial(s, n, starter)
    ensures WakeInv(Run(s, acts))
  {
    if acts != [] {
      hide Inv, WakeInv, Step;
      var m := |acts| - 1;
      RunKeepsWake(s, n, starter, acts[..m]);
      RunKeepsInv(s, n, starter, acts[..m]);
      StepKeepsWake(Run(s, acts[..m]), acts[m]);
    }
  }

  /** Every thread that the consumer is given to wake is woken once for each time it was given, or still
      held, except one that `execute` returns together with "executed": the early return drops it. */
  lemma WakeUpsAccounted(s: State, n: Node, starter: Tid, acts: seq<Action>)
    requires Initial(s, n, starter)
    ensures var r := Run(s, acts); r.given == r.woken + Held(r.con) + Dropped(r.tries)
  {
    RunKeepsWake(s, n, starter, acts);
  }

  lemma {:induction false} DroppedNone(tries: seq<Try>)
    ensures Dropped(tries) == multiset{} <==> forall i :: 0 <= i < |tries| ==> !(tries[i].executed && tries[i].awake.Some?)
  {
    if tries != [] {
      DroppedNone(tries[..|tries| - 1]);
    }
  }

  /** No wake-up is lost if and only if no call of `execute` reports "executed" and also returns
      a thread to wake. */
  lemma NoLostWakeUpIff(s: State, n: Node, starter: Tid, acts: seq<Action>)
    requires Initial(s, n, starter)
    ensures var r := Run(s, acts);
            r.given == r.woken + Held(r.con) <==>
            forall i :: 0 <= i < |r.tries| ==> !(r.tries[i].executed && r.tries[i].awake.Some?)
  {
    hide Run;
    WakeUpsAccounted(s, n, starter, acts);
    var r := Run(s, acts);
    DroppedNone(r.tries);
    if r.given == r.woken + Held(r.con) { NothingAdded(r.given, Dropped(r.tries)); }
  }

  lemma NothingAdded(a: multiset<Tid>, b: multiset<Tid>)
    requires a == a + b
    ensures b == multiset{}
  {
    forall t ensures b[t] == 0 { assert a[t] == (a + b)[t]; }
  }

  /** Such a call is reachable: a client delegates function f, and the consumer's `execute` completes it and
      returns thread u. It is then neither woken nor held, and the consumer goes on. */
  lemma WakeUpCanBeLost(s: State, n: Node, starter: Tid, next: Node, f: nat, u: Tid)
    requires Initial(s, n, starter) && |s.clients| > 0 && next != n
    ensures var r := Run(s, Losing(next, f, u));
            && r.tries == [Try(1, f, true, Some(u))] && r.con == Start
            && r.given == multiset{u} && r.woken == Held(r.con) == multiset{}
  {
    var acts := Losing(next, f, u);
    var s1 := Step(s, acts[0]);
    var s2 := Step(s1, acts[1]);
    var s3 := Step(s2, acts[2]);
    var s4 := Step(s3, acts[3]);
    var s5 := Step(s4, acts[4]);
    var s6 := Step(s5, acts[5]);
    DelegatesFirst(s, n, starter, next, f);
    ServesNext(s3, n, next, f, u);
    assert Run(s, acts) == s6 by { SixSteps(s, acts); }
    hide Step, Run;
  }

  function Losing(next: Node, f: nat, u: Tid): (acts: seq<Action>)
    ensures |acts| == 6
  {
    [Call(0, next, FuncReq(f)), ClientMoves(0, false, false), ClientMoves(0, false, false),
     ConsumerMoves(false, false, None), ConsumerMoves(false, false, None), ConsumerMoves(false, true, Some(u))]
  }

  lemma SixSteps(s: State, acts: seq<Action>)
    requires |acts| == 6
    ensures Run(s, acts) == Step(Step(Step(Step(Step(Step(s, acts[0]), acts[1]), acts[2]), acts[3]), acts[4]), acts[5])
  {
    hide Step;
    assert acts[..5][..4] == acts[..4] && acts[..4][..3] == acts[..3] && acts[..3][..2] == acts[..2];
    assert acts[..2][..1] == acts[..1] && acts[..1][..0] == [];
    assert Run(s, acts[..1]) == Step(s, acts[0]);
    assert Run(s, acts[..2]) == Step(Run(s, acts[..1]), acts[1]);
    assert Run(s, acts[..3]) == Step(Run(s, acts[..2]), acts[2]);
    assert Run(s, acts[..4]) == Step(Run(s, acts[..3]), acts[3]);
    assert Run(s, acts[..5]) == Step(Run(s, acts[..4]), acts[4]);
  }

  /** The client's three steps put its function behind the head. */
  lemma DelegatesFirst(s: State, n: Node, starter: Tid, next: Node, f: nat)
    requires Initial(s, n, starter) && |s.clients| > 0 && next != n
    ensures var t := Step(Step(Step(s, Call(0, next, FuncReq(f))), ClientMoves(0, false, false)), ClientMoves(0, false, false));
            && t.m.a == Queue([Entry(n, Published), Entry(next, Published)], 0) && t.m.sth == map[] && t.m.isExecuted
            && t.m.func == map[next := f] && t.con == Start && t.tries == [] && t.given == t.woken == multiset{}
  {
    var s1 := Step(s, Call(0, next, FuncReq(f)));
    assert s1.m.a == Queue([Entry(n, Published), Entry(next, Pending(0))], 0) && s1.clients[0] == Writing(next, 1, FuncReq(f));
    var s2 := Step(s1, ClientMoves(0, false, false));
    assert s2.m.a == s1.m.a && s2.clients[0] == Publishing(next, 1, FuncReq(f));
    var s3 := Step(s2, ClientMoves(0, false, false));
    assert s3.m.a.entries == [Entry(n, Published), Entry(next, Published)];
  }

  /** The consumer's three steps follow to it, execute it, and drop the thread returned. */
  lemma ServesNext(s: State, n: Node, next: Node, f: nat, u: Tid)
    requires s.m.a == Queue([Entry(n, Published), Entry(next, Published)], 0) && s.m.sth == map[] && s.m.isExecuted
    requires s.m.func == map[next := f] && s.con == Start && s.tries == [] && s.given == s.woken == multiset{}
    ensures var idle := ConsumerMoves(false, false, None);
            var t := Step(Step(Step(s, idle), idle), ConsumerMoves(false, true, Some(u)));
            && t.tries == [Try(1, f, true, Some(u))] && t.con == Start
            && t.given == multiset{u} && t.woken == Held(t.con) == multiset{}
  {
    var idle := ConsumerMoves(false, false, None);
    var s1 := Step(s, idle);
    assert s1 == s.(con := Follow(true));
    var s2 := Step(s1, idle);
    assert s2.m.a == Queue([Entry(next, Published)], 1) && s2.con == Serve(false) && s2.m.sth == map[];
    assert s2.tries == [] && s2.given == s2.woken == multiset{};
    hide Leave;
  }
}
