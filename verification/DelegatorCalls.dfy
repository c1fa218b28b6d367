/** Calls of the delegator: an unlock ends outside and a wait ends parked; every call is requested once, in
    order; the consumer executes the function that was delegated; nobody stops in the middle. */
module DelegatorCalls {
  import opened Wrappers
  import opened LockQueue
  import opened Delegator

  // ----- Where an unlock leads

  /** What a client has asked for since it had the lock, read from the calls alone. */
  datatype Intent = Nothing | ToUnlock | ToWait | ToGoOn

  predicate Accepted(s: State, act: Action, t: Tid)
  {
    act.Call? && act.t == t < |s.clients| && s.clients[t] == Out && act.n !in s.m.place && (act.req.LockReq? ==> act.req.t == t)
  }

  function IntentAfter(s: State, act: Action, t: Tid, i: Intent): Intent
  {
    if t >= |s.clients| then i
    else if act.ClientMoves? && act.t == t && s.clients[t] == Critical then if act.wait then ToWait else ToUnlock
    else if act == Resume(t) && s.clients[t] == Parked then ToGoOn
    else if Accepted(s, act, t) then Nothing
    else i
  }

  function IntentOf(s: State, acts: seq<Action>, t: Tid): Intent
  {
    if acts == [] then Nothing
    else IntentAfter(Run(s, acts[..|acts| - 1]), acts[|acts| - 1], t, IntentOf(s, acts[..|acts| - 1], t))
  }

  function Asked(wait: bool): Intent
  {
    if wait then ToWait else ToUnlock
  }

  predicate Intended(cl: Client, i: Intent)
  {
    match cl
    case UnlockStart(w) => i == Asked(w)
    case UnlockTry(w) => i == Asked(w)
    case UnlockFollow(w) => i == Asked(w)
    case UnlockHand(w) => i == Asked(w)
    case UnlockWake(w) => i == Asked(w)
    case Parked => i == ToWait
    case Out => i != ToWait
    case _ => i == Nothing
  }

  lemma ClientIntends(s: State, u: Tid, wait: bool, active: bool, t: Tid, i: Intent)
    requires Inv(s) && u < |s.clients| && t < |s.clients| && Intended(s.clients[t], i)
    ensures var s' := ClientStep(s, u, wait, active);
            |s'.clients| == |s.clients| && Intended(s'.clients[t], IntentAfter(s, ClientMoves(u, wait, active), t, i))
  {
    hide Inv, Leave, QueueDoes;
    if s.clients[u].UnlockHand? { HandsToAnother(s, u); }
  }

  lemma StepIntends(s: State, act: Action, t: Tid, i: Intent)
    requires Inv(s) && t < |s.clients| && Intended(s.clients[t], i)
    ensures |Step(s, act).clients| == |s.clients| && Intended(Step(s, act).clients[t], IntentAfter(s, act, t, i))
  {
    hide Inv, Leave, QueueDoes, ClientStep;
    if act.ClientMoves? && act.t < |s.clients| { ClientIntends(s, act.t, act.wait, act.active, t, i); }
    if act.ConsumerMoves? && s.con == Serve(false) && s.m.a.entries != [] { HeadIsNext(s); }
  }

  /** In every run a client is parked only if it gave up the lock by `unlock_and_wait` and has not been resumed
      since, and it is outside only if it did not; so `unlock` always returns. */
  lemma {:induction false} ParkedOnlyToWait(s: State, n: Node, starter: Tid, acts: seq<Action>, t: Tid)
    requires Initial(s, n, starter) && t < |s.clients|
    ensures var r := Run(s, acts); t < |r.clients| && Intended(r.clients[t], IntentOf(s, acts, t))
    ensures Run(s, acts).clients[t] == Parked ==> IntentOf(s, acts, t) == ToWait
  {
    hide Inv, Step, IntentAfter;
    if acts != [] {
      ParkedOnlyToWait(s, n, starter, acts[..|acts| - 1], t);
      RunKeepsInv(s, n, starter, acts[..|acts| - 1]);
      StepIntends(Run(s, acts[..|acts| - 1]), acts[|acts| - 1], t, IntentOf(s, acts[..|acts| - 1], t));
    }
  }

  /** A client that leaves the lock, by whichever path, is parked if it is waiting and outside if not. */
  lemma LeavesAsAsked(s: State, n: Node, starter: Tid, acts: seq<Action>, t: Tid, wait: bool, active: bool)
    requires Initial(s, n, starter) && t < |Run(s, acts).clients|
    requires var r := Run(s, acts);
             InCritical(r.clients[t]) && !InCritical(Step(r, ClientMoves(t, wait, active)).clients[t])
    ensures Step(Run(s, acts), ClientMoves(t, wait, active)).clients[t]
         == match Run(s, acts).clients[t]
            case UnlockTry(w) => if w then Parked else Out
            case UnlockHand(w) => if w then Parked else Out
            case UnlockWake(w) => if w then Parked else Out
            case cl => cl
  {
    hide Run, Leave, QueueDoes;
  }

  /** All requests have been served; the last one may still be inside. */
  predicate Alone(s: State)
  {
    |s.log| == |s.requests|
  }

  lemma AloneInQueue(s: State)
    requires Inv(s) && Served(s)
    ensures Alone(s) <==> |s.m.a.entries| == 1
  {
    hide PlaceInv, ClientsInv, TokenInv, TriesInv, EntryInv;
  }

  lemma ServedInside(s: State, t: Tid)
    requires Inv(s) && t < |s.clients| && (s.clients[t].UnlockStart? || s.clients[t].UnlockTry?)
    ensures Served(s)
  {
    hide EntriesInv, PlaceInv, TriesInv, LogInv;
    assert ClientInv(s.m.a, s.requests, Served(s), s.token, t, s.clients[t]);
  }

  /** An unlocking client tries to free the lock only if the consumer is inactive and, when it is going to wait, no
      request is unserved; it succeeds exactly if none is. Otherwise it goes on to hand over or to wake the helper. */
  lemma FreesOnlyWhenIdle(s: State, n: Node, starter: Tid, acts: seq<Action>, t: Tid, wait: bool, active: bool)
    requires Initial(s, n, starter) && t < |Run(s, acts).clients|
    ensures var r := Run(s, acts); var r' := Step(r, ClientMoves(t, wait, active)); var cl := r.clients[t];
            && |r'.clients| == |r.clients|
            && (cl.UnlockStart? ==> r'.clients[t] == if !active && (cl.wait ==> Alone(r)) then UnlockTry(cl.wait) else UnlockFollow(cl.wait))
            && (cl.UnlockTry? ==> if Alone(r) then r'.token == Token.Free && r'.m.a.entries == [] else r'.clients[t] == UnlockFollow(cl.wait))
  {
    hide Run, Inv;
    RunKeepsInv(s, n, starter, acts);
    var r := Run(s, acts);
    if r.clients[t].UnlockStart? || r.clients[t].UnlockTry? {
      ServedInside(r, t);
      AloneInQueue(r);
      if |r.m.a.entries| == 1 { LeaveEffect(r.m); }
    }
    hide Leave;
    SameLength(r, t, wait, active);
  }

  lemma ServedChecking(s: State)
    requires Inv(s) && (s.con.Check? || s.con.TryUnlock?)
    ensures Served(s)
  {
    hide EntriesInv, PlaceInv, ClientsInv, TriesInv, LogInv;
  }

  /** A consumer that has nothing to do goes to sleep exactly if no request is unserved: it saves its continuation,
      frees the lock and wakes the thread that it holds; otherwise it takes its continuation back and goes on. */
  lemma SleepsWhenIdle(s: State, n: Node, starter: Tid, acts: seq<Action>, active: bool, executed: bool, awake: Option<Tid>)
    requires Initial(s, n, starter) && (Run(s, acts).con.Check? || Run(s, acts).con.TryUnlock?)
    ensures var r := Run(s, acts); var r' := Step(r, ConsumerMoves(active, executed, awake)); var c := r.con;
            && (c.Check? ==> if Alone(r) then r'.con == TryUnlock(c.awake) && r'.m.conSaved else r'.con == Notify(c.awake))
            && (c.TryUnlock? ==>
                  if Alone(r)
                  then r'.con == Asleep && r'.token == Token.Free && r'.m.a.entries == [] && r'.m.conSaved && r'.woken == r.woken + One(c.awake)
                  else r'.con == Notify(c.awake) && !r'.m.conSaved)
  {
    hide Run, Inv;
    RunKeepsInv(s, n, starter, acts);
    var r := Run(s, acts);
    ServedChecking(r);
    AloneInQueue(r);
    if r.con.TryUnlock? { SavedWhenTrying(r); }
    if |r.m.a.entries| == 1 { LeaveEffect(r.m); }
    hide Leave;
  }

  lemma SavedWhenTrying(s: State)
    requires Inv(s) && s.con.TryUnlock?
    ensures s.m.conSaved
  {
    hide EntriesInv, PlaceInv, ClientsInv, TriesInv, LogInv;
  }

  // ----- Every call is a request

  function Requests(s: State, acts: seq<Action>): seq<Request>
  {
    if acts == [] then []
    else
      var r, act := Run(s, acts[..|acts| - 1]), acts[|acts| - 1];
      Requests(s, acts[..|acts| - 1]) + if act.Call? && Accepted(r, act, act.t) then [act.req] else []
  }

  lemma StepRequests(s: State, act: Action)
    ensures Step(s, act).requests == s.requests + if act.Call? && Accepted(s, act, act.t) then [act.req] else []
  {
    hide Leave, QueueDoes;
  }

  /** In every run the requests served in order are, after the starter's, exactly those of the calls, in order. */
  lemma {:induction false} EveryCallIsRequested(s: State, n: Node, starter: Tid, acts: seq<Action>)
    requires Initial(s, n, starter)
    ensures Run(s, acts).requests == [LockReq(starter)] + Requests(s, acts)
  {
    hide Step, Accepted;
    if acts != [] {
      EveryCallIsRequested(s, n, starter, acts[..|acts| - 1]);
      StepRequests(Run(s, acts[..|acts| - 1]), acts[|acts| - 1]);
    }
  }

  // ----- The consumer executes what was delegated

  predicate TryOk(t: Try, requests: seq<Request>)
  {
    t.ticket < |requests| && requests[t.ticket] == FuncReq(t.f)
  }

  predicate TriesOk(tries: seq<Try>, requests: seq<Request>)
  {
    forall i :: 0 <= i < |tries| ==> TryOk(tries[i], requests)
  }

  lemma HeadIsNext(s: State)
    requires Inv(s) && s.con == Serve(false) && s.m.a.entries != []
    ensures |s.log| == s.m.a.left < |s.requests| && Content(s.m, s.m.a.entries[0].node, s.requests[|s.log|])
    ensures s.requests[|s.log|].LockReq? ==>
              s.requests[|s.log|].t < |s.clients| && s.clients[s.requests[|s.log|].t].Suspended?
  {
    hide PlaceInv, ClientsInv, TriesInv;
    assert EntryInv(s.m, s.clients, s.requests, Served(s), 0);
  }

  lemma TriesKept(s: State, act: Action)
    requires Inv(s) && TriesOk(s.tries, s.requests)
    ensures TriesOk(Step(s, act).tries, Step(s, act).requests)
  {
    hide Inv, Leave, QueueDoes, ClientStep;
    StepRequests(s, act);
    if act.ClientMoves? && act.t < |s.clients| { ClientWakes(s, act.t, act.wait, act.active); }
    if act.ConsumerMoves? && s.con == Serve(false) && s.m.a.entries != [] { HeadIsNext(s); }
    var s' := Step(s, act);
    forall i | 0 <= i < |s'.tries| ensures TryOk(s'.tries[i], s'.requests) { assert i < |s.tries| ==> TryOk(s.tries[i], s.requests); }
  }

  /** In every run each call of `execute` gets the function that its request delegated. */
  lemma {:induction false} ExecutesWhatWasDelegated(s: State, n: Node, starter: Tid, acts: seq<Action>)
    requires Initial(s, n, starter)
    ensures TriesOk(Run(s, acts).tries, Run(s, acts).requests)
  {
    hide Inv, Step;
    if acts != [] {
      ExecutesWhatWasDelegated(s, n, starter, acts[..|acts| - 1]);
      RunKeepsInv(s, n, starter, acts[..|acts| - 1]);
      TriesKept(Run(s, acts[..|acts| - 1]), acts[|acts| - 1]);
    }
  }

  /** When the consumer finds an entry that has not been executed, it serves the oldest request not served
      yet: it resumes the thread that asked for the lock, which then has it while the consumer sleeps with its
      continuation saved; or it executes the function, and the request is served exactly if that succeeds. */
  lemma ServesTheNext(s: State, n: Node, starter: Tid, acts: seq<Action>, active: bool, executed: bool, awake: Option<Tid>)
    requires Initial(s, n, starter) && Run(s, acts).con == Serve(false)
    ensures var r := Run(s, acts); var r' := Step(r, ConsumerMoves(active, executed, awake));
            && |r.log| < |r.requests|
            && match r.requests[|r.log|]
               case LockReq(t) =>
                 && t < |r.clients| && r'.clients == r.clients[t := Critical] && r'.token == Token.Client(t)
                 && r'.log == r.log + [LockReq(t)] && r'.con == Asleep && r'.m.conSaved && r'.tries == r.tries
               case FuncReq(f) =>
                 && r'.clients == r.clients && r'.tries == r.tries + [Try(|r.log|, f, executed, awake)]
                 && r'.log == (if executed then r.log + [FuncReq(f)] else r.log)
                 && r'.m.isExecuted == (executed || r.m.isExecuted)
  {
    hide Run, Inv;
    RunKeepsInv(s, n, starter, acts);
    QueueOfConsumer(Run(s, acts));
    HeadIsNext(Run(s, acts));
  }

  lemma QueueOfConsumer(s: State)
    requires Inv(s) && s.con != Asleep
    ensures s.m.a.entries != []
  {
    hide EntriesInv, PlaceInv, ClientsInv, TriesInv, LogInv;
  }

  // ----- Nobody stops in the middle

  function Remaining(cl: Client): nat
  {
    match cl
    case Writing(_, _, _) => 2
    case Publishing(_, _, _) => 1
    case UnlockStart(_) => 5
    case UnlockTry(_) => 4
    case UnlockFollow(_) => 3
    case UnlockHand(_) => 2
    case UnlockWake(_) => 1
    case _ => 0
  }

  /** Steps left in the consumer's current round. */
  function Round(con: Consumer): nat
  {
    match con
    case Follow(_) => 6
    case Serve(_) => 5
    case Progress(_, _, _) => 4
    case Check(_) => 3
    case TryUnlock(_) => 2
    case Notify(_) => 1
    case _ => 0
  }

  lemma ClientMovesOn(s: State, t: Tid, wait: bool, active: bool)
    requires Inv(s) && t < |s.clients| && Remaining(s.clients[t]) > 0
    ensures var s' := ClientStep(s, t, wait, active);
            |s'.clients| == |s.clients| && Remaining(s'.clients[t]) < Remaining(s.clients[t])
  {
    hide EntriesInv, PlaceInv, TriesInv, LogInv, Leave, QueueDoes;
    assert ClientInv(s.m.a, s.requests, Served(s), s.token, t, s.clients[t]);
    if s.clients[t].UnlockHand? { HandsToAnother(s, t); }
    hide ClientsInv, ClientInv;
  }

  /** The thread that an unlocking client resumes is not the client itself. */
  lemma HandsToAnother(s: State, t: Tid)
    requires Inv(s) && t < |s.clients| && s.clients[t].UnlockHand?
    ensures s.m.a.entries != []
    ensures s.m.a.entries[0].node in s.m.sth ==>
              var u := s.m.sth[s.m.a.entries[0].node]; u < |s.clients| && u != t && s.clients[u].Suspended?
  {
    hide PlaceInv, TriesInv;
    assert ClientInv(s.m.a, s.requests, Served(s), s.token, t, s.clients[t]);
    assert EntryInv(s.m, s.clients, s.requests, Served(s), 0);
  }

  /** In every run each step of a client in the middle of a call brings it closer to the end, each step of the
      consumer brings it closer to the end of its round, and as long as anything is queued, a client has the
      lock or the consumer is at work. */
  lemma NobodyStops(s: State, n: Node, starter: Tid, acts: seq<Action>, t: Tid, wait: bool, active: bool, executed: bool, awake: Option<Tid>)
    requires Initial(s, n, starter) && t < |Run(s, acts).clients|
    ensures var r := Run(s, acts); var r' := Step(r, ClientMoves(t, wait, active));
            |r'.clients| == |r.clients| && (Remaining(r.clients[t]) > 0 ==> Remaining(r'.clients[t]) < Remaining(r.clients[t]))
    ensures var r := Run(s, acts); var c, c' := r.con, Step(r, ConsumerMoves(active, executed, awake)).con;
            if c == Start then c' == Follow(r.m.isExecuted) else if c == Asleep then c' == Asleep else Round(c') < Round(c)
    ensures var r := Run(s, acts);
            r.m.a.entries != [] ==> r.con != Asleep || exists u :: 0 <= u < |r.clients| && InCritical(r.clients[u])
  {
    hide Run, Inv;
    RunKeepsInv(s, n, starter, acts);
    var r := Run(s, acts);
    if Remaining(r.clients[t]) > 0 { ClientMovesOn(r, t, wait, active); }
    ConsumerMovesOn(r, active, executed, awake);
    hide ClientStep, ConsumerStep;
    if r.m.a.entries != [] { SomebodyHas(r); }
    SameLength(r, t, wait, active);
  }

  lemma SameLength(s: State, t: Tid, wait: bool, active: bool)
    requires t < |s.clients|
    ensures |ClientStep(s, t, wait, active).clients| == |s.clients|
  {
    hide Leave, QueueDoes;
  }

  lemma ConsumerMovesOn(s: State, active: bool, executed: bool, awake: Option<Tid>)
    requires Inv(s)
    ensures var c, c' := s.con, ConsumerStep(s, active, executed, awake).con;
            if c == Start then c' == Follow(s.m.isExecuted) else if c == Asleep then c' == Asleep else Round(c') < Round(c)
  {
    hide Inv, Leave, ServeHead, One;
    if s.con != Asleep { QueueOfConsumer(s); }
    if s.con == Serve(false) { ServeMovesOn(s, executed, awake); }
  }

  lemma ServeMovesOn(s: State, executed: bool, awake: Option<Tid>)
    requires Inv(s) && s.con == Serve(false) && s.m.a.entries != []
    ensures Round(ServeHead(s, executed, awake).con) < 5
  {
    hide Inv, One;
    HeadIsNext(s);
  }

  lemma SomebodyHas(s: State)
    requires Inv(s) && s.m.a.entries != []
    ensures s.con != Asleep || exists u :: 0 <= u < |s.clients| && InCritical(s.clients[u])
  {
    hide EntriesInv, PlaceInv, TriesInv, LogInv;
    if s.token.Client? { assert ClientInv(s.m.a, s.requests, Served(s), s.token, s.token.t, s.clients[s.token.t]); }
  }

  // ----- Nodes

  predicate NodeOk(m: Shared, n: Node)
    requires n in m.place
  {
    0 <= m.place[n] - m.a.left < |m.a.entries| && m.a.entries[m.place[n] - m.a.left].node == n
  }

  /** A node outside the pool is in the queue. */
  predicate NodesOk(m: Shared)
  {
    forall n :: n in m.place ==> NodeOk(m, n)
  }

  lemma LeaveNodes(m: Shared)
    requires NodesOk(m) && PlaceInv(m) && (|m.a.entries| == 1 || SuccessorPublished(m.a))
    ensures NodesOk(Leave(m))
  {
    LeaveEffect(m);
    hide Leave;
    assert m.place[m.a.entries[0].node] == m.a.left + 0;
    forall n | n in Leave(m).place ensures NodeOk(Leave(m), n) { assert NodeOk(m, n); }
  }

  lemma SameNodes(m: Shared, m': Shared)
    requires NodesOk(m) && m'.place == m.place && m'.a == m.a
    ensures NodesOk(m')
  {
    forall n | n in m'.place ensures NodeOk(m', n) { assert NodeOk(m, n); }
  }

  lemma CallNodes(s: State, t: Tid, n: Node, req: Request)
    requires Inv(s) && NodesOk(s.m) && t < |s.clients| && n !in s.m.place
    ensures NodesOk(CallStep(s, t, n, req).m)
  {
    hide EntriesInv, ClientsInv, TokenInv, TriesInv, LogInv;
    var m' := CallStep(s, t, n, req).m;
    assert !Contains(s.m.a.entries, n);
    hide Contains;
    forall x | x in m'.place ensures NodeOk(m', x) { assert x != n ==> NodeOk(s.m, x); }
  }

  lemma PublishNodes(m: Shared, ticket: nat)
    requires NodesOk(m)
    ensures NodesOk(QueueDoes(m, Linked(ticket)))
  {
    var m' := QueueDoes(m, Linked(ticket));
    forall n | n in m'.place ensures NodeOk(m', n) { assert NodeOk(m, n); }
  }

  lemma PlacesOf(s: State)
    requires Inv(s)
    ensures PlaceInv(s.m)
  {
  }

  lemma ClientNodes(s: State, t: Tid, wait: bool, active: bool)
    requires Inv(s) && NodesOk(s.m) && t < |s.clients|
    ensures NodesOk(ClientStep(s, t, wait, active).m)
  {
    hide Inv, NodesOk, Leave, QueueDoes;
    PlacesOf(s);
    hide PlaceInv;
    var cl, m' := s.clients[t], ClientStep(s, t, wait, active).m;
    if cl.Publishing? {
      PublishNodes(s.m, cl.ticket);
    } else if cl.UnlockTry? && |s.m.a.entries| == 1 {
      LeaveNodes(s.m);
    } else if cl.UnlockFollow? && SuccessorPublished(s.m.a) {
      LeaveNodes(s.m);
      SameNodes(Leave(s.m), m');
    } else {
      SameNodes(s.m, m');
    }
  }

  lemma ServeNodes(s: State, executed: bool, awake: Option<Tid>)
    requires s.m.a.entries != []
    ensures ServeHead(s, executed, awake).m.place == s.m.place && ServeHead(s, executed, awake).m.a == s.m.a
  {
    hide One;
  }

  lemma ConsumerNodes(s: State, active: bool, executed: bool, awake: Option<Tid>)
    requires Inv(s) && NodesOk(s.m)
    ensures NodesOk(ConsumerStep(s, active, executed, awake).m)
  {
    hide Inv, NodesOk, Leave, One, ServeHead, PlaceInv;
    PlacesOf(s);
    if s.con == Serve(false) && s.m.a.entries != [] { ServeNodes(s, executed, awake); }
    var m' := ConsumerStep(s, active, executed, awake).m;
    if (s.con == Follow(true) && SuccessorPublished(s.m.a)) || (s.con.TryUnlock? && |s.m.a.entries| == 1) {
      LeaveNodes(s.m);
      SameNodes(Leave(s.m), m');
    } else {
      SameNodes(s.m, m');
    }
  }

  /** In every run a node outside the pool is an entry of the queue: nodes that left it are back. */
  lemma {:induction false} NodesComeBack(s: State, n: Node, starter: Tid, acts: seq<Action>)
    requires Initial(s, n, starter)
    ensures NodesOk(Run(s, acts).m)
  {
    hide Inv, ClientStep, ConsumerStep, CallStep;
    if acts != [] {
      NodesComeBack(s, n, starter, acts[..|acts| - 1]);
      RunKeepsInv(s, n, starter, acts[..|acts| - 1]);
      hide NodesOk;
      var r, act := Run(s, acts[..|acts| - 1]), acts[|acts| - 1];
      match act
      case Call(t, x, req) => if Accepted(r, act, t) { CallNodes(r, t, x, req); }
      case ClientMoves(t, wait, active) => if t < |r.clients| { ClientNodes(r, t, wait, active); }
      case ConsumerMoves(active, executed, awake) => ConsumerNodes(r, active, executed, awake);
      case Resume(_) =>
    }
  }
}
