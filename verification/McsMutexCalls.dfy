/** Calls of the mutex and its condition variable: an unlock ends outside, a wait ends parked until somebody
    resumes it, a notify makes the waiter runnable, and nobody stops in the middle. */
module McsMutexCalls {
  import opened Wrappers
  import opened LockQueue
  import opened McsMutex

  // ----- Notifying

  /** A notify by the holder resumes the thread of the first entry, which goes on to free its node and lock
      again, takes its entry off the list, and changes no other thread. */
  lemma NotifyWakes(s: State, acts: seq<Action>, t: Tid)
    requires Initial(s) && t < |Run(s, acts).threads| && Run(s, acts).threads[t] == Critical && Run(s, acts).waiting != []
    ensures var r, r' := Run(s, acts), Step(Run(s, acts), Notify(t)); var u := r.waiting[0];
            && |r'.threads| == |r.threads| && u < |r.threads| && u != t
            && r.threads[u].Parked? && r'.threads[u] == FreeNode(r.threads[u].cur)
            && r'.threads[t] == Notified(u)
            && (forall v :: 0 <= v < |r.threads| && v != u && v != t ==> r'.threads[v] == r.threads[v])
            && r'.waiting == r.waiting[1..] && r' == r.(threads := r'.threads, waiting := r'.waiting)
  {
    NotifierSeesSavedWaiters(s, acts, t, 0);
  }

  /** The rounds of `notify_all`: resume the waiter of the first entry, read its link. */
  function NotifyRounds(s: State, t: Tid, k: nat): State
    decreases k
  {
    if k == 0 then s else NotifyRounds(Step(Step(s, Notify(t)), Moves(t, false)), t, k - 1)
  }

  /** One round. */
  lemma NotifyRound(s: State, t: Tid)
    requires Inv(s) && t < |s.threads| && s.threads[t] == Critical && s.waiting != []
    ensures var u, s' := s.waiting[0], Step(Step(s, Notify(t)), Moves(t, false));
            && u < |s.threads| && s.threads[u].Parked?
            && Inv(s') && s' == s.(threads := s.threads[u := FreeNode(s.threads[u].cur)], waiting := s.waiting[1..], head := s'.head)
  {
    SeenInState(s, t);
    StepKeepsInv(s, Notify(t));
    StepKeepsInv(Step(s, Notify(t)), Moves(t, false));
    hide Inv;
    var s1, u := Step(s, Notify(t)), s.waiting[0];
    assert s1.threads[t] == Notified(u);
    assert s.threads[u := FreeNode(s.threads[u].cur)][t := Notified(u)][t := Critical] == s.threads[u := FreeNode(s.threads[u].cur)];
  }

  lemma SeenInState(s: State, t: Tid)
    requires Inv(s) && t < |s.threads| && s.threads[t] == Critical && s.waiting != []
    ensures s.head == Some(s.waiting[0]) && s.waiting[0] < |s.threads| && s.waiting[0] != t && s.threads[s.waiting[0]].Parked?
  {
    hide EntriesInv, PlaceInv, TokenInv, LogInv;
    TokenOf(s, t);
    OnlyHolder(s, t);
  }

  /** `notify_all` by the holder resumes every waiter, empties the list and changes no other thread. */
  lemma {:induction false} NotifyAllWakes(s: State, t: Tid)
    requires Inv(s) && t < |s.threads| && s.threads[t] == Critical
    ensures var r := NotifyRounds(s, t, |s.waiting|);
            && |r.threads| == |s.threads| && r.threads[t] == Critical && r.waiting == [] && r.head == None
            && forall u :: 0 <= u < |s.threads| ==>
                 if u in s.waiting then s.threads[u].Parked? && r.threads[u] == FreeNode(s.threads[u].cur) else r.threads[u] == s.threads[u]
    decreases |s.waiting|
  {
    hide Inv, Step;
    if s.waiting == [] {
      NoneWaits(s, t);
    } else {
      var s' := Step(Step(s, Notify(t)), Moves(t, false));
      NotifyRound(s, t);
      SeenInState(s, t);
      NotifyAllWakes(s', t);
      FirstOnce(s);
      assert s.waiting == [s.waiting[0]] + s.waiting[1..];
    }
  }

  lemma NoneWaits(s: State, t: Tid)
    requires Inv(s) && t < |s.threads| && s.threads[t] == Critical && s.waiting == []
    ensures s.head == None
  {
    TokenOf(s, t);
  }

  lemma FirstOnce(s: State)
    requires Inv(s) && s.waiting != []
    ensures s.waiting[0] !in s.waiting[1..]
  {
    PopKeepsCv(s.threads, s.waiting, s.frames);
  }

  // ----- Where an unlock leads

  /** What a thread has asked for since it had the lock, read from the calls alone. */
  datatype Intent = Nothing | ToUnlock | ToWait | ToGoOn

  /** Thread t is resumed: by the holder's notify, or by others if it is not on the list. */
  predicate Resumes(s: State, act: Action, t: Tid)
  {
    || (act == Resume(t) && t !in s.waiting)
    || (act.Notify? && act.t < |s.threads| && s.threads[act.t] == Critical && s.head == Some(t))
  }

  function IntentAfter(s: State, act: Action, t: Tid, i: Intent): Intent
  {
    if t >= |s.threads| then i
    else if s.threads[t] == Critical && act == Moves(t, false) then ToUnlock
    else if s.threads[t] == Critical && (act == Moves(t, true) || act == CvWait(t)) then ToWait
    else if s.threads[t].Parked? && Resumes(s, act, t) then ToGoOn
    else if LockCall(s, act, t) == 1 then Nothing
    else i
  }

  function IntentOf(s: State, acts: seq<Action>, t: Tid): Intent
  {
    if acts == [] then Nothing
    else IntentAfter(Run(s, acts[..|acts| - 1]), acts[|acts| - 1], t, IntentOf(s, acts[..|acts| - 1], t))
  }

  predicate Intended(th: Thread, i: Intent)
  {
    match th
    case CheckUnlock => i == ToWait
    case TryUnlock(w) => i == if w then ToWait else ToUnlock
    case Follow(w) => i == if w then ToWait else ToUnlock
    case Hand(_, w) => i == if w then ToWait else ToUnlock
    case FreeNode(_) => i == ToUnlock || i == ToGoOn
    case Parked(_) => i == ToWait
    case Out => i != ToWait
    case _ => i == Nothing
  }

  lemma MoveIntends(s: State, u: Tid, wait: bool, t: Tid, i: Intent)
    requires Inv(s) && u < |s.threads| && t < |s.threads| && Intended(s.threads[t], i)
    ensures var s' := ThreadStep(s, u, wait);
            |s'.threads| == |s.threads| && Intended(s'.threads[t], IntentAfter(s, Moves(u, wait), t, i))
  {
    hide Inv, Leave, QueueDoes;
    if s.threads[u].Hand? { HandInState(s, u); }
  }

  lemma IntentKept(s: State, act: Action, t: Tid, i: Intent)
    requires Inv(s) && t < |s.threads| && Intended(s.threads[t], i)
    ensures |Step(s, act).threads| == |s.threads| && Intended(Step(s, act).threads[t], IntentAfter(s, act, t, i))
  {
    hide Inv, ThreadStep;
    if act.Moves? && act.t < |s.threads| { MoveIntends(s, act.t, act.wait, t, i); }
  }

  /** In every run a thread is parked only if it gave up the lock to wait and nobody has resumed it since; it is on
      its way out, or outside, only if it unlocked without waiting or has been resumed; and one that is inside or on
      its way in has not asked for either since it called `lock`. */
  lemma {:induction false} ParkedOnlyToWait(s: State, acts: seq<Action>, t: Tid)
    requires Initial(s) && t < |s.threads|
    ensures t < |Run(s, acts).threads| && Intended(Run(s, acts).threads[t], IntentOf(s, acts, t))
  {
    hide Inv, Step, Intended, IntentAfter;
    if acts == [] {
      FirstIntent(s, t);
    } else {
      ParkedOnlyToWait(s, acts[..|acts| - 1], t);
      RunKeepsInv(s, acts[..|acts| - 1]);
      IntentKept(Run(s, acts[..|acts| - 1]), acts[|acts| - 1], t, IntentOf(s, acts[..|acts| - 1], t));
    }
  }

  lemma FirstIntent(s: State, t: Tid)
    requires Initial(s) && t < |s.threads|
    ensures Intended(s.threads[t], Nothing)
  {
  }

  // ----- Nobody stops in the middle

  /** How many more steps of its own a thread takes before it is outside, suspended, parked or inside. */
  function Remaining(th: Thread): nat
  {
    match th
    case Fresh(_) => 3
    case Saving(_, _, _) => 2
    case Linking(_, _, _) => 1
    case Notified(_) => 1
    case CheckUnlock => 5
    case TryUnlock(_) => 4
    case Follow(_) => 3
    case Hand(_, _) => 2
    case FreeNode(_) => 1
    case _ => 0
  }

  /** Every step of a thread in the middle of a call brings it closer to the end, except that one in the loop of
      an unlock stays there until its successor's link is published; the successor's thread is then about to
      publish it. */
  lemma StepsGoOn(s: State, acts: seq<Action>, t: Tid, wait: bool)
    requires Initial(s) && t < |Run(s, acts).threads| && Remaining(Run(s, acts).threads[t]) > 0
    ensures var r := Run(s, acts); var r' := Step(r, Moves(t, wait));
            && |r'.threads| == |r.threads|
            && (|| Remaining(r'.threads[t]) < Remaining(r.threads[t])
                || (r.threads[t].Follow? && PublisherOf(r)))
  {
    hide Run, FollowsOk;
    RunKeepsInv(s, acts);
    FollowersHaveOne(s, acts);
    MovesOn(Run(s, acts), t, wait);
  }

  /** The second entry's thread is about to publish its link. */
  predicate PublisherOf(s: State)
  {
    |s.m.a.entries| >= 2 && s.m.a.entries[1].link.Pending? && var u := s.m.a.entries[1].link.t;
    u < |s.threads| && (s.threads[u].Saving? || s.threads[u].Linking?)
  }

  lemma MovesOn(s: State, t: Tid, wait: bool)
    requires Inv(s) && FollowsOk(s) && t < |s.threads| && Remaining(s.threads[t]) > 0
    ensures var s' := Step(s, Moves(t, wait));
            && |s'.threads| == |s.threads|
            && (Remaining(s'.threads[t]) < Remaining(s.threads[t]) || (s.threads[t].Follow? && PublisherOf(s)))
  {
    hide PlaceInv, LogInv, CvInv, HeadInv, Leave, QueueDoes;
    if s.threads[t].Hand? { HandInState(s, t); }
    if s.threads[t].Follow? && !SuccessorPublished(s.m.a) { assert EntryInv(s.m, s.threads, s.requests, 1); }
    hide EntriesInv, ThreadsInv, TokenInv;
  }

  /** Who follows has a successor. */
  predicate FollowsOk(s: State)
  {
    forall t :: 0 <= t < |s.threads| && s.threads[t].Follow? ==> |s.m.a.entries| >= 2
  }

  /** Only who leaves the queue makes it shorter. */
  lemma EntriesShrink(s: State, t: Tid, wait: bool)
    requires t < |s.threads|
    ensures var s', th := ThreadStep(s, t, wait), s.threads[t];
            && (!th.TryUnlock? && !th.Follow? ==> |s'.m.a.entries| >= |s.m.a.entries|)
            && |s'.threads| == |s.threads|
            && forall u :: 0 <= u < |s.threads| && u != t && s'.threads[u].Follow? ==> s.threads[u].Follow?
  {
    hide Leave, Contains;
  }

  lemma FollowsKept(s: State, act: Action)
    requires Inv(s) && FollowsOk(s)
    ensures FollowsOk(Step(s, act))
  {
    hide EntriesInv, PlaceInv, LogInv, CvInv, HeadInv, Contains;
    var s' := Step(s, act);
    if act.Moves? && act.t < |s.threads| && (s.threads[act.t].TryUnlock? || s.threads[act.t].Follow?) {
      OnlyHolder(s, act.t);
      HoldersAgree(s, act.t, act.t);
    }
    hide Inv, ThreadInv, TokenInv, Leave, LockStep;
    if act.Moves? && act.t < |s.threads| { EntriesShrink(s, act.t, act.wait); }
    forall t | 0 <= t < |s'.threads| && s'.threads[t].Follow? ensures |s'.m.a.entries| >= 2 {
      if act.Moves? && act.t == t && t < |s.threads| && Holding(s.threads[t]) { HoldersAgree(s, t, t); }
    }
  }

  lemma {:induction false} FollowersHaveOne(s: State, acts: seq<Action>)
    requires Initial(s)
    ensures FollowsOk(Run(s, acts))
  {
    hide Inv, Step;
    if acts != [] {
      FollowersHaveOne(s, acts[..|acts| - 1]);
      RunKeepsInv(s, acts[..|acts| - 1]);
      FollowsKept(Run(s, acts[..|acts| - 1]), acts[|acts| - 1]);
    }
  }

  // ----- Each call of lock joins the queue once, and nodes come back

  function LockCall(s: State, act: Action, t: Tid): nat
  {
    if act.Allocate? && act.t == t < |s.threads| && s.threads[t] == Out && act.n !in s.m.place then 1 else 0
  }

  function LockCalls(s: State, acts: seq<Action>, t: Tid): nat
  {
    if acts == [] then 0
    else LockCalls(s, acts[..|acts| - 1], t) + LockCall(Run(s, acts[..|acts| - 1]), acts[|acts| - 1], t)
  }

  function Entering(th: Thread): nat
  {
    if th.Fresh? then 1 else 0
  }

  lemma LockStepRequests(s: State, u: Tid, cur: Node, t: Tid)
    requires u < |s.threads| && t < |s.threads| && s.threads[u] == Fresh(cur)
    ensures var s' := LockStep(s, u, cur);
            && |s'.threads| == |s.threads|
            && multiset(s'.requests)[t] + Entering(s'.threads[t]) == multiset(s.requests)[t] + Entering(s.threads[t])
  {
    hide QueueDoes;
  }

  lemma OtherRequests(s: State, u: Tid, wait: bool, t: Tid)
    requires Inv(s) && u < |s.threads| && t < |s.threads| && !s.threads[u].Fresh?
    ensures var s' := ThreadStep(s, u, wait);
            |s'.threads| == |s.threads| && s'.requests == s.requests && Entering(s'.threads[t]) == Entering(s.threads[t])
  {
    hide Inv, Leave, QueueDoes, LockStep;
    if s.threads[u].Hand? { HandInState(s, u); }
  }

  lemma MoveRequests(s: State, u: Tid, wait: bool, t: Tid)
    requires Inv(s) && u < |s.threads| && t < |s.threads|
    ensures var s' := ThreadStep(s, u, wait);
            && |s'.threads| == |s.threads|
            && multiset(s'.requests)[t] + Entering(s'.threads[t]) == multiset(s.requests)[t] + Entering(s.threads[t])
  {
    hide Inv, Leave, QueueDoes, LockStep, Entering;
    if s.threads[u].Fresh? { LockStepRequests(s, u, s.threads[u].cur, t); } else { OtherRequests(s, u, wait, t); }
  }

  lemma StepRequests(s: State, act: Action, t: Tid)
    requires Inv(s) && t < |s.threads|
    ensures var s' := Step(s, act);
            && |s'.threads| == |s.threads|
            && multiset(s'.requests)[t] + Entering(s'.threads[t]) == multiset(s.requests)[t] + Entering(s.threads[t]) + LockCall(s, act, t)
  {
    hide Inv, ThreadStep;
    if act.Moves? && act.t < |s.threads| { MoveRequests(s, act.t, act.wait, t); }
  }

  /** In every run, each call of `lock` requests the mutex exactly once. */
  lemma {:induction false} EveryLockRequests(s: State, acts: seq<Action>, t: Tid)
    requires Initial(s) && t < |s.threads|
    ensures var r := Run(s, acts);
            t < |r.threads| && LockCalls(s, acts, t) == multiset(r.requests)[t] + Entering(r.threads[t])
  {
    hide Inv, Step, LockCall;
    if acts != [] {
      EveryLockRequests(s, acts[..|acts| - 1], t);
      RunKeepsInv(s, acts[..|acts| - 1]);
      StepRequests(Run(s, acts[..|acts| - 1]), acts[|acts| - 1], t);
    }
  }

  predicate Keeps(th: Thread, n: Node)
  {
    th == Fresh(n) || (th.Hand? && th.cur == n) || th == FreeNode(n) || th == Parked(n)
  }

  /** A node outside the pool is in the queue or kept by the thread that allocated it or left the queue with it. */
  predicate NodeOk(m: Nodes, threads: seq<Thread>, n: Node)
    requires n in m.place
  {
    match m.place[n]
    case With(t) => t < |threads| && Keeps(threads[t], n)
    case InQueue(ticket) => 0 <= ticket - m.a.left < |m.a.entries| && m.a.entries[ticket - m.a.left].node == n
  }

  predicate NodesOk(m: Nodes, threads: seq<Thread>)
  {
    forall n :: n in m.place ==> NodeOk(m, threads, n)
  }

  /** A thread may change freely while it keeps the same node. */
  lemma SameNodes(m: Nodes, m': Nodes, threads: seq<Thread>, t: Tid, th: Thread)
    requires NodesOk(m, threads) && t < |threads| && m'.place == m.place && m'.a == m.a
    requires forall n :: Keeps(threads[t], n) ==> Keeps(th, n)
    ensures NodesOk(m', threads[t := th])
  {
    forall n | n in m.place ensures NodeOk(m', threads[t := th], n) { assert NodeOk(m, threads, n); }
  }

  lemma LockNodes(s: State, t: Tid, cur: Node)
    requires Inv(s) && NodesOk(s.m, s.threads) && t < |s.threads| && s.threads[t] == Fresh(cur)
    ensures NodesOk(LockStep(s, t, cur).m, LockStep(s, t, cur).threads)
  {
    hide EntriesInv, CvInv, HeadInv, TokenInv, LogInv;
    var s' := LockStep(s, t, cur);
    assert ThreadInv(s.m, s.requests, Granted(s), s.token, t, s.threads[t]);
    assert !Contains(s.m.a.entries, cur);
    hide PlaceInv, ThreadsInv, Contains;
    forall n | n in s'.m.place ensures NodeOk(s'.m, s'.threads, n) { assert n != cur ==> NodeOk(s.m, s.threads, n); }
  }

  lemma LeaveNodes(m: Nodes, threads: seq<Thread>, t: Tid, th: Thread)
    requires NodesOk(m, threads) && t < |threads| && (|m.a.entries| == 1 || SuccessorPublished(m.a)) && PlaceInv(m)
    requires (forall n :: !Keeps(threads[t], n)) && Keeps(th, Head(m))
    ensures NodesOk(Leave(m, t), threads[t := th])
  {
    LeaveEffect(m, t);
    hide Leave;
    assert m.place[m.a.entries[0].node] == InQueue(m.a.left + 0);
    forall n | n in Leave(m, t).place ensures NodeOk(Leave(m, t), threads[t := th], n) {
      assert n != Head(m) ==> NodeOk(m, threads, n);
    }
  }

  lemma MoveNodes(s: State, t: Tid, wait: bool)
    requires Inv(s) && NodesOk(s.m, s.threads) && t < |s.threads|
    ensures NodesOk(ThreadStep(s, t, wait).m, ThreadStep(s, t, wait).threads)
  {
    hide Inv, NodesOk, Leave, QueueDoes, LockStep;
    var s' := ThreadStep(s, t, wait);
    match s.threads[t]
    case Fresh(cur) => LockNodes(s, t, cur);
    case Linking(_, _, ticket) => LinkNodes(s, t, wait);
    case TryUnlock(w) =>
      if |s.m.a.entries| == 1 {
        PlacesOf(s);
        LeaveNodes(s.m, s.threads, t, s'.threads[t]);
      } else {
        SameNodes(s.m, s'.m, s.threads, t, s'.threads[t]);
      }
    case Follow(w) =>
      if SuccessorPublished(s.m.a) {
        PlacesOf(s);
        LeaveNodes(s.m, s.threads, t, s'.threads[t]);
      }
    case Hand(cur, w) =>
      HandInState(s, t);
      SameNodes(s.m, s'.m, s.threads, t, After(w, cur));
      SameNodes(s'.m, s'.m, s.threads[t := After(w, cur)], s.m.sth[cur], Critical);
    case FreeNode(cur) => FreeNodes(s.m, s.threads, t, cur);
    case _ => SameNodes(s.m, s'.m, s.threads, t, s'.threads[t]);
  }

  lemma PlacesOf(s: State)
    requires Inv(s)
    ensures PlaceInv(s.m)
  {
  }

  lemma LinkNodes(s: State, t: Tid, wait: bool)
    requires Inv(s) && NodesOk(s.m, s.threads) && t < |s.threads| && s.threads[t].Linking?
    ensures NodesOk(ThreadStep(s, t, wait).m, ThreadStep(s, t, wait).threads)
  {
    hide CvInv, HeadInv, TokenInv, LogInv, PlaceInv;
    var s' := ThreadStep(s, t, wait);
    forall n | n in s'.m.place ensures NodeOk(s'.m, s'.threads, n) { assert NodeOk(s.m, s.threads, n); }
  }

  lemma FreeNodes(m: Nodes, threads: seq<Thread>, t: Tid, cur: Node)
    requires NodesOk(m, threads) && t < |threads| && threads[t] == FreeNode(cur)
    ensures NodesOk(m.(place := m.place - {cur}), threads[t := Out])
  {
    var m' := m.(place := m.place - {cur});
    forall n | n in m'.place ensures NodeOk(m', threads[t := Out], n) { assert NodeOk(m, threads, n); }
  }

  lemma NodesKept(s: State, act: Action)
    requires Inv(s) && NodesOk(s.m, s.threads)
    ensures NodesOk(Step(s, act).m, Step(s, act).threads)
  {
    hide Inv, NodesOk, ThreadStep;
    match act
    case Moves(t, wait) => if t < |s.threads| { MoveNodes(s, t, wait); }
    case Allocate(t, n) => if t < |s.threads| && s.threads[t] == Out && n !in s.m.place { AllocateNodes(s.m, s.threads, t, n); }
    case Resume(t) =>
      if t < |s.threads| && s.threads[t].Parked? { SameNodes(s.m, s.m, s.threads, t, FreeNode(s.threads[t].cur)); }
    case CvWait(t) => if t < |s.threads| && s.threads[t] == Critical { SameNodes(s.m, s.m, s.threads, t, CheckUnlock); }
    case Notify(t) =>
      if Step(s, act) != s {
        var u := s.head.value;
        SameNodes(s.m, s.m, s.threads, u, FreeNode(s.threads[u].cur));
        SameNodes(s.m, s.m, s.threads[u := FreeNode(s.threads[u].cur)], t, Notified(u));
      }
  }

  lemma AllocateNodes(m: Nodes, threads: seq<Thread>, t: Tid, n: Node)
    requires NodesOk(m, threads) && t < |threads| && threads[t] == Out && n !in m.place
    ensures NodesOk(m.(place := m.place[n := With(t)]), threads[t := Fresh(n)])
  {
    var m' := m.(place := m.place[n := With(t)]);
    forall k | k in m'.place ensures NodeOk(m', threads[t := Fresh(n)], k) { assert k != n ==> NodeOk(m, threads, k); }
  }

  /** In every run, a node outside the pool is in the queue, or a thread still has to put it there, to resume a
      successor through it or to free it. So a thread that is outside has returned all its nodes. */
  lemma {:induction false} NodesComeBack(s: State, acts: seq<Action>)
    requires Initial(s)
    ensures NodesOk(Run(s, acts).m, Run(s, acts).threads)
  {
    hide Inv, Step;
    if acts != [] {
      NodesComeBack(s, acts[..|acts| - 1]);
      RunKeepsInv(s, acts[..|acts| - 1]);
      NodesKept(Run(s, acts[..|acts| - 1]), acts[|acts| - 1]);
    }
  }

  // ----- Wait entries end

  /** No thread that is inside has a wait entry on its stack. */
  predicate FramesOk(threads: seq<Thread>, frames: map<Tid, Option<Tid>>)
  {
    forall t :: t in frames && t < |threads| ==> threads[t] != Critical && !threads[t].Notified?
  }

  lemma FramesKept(s: State, act: Action)
    requires Inv(s) && FramesOk(s.threads, s.frames)
    ensures FramesOk(Step(s, act).threads, Step(s, act).frames)
  {
    hide Inv, Leave, QueueDoes;
    if act.Moves? && act.t < |s.threads| && s.threads[act.t].Hand? { HandInState(s, act.t); }
  }

  /** In every run the wait entry of a thread is gone when `wait` returns to it: a thread that is inside has none. */
  lemma {:induction false} WaitEntriesEnd(s: State, acts: seq<Action>)
    requires Initial(s)
    ensures FramesOk(Run(s, acts).threads, Run(s, acts).frames)
  {
    hide Inv, Step;
    if acts != [] {
      WaitEntriesEnd(s, acts[..|acts| - 1]);
      RunKeepsInv(s, acts[..|acts| - 1]);
      FramesKept(Run(s, acts[..|acts| - 1]), acts[|acts| - 1]);
    }
  }
}
