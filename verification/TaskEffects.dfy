/** What each operation on tasks does to the places where continuations are, and that none of them stops in
    the middle. */
module TaskEffects {
  import opened Continuations
  import opened TaskSwitch
  import opened JoinExit

  ghost predicate SameBut(l: Lists, l': Lists, ps: set<Place>)
  {
    forall p :: p !in ps ==> At(l', p) == At(l, p)
  }

  /** x runs on w instead of the task that ran, which is saved in q; x came from p, where nothing is left. */
  ghost predicate Switched(l: Lists, l': Lists, w: Worker, x: Task, p: Place, q: Place)
  {
    && At(l, Running(w)) == [Cur(l, w)] && At(l, p) == [x]
    && At(l', Running(w)) == [x] && At(l', p) == [] && At(l', q) == At(l, q) + [Cur(l, w)]
    && SameBut(l, l', {Running(w), p, q})
  }

  lemma SwitchDoes(c: Pos, w: Worker, p: Place, q: Place)
    requires Switchable(c.l, w, p, q) && |At(c.l, p)| == 1
    ensures Switched(c.l, Switch(c, w, p, q).l, w, At(c.l, p)[0], p, q)
  {
    hide Switch;
    SwitchAt(c, w, p, q, Running(w));
    SwitchAt(c, w, p, q, p);
    SwitchAt(c, w, p, q, q);
    forall r | r !in {Running(w), p, q} ensures At(Switch(c, w, p, q).l, r) == At(c.l, r) { SwitchAt(c, w, p, q, r); }
  }

  lemma MvDoes(c: Pos, p: Place, q: Place)
    requires p != q && At(c.l, p) != [] && Vacant(c.l, q)
    ensures var l, l', x := c.l, Mv(c, p, q).l, Last(At(c.l, p));
            At(l, p) == At(l', p) + [x] && At(l', q) == At(l, q) + [x] && SameBut(l, l', {p, q})
  {
    hide Mv;
    MvAt(c, p, q, p);
    MvAt(c, p, q, q);
    forall r | r !in {p, q} ensures At(Mv(c, p, q).l, r) == At(c.l, r) { MvAt(c, p, q, r); }
  }

  lemma MvFirstDoes(c: Pos, p: Place, q: Place)
    requires p != q && At(c.l, p) != [] && Vacant(c.l, q)
    ensures var l, l', x := c.l, MvFirst(c, p, q).l, At(c.l, p)[0];
            At(l, p) == [x] + At(l', p) && At(l', q) == At(l, q) + [x] && SameBut(l, l', {p, q})
  {
    PutInVacant(c.l[p := At(c.l, p)[1..]], q, At(c.l, p)[0]);
  }

  /** What is known where a step is taken. */
  lemma Here(n: nat, s: Sys, a: Action)
    requires Inv(n, s) && Enabled(n, s, a)
    ensures a.w < n && WorkerOk(n, s.c.l, a.w, PcOf(s, a.w)) && SlotsFree(s, a) && Single(s.c.l)
  {
    hide Inv, Enabled, SlotsFree, WorkerOk, Placed, LocksOk, GoneOk, ClaimsOk, RootsOk, Shaped;
    NothingOverwritten(n, s, a);
    InvShaped(n, s);
    WorkerNumber(n, s, a);
    WorkerIn(n, s, a.w);
  }

  lemma OnePointer(l: Lists, p: Place)
    requires Single(l) && !Many(p) && At(l, p) != []
    ensures |At(l, p)| == 1
  {
  }

  // ----- Creating tasks

  /** `fork_child_first`: the new task runs, its parent is on top of the deque. */
  lemma ForkRunsChild(n: nat, s: Sys, w: Worker, t: Task)
    requires Inv(n, s) && Enabled(n, s, Fork(w, t))
    ensures var l, l' := s.c.l, Step(n, s, Fork(w, t)).c.l;
            && At(l, Running(w)) == [Cur(l, w)] && t !in s.c.at
            && At(l', Running(w)) == [t] && At(l', Deque(w)) == At(l, Deque(w)) + [Cur(l, w)]
            && SameBut(l, l', {Running(w), Deque(w)})
    ensures PcOf(Step(n, s, Fork(w, t)), w) == Go
  {
    hide Inv, Mv, PcAfter, LockAfter, StageAfter;
    Here(n, s, Fork(w, t));
    var d := Mv(s.c, Running(w), Deque(w));
    MvDoes(s.c, Running(w), Deque(w));
    PcAfterStep(n, s, Fork(w, t));
    ForkPc(s, w, t);
  }

  lemma ForkPc(s: Sys, w: Worker, t: Task)
    ensures PcAfter(s, Fork(w, t)) == Go
  {
  }

  /** `fork_parent_first`: the new task is on top of the deque and the parent goes on. */
  lemma SpawnQueuesChild(n: nat, s: Sys, w: Worker, t: Task)
    requires Enabled(n, s, Spawn(w, t))
    ensures var l, l' := s.c.l, Step(n, s, Spawn(w, t)).c.l;
            t !in s.c.at && At(l', Deque(w)) == At(l, Deque(w)) + [t] && SameBut(l, l', {Deque(w)})
  {
    hide PcAfter, LockAfter, StageAfter;
  }

  // ----- Moving continuations

  /** `notify`: the object is empty and the thread that it held is on top of the notifier's deque. */
  lemma NotifyQueues(n: nat, s: Sys, w: Worker, i: nat)
    requires Inv(n, s) && Enabled(n, s, Notify(w, i))
    ensures var l, l' := s.c.l, Step(n, s, Notify(w, i)).c.l;
            && |At(l, Suspended(i))| == 1 && At(l', Suspended(i)) == []
            && At(l', Deque(w)) == At(l, Deque(w)) + At(l, Suspended(i)) && SameBut(l, l', {Suspended(i), Deque(w)})
    ensures PcOf(Step(n, s, Notify(w, i)), w) == PcOf(s, w)
  {
    hide Inv, Mv, PcAfter, LockAfter, StageAfter;
    Here(n, s, Notify(w, i));
    OnePointer(s.c.l, Suspended(i));
    var d := Mv(s.c, Suspended(i), Deque(w));
    MvDoes(s.c, Suspended(i), Deque(w));
    PcAfterStep(n, s, Notify(w, i));
    NotifyPc(s, w, i);
  }

  lemma NotifyPc(s: Sys, w: Worker, i: nat)
    ensures PcAfter(s, Notify(w, i)) == PcOf(s, w)
  {
  }

  /** Popping takes the top of the worker's deque, or its root if the deque is empty. */
  lemma PopTakes(n: nat, s: Sys, a: Action)
    requires Inv(n, s) && Enabled(n, s, a) && (a.Yield? || a.JoinPop? || a.WaitPop?)
    ensures var l, l', w := s.c.l, Step(n, s, a).c.l, a.w;
            && At(l, Hand(w)) == [] && At(l', Hand(w)) == [NextUp(l, w)]
            && var q := if At(l, Deque(w)) != [] then Deque(w) else Root(w);
            At(l, q) == At(l', q) + [NextUp(l, w)] && SameBut(l, l', {Hand(w), q})
  {
    hide Inv, Mv, PcAfter, LockAfter, StageAfter, Sound, RootsOk, LocksOk, GoneOk, ClaimsOk, Shaped, Moves;
    Here(n, s, a);
    InvShaped(n, s);
    var c, w := s.c, a.w;
    PopFinds(n, c, w);
    var q := if At(c.l, Deque(w)) != [] then Deque(w) else Root(w);
    MvDoes(c, q, Hand(w));
    PopIs(s, a);
  }

  lemma PopIs(s: Sys, a: Action)
    requires a.Yield? || a.JoinPop? || a.WaitPop?
    ensures Moves(s, a) == Mv(s.c, if At(s.c.l, Deque(a.w)) != [] then Deque(a.w) else Root(a.w), Hand(a.w))
  {
    hide Mv;
  }

  /** An exiting task takes its joiner if there is one, and else what a pop takes. */
  lemma ExitTakes(n: nat, s: Sys, w: Worker)
    requires Inv(n, s) && Enabled(n, s, ExitPop(w))
    ensures var l, l', j := s.c.l, Step(n, s, ExitPop(w)).c.l, Joiner(Cur(s.c.l, w));
            && At(l, Hand(w)) == []
            && var q := if At(l, j) != [] then j else if At(l, Deque(w)) != [] then Deque(w) else Root(w);
            At(l, q) != [] && At(l', Hand(w)) == [Last(At(l, q))] && At(l, q) == At(l', q) + At(l', Hand(w)) && SameBut(l, l', {Hand(w), q})
  {
    hide Inv, Mv, PcAfter, LockAfter, StageAfter, Sound, RootsOk, LocksOk, GoneOk, ClaimsOk, Shaped, Moves;
    Here(n, s, ExitPop(w));
    InvShaped(n, s);
    var c, j := s.c, Joiner(Cur(s.c.l, w));
    assert Cur(c.l, w) >= n;
    PopFinds(n, c, w);
    MvDoes(c, if At(c.l, j) != [] then j else if At(c.l, Deque(w)) != [] then Deque(w) else Root(w), Hand(w));
    ExitPopIs(s, w);
  }

  lemma ExitPopIs(s: Sys, w: Worker)
    ensures var l, j := s.c.l, Joiner(Cur(s.c.l, w));
            Moves(s, ExitPop(w)) == Mv(s.c, if At(l, j) != [] then j else if At(l, Deque(w)) != [] then Deque(w) else Root(w), Hand(w))
  {
    hide Mv;
  }

  /** The scheduler loop takes the top of its own deque, or steals the bottom of another worker's. */
  lemma SchedulerTakes(n: nat, s: Sys, a: Action)
    requires Inv(n, s) && Enabled(n, s, a) && (a.RootPop? || a.Steal?)
    ensures var l, l', w := s.c.l, Step(n, s, a).c.l, a.w;
            && At(l, Hand(w)) == []
            && (a.RootPop? ==> At(l, Deque(w)) == At(l', Deque(w)) + At(l', Hand(w)) && SameBut(l, l', {Hand(w), Deque(w)}))
            && (a.Steal? ==> At(l, Deque(a.u)) == At(l', Hand(w)) + At(l', Deque(a.u)) && SameBut(l, l', {Hand(w), Deque(a.u)}))
            && |At(l', Hand(w))| == 1
  {
    hide Inv, PcAfter, LockAfter, StageAfter;
    Here(n, s, a);
    hide Mv, MvFirst;
    if a.RootPop? { MvDoes(s.c, Deque(a.w), Hand(a.w)); } else { MvFirstDoes(s.c, Deque(a.u), Hand(a.w)); }
  }

  // ----- Switching

  /** Where a switch takes the task that is to run, and where it saves the one that ran. */
  function Source(a: Action): Place
  {
    match a
    case Enter(_, k) => Suspended(k)
    case Swap(_, _, k) => Suspended(k)
    case SwapWith(_, _, k) => Suspended(k)
    case _ => Hand(a.w)
  }

  function Target(s: Sys, a: Action): Place
  {
    match a
    case Execute(w) => Root(w)
    case JoinSwitch(w) => Prev(w)
    case ExitSwitch(_) => Gone
    case WaitSwitch(w) => if PcOf(s, w).ForWait? then Suspended(PcOf(s, w).i) else Gone
    case Swap(_, i, _) => Suspended(i)
    case SwapWith(_, i, _) => Suspended(i)
    case _ => Deque(a.w)
  }

  /** Every switch: a yield and `enter` save the running task on top of the deque, the scheduler loop in its root
      slot, a join in the callback's variable, an exit among those gone, a wait and a swap in the object; and
      the popped, stolen or suspended task runs. */
  lemma SwitchesAre(n: nat, s: Sys, a: Action)
    requires Inv(n, s) && Enabled(n, s, a)
    requires a.YieldSwitch? || a.Execute? || a.JoinSwitch? || a.ExitSwitch? || a.WaitSwitch? || a.Enter? || a.Swap? || a.SwapWith?
    ensures |At(s.c.l, Source(a))| == 1
    ensures Switched(s.c.l, Step(n, s, a).c.l, a.w, At(s.c.l, Source(a))[0], Source(a), Target(s, a))
  {
    hide Inv, Switch, PcAfter, LockAfter, StageAfter, Switched, Unused;
    Here(n, s, a);
    if Source(a).Suspended? { OnePointer(s.c.l, Source(a)); }
    assert Switchable(s.c.l, a.w, Source(a), Target(s, a));
    SwitchDoes(s.c, a.w, Source(a), Target(s, a));
    assert Moves(s, a) == Switch(s.c, a.w, Source(a), Target(s, a));
  }

  /** The callback of a join stores the suspended joiner in the task's joiner slot and releases the lock. */
  lemma OnJoinStores(n: nat, s: Sys, w: Worker)
    requires Inv(n, s) && Enabled(n, s, OnJoin(w))
    ensures var l, l', t := s.c.l, Step(n, s, OnJoin(w)).c.l, PcOf(s, w).t;
            && |At(l, Prev(w))| == 1 && At(l', Prev(w)) == [] && At(l', Joiner(t)) == At(l, Prev(w))
            && SameBut(l, l', {Prev(w), Joiner(t)})
    ensures var s' := Step(n, s, OnJoin(w)); PcOf(s', w) == Go && PcOf(s, w).t !in s'.lock
  {
    hide Inv, Mv, StageAfter;
    Here(n, s, OnJoin(w));
    var c, t := s.c, PcOf(s, w).t;
    var d := Mv(c, Prev(w), Joiner(t));
    MvDoes(c, Prev(w), Joiner(t));
  }

  // ----- Freeing

  predicate FreedDone(s: Sys)
  {
    forall t :: t in s.freed ==> t in s.stage && s.stage[t] == Done
  }

  lemma FreedDoneKept(n: nat, s: Sys, a: Action)
    requires Inv(n, s) && FreedDone(s) && Enabled(n, s, a)
    ensures FreedDone(Step(n, s, a))
  {
    hide Base, JoinersOk, Moves, PcAfter, LockAfter, StageAfter, Enabled, Calls;
    var s' := Step(n, s, a);
    forall t | t in s'.freed ensures t in s'.stage && s'.stage[t] == Done {
      StageOfCall(n, s, a);
      if t in s.freed {
        WorkerNumber(n, s, a);
        StageKept(n, s, a, t);
      }
    }
  }

  lemma {:induction false} FreedStaysDone(n: nat, acts: seq<Action>)
    ensures FreedDone(Run(n, acts))
    decreases |acts|
  {
    hide Inv, Enabled;
    var m := |acts|;
    if m > 0 {
      FreedStaysDone(n, acts[..m - 1]);
      RunKeepsInv(n, acts[..m - 1]);
      var s := Run(n, acts[..m - 1]);
      if Enabled(n, s, acts[m - 1]) { FreedDoneKept(n, s, acts[m - 1]); }
    }
  }

  /** A join that finds its task finished frees it, and nobody has freed it before. */
  lemma FreedOnce(n: nat, acts: seq<Action>, w: Worker)
    requires Enabled(n, Run(n, acts), JoinFree(w))
    ensures var s, s' := Run(n, acts), Step(n, Run(n, acts), JoinFree(w)); var t := PcOf(s, w).t;
            && PcOf(s, w).JoinFound? && t !in s.freed && s'.freed == s.freed + {t} && PcOf(s', w) == Go
            && s'.stage == s.stage[t := Done] && s'.c == s.c
  {
    hide Run, Inv;
    var s := Run(n, acts);
    RunKeepsInv(n, acts);
    FreedStaysDone(n, acts);
    assert PcOf(s, w).t in Calls(PcOf(s, w));
    InCallOf(n, s, w, PcOf(s, w).t);
  }

  // ----- No operation stops in the middle

  /** The step that a worker in the middle of an operation can always take. */
  function NextStep(s: Sys, w: Worker): Action
  {
    match PcOf(s, w)
    case Go => Yield(w)
    case ForYield => YieldSwitch(w)
    case ForExecute => Execute(w)
    case JoinLocked(t) => if t in s.finished then JoinFinished(w) else JoinPop(w)
    case ForJoin(_) => JoinSwitch(w)
    case JoinCalled(_) => OnJoin(w)
    case JoinFound(_) => JoinFree(w)
    case ExitLocked => ExitPop(w)
    case ForExit => ExitSwitch(w)
    case ExitCalled(_) => OnExit(w)
    case ForWait(_, _, _) => WaitSwitch(w)
    case WaitCalled(_, _, _) => WaitYes(w)
    case PuttingBack(_, _) => PutBack(w)
    case SwapCalled(_, _, _, _) => SwapYes(w)
  }

  function Remaining(pc: Pc): nat
  {
    match pc
    case Go => 0
    case ForYield => 1
    case ForExecute => 1
    case JoinLocked(_) => 3
    case ForJoin(_) => 2
    case JoinCalled(_) => 1
    case JoinFound(_) => 1
    case ExitLocked => 3
    case ForExit => 2
    case ExitCalled(_) => 1
    case ForWait(_, _, _) => 3
    case WaitCalled(_, _, _) => 2
    case PuttingBack(_, _) => 1
    case SwapCalled(_, _, _, _) => 2
  }

  /** A worker in the middle of an operation always has a step to take, and every step of its own brings it
      closer to the end, except that the user's function of a conditional suspend may notify. */
  lemma OperationsGoOn(n: nat, s: Sys, w: Worker, a: Action)
    requires w < n && PcOf(s, w) != Go
    ensures Enabled(n, s, NextStep(s, w)) && NextStep(s, w).w == w
    ensures Enabled(n, s, a) && a.w == w && !a.Notify? ==> Remaining(PcOf(Step(n, s, a), w)) < Remaining(PcOf(s, w))
    ensures a.w != w ==> PcOf(Step(n, s, a), w) == PcOf(s, w)
  {
    hide Moves, LockAfter, StageAfter, Cur, At, PcAfter, Enabled, Remaining;
    CanGoOn(n, s, w);
    if a.w == w { GoesOn(n, s, a); }
  }

  lemma CanGoOn(n: nat, s: Sys, w: Worker)
    requires w < n && PcOf(s, w) != Go
    ensures Enabled(n, s, NextStep(s, w)) && NextStep(s, w).w == w
  {
    hide Cur, At, Unused;
  }

  lemma GoesOn(n: nat, s: Sys, a: Action)
    requires PcOf(s, a.w) != Go
    ensures Enabled(n, s, a) && !a.Notify? ==> Remaining(PcOf(Step(n, s, a), a.w)) < Remaining(PcOf(s, a.w))
  {
    hide Moves, LockAfter, StageAfter, Cur, At, Unused, NextUp, Last;
  }
}
