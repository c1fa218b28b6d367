/** Joining against exiting: the joiner continues once, and only after the child left its stack. */
module JoinExit {
  import opened Continuations
  import opened TaskSwitch

  /** The task that a join call in progress is about, until the joiner is suspended or returns. */
  function Calls(pc: Pc): set<Task>
  {
    match pc
    case JoinLocked(t) => {t}
    case ForJoin(t) => {t}
    case JoinFound(t) => {t}
    case _ => {}
  }

  predicate CallsOk(n: nat, s: Sys)
  {
    && (forall u, t :: 0 <= u < n && t in Calls(PcOf(s, u)) ==> t in s.stage && s.stage[t] == InCall(u))
    && (forall t :: t in s.stage && s.stage[t].InCall? ==> s.stage[t].w < n && t in Calls(PcOf(s, s.stage[t].w)))
  }

  /** Where the suspended joiner of t is: in the callback that stores it, in t's joiner slot, or in the
      hand of the worker on which t is exiting. */
  predicate BlockedAt(n: nat, s: Sys, t: Task, j: Task)
  {
    && j in s.c.at
    && var p := s.c.at[j];
    || p == Joiner(t)
    || (p.Prev? && p.w < n && PcOf(s, p.w) == JoinCalled(t))
    || (p.Hand? && p.w < n && PcOf(s, p.w) == ForExit && Cur(s.c.l, p.w) == t)
  }

  predicate IsBlocked(s: Sys, t: Task, j: Task)
  {
    t in s.stage && s.stage[t] == Blocked(j)
  }

  ghost predicate JoinersOk(n: nat, s: Sys)
  {
    && (forall t, j :: IsBlocked(s, t, j) ==> BlockedAt(n, s, t, j))
    && (forall j :: j in s.c.at && s.c.at[j].Joiner? ==> IsBlocked(s, s.c.at[j].t, j) && !IsGone(s, s.c.at[j].t))
    && (forall u :: 0 <= u < n ==> PcJoins(s, u))
    && (forall t :: t in s.stage && s.stage[t] == Done ==> IsGone(s, t))
    && s.freed <= s.finished
  }

  /** What a worker in the middle of a join or an exit relies on. */
  predicate PcJoins(s: Sys, u: Worker)
  {
    var pc := PcOf(s, u);
    && (pc.JoinCalled? ==> |At(s.c.l, Prev(u))| == 1 && IsBlocked(s, pc.t, At(s.c.l, Prev(u))[0]) && !IsGone(s, pc.t))
    && (pc.ForJoin? ==> !IsGone(s, pc.t))
    && (pc.ForExit? ==> At(s.c.l, Joiner(Cur(s.c.l, u))) == [])
    && (pc.JoinFound? ==> pc.t in s.finished)
  }

  predicate Base(n: nat, s: Sys)
  {
    Shaped(n, s) && LocksOk(n, s) && GoneOk(n, s) && ClaimsOk(n, s)
  }

  // ----- How stages change

  lemma StageKept(n: nat, s: Sys, a: Action, t: Task)
    requires Enabled(n, s, a)
    requires !(a.JoinLock? && a.t == t) && !((a.JoinSwitch? || a.JoinFree?) && t in Calls(PcOf(s, a.w)))
    requires !(a.ExitSwitch? && Cur(s.c.l, a.w) == t && t in s.stage && s.stage[t].Blocked?)
    ensures t in Step(n, s, a).stage <==> t in s.stage
    ensures t in s.stage ==> Step(n, s, a).stage[t] == s.stage[t]
  {
    hide Moves, PcAfter, LockAfter;
  }

  lemma StageOfCall(n: nat, s: Sys, a: Action)
    requires Enabled(n, s, a)
    ensures a.JoinLock? ==> a.t !in s.stage && Step(n, s, a).stage == s.stage[a.t := InCall(a.w)]
    ensures a.JoinSwitch? ==> PcOf(s, a.w).ForJoin? && Step(n, s, a).stage == s.stage[PcOf(s, a.w).t := Blocked(Cur(s.c.l, a.w))]
    ensures a.JoinFree? ==> PcOf(s, a.w).JoinFound? && Step(n, s, a).stage == s.stage[PcOf(s, a.w).t := Done]
  {
    hide Moves, PcAfter, LockAfter;
  }

  lemma CallAfter(n: nat, s: Sys, a: Action)
    requires Enabled(n, s, a)
    ensures Calls(PcAfter(s, a)) == if a.JoinLock? then {a.t} else if a.JoinSwitch? || a.JoinFree? then {} else Calls(PcOf(s, a.w))
    ensures a.JoinLock? ==> Calls(PcOf(s, a.w)) == {}
  {
    hide Cur, At;
  }

  lemma PcAfterStep(n: nat, s: Sys, a: Action)
    requires Enabled(n, s, a)
    ensures PcOf(Step(n, s, a), a.w) == PcAfter(s, a)
  {
    hide Moves, PcAfter, LockAfter, StageAfter;
  }

  lemma OneCaller(n: nat, s: Sys, u: Worker, w: Worker, t: Task)
    requires CallsOk(n, s) && u < n && w < n && u != w && t in Calls(PcOf(s, u))
    ensures t !in Calls(PcOf(s, w))
  {
    assert s.stage[t] == InCall(u);
  }

  lemma CallsKept(n: nat, s: Sys, a: Action)
    requires Base(n, s) && CallsOk(n, s) && Enabled(n, s, a)
    ensures CallsOk(n, Step(n, s, a))
  {
    hide Step, Enabled, Base, Calls, PcAfter;
    var s', w := Step(n, s, a), a.w;
    WorkerNumber(n, s, a);
    CallAfter(n, s, a);
    PcAfterStep(n, s, a);
    StageOfCall(n, s, a);
    forall u, t | 0 <= u < n && t in Calls(PcOf(s', u)) ensures t in s'.stage && s'.stage[t] == InCall(u) {
      if u != w {
        OtherCarries(n, s, a, u);
        assert t in Calls(PcOf(s, u));
        OneCaller(n, s, u, w, t);
        StageKept(n, s, a, t);
      } else if !a.JoinLock? {
        assert t in Calls(PcOf(s, w));
        StageKept(n, s, a, t);
      }
    }
    forall t | t in s'.stage && s'.stage[t].InCall? ensures s'.stage[t].w < n && t in Calls(PcOf(s', s'.stage[t].w)) {
      if !(a.JoinLock? && a.t == t) {
        WasInCall(n, s, a, t);
        var v := s.stage[t].w;
        assert v < n && t in Calls(PcOf(s, v));
        if v != w { OtherCarries(n, s, a, v); }
      }
    }
  }

  lemma WasInCall(n: nat, s: Sys, a: Action, t: Task)
    requires Enabled(n, s, a) && t in Step(n, s, a).stage && Step(n, s, a).stage[t].InCall? && !(a.JoinLock? && a.t == t)
    ensures t in s.stage && s.stage[t] == Step(n, s, a).stage[t]
    ensures (a.JoinSwitch? || a.JoinFree?) ==> t !in Calls(PcOf(s, a.w))
  {
    hide Moves, PcAfter, LockAfter;
  }

  // ----- How joiners move

  lemma JoinMoves(n: nat, s: Sys, w: Worker)
    requires Shaped(n, s) && Enabled(n, s, JoinSwitch(w))
    ensures var d, x := Moves(s, JoinSwitch(w)), Cur(s.c.l, w);
            x in d.at && d.at[x] == Prev(w) && At(d.l, Prev(w)) == [x]
  {
    hide Placed, RootsOk, Switch;
    var c := s.c;
    assert WorkerOk(n, c.l, w, PcOf(s, w));
    SwitchAt(c, w, Hand(w), Prev(w), Prev(w));
    var x, h := Cur(c.l, w), At(c.l, Hand(w))[0];
    InPlace(c.l, c.at, x, Running(w));
    InPlace(c.l, c.at, h, Hand(w));
  }

  lemma OnJoinMoves(n: nat, s: Sys, w: Worker)
    requires Shaped(n, s) && Enabled(n, s, OnJoin(w))
    ensures PcOf(s, w).JoinCalled? && |At(s.c.l, Prev(w))| == 1
    ensures Moves(s, OnJoin(w)).at == s.c.at[At(s.c.l, Prev(w))[0] := Joiner(PcOf(s, w).t)]
  {
    hide Sound, RootsOk;
    assert WorkerOk(n, s.c.l, w, PcOf(s, w));
    hide Shift;
  }

  lemma ExitPopMoves(n: nat, s: Sys, w: Worker)
    requires Shaped(n, s) && Enabled(n, s, ExitPop(w))
    ensures var d, p := Moves(s, ExitPop(w)), Joiner(Cur(s.c.l, w));
            if At(s.c.l, p) == [] then At(d.l, p) == []
            else d.at == s.c.at[Last(At(s.c.l, p)) := Hand(w)] && At(d.l, p) == At(s.c.l, p)[..|At(s.c.l, p)| - 1]
  {
    hide Sound, RootsOk, PopNext, Mv;
    assert WorkerOk(n, s.c.l, w, PcOf(s, w));
    hide Shaped;
    var p := Joiner(Cur(s.c.l, w));
    PopOther(s.c, w, p);
    if At(s.c.l, p) != [] {
      MvAt(s.c, p, Hand(w), p);
      MvAtMap(s.c, p, Hand(w));
    }
  }

  /** A joiner slot holds at most the one blocked joiner. */
  lemma OneJoiner(n: nat, s: Sys, t: Task)
    requires Shaped(n, s) && JoinersOk(n, s)
    ensures var l := At(s.c.l, Joiner(t)); l == [] || (|l| == 1 && IsBlocked(s, t, l[0]) && !IsGone(s, t))
  {
    hide Placed, RootsOk, WorkerOk, BlockedAt, PcJoins;
    var l := At(s.c.l, Joiner(t));
    forall i | 0 <= i < |l| ensures IsBlocked(s, t, l[i]) && !IsGone(s, t) { InPlace(s.c.l, s.c.at, l[i], Joiner(t)); }
    if |l| > 1 { TwoDiffer(s.c, Joiner(t)); }
  }

  lemma HandOf(n: nat, s: Sys, j: Task, u: Worker)
    requires Shaped(n, s) && u < n && j in s.c.at && s.c.at[j] == Hand(u)
    ensures At(s.c.l, Hand(u)) == [j]
  {
    hide Placed, RootsOk;
    InPlace(s.c.l, s.c.at, j, Hand(u));
    assert WorkerOk(n, s.c.l, u, PcOf(s, u));
  }

  lemma PrevOf(n: nat, s: Sys, j: Task, u: Worker)
    requires Shaped(n, s) && u < n && j in s.c.at && s.c.at[j] == Prev(u)
    ensures At(s.c.l, Prev(u)) == [j]
  {
    hide Placed, RootsOk;
    InPlace(s.c.l, s.c.at, j, Prev(u));
    assert WorkerOk(n, s.c.l, u, PcOf(s, u));
  }

  // ----- Blocked joiners stay blocked until the exit

  lemma OnlyOnJoin(n: nat, s: Sys, a: Action)
    requires Enabled(n, s, a) && PcOf(s, a.w).JoinCalled?
    ensures a.OnJoin?
  {
  }

  lemma OnlyExitSwitch(n: nat, s: Sys, a: Action)
    requires Enabled(n, s, a) && PcOf(s, a.w).ForExit?
    ensures a.ExitSwitch?
  {
  }

  /** The exit switch to the joiner completes the join. */
  lemma ExitResumes(n: nat, s: Sys, w: Worker, j: Task)
    requires Enabled(n, s, ExitSwitch(w)) && At(s.c.l, Hand(w)) == [j] && IsBlocked(s, Cur(s.c.l, w), j)
    ensures var s', t := Step(n, s, ExitSwitch(w)), Cur(s.c.l, w); t in s'.stage && s'.stage[t] == Done
  {
    hide Moves, PcAfter, LockAfter;
  }

  lemma BlockedKept(n: nat, s: Sys, a: Action, t: Task, j: Task)
    requires SlotsFree(s, a)
    requires Base(n, s) && JoinersOk(n, s) && Enabled(n, s, a) && IsBlocked(s, t, j)
    ensures IsBlocked(Step(n, s, a), t, j) ==> BlockedAt(n, Step(n, s, a), t, j)
  {
    hide Shaped, LocksOk, GoneOk, Enabled, Moves, PcAfter, LockAfter, StageAfter, PcJoins;
    var p, s' := s.c.at[j], Step(n, s, a);
    assert BlockedAt(n, s, t, j);
    WorkerNumber(n, s, a);
    InShape(n, s);
    PcAfterStep(n, s, a);
    if p.Joiner? {
      if a.ExitPop? && Cur(s.c.l, a.w) == t {
        OneJoiner(n, s, t);
        JoinerListed(n, s, t, j);
        ExitPopMoves(n, s, a.w);
        ExitPopRunning(n, s, a.w);
        ExitPopPc(n, s, a.w);
      } else {
        NotTaken(s, a, p);
        StaysPut(n, s, a, j);
      }
    } else if p.w == a.w {
      if p.Prev? {
        OnlyOnJoin(n, s, a);
        OnJoinMoves(n, s, a.w);
        PrevOf(n, s, j, a.w);
      } else {
        OnlyExitSwitch(n, s, a);
        HandOf(n, s, j, a.w);
        ExitResumes(n, s, a.w, j);
      }
    } else {
      OtherCarries(n, s, a, p.w);
      NotTaken(s, a, p);
      StaysPut(n, s, a, j);
    }
  }

  lemma JoinerListed(n: nat, s: Sys, t: Task, j: Task)
    requires Shaped(n, s) && j in s.c.at && s.c.at[j] == Joiner(t)
    ensures j in At(s.c.l, Joiner(t))
  {
    hide Placed, RootsOk, WorkerOk;
    InPlace(s.c.l, s.c.at, j, Joiner(t));
  }

  lemma ExitPopPc(n: nat, s: Sys, w: Worker)
    ensures PcAfter(s, ExitPop(w)) == ForExit
  {
  }

  lemma NotTaken(s: Sys, a: Action, p: Place)
    requires (p.Joiner? && !(a.ExitPop? && Cur(s.c.l, a.w) == p.t)) || ((p.Prev? || p.Hand?) && p.w != a.w)
    ensures !TakesFrom(s, a, p)
  {
  }

  /** A newly blocked joiner is in the callback of its own switch. */
  lemma NewlyBlocked(n: nat, s: Sys, a: Action, t: Task, j: Task)
    requires Base(n, s) && JoinersOk(n, s) && Enabled(n, s, a) && IsBlocked(Step(n, s, a), t, j)
    ensures IsBlocked(s, t, j) || (a.JoinSwitch? && PcOf(s, a.w) == ForJoin(t) && j == Cur(s.c.l, a.w))
  {
    hide Moves, PcAfter, LockAfter, Base, JoinersOk;
  }

  lemma AllBlockedAt(n: nat, s: Sys, a: Action, t: Task, j: Task)
    requires SlotsFree(s, a)
    requires Base(n, s) && JoinersOk(n, s) && Enabled(n, s, a) && IsBlocked(Step(n, s, a), t, j)
    ensures BlockedAt(n, Step(n, s, a), t, j)
  {
    hide Base, JoinersOk, Enabled, Moves, PcAfter, LockAfter, StageAfter;
    NewlyBlocked(n, s, a, t, j);
    if IsBlocked(s, t, j) {
      BlockedKept(n, s, a, t, j);
    } else {
      BaseParts(n, s);
      WorkerNumber(n, s, a);
      JoinMoves(n, s, a.w);
      PcAfterStep(n, s, a);
      JoinSwitchPc(s, a.w);
    }
  }

  lemma BaseParts(n: nat, s: Sys)
    requires Base(n, s)
    ensures Shaped(n, s) && LocksOk(n, s) && GoneOk(n, s) && ClaimsOk(n, s) && Sound(s.c)
  {
    hide LocksOk, GoneOk, ClaimsOk, Sound, RootsOk, WorkerOk;
  }

  lemma JoinSwitchPc(s: Sys, w: Worker)
    requires PcOf(s, w).ForJoin?
    ensures PcAfter(s, JoinSwitch(w)) == JoinCalled(PcOf(s, w).t)
  {
  }

  /** While a worker carries t's lock, t does not exit on another worker. */
  lemma NoExitNow(n: nat, s: Sys, a: Action, u: Worker, t: Task)
    requires LocksOk(n, s) && Enabled(n, s, a) && u < n && u != a.w && t in Carries(s, u)
    ensures !(a.ExitSwitch? && Cur(s.c.l, a.w) == t) && !(PcOf(s, a.w).JoinCalled? && PcOf(s, a.w).t == t)
  {
    hide Moves, PcAfter;
    Holder(n, s, u, t);
    if a.ExitSwitch? { Holder(n, s, a.w, Cur(s.c.l, a.w)); }
    if PcOf(s, a.w).JoinCalled? { Holder(n, s, a.w, PcOf(s, a.w).t); }
  }

  /** A task that is not gone stays so, unless the step is its exit switch. */
  lemma StaysHere(n: nat, s: Sys, a: Action, t: Task)
    requires Base(n, s) && Enabled(n, s, a) && !IsGone(s, t) && !(a.ExitSwitch? && Cur(s.c.l, a.w) == t)
    ensures !IsGone(Step(n, s, a), t)
  {
    hide Base, Enabled, Moves, PcAfter, LockAfter, StageAfter;
    BaseParts(n, s);
    if IsGone(Step(n, s, a), t) { NewlyGone(n, s, a, t); }
  }

  lemma ArrivesAtJoiner(s: Sys, a: Action, t: Task)
    requires PutsIn(s, a, Joiner(t))
    ensures a.OnJoin? && PcOf(s, a.w) == JoinCalled(t)
  {
  }

  /** A task with someone in its joiner slot is not at its exit switch: the slot was emptied before. */
  lemma SlotMeansNoExit(n: nat, s: Sys, a: Action, t: Task, j: Task)
    requires Base(n, s) && JoinersOk(n, s) && Enabled(n, s, a) && j in s.c.at && s.c.at[j] == Joiner(t)
    ensures !(a.ExitSwitch? && Cur(s.c.l, a.w) == t)
  {
    hide Base, Moves, BlockedAt, IsGone;
    BaseParts(n, s);
    JoinerListed(n, s, t, j);
    assert PcJoins(s, a.w);
  }

  /** A blocked join is not the call of a worker. */
  lemma BlockedIsNoCall(n: nat, s: Sys, a: Action, t: Task, j: Task)
    requires CallsOk(n, s) && Enabled(n, s, a) && IsBlocked(s, t, j)
    ensures !(a.JoinLock? && a.t == t) && t !in Calls(PcOf(s, a.w))
  {
    hide Moves, PcAfter, Calls;
    WorkerNumber(n, s, a);
  }

  lemma BlockedStays(n: nat, s: Sys, a: Action, t: Task, j: Task)
    requires CallsOk(n, s) && Enabled(n, s, a) && IsBlocked(s, t, j) && !(a.ExitSwitch? && Cur(s.c.l, a.w) == t)
    ensures IsBlocked(Step(n, s, a), t, j)
  {
    hide Enabled, Step, CallsOk, Calls;
    BlockedIsNoCall(n, s, a, t, j);
    StageKept(n, s, a, t);
  }

  /** Whoever is in a joiner slot is the blocked joiner of a task that has not left. */
  lemma JoinerSlots(n: nat, s: Sys, a: Action, j: Task)
    requires Base(n, s) && CallsOk(n, s) && JoinersOk(n, s) && Enabled(n, s, a)
    requires j in Step(n, s, a).c.at && Step(n, s, a).c.at[j].Joiner?
    ensures var t := Step(n, s, a).c.at[j].t; IsBlocked(Step(n, s, a), t, j) && !IsGone(Step(n, s, a), t)
  {
    hide Base, Enabled, Moves, PcAfter, LockAfter, StageAfter, BlockedAt, IsGone, CallsOk;
    var t := Step(n, s, a).c.at[j].t;
    BaseParts(n, s);
    WorkerNumber(n, s, a);
    Arrives(n, s, a, j);
    if PutsIn(s, a, Joiner(t)) {
      ArrivesAtJoiner(s, a, t);
      OnJoinMoves(n, s, a.w);
      assert PcJoins(s, a.w);
    } else {
      SlotMeansNoExit(n, s, a, t, j);
    }
    StaysHere(n, s, a, t);
    BlockedStays(n, s, a, t, j);
  }

  // ----- What workers rely on is kept

  lemma OthersRely(n: nat, s: Sys, a: Action, u: Worker)
    requires SlotsFree(s, a)
    requires Base(n, s) && CallsOk(n, s) && JoinersOk(n, s) && Enabled(n, s, a) && u < n && u != a.w
    ensures PcJoins(Step(n, s, a), u)
  {
    hide Base, Enabled, Moves, PcAfter, LockAfter, StageAfter, BlockedAt, IsGone, CallsOk, IsBlocked;
    var s', pc := Step(n, s, a), PcOf(s, u);
    BaseParts(n, s);
    assert PcJoins(s, u);
    OtherCarries(n, s, a, u);
    OthersKept(s, a, u, Prev(u));
    if pc.JoinCalled? || pc.ForJoin? {
      NoExitNow(n, s, a, u, pc.t);
      StaysHere(n, s, a, pc.t);
      if pc.JoinCalled? { BlockedStays(n, s, a, pc.t, At(s.c.l, Prev(u))[0]); }
    }
    if pc.ForExit? {
      NoExitNow(n, s, a, u, Cur(s.c.l, u));
      SlotStaysEmpty(n, s, a, Cur(s.c.l, u));
    }
  }

  /** An empty joiner slot stays empty unless a join on that task is being completed. */
  lemma SlotStaysEmpty(n: nat, s: Sys, a: Action, t: Task)
    requires SlotsFree(s, a)
    requires Shaped(n, s) && Enabled(n, s, a) && At(s.c.l, Joiner(t)) == []
    requires !(PcOf(s, a.w).JoinCalled? && PcOf(s, a.w).t == t)
    ensures At(Moves(s, a).l, Joiner(t)) == []
  {
    hide RootsOk, WorkerOk, Placed, Moves, Enabled;
    StepSound(n, s, a);
    var l := At(Moves(s, a).l, Joiner(t));
    if l != [] {
      InPlace(Moves(s, a).l, Moves(s, a).at, l[0], Joiner(t));
      Arrives(n, s, a, l[0]);
      if PutsIn(s, a, Joiner(t)) { ArrivesAtJoiner(s, a, t); } else { InPlace(s.c.l, s.c.at, l[0], Joiner(t)); }
    }
  }

  lemma OwnRely(n: nat, s: Sys, a: Action)
    requires Base(n, s) && CallsOk(n, s) && JoinersOk(n, s) && Enabled(n, s, a)
    ensures PcJoins(Step(n, s, a), a.w)
  {
    hide Base, Enabled, Moves, PcAfter, LockAfter, StageAfter, BlockedAt, IsGone, CallsOk, IsBlocked, JoinersOk;
    var s', w := Step(n, s, a), a.w;
    BaseParts(n, s);
    WorkerNumber(n, s, a);
    PcAfterStep(n, s, a);
    NextPc(n, s, a);
    RelyOf(n, s, w);
    var pc := PcAfter(s, a);
    if pc.JoinCalled? {
      JoinMoves(n, s, w);
      StageOfCall(n, s, a);
      StaysHere(n, s, a, pc.t);
      JustBlocked(n, s, w);
    } else if pc.ForJoin? {
      NotGoneYet(n, s, w);
      StaysHere(n, s, a, pc.t);
    } else if pc.ForExit? {
      OneJoiner(n, s, Cur(s.c.l, w));
      ExitPopMoves(n, s, w);
      ExitPopRunning(n, s, w);
    }
  }

  lemma RelyOf(n: nat, s: Sys, w: Worker)
    requires JoinersOk(n, s) && w < n
    ensures PcJoins(s, w)
  {
  }

  /** Which step leads to a state of interest. */
  lemma NextPc(n: nat, s: Sys, a: Action)
    requires Enabled(n, s, a)
    ensures var pc := PcAfter(s, a);
            && (pc.JoinCalled? ==> a.JoinSwitch? && PcOf(s, a.w) == ForJoin(pc.t))
            && (pc.ForJoin? ==> a.JoinPop? && PcOf(s, a.w) == JoinLocked(pc.t) && pc.t !in s.finished)
            && (pc.ForExit? ==> a.ExitPop?)
            && (pc.JoinFound? ==> a.JoinFinished? && pc.t in s.finished)
  {
    hide Cur, At;
  }

  lemma JustBlocked(n: nat, s: Sys, w: Worker)
    requires Enabled(n, s, JoinSwitch(w))
    ensures IsBlocked(Step(n, s, JoinSwitch(w)), PcOf(s, w).t, Cur(s.c.l, w))
  {
    hide Moves, PcAfter, LockAfter;
  }

  /** The joiner holds the lock and found the task not finished, so the task has not left. */
  lemma NotGoneYet(n: nat, s: Sys, w: Worker)
    requires LocksOk(n, s) && GoneOk(n, s) && w < n && PcOf(s, w).JoinLocked? && PcOf(s, w).t !in s.finished
    ensures !IsGone(s, PcOf(s, w).t)
  {
    Holder(n, s, w, PcOf(s, w).t);
  }

  // ----- All together

  lemma DoneStays(n: nat, s: Sys, a: Action, t: Task)
    requires SlotsFree(s, a)
    requires Base(n, s) && JoinersOk(n, s) && Enabled(n, s, a)
    requires t in Step(n, s, a).stage && Step(n, s, a).stage[t] == Done
    ensures IsGone(Step(n, s, a), t)
  {
    hide Base, Moves, PcAfter, LockAfter, Shaped, LocksOk, BlockedAt, IsGone, IsBlocked;
    BaseParts(n, s);
    RelyOf(n, s, a.w);
    if t in s.stage && s.stage[t] == Done {
      GoneStays(n, s, a, t);
    } else if a.JoinFree? {
      FinishedIsGone(n, s, t);
      GoneStays(n, s, a, t);
    } else {
      Exited(n, s, a.w);
    }
  }

  lemma FinishedIsGone(n: nat, s: Sys, t: Task)
    requires GoneOk(n, s) && t in s.finished
    ensures IsGone(s, t)
  {
  }

  lemma JoinersKept(n: nat, s: Sys, a: Action)
    requires SlotsFree(s, a)
    requires Base(n, s) && CallsOk(n, s) && JoinersOk(n, s) && Enabled(n, s, a)
    ensures JoinersOk(n, Step(n, s, a))
  {
    hide Base, CallsOk, Enabled, Step, BlockedAt, IsGone, IsBlocked, PcJoins;
    var s' := Step(n, s, a);
    forall t, j | IsBlocked(s', t, j) ensures BlockedAt(n, s', t, j) { AllBlockedAt(n, s, a, t, j); }
    forall j | j in s'.c.at && s'.c.at[j].Joiner? ensures IsBlocked(s', s'.c.at[j].t, j) && !IsGone(s', s'.c.at[j].t) {
      JoinerSlots(n, s, a, j);
    }
    forall u | 0 <= u < n ensures PcJoins(s', u) {
      if u == a.w { OwnRely(n, s, a); } else { OthersRely(n, s, a, u); }
    }
    forall t | t in s'.stage && s'.stage[t] == Done ensures IsGone(s', t) { DoneStays(n, s, a, t); }
    FreedKept(n, s, a);
  }

  lemma FreedKept(n: nat, s: Sys, a: Action)
    requires JoinersOk(n, s) && Enabled(n, s, a)
    ensures Step(n, s, a).freed <= Step(n, s, a).finished
  {
    hide Moves, PcAfter, LockAfter, StageAfter, BlockedAt, IsGone, IsBlocked;
    RelyOf(n, s, a.w);
  }

  // ----- Over every run

  ghost predicate Inv(n: nat, s: Sys)
  {
    Base(n, s) && CallsOk(n, s) && JoinersOk(n, s)
  }

  lemma StepKeepsInv(n: nat, s: Sys, a: Action)
    requires Inv(n, s) && Enabled(n, s, a)
    ensures Inv(n, Step(n, s, a))
  {
    hide Shaped, LocksOk, GoneOk, CallsOk, JoinersOk, ClaimsOk, Step, Enabled, SlotsFree, Sound;
    NothingOverwritten(n, s, a);
    BaseParts(n, s);
    ShapedKept(n, s, a);
    LocksKept(n, s, a);
    GoneKept(n, s, a);
    ClaimsKept(n, s, a);
    CallsKept(n, s, a);
    JoinersKept(n, s, a);
  }

  /** The callback of a join finds the joiner slot empty. */
  lemma JoinerSlotFree(n: nat, s: Sys, w: Worker)
    requires Inv(n, s) && w < n && PcOf(s, w).JoinCalled?
    ensures At(s.c.l, Joiner(PcOf(s, w).t)) == []
  {
    hide Inv, Shaped, LocksOk, GoneOk, JoinersOk, Sound, RootsOk;
    InvShaped(n, s);
    RelyIn(n, s, w);
    InvJoiners(n, s);
    var t, x := PcOf(s, w).t, At(s.c.l, Prev(w))[0];
    OneJoiner(n, s, t);
    if At(s.c.l, Joiner(t)) != [] { TwoPlaces(s.c, x, Prev(w), Joiner(t)); }
  }

  lemma InvJoiners(n: nat, s: Sys)
    requires Inv(n, s)
    ensures JoinersOk(n, s)
  {
  }

  lemma TwoPlaces(c: Pos, t: Task, p: Place, q: Place)
    requires Sound(c) && t in At(c.l, p) && p != q
    ensures t !in At(c.l, q)
  {
    InPlace(c.l, c.at, t, p);
    InPlace(c.l, c.at, t, q);
  }

  /** No step overwrites a pointer. */
  lemma NothingOverwritten(n: nat, s: Sys, a: Action)
    requires Inv(n, s) && Enabled(n, s, a)
    ensures SlotsFree(s, a)
  {
    hide Inv, Shaped, LocksOk, GoneOk, JoinersOk, ClaimsOk, Enabled, SlotsFree;
    InvShaped(n, s);
    WorkerNumber(n, s, a);
    if PcOf(s, a.w).JoinCalled? { JoinerSlotFree(n, s, a.w); }
    SlotsAreFree(n, s, a);
  }

  lemma StartSound(n: nat)
    ensures Sound(Start(n).c)
  {
    var c := Start(n).c;
    forall t | t in c.at ensures t in At(c.l, c.at[t]) {}
  }

  lemma StartShaped(n: nat)
    ensures Shaped(n, Start(n))
  {
    hide Sound;
    var s := Start(n);
    StartSound(n);
    forall w | 0 <= w < n ensures WorkerOk(n, s.c.l, w, PcOf(s, w)) && RootAt(s.c.at, w) {}
  }

  lemma StartInv(n: nat)
    ensures Inv(n, Start(n))
  {
    hide Shaped;
    StartShaped(n);
  }

  lemma {:induction false} RunKeepsInv(n: nat, acts: seq<Action>)
    ensures Inv(n, Run(n, acts))
    decreases |acts|
  {
    hide Inv, Enabled;
    var m := |acts|;
    if m == 0 {
      StartInv(n);
    } else {
      RunKeepsInv(n, acts[..m - 1]);
      var s := Run(n, acts[..m - 1]);
      if Enabled(n, s, acts[m - 1]) { StepKeepsInv(n, s, acts[m - 1]); }
    }
  }

  lemma InvShaped(n: nat, s: Sys)
    requires Inv(n, s)
    ensures Shaped(n, s) && Sound(s.c) && LocksOk(n, s) && GoneOk(n, s) && ClaimsOk(n, s) && RootsOk(n, s.c.at)
  {
    hide ClaimsOk, LocksOk, GoneOk, CallsOk, JoinersOk, Sound, RootsOk, WorkerOk;
  }

  lemma WorkerIn(n: nat, s: Sys, w: Worker)
    requires Inv(n, s) && w < n
    ensures WorkerOk(n, s.c.l, w, PcOf(s, w))
  {
    hide Inv, LocksOk, GoneOk, ClaimsOk, Sound, RootsOk, WorkerOk;
    InvShaped(n, s);
  }

  /** What a step stores in a pointer that holds a task. */
  lemma StoresIntoEmpty(n: nat, s: Sys, a: Action, q: Place)
    requires Enabled(n, s, a) && SlotsFree(s, a) && !Many(q) && q != Running(a.w) && At(s.c.l, q) != [] && PutsIn(s, a, q)
    ensures a.PutBack? && At(Moves(s, a).l, q) == At(s.c.l, q)
  {
    hide Mv, Cur, Unused;
    if a.PutBack? { MvOther(s.c, Hand(a.w), Deque(a.w), q); }
  }

  /** A pointer other than the running slot changes from empty to full or back, never from one task to
      another. */
  lemma EmptyOrKept(n: nat, s: Sys, a: Action, q: Place)
    requires Sound(s.c) && Enabled(n, s, a) && SlotsFree(s, a) && !Many(q) && q != Running(a.w) && At(s.c.l, q) != []
    ensures At(Moves(s, a).l, q) == [] || At(Moves(s, a).l, q) == At(s.c.l, q)
  {
    hide Placed, Enabled, SlotsFree, Moves, PutsIn;
    StepSound(n, s, a);
    var d, l' := Moves(s, a), At(Moves(s, a).l, q);
    if PutsIn(s, a, q) {
      StoresIntoEmpty(n, s, a, q);
    } else if l' != [] {
      InPlace(d.l, d.at, l'[0], q);
      Arrives(n, s, a, l'[0]);
      InPlace(s.c.l, s.c.at, l'[0], q);
    }
  }

  /** In every run, a pointer holds at most one task, every step finds the pointers that it stores into
      empty, and so no pointer but the running slot, whose task the same step saves, goes from one task to
      another. */
  lemma PointersNeverOverwritten(n: nat, acts: seq<Action>, a: Action, q: Place)
    requires Enabled(n, Run(n, acts), a) && !Many(q)
    ensures SlotsFree(Run(n, acts), a)
    ensures |At(Run(n, acts).c.l, q)| <= 1
    ensures var l, l' := At(Run(n, acts).c.l, q), At(Step(n, Run(n, acts), a).c.l, q);
            q != Running(a.w) && l != [] ==> l' == [] || l' == l
  {
    hide Run, Inv, Shaped, LocksOk, GoneOk, RootsOk, Placed, Enabled, Moves, SlotsFree, PcAfter, LockAfter, StageAfter;
    var s := Run(n, acts);
    RunKeepsInv(n, acts);
    InvShaped(n, s);
    NothingOverwritten(n, s, a);
    if q != Running(a.w) && At(s.c.l, q) != [] { EmptyOrKept(n, s, a, q); }
  }

  /** Every task descriptor has exactly one owner: it is in one pointer, alone, or once in one list. */
  lemma OneOwner(n: nat, acts: seq<Action>, t: Task, p: Place, q: Place)
    requires var l := Run(n, acts).c.l; t in At(l, p) && t in At(l, q)
    ensures p == q && multiset(At(Run(n, acts).c.l, p))[t] == 1 && (Many(p) || At(Run(n, acts).c.l, p) == [t])
  {
    hide Run, Inv, Shaped, LocksOk, GoneOk, RootsOk, ClaimsOk, Sound;
    RunKeepsInv(n, acts);
    InvShaped(n, Run(n, acts));
    OwnedOnce(Run(n, acts).c, t, p, q);
  }

  lemma OwnedOnce(c: Pos, t: Task, p: Place, q: Place)
    requires Sound(c) && t in At(c.l, p) && t in At(c.l, q)
    ensures p == q && multiset(At(c.l, p))[t] == 1 && (Many(p) || At(c.l, p) == [t])
  {
    InPlace(c.l, c.at, t, p);
    InPlace(c.l, c.at, t, q);
    hide Holds, Found;
    OnceIn(At(c.l, p), t);
  }

  lemma {:induction false} OnceIn(l: seq<Task>, t: Task)
    requires t in l && forall i, j :: 0 <= i < j < |l| ==> l[i] != l[j]
    ensures multiset(l)[t] == 1
  {
    var i :| 0 <= i < |l| && l[i] == t;
    assert l == l[..i] + [t] + l[i + 1..];
    assert t !in l[..i] && t !in l[i + 1..];
  }

  /** No task is ever lost: once created, it is in some list for ever, at the latest among those gone. */
  lemma {:induction false} NoneLost(n: nat, acts: seq<Action>, k: nat, t: Task)
    requires k <= |acts| && t in Run(n, acts[..k]).c.at
    ensures var s := Run(n, acts); t in s.c.at && t in At(s.c.l, s.c.at[t])
    decreases |acts|
  {
    hide Inv, Shaped, LocksOk, GoneOk, RootsOk, Enabled, Moves, PcAfter, LockAfter, StageAfter, Placed;
    var m := |acts|;
    RunKeepsInv(n, acts);
    InvShaped(n, Run(n, acts));
    if k == m {
      assert acts[..k] == acts;
    } else {
      assert acts[..m - 1][..k] == acts[..k];
      NoneLost(n, acts[..m - 1], k, t);
      var s, a := Run(n, acts[..m - 1]), acts[m - 1];
      RunKeepsInv(n, acts[..m - 1]);
      InvShaped(n, s);
      if Enabled(n, s, a) {
        NothingOverwritten(n, s, a);
        StepSound(n, s, a);
      }
    }
    FoundIn(Run(n, acts).c, t);
  }

  lemma FoundIn(c: Pos, t: Task)
    requires Sound(c) && t in c.at
    ensures t in At(c.l, c.at[t])
  {
  }

  /** A worker's root task runs on it, or waits in its root slot, or is in its hand, and is in only one of
      these; the slot never holds anything else; and whoever pops finds the slot filled. */
  lemma RootRunsOrWaits(n: nat, acts: seq<Action>, w: Worker)
    requires w < n
    ensures var l := Run(n, acts).c.l;
            && (At(l, Running(w)) == [w] || At(l, Root(w)) == [w] || At(l, Hand(w)) == [w])
            && (At(l, Root(w)) == [] || At(l, Root(w)) == [w])
            && (At(l, Root(w)) == [w] ==> At(l, Running(w)) != [w] && At(l, Hand(w)) != [w])
    ensures var s := Run(n, acts);
            Ready(n, s, w) || PcOf(s, w).JoinLocked? || PcOf(s, w) == ExitLocked ==> At(s.c.l, Root(w)) == [w]
  {
    hide Run, Inv, Shaped, LocksOk, GoneOk, Placed, RootsOk, ClaimsOk;
    var s := Run(n, acts);
    RunKeepsInv(n, acts);
    InvShaped(n, s);
    WorkerIn(n, s, w);
    RootPlaces(n, s.c.at, w);
    InPlace(s.c.l, s.c.at, w, Running(w));
    InPlace(s.c.l, s.c.at, w, Root(w));
    InPlace(s.c.l, s.c.at, w, Hand(w));
    OnlyRoot(n, s.c, w);
    if Ready(n, s, w) || PcOf(s, w).JoinLocked? || PcOf(s, w) == ExitLocked { PopFinds(n, s.c, w); }
  }

  /** A joiner stays suspended until the exit switch of the task it joins; that switch resumes it, on the
      worker where the task ran, when the task has left its stack. */
  lemma OnlyTheExitResumes(n: nat, acts: seq<Action>, a: Action, t: Task, j: Task)
    requires IsBlocked(Run(n, acts), t, j)
    ensures var s, s' := Run(n, acts), Run(n, acts + [a]);
            && BlockedAt(n, s, t, j)
            && (IsBlocked(s', t, j)
                || (a.ExitSwitch? && Cur(s.c.l, a.w) == t && Cur(s'.c.l, a.w) == j && IsGone(s', t) && s'.stage[t] == Done))
  {
    var s := Run(n, acts);
    RunKeepsInv(n, acts);
    InvShaped(n, s);
    assert (acts + [a])[..|acts|] == acts;
    hide Run, Moves, PcAfter, LockAfter, StageAfter, Shaped, LocksOk, GoneOk, CallsOk, Enabled, PcJoins, IsGone;
    assert BlockedAt(n, s, t, j);
    if Enabled(n, s, a) {
      if a.ExitSwitch? && Cur(s.c.l, a.w) == t {
        Resumed(n, s, a.w, j);
      } else {
        BlockedStays(n, s, a, t, j);
      }
    }
  }

  lemma Resumed(n: nat, s: Sys, w: Worker, j: Task)
    requires Inv(n, s) && Enabled(n, s, ExitSwitch(w)) && IsBlocked(s, Cur(s.c.l, w), j)
    ensures var s', t := Step(n, s, ExitSwitch(w)), Cur(s.c.l, w);
            Cur(s'.c.l, w) == j && IsGone(s', t) && t in s'.stage && s'.stage[t] == Done
  {
    hide Inv, Shaped, LocksOk, GoneOk, RootsOk, Placed, Enabled, Moves, PcAfter, LockAfter, StageAfter;
    var t := Cur(s.c.l, w);
    InvShaped(n, s);
    WorkerNumber(n, s, ExitSwitch(w));
    ExitPcIs(n, s, w);
    WhereBlocked(n, s, t, j);
    RelyIn(n, s, w);
    var p := s.c.at[j];
    if p.Joiner? { JoinerListed(n, s, t, j); }
    if p.Prev? {
      Holder(n, s, p.w, t);
      Holder(n, s, w, t);
    }
    if p.Hand? && p.w != w {
      Holder(n, s, p.w, t);
      Holder(n, s, w, t);
    }
    HandOf(n, s, j, w);
    ExitResumes(n, s, w, j);
    Exited(n, s, w);
    ExitRuns(n, s, w);
  }

  lemma WhereBlocked(n: nat, s: Sys, t: Task, j: Task)
    requires Inv(n, s) && IsBlocked(s, t, j)
    ensures BlockedAt(n, s, t, j)
  {
    hide Base, CallsOk, BlockedAt;
  }

  lemma RelyIn(n: nat, s: Sys, w: Worker)
    requires Inv(n, s) && w < n
    ensures PcJoins(s, w)
  {
    hide Base, CallsOk, BlockedAt, PcJoins;
  }

  lemma ExitPcIs(n: nat, s: Sys, w: Worker)
    requires Enabled(n, s, ExitSwitch(w))
    ensures PcOf(s, w) == ForExit
  {
  }

  lemma ExitRuns(n: nat, s: Sys, w: Worker)
    requires Shaped(n, s) && Enabled(n, s, ExitSwitch(w)) && |At(s.c.l, Hand(w))| == 1
    ensures At(Step(n, s, ExitSwitch(w)).c.l, Running(w)) == At(s.c.l, Hand(w))
  {
    hide Sound, RootsOk, Switch, PcAfter, LockAfter, StageAfter;
    assert WorkerOk(n, s.c.l, w, PcOf(s, w));
    SwitchAt(s.c, w, Hand(w), Gone, Running(w));
  }

  /** A join that has returned found its task gone, and never returns again. */
  lemma ReturnedOnce(n: nat, acts: seq<Action>, a: Action, t: Task)
    requires var s := Run(n, acts); t in s.stage && s.stage[t] == Done
    ensures IsGone(Run(n, acts), t)
    ensures var s' := Run(n, acts + [a]); t in s'.stage && s'.stage[t] == Done
  {
    hide Moves, PcAfter, LockAfter, Base, Enabled, StageAfter, Calls, BlockedAt, PcJoins;
    var s := Run(n, acts);
    RunKeepsInv(n, acts);
    assert (acts + [a])[..|acts|] == acts;
    if Enabled(n, s, a) {
      WorkerNumber(n, s, a);
      if a.JoinLock? { StageOfCall(n, s, a); }
      StageKept(n, s, a, t);
    }
  }

  /** Wherever a task lock is given up, the worker carries exactly that lock and holds it; wherever one
      is taken it was free. So a lock carried across a switch is released exactly once. */
  lemma LockReleasedOnce(n: nat, acts: seq<Action>, a: Action)
    requires Enabled(n, Run(n, acts), a)
    ensures var s, s' := Run(n, acts), Step(n, Run(n, acts), a);
            && (GivesLock(a) ==> exists t :: Carries(s, a.w) == {t} && t in s.lock && s.lock[t] == a.w && s'.lock == s.lock - {t})
            && (TakesLock(a) ==> Carries(s, a.w) == {} && Target(s, a) !in s.lock)
            && (!GivesLock(a) && !TakesLock(a) ==> s'.lock == s.lock && Carries(s', a.w) == Carries(s, a.w))
            && (forall w :: 0 <= w < n && PcOf(s, w) == Go ==> forall t :: t in s.lock ==> s.lock[t] != w)
  {
    var s := Run(n, acts);
    hide Run, Step, Enabled, Shaped, GoneOk, CallsOk, JoinersOk, Carries;
    RunKeepsInv(n, acts);
    InvShaped(n, s);
    WorkerNumber(n, s, a);
    if GivesLock(a) {
      var t := LockGiven(n, s, a);
      Holder(n, s, a.w, t);
    } else if TakesLock(a) {
      LockTaken(n, s, a);
    } else {
      LockKept(n, s, a);
    }
    forall w, t | 0 <= w < n && PcOf(s, w) == Go && t in s.lock ensures s.lock[t] != w { GoCarriesNone(s, w); }
  }

  lemma GoCarriesNone(s: Sys, w: Worker)
    requires PcOf(s, w) == Go
    ensures Carries(s, w) == {}
  {
  }

  /** When the finished-first path deallocates a task, nobody runs on its stack, no list but that of the
      gone holds it, and nobody holds its lock. */
  lemma FreedIsUnused(n: nat, acts: seq<Action>, w: Worker, t: Task)
    requires w < n && PcOf(Run(n, acts), w) == JoinFound(t)
    ensures var s := Run(n, acts);
            && t in s.finished && IsGone(s, t) && t !in s.lock
            && forall p :: p != Gone ==> t !in At(s.c.l, p)
  {
    var s := Run(n, acts);
    hide Run, Placed, RootsOk, WorkerOk;
    RunKeepsInv(n, acts);
    InvShaped(n, s);
    RelyIn(n, s, w);
    FinishedIsGone(n, s, t);
    hide JoinersOk, GoneOk;
    forall p | p != Gone ensures t !in At(s.c.l, p) { InPlace(s.c.l, s.c.at, t, p); }
    if t in s.lock { NoHolder(n, s, w, t); }
  }

  lemma NoHolder(n: nat, s: Sys, w: Worker, t: Task)
    requires Inv(n, s) && w < n && PcOf(s, w) == JoinFound(t) && t in s.finished && IsGone(s, t)
    ensures t !in s.lock
  {
    hide Inv, Shaped, GoneOk, JoinersOk, LocksOk, Carries, Calls, Cur;
    if t in s.lock {
      InvShaped(n, s);
      var u := LockHolder(n, s, t);
      CalledHere(s, w, t);
      InCallOf(n, s, w, t);
      RelyIn(n, s, u);
      NotExitCalled(n, s, u, t);
      RunsHere(n, s, u);
      WhoCarries(s, u, t);
      if PcOf(s, u).JoinLocked? || PcOf(s, u).ForJoin? {
        CalledHere(s, u, t);
        InCallOf(n, s, u, t);
      }
    }
  }

  lemma LockHolder(n: nat, s: Sys, t: Task) returns (u: Worker)
    requires LocksOk(n, s) && t in s.lock
    ensures u < n && t in Carries(s, u)
  {
    u := s.lock[t];
  }

  lemma CalledHere(s: Sys, u: Worker, t: Task)
    requires PcOf(s, u) == JoinLocked(t) || PcOf(s, u) == ForJoin(t) || PcOf(s, u) == JoinFound(t)
    ensures t in Calls(PcOf(s, u))
  {
  }

  lemma WhoCarries(s: Sys, u: Worker, t: Task)
    requires t in Carries(s, u)
    ensures var pc := PcOf(s, u);
            || pc == JoinLocked(t) || pc == ForJoin(t) || pc == JoinCalled(t) || pc == ExitCalled(t)
            || ((pc == ExitLocked || pc == ForExit) && Cur(s.c.l, u) == t)
  {
  }

  lemma InCallOf(n: nat, s: Sys, u: Worker, t: Task)
    requires Inv(n, s) && u < n && t in Calls(PcOf(s, u))
    ensures t in s.stage && s.stage[t] == InCall(u)
  {
    hide Base, JoinersOk, Calls;
  }

  lemma NotExitCalled(n: nat, s: Sys, u: Worker, t: Task)
    requires GoneOk(n, s) && u < n && t in s.finished
    ensures PcOf(s, u) != ExitCalled(t)
  {
  }

  lemma RunsHere(n: nat, s: Sys, u: Worker)
    requires Shaped(n, s) && u < n
    ensures !IsGone(s, Cur(s.c.l, u))
  {
    hide Placed, RootsOk;
    assert WorkerOk(n, s.c.l, u, PcOf(s, u));
    InPlace(s.c.l, s.c.at, Cur(s.c.l, u), Running(u));
  }
}
