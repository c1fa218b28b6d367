/** Conditional suspension: a wait or a swap whose function says no is undone, whatever other workers do
    in the meantime. */
module CondSuspend {
  import opened Continuations
  import opened TaskSwitch
  import opened JoinExit

  // ----- A wait that fails

  /** Worker w is inside a wait that caller began and that popped a continuation. */
  predicate InWait(pc: Pc, caller: Task, popped: Task)
  {
    match pc
    case ForWait(_, c, p) => c == caller && p == popped
    case WaitCalled(_, c, p) => c == caller && p == popped
    case PuttingBack(c, p) => c == caller && p == popped
    case _ => false
  }

  /** From step k to step m worker w does not leave the operation that it began at step k. */
  predicate Inside(n: nat, acts: seq<Action>, w: Worker, k: nat, m: nat)
    requires m <= |acts|
  {
    forall j :: k < j <= m ==> PcOf(Run(n, acts[..j]), w) != Go
  }

  lemma WaitBegins(n: nat, s: Sys, w: Worker, i: nat)
    requires Enabled(n, s, WaitPop(w, i))
    ensures InWait(PcOf(Step(n, s, WaitPop(w, i)), w), Cur(s.c.l, w), NextUp(s.c.l, w))
  {
    hide Moves, Cur, NextUp;
  }

  /** The steps of a wait hand on who called it and what it popped. */
  lemma OwnStep(n: nat, s: Sys, a: Action, caller: Task, popped: Task)
    requires Enabled(n, s, a) && WorkerOk(n, s.c.l, a.w, PcOf(s, a.w)) && InWait(PcOf(s, a.w), caller, popped)
    ensures PcAfter(s, a) == Go || InWait(PcAfter(s, a), caller, popped)
  {
    hide Moves;
  }

  lemma StepRemembers(n: nat, s: Sys, a: Action, w: Worker, caller: Task, popped: Task)
    requires Inv(n, s) && w < n && InWait(PcOf(s, w), caller, popped) && PcOf(Step(n, s, a), w) != Go
    ensures InWait(PcOf(Step(n, s, a), w), caller, popped)
  {
    hide Inv, Shaped, LocksOk, GoneOk, Sound, RootsOk, WorkerOk, Enabled, PcAfter, InWait, Moves, LockAfter, StageAfter;
    if a.w != w {
      OtherCarries(n, s, a, w);
    } else if Enabled(n, s, a) {
      InvShaped(n, s);
      WorkerInShape(n, s, a);
      OwnStep(n, s, a, caller, popped);
      PcAfterStep(n, s, a);
    }
  }

  lemma RunSplit(n: nat, acts: seq<Action>, k: nat)
    requires k < |acts|
    ensures Run(n, acts[..k + 1]) == Step(n, Run(n, acts[..k]), acts[k])
  {
    hide Step;
    assert acts[..k + 1][..k] == acts[..k];
  }

  lemma {:induction false} WaitRemembers(n: nat, acts: seq<Action>, w: Worker, i: nat, k: nat, m: nat)
    requires k < m <= |acts| && acts[k] == WaitPop(w, i) && Enabled(n, Run(n, acts[..k]), acts[k]) && Inside(n, acts, w, k, m)
    ensures var s := Run(n, acts[..k]); InWait(PcOf(Run(n, acts[..m]), w), Cur(s.c.l, w), NextUp(s.c.l, w))
  {
    hide Run, Inv, Step, InWait, Enabled, Cur, NextUp;
    var s := Run(n, acts[..k]);
    WorkerNumber(n, s, acts[k]);
    RunSplit(n, acts, m - 1);
    if m == k + 1 {
      WaitBegins(n, s, w, i);
    } else {
      WaitRemembers(n, acts, w, i, k, m - 1);
      RunKeepsInv(n, acts[..m - 1]);
      StepRemembers(n, Run(n, acts[..m - 1]), acts[m - 1], w, Cur(s.c.l, w), NextUp(s.c.l, w));
    }
  }

  /** The popped continuation is put back where it came from: into the root slot exactly if it is the root. */
  lemma PutBackIsRight(n: nat, acts: seq<Action>, w: Worker)
    requires w < n && PcOf(Run(n, acts), w).PuttingBack?
    ensures var l := Run(n, acts).c.l;
            && |At(l, Hand(w))| == 1 && (At(l, Root(w)) == [] <==> At(l, Hand(w))[0] == w)
            && (At(l, Root(w)) != [] ==> At(l, Hand(w))[0] >= n)
  {
    hide Run, Inv, Shaped, LocksOk, GoneOk, RootsOk, Sound;
    var s := Run(n, acts);
    RunKeepsInv(n, acts);
    InvShaped(n, s);
    WorkerIn(n, s, w);
    PutBackRight(n, s.c, w);
  }

  lemma PutBackAt(n: nat, s: Sys, w: Worker, x: Task)
    requires Enabled(n, s, PutBack(w)) && At(s.c.l, Hand(w)) == [x] && (At(s.c.l, Root(w)) == [] || At(s.c.l, Root(w)) == [w])
    ensures var l, l' := s.c.l, Step(n, s, PutBack(w)).c.l;
            && At(l', Running(w)) == At(l, Running(w)) && At(l', Hand(w)) == []
            && At(l', Root(w)) == (if At(l, Root(w)) == [] then [x] else [w])
            && At(l', Deque(w)) == (if At(l, Root(w)) == [] then At(l, Deque(w)) else At(l, Deque(w)) + [x])
  {
    hide Mv;
    var q := if At(s.c.l, Root(w)) == [] then Root(w) else Deque(w);
    MvAt(s.c, Hand(w), q, Hand(w));
    MvAt(s.c, Hand(w), q, Running(w));
    MvAt(s.c, Hand(w), q, Root(w));
    MvAt(s.c, Hand(w), q, Deque(w));
  }

  /** Once its function has said no, the caller of a wait runs again with the popped continuation in hand. */
  lemma WaitSaidNo(n: nat, acts: seq<Action>, w: Worker, i: nat, k: nat, m: nat)
    requires k < m <= |acts| && acts[k] == WaitPop(w, i) && Enabled(n, Run(n, acts[..k]), acts[k]) && Inside(n, acts, w, k, m)
    requires PcOf(Run(n, acts[..m]), w).PuttingBack?
    ensures var l, l' := Run(n, acts[..k]).c.l, Run(n, acts[..m]).c.l;
            At(l', Running(w)) == At(l, Running(w)) == [Cur(l, w)] && At(l', Hand(w)) == [NextUp(l, w)]
  {
    hide Run, Inv, Enabled, NextUp, Inside;
    var s, s' := Run(n, acts[..k]), Run(n, acts[..m]);
    WorkerNumber(n, s, acts[k]);
    WaitRemembers(n, acts, w, i, k, m);
    RunKeepsInv(n, acts[..k]);
    RunKeepsInv(n, acts[..m]);
    WorkerIn(n, s, w);
    WorkerIn(n, s', w);
  }

  /** A wait that fails, whatever other workers do between its steps: the caller runs again on the same
      worker, and what was popped is in the root slot if it is the root, else on top of the deque. */
  lemma FailedWaitRestores(n: nat, acts: seq<Action>, w: Worker, i: nat, k: nat, m: nat)
    requires k < m < |acts| && acts[k] == WaitPop(w, i) && Enabled(n, Run(n, acts[..k]), acts[k]) && Inside(n, acts, w, k, m)
    requires acts[m] == PutBack(w) && Enabled(n, Run(n, acts[..m]), acts[m])
    ensures var l, b, l' := Run(n, acts[..k]).c.l, Run(n, acts[..m]).c.l, Run(n, acts[..m + 1]).c.l;
            var popped := NextUp(l, w);
            && At(l', Running(w)) == At(l, Running(w)) == [Cur(l, w)] && At(l', Hand(w)) == At(l, Hand(w)) == []
            && At(l', Root(w)) == At(l, Root(w)) == [w]
            && At(l', Deque(w)) == (if popped == w then At(b, Deque(w)) else At(b, Deque(w)) + [popped])
    ensures PcOf(Run(n, acts[..m + 1]), w) == Go
  {
    hide Run, Inv, Shaped, Sound, RootsOk, LocksOk, GoneOk, Enabled, NextUp, Inside, Step;
    var s, s' := Run(n, acts[..k]), Run(n, acts[..m]);
    WorkerNumber(n, s, acts[k]);
    BackStep(n, s', w);
    WaitSaidNo(n, acts, w, i, k, m);
    RunKeepsInv(n, acts[..k]);
    WaitStart(n, s, w, i);
    PutBackIsRight(n, acts[..m], w);
    RunKeepsInv(n, acts[..m]);
    InvShaped(n, s');
    OnlyRoot(n, s'.c, w);
    PutBackAt(n, s', w, NextUp(s.c.l, w));
    RunSplit(n, acts, m);
  }

  lemma BackStep(n: nat, s: Sys, w: Worker)
    requires Enabled(n, s, PutBack(w))
    ensures PcOf(s, w).PuttingBack? && PcOf(Step(n, s, PutBack(w)), w) == Go
  {
    hide Moves;
  }

  // ----- The same without other workers

  /** Switching away and back again. */
  lemma SwitchUndone(c: Pos, w: Worker, i: nat, p: Place)
    requires |At(c.l, Running(w))| == 1 && |At(c.l, Hand(w))| == 1 && At(c.l, Suspended(i)) == []
    ensures var c2 := Switch(c, w, Hand(w), Suspended(i));
            && At(c2.l, Suspended(i)) == At(c.l, Running(w))
            && At(Switch(c2, w, Suspended(i), Hand(w)).l, p) == At(c.l, p)
  {
    hide Mv, Switch;
    var h, sus, run := Hand(w), Suspended(i), Running(w);
    var c2 := Switch(c, w, h, sus);
    SwitchAt(c, w, h, sus, h);
    SwitchAt(c, w, h, sus, sus);
    SwitchAt(c, w, h, sus, run);
    SwitchAt(c, w, h, sus, p);
    assert At(c2.l, run) == At(c.l, h) && At(c2.l, h) == [] && At(c2.l, sus) == At(c.l, run);
    SwitchAt(c2, w, sus, h, p);
  }

  /** The four moves of a failed conditional suspend, for a continuation popped from q. */
  lemma MovesUndone(c: Pos, w: Worker, i: nat, q: Place, p: Place)
    requires (q == Deque(w) || (q == Root(w) && |At(c.l, q)| == 1)) && At(c.l, q) != []
    requires |At(c.l, Running(w))| == 1 && At(c.l, Hand(w)) == [] && At(c.l, Suspended(i)) == []
    ensures var c1 := Mv(c, q, Hand(w));
            var c2 := Switch(c1, w, Hand(w), Suspended(i));
            var c3 := Switch(c2, w, Suspended(i), Hand(w));
            && At(c1.l, Suspended(i)) == [] && At(c2.l, Suspended(i)) == At(c.l, Running(w)) == At(c1.l, Running(w))
            && At(c3.l, Root(w)) == (if q == Root(w) then At(c.l, q)[..|At(c.l, q)| - 1] else At(c.l, Root(w)))
            && At(Mv(c3, Hand(w), q).l, p) == At(c.l, p)
  {
    hide Mv, Switch;
    var h := Hand(w);
    var c1 := Mv(c, q, h);
    MvAt(c, q, h, h);
    MvAt(c, q, h, Suspended(i));
    MvAt(c, q, h, Running(w));
    MvAt(c, q, h, Root(w));
    MvAt(c, q, h, q);
    MvAt(c, q, h, p);
    SwitchUndone(c1, w, i, h);
    SwitchUndone(c1, w, i, q);
    SwitchUndone(c1, w, i, p);
    SwitchUndone(c1, w, i, Root(w));
    var c3 := Switch(Switch(c1, w, h, Suspended(i)), w, Suspended(i), h);
    MvAt(c3, h, q, p);
  }

  /** A failed conditional suspend, undisturbed by other workers, changes nothing: the running task runs
      again, and every list, the deque and the root slot included, is as before. */
  lemma UndisturbedWait(n: nat, s: Sys, w: Worker, i: nat, p: Place)
    requires Inv(n, s) && Enabled(n, s, WaitPop(w, i))
    ensures var s1 := Step(n, s, WaitPop(w, i));
            && Enabled(n, s1, WaitSwitch(w))
            && var s2 := Step(n, s1, WaitSwitch(w));
            && Enabled(n, s2, WaitNo(w))
            && var s3 := Step(n, s2, WaitNo(w));
            && Enabled(n, s3, PutBack(w))
            && var s4 := Step(n, s3, PutBack(w));
            At(s4.c.l, p) == At(s.c.l, p) && PcOf(s4, w) == Go
  {
    hide Inv, Mv, Switch, At, Step, Enabled, Last, Cur;
    var c := s.c;
    WaitStart(n, s, w, i);
    var q := if At(c.l, Deque(w)) != [] then Deque(w) else Root(w);
    MovesUndone(c, w, i, q, p);
    PopStep(n, s, w, i);
    var s1 := Step(n, s, WaitPop(w, i));
    SwitchStep(n, s1, w, i);
    var s2 := Step(n, s1, WaitSwitch(w));
    CurIs(s1.c.l, w);
    NoStep(n, s2, w, i);
    var s3 := Step(n, s2, WaitNo(w));
    BackMoves(n, s3, w);
  }

  lemma PopStep(n: nat, s: Sys, w: Worker, i: nat)
    requires Enabled(n, s, WaitPop(w, i))
    ensures var s', q := Step(n, s, WaitPop(w, i)), if At(s.c.l, Deque(w)) != [] then Deque(w) else Root(w);
            w < n && s'.c == Mv(s.c, q, Hand(w)) && PcOf(s', w) == ForWait(i, Cur(s.c.l, w), NextUp(s.c.l, w))
  {
    hide Mv;
  }

  lemma SwitchStep(n: nat, s: Sys, w: Worker, i: nat)
    requires w < n && PcOf(s, w).ForWait? && PcOf(s, w).i == i && At(s.c.l, Suspended(i)) == []
    ensures Enabled(n, s, WaitSwitch(w))
    ensures var s' := Step(n, s, WaitSwitch(w));
            s'.c == Switch(s.c, w, Hand(w), Suspended(i)) && PcOf(s', w) == WaitCalled(i, Cur(s.c.l, w), PcOf(s, w).popped)
  {
    hide Switch, Cur;
  }

  lemma NoStep(n: nat, s: Sys, w: Worker, i: nat)
    requires w < n && PcOf(s, w).WaitCalled? && PcOf(s, w).i == i && At(s.c.l, Suspended(i)) == [PcOf(s, w).prev]
    ensures Enabled(n, s, WaitNo(w))
    ensures var s' := Step(n, s, WaitNo(w)); s'.c == Switch(s.c, w, Suspended(i), Hand(w)) && PcOf(s', w).PuttingBack?
  {
    hide Switch, Cur;
  }

  lemma BackMoves(n: nat, s: Sys, w: Worker)
    requires w < n && PcOf(s, w).PuttingBack?
    ensures Enabled(n, s, PutBack(w))
    ensures var s' := Step(n, s, PutBack(w));
            s'.c == Mv(s.c, Hand(w), if At(s.c.l, Root(w)) != [] then Deque(w) else Root(w)) && PcOf(s', w) == Go
  {
    hide Mv, Cur;
  }

  lemma CurIs(l: Lists, w: Worker)
    requires |At(l, Running(w))| == 1
    ensures At(l, Running(w)) == [Cur(l, w)]
  {
  }

  lemma WaitStart(n: nat, s: Sys, w: Worker, i: nat)
    requires Inv(n, s) && Enabled(n, s, WaitPop(w, i))
    ensures var l := s.c.l;
            && |At(l, Running(w))| == 1 && At(l, Running(w)) == [Cur(l, w)] && At(l, Hand(w)) == []
            && At(l, Suspended(i)) == [] && At(l, Root(w)) == [w]
  {
    hide Inv, LocksOk, GoneOk, Sound, RootsOk, Shaped;
    InvShaped(n, s);
    WorkerInShape(n, s, WaitPop(w, i));
    PopFinds(n, s.c, w);
  }

  // ----- A swap that fails

  lemma SwapBegins(n: nat, s: Sys, w: Worker, i: nat, h: nat, x: Task)
    requires Enabled(n, s, SwapWith(w, i, h)) && At(s.c.l, Suspended(h)) == [x]
    ensures PcOf(Step(n, s, SwapWith(w, i, h)), w) == SwapCalled(i, h, Cur(s.c.l, w), x)
  {
    hide Moves, Cur;
  }

  lemma SwapStep(n: nat, s: Sys, a: Action, w: Worker)
    requires PcOf(s, w).SwapCalled?
    ensures PcOf(Step(n, s, a), w) == Go || PcOf(Step(n, s, a), w) == PcOf(s, w)
  {
    hide Moves, Cur, At, LockAfter, StageAfter;
  }

  /** A suspended-thread object holds at most one continuation. */
  lemma OneSuspended(n: nat, acts: seq<Action>, h: nat)
    requires At(Run(n, acts).c.l, Suspended(h)) != []
    ensures var l := At(Run(n, acts).c.l, Suspended(h)); l == [l[0]]
  {
    hide Run, Inv, Shaped, LocksOk, GoneOk, Placed, RootsOk;
    RunKeepsInv(n, acts);
    InvShaped(n, Run(n, acts));
  }

  lemma {:induction false} SwapRemembers(n: nat, acts: seq<Action>, w: Worker, i: nat, h: nat, k: nat, m: nat)
    requires k < m <= |acts| && acts[k] == SwapWith(w, i, h) && Enabled(n, Run(n, acts[..k]), acts[k]) && Inside(n, acts, w, k, m)
    ensures var l := Run(n, acts[..k]).c.l;
            At(l, Suspended(h)) != [] && PcOf(Run(n, acts[..m]), w) == SwapCalled(i, h, Cur(l, w), At(l, Suspended(h))[0])
  {
    hide Run, Step, Enabled, Cur;
    var s := Run(n, acts[..k]);
    RunSplit(n, acts, m - 1);
    if m == k + 1 {
      SwapReady(n, s, w, i, h);
      OneSuspended(n, acts[..k], h);
      SwapBegins(n, s, w, i, h, At(s.c.l, Suspended(h))[0]);
    } else {
      SwapRemembers(n, acts, w, i, h, k, m - 1);
      SwapStep(n, Run(n, acts[..m - 1]), acts[m - 1], w);
    }
  }

  lemma SwapReady(n: nat, s: Sys, w: Worker, i: nat, h: nat)
    requires Enabled(n, s, SwapWith(w, i, h))
    ensures w < n && At(s.c.l, Suspended(h)) != [] && At(s.c.l, Suspended(i)) == []
  {
  }

  lemma SwapNoAt(n: nat, s: Sys, w: Worker)
    requires Enabled(n, s, SwapNo(w)) && SlotsFree(s, SwapNo(w)) && PcOf(s, w).SwapCalled?
    requires At(s.c.l, Suspended(PcOf(s, w).k)) == [] && At(s.c.l, Running(w)) == [PcOf(s, w).next]
    ensures var s', pc := Step(n, s, SwapNo(w)), PcOf(s, w);
            && At(s'.c.l, Running(w)) == [pc.prev] && At(s'.c.l, Suspended(pc.i)) == [] && At(s'.c.l, Suspended(pc.k)) == [pc.next]
            && PcOf(s', w) == Go
  {
    hide Switch;
    var pc := PcOf(s, w);
    SwitchAt(s.c, w, Suspended(pc.i), Suspended(pc.k), Running(w));
    SwitchAt(s.c, w, Suspended(pc.i), Suspended(pc.k), Suspended(pc.i));
    SwitchAt(s.c, w, Suspended(pc.i), Suspended(pc.k), Suspended(pc.k));
  }

  lemma ClaimedIsEmpty(n: nat, s: Sys, w: Worker)
    requires Inv(n, s) && w < n && PcOf(s, w).SwapCalled?
    ensures At(s.c.l, Suspended(PcOf(s, w).k)) == []
  {
    hide Shaped, LocksOk, GoneOk, CallsOk, JoinersOk;
    assert PcOf(s, w).k in Claims(PcOf(s, w));
  }

  /** A swap that fails, whatever other workers do in the meantime: the caller runs again on the same
      worker, its own object is empty, and the other holds the continuation that it held. */
  lemma FailedSwapRestores(n: nat, acts: seq<Action>, w: Worker, i: nat, h: nat, k: nat, m: nat)
    requires k < m < |acts| && acts[k] == SwapWith(w, i, h) && Enabled(n, Run(n, acts[..k]), acts[k]) && Inside(n, acts, w, k, m)
    requires acts[m] == SwapNo(w) && Enabled(n, Run(n, acts[..m]), acts[m])
    ensures var l, l' := Run(n, acts[..k]).c.l, Run(n, acts[..m + 1]).c.l;
            && At(l', Running(w)) == At(l, Running(w)) == [Cur(l, w)]
            && At(l', Suspended(i)) == At(l, Suspended(i)) == [] && At(l', Suspended(h)) == At(l, Suspended(h)) != []
    ensures PcOf(Run(n, acts[..m + 1]), w) == Go
  {
    hide Run, Inv, Enabled, Inside, Step, SlotsFree;
    var s, s' := Run(n, acts[..k]), Run(n, acts[..m]);
    SwapRemembers(n, acts, w, i, h, k, m);
    SwapReady(n, s, w, i, h);
    OneSuspended(n, acts[..k], h);
    RunKeepsInv(n, acts[..k]);
    RunKeepsInv(n, acts[..m]);
    WorkerIn(n, s, w);
    WorkerIn(n, s', w);
    ClaimedIsEmpty(n, s', w);
    NothingOverwritten(n, s', SwapNo(w));
    SwapNoAt(n, s', w);
    RunSplit(n, acts, m);
  }
}
