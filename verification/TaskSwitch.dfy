/** Workers switching between tasks: fork, yield, join, exit, conditional suspension and the
    scheduler loop, in every interleaving. A context switch saves the running task, runs its callback
    on the target and resumes the target. */
module TaskSwitch {
  import opened Continuations

  /** Where a worker is inside an operation that takes several steps. */
  datatype Pc =
    | Go                                   // code of the running task
    | ForYield                             // popped a continuation to yield to
    | ForExecute                           // the scheduler loop has a continuation to execute
    | JoinLocked(t: Task)                  // holds t's lock
    | ForJoin(t: Task)                     // t is not finished; popped a continuation
    | JoinCalled(t: Task)                  // switched, about to run on_join
    | JoinFound(t: Task)                   // t is finished; released the lock
    | ExitLocked                           // holds the lock of the running task
    | ForExit                              // took the joiner or popped a continuation
    | ExitCalled(t: Task)                  // switched, about to run on_exit
    | ForWait(i: nat, caller: Task, popped: Task)        // popped a continuation for a conditional suspend
    | WaitCalled(i: nat, prev: Task, popped: Task)       // switched, running the user's function
    | PuttingBack(prev: Task, popped: Task)              // it said no; the continuation is to be put back
    | SwapCalled(i: nat, k: nat, prev: Task, next: Task) // the same, switched to a suspended thread

  /** How far the join of a task is. */
  datatype Stage = InCall(w: Worker) | Blocked(j: Task) | Done

  /** `at` records where each task is. */
  datatype Pos = Pos(l: Lists, at: map<Task, Place>)

  datatype Sys = Sys(
    c: Pos,
    pc: map<Worker, Pc>,
    lock: map<Task, Worker>,        // who carries the lock of a task
    finished: set<Task>,
    freed: set<Task>,
    stage: map<Task, Stage>)

  function Mv(c: Pos, p: Place, q: Place): Pos
  {
    if At(c.l, p) == [] then c else Pos(Shift(c.l, p, q), c.at[Last(At(c.l, p)) := q])
  }

  function MvFirst(c: Pos, p: Place, q: Place): Pos
  {
    if At(c.l, p) == [] then c else Pos(ShiftFirst(c.l, p, q), c.at[At(c.l, p)[0] := q])
  }

  function New(c: Pos, q: Place, t: Task): Pos
  {
    Pos(Put(c.l, q, t), c.at[t := q])
  }

  /** `local_pop_top_or_root`. */
  function PopNext(c: Pos, w: Worker): Pos
  {
    if At(c.l, Deque(w)) != [] then Mv(c, Deque(w), Hand(w)) else Mv(c, Root(w), Hand(w))
  }

  /** The continuation that it returns. */
  function NextUp(l: Lists, w: Worker): Task
  {
    if At(l, Deque(w)) != [] then Last(At(l, Deque(w))) else if At(l, Root(w)) != [] then Last(At(l, Root(w))) else w
  }

  /** The running task is saved in q and the one at p resumed. */
  function Switch(c: Pos, w: Worker, p: Place, q: Place): Pos
  {
    Mv(Mv(c, Running(w), q), p, Running(w))
  }

  function PcOf(s: Sys, w: Worker): Pc
  {
    if w in s.pc then s.pc[w] else Go
  }

  function Cur(l: Lists, w: Worker): Task
  {
    if At(l, Running(w)) == [] then w else At(l, Running(w))[0]
  }

  datatype Action =
    | Fork(w: Worker, t: Task)             // fork_child_first
    | Spawn(w: Worker, t: Task)            // fork_parent_first
    | Yield(w: Worker)
    | YieldSwitch(w: Worker)
    | RootPop(w: Worker)                   // the scheduler loop pops its own deque
    | Steal(w: Worker, u: Worker)
    | Execute(w: Worker)
    | JoinLock(w: Worker, t: Task)
    | JoinFinished(w: Worker)
    | JoinFree(w: Worker)
    | JoinPop(w: Worker)
    | JoinSwitch(w: Worker)
    | OnJoin(w: Worker)
    | ExitLock(w: Worker)
    | ExitPop(w: Worker)
    | ExitSwitch(w: Worker)
    | OnExit(w: Worker)
    | WaitPop(w: Worker, i: nat)           // wait_with
    | WaitSwitch(w: Worker)
    | WaitYes(w: Worker)
    | WaitNo(w: Worker)
    | PutBack(w: Worker)
    | Notify(w: Worker, i: nat)
    | Enter(w: Worker, k: nat)
    | Swap(w: Worker, i: nat, k: nat)
    | SwapWith(w: Worker, i: nat, k: nat)
    | SwapYes(w: Worker)
    | SwapNo(w: Worker)

  /** Worker w runs ordinary code of an ordinary task. Tasks below n are the workers' roots. */
  predicate Ready(n: nat, s: Sys, w: Worker)
  {
    PcOf(s, w) == Go && Cur(s.c.l, w) >= n
  }

  /** The suspended-thread objects that a worker is going to store into: the one it is about to wait in, or
      the one from which it took a continuation that may have to go back. */
  function Claims(pc: Pc): set<nat>
  {
    match pc
    case ForWait(i, _, _) => {i}
    case SwapCalled(_, k, _, _) => {k}
    case _ => {}
  }

  /** One waiter for each object: nobody waits in it or is about to. */
  predicate Unused(n: nat, s: Sys, i: nat)
  {
    At(s.c.l, Suspended(i)) == [] && forall u :: 0 <= u < n ==> i !in Claims(PcOf(s, u))
  }

  predicate Enabled(n: nat, s: Sys, a: Action)
  {
    var l, pc := s.c.l, PcOf(s, a.w);
    a.w < n &&
    match a
    case Fork(w, t) => Ready(n, s, w) && t >= n && t !in s.c.at
    case Spawn(w, t) => pc == Go && t >= n && t !in s.c.at
    case Yield(w) => Ready(n, s, w)
    case YieldSwitch(w) => pc == ForYield
    case RootPop(w) => pc == Go && Cur(l, w) == w && At(l, Deque(w)) != []
    case Steal(w, u) => pc == Go && Cur(l, w) == w && u < n && u != w && At(l, Deque(u)) != []
    case Execute(w) => pc == ForExecute
    case JoinLock(w, t) => Ready(n, s, w) && t >= n && t in s.c.at && t !in s.stage && t !in s.lock && t != Cur(l, w)
    case JoinFinished(w) => pc.JoinLocked? && pc.t in s.finished
    case JoinFree(w) => pc.JoinFound?
    case JoinPop(w) => pc.JoinLocked? && pc.t !in s.finished
    case JoinSwitch(w) => pc.ForJoin?
    case OnJoin(w) => pc.JoinCalled?
    case ExitLock(w) => Ready(n, s, w) && Cur(l, w) !in s.lock
    case ExitPop(w) => pc == ExitLocked
    case ExitSwitch(w) => pc == ForExit
    case OnExit(w) => pc.ExitCalled?
    case WaitPop(w, i) => Ready(n, s, w) && Unused(n, s, i)
    case WaitSwitch(w) => pc.ForWait?
    case WaitYes(w) => pc.WaitCalled?
    case WaitNo(w) => pc.WaitCalled? && At(l, Suspended(pc.i)) == [pc.prev]
    case PutBack(w) => pc.PuttingBack?
    case Notify(w, i) => (pc == Go || pc.WaitCalled? || pc.SwapCalled?) && At(l, Suspended(i)) != []
    case Enter(w, k) => Ready(n, s, w) && At(l, Suspended(k)) != []
    case Swap(w, i, k) => Ready(n, s, w) && Unused(n, s, i) && At(l, Suspended(k)) != []
    case SwapWith(w, i, k) => Ready(n, s, w) && Unused(n, s, i) && At(l, Suspended(k)) != []
    case SwapYes(w) => pc.SwapCalled?
    case SwapNo(w) => pc.SwapCalled? && At(l, Suspended(pc.i)) == [pc.prev]
  }

  /** How a step moves continuations. */
  function Moves(s: Sys, a: Action): Pos
  {
    var c, w, pc := s.c, a.w, PcOf(s, a.w);
    match a
    case Fork(w, t) => New(Mv(c, Running(w), Deque(w)), Running(w), t)
    case Spawn(w, t) => New(c, Deque(w), t)
    case Yield(w) => PopNext(c, w)
    case YieldSwitch(w) => Switch(c, w, Hand(w), Deque(w))
    case RootPop(w) => Mv(c, Deque(w), Hand(w))
    case Steal(w, u) => MvFirst(c, Deque(u), Hand(w))
    case Execute(w) => Switch(c, w, Hand(w), Root(w))
    case JoinPop(w) => PopNext(c, w)
    case JoinSwitch(w) => Switch(c, w, Hand(w), Prev(w))
    case OnJoin(w) => if pc.JoinCalled? then Mv(c, Prev(w), Joiner(pc.t)) else c
    case ExitPop(w) => if At(c.l, Joiner(Cur(c.l, w))) != [] then Mv(c, Joiner(Cur(c.l, w)), Hand(w)) else PopNext(c, w)
    case ExitSwitch(w) => Switch(c, w, Hand(w), Gone)
    case WaitPop(w, i) => PopNext(c, w)
    case WaitSwitch(w) => if pc.ForWait? then Switch(c, w, Hand(w), Suspended(pc.i)) else c
    case WaitNo(w) => if pc.WaitCalled? then Switch(c, w, Suspended(pc.i), Hand(w)) else c
    case PutBack(w) => if At(c.l, Root(w)) != [] then Mv(c, Hand(w), Deque(w)) else Mv(c, Hand(w), Root(w))
    case Notify(w, i) => Mv(c, Suspended(i), Deque(w))
    case Enter(w, k) => Switch(c, w, Suspended(k), Deque(w))
    case Swap(w, i, k) => Switch(c, w, Suspended(k), Suspended(i))
    case SwapWith(w, i, k) => Switch(c, w, Suspended(k), Suspended(i))
    case SwapNo(w) => if pc.SwapCalled? then Switch(c, w, Suspended(pc.i), Suspended(pc.k)) else c
    case _ => c
  }

  function PcAfter(s: Sys, a: Action): Pc
  {
    var l, pc := s.c.l, PcOf(s, a.w);
    match a
    case Yield(w) => ForYield
    case RootPop(w) => ForExecute
    case Steal(w, u) => ForExecute
    case JoinLock(w, t) => JoinLocked(t)
    case JoinFinished(w) => if pc.JoinLocked? then JoinFound(pc.t) else pc
    case JoinPop(w) => if pc.JoinLocked? then ForJoin(pc.t) else pc
    case JoinSwitch(w) => if pc.ForJoin? then JoinCalled(pc.t) else pc
    case ExitLock(w) => ExitLocked
    case ExitPop(w) => ForExit
    case ExitSwitch(w) => ExitCalled(Cur(l, w))
    case WaitPop(w, i) => ForWait(i, Cur(l, w), NextUp(l, w))
    case WaitSwitch(w) => if pc.ForWait? then WaitCalled(pc.i, Cur(l, w), pc.popped) else pc
    case WaitNo(w) => if pc.WaitCalled? then PuttingBack(pc.prev, Cur(l, w)) else pc
    case Notify(w, i) => pc
    case Spawn(w, t) => pc
    case SwapWith(w, i, k) =>
      SwapCalled(i, k, Cur(l, w), if At(l, Suspended(k)) != [] then Last(At(l, Suspended(k))) else w)
    case _ => Go
  }

  function LockAfter(s: Sys, a: Action): map<Task, Worker>
  {
    var pc := PcOf(s, a.w);
    match a
    case JoinLock(w, t) => s.lock[t := w]
    case ExitLock(w) => s.lock[Cur(s.c.l, w) := w]
    case JoinFinished(w) => if pc.JoinLocked? then s.lock - {pc.t} else s.lock
    case OnJoin(w) => if pc.JoinCalled? then s.lock - {pc.t} else s.lock
    case OnExit(w) => if pc.ExitCalled? then s.lock - {pc.t} else s.lock
    case _ => s.lock
  }

  function StageAfter(s: Sys, a: Action): map<Task, Stage>
  {
    var l, pc := s.c.l, PcOf(s, a.w);
    match a
    case JoinLock(w, t) => s.stage[t := InCall(w)]
    case JoinSwitch(w) => if pc.ForJoin? then s.stage[pc.t := Blocked(Cur(l, w))] else s.stage
    case JoinFree(w) => if pc.JoinFound? then s.stage[pc.t := Done] else s.stage
    case ExitSwitch(w) =>
      var t := Cur(l, w);
      if t in s.stage && At(l, Hand(w)) != [] && s.stage[t] == Blocked(At(l, Hand(w))[0]) then s.stage[t := Done] else s.stage
    case _ => s.stage
  }

  function Step(n: nat, s: Sys, a: Action): Sys
  {
    if !Enabled(n, s, a) then s
    else
      var pc := PcOf(s, a.w);
      Sys(Moves(s, a), s.pc[a.w := PcAfter(s, a)], LockAfter(s, a),
          if a.OnExit? && pc.ExitCalled? then s.finished + {pc.t} else s.finished,
          if a.JoinFree? && pc.JoinFound? then s.freed + {pc.t} else s.freed,
          StageAfter(s, a))
  }

  /** Every worker runs its root task. */
  function Start(n: nat): Sys
  {
    Sys(Pos(map w | 0 <= w < n :: Running(w) := [w], map w | 0 <= w < n :: Running(w)), map[], map[], {}, {}, map[])
  }

  function Run(n: nat, acts: seq<Action>): Sys
    decreases |acts|
  {
    var m := |acts|;
    if m == 0 then Start(n) else Step(n, Run(n, acts[..m - 1]), acts[m - 1])
  }

  // ----- Every task has one owner

  predicate Sound(c: Pos)
  {
    Placed(c.l, c.at) && Single(c.l)
  }

  lemma MvSound(c: Pos, p: Place, q: Place)
    requires Sound(c) && p != q && Vacant(c.l, q)
    ensures Sound(Mv(c, p, q)) && Mv(c, p, q).at.Keys == c.at.Keys
  {
    hide Placed;
    if At(c.l, p) != [] { ShiftPlaced(c.l, c.at, p, q); }
  }

  lemma MvFirstSound(c: Pos, p: Place, q: Place)
    requires Sound(c) && p != q && Vacant(c.l, q)
    ensures Sound(MvFirst(c, p, q)) && MvFirst(c, p, q).at.Keys == c.at.Keys
  {
    hide Placed;
    if At(c.l, p) != [] { ShiftFirstPlaced(c.l, c.at, p, q); }
  }

  lemma SwitchSound(c: Pos, w: Worker, p: Place, q: Place)
    requires Sound(c) && Switchable(c.l, w, p, q)
    ensures Sound(Switch(c, w, p, q)) && Switch(c, w, p, q).at.Keys == c.at.Keys
  {
    hide Sound, Mv;
    MvSound(c, Running(w), q);
    MvAt(c, Running(w), q, Running(w));
    MvSound(Mv(c, Running(w), q), p, Running(w));
  }

  /** A switch empties the running slot and finds the place where it saves vacant. */
  predicate Switchable(l: Lists, w: Worker, p: Place, q: Place)
  {
    |At(l, Running(w))| == 1 && p != Running(w) && q != Running(w) && p != q && Vacant(l, q)
  }

  lemma PopSound(c: Pos, w: Worker)
    requires Sound(c) && At(c.l, Hand(w)) == []
    ensures Sound(PopNext(c, w)) && PopNext(c, w).at.Keys == c.at.Keys
  {
    hide Sound, Mv;
    MvSound(c, Deque(w), Hand(w));
    MvSound(c, Root(w), Hand(w));
  }

  lemma NewSound(c: Pos, q: Place, t: Task)
    requires Sound(c) && t !in c.at && Vacant(c.l, q)
    ensures Sound(New(c, q, t))
  {
    PutInVacant(c.l, q, t);
    AppendPlaced(c.l, c.at, q, t);
  }

  /** Every pointer that a step stores into is empty, or is emptied by the same step. */
  predicate SlotsFree(s: Sys, a: Action)
  {
    var l, w, pc := s.c.l, a.w, PcOf(s, a.w);
    match a
    case Fork(_, _) => |At(l, Running(w))| == 1
    case YieldSwitch(_) => Switchable(l, w, Hand(w), Deque(w))
    case Execute(_) => Switchable(l, w, Hand(w), Root(w))
    case JoinSwitch(_) => Switchable(l, w, Hand(w), Prev(w))
    case OnJoin(_) => pc.JoinCalled? ==> Vacant(l, Joiner(pc.t))
    case ExitSwitch(_) => Switchable(l, w, Hand(w), Gone)
    case WaitSwitch(_) => pc.ForWait? ==> Switchable(l, w, Hand(w), Suspended(pc.i))
    case WaitNo(_) => pc.WaitCalled? ==> Switchable(l, w, Suspended(pc.i), Hand(w))
    case Enter(_, k) => Switchable(l, w, Suspended(k), Deque(w))
    case Swap(_, i, k) => Switchable(l, w, Suspended(k), Suspended(i))
    case SwapWith(_, i, k) => Switchable(l, w, Suspended(k), Suspended(i))
    case SwapNo(_) => pc.SwapCalled? ==> Switchable(l, w, Suspended(pc.i), Suspended(pc.k))
    case _ => Pops(a) ==> At(l, Hand(w)) == []
  }

  predicate Pops(a: Action)
  {
    a.Yield? || a.RootPop? || a.Steal? || a.JoinPop? || a.ExitPop? || a.WaitPop?
  }

  lemma StepSound(n: nat, s: Sys, a: Action)
    requires Sound(s.c) && Enabled(n, s, a) && SlotsFree(s, a)
    ensures Sound(Moves(s, a)) && s.c.at.Keys <= Moves(s, a).at.Keys
  {
    hide Sound, Mv, MvFirst, PopNext, Switch;
    var c, pc := s.c, PcOf(s, a.w);
    match a
    case Fork(w, t) =>
      MvSound(c, Running(w), Deque(w));
      MvAt(c, Running(w), Deque(w), Running(w));
      NewSound(Mv(c, Running(w), Deque(w)), Running(w), t);
    case Spawn(w, t) => NewSound(c, Deque(w), t);
    case Yield(w) => PopSound(c, w);
    case YieldSwitch(w) => SwitchSound(c, w, Hand(w), Deque(w));
    case RootPop(w) => MvSound(c, Deque(w), Hand(w));
    case Steal(w, u) => MvFirstSound(c, Deque(u), Hand(w));
    case Execute(w) => SwitchSound(c, w, Hand(w), Root(w));
    case JoinPop(w) => PopSound(c, w);
    case JoinSwitch(w) => SwitchSound(c, w, Hand(w), Prev(w));
    case OnJoin(w) => MvSound(c, Prev(w), Joiner(pc.t));
    case ExitPop(w) =>
      MvSound(c, Joiner(Cur(c.l, w)), Hand(w));
      PopSound(c, w);
    case ExitSwitch(w) => SwitchSound(c, w, Hand(w), Gone);
    case WaitPop(w, i) => PopSound(c, w);
    case WaitSwitch(w) => SwitchSound(c, w, Hand(w), Suspended(pc.i));
    case WaitNo(w) => SwitchSound(c, w, Suspended(pc.i), Hand(w));
    case PutBack(w) =>
      MvSound(c, Hand(w), Deque(w));
      if At(c.l, Root(w)) == [] { MvSound(c, Hand(w), Root(w)); }
    case Notify(w, i) => MvSound(c, Suspended(i), Deque(w));
    case Enter(w, k) => SwitchSound(c, w, Suspended(k), Deque(w));
    case Swap(w, i, k) => SwitchSound(c, w, Suspended(k), Suspended(i));
    case SwapWith(w, i, k) => SwitchSound(c, w, Suspended(k), Suspended(i));
    case SwapNo(w) => SwitchSound(c, w, Suspended(pc.i), Suspended(pc.k));
    case _ =>
  }

  // ----- What each worker holds

  predicate HasHand(pc: Pc)
  {
    pc.ForYield? || pc.ForExecute? || pc.ForJoin? || pc.ForExit? || pc.ForWait? || pc.PuttingBack?
  }

  /** In these states an ordinary task is running. */
  predicate OwnTask(pc: Pc)
  {
    || pc.ForYield? || pc.JoinLocked? || pc.ForJoin? || pc.JoinFound? || pc.ExitLocked? || pc.ForExit? || pc.ForWait?
    || pc.PuttingBack? || pc.SwapCalled?
  }

  function Count(b: bool): nat
  {
    if b then 1 else 0
  }

  predicate WorkerOk(n: nat, l: Lists, w: Worker, pc: Pc)
  {
    && |At(l, Running(w))| == 1
    && |At(l, Hand(w))| == Count(HasHand(pc))
    && |At(l, Prev(w))| == Count(pc.JoinCalled?)
    && (OwnTask(pc) ==> Cur(l, w) >= n)
    && (pc.ForExecute? ==> Cur(l, w) == w)
    && (pc.ForWait? ==> Cur(l, w) == pc.caller && At(l, Hand(w)) == [pc.popped])
    && (pc.WaitCalled? ==> Cur(l, w) == pc.popped && pc.prev >= n)
    && (pc.PuttingBack? ==> Cur(l, w) == pc.prev && At(l, Hand(w)) == [pc.popped])
    && (pc.SwapCalled? ==> Cur(l, w) == pc.next && pc.prev >= n && pc.i != pc.k)
  }

  /** A worker's root task runs on it, or is in its root slot, or is about to run or to be put back; and
      nothing else is ever in the root slot. */
  predicate RootsOk(n: nat, at: map<Task, Place>)
  {
    && (forall r :: 0 <= r < n ==> RootAt(at, r))
    && (forall t :: t in at && at[t].Root? ==> at[t].w == t < n)
  }

  predicate RootAt(at: map<Task, Place>, r: Task)
  {
    r in at && (at[r] == Running(r) || at[r] == Root(r) || at[r] == Hand(r))
  }

  /** What a list looks like after a move. */
  lemma MvAt(c: Pos, p: Place, q: Place, r: Place)
    requires p != q && At(c.l, p) != [] && Vacant(c.l, q)
    ensures var s := At(c.l, p);
            At(Mv(c, p, q).l, r) == (if r == p then s[..|s| - 1] else if r == q then At(c.l, q) + [Last(s)] else At(c.l, r))
  {
  }

  /** After a switch the resumed task runs and the running one is saved; other lists are as before. */
  lemma SwitchAt(c: Pos, w: Worker, p: Place, q: Place, r: Place)
    requires Switchable(c.l, w, p, q) && At(c.l, p) != []
    ensures var s, x := At(c.l, p), At(c.l, Running(w))[0];
            && At(Switch(c, w, p, q).l, r)
            == (if r == p then s[..|s| - 1] else if r == q then At(c.l, q) + [x]
                else if r == Running(w) then [Last(s)] else At(c.l, r))
            && Switch(c, w, p, q).at == c.at[x := q][Last(s) := Running(w)]
  {
    hide Mv;
    var d := Mv(c, Running(w), q);
    MvAt(c, Running(w), q, r);
    MvAt(c, Running(w), q, p);
    MvAt(c, Running(w), q, Running(w));
    MvAt(d, p, Running(w), r);
    MvAtMap(c, Running(w), q);
    MvAtMap(d, p, Running(w));
  }

  lemma MvAtMap(c: Pos, p: Place, q: Place)
    requires At(c.l, p) != []
    ensures Mv(c, p, q).at == c.at[Last(At(c.l, p)) := q]
  {
  }

  /** There always is something to pop: the deque or the root slot is not empty when a task other than
      the root runs and nothing has been popped yet. */
  lemma PopFinds(n: nat, c: Pos, w: Worker)
    requires Sound(c) && RootsOk(n, c.at) && w < n
    requires |At(c.l, Running(w))| == 1 && Cur(c.l, w) >= n && At(c.l, Hand(w)) == []
    ensures At(c.l, Root(w)) == [w]
  {
    assert RootAt(c.at, w);
    InPlace(c.l, c.at, w, Running(w));
    InPlace(c.l, c.at, w, Hand(w));
    InPlace(c.l, c.at, w, Root(w));
    OnlyRoot(n, c, w);
  }

  lemma OnlyRoot(n: nat, c: Pos, w: Worker)
    requires Sound(c) && RootsOk(n, c.at)
    ensures At(c.l, Root(w)) == [] || At(c.l, Root(w)) == [w]
  {
    hide Placed, Distinct;
    var s := At(c.l, Root(w));
    forall i | 0 <= i < |s| ensures s[i] == w { InPlace(c.l, c.at, s[i], Root(w)); }
    if |s| > 1 { TwoDiffer(c, Root(w)); }
  }

  lemma TwoDiffer(c: Pos, p: Place)
    requires Sound(c) && |At(c.l, p)| > 1
    ensures At(c.l, p)[0] != At(c.l, p)[1]
  {
  }

  lemma MvOther(c: Pos, p: Place, q: Place, r: Place)
    requires r != p && r != q
    ensures At(Mv(c, p, q).l, r) == At(c.l, r) && At(MvFirst(c, p, q).l, r) == At(c.l, r)
  {
  }

  lemma SwitchOther(c: Pos, w: Worker, p: Place, q: Place, r: Place)
    requires r != p && r != q && r != Running(w)
    ensures At(Switch(c, w, p, q).l, r) == At(c.l, r)
  {
    hide Mv;
    MvOther(c, Running(w), q, r);
    MvOther(Mv(c, Running(w), q), p, Running(w), r);
  }

  lemma PopOther(c: Pos, w: Worker, r: Place)
    requires r != Deque(w) && r != Root(w) && r != Hand(w)
    ensures At(PopNext(c, w).l, r) == At(c.l, r)
  {
    hide Mv;
    MvOther(c, Deque(w), Hand(w), r);
    MvOther(c, Root(w), Hand(w), r);
  }

  /** A slot of one worker. */
  predicate SlotOf(r: Place, u: Worker)
  {
    r == Running(u) || r == Hand(u) || r == Prev(u) || r == Root(u)
  }

  /** A step leaves the slots of other workers alone. */
  lemma OthersKept(s: Sys, a: Action, u: Worker, r: Place)
    requires u != a.w && SlotOf(r, u)
    ensures At(Moves(s, a).l, r) == At(s.c.l, r)
  {
    hide Mv, MvFirst, PopNext, Switch;
    var c, pc := s.c, PcOf(s, a.w);
    match a
    case Fork(w, t) => MvOther(c, Running(w), Deque(w), r);
    case Yield(w) => PopOther(c, w, r);
    case YieldSwitch(w) => SwitchOther(c, w, Hand(w), Deque(w), r);
    case RootPop(w) => MvOther(c, Deque(w), Hand(w), r);
    case Steal(w, v) => MvOther(c, Deque(v), Hand(w), r);
    case Execute(w) => SwitchOther(c, w, Hand(w), Root(w), r);
    case JoinPop(w) => PopOther(c, w, r);
    case JoinSwitch(w) => SwitchOther(c, w, Hand(w), Prev(w), r);
    case OnJoin(w) => if pc.JoinCalled? { MvOther(c, Prev(w), Joiner(pc.t), r); }
    case ExitPop(w) =>
      MvOther(c, Joiner(Cur(c.l, w)), Hand(w), r);
      PopOther(c, w, r);
    case ExitSwitch(w) => SwitchOther(c, w, Hand(w), Gone, r);
    case WaitPop(w, i) => PopOther(c, w, r);
    case WaitSwitch(w) => if pc.ForWait? { SwitchOther(c, w, Hand(w), Suspended(pc.i), r); }
    case WaitNo(w) => if pc.WaitCalled? { SwitchOther(c, w, Suspended(pc.i), Hand(w), r); }
    case PutBack(w) =>
      MvOther(c, Hand(w), Deque(w), r);
      MvOther(c, Hand(w), Root(w), r);
    case Notify(w, i) => MvOther(c, Suspended(i), Deque(w), r);
    case Enter(w, k) => SwitchOther(c, w, Suspended(k), Deque(w), r);
    case Swap(w, i, k) => SwitchOther(c, w, Suspended(k), Suspended(i), r);
    case SwapWith(w, i, k) => SwitchOther(c, w, Suspended(k), Suspended(i), r);
    case SwapNo(w) => if pc.SwapCalled? { SwitchOther(c, w, Suspended(pc.i), Suspended(pc.k), r); }
    case _ =>
  }

  predicate Shaped(n: nat, s: Sys)
  {
    Sound(s.c) && RootsOk(n, s.c.at) && forall w :: 0 <= w < n ==> WorkerOk(n, s.c.l, w, PcOf(s, w))
  }

  /** A popped continuation is in the worker's hand, and nothing else of it changed. */
  lemma PopAt(n: nat, c: Pos, w: Worker)
    requires Sound(c) && RootsOk(n, c.at) && w < n
    requires |At(c.l, Running(w))| == 1 && Cur(c.l, w) >= n && At(c.l, Hand(w)) == []
    ensures var d := PopNext(c, w);
            && At(d.l, Hand(w)) == [NextUp(c.l, w)] && At(d.l, Running(w)) == At(c.l, Running(w)) && At(d.l, Prev(w)) == At(c.l, Prev(w))
            && (exists p, t :: (p == Deque(w) || p == Root(w)) && t in At(c.l, p) && t in c.at && c.at[t] == p && d.at == c.at[t := Hand(w)])
  {
    hide Mv, RootsOk, Placed;
    PopFinds(n, c, w);
    var p := if At(c.l, Deque(w)) != [] then Deque(w) else Root(w);
    MvAt(c, p, Hand(w), Hand(w));
    PopOther(c, w, Running(w));
    PopOther(c, w, Prev(w));
    MvAtMap(c, p, Hand(w));
    InPlace(c.l, c.at, Last(At(c.l, p)), p);
  }

  /** A switch of worker w to the task at p, seen by the worker. */
  lemma SwitchView(c: Pos, w: Worker, p: Place, q: Place)
    requires Switchable(c.l, w, p, q) && At(c.l, p) != []
    ensures var d, s := Switch(c, w, p, q), At(c.l, p);
            && At(d.l, Running(w)) == [Last(s)]
            && At(d.l, Hand(w)) == (if p == Hand(w) then s[..|s| - 1] else if q == Hand(w) then At(c.l, q) + At(c.l, Running(w)) else At(c.l, Hand(w)))
            && At(d.l, Prev(w)) == (if p == Prev(w) then s[..|s| - 1] else if q == Prev(w) then At(c.l, q) + At(c.l, Running(w)) else At(c.l, Prev(w)))
  {
    hide Switch;
    SwitchAt(c, w, p, q, Running(w));
    SwitchAt(c, w, p, q, Hand(w));
    SwitchAt(c, w, p, q, Prev(w));
  }

  /** What is not a root is an ordinary task. */
  lemma NotARoot(n: nat, c: Pos, t: Task, p: Place)
    requires Sound(c) && RootsOk(n, c.at) && t in At(c.l, p) && (p.Deque? || p.Suspended? || p.Joiner? || p.Prev? || p.Gone?)
    ensures t >= n
  {
    hide RootsOk, Placed;
    InPlace(c.l, c.at, t, p);
    if t < n { RootPlaces(n, c.at, t); }
  }

  lemma RootPlaces(n: nat, at: map<Task, Place>, t: Task)
    requires RootsOk(n, at) && t < n
    ensures t in at && (at[t].Running? || at[t].Root? || at[t].Hand?) && at[t].w == t
  {
    assert RootAt(at, t);
  }

  /** Steps that pop the deque or the root slot. */
  lemma PopNextKept(n: nat, s: Sys, a: Action)
    requires Sound(s.c) && RootsOk(n, s.c.at) && WorkerOk(n, s.c.l, a.w, PcOf(s, a.w)) && Enabled(n, s, a)
    requires a.Yield? || a.JoinPop? || a.WaitPop? || (a.ExitPop? && At(s.c.l, Joiner(Cur(s.c.l, a.w))) == [])
    ensures WorkerOk(n, Moves(s, a).l, a.w, PcAfter(s, a))
  {
    hide Sound, RootsOk, PopNext;
    PopAt(n, s.c, a.w);
  }

  /** Steps that take a joiner or a task of the scheduler loop. */
  lemma TakeKept(n: nat, s: Sys, a: Action)
    requires WorkerOk(n, s.c.l, a.w, PcOf(s, a.w)) && Enabled(n, s, a)
    requires a.RootPop? || a.Steal? || (a.ExitPop? && At(s.c.l, Joiner(Cur(s.c.l, a.w))) != [])
    ensures WorkerOk(n, Moves(s, a).l, a.w, PcAfter(s, a))
  {
    hide Mv, MvFirst, PopNext;
    var c, w := s.c, a.w;
    if a.Steal? {
      StealView(c, w, a.u);
    } else {
      var p := if a.RootPop? then Deque(w) else Joiner(Cur(c.l, w));
      MvAt(c, p, Hand(w), Hand(w));
      MvOther(c, p, Hand(w), Running(w));
      MvOther(c, p, Hand(w), Prev(w));
    }
  }

  lemma PopKept(n: nat, s: Sys, a: Action)
    requires Sound(s.c) && RootsOk(n, s.c.at) && WorkerOk(n, s.c.l, a.w, PcOf(s, a.w)) && Enabled(n, s, a) && Pops(a)
    ensures WorkerOk(n, Moves(s, a).l, a.w, PcAfter(s, a))
  {
    hide Sound, RootsOk, Moves, Enabled, WorkerOk, PcAfter;
    if a.RootPop? || a.Steal? || (a.ExitPop? && At(s.c.l, Joiner(Cur(s.c.l, a.w))) != []) {
      TakeKept(n, s, a);
    } else {
      PopNextKept(n, s, a);
    }
  }

  predicate SwitchesToHand(a: Action)
  {
    a.YieldSwitch? || a.Execute? || a.JoinSwitch? || a.ExitSwitch? || a.WaitSwitch?
  }

  predicate SwitchesToSuspended(a: Action)
  {
    a.WaitNo? || a.Enter? || a.Swap? || a.SwapWith? || a.SwapNo?
  }

  /** Switches to the continuation in hand. */
  lemma HandSwitchKept(n: nat, s: Sys, a: Action)
    requires SlotsFree(s, a)
    requires WorkerOk(n, s.c.l, a.w, PcOf(s, a.w)) && Enabled(n, s, a) && SwitchesToHand(a)
    ensures WorkerOk(n, Moves(s, a).l, a.w, PcAfter(s, a))
  {
    hide Switch;
    var c, pc, w := s.c, PcOf(s, a.w), a.w;
    match a
    case YieldSwitch(_) => SwitchView(c, w, Hand(w), Deque(w));
    case Execute(_) => SwitchView(c, w, Hand(w), Root(w));
    case JoinSwitch(_) => SwitchView(c, w, Hand(w), Prev(w));
    case ExitSwitch(_) => SwitchView(c, w, Hand(w), Gone);
    case WaitSwitch(_) => SwitchView(c, w, Hand(w), Suspended(pc.i));
  }

  /** Switches to a suspended thread. */
  lemma SuspendedSwitchKept(n: nat, s: Sys, a: Action)
    requires SlotsFree(s, a)
    requires Sound(s.c) && RootsOk(n, s.c.at) && WorkerOk(n, s.c.l, a.w, PcOf(s, a.w)) && Enabled(n, s, a)
    requires SwitchesToSuspended(a)
    ensures WorkerOk(n, Moves(s, a).l, a.w, PcAfter(s, a))
  {
    hide Sound, RootsOk, Switch, Unused;
    var c, w := s.c, a.w;
    if a.WaitNo? || a.SwapNo? {
      RefusedKept(n, s, a);
    } else {
      var q := if a.Enter? then Deque(w) else Suspended(a.i);
      NotARoot(n, c, Last(At(c.l, Suspended(a.k))), Suspended(a.k));
      SwitchView(c, w, Suspended(a.k), q);
    }
  }

  /** The user's function said no: back to the caller. */
  lemma RefusedKept(n: nat, s: Sys, a: Action)
    requires SlotsFree(s, a) && WorkerOk(n, s.c.l, a.w, PcOf(s, a.w)) && Enabled(n, s, a) && (a.WaitNo? || a.SwapNo?)
    ensures WorkerOk(n, Moves(s, a).l, a.w, PcAfter(s, a))
  {
    hide Switch;
    var c, w, pc := s.c, a.w, PcOf(s, a.w);
    SwitchView(c, w, Suspended(pc.i), if a.WaitNo? then Hand(w) else Suspended(pc.k));
  }

  lemma ForkKept(n: nat, s: Sys, a: Action)
    requires SlotsFree(s, a)
    requires WorkerOk(n, s.c.l, a.w, PcOf(s, a.w)) && Enabled(n, s, a) && (a.Fork? || a.OnJoin?)
    ensures WorkerOk(n, Moves(s, a).l, a.w, PcAfter(s, a))
  {
    hide Mv;
    var c, pc, w := s.c, PcOf(s, a.w), a.w;
    var p, q := if a.Fork? then Running(w) else Prev(w), if a.Fork? then Deque(w) else Joiner(pc.t);
    MvAt(c, p, q, p);
    MvOther(c, p, q, Hand(w));
    if a.Fork? { MvOther(c, p, q, Prev(w)); } else { MvOther(c, p, q, Running(w)); }
  }

  lemma PutBackKept(n: nat, s: Sys, a: Action)
    requires WorkerOk(n, s.c.l, a.w, PcOf(s, a.w)) && Enabled(n, s, a) && (a.PutBack? || a.Notify?)
    ensures WorkerOk(n, Moves(s, a).l, a.w, PcAfter(s, a))
  {
    hide Mv;
    var c, w := s.c, a.w;
    var p := if a.PutBack? then Hand(w) else Suspended(a.i);
    var q := if a.PutBack? && At(c.l, Root(w)) == [] then Root(w) else Deque(w);
    if a.PutBack? { MvAt(c, p, q, p); } else { MvOther(c, p, q, Hand(w)); }
    MvOther(c, p, q, Running(w));
    MvOther(c, p, q, Prev(w));
  }

  lemma WorkerKept(n: nat, s: Sys, a: Action)
    requires SlotsFree(s, a)
    requires Sound(s.c) && RootsOk(n, s.c.at) && WorkerOk(n, s.c.l, a.w, PcOf(s, a.w)) && Enabled(n, s, a)
    ensures WorkerOk(n, Moves(s, a).l, a.w, PcAfter(s, a))
  {
    hide Sound, RootsOk, Mv, MvFirst, PopNext, Switch;
    if Pops(a) {
      PopKept(n, s, a);
    } else if SwitchesToHand(a) {
      HandSwitchKept(n, s, a);
    } else if SwitchesToSuspended(a) {
      SuspendedSwitchKept(n, s, a);
    } else if a.Fork? || a.OnJoin? {
      ForkKept(n, s, a);
    } else if a.PutBack? || a.Notify? {
      PutBackKept(n, s, a);
    }
  }

  lemma StealView(c: Pos, w: Worker, u: Worker)
    requires At(c.l, Deque(u)) != [] && At(c.l, Hand(w)) == []
    ensures var d := MvFirst(c, Deque(u), Hand(w));
            && At(d.l, Hand(w)) == At(c.l, Hand(w)) + [At(c.l, Deque(u))[0]]
            && At(d.l, Running(w)) == At(c.l, Running(w)) && At(d.l, Prev(w)) == At(c.l, Prev(w))
            && d.at == c.at[At(c.l, Deque(u))[0] := Hand(w)]
  {
  }

  // ----- Root tasks stay on their worker

  lemma RootsUpdate(n: nat, at: map<Task, Place>, x: Task, q: Place)
    requires RootsOk(n, at) && (q.Root? ==> q.w == x < n)
    requires x < n ==> q == Running(x) || q == Root(x) || q == Hand(x)
    ensures RootsOk(n, at[x := q])
  {
    var at' := at[x := q];
    forall r | 0 <= r < n ensures RootAt(at', r) { assert RootAt(at, r); }
  }

  /** A root in a worker's slot is that worker's root. */
  lemma OwnRoot(n: nat, c: Pos, t: Task, p: Place)
    requires Sound(c) && RootsOk(n, c.at) && t in At(c.l, p) && t < n
    ensures (p.Running? || p.Root? || p.Hand?) && p.w == t
  {
    hide RootsOk, Placed;
    InPlace(c.l, c.at, t, p);
    RootPlaces(n, c.at, t);
  }

  /** A single move that respects the roots. */
  lemma MvRoots(n: nat, c: Pos, p: Place, q: Place)
    requires Sound(c) && RootsOk(n, c.at) && At(c.l, p) != []
    requires var x := Last(At(c.l, p));
             (q.Root? ==> q.w == x < n) && (x < n ==> q == Running(x) || q == Root(x) || q == Hand(x))
    ensures RootsOk(n, Mv(c, p, q).at)
  {
    RootsUpdate(n, c.at, Last(At(c.l, p)), q);
  }

  /** A switch that saves an ordinary task outside the root slots. */
  lemma SwitchRoots(n: nat, c: Pos, w: Worker, p: Place, q: Place)
    requires Sound(c) && RootsOk(n, c.at) && Switchable(c.l, w, p, q) && At(c.l, p) != []
    requires p == Hand(w) || p.Suspended?
    requires q == Hand(w) || (q == Root(w) && Cur(c.l, w) == w < n)
      || (Cur(c.l, w) >= n && q != Running(w) && !q.Root? && p != q)
    requires p != q
    ensures RootsOk(n, Switch(c, w, p, q).at)
  {
    hide Sound, RootsOk, Switch;
    SwitchAt(c, w, p, q, p);
    var x, y := Cur(c.l, w), Last(At(c.l, p));
    if x < n { OwnRoot(n, c, x, Running(w)); }
    if y < n { OwnRoot(n, c, y, p); }
    RootsUpdate(n, c.at, x, q);
    RootsUpdate(n, c.at[x := q], y, Running(w));
  }

  lemma PopRoots(n: nat, c: Pos, w: Worker)
    requires Sound(c) && RootsOk(n, c.at) && w < n
    requires |At(c.l, Running(w))| == 1 && Cur(c.l, w) >= n && At(c.l, Hand(w)) == []
    ensures RootsOk(n, PopNext(c, w).at)
  {
    hide Sound, RootsOk, Mv;
    PopFinds(n, c, w);
    if At(c.l, Deque(w)) != [] {
      NotARoot(n, c, Last(At(c.l, Deque(w))), Deque(w));
      MvRoots(n, c, Deque(w), Hand(w));
    } else {
      MvRoots(n, c, Root(w), Hand(w));
    }
  }

  /** What is put back goes to the root slot exactly if it is the root. */
  lemma PutBackRight(n: nat, c: Pos, w: Worker)
    requires Sound(c) && RootsOk(n, c.at) && w < n
    requires |At(c.l, Running(w))| == 1 && Cur(c.l, w) >= n && |At(c.l, Hand(w))| == 1
    ensures At(c.l, Root(w)) == [] <==> At(c.l, Hand(w))[0] == w
    ensures At(c.l, Root(w)) != [] ==> At(c.l, Hand(w))[0] >= n
  {
    hide RootsOk, Placed;
    var x := At(c.l, Hand(w))[0];
    RootPlaces(n, c.at, w);
    InPlace(c.l, c.at, w, Running(w));
    InPlace(c.l, c.at, w, Hand(w));
    InPlace(c.l, c.at, w, Root(w));
    OnlyRoot(n, c, w);
    if x < n { OwnRoot(n, c, x, Hand(w)); }
  }

  lemma RootsKept(n: nat, s: Sys, a: Action)
    requires SlotsFree(s, a)
    requires Sound(s.c) && RootsOk(n, s.c.at) && WorkerOk(n, s.c.l, a.w, PcOf(s, a.w)) && Enabled(n, s, a)
    ensures RootsOk(n, Moves(s, a).at)
  {
    hide Sound, RootsOk, Mv, MvFirst, PopNext, Switch;
    var c, pc, w := s.c, PcOf(s, a.w), a.w;
    match a
    case Fork(_, t) =>
      MvRoots(n, c, Running(w), Deque(w));
      RootsUpdate(n, Mv(c, Running(w), Deque(w)).at, t, Running(w));
    case Spawn(_, t) => RootsUpdate(n, c.at, t, Deque(w));
    case Yield(_) => PopRoots(n, c, w);
    case YieldSwitch(_) => SwitchRoots(n, c, w, Hand(w), Deque(w));
    case RootPop(_) =>
      NotARoot(n, c, Last(At(c.l, Deque(w))), Deque(w));
      MvRoots(n, c, Deque(w), Hand(w));
    case Steal(_, u) =>
      NotARoot(n, c, At(c.l, Deque(u))[0], Deque(u));
      StealView(c, w, u);
      RootsUpdate(n, c.at, At(c.l, Deque(u))[0], Hand(w));
    case Execute(_) => SwitchRoots(n, c, w, Hand(w), Root(w));
    case JoinPop(_) => PopRoots(n, c, w);
    case JoinSwitch(_) => SwitchRoots(n, c, w, Hand(w), Prev(w));
    case OnJoin(_) =>
      NotARoot(n, c, Last(At(c.l, Prev(w))), Prev(w));
      MvRoots(n, c, Prev(w), Joiner(pc.t));
    case ExitPop(_) =>
      var j := Joiner(Cur(c.l, w));
      if At(c.l, j) != [] {
        NotARoot(n, c, Last(At(c.l, j)), j);
        MvRoots(n, c, j, Hand(w));
      } else {
        PopRoots(n, c, w);
      }
    case ExitSwitch(_) => SwitchRoots(n, c, w, Hand(w), Gone);
    case WaitPop(_, i) => PopRoots(n, c, w);
    case WaitSwitch(_) => SwitchRoots(n, c, w, Hand(w), Suspended(pc.i));
    case WaitNo(_) => SwitchRoots(n, c, w, Suspended(pc.i), Hand(w));
    case PutBack(_) =>
      PutBackRight(n, c, w);
      MvRoots(n, c, Hand(w), if At(c.l, Root(w)) != [] then Deque(w) else Root(w));
    case Notify(_, i) =>
      NotARoot(n, c, Last(At(c.l, Suspended(i))), Suspended(i));
      MvRoots(n, c, Suspended(i), Deque(w));
    case Enter(_, k) => SwitchRoots(n, c, w, Suspended(k), Deque(w));
    case Swap(_, i, k) => SwitchRoots(n, c, w, Suspended(k), Suspended(i));
    case SwapWith(_, i, k) => SwitchRoots(n, c, w, Suspended(k), Suspended(i));
    case SwapNo(_) => SwitchRoots(n, c, w, Suspended(pc.i), Suspended(pc.k));
    case _ =>
  }

  lemma ShapedKept(n: nat, s: Sys, a: Action)
    requires SlotsFree(s, a)
    requires Shaped(n, s) && Enabled(n, s, a)
    ensures Shaped(n, Step(n, s, a))
  {
    hide Sound, RootsOk, WorkerOk, Enabled, Moves, PcAfter, LockAfter, StageAfter;
    StepSound(n, s, a);
    WorkerInShape(n, s, a);
    WorkerKept(n, s, a);
    RootsKept(n, s, a);
    var s' := Step(n, s, a);
    forall u | 0 <= u < n ensures WorkerOk(n, s'.c.l, u, PcOf(s', u)) {
      if u != a.w { OtherWorker(n, s, a, u); }
    }
  }

  lemma WorkerInShape(n: nat, s: Sys, a: Action)
    requires Shaped(n, s) && Enabled(n, s, a)
    ensures a.w < n && WorkerOk(n, s.c.l, a.w, PcOf(s, a.w))
  {
    hide WorkerOk;
  }

  lemma OtherWorker(n: nat, s: Sys, a: Action, u: Worker)
    requires Shaped(n, s) && u < n && u != a.w
    ensures WorkerOk(n, Moves(s, a).l, u, PcOf(s, u))
  {
    hide Moves, Sound, RootsOk;
    assert WorkerOk(n, s.c.l, u, PcOf(s, u));
    OthersKept(s, a, u, Running(u));
    OthersKept(s, a, u, Hand(u));
    OthersKept(s, a, u, Prev(u));
  }

  // ----- Which tasks a step moves

  /** Whether a step takes a continuation out of p. */
  predicate TakesFrom(s: Sys, a: Action, p: Place)
  {
    var w, pc := a.w, PcOf(s, a.w);
    match a
    case Fork(_, _) => p == Running(w)
    case RootPop(_) => p == Deque(w)
    case Steal(_, u) => p == Deque(u)
    case OnJoin(_) => p == Prev(w)
    case ExitPop(_) => p == Joiner(Cur(s.c.l, w)) || p == Deque(w) || p == Root(w)
    case PutBack(_) => p == Hand(w)
    case Notify(_, i) => p == Suspended(i)
    case Enter(_, k) => p == Running(w) || p == Suspended(k)
    case Swap(_, _, k) => p == Running(w) || p == Suspended(k)
    case SwapWith(_, _, k) => p == Running(w) || p == Suspended(k)
    case WaitNo(_) => p == Running(w) || p.Suspended?
    case SwapNo(_) => p == Running(w) || p.Suspended?
    case _ =>
      || (SwitchesToHand(a) && (p == Running(w) || p == Hand(w)))
      || (Pops(a) && (p == Deque(w) || p == Root(w)))
  }

  lemma MvStays(c: Pos, p: Place, q: Place, j: Task)
    requires Sound(c) && j in c.at && c.at[j] != p
    ensures Mv(c, p, q).at.Keys == c.at.Keys && Mv(c, p, q).at[j] == c.at[j]
    ensures MvFirst(c, p, q).at.Keys == c.at.Keys && MvFirst(c, p, q).at[j] == c.at[j]
  {
    if At(c.l, p) != [] {
      InPlace(c.l, c.at, Last(At(c.l, p)), p);
      InPlace(c.l, c.at, At(c.l, p)[0], p);
    }
    hide Placed, Shift, ShiftFirst;
  }

  lemma SwitchStays(c: Pos, w: Worker, p: Place, q: Place, j: Task)
    requires Sound(c) && Switchable(c.l, w, p, q) && j in c.at && c.at[j] != p && c.at[j] != Running(w)
    ensures Switch(c, w, p, q).at.Keys == c.at.Keys && Switch(c, w, p, q).at[j] == c.at[j]
  {
    hide Sound, Mv;
    MvStays(c, Running(w), q, j);
    MvSound(c, Running(w), q);
    MvStays(Mv(c, Running(w), q), p, Running(w), j);
  }

  lemma PopStays(c: Pos, w: Worker, j: Task)
    requires Sound(c) && j in c.at && c.at[j] != Deque(w) && c.at[j] != Root(w)
    ensures PopNext(c, w).at.Keys == c.at.Keys && PopNext(c, w).at[j] == c.at[j]
  {
    hide Sound, Mv;
    MvStays(c, Deque(w), Hand(w), j);
    MvStays(c, Root(w), Hand(w), j);
  }

  /** A task that is nowhere the step takes from stays where it is. */
  lemma StaysPut(n: nat, s: Sys, a: Action, j: Task)
    requires SlotsFree(s, a)
    requires Sound(s.c) && Enabled(n, s, a) && j in s.c.at && !TakesFrom(s, a, s.c.at[j])
    ensures j in Moves(s, a).at && Moves(s, a).at[j] == s.c.at[j]
  {
    hide Sound, Mv, MvFirst, PopNext, Switch;
    var c, pc, w := s.c, PcOf(s, a.w), a.w;
    match a
    case Fork(_, t) => MvStays(c, Running(w), Deque(w), j);
    case Spawn(_, t) =>
    case Yield(_) => PopStays(c, w, j);
    case YieldSwitch(_) => SwitchStays(c, w, Hand(w), Deque(w), j);
    case RootPop(_) => MvStays(c, Deque(w), Hand(w), j);
    case Steal(_, u) => MvStays(c, Deque(u), Hand(w), j);
    case Execute(_) => SwitchStays(c, w, Hand(w), Root(w), j);
    case JoinPop(_) => PopStays(c, w, j);
    case JoinSwitch(_) => SwitchStays(c, w, Hand(w), Prev(w), j);
    case OnJoin(_) => MvStays(c, Prev(w), Joiner(pc.t), j);
    case ExitPop(_) =>
      MvStays(c, Joiner(Cur(c.l, w)), Hand(w), j);
      PopStays(c, w, j);
    case ExitSwitch(_) => SwitchStays(c, w, Hand(w), Gone, j);
    case WaitPop(_, i) => PopStays(c, w, j);
    case WaitSwitch(_) => SwitchStays(c, w, Hand(w), Suspended(pc.i), j);
    case WaitNo(_) => SwitchStays(c, w, Suspended(pc.i), Hand(w), j);
    case PutBack(_) =>
      MvStays(c, Hand(w), Deque(w), j);
      MvStays(c, Hand(w), Root(w), j);
    case Notify(_, i) => MvStays(c, Suspended(i), Deque(w), j);
    case Enter(_, k) => SwitchStays(c, w, Suspended(k), Deque(w), j);
    case Swap(_, i, k) => SwitchStays(c, w, Suspended(k), Suspended(i), j);
    case SwapWith(_, i, k) => SwitchStays(c, w, Suspended(k), Suspended(i), j);
    case SwapNo(_) => SwitchStays(c, w, Suspended(pc.i), Suspended(pc.k), j);
    case _ =>
  }

  // ----- Locks carried across switches

  /** The task whose lock a worker carries. */
  function Carry(pc: Pc, cur: Task): set<Task>
  {
    match pc
    case JoinLocked(t) => {t}
    case ForJoin(t) => {t}
    case JoinCalled(t) => {t}
    case ExitLocked => {cur}
    case ForExit => {cur}
    case ExitCalled(t) => {t}
    case _ => {}
  }

  function Carries(s: Sys, w: Worker): set<Task>
  {
    Carry(PcOf(s, w), Cur(s.c.l, w))
  }

  /** A task's lock is held exactly by the worker that carries it. */
  predicate LocksOk(n: nat, s: Sys)
  {
    && (forall w, t :: 0 <= w < n && t in Carries(s, w) ==> t in s.lock && s.lock[t] == w)
    && (forall t :: t in s.lock ==> s.lock[t] < n && t in Carries(s, s.lock[t]))
  }

  predicate TakesLock(a: Action)
  {
    a.JoinLock? || a.ExitLock?
  }

  predicate GivesLock(a: Action)
  {
    a.JoinFinished? || a.OnJoin? || a.OnExit?
  }

  /** The lock that a step takes. */
  function Target(s: Sys, a: Action): Task
  {
    if a.JoinLock? then a.t else Cur(s.c.l, a.w)
  }

  /** Taking a lock: it was free, and the worker carried none. */
  lemma LockTaken(n: nat, s: Sys, a: Action)
    requires Enabled(n, s, a) && TakesLock(a)
    ensures var s', t := Step(n, s, a), Target(s, a);
            && Carries(s, a.w) == {} && Carries(s', a.w) == {t} && t !in s.lock && s'.lock == s.lock[t := a.w]
  {
    hide StageAfter;
    NoMoves(s, a);
  }

  /** Giving a lock up: it is the one the worker carries. */
  lemma LockGiven(n: nat, s: Sys, a: Action) returns (t: Task)
    requires Enabled(n, s, a) && GivesLock(a)
    ensures var s' := Step(n, s, a);
            Carries(s, a.w) == {t} && Carries(s', a.w) == {} && s'.lock == s.lock - {t}
  {
    hide StageAfter, Moves;
    t := PcOf(s, a.w).t;
  }

  /** Every other step leaves the worker with the lock it carries, across switches too. */
  lemma LockKept(n: nat, s: Sys, a: Action)
    requires Enabled(n, s, a) && !TakesLock(a) && !GivesLock(a)
    ensures Carries(Step(n, s, a), a.w) == Carries(s, a.w) && Step(n, s, a).lock == s.lock
  {
    hide StageAfter, Moves, PcAfter, Enabled, Carry;
    var s' := Step(n, s, a);
    if a.ExitPop? { ExitPopRunning(n, s, a.w); }
    CarryKept(n, s, a, Cur(s'.c.l, a.w));
    assert s'.lock == s.lock by { SameLock(s, a); }
  }

  lemma CarryKept(n: nat, s: Sys, a: Action, cur: Task)
    requires Enabled(n, s, a) && !TakesLock(a) && !GivesLock(a) && (a.ExitPop? ==> cur == Cur(s.c.l, a.w))
    ensures Carry(PcAfter(s, a), cur) == Carries(s, a.w)
  {
    hide Cur, At;
  }

  lemma SameLock(s: Sys, a: Action)
    requires !TakesLock(a) && !GivesLock(a)
    ensures LockAfter(s, a) == s.lock
  {
  }

  lemma NoMoves(s: Sys, a: Action)
    requires a.ExitLock? || a.JoinLock? || a.JoinFinished? || a.JoinFree? || a.OnExit?
    ensures Moves(s, a) == s.c
  {
  }

  lemma ExitPopRunning(n: nat, s: Sys, w: Worker)
    requires Enabled(n, s, ExitPop(w))
    ensures At(Moves(s, ExitPop(w)).l, Running(w)) == At(s.c.l, Running(w))
  {
    hide Mv, PopNext;
    MvOther(s.c, Joiner(Cur(s.c.l, w)), Hand(w), Running(w));
    PopOther(s.c, w, Running(w));
  }

  lemma OtherCarries(n: nat, s: Sys, a: Action, u: Worker)
    requires u != a.w
    ensures Carries(Step(n, s, a), u) == Carries(s, u) && PcOf(Step(n, s, a), u) == PcOf(s, u)
    ensures Cur(Step(n, s, a).c.l, u) == Cur(s.c.l, u)
  {
    hide Moves, PcAfter, StageAfter, LockAfter;
    OthersKept(s, a, u, Running(u));
  }

  lemma LocksKept(n: nat, s: Sys, a: Action)
    requires LocksOk(n, s) && Enabled(n, s, a)
    ensures LocksOk(n, Step(n, s, a))
  {
    hide Step, Carries, Enabled;
    var s', w := Step(n, s, a), a.w;
    WorkerNumber(n, s, a);
    forall u | u != w ensures Carries(s', u) == Carries(s, u) { OtherCarries(n, s, a, u); }
    if TakesLock(a) {
      LockTaken(n, s, a);
    } else if GivesLock(a) {
      var g := LockGiven(n, s, a);
      assert g in Carries(s, w);
    } else {
      LockKept(n, s, a);
    }
    forall u, t | 0 <= u < n && t in Carries(s', u) ensures t in s'.lock && s'.lock[t] == u {
      if u != w {
        assert Carries(s', u) == Carries(s, u);
        assert t in Carries(s, u);
        assert t in s.lock && s.lock[t] == u;
      } else if TakesLock(a) {
      } else {
        assert t in Carries(s, u);
      }
    }
    forall t | t in s'.lock ensures s'.lock[t] < n && t in Carries(s', s'.lock[t]) {
      assert t in s.lock ==> t in Carries(s, s.lock[t]);
    }
  }

  lemma WorkerNumber(n: nat, s: Sys, a: Action)
    requires Enabled(n, s, a)
    ensures a.w < n
  {
  }

  // ----- Where a step puts tasks

  predicate PutsIn(s: Sys, a: Action, p: Place)
  {
    var w, pc := a.w, PcOf(s, a.w);
    match a
    case Fork(_, _) => p == Deque(w) || p == Running(w)
    case Spawn(_, _) => p == Deque(w)
    case YieldSwitch(_) => p == Deque(w) || p == Running(w)
    case Execute(_) => p == Root(w) || p == Running(w)
    case JoinSwitch(_) => p == Prev(w) || p == Running(w)
    case OnJoin(_) => pc.JoinCalled? && p == Joiner(pc.t)
    case ExitSwitch(_) => p == Gone || p == Running(w)
    case WaitSwitch(_) => (pc.ForWait? && p == Suspended(pc.i)) || p == Running(w)
    case WaitNo(_) => p == Hand(w) || p == Running(w)
    case PutBack(_) => p == Deque(w) || p == Root(w)
    case Notify(_, _) => p == Deque(w)
    case Enter(_, _) => p == Deque(w) || p == Running(w)
    case Swap(_, i, _) => p == Suspended(i) || p == Running(w)
    case SwapWith(_, i, _) => p == Suspended(i) || p == Running(w)
    case SwapNo(_) => (pc.SwapCalled? && p == Suspended(pc.k)) || p == Running(w)
    case _ => Pops(a) && p == Hand(w)
  }

  /** In d every task is where it was in c, or at q. */
  predicate OnlyTo(c: Pos, d: Pos, q: Place, r: Place)
  {
    forall t :: t in d.at ==> d.at[t] == q || d.at[t] == r || (t in c.at && d.at[t] == c.at[t])
  }

  lemma MvOnlyTo(c: Pos, p: Place, q: Place, r: Place)
    ensures OnlyTo(c, Mv(c, p, q), q, r) && OnlyTo(c, MvFirst(c, p, q), q, r)
  {
    hide Shift, ShiftFirst;
  }

  lemma SwitchOnlyTo(c: Pos, w: Worker, p: Place, q: Place)
    ensures OnlyTo(c, Switch(c, w, p, q), q, Running(w))
  {
    hide Mv, MvFirst;
    MvOnlyTo(c, Running(w), q, q);
    MvOnlyTo(Mv(c, Running(w), q), p, Running(w), Running(w));
  }

  lemma PopOnlyTo(c: Pos, w: Worker)
    ensures OnlyTo(c, PopNext(c, w), Hand(w), Hand(w))
  {
    hide Mv, MvFirst;
    MvOnlyTo(c, Deque(w), Hand(w), Hand(w));
    MvOnlyTo(c, Root(w), Hand(w), Hand(w));
  }

  /** A task that changes place is put where the step puts things. */
  lemma Arrives(n: nat, s: Sys, a: Action, t: Task)
    requires Enabled(n, s, a) && t in Moves(s, a).at
    ensures PutsIn(s, a, Moves(s, a).at[t]) || (t in s.c.at && Moves(s, a).at[t] == s.c.at[t])
  {
    hide Mv, MvFirst, PopNext, Switch;
    var c, pc, w := s.c, PcOf(s, a.w), a.w;
    match a
    case Fork(_, u) => MvOnlyTo(c, Running(w), Deque(w), Deque(w));
    case Spawn(_, u) =>
    case Yield(_) => PopOnlyTo(c, w);
    case YieldSwitch(_) => SwitchOnlyTo(c, w, Hand(w), Deque(w));
    case RootPop(_) => MvOnlyTo(c, Deque(w), Hand(w), Hand(w));
    case Steal(_, u) => MvOnlyTo(c, Deque(u), Hand(w), Hand(w));
    case Execute(_) => SwitchOnlyTo(c, w, Hand(w), Root(w));
    case JoinPop(_) => PopOnlyTo(c, w);
    case JoinSwitch(_) => SwitchOnlyTo(c, w, Hand(w), Prev(w));
    case OnJoin(_) => MvOnlyTo(c, Prev(w), Joiner(pc.t), Joiner(pc.t));
    case ExitPop(_) =>
      MvOnlyTo(c, Joiner(Cur(c.l, w)), Hand(w), Hand(w));
      PopOnlyTo(c, w);
    case ExitSwitch(_) => SwitchOnlyTo(c, w, Hand(w), Gone);
    case WaitPop(_, i) => PopOnlyTo(c, w);
    case WaitSwitch(_) => SwitchOnlyTo(c, w, Hand(w), Suspended(pc.i));
    case WaitNo(_) => SwitchOnlyTo(c, w, Suspended(pc.i), Hand(w));
    case PutBack(_) =>
      MvOnlyTo(c, Hand(w), Deque(w), Deque(w));
      MvOnlyTo(c, Hand(w), Root(w), Root(w));
    case Notify(_, i) => MvOnlyTo(c, Suspended(i), Deque(w), Deque(w));
    case Enter(_, k) => SwitchOnlyTo(c, w, Suspended(k), Deque(w));
    case Swap(_, i, k) => SwitchOnlyTo(c, w, Suspended(k), Suspended(i));
    case SwapWith(_, i, k) => SwitchOnlyTo(c, w, Suspended(k), Suspended(i));
    case SwapNo(_) => SwitchOnlyTo(c, w, Suspended(pc.i), Suspended(pc.k));
    case _ =>
  }

  /** Only the running task leaves, at its exit switch. */
  lemma NewlyGone(n: nat, s: Sys, a: Action, t: Task)
    requires Shaped(n, s) && Enabled(n, s, a) && t in Moves(s, a).at && Moves(s, a).at[t] == Gone
    ensures (t in s.c.at && s.c.at[t] == Gone) || (a.ExitSwitch? && t == Cur(s.c.l, a.w))
  {
    hide Sound, RootsOk, Moves, Enabled, WorkerOk;
    Arrives(n, s, a, t);
    if a.ExitSwitch? { ExitMoves(n, s, a.w); }
  }

  /** The exit switch: the running task is gone, the one in hand runs, all others stay. */
  lemma ExitMoves(n: nat, s: Sys, w: Worker)
    requires Shaped(n, s) && Enabled(n, s, ExitSwitch(w))
    ensures |At(s.c.l, Hand(w))| == 1 && At(s.c.l, Running(w)) == [Cur(s.c.l, w)]
    ensures Moves(s, ExitSwitch(w)).at == s.c.at[Cur(s.c.l, w) := Gone][At(s.c.l, Hand(w))[0] := Running(w)]
  {
    hide Sound, RootsOk, Switch;
    assert WorkerOk(n, s.c.l, w, PcOf(s, w));
    SwitchAt(s.c, w, Hand(w), Gone, Gone);
  }

  // ----- A finished task has left its stack

  /** The exit of t is between its switch and its callback. */
  predicate Leaving(s: Sys, t: Task)
  {
    t in s.lock && PcOf(s, s.lock[t]) == ExitCalled(t)
  }

  predicate IsGone(s: Sys, t: Task)
  {
    t in s.c.at && s.c.at[t] == Gone
  }

  predicate GoneOk(n: nat, s: Sys)
  {
    && (forall t :: t in s.finished ==> IsGone(s, t))
    && (forall t :: t in s.c.at && s.c.at[t] == Gone ==> t in s.finished || Leaving(s, t))
    && (forall u :: 0 <= u < n && PcOf(s, u).ExitCalled? ==> IsGone(s, PcOf(s, u).t) && PcOf(s, u).t !in s.finished)
  }

  lemma GoneStays(n: nat, s: Sys, a: Action, t: Task)
    requires SlotsFree(s, a)
    requires Sound(s.c) && Enabled(n, s, a) && IsGone(s, t)
    ensures IsGone(Step(n, s, a), t)
  {
    hide Sound, Enabled, Moves, PcAfter, LockAfter, StageAfter;
    StaysPut(n, s, a, t);
  }

  /** Worker w's pc says ExitCalled only right after its exit switch. */
  lemma JustExited(n: nat, s: Sys, a: Action)
    requires Enabled(n, s, a) && PcAfter(s, a).ExitCalled?
    ensures a.ExitSwitch? && PcAfter(s, a).t == Cur(s.c.l, a.w)
  {
  }

  lemma OnlyOnExit(n: nat, s: Sys, a: Action)
    requires Enabled(n, s, a) && PcOf(s, a.w).ExitCalled?
    ensures a.OnExit?
  {
  }

  lemma Exited(n: nat, s: Sys, w: Worker)
    requires Shaped(n, s) && LocksOk(n, s) && GoneOk(n, s) && Enabled(n, s, ExitSwitch(w))
    ensures var s', t := Step(n, s, ExitSwitch(w)), Cur(s.c.l, w);
            IsGone(s', t) && Leaving(s', t) && t !in s.finished && s'.lock == s.lock
  {
    hide Placed, RootsOk, Moves, StageAfter, LockAfter;
    ExitMoves(n, s, w);
    var t, h := Cur(s.c.l, w), At(s.c.l, Hand(w))[0];
    InPlace(s.c.l, s.c.at, t, Running(w));
    InPlace(s.c.l, s.c.at, h, Hand(w));
    Holder(n, s, w, t);
    SameLock(s, ExitSwitch(w));
  }

  lemma LeavingKept(n: nat, s: Sys, a: Action, t: Task)
    requires LocksOk(n, s) && Enabled(n, s, a) && Leaving(s, t)
    ensures Leaving(Step(n, s, a), t) || t in Step(n, s, a).finished
  {
    hide Enabled, Moves, StageAfter, PcAfter, LockAfter, Carry;
    var u := s.lock[t];
    if u == a.w {
      OnlyOnExit(n, s, a);
    } else {
      OtherCarries(n, s, a, u);
      StillLocked(n, s, a, t);
    }
  }

  lemma StillLocked(n: nat, s: Sys, a: Action, t: Task)
    requires LocksOk(n, s) && Enabled(n, s, a) && t in s.lock && s.lock[t] != a.w
    ensures t in Step(n, s, a).lock && Step(n, s, a).lock[t] == s.lock[t]
  {
    hide Enabled, Step, Carries;
    WorkerNumber(n, s, a);
    if TakesLock(a) {
      LockTaken(n, s, a);
    } else if GivesLock(a) {
      var g := LockGiven(n, s, a);
      assert g in Carries(s, a.w);
    } else {
      LockKept(n, s, a);
    }
  }

  lemma GoneKept(n: nat, s: Sys, a: Action)
    requires SlotsFree(s, a)
    requires Shaped(n, s) && LocksOk(n, s) && GoneOk(n, s) && Enabled(n, s, a)
    ensures GoneOk(n, Step(n, s, a))
  {
    hide Enabled, Moves, StageAfter, PcAfter, LockAfter, LocksOk, Shaped, Leaving;
    var s' := Step(n, s, a);
    WorkerNumber(n, s, a);
    InShape(n, s);
    if a.ExitSwitch? { Exited(n, s, a.w); }
    forall t | t in s'.finished ensures IsGone(s', t) {
      assert IsGone(s, t);
      GoneStays(n, s, a, t);
    }
    forall t | t in s'.c.at && s'.c.at[t] == Gone ensures t in s'.finished || Leaving(s', t) {
      NewlyGone(n, s, a, t);
      if IsGone(s, t) && t !in s.finished { LeavingKept(n, s, a, t); }
    }
    forall u | 0 <= u < n && PcOf(s', u).ExitCalled? ensures IsGone(s', PcOf(s', u).t) && PcOf(s', u).t !in s'.finished {
      if u == a.w {
        JustExited(n, s, a);
      } else {
        OtherCarries(n, s, a, u);
        GoneStays(n, s, a, PcOf(s, u).t);
        if a.OnExit? {
          OnExitPc(n, s, a.w);
          TwoExits(n, s, a.w, u);
        }
      }
    }
  }

  lemma InShape(n: nat, s: Sys)
    requires Shaped(n, s)
    ensures Sound(s.c)
  {
  }

  /** Two workers never leave the same task. */
  lemma TwoExits(n: nat, s: Sys, w: Worker, u: Worker)
    requires LocksOk(n, s) && w < n && u < n && w != u && PcOf(s, w).ExitCalled? && PcOf(s, u).ExitCalled?
    ensures PcOf(s, w).t != PcOf(s, u).t
  {
    Holder(n, s, w, PcOf(s, w).t);
    Holder(n, s, u, PcOf(s, u).t);
  }

  lemma Holder(n: nat, s: Sys, w: Worker, t: Task)
    requires LocksOk(n, s) && w < n && t in Carries(s, w)
    ensures t in s.lock && s.lock[t] == w
  {
  }

  lemma OnExitPc(n: nat, s: Sys, w: Worker)
    requires Enabled(n, s, OnExit(w))
    ensures PcOf(s, w).ExitCalled?
  {
  }

  // ----- Every slot is empty when it is stored into

  /** What a worker is going to store into is empty, and nobody else is going to. */
  predicate ClaimsOk(n: nat, s: Sys)
  {
    && (forall u, i :: 0 <= u < n && i in Claims(PcOf(s, u)) ==> At(s.c.l, Suspended(i)) == [])
    && (forall u, v, i :: 0 <= u < n && 0 <= v < n && i in Claims(PcOf(s, u)) && i in Claims(PcOf(s, v)) ==> u == v)
  }

  lemma ClaimAfter(n: nat, s: Sys, a: Action)
    requires Enabled(n, s, a)
    ensures Claims(PcAfter(s, a))
         == if a.WaitPop? then {a.i} else if a.SwapWith? then {a.k} else if a.Notify? || a.Spawn? then Claims(PcOf(s, a.w)) else {}
  {
    hide Cur, At, Last, NextUp;
  }

  /** An object stays empty unless the step stores into it. */
  lemma SuspendedStaysEmpty(n: nat, s: Sys, a: Action, i: nat)
    requires Sound(s.c) && Enabled(n, s, a) && SlotsFree(s, a) && At(s.c.l, Suspended(i)) == [] && !PutsIn(s, a, Suspended(i))
    ensures At(Moves(s, a).l, Suspended(i)) == []
  {
    hide Placed, Single, Enabled, SlotsFree, Moves, PutsIn;
    StepSound(n, s, a);
    var l := At(Moves(s, a).l, Suspended(i));
    if l != [] {
      InPlace(Moves(s, a).l, Moves(s, a).at, l[0], Suspended(i));
      Arrives(n, s, a, l[0]);
      InPlace(s.c.l, s.c.at, l[0], Suspended(i));
    }
  }

  /** A step stores only into an object that its worker claims or that nobody uses. */
  lemma StoresClaimed(n: nat, s: Sys, a: Action, i: nat)
    requires Enabled(n, s, a) && PutsIn(s, a, Suspended(i))
    ensures i in Claims(PcOf(s, a.w)) || Unused(n, s, i)
  {
    hide Unused;
  }

  lemma OthersClaim(n: nat, s: Sys, a: Action, u: Worker, i: nat)
    requires Sound(s.c) && ClaimsOk(n, s) && Enabled(n, s, a) && SlotsFree(s, a) && u < n && u != a.w && i in Claims(PcOf(s, u))
    ensures At(Moves(s, a).l, Suspended(i)) == []
  {
    hide Sound, Enabled, SlotsFree, Moves, PutsIn, Claims;
    WorkerNumber(n, s, a);
    if PutsIn(s, a, Suspended(i)) { StoresClaimed(n, s, a, i); }
    SuspendedStaysEmpty(n, s, a, i);
  }

  /** The object from which a continuation was taken to switch to it is empty. */
  lemma TakenIsEmpty(n: nat, s: Sys, w: Worker, i: nat, k: nat)
    requires Sound(s.c) && Enabled(n, s, SwapWith(w, i, k)) && SlotsFree(s, SwapWith(w, i, k))
    ensures At(Moves(s, SwapWith(w, i, k)).l, Suspended(k)) == []
  {
    hide Placed, Switch;
    SwitchAt(s.c, w, Suspended(k), Suspended(i), Suspended(k));
  }

  lemma OwnClaim(n: nat, s: Sys, a: Action, i: nat)
    requires Sound(s.c) && ClaimsOk(n, s) && Enabled(n, s, a) && SlotsFree(s, a) && i in Claims(PcAfter(s, a))
    ensures At(Moves(s, a).l, Suspended(i)) == []
    ensures forall u :: 0 <= u < n && u != a.w ==> i !in Claims(PcOf(s, u))
  {
    hide Sound, SlotsFree, Moves, Claims, PcAfter;
    ClaimAfter(n, s, a);
    if a.SwapWith? { TakenIsEmpty(n, s, a.w, a.i, a.k); } else { SuspendedStaysEmpty(n, s, a, i); }
  }

  lemma ClaimsKept(n: nat, s: Sys, a: Action)
    requires Sound(s.c) && ClaimsOk(n, s) && Enabled(n, s, a) && SlotsFree(s, a)
    ensures ClaimsOk(n, Step(n, s, a))
  {
    hide Sound, Enabled, SlotsFree, Moves, Claims, PcAfter, LockAfter, StageAfter;
    var s', w := Step(n, s, a), a.w;
    WorkerNumber(n, s, a);
    forall u, i | 0 <= u < n && i in Claims(PcOf(s', u)) ensures At(s'.c.l, Suspended(i)) == [] {
      if u == w { OwnClaim(n, s, a, i); } else { OthersClaim(n, s, a, u, i); }
    }
    forall u, v, i | 0 <= u < n && 0 <= v < n && i in Claims(PcOf(s', u)) && i in Claims(PcOf(s', v)) ensures u == v {
      assert (u != w ==> PcOf(s', u) == PcOf(s, u)) && (v != w ==> PcOf(s', v) == PcOf(s, v));
      if u == w || v == w { OwnClaim(n, s, a, i); }
    }
  }

  /** A worker that runs its root has nothing in its root slot. */
  lemma RootSlotEmpty(n: nat, c: Pos, w: Worker)
    requires Sound(c) && RootsOk(n, c.at) && At(c.l, Running(w)) == [w]
    ensures At(c.l, Root(w)) == []
  {
    hide Placed, RootsOk;
    OnlyRoot(n, c, w);
    InPlace(c.l, c.at, w, Running(w));
    InPlace(c.l, c.at, w, Root(w));
  }

  /** Every step finds the slots that it stores into empty. The callback of a join is left to the stages of
      joins. */
  lemma SlotsAreFree(n: nat, s: Sys, a: Action)
    requires Shaped(n, s) && ClaimsOk(n, s) && Enabled(n, s, a)
    requires a.OnJoin? && PcOf(s, a.w).JoinCalled? ==> Vacant(s.c.l, Joiner(PcOf(s, a.w).t))
    ensures SlotsFree(s, a)
  {
    hide Sound, RootsOk;
    WorkerInShape(n, s, a);
    var l, w := s.c.l, a.w;
    if a.Execute? {
      assert At(l, Running(w)) == [w];
      RootSlotEmpty(n, s.c, w);
    }
    hide Shaped;
    if a.WaitSwitch? { assert PcOf(s, w).i in Claims(PcOf(s, w)); }
    if a.SwapNo? { assert PcOf(s, w).k in Claims(PcOf(s, w)); }
  }
}
