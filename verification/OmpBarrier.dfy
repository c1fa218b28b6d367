/** The barrier of a parallel region: every process does a local barrier, its first thread a barrier of
    the shared memory, and then all do the local barrier again. */
module OmpBarrier {

  /** Thread i of process p. */
  datatype Thread = Thread(p: nat, i: nat)

  /** How often a thread arrived at and left the local barrier, and, for the first thread of a process,
      the barrier of the shared memory. */
  datatype Progress = Progress(arrived: nat, left: nat, dsmArrived: nat, dsmLeft: nat)

  type State = map<Thread, Progress>

  datatype Region = Region(procs: nat, threads: nat, rounds: nat)

  predicate In(r: Region, x: Thread)
  {
    x.p < r.procs && x.i < r.threads
  }

  /** `thread_num` of a thread, on the master process with or without its master thread. */
  function ThreadNum(r: Region, x: Thread): nat
  {
    x.p * r.threads + x.i
  }

  function Of(s: State, x: Thread): Progress
  {
    if x in s then s[x] else Progress(0, 0, 0, 0)
  }

  function First(p: nat): Thread
  {
    Thread(p, 0)
  }

  datatype Action =
    | Arrive(x: Thread)        // bar_->arrive_and_wait() begins
    | Leave(x: Thread)         // and ends
    | DsmArrive(x: Thread)     // sp.barrier() begins
    | DsmLeave(x: Thread)      // and ends

  /** Everybody in the process has arrived at least n times. */
  predicate LocalAll(r: Region, s: State, p: nat, n: nat)
  {
    forall i :: 0 <= i < r.threads ==> Of(s, Thread(p, i)).arrived >= n
  }

  predicate DsmAll(r: Region, s: State, n: nat)
  {
    forall q :: 0 <= q < r.procs ==> Of(s, First(q)).dsmArrived >= n
  }

  /** A barrier lets a thread go from its n-th arrival when all have arrived n times. Each global barrier
      uses the local one twice, so odd arrivals open it and even ones close it. */
  predicate Enabled(r: Region, s: State, a: Action)
  {
    var x := a.x;
    var g := Of(s, x);
    In(r, x) &&
    match a
    case Arrive(_) =>
      && g.arrived == g.left && g.arrived < 2 * r.rounds
      && (g.arrived % 2 == 1 && ThreadNum(r, x) == ThreadNum(r, First(x.p)) ==> 2 * g.dsmLeft == g.arrived + 1)
    case Leave(_) => g.left < g.arrived && LocalAll(r, s, x.p, g.arrived)
    case DsmArrive(_) =>
      && ThreadNum(r, x) == ThreadNum(r, First(x.p))
      && g.arrived == g.left && g.left % 2 == 1 && 2 * g.dsmArrived + 1 == g.left
    case DsmLeave(_) => g.dsmLeft < g.dsmArrived && DsmAll(r, s, g.dsmArrived)
  }

  function Advance(g: Progress, a: Action): Progress
  {
    match a
    case Arrive(_) => g.(arrived := g.arrived + 1)
    case Leave(_) => g.(left := g.arrived)
    case DsmArrive(_) => g.(dsmArrived := g.dsmArrived + 1)
    case DsmLeave(_) => g.(dsmLeft := g.dsmArrived)
  }

  function Step(r: Region, s: State, a: Action): State
  {
    if Enabled(r, s, a) then s[a.x := Advance(Of(s, a.x), a)] else s
  }

  function Run(r: Region, acts: seq<Action>): State
    decreases |acts|
  {
    var n := |acts|;
    if n == 0 then map[] else Step(r, Run(r, acts[..n - 1]), acts[n - 1])
  }

  /** Global barriers a thread has begun, and those it has completed. */
  function Begun(g: Progress): nat
  {
    (g.arrived + 1) / 2
  }

  function Completed(g: Progress): nat
  {
    g.left / 2
  }

  // ----- Thread numbers

  /** Thread numbers are all different and fill 0 to procs * threads; the first thread of a process is
      the one with the process's first number. */
  lemma NumbersApart(r: Region, x: Thread, y: Thread)
    requires In(r, x) && In(r, y)
    ensures ThreadNum(r, x) < r.procs * r.threads
    ensures ThreadNum(r, x) == ThreadNum(r, y) <==> x == y
  {
    assert x.p * r.threads + r.threads <= r.procs * r.threads by { Below(x.p, r.procs, r.threads); }
    if x.p < y.p { Below(x.p, y.p, r.threads); }
    if y.p < x.p { Below(y.p, x.p, r.threads); }
  }

  lemma {:induction false} MulOrder(a: nat, b: nat, d: nat)
    ensures a <= b ==> a * d <= b * d
    decreases b
  {
    if a < b {
      MulOrder(a, b - 1, d);
      assert b * d == (b - 1) * d + d;
    }
  }

  lemma Below(a: nat, b: nat, d: nat)
    requires a < b
    ensures a * d + d <= b * d
  {
    MulOrder(a + 1, b, d);
    assert (a + 1) * d == a * d + d;
  }

  lemma NumberTaken(r: Region, n: nat) returns (x: Thread)
    requires n < r.procs * r.threads
    ensures In(r, x) && ThreadNum(r, x) == n
  {
    assert r.threads > 0;
    x := Thread(n / r.threads, n % r.threads);
    assert n == n / r.threads * r.threads + n % r.threads;
    MulOrder(r.procs, x.p, r.threads);
  }

  /** `start_parallel` on process p: the process's first number, which `barrier_on` compares with, and the numbers
      given to the child threads: consecutive from the first, or from the one after it on the master process,
      whose master thread takes part and keeps number 0. */
  method StartParallel(r: Region, p: nat) returns (first: nat, nums: seq<nat>)
    requires p < r.procs && r.threads > 0
    ensures first == p * r.threads == ThreadNum(r, First(p))
    ensures |nums| == if p == 0 then r.threads - 1 else r.threads
    ensures nums != [] ==> nums[0] == if p == 0 then 1 else first
    ensures forall k :: 0 <= k < |nums| - 1 ==> nums[k + 1] == nums[k] + 1
    ensures forall k :: 0 <= k < |nums| ==> nums[k] == ThreadNum(r, Thread(p, if p == 0 then k + 1 else k))
  {
    first := p * r.threads;
    var children := r.threads - if p == 0 then 1 else 0;
    nums := [];
    for i := 0 to children
      invariant |nums| == i
      invariant forall k :: 0 <= k < i ==> nums[k] == ThreadNum(r, Thread(p, if p == 0 then k + 1 else k))
    {
      nums := nums + [first + (if p == 0 then 1 else 0) + i];
    }
  }

  // ----- The invariant

  predicate ThreadOk(r: Region, g: Progress)
  {
    g.left <= g.arrived <= g.left + 1 && g.arrived <= 2 * r.rounds
  }

  /** The first thread keeps the two barriers in step. */
  predicate FirstOk(g: Progress)
  {
    && g.dsmLeft <= g.dsmArrived <= g.dsmLeft + 1
    && 2 * g.dsmArrived <= g.left + 1 && g.arrived <= 2 * g.dsmLeft + 1
    && (g.dsmLeft < g.dsmArrived ==> g.arrived == g.left)
  }

  predicate Inv(r: Region, s: State)
  {
    && (forall x :: x in s ==> In(r, x))
    && (forall x :: x in s ==> ThreadOk(r, s[x]) && LocalAll(r, s, x.p, s[x].left))
    && (forall p :: 0 <= p < r.procs ==> FirstOk(Of(s, First(p))) && DsmAll(r, s, Of(s, First(p)).dsmLeft))
  }

  lemma AllKept(r: Region, s: State, a: Action, p: nat, n: nat)
    ensures LocalAll(r, s, p, n) ==> LocalAll(r, Step(r, s, a), p, n)
    ensures DsmAll(r, s, n) ==> DsmAll(r, Step(r, s, a), n)
  {
    hide Enabled;
  }

  /** A thread's own step. */
  lemma OwnStep(r: Region, s: State, a: Action)
    requires Enabled(r, s, a) && ThreadOk(r, Of(s, a.x)) && LocalAll(r, s, a.x.p, Of(s, a.x).left)
    requires a.x.i == 0 ==> FirstOk(Of(s, a.x)) && DsmAll(r, s, Of(s, a.x).dsmLeft)
    ensures var g := Advance(Of(s, a.x), a);
            && ThreadOk(r, g) && LocalAll(r, s, a.x.p, g.left)
            && (a.x.i == 0 ==> FirstOk(g) && DsmAll(r, s, g.dsmLeft))
  {
    hide LocalAll, DsmAll;
    NumbersApart(r, a.x, First(a.x.p));
  }

  lemma StepKeepsInv(r: Region, s: State, a: Action)
    requires Inv(r, s) && Enabled(r, s, a)
    ensures Inv(r, Step(r, s, a))
  {
    hide LocalAll, DsmAll, Enabled, ThreadOk, FirstOk, Advance;
    var s' := Step(r, s, a);
    InRegion(r, s, a);
    Start(r, s, a.x);
    OwnStep(r, s, a);
    forall x | x in s' ensures In(r, x) && ThreadOk(r, s'[x]) && LocalAll(r, s', x.p, s'[x].left) {
      AllKept(r, s, a, x.p, s'[x].left);
    }
    forall p | 0 <= p < r.procs ensures FirstOk(Of(s', First(p))) && DsmAll(r, s', Of(s', First(p)).dsmLeft) {
      AllKept(r, s, a, p, Of(s', First(p)).dsmLeft);
    }
  }

  lemma InRegion(r: Region, s: State, a: Action)
    requires Enabled(r, s, a)
    ensures In(r, a.x)
  {
  }

  lemma Start(r: Region, s: State, x: Thread)
    requires Inv(r, s) && In(r, x)
    ensures ThreadOk(r, Of(s, x)) && LocalAll(r, s, x.p, Of(s, x).left)
    ensures x.i == 0 ==> First(x.p) == x && FirstOk(Of(s, x)) && DsmAll(r, s, Of(s, x).dsmLeft)
  {
    assert FirstOk(Of(s, First(x.p)));
  }

  lemma {:induction false} RunKeepsInv(r: Region, acts: seq<Action>)
    ensures Inv(r, Run(r, acts))
    decreases |acts|
  {
    hide Inv, Enabled;
    var n := |acts|;
    if n == 0 {
      StartInv(r);
    } else {
      RunKeepsInv(r, acts[..n - 1]);
      var s := Run(r, acts[..n - 1]);
      if Enabled(r, s, acts[n - 1]) { StepKeepsInv(r, s, acts[n - 1]); }
    }
  }

  lemma StartInv(r: Region)
    ensures Inv(r, map[])
  {
  }

  lemma ProgressOk(r: Region, s: State, x: Thread)
    requires Inv(r, s) && In(r, x)
    ensures ThreadOk(r, Of(s, x)) && LocalAll(r, s, x.p, Of(s, x).left)
    ensures FirstOk(Of(s, First(x.p))) && DsmAll(r, s, Of(s, First(x.p)).dsmLeft)
  {
  }

  /** A correct global barrier: nobody has completed a barrier that somebody else has not yet begun, in
      whatever process. */
  lemma GlobalBarrier(r: Region, acts: seq<Action>, x: Thread, y: Thread)
    requires In(r, x) && In(r, y)
    ensures var s := Run(r, acts); Completed(Of(s, x)) <= Begun(Of(s, y))
  {
    hide Inv, Run;
    var s := Run(r, acts);
    RunKeepsInv(r, acts);
    var f, g := First(x.p), First(y.p);
    ProgressOk(r, s, x);
    ProgressOk(r, s, f);
    ProgressOk(r, s, g);
    assert Of(s, f).arrived >= Of(s, x).left;
    assert Of(s, g).dsmArrived >= Of(s, f).dsmLeft;
    assert Thread(y.p, y.i) == y && Of(s, y).arrived >= Of(s, g).left;
    hide LocalAll, DsmAll;
  }

  // ----- The barrier does not block for ever

  ghost predicate CanMove(r: Region, s: State)
  {
    exists a :: Enabled(r, s, a)
  }

  predicate Finished(r: Region, s: State)
  {
    forall p, i :: 0 <= p < r.procs && 0 <= i < r.threads ==> Of(s, Thread(p, i)).left == 2 * r.rounds
  }

  /** No thread has arrived less often than x. */
  predicate Hindmost(r: Region, s: State, x: Thread)
  {
    In(r, x) && forall p, i :: 0 <= p < r.procs && 0 <= i < r.threads ==> Of(s, Thread(p, i)).arrived >= Of(s, x).arrived
  }

  lemma {:induction false} SomeHindmost(r: Region, s: State, m: nat) returns (x: Thread)
    requires r.procs > 0 && r.threads > 0
    requires exists p, i :: 0 <= p < r.procs && 0 <= i < r.threads && Of(s, Thread(p, i)).arrived <= m
    ensures Hindmost(r, s, x)
    decreases m
  {
    var p, i :| 0 <= p < r.procs && 0 <= i < r.threads && Of(s, Thread(p, i)).arrived <= m;
    x := Thread(p, i);
    if !Hindmost(r, s, x) {
      var q, j :| 0 <= q < r.procs && 0 <= j < r.threads && Of(s, Thread(q, j)).arrived < Of(s, x).arrived;
      assert Of(s, Thread(q, j)).arrived <= m - 1;
      x := SomeHindmost(r, s, m - 1);
    }
  }

  /** A hindmost thread can move, unless it waits for another process in the barrier of the shared memory
      or all threads have arrived for the last time. */
  lemma HindmostMoves(r: Region, s: State, x: Thread)
    requires Inv(r, s) && Hindmost(r, s, x) && Of(s, x).arrived < 2 * r.rounds
    requires var g := Of(s, x); g.left < g.arrived || g.arrived % 2 == 0 || x.i != 0 || g.dsmArrived == g.dsmLeft
    ensures CanMove(r, s)
  {
    ProgressOk(r, s, x);
    NumbersApart(r, x, First(x.p));
    hide Inv;
    var g := Of(s, x);
    if g.left < g.arrived {
      assert LocalAll(r, s, x.p, g.arrived);
      assert Enabled(r, s, Leave(x));
    } else if g.arrived % 2 == 1 && x.i == 0 && 2 * g.dsmArrived + 1 == g.left {
      assert Enabled(r, s, DsmArrive(x));
    } else {
      assert Enabled(r, s, Arrive(x));
    }
  }

  lemma WaitingMoves(r: Region, s: State, x: Thread)
    requires Inv(r, s) && Hindmost(r, s, x) && Of(s, x).arrived < 2 * r.rounds
    requires var g := Of(s, x); g.left == g.arrived && g.arrived % 2 == 1 && x.i == 0 && g.dsmLeft < g.dsmArrived
    ensures CanMove(r, s)
  {
    ProgressOk(r, s, x);
    var g := Of(s, x);
    if DsmAll(r, s, g.dsmArrived) {
      assert Enabled(r, s, DsmLeave(x));
    } else {
      var q :| 0 <= q < r.procs && Of(s, First(q)).dsmArrived < g.dsmArrived;
      var y := First(q);
      ProgressOk(r, s, y);
      assert Of(s, y).arrived >= g.arrived;
      assert Of(s, y).arrived == g.arrived;
      HindmostMoves(r, s, y);
    }
  }

  lemma LastArrival(r: Region, s: State, x: Thread)
    requires Inv(r, s) && Hindmost(r, s, x) && Of(s, x).arrived >= 2 * r.rounds
    ensures CanMove(r, s) || Finished(r, s)
  {
    if !Finished(r, s) {
      var p, i :| 0 <= p < r.procs && 0 <= i < r.threads && Of(s, Thread(p, i)).left != 2 * r.rounds;
      var y := Thread(p, i);
      ProgressOk(r, s, y);
      assert Of(s, y).arrived >= Of(s, x).arrived;
      assert LocalAll(r, s, p, Of(s, y).arrived);
      assert Enabled(r, s, Leave(y));
    }
  }

  /** If all threads of the region execute equally many barriers, somebody can always move on until all
      have completed the last one. */
  lemma NeverStuck(r: Region, acts: seq<Action>)
    requires r.procs > 0 && r.threads > 0
    ensures CanMove(r, Run(r, acts)) || Finished(r, Run(r, acts))
  {
    hide Inv, Run, CanMove, Finished, Hindmost;
    var s := Run(r, acts);
    RunKeepsInv(r, acts);
    assert Of(s, Thread(0, 0)).arrived <= Of(s, Thread(0, 0)).arrived;
    var x := SomeHindmost(r, s, Of(s, Thread(0, 0)).arrived);
    var g := Of(s, x);
    HindmostIsIn(r, s, x);
    ProgressOk(r, s, x);
    if g.arrived >= 2 * r.rounds {
      LastArrival(r, s, x);
    } else if g.left < g.arrived || g.arrived % 2 == 0 || x.i != 0 || g.dsmArrived == g.dsmLeft {
      HindmostMoves(r, s, x);
    } else {
      assert First(x.p) == x;
      WaitingMoves(r, s, x);
    }
  }

  lemma HindmostIsIn(r: Region, s: State, x: Thread)
    requires Hindmost(r, s, x)
    ensures In(r, x)
  {
  }

  /** When a region is over, every process has done as many barriers of the shared memory as the region has
      barriers, all by its first thread. */
  lemma DsmPerRegion(r: Region, acts: seq<Action>, p: nat)
    requires p < r.procs && r.threads > 0 && Finished(r, Run(r, acts))
    ensures var g := Of(Run(r, acts), First(p)); g.dsmArrived == g.dsmLeft == r.rounds
    ensures forall i :: 0 < i < r.threads ==> Of(Run(r, acts), Thread(p, i)).dsmArrived == 0
  {
    hide Inv, Run;
    var s := Run(r, acts);
    RunKeepsInv(r, acts);
    ProgressOk(r, s, First(p));
    assert Of(s, Thread(p, 0)).left == 2 * r.rounds;
    forall i: nat | 0 < i < r.threads ensures Of(s, Thread(p, i)).dsmArrived == 0 { OnlyFirst(r, acts, Thread(p, i)); }
  }

  lemma {:induction false} OnlyFirst(r: Region, acts: seq<Action>, x: Thread)
    requires In(r, x)
    ensures x.i > 0 ==> Of(Run(r, acts), x).dsmArrived == Of(Run(r, acts), x).dsmLeft == 0
    decreases |acts|
  {
    hide LocalAll, DsmAll;
    var n := |acts|;
    if n > 0 {
      OnlyFirst(r, acts[..n - 1], x);
      NumbersApart(r, x, First(x.p));
    }
  }

  // ----- Every run is finite

  /** How often an action was taken in a run. */
  function Taken(r: Region, acts: seq<Action>, a: Action): nat
    decreases |acts|
  {
    var n := |acts|;
    if n == 0 then 0
    else Taken(r, acts[..n - 1], a) + if acts[n - 1] == a && Enabled(r, Run(r, acts[..n - 1]), a) then 1 else 0
  }

  /** A thread has begun and ended its barriers as often as it has taken these steps. */
  lemma {:induction false} CountersCount(r: Region, acts: seq<Action>, x: Thread)
    requires In(r, x)
    ensures Of(Run(r, acts), x)
         == Progress(Taken(r, acts, Arrive(x)), Taken(r, acts, Leave(x)), Taken(r, acts, DsmArrive(x)), Taken(r, acts, DsmLeave(x)))
    decreases |acts|
  {
    hide LocalAll, DsmAll;
    var n := |acts|;
    if n > 0 {
      CountersCount(r, acts[..n - 1], x);
      RunKeepsInv(r, acts[..n - 1]);
      ProgressOk(r, Run(r, acts[..n - 1]), x);
      hide Inv;
      OnlyFirst(r, acts[..n - 1], x);
      NumbersApart(r, x, First(x.p));
    }
  }

  /** A thread takes at most six steps for each barrier. As somebody can always move until all have completed
      the last barrier, every region ends, whatever the interleaving. */
  lemma StepsAreBounded(r: Region, acts: seq<Action>, x: Thread)
    requires In(r, x)
    ensures Taken(r, acts, Arrive(x)) + Taken(r, acts, Leave(x)) + Taken(r, acts, DsmArrive(x)) + Taken(r, acts, DsmLeave(x)) <= 6 * r.rounds
  {
    hide Run, Taken;
    CountersCount(r, acts, x);
    RunKeepsInv(r, acts);
    ProgressOk(r, Run(r, acts), x);
    OnlyFirst(r, acts, x);
  }
}
