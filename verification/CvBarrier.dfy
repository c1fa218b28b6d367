/** The generation-counting barrier over a mutex and a condition variable. The mutex and the
    condition variable are taken with the guarantees proved for them: one holder at a time, and a
    waiting thread sleeps until a notifier that holds the mutex wakes it. */
module CvBarrier {
  import opened Wrappers

  type Tid = nat

  /** Where a thread is in `arrive_and_wait`; `gen` is its local copy. */
  datatype Thread =
    | Outside
    | Locking                    // wants the mutex to arrive
    | Arriving                   // holds the mutex, reads gen_ and counts itself
    | Testing(gen: nat)          // holds the mutex, tests gen != gen_
    | Sleeping(gen: nat)         // linked from the condition variable
    | Relocking(gen: nat)        // woken, wants the mutex back
    | Leaving                    // holds the mutex, about to unlock and return

  /** `calls[t]` and `exits[t]` count the calls thread t has begun and finished. */
  datatype State = State(
    cur: nat, gen: nat, waiting: set<Tid>, owner: Option<Tid>, threads: seq<Thread>,
    calls: seq<nat>, exits: seq<nat>)

  datatype Action = Call(t: Tid) | Moves(t: Tid)

  /** The barrier is built for as many threads as use it. */
  predicate Initial(s: State)
  {
    && s.cur == 0 && s.gen == 0 && s.waiting == {} && s.owner == None
    && |s.threads| == |s.calls| == |s.exits| > 0
    && forall t :: 0 <= t < |s.threads| ==> s.threads[t] == Outside && s.calls[t] == s.exits[t] == 0
  }

  function Go(s: State, t: Tid, th: Thread): State
    requires t < |s.threads|
  {
    s.(threads := s.threads[t := th])
  }

  /** `notify_all` moves every sleeping thread on; the others stay where they are. */
  function WakeAll(threads: seq<Thread>, waiting: set<Tid>): (r: seq<Thread>)
    ensures |r| == |threads|
    ensures forall t :: 0 <= t < |r| ==>
              r[t] == if t in waiting && threads[t].Sleeping? then Relocking(threads[t].gen) else threads[t]
  {
    seq(|threads|, t requires 0 <= t < |threads| =>
      if t in waiting && threads[t].Sleeping? then Relocking(threads[t].gen) else threads[t])
  }

  function ThreadStep(s: State, t: Tid): State
    requires t < |s.threads| == |s.calls| == |s.exits|
  {
    match s.threads[t]
    case Outside => s
    case Locking => if s.owner == None then Go(s.(owner := Some(t)), t, Arriving) else s
    case Arriving =>
      if s.cur + 1 < |s.threads|
      then Go(s.(cur := s.cur + 1), t, Testing(s.gen))
      else Go(s.(gen := s.gen + 1, cur := 0, waiting := {}, threads := WakeAll(s.threads, s.waiting)), t, Leaving)
    case Testing(gen) =>
      if gen != s.gen then Go(s, t, Leaving)
      else Go(s.(waiting := s.waiting + {t}, owner := None), t, Sleeping(gen))
    case Sleeping(_) => s
    case Relocking(gen) => if s.owner == None then Go(s.(owner := Some(t)), t, Testing(gen)) else s
    case Leaving => Go(s.(owner := None, exits := s.exits[t := s.exits[t] + 1]), t, Outside)
  }

  function Step(s: State, act: Action): State
    requires |s.threads| == |s.calls| == |s.exits|
  {
    match act
    case Call(t) =>
      if t < |s.threads| && s.threads[t] == Outside
      then Go(s.(calls := s.calls[t := s.calls[t] + 1]), t, Locking) else s
    case Moves(t) => if t < |s.threads| then ThreadStep(s, t) else s
  }

  function Run(s: State, acts: seq<Action>): (r: State)
    requires |s.threads| == |s.calls| == |s.exits|
    ensures |r.threads| == |r.calls| == |r.exits| == |s.threads|
  {
    if acts == [] then s else Step(Run(s, acts[..|acts| - 1]), acts[|acts| - 1])
  }

  // ----- The inductive invariant

  /** The thread has been counted in round gen_ and has not left it. */
  predicate Arrived(th: Thread, gen: nat)
  {
    (th.Testing? || th.Sleeping? || th.Relocking?) && th.gen == gen
  }

  predicate Owns(th: Thread)
  {
    th.Arriving? || th.Testing? || th.Leaving?
  }

  /** Thread t has finished exactly the rounds before the one it is in. A thread that is neither
      outside nor arriving is in the current round, or is still leaving the one before. */
  predicate ThreadInv(s: State, t: Tid, th: Thread, calls: nat, exits: nat)
  {
    && (Owns(th) <==> s.owner == Some(t))
    && (th.Sleeping? <==> t in s.waiting)
    && match th
       case Outside => calls == exits == s.gen
       case Locking => calls == exits + 1 && exits == s.gen
       case Arriving => calls == exits + 1 && exits == s.gen
       case Sleeping(g) => calls == exits + 1 && exits == g == s.gen
       case Leaving => calls == exits + 1 && exits + 1 == s.gen
       case _ => calls == exits + 1 && exits == th.gen && th.gen <= s.gen <= th.gen + 1
  }

  /** How many threads have been counted in round gen. */
  function Arrivals(threads: seq<Thread>, gen: nat): nat
  {
    if threads == [] then 0
    else Arrivals(threads[..|threads| - 1], gen) + (if Arrived(threads[|threads| - 1], gen) then 1 else 0)
  }

  predicate Inv(s: State)
  {
    && |s.threads| == |s.calls| == |s.exits| > 0
    && (forall t :: 0 <= t < |s.threads| ==> ThreadInv(s, t, s.threads[t], s.calls[t], s.exits[t]))
    && (forall t :: t in s.waiting ==> t < |s.threads|)
    && Arrivals(s.threads, s.gen) == s.cur < |s.threads|
    && (s.owner.Some? ==> s.owner.value < |s.threads|)
  }

  /** The count is full exactly when everybody has arrived. */
  lemma {:induction false} FullCount(threads: seq<Thread>, gen: nat)
    ensures Arrivals(threads, gen) <= |threads|
    ensures Arrivals(threads, gen) == |threads| <==> forall t :: 0 <= t < |threads| ==> Arrived(threads[t], gen)
  {
    if threads != [] {
      var init := threads[..|threads| - 1];
      FullCount(init, gen);
      assert forall t :: 0 <= t < |init| ==> init[t] == threads[t];
    }
  }

  lemma {:induction false} ZeroCount(threads: seq<Thread>, gen: nat)
    requires forall t :: 0 <= t < |threads| ==> !Arrived(threads[t], gen)
    ensures Arrivals(threads, gen) == 0
  {
    if threads != [] {
      ZeroCount(threads[..|threads| - 1], gen);
    }
  }

  /** Moving one thread changes the count by that thread alone. */
  lemma {:induction false} CountStep(threads: seq<Thread>, gen: nat, t: Tid, th: Thread)
    requires t < |threads|
    ensures Arrivals(threads[t := th], gen) + (if Arrived(threads[t], gen) then 1 else 0)
         == Arrivals(threads, gen) + (if Arrived(th, gen) then 1 else 0)
  {
    var init := threads[..|threads| - 1];
    if t == |threads| - 1 {
      assert threads[t := th][..t] == init;
    } else {
      CountStep(init, gen, t, th);
      assert threads[t := th][..|threads| - 1] == init[t := th];
    }
  }

  /** When the last thread arrives, all the others are waiting in this round. */
  lemma OthersHaveArrived(s: State, t: Tid)
    requires Inv(s) && t < |s.threads| && s.threads[t] == Arriving && s.cur + 1 == |s.threads|
    ensures forall u :: 0 <= u < |s.threads| && u != t ==> Arrived(s.threads[u], s.gen)
  {
    var th := Testing(s.gen);
    CountStep(s.threads, s.gen, t, th);
    FullCount(s.threads[t := th], s.gen);
    forall u | 0 <= u < |s.threads| && u != t ensures Arrived(s.threads[u], s.gen) {
      assert Arrived(s.threads[t := th][u], s.gen);
    }
  }

  lemma LastArrivalKeepsInv(s: State, t: Tid)
    requires Inv(s) && t < |s.threads| && s.threads[t] == Arriving && s.cur + 1 == |s.threads|
    ensures Inv(ThreadStep(s, t))
  {
    var s' := ThreadStep(s, t);
    OthersHaveArrived(s, t);
    assert ThreadInv(s, t, s.threads[t], s.calls[t], s.exits[t]);
    forall u | 0 <= u < |s.threads| ensures ThreadInv(s', u, s'.threads[u], s.calls[u], s.exits[u]) {
      assert ThreadInv(s, u, s.threads[u], s.calls[u], s.exits[u]);
    }
    ZeroCount(s'.threads, s'.gen);
  }

  lemma OtherStepKeepsInv(s: State, t: Tid)
    requires Inv(s) && t < |s.threads| && !(s.threads[t] == Arriving && s.cur + 1 == |s.threads|)
    ensures Inv(ThreadStep(s, t))
  {
    var s' := ThreadStep(s, t);
    assert ThreadInv(s, t, s.threads[t], s.calls[t], s.exits[t]);
    forall u | 0 <= u < |s.threads| ensures ThreadInv(s', u, s'.threads[u], s.calls[u], s'.exits[u]) {
      assert ThreadInv(s, u, s.threads[u], s.calls[u], s.exits[u]);
    }
    CountStep(s.threads, s.gen, t, s'.threads[t]);
    assert s'.threads == s.threads[t := s'.threads[t]];
  }

  lemma StepKeepsInv(s: State, act: Action)
    requires Inv(s)
    ensures Inv(Step(s, act))
  {
    match act
    case Moves(t) =>
      hide Inv;
      if t < |s.threads| {
        if s.threads[t] == Arriving && s.cur + 1 == |s.threads| {
          LastArrivalKeepsInv(s, t);
        } else {
          OtherStepKeepsInv(s, t);
        }
      }
    case Call(t) =>
      if t < |s.threads| && s.threads[t] == Outside {
        var s' := Step(s, act);
        assert ThreadInv(s, t, s.threads[t], s.calls[t], s.exits[t]);
        forall u | 0 <= u < |s.threads| ensures ThreadInv(s', u, s'.threads[u], s'.calls[u], s.exits[u]) {
          assert ThreadInv(s, u, s.threads[u], s.calls[u], s.exits[u]);
        }
        CountStep(s.threads, s.gen, t, Locking);
      }
  }

  lemma {:induction false} RunKeepsInv(s: State, acts: seq<Action>)
    requires Initial(s)
    ensures Inv(Run(s, acts))
  {
    if acts == [] {
      ZeroCount(s.threads, s.gen);
    } else {
      RunKeepsInv(s, acts[..|acts| - 1]);
      StepKeepsInv(Run(s, acts[..|acts| - 1]), acts[|acts| - 1]);
    }
  }

  // ----- What every run guarantees

  /** The barrier property, for every round and every reuse: a thread that has finished k calls
      knows that every thread has begun its k-th call. */
  lemma NobodyLeavesEarly(s: State, acts: seq<Action>, t: Tid, u: Tid)
    requires Initial(s) && t < |s.threads| && u < |s.threads|
    ensures Run(s, acts).exits[t] <= Run(s, acts).calls[u]
  {
    RunKeepsInv(s, acts);
    var r := Run(s, acts);
    hide Run;
    assert ThreadInv(r, t, r.threads[t], r.calls[t], r.exits[t]);
    assert ThreadInv(r, u, r.threads[u], r.calls[u], r.exits[u]);
  }

  /** Rounds do not mix: no two threads are ever more than one finished call apart. */
  lemma RoundsStayTogether(s: State, acts: seq<Action>, t: Tid, u: Tid)
    requires Initial(s) && t < |s.threads| && u < |s.threads|
    ensures Run(s, acts).exits[t] <= Run(s, acts).exits[u] + 1
  {
    RunKeepsInv(s, acts);
    var r := Run(s, acts);
    hide Run;
    assert ThreadInv(r, t, r.threads[t], r.calls[t], r.exits[t]);
    assert ThreadInv(r, u, r.threads[u], r.calls[u], r.exits[u]);
  }

  /** No lost wake-up: a sleeping thread's round is still open, and somebody in it has not arrived. */
  lemma SleepersHaveAReason(s: State, acts: seq<Action>, t: Tid)
    requires Initial(s) && t < |s.threads| && Run(s, acts).threads[t].Sleeping?
    ensures var r := Run(s, acts);
            r.threads[t].gen == r.gen && exists u :: 0 <= u < |r.threads| && !Arrived(r.threads[u], r.gen)
  {
    RunKeepsInv(s, acts);
    var r := Run(s, acts);
    hide Run;
    assert ThreadInv(r, t, r.threads[t], r.calls[t], r.exits[t]);
    FullCount(r.threads, r.gen);
  }

  /** No deadlock: at every point some thread can take a step inside the barrier, or is outside and
      can call it. */
  lemma SomebodyCanMove(s: State, acts: seq<Action>)
    requires Initial(s)
    ensures CanMove(Run(s, acts))
  {
    RunKeepsInv(s, acts);
    CanMoveInState(Run(s, acts));
  }

  predicate CanMove(r: State)
    requires |r.threads| == |r.calls| == |r.exits|
  {
    exists u :: 0 <= u < |r.threads| && (r.threads[u] == Outside || Step(r, Moves(u)) != r)
  }

  lemma CanMoveInState(r: State)
    requires Inv(r)
    ensures CanMove(r)
  {
    if r.owner.Some? && r.owner.value < |r.threads| {
      var o := r.owner.value;
      assert ThreadInv(r, o, r.threads[o], r.calls[o], r.exits[o]);
      assert Step(r, Moves(o)).threads[o] != r.threads[o];
    } else {
      AwakeExists(r);
      var u :| 0 <= u < |r.threads| && !r.threads[u].Sleeping?;
      assert ThreadInv(r, u, r.threads[u], r.calls[u], r.exits[u]);
      if r.owner == None {
        assert r.threads[u] == Outside || Step(r, Moves(u)).owner == Some(u);
      }
    }
  }

  /** Not all threads are asleep: the count of arrivals stays below the number of threads. */
  lemma AwakeExists(r: State)
    requires Inv(r)
    ensures exists u :: 0 <= u < |r.threads| && !r.threads[u].Sleeping?
  {
    FullCount(r.threads, r.gen);
    var u :| 0 <= u < |r.threads| && !Arrived(r.threads[u], r.gen);
    assert ThreadInv(r, u, r.threads[u], r.calls[u], r.exits[u]);
  }

  // ----- Everybody returns

  /** How many more steps a thread may take until it is outside again. */
  function Rank(th: Thread, gen: nat): nat
  {
    match th
    case Outside => 0
    case Locking => 7
    case Arriving => 6
    case Testing(g) => if g == gen then 5 else 2
    case Sleeping(g) => 4
    case Relocking(g) => if g == gen then 6 else 3
    case Leaving => 1
  }

  function Total(threads: seq<Thread>, gen: nat): nat
  {
    if threads == [] then 0 else Total(threads[..|threads| - 1], gen) + Rank(threads[|threads| - 1], gen)
  }

  /** If no thread's rank grows and that of one shrinks, the total shrinks. */
  lemma {:induction false} TotalShrinks(threads: seq<Thread>, gen: nat, threads': seq<Thread>, gen': nat)
    requires |threads| == |threads'| && forall t :: 0 <= t < |threads| ==> Rank(threads'[t], gen') <= Rank(threads[t], gen)
    ensures Total(threads', gen') <= Total(threads, gen)
    ensures forall t :: 0 <= t < |threads| && Rank(threads'[t], gen') < Rank(threads[t], gen) ==> Total(threads', gen') < Total(threads, gen)
  {
    if threads != [] { TotalShrinks(threads[..|threads| - 1], gen, threads'[..|threads| - 1], gen'); }
  }

  lemma MoveShrinks(s: State, t: Tid)
    requires Inv(s) && t < |s.threads|
    ensures var s' := Step(s, Moves(t));
            |s'.threads| == |s.threads| && (s' == s || Total(s'.threads, s'.gen) < Total(s.threads, s.gen))
  {
    var s' := Step(s, Moves(t));
    if s' != s {
      assert ThreadInv(s, t, s.threads[t], s.calls[t], s.exits[t]);
      forall u | 0 <= u < |s.threads| ensures Rank(s'.threads[u], s'.gen) <= Rank(s.threads[u], s.gen) {
        assert ThreadInv(s, u, s.threads[u], s.calls[u], s.exits[u]);
      }
      assert Rank(s'.threads[t], s'.gen) < Rank(s.threads[t], s.gen);
      TotalShrinks(s.threads, s.gen, s'.threads, s'.gen);
    }
  }

  /** How many calls of thread t a run makes: it can call only when it is outside. */
  function CallsOf(s: State, acts: seq<Action>, t: Tid): nat
    requires |s.threads| == |s.calls| == |s.exits|
  {
    if acts == [] then 0
    else
      var r := Run(s, acts[..|acts| - 1]);
      CallsOf(s, acts[..|acts| - 1], t) + if acts[|acts| - 1] == Call(t) && t < |r.threads| && r.threads[t] == Outside then 1 else 0
  }

  lemma {:induction false} CallsCount(s: State, acts: seq<Action>, t: Tid)
    requires Initial(s) && t < |s.threads|
    ensures Run(s, acts).calls[t] == CallsOf(s, acts, t)
  {
    if acts != [] { CallsCount(s, acts[..|acts| - 1], t); }
  }

  /** Every call returns: between calls, each step that does anything brings the threads closer to the outside,
      by a measure of at most seven for each thread, and while all threads are inside somebody can take such a
      step. So when all have called, all return; and a thread that is outside has returned from every call. */
  lemma EverybodyReturns(s: State, acts: seq<Action>, t: Tid)
    requires Initial(s) && t < |s.threads|
    ensures var r := Run(s, acts); var r' := Step(r, Moves(t));
            |r'.threads| == |r.threads| && (r' == r || Total(r'.threads, r'.gen) < Total(r.threads, r.gen))
    ensures var r := Run(s, acts);
            (forall u :: 0 <= u < |r.threads| ==> r.threads[u] != Outside) ==> exists u :: 0 <= u < |r.threads| && Step(r, Moves(u)) != r
    ensures var r := Run(s, acts); r.threads[t] == Outside ==> r.exits[t] == CallsOf(s, acts, t)
  {
    hide Run;
    RunKeepsInv(s, acts);
    var r := Run(s, acts);
    MoveShrinks(r, t);
    SomebodyCanMove(s, acts);
    CallsCount(s, acts, t);
    assert ThreadInv(r, t, r.threads[t], r.calls[t], r.exits[t]);
  }
}
