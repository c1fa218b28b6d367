/** Calls of the Chase-Lev deque against its history: every call ends after a bounded number of its own
    steps, whatever the others do, and with exactly one answer. */
module ChaseLevCalls {
  import opened Wrappers
  import opened WorkerDeque
  import opened CircularIndex
  import opened ChaseLev

  // ----- Each call has one answer

  datatype Call = Push(v: Task) | Pop

  /** The call that an action makes: the owner can call only when it is idle. */
  function Called(s: State, a: Action): seq<Call>
  {
    if s.owner != Idle then [] else if a.CallPush? then [Push(a.v)] else if a.CallPop? then [Pop] else []
  }

  /** The owner's calls of a run, in order, read from its actions. */
  function Calls(s: State, acts: seq<Action>): seq<Call>
    requires |s.m.slots| > 0
  {
    if acts == [] then []
    else
      var before := acts[..|acts| - 1];
      Calls(s, before) + Called(Run(s, before), acts[|acts| - 1])
  }

  /** The call that an event answers: a push is answered with its own task. */
  function CallOf(e: Event): seq<Call>
  {
    match e
    case Pushed(v) => [Push(v)]
    case Rejected(v) => [Push(v)]
    case Popped(_) => [Pop]
    case PopEmpty => [Pop]
    case Stolen(_) => []
  }

  function Answered(hist: seq<Event>): seq<Call>
  {
    if hist == [] then [] else Answered(hist[..|hist| - 1]) + CallOf(hist[|hist| - 1])
  }

  /** The call in progress, if its answer is not decided yet. */
  function Open(o: Owner): seq<Call>
  {
    match o
    case PushLoadBottom(v) => [Push(v)]
    case PushLoadTop(v, _) => [Push(v)]
    case PushStoreSlot(v, _, _) => [Push(v)]
    case PushStoreBottom(v, _) => [Push(v)]
    case PopLoadBottom => [Pop]
    case PopStoreBottom(_) => [Pop]
    case PopLoadTop(_) => [Pop]
    case PopLoadSlot(b, t) => if t < b then [] else [Pop]
    case PopCas(_, _, _) => [Pop]
    case _ => []
  }

  lemma AnsweredStep(hist: seq<Event>, e: Event)
    ensures Answered(hist + [e]) == Answered(hist) + CallOf(e)
  {
    assert (hist + [e])[..|hist|] == hist;
  }

  /** A step opens a call, or answers the one in progress, or leaves it. */
  lemma StepAnswers(s: State, a: Action)
    requires Inv(s)
    ensures Answered(Step(s, a).hist) + Open(Step(s, a).owner) == Answered(s.hist) + Open(s.owner) + Called(s, a)
  {
    hide RealIndex, HistoryInv, ThiefInv, Answered;
    assert OwnerInv(s.m, s.owner, s.claimed);
    var s' := Step(s, a);
    if |s'.hist| > |s.hist| { AnsweredStep(s.hist, s'.hist[|s.hist|]); }
  }

  /** In every interleaving the owner's calls are answered one by one, in order: a push by pushed or rejected
      with its own task, a pop by popped or empty. Only the call in progress may be without an answer. */
  lemma {:induction false} EveryCallIsAnswered(s: State, acts: seq<Action>)
    requires Initial(s)
    ensures var r := Run(s, acts); Calls(s, acts) == Answered(r.hist) + Open(r.owner)
    ensures Run(s, acts).owner == Idle ==> Calls(s, acts) == Answered(Run(s, acts).hist)
  {
    hide Inv, Step, Called, Answered;
    if acts == [] {
      assert Answered([]) == [] by { NoneAnswered(); }
    } else {
      var before := acts[..|acts| - 1];
      EveryCallIsAnswered(s, before);
      RunKeepsInv(s, before);
      StepAnswers(Run(s, before), acts[|acts| - 1]);
    }
  }

  lemma NoneAnswered()
    ensures Answered([]) == []
  {
  }

  // ----- No task is lost

  /** The tasks of all push calls. */
  function Given(calls: seq<Call>): multiset<Task>
  {
    if calls == [] then multiset{}
    else
      var c := calls[|calls| - 1];
      Given(calls[..|calls| - 1]) + if c.Push? then multiset{c.v} else multiset{}
  }

  function RejectedBag(hist: seq<Event>): multiset<Task>
  {
    if hist == [] then multiset{}
    else
      var e := hist[|hist| - 1];
      RejectedBag(hist[..|hist| - 1]) + if e.Rejected? then multiset{e.task} else multiset{}
  }

  lemma GivenStep(calls: seq<Call>, more: seq<Call>)
    requires |more| <= 1
    ensures Given(calls + more) == Given(calls) + Given(more)
  {
    if more == [] {
      assert calls + more == calls;
    } else {
      assert (calls + more)[..|calls|] == calls && more[..0] == [];
    }
  }

  lemma {:induction false} GivenAnswered(hist: seq<Event>)
    ensures Given(Answered(hist)) == PushedBag(hist) + RejectedBag(hist)
  {
    if hist != [] {
      var before, e := hist[..|hist| - 1], hist[|hist| - 1];
      GivenAnswered(before);
      GivenStep(Answered(before), CallOf(e));
    }
  }

  /** Conservation by the calls: in every interleaving, every task given to a push call was rejected, or
      handed to a caller, or is claimed by an unfinished pop, or is in the deque, or its push is in progress,
      and each exactly once. */
  lemma NoGivenTaskLost(s: State, acts: seq<Action>)
    requires Initial(s)
    ensures var r := Run(s, acts);
            && 0 <= r.m.top <= |r.m.vals|
            && Given(Calls(s, acts))
            == RejectedBag(r.hist) + r.returned + Bag(r.claimed) + multiset(r.m.Contents()) + Given(Open(r.owner))
            && (r.owner == Idle ==> Given(Calls(s, acts)) == RejectedBag(r.hist) + r.returned + multiset(r.m.Contents()))
  {
    hide Run, RejectedBag, PushedBag, Calls, Answered, Given;
    var r := Run(s, acts);
    EveryCallIsAnswered(s, acts);
    GivenAnswered(r.hist);
    GivenStep(Answered(r.hist), Open(r.owner));
    NoTaskLostOrDuplicated(s, acts);
  }

  // ----- Every call ends

  /** How many more steps the owner's call may take. */
  function Remaining(o: Owner): nat
  {
    match o
    case Idle => 0
    case PushLoadBottom(_) => 4
    case PushLoadTop(_, _) => 3
    case PushStoreSlot(_, _, _) => 2
    case PushStoreBottom(_, _) => 1
    case PopLoadBottom => 6
    case PopStoreBottom(_) => 5
    case PopLoadTop(_) => 4
    case PopLoadSlot(_, _) => 3
    case PopCas(_, _, _) => 2
    case PopRestore(_, _) => 1
  }

  function Left(th: Thief): nat
  {
    match th
    case Resting => 0
    case LoadTop => 4
    case LoadBottom(_) => 3
    case LoadSlot(_, _) => 2
    case Cas(_, _) => 1
  }

  function OwnMoves(acts: seq<Action>): nat
  {
    if acts == [] then 0 else OwnMoves(acts[..|acts| - 1]) + if acts[|acts| - 1] == OwnerMoves then 1 else 0
  }

  function MovesOf(acts: seq<Action>, i: nat): nat
  {
    if acts == [] then 0 else MovesOf(acts[..|acts| - 1], i) + if acts[|acts| - 1] == ThiefMoves(i) then 1 else 0
  }

  lemma OwnerMovesOn(s: State, a: Action)
    requires |s.m.slots| > 0 && !a.CallPush? && !a.CallPop?
    ensures var l, l' := Remaining(s.owner), Remaining(Step(s, a).owner);
            if a == OwnerMoves then l' == 0 || l' < l else l' == l
  {
    hide RealIndex;
  }

  lemma ThiefMovesOn(s: State, a: Action, i: nat)
    requires |s.m.slots| > 0 && i < |s.thieves| && a != CallSteal(i)
    ensures var l, l' := Left(s.thieves[i]), Left(Step(s, a).thieves[i]);
            if a == ThiefMoves(i) then l' == 0 || l' < l else l' == l
  {
    hide RealIndex;
  }

  lemma {:induction false} OwnerProgresses(s: State, acts: seq<Action>)
    requires |s.m.slots| > 0 && forall k :: 0 <= k < |acts| ==> !acts[k].CallPush? && !acts[k].CallPop?
    ensures var left := Remaining(Run(s, acts).owner); left == 0 || left + OwnMoves(acts) <= Remaining(s.owner)
  {
    hide Step, Remaining;
    if acts != [] {
      OwnerProgresses(s, acts[..|acts| - 1]);
      OwnerMovesOn(Run(s, acts[..|acts| - 1]), acts[|acts| - 1]);
    }
  }

  lemma {:induction false} ThiefProgresses(s: State, acts: seq<Action>, i: nat)
    requires |s.m.slots| > 0 && i < |s.thieves| && forall k :: 0 <= k < |acts| ==> acts[k] != CallSteal(i)
    ensures var left := Left(Run(s, acts).thieves[i]); left == 0 || left + MovesOf(acts, i) <= Left(s.thieves[i])
  {
    hide Step, Left;
    if acts != [] {
      ThiefProgresses(s, acts[..|acts| - 1], i);
      ThiefMovesOn(Run(s, acts[..|acts| - 1]), acts[|acts| - 1], i);
    }
  }

  /** The deque is wait-free: whatever the others do, a push or a pop is over after six steps of the owner, a
      steal after four of the thief. */
  lemma WaitFree(s: State, acts: seq<Action>, i: nat)
    requires |s.m.slots| > 0
    ensures (forall k :: 0 <= k < |acts| ==> !acts[k].CallPush? && !acts[k].CallPop?) && OwnMoves(acts) >= 6 ==>
              Run(s, acts).owner == Idle
    ensures i < |s.thieves| && (forall k :: 0 <= k < |acts| ==> acts[k] != CallSteal(i)) && MovesOf(acts, i) >= 4 ==>
              Run(s, acts).thieves[i] == Resting
  {
    hide Run, OwnMoves, MovesOf;
    if forall k :: 0 <= k < |acts| ==> !acts[k].CallPush? && !acts[k].CallPop? { OwnerProgresses(s, acts); }
    if i < |s.thieves| && forall k :: 0 <= k < |acts| ==> acts[k] != CallSteal(i) { ThiefProgresses(s, acts, i); }
  }

  /** A step that ends a steal took the front of the deque, or the range that the thief saw was empty, or
      somebody else took that index first; a thief that saw a task goes on to its compare-and-swap. */
  lemma StealEndsForAReason(s: State, acts: seq<Action>, i: nat)
    requires Initial(s) && i < |s.thieves| && Run(s, acts).thieves[i] != Resting
    ensures var r := Run(s, acts); var r' := Step(r, ThiefMoves(i)); var th := r.thieves[i];
            && (th == LoadTop ==> r'.thieves[i] == LoadBottom(r.m.top))
            && (th.LoadBottom? ==> r'.thieves[i] == LoadSlot(th.t, r.m.bottom))
            && (th.LoadSlot? && th.t < th.b ==> r'.thieves[i].Cas? && r'.thieves[i].t == th.t)
            && (r'.thieves[i] == Resting ==>
                 || (th.LoadSlot? && th.b <= th.t && r' == r.(thieves := r'.thieves))
                 || (th.Cas? && th.t < r.m.top && r' == r.(thieves := r'.thieves))
                 || (th.Cas? && r'.m.top == r.m.top + 1 && r'.hist == r.hist + [Stolen(th.x)]))
  {
    hide Run, RealIndex, HistoryInv, OwnerInv;
    RunKeepsInv(s, acts);
    var r := Run(s, acts);
    assert ThiefInv(r.m, r.thieves[i]);
  }

  // ----- Undisturbed calls

  function OwnerRuns(s: State, k: nat): (r: State)
    requires |s.m.slots| > 0
    ensures |r.m.slots| == |s.m.slots|
  {
    if k == 0 then s else Step(OwnerRuns(s, k - 1), OwnerMoves)
  }

  function ThiefRuns(s: State, i: nat, k: nat): (r: State)
    requires |s.m.slots| > 0
    ensures |r.m.slots| == |s.m.slots| && |r.thieves| == |s.thieves|
  {
    if k == 0 then s else Step(ThiefRuns(s, i, k - 1), ThiefMoves(i))
  }

  /** A push that nobody disturbs appends its task, or is rejected if the deque is full. */
  lemma PushAlone(s: State, v: Task)
    requires Inv(s) && s.owner == Idle
    ensures var r, q := OwnerRuns(Step(s, CallPush(v)), 4), s.m.Contents();
            && r.owner == Idle && r.thieves == s.thieves && r.returned == s.returned && 0 <= r.m.top <= |r.m.vals|
            && r.m.Contents() == (if |q| < |s.m.slots| then q + [v] else q)
            && r.hist == s.hist + [if |q| < |s.m.slots| then Pushed(v) else Rejected(v)]
  {
    hide RealIndex, HistoryInv, ThiefInv;
    var s0 := Step(s, CallPush(v));
    var s1 := OwnerRuns(s0, 1);
    var s2 := OwnerRuns(s0, 2);
    var s3 := OwnerRuns(s0, 3);
    assert OwnerRuns(s0, 0) == s0 && s1 == Step(s0, OwnerMoves);
    assert s1 == s0.(owner := PushLoadTop(v, |s.m.vals|));
    var r := OwnerRuns(s0, 4);
    if |s.m.Contents()| < |s.m.slots| {
      assert s3.owner == PushStoreBottom(v, |s.m.vals|) && s3.m == s.m.(slots := s3.m.slots);
      assert r.m.Contents() == s.m.Contents() + [v];
    } else {
      assert s2 == s.(hist := s.hist + [Rejected(v)]);
      assert s3 == s2;
    }
  }

  /** A pop that nobody disturbs takes the last task and hands it out; from an empty deque, nothing. */
  lemma PopAlone(s: State)
    requires Inv(s) && s.owner == Idle
    ensures var r, q := OwnerRuns(Step(s, CallPop), 6), s.m.Contents();
            && r.owner == Idle && r.thieves == s.thieves && 0 <= r.m.top <= |r.m.vals|
            && (q == [] ==> r.m.Contents() == [] && r.returned == s.returned && r.hist == s.hist + [PopEmpty])
            && (q != [] ==> var x := q[|q| - 1];
                 r.m.Contents() == q[..|q| - 1] && r.returned == s.returned + multiset{x} && r.hist == s.hist + [Popped(x)])
  {
    hide RealIndex, Inv, OwnerRuns, Step, Four, Memory.Load;
    PopStarts(s);
    var s2 := OwnerRuns(Step(s, CallPop), 2);
    var n := |s.m.vals|;
    FourMore(Step(s, CallPop));
    if s.m.top == n {
      PopsNothing(s, s2);
    } else if s.m.top == n - 1 {
      PopsOnly(s, s2);
    } else {
      PopsOneOfMany(s, s2);
    }
  }

  /** The first two steps of a pop. */
  lemma PopStarts(s: State)
    requires Inv(s) && s.owner == Idle
    ensures |s.m.slots| > 0 && Popping(s, OwnerRuns(Step(s, CallPop), 2))
  {
    hide RealIndex, HistoryInv, ThiefInv;
    var s0 := Step(s, CallPop);
    assert OwnerRuns(s0, 0) == s0 && OwnerRuns(s0, 1) == Step(s0, OwnerMoves);
    if s.m.top < |s.m.vals| { assert s.m.Load(|s.m.vals| - 1) == s.m.vals[|s.m.vals| - 1]; }
  }

  function Four(s: State): (r: State)
    requires |s.m.slots| > 0
  {
    Step(Step(Step(Step(s, OwnerMoves), OwnerMoves), OwnerMoves), OwnerMoves)
  }

  lemma FourMore(s: State)
    requires |s.m.slots| > 0
    ensures OwnerRuns(s, 6) == Four(OwnerRuns(s, 2))
  {
    hide Step;
    assert OwnerRuns(s, 5) == Step(OwnerRuns(s, 4), OwnerMoves) && OwnerRuns(s, 4) == Step(OwnerRuns(s, 3), OwnerMoves);
  }

  /** A pop that has stored its bottom while nobody else moves. */
  predicate Popping(s: State, s2: State)
  {
    var n := |s.m.vals|;
    && |s.m.slots| > 0 && 0 <= s.m.top <= n == s.m.bottom && s.claimed == None && s.owner == Idle
    && s2 == s.(m := s.m.(bottom := n - 1), owner := PopLoadTop(n - 1))
    && (s.m.top < n ==> s.m.Load(n - 1) == s.m.vals[n - 1])
  }

  lemma PopsNothing(s: State, s2: State)
    requires Popping(s, s2) && s.m.top == |s.m.vals|
    ensures Four(s2) == s.(hist := s.hist + [PopEmpty])
  {
    var s3 := Step(s2, OwnerMoves);
    assert s3.owner == PopRestore(|s.m.vals| - 1, None);
    var s4 := Step(s3, OwnerMoves);
    assert s4 == s.(hist := s.hist + [PopEmpty]);
    assert Step(s4, OwnerMoves) == s4;
  }

  lemma PopsOnly(s: State, s2: State)
    requires Popping(s, s2) && s.m.top == |s.m.vals| - 1
    ensures var x := s.m.vals[|s.m.vals| - 1];
            Four(s2) == s.(m := s.m.(top := s.m.top + 1), hist := s.hist + [Popped(x)], returned := s.returned + multiset{x})
  {
    hide RealIndex;
    var n := |s.m.vals|;
    var s3 := Step(s2, OwnerMoves);
    assert s3 == s2.(owner := PopLoadSlot(n - 1, n - 1));
    var s4 := Step(s3, OwnerMoves);
    assert s4 == s2.(owner := PopCas(n - 1, n - 1, s.m.vals[n - 1]));
  }

  lemma PopsOneOfMany(s: State, s2: State)
    requires Popping(s, s2) && s.m.top < |s.m.vals| - 1
    ensures var n := |s.m.vals|; var x := s.m.vals[n - 1];
            Four(s2) == s.(m := s2.m.(vals := s.m.vals[..n - 1]), hist := s.hist + [Popped(x)], returned := s.returned + multiset{x})
  {
    hide RealIndex;
    var s3 := Step(s2, OwnerMoves);
    assert s3.m.Load(|s.m.vals| - 1) == s.m.Load(|s.m.vals| - 1);
    var s4 := Step(s3, OwnerMoves);
    assert s4.owner == Idle;
    assert Step(s4, OwnerMoves) == s4;
  }

  /** A steal that nobody disturbs takes the first task and hands it out; from an empty deque, nothing. */
  lemma StealAlone(s: State, i: nat)
    requires Inv(s) && s.owner == Idle && i < |s.thieves| && s.thieves[i] == Resting
    ensures var r, q := ThiefRuns(Step(s, CallSteal(i)), i, 4), s.m.Contents();
            && r.thieves == s.thieves && r.owner == Idle && 0 <= r.m.top <= |r.m.vals|
            && (q == [] ==> r == s)
            && (q != [] ==> r.m.Contents() == q[1..] && r.returned == s.returned + multiset{q[0]} && r.hist == s.hist + [Stolen(q[0])])
  {
    hide RealIndex, HistoryInv, ThiefInv;
    var s0 := Step(s, CallSteal(i));
    var s1 := ThiefRuns(s0, i, 1);
    var s2 := ThiefRuns(s0, i, 2);
    var s3 := ThiefRuns(s0, i, 3);
    var r := ThiefRuns(s0, i, 4);
    assert ThiefRuns(s0, i, 0) == s0 && s1 == Step(s0, ThiefMoves(i));
    assert s2 == s.(thieves := s.thieves[i := LoadSlot(s.m.top, |s.m.vals|)]);
    if s.m.Contents() == [] {
      assert s3 == s;
    } else {
      assert s.m.Load(s.m.top) == s.m.vals[s.m.top];
      assert r.m.Contents() == s.m.Contents()[1..];
    }
  }
}
