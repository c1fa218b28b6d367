/** The Chase-Lev work-stealing deque: one owner, any number of thieves, a circular
    array whose slots are reused. Every atomic load, store and compare-and-swap is one
    step; a run is any interleaving of such steps. */
module ChaseLev {
  import opened Wrappers
  import opened WorkerDeque
  import opened CircularIndex

  /** Where the owner is inside `local_push_top` or `try_local_pop_top`, with its locals. */
  datatype Owner =
    | Idle
    | PushLoadBottom(v: Task)
    | PushLoadTop(v: Task, b: int)
    | PushStoreSlot(v: Task, b: int, t: int)
    | PushStoreBottom(v: Task, b: int)
    | PopLoadBottom
    | PopStoreBottom(b: int)
    | PopLoadTop(b: int)
    | PopLoadSlot(b: int, t: int)
    | PopCas(b: int, t: int, x: Task)
    | PopRestore(b: int, result: Option<Task>)

  /** Where a thief is inside `try_remote_pop_bottom`. */
  datatype Thief =
    | Resting
    | LoadTop
    | LoadBottom(t: int)
    | LoadSlot(t: int, b: int)
    | Cas(t: int, x: Task)

  /** The shared registers and the circular array, with one history variable: `vals` holds
      the value pushed at each logical index below the logical bottom. */
  datatype Memory = Memory(top: int, bottom: int, slots: seq<Task>, vals: seq<Task>)
  {
    /** The abstract contents: logical indexes from top to the logical bottom. */
    function Contents(): (q: seq<Task>)
      requires 0 <= top <= |vals|
    {
      vals[top..]
    }

    function Load(i: int): Task
      requires |slots| > 0
    {
      slots[RealIndex(|slots|, i)]
    }
  }

  /** Memory and program counters, then the history: the completed operations in
      linearization order, the tasks already handed to callers, and the task that an
      unfinished pop of the owner has already claimed. */
  datatype State = State(
    m: Memory, owner: Owner, thieves: seq<Thief>,
    hist: seq<Event>, returned: multiset<Task>, claimed: Option<Task>)

  datatype Action = CallPush(v: Task) | CallPop | OwnerMoves | CallSteal(i: nat) | ThiefMoves(i: nat)

  predicate Initial(s: State)
  {
    && |s.m.slots| > 0
    && s.m.top == s.m.bottom == 0 && s.m.vals == [] && s.owner == Idle
    && (forall i :: 0 <= i < |s.thieves| ==> s.thieves[i] == Resting)
    && s.hist == [] && s.returned == multiset{} && s.claimed == None
  }

  /** One step of the owner inside `local_push_top`. */
  function PushStep(s: State): (r: State)
    requires |s.m.slots| > 0
    ensures |r.m.slots| == |s.m.slots| && r.thieves == s.thieves
  {
    match s.owner
    case PushLoadBottom(v) => s.(owner := PushLoadTop(v, s.m.bottom))
    case PushLoadTop(v, b) =>
      // The capacity test reads nothing after this load, so a full deque is decided here.
      if b - s.m.top > |s.m.slots| - 1
      then s.(owner := Idle, hist := s.hist + [Rejected(v)])
      else s.(owner := PushStoreSlot(v, b, s.m.top))
    case PushStoreSlot(v, b, t) =>
      s.(m := s.m.(slots := s.m.slots[RealIndex(|s.m.slots|, b) := v]), owner := PushStoreBottom(v, b))
    case PushStoreBottom(v, b) =>
      s.(m := s.m.(bottom := b + 1, vals := s.m.vals + [v]), owner := Idle, hist := s.hist + [Pushed(v)])
    case _ => s
  }

  /** One step of the owner inside `try_local_pop_top`. */
  function PopStep(s: State): (r: State)
    requires |s.m.slots| > 0
    ensures |r.m.slots| == |s.m.slots| && r.thieves == s.thieves
  {
    match s.owner
    case PopLoadBottom => s.(owner := PopStoreBottom(s.m.bottom - 1))
    case PopStoreBottom(b) => s.(m := s.m.(bottom := b), owner := PopLoadTop(b))
    case PopLoadTop(b) =>
      if s.m.top < b && 0 <= b < |s.m.vals| then
        // More than one task is left: no thief can reach index b any more.
        s.(m := s.m.(vals := s.m.vals[..b]), owner := PopLoadSlot(b, s.m.top),
           hist := s.hist + [Popped(s.m.vals[b])], claimed := Some(s.m.vals[b]))
      else if s.m.top <= b then s.(owner := PopLoadSlot(b, s.m.top))
      else s.(owner := PopRestore(b, None), hist := s.hist + [PopEmpty])
    case PopLoadSlot(b, t) =>
      if t == b then s.(owner := PopCas(b, t, s.m.Load(b)))
      else s.(owner := Idle, returned := s.returned + multiset{s.m.Load(b)}, claimed := None)
    case PopCas(b, t, x) =>
      if s.m.top == t
      then s.(m := s.m.(top := t + 1), owner := PopRestore(b, Some(x)),
              hist := s.hist + [Popped(x)], claimed := Some(x))
      else s.(owner := PopRestore(b, None), hist := s.hist + [PopEmpty])
    case PopRestore(b, result) =>
      s.(m := s.m.(bottom := b + 1), owner := Idle, claimed := None,
         returned := s.returned + Bag(result))
    case _ => s
  }

  function Bag(x: Option<Task>): multiset<Task>
  {
    if x.Some? then multiset{x.value} else multiset{}
  }

  /** One step of thief i inside `try_remote_pop_bottom`. */
  function ThiefStep(s: State, i: nat): (r: State)
    requires |s.m.slots| > 0 && i < |s.thieves|
    ensures |r.m.slots| == |s.m.slots| && |r.thieves| == |s.thieves|
  {
    match s.thieves[i]
    case Resting => s
    case LoadTop => s.(thieves := s.thieves[i := LoadBottom(s.m.top)])
    case LoadBottom(t) => s.(thieves := s.thieves[i := LoadSlot(t, s.m.bottom)])
    case LoadSlot(t, b) =>
      if b - t > 0 then s.(thieves := s.thieves[i := Cas(t, s.m.Load(t))])
      else s.(thieves := s.thieves[i := Resting])
    case Cas(t, x) =>
      if s.m.top == t
      then s.(m := s.m.(top := t + 1), thieves := s.thieves[i := Resting],
              hist := s.hist + [Stolen(x)], returned := s.returned + multiset{x})
      else s.(thieves := s.thieves[i := Resting])
  }

  /** An action that is not enabled leaves the state alone. */
  function Step(s: State, a: Action): (r: State)
    requires |s.m.slots| > 0
    ensures |r.m.slots| == |s.m.slots| && |r.thieves| == |s.thieves|
  {
    match a
    case CallPush(v) => if s.owner == Idle then s.(owner := PushLoadBottom(v)) else s
    case CallPop => if s.owner == Idle then s.(owner := PopLoadBottom) else s
    case OwnerMoves => if Pushing(s.owner) then PushStep(s) else PopStep(s)
    case CallSteal(i) =>
      if i < |s.thieves| && s.thieves[i] == Resting then s.(thieves := s.thieves[i := LoadTop]) else s
    case ThiefMoves(i) => if i < |s.thieves| then ThiefStep(s, i) else s
  }

  predicate Pushing(o: Owner)
  {
    o.PushLoadBottom? || o.PushLoadTop? || o.PushStoreSlot? || o.PushStoreBottom?
  }

  function Run(s: State, acts: seq<Action>): (r: State)
    requires |s.m.slots| > 0
    ensures |r.m.slots| == |s.m.slots| && |r.thieves| == |s.thieves|
  {
    if acts == [] then s else Step(Run(s, acts[..|acts| - 1]), acts[|acts| - 1])
  }

  // ----- The inductive invariant

  /** Every live logical index is still in its slot. */
  predicate SlotsInv(m: Memory)
  {
    && |m.slots| > 0
    && 0 <= m.top <= |m.vals| <= m.top + |m.slots|
    && forall i :: m.top <= i < |m.vals| ==> m.Load(i) == m.vals[i]
  }

  /** A push knows the logical bottom and, once it has read top, that its slot is vacant. */
  predicate PushInv(m: Memory, o: Owner)
    requires SlotsInv(m) && Pushing(o)
  {
    && m.bottom == |m.vals|
    && match o
       case PushLoadBottom(v) => true
       case PushLoadTop(v, b) => b == |m.vals|
       case PushStoreSlot(v, b, t) => b == |m.vals| && t <= m.top && b - t <= |m.slots| - 1
       case PushStoreBottom(v, b) => b == |m.vals| && b - m.top <= |m.slots| - 1 && m.Load(b) == v
       case _ => false
  }

  /** While a pop is undecided the `bottom_` register is one below the logical bottom. */
  predicate PopInv(m: Memory, o: Owner, claimed: Option<Task>)
    requires SlotsInv(m)
  {
    var n := |m.vals|;
    match o
    case PopStoreBottom(b) => m.bottom == n && b == n - 1 && claimed == None
    case PopLoadTop(b) => m.bottom == b == n - 1 && claimed == None
    case PopLoadSlot(b, t) =>
      if t < b then m.bottom == n == b && claimed == Some(m.Load(b))
      else t == b && m.bottom == b == n - 1 && t <= m.top && claimed == None
    case PopCas(b, t, x) =>
      && t == b && m.bottom == b == n - 1 && t <= m.top && claimed == None
      && (m.top == t ==> 0 <= t && x == m.vals[t])
    case PopRestore(b, result) => m.bottom == b == n - 1 && m.top == n && claimed == result
    case _ => m.bottom == n && claimed == None
  }

  /** A thief that saw a non-empty range holds the front value unless it has already lost. */
  predicate ThiefInv(m: Memory, th: Thief)
    requires SlotsInv(m)
  {
    match th
    case Resting => true
    case LoadTop => true
    case LoadBottom(t) => 0 <= t <= m.top
    case LoadSlot(t, b) => 0 <= t <= m.top && (t < b && m.top == t ==> t < |m.vals|)
    case Cas(t, x) => 0 <= t <= m.top && (m.top == t ==> t < |m.vals| && x == m.vals[t])
  }

  predicate OwnerInv(m: Memory, o: Owner, claimed: Option<Task>)
    requires SlotsInv(m)
  {
    if Pushing(o) then PushInv(m, o) && claimed == None else PopInv(m, o, claimed)
  }

  predicate StructInv(s: State)
  {
    && SlotsInv(s.m)
    && OwnerInv(s.m, s.owner, s.claimed)
    && forall i :: 0 <= i < |s.thieves| ==> ThiefInv(s.m, s.thieves[i])
  }

  predicate HistoryInv(s: State)
    requires SlotsInv(s.m)
  {
    && Replay(s.hist, |s.m.slots|) == Some(s.m.Contents())
    && TakenBag(s.hist) == s.returned + Bag(s.claimed)
  }

  predicate Inv(s: State)
  {
    StructInv(s) && HistoryInv(s)
  }

  /** Storing into the vacant slot at the logical bottom disturbs no live index. */
  lemma VacantStore(m: Memory, v: Task)
    requires SlotsInv(m) && |m.vals| - m.top <= |m.slots| - 1
    ensures SlotsInv(m.(slots := m.slots[RealIndex(|m.slots|, |m.vals|) := v]))
  {
    forall i | m.top <= i < |m.vals| ensures RealIndex(|m.slots|, i) != RealIndex(|m.slots|, |m.vals|) {
      DistinctSlots(i, |m.vals|, |m.slots|);
    }
    hide RealIndex;
  }

  lemma PushKeepsStruct(s: State)
    requires StructInv(s) && Pushing(s.owner)
    ensures StructInv(PushStep(s))
  {
    if s.owner.PushStoreSlot? {
      VacantStore(s.m, s.owner.v);
    }
    hide RealIndex;
    var s' := PushStep(s);
    assert SlotsInv(s'.m);
    forall i | 0 <= i < |s.thieves| ensures ThiefInv(s'.m, s.thieves[i]) {
      assert ThiefInv(s.m, s.thieves[i]);
    }
  }

  lemma PopKeepsOwner(s: State)
    requires StructInv(s) && !Pushing(s.owner)
    ensures var s' := PopStep(s); SlotsInv(s'.m) && OwnerInv(s'.m, s'.owner, s'.claimed)
  {
    hide RealIndex, ThiefInv;
    if s.owner.PopLoadTop? && s.m.top < s.owner.b {
      var b := s.owner.b;
      assert s.m.Load(b) == s.m.vals[b];
      assert SlotsInv(s.m.(vals := s.m.vals[..b]));
    }
  }

  lemma PopKeepsStruct(s: State)
    requires StructInv(s) && !Pushing(s.owner)
    ensures StructInv(PopStep(s))
  {
    hide RealIndex;
    PopKeepsOwner(s);
    var s' := PopStep(s);
    forall i | 0 <= i < |s.thieves| ensures ThiefInv(s'.m, s.thieves[i]) {
      assert ThiefInv(s.m, s.thieves[i]);
    }
  }

  /** Recording one event keeps the history faithful when the locked deque agrees with it. */
  lemma RecordEvent(s: State, s': State, e: Event)
    requires SlotsInv(s.m) && SlotsInv(s'.m) && |s.m.slots| == |s'.m.slots| && HistoryInv(s)
    requires s'.hist == s.hist + [e]
    requires Apply(s.m.Contents(), |s.m.slots|, e) == Some(s'.m.Contents())
    requires s'.returned + Bag(s'.claimed)
          == if e.Popped? || e.Stolen? then s.returned + Bag(s.claimed) + multiset{e.task}
             else s.returned + Bag(s.claimed)
    ensures HistoryInv(s')
  {
    hide RealIndex;
    HistoryStep(s.hist, |s.m.slots|, e);
  }

  lemma PushKeepsHistory(s: State)
    requires Inv(s) && Pushing(s.owner) && SlotsInv(PushStep(s).m)
    ensures HistoryInv(PushStep(s))
  {
    hide RealIndex, Replay, TakenBag, ThiefInv;
    var s' := PushStep(s);
    match s.owner
    case PushLoadTop(v, b) =>
      if s'.owner == Idle {
        RecordEvent(s, s', Rejected(v));
      }
    case PushStoreBottom(v, b) =>
      assert s.m.Contents() + [v] == s'.m.Contents();
      RecordEvent(s, s', Pushed(v));
    case _ =>
  }

  lemma PopLoadTopKeepsHistory(s: State)
    requires Inv(s) && s.owner.PopLoadTop? && SlotsInv(PopStep(s).m)
    ensures HistoryInv(PopStep(s))
  {
    hide RealIndex, Replay, TakenBag, ThiefInv;
    var s', b, q := PopStep(s), s.owner.b, s.m.Contents();
    if s.m.top < b {
      assert q[..|q| - 1] == s'.m.Contents();
      RecordEvent(s, s', Popped(s.m.vals[b]));
    } else if s.m.top > b {
      assert q == [];
      RecordEvent(s, s', PopEmpty);
    }
  }

  lemma PopKeepsHistory(s: State)
    requires Inv(s) && !Pushing(s.owner) && SlotsInv(PopStep(s).m)
    ensures HistoryInv(PopStep(s))
  {
    hide RealIndex, Replay, TakenBag, ThiefInv;
    var s' := PopStep(s);
    match s.owner
    case PopLoadTop(b) => PopLoadTopKeepsHistory(s);
    case PopCas(b, t, x) =>
      if s.m.top == t {
        assert s.m.Contents() == [x] && s'.m.Contents() == [];
        RecordEvent(s, s', Popped(x));
      } else {
        assert s.m.Contents() == [];
        RecordEvent(s, s', PopEmpty);
      }
    case _ =>
  }

  /** A successful compare-and-swap advances top by one and touches nothing else shared. */
  lemma StealKeepsStruct(s: State, i: nat)
    requires StructInv(s) && i < |s.thieves| && s.thieves[i].Cas? && s.thieves[i].t == s.m.top
    ensures StructInv(ThiefStep(s, i))
  {
    hide RealIndex;
    var s' := ThiefStep(s, i);
    assert ThiefInv(s.m, s.thieves[i]);
    assert SlotsInv(s'.m);
    assert OwnerInv(s'.m, s'.owner, s'.claimed);
    forall j | 0 <= j < |s.thieves| ensures ThiefInv(s'.m, s'.thieves[j]) {
      assert ThiefInv(s.m, s.thieves[j]);
    }
  }

  lemma ThiefKeepsStruct(s: State, i: nat)
    requires StructInv(s) && i < |s.thieves|
    ensures StructInv(ThiefStep(s, i))
  {
    hide RealIndex, OwnerInv;
    if s.thieves[i].Cas? && s.thieves[i].t == s.m.top {
      StealKeepsStruct(s, i);
    } else {
      assert ThiefInv(s.m, s.thieves[i]);
      BottomIsClose(s);
    }
  }

  lemma BottomIsClose(s: State)
    requires StructInv(s)
    ensures |s.m.vals| - 1 <= s.m.bottom <= |s.m.vals|
  {
  }

  lemma ThiefKeepsHistory(s: State, i: nat)
    requires Inv(s) && i < |s.thieves| && SlotsInv(ThiefStep(s, i).m)
    ensures HistoryInv(ThiefStep(s, i))
  {
    hide RealIndex, Replay, TakenBag, OwnerInv;
    assert ThiefInv(s.m, s.thieves[i]);
    var s' := ThiefStep(s, i);
    if s.thieves[i].Cas? && s.m.top == s.thieves[i].t {
      assert s.m.Contents()[1..] == s'.m.Contents();
      RecordEvent(s, s', Stolen(s.thieves[i].x));
    }
  }

  lemma StepKeepsInv(s: State, a: Action)
    requires Inv(s)
    ensures Inv(Step(s, a))
  {
    hide RealIndex, Replay, TakenBag;
    match a
    case OwnerMoves =>
      if Pushing(s.owner) {
        PushKeepsStruct(s);
        PushKeepsHistory(s);
      } else {
        PopKeepsStruct(s);
        PopKeepsHistory(s);
      }
    case ThiefMoves(i) =>
      if i < |s.thieves| {
        ThiefKeepsStruct(s, i);
        ThiefKeepsHistory(s, i);
      }
    case _ =>
  }

  lemma {:induction false} RunKeepsInv(s: State, acts: seq<Action>)
    requires Initial(s)
    ensures Inv(Run(s, acts))
  {
    if acts != [] {
      RunKeepsInv(s, acts[..|acts| - 1]);
      StepKeepsInv(Run(s, acts[..|acts| - 1]), acts[|acts| - 1]);
    }
  }

  // ----- What every run guarantees

  /** Linearizability: in every interleaving the completed operations, in the order of their
      linearization steps, are a history of the locked deque, and it ends in the contents. */
  lemma Linearizes(s: State, acts: seq<Action>)
    requires Initial(s)
    ensures var r := Run(s, acts);
            && 0 <= r.m.top <= |r.m.vals|
            && Replay(r.hist, |s.m.slots|) == Some(r.m.Contents())
  {
    RunKeepsInv(s, acts);
  }

  /** Exactly-once delivery: the tasks pushed are the tasks handed to callers, plus the one
      an unfinished pop has claimed, plus those still in the deque. */
  lemma NoTaskLostOrDuplicated(s: State, acts: seq<Action>)
    requires Initial(s)
    ensures var r := Run(s, acts);
            && 0 <= r.m.top <= |r.m.vals|
            && PushedBag(r.hist) == r.returned + Bag(r.claimed) + multiset(r.m.Contents())
            && (r.owner == Idle ==> PushedBag(r.hist) == r.returned + multiset(r.m.Contents()))
  {
    RunKeepsInv(s, acts);
    Conservation(Run(s, acts).hist, |s.m.slots|);
  }

  /** A thief whose compare-and-swap succeeds takes the front of the deque, although slots
      are reused: the value it read earlier is the one pushed at that logical index. */
  lemma StealTakesFront(s: State, acts: seq<Action>, i: nat)
    requires Initial(s) && i < |s.thieves|
    requires Run(s, acts).thieves[i].Cas? && Run(s, acts).thieves[i].t == Run(s, acts).m.top
    ensures var r := Run(s, acts); var r' := ThiefStep(r, i);
            && 0 <= r.m.top < |r.m.vals| && r'.m.top <= |r'.m.vals|
            && r.thieves[i].x == r.m.vals[r.m.top] == r.m.Contents()[0]
            && r'.m.Contents() == r.m.Contents()[1..]
            && r'.returned == r.returned + multiset{r.m.Contents()[0]}
  {
    RunKeepsInv(s, acts);
    var r := Run(s, acts);
    assert ThiefInv(r.m, r.thieves[i]);
    assert r.m.Contents()[1..] == r.m.vals[r.m.top + 1..];
  }

  /** The owner's pop that skips the compare-and-swap: from the moment it has read a smaller
      top, no thief can take that task, and the value it returns is the one it claimed. */
  lemma CasFreePopIsSafe(s: State, acts: seq<Action>)
    requires Initial(s)
    requires var o := Run(s, acts).owner; o.PopLoadSlot? && o.t < o.b
    ensures var r := Run(s, acts); var r' := PopStep(r);
            && r.claimed == Some(r.m.Load(r.owner.b))
            && r'.returned == r.returned + Bag(r.claimed) && r'.owner == Idle
    ensures var r := Run(s, acts);
            forall i :: 0 <= i < |r.thieves| && r.thieves[i].Cas? && r.thieves[i].t == r.m.top
                     ==> r.thieves[i].t < r.owner.b
  {
    RunKeepsInv(s, acts);
    var r := Run(s, acts);
    assert forall i :: 0 <= i < |r.thieves| ==> ThiefInv(r.m, r.thieves[i]);
  }

  /** A steal returns nothing only for a reason. At its load of bottom, a non-positive range
      means the deque is empty or its last task is already wanted by the owner's own pop. */
  lemma EmptyStealIsJustified(s: State, acts: seq<Action>, i: nat)
    requires Initial(s) && i < |s.thieves|
    requires var r := Run(s, acts); r.thieves[i].LoadBottom? && r.m.bottom <= r.thieves[i].t
    ensures var r := Run(s, acts);
            && 0 <= r.m.top <= |r.m.vals| && |r.m.Contents()| <= 1
            && (r.m.Contents() != [] ==>
                  r.owner.PopLoadTop? || r.owner.PopLoadSlot? || r.owner.PopCas?)
  {
    RunKeepsInv(s, acts);
    var r := Run(s, acts);
    assert ThiefInv(r.m, r.thieves[i]);
  }

  /** A steal whose compare-and-swap fails lost to another successful take of that index. */
  lemma FailedStealWasOvertaken(s: State, acts: seq<Action>, i: nat)
    requires Initial(s) && i < |s.thieves|
    requires Run(s, acts).thieves[i].Cas? && Run(s, acts).thieves[i].t != Run(s, acts).m.top
    ensures Run(s, acts).thieves[i].t < Run(s, acts).m.top
  {
    RunKeepsInv(s, acts);
    var r := Run(s, acts);
    assert ThiefInv(r.m, r.thieves[i]);
  }

}
