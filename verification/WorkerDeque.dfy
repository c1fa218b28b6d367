/** The sequential specification of a worker's task deque: the locked deque whose
    operations each run under one spinlock. Top is the back of the sequence (the
    owner's end), bottom is the front (the thieves' end). */
module WorkerDeque {
  import opened Wrappers

  type Task = nat

  /** One completed operation on a deque of bounded capacity, with its result. */
  datatype Event =
    | Pushed(task: Task)
    | Rejected(task: Task)   // the deque was full
    | Popped(task: Task)
    | PopEmpty
    | Stolen(task: Task)

  /** The effect of one completed operation; None when the locked deque could not have
      produced that result from contents `q`. */
  function Apply(q: seq<Task>, capacity: nat, e: Event): (r: Option<seq<Task>>)
  {
    match e
    case Pushed(v) => if |q| < capacity then Some(q + [v]) else None
    case Rejected(v) => if |q| >= capacity then Some(q) else None
    case Popped(v) => if q != [] && q[|q| - 1] == v then Some(q[..|q| - 1]) else None
    case PopEmpty => if q == [] then Some(q) else None
    case Stolen(v) => if q != [] && q[0] == v then Some(q[1..]) else None
  }

  /** Replays a history of completed operations from the empty deque. */
  function Replay(hist: seq<Event>, capacity: nat): (r: Option<seq<Task>>)
  {
    if hist == [] then Some([])
    else
      var before := Replay(hist[..|hist| - 1], capacity);
      if before.None? then None else Apply(before.value, capacity, hist[|hist| - 1])
  }

  function PushedBag(hist: seq<Event>): multiset<Task>
  {
    if hist == [] then multiset{}
    else
      var bag := PushedBag(hist[..|hist| - 1]);
      var e := hist[|hist| - 1];
      if e.Pushed? then bag + multiset{e.task} else bag
  }

  function TakenBag(hist: seq<Event>): multiset<Task>
  {
    if hist == [] then multiset{}
    else
      var bag := TakenBag(hist[..|hist| - 1]);
      var e := hist[|hist| - 1];
      if e.Popped? || e.Stolen? then bag + multiset{e.task} else bag
  }

  /** Extending a history by one event. */
  lemma HistoryStep(hist: seq<Event>, capacity: nat, e: Event)
    ensures Replay(hist + [e], capacity)
         == if Replay(hist, capacity).None? then None
            else Apply(Replay(hist, capacity).value, capacity, e)
    ensures PushedBag(hist + [e]) == if e.Pushed? then PushedBag(hist) + multiset{e.task} else PushedBag(hist)
    ensures TakenBag(hist + [e])
         == if e.Popped? || e.Stolen? then TakenBag(hist) + multiset{e.task} else TakenBag(hist)
  {
    assert (hist + [e])[..|hist|] == hist;
  }

  /** One operation conserves tasks: what it adds and what it removes account for the change. */
  lemma ApplyConserves(q: seq<Task>, capacity: nat, e: Event)
    requires Apply(q, capacity, e).Some?
    ensures var r := multiset(Apply(q, capacity, e).value);
            && (e.Pushed? ==> r == multiset(q) + multiset{e.task})
            && (e.Popped? || e.Stolen? ==> r + multiset{e.task} == multiset(q))
            && (e.Rejected? || e.PopEmpty? ==> r == multiset(q))
  {
    if e.Popped? {
      assert q == q[..|q| - 1] + [q[|q| - 1]];
    } else if e.Stolen? {
      assert q == [q[0]] + q[1..];
    }
  }

  /** Whatever the history, tasks are conserved: what went in is what came out plus what is left. */
  lemma {:induction false} Conservation(hist: seq<Event>, capacity: nat)
    requires Replay(hist, capacity).Some?
    ensures PushedBag(hist) == TakenBag(hist) + multiset(Replay(hist, capacity).value)
  {
    if hist != [] {
      var before, e := hist[..|hist| - 1], hist[|hist| - 1];
      Conservation(before, capacity);
      ApplyConserves(Replay(before, capacity).value, capacity, e);
    }
  }

  /** The locked deque itself, holding its contents under one spinlock. */
  class SpinlockDeque {
    var q: seq<Task>

    constructor ()
      ensures q == []
    {
      q := [];
    }

    method LocalPushTop(cont: Task)
      modifies this
      ensures Apply(old(q), |old(q)| + 1, Pushed(cont)) == Some(q)
    {
      q := q + [cont];
    }

    method TryLocalPopTop() returns (cont: Option<Task>)
      modifies this
      ensures cont.None? <==> old(q) == []
      ensures Apply(old(q), 0, if cont.None? then PopEmpty else Popped(cont.value)) == Some(q)
    {
      if q == [] {
        return None;
      }
      cont := Some(q[|q| - 1]);
      q := q[..|q| - 1];
    }

    method TryRemotePopBottom() returns (cont: Option<Task>)
      modifies this
      ensures cont.None? <==> old(q) == []
      ensures Apply(old(q), 0, if cont.None? then PopEmpty else Stolen(cont.value)) == Some(q)
    {
      if q == [] {
        return None;
      }
      cont := Some(q[0]);
      q := q[1..];
    }
  }
}
