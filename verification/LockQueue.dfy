/** The FIFO lock queue that the delegator and the mutex are built on. The holder of the
    lock is the first entry; later entries are waiters in arrival order. A waiter is
    published once its predecessor's link to it has been written. */
module LockQueue {
  import opened Wrappers

  type Node = nat
  type Tid = nat

  /** `Pending(t)` marks a link that thread t has still to write. */
  datatype Link = Published | Pending(t: Tid)
  datatype Entry = Entry(node: Node, link: Link)

  /** The queue, and how many entries have ever left it. */
  datatype Queue = Queue(entries: seq<Entry>, left: nat)

  const EMPTY := Queue([], 0)

  /** One observation made by a caller of the queue. Tickets number the entries in arrival order. */
  datatype Event =
    | Enqueued(node: Node, t: Tid, locked: bool)
    | Linked(ticket: nat)
    | Unlocked(node: Node)
    | UnlockRefused(node: Node)
    | Followed(node: Node, next: Node)
    | FollowRefused(node: Node)

  predicate Contains(entries: seq<Entry>, n: Node)
  {
    exists k :: 0 <= k < |entries| && entries[k].node == n
  }

  predicate SuccessorPublished(a: Queue)
  {
    |a.entries| >= 2 && a.entries[1].link == Published
  }

  /** What the queue does for each observation; None when the queue could not have answered so.
      Locking succeeds at once exactly on an empty queue, unlocking exactly when the holder is
      alone, following exactly when the successor is published. */
  function Apply(a: Queue, e: Event): (r: Option<Queue>)
  {
    match e
    case Enqueued(n, t, locked) =>
      if locked == (a.entries == []) && !Contains(a.entries, n)
      then Some(a.(entries := a.entries + [Entry(n, if locked then Published else Pending(t))]))
      else None
    case Linked(k) =>
      if 0 < k - a.left < |a.entries| && a.entries[k - a.left].link.Pending?
      then Some(a.(entries := a.entries[k - a.left := a.entries[k - a.left].(link := Published)]))
      else None
    case Unlocked(n) =>
      if |a.entries| == 1 && a.entries[0].node == n then Some(Queue([], a.left + 1)) else None
    case UnlockRefused(n) =>
      if |a.entries| > 1 && a.entries[0].node == n then Some(a) else None
    case Followed(n, m) =>
      if SuccessorPublished(a) && a.entries[0].node == n && a.entries[1].node == m
      then Some(Queue(a.entries[1..], a.left + 1)) else None
    case FollowRefused(n) =>
      if a.entries != [] && a.entries[0].node == n && !SuccessorPublished(a) then Some(a) else None
  }

  function Replay(hist: seq<Event>): (r: Option<Queue>)
  {
    if hist == [] then Some(EMPTY)
    else
      var before := Replay(hist[..|hist| - 1]);
      if before.None? then None else Apply(before.value, hist[|hist| - 1])
  }

  // ----- How the queue changes

  datatype Change = Same | Append(e: Entry) | Publish(k: nat) | Drop

  function Changed(a: Queue, c: Change): Queue
  {
    match c
    case Same => a
    case Append(e) => a.(entries := a.entries + [e])
    case Publish(k) => if k < |a.entries| then a.(entries := a.entries[k := a.entries[k].(link := Published)]) else a
    case Drop => if a.entries == [] then a else Queue(a.entries[1..], a.left + 1)
  }

  // ----- The calls that a history answers

  /** What the holder of the lock may ask. */
  datatype Ask = AskUnlock | AskFollow

  function AskOf(e: Event): seq<Ask>
  {
    match e
    case Unlocked(_) => [AskUnlock]
    case UnlockRefused(_) => [AskUnlock]
    case Followed(_, _) => [AskFollow]
    case FollowRefused(_) => [AskFollow]
    case _ => []
  }

  function Asked(hist: seq<Event>): seq<Ask>
  {
    if hist == [] then [] else Asked(hist[..|hist| - 1]) + AskOf(hist[|hist| - 1])
  }

  function EnqueueBy(e: Event, t: Tid): nat
  {
    if e.Enqueued? && e.t == t then 1 else 0
  }

  /** How often thread t joined the queue. */
  function Enqueues(hist: seq<Event>, t: Tid): nat
  {
    if hist == [] then 0 else Enqueues(hist[..|hist| - 1], t) + EnqueueBy(hist[|hist| - 1], t)
  }

  lemma OneMoreEvent(hist: seq<Event>, e: Event, t: Tid)
    ensures Asked(hist + [e]) == Asked(hist) + AskOf(e) && Enqueues(hist + [e], t) == Enqueues(hist, t) + EnqueueBy(e, t)
  {
    assert (hist + [e])[..|hist|] == hist;
  }

  lemma NoEvents(t: Tid)
    ensures Asked([]) == [] && Enqueues([], t) == 0
  {
  }

  lemma ReplayStep(hist: seq<Event>, e: Event)
    ensures Replay(hist + [e]) == if Replay(hist).None? then None else Apply(Replay(hist).value, e)
  {
    assert (hist + [e])[..|hist|] == hist;
  }
}
