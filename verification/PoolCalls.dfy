/** Calls of the pool: a request hands out exactly one node, a return takes exactly that node back and puts it
    where its owner finds it, and no call stops in the middle. */
module PoolCalls {
  import opened ReturnPool

  // ----- What a step hands out

  predicate Gives(a: Action)
  {
    a.AllocLocal? || a.AllocTaken? || a.AllocNew?
  }

  /** The node that a step hands out. */
  function Given(s: Pool, a: Action): Node
  {
    match a
    case AllocLocal(w) => if At(s.lists, Local(w)) == [] then 0 else At(s.lists, Local(w))[0]
    case AllocTaken(w) => if At(s.lists, Taken(w)) == [] then 0 else At(s.lists, Taken(w))[0]
    case AllocNew(_, n) => n
    case _ => 0
  }

  lemma NotLiveYet(k: Params, s: Pool, at: Map, a: Action)
    requires Inv(k, s, at) && Enabled(k, s, a) && Gives(a)
    ensures Given(s, a) !in s.live
  {
    hide Bounded;
  }

  predicate HandsOut(s: Pool, a: Action, s': Pool)
  {
    && (Gives(a) ==> exists n :: n !in s.live && s'.live == s.live + {n} && n in s'.owner && s'.owner[n] == a.w)
    && (a.Free? || a.FreeSplice? ==> a.n in s.live && s'.live == s.live - {a.n})
    && (!Gives(a) && !a.Free? && !a.FreeSplice? ==> s'.live == s.live)
  }

  /** In every run, the step that completes a request hands out exactly one node, which was not and belongs to the
      caller; a return takes back exactly its node; no other step changes what is handed out. */
  lemma HandsOutOne(k: Params, acts: seq<Action>, a: Action)
    requires k.threshold >= 1 && Enabled(k, Run(k, acts), a)
    ensures HandsOut(Run(k, acts), a, Step(k, Run(k, acts), a))
  {
    hide Run, Inv, Record;
    var s := Run(k, acts);
    var at := RunKeepsInv(k, acts);
    RecordKeeps(k, Move(s, a));
    if Gives(a) {
      NotLiveYet(k, s, at, a);
      var n := Given(s, a);
      assert n !in s.live && Step(k, s, a).live == s.live + {n};
    }
  }

  lemma RecordKeeps(k: Params, s: Pool)
    ensures Record(k, s) == s.(peak := Record(k, s).peak)
    ensures forall w :: PcOf(Record(k, s), w) == PcOf(s, w)
  {
  }

  // ----- No call stops in the middle

  /** In every run a worker outside a call can begin a request, whatever its lists hold; one in
      the middle of a request can go on to hand out a node, one in the middle of a return can finish it, and
      either is then outside again. Others never change where it is. */
  lemma CallsGoOn(k: Params, acts: seq<Action>, w: Worker, a: Action, n: Node)
    requires k.threshold >= 1 && w < k.workers && n !in Run(k, acts).owner
    ensures var s := Run(k, acts); var pc := PcOf(s, w);
            && (pc == Idle ==> Enabled(k, s, AllocLocal(w)) || Enabled(k, s, AllocTake(w)) || Enabled(k, s, AllocMiss(w)))
            && (pc == Taking ==> Enabled(k, s, AllocTaken(w))) && (pc == Creating ==> Enabled(k, s, AllocNew(w, n)))
            && (pc == Returning ==> Enabled(k, s, FreeFinish(w)))
    ensures var s := Run(k, acts); var s' := Step(k, s, a);
            Enabled(k, s, a) ==>
              if a.w != w then PcOf(s', w) == PcOf(s, w)
              else if PcOf(s, w) != Idle then PcOf(s', w) == Idle
              else PcOf(s', w) == if a.AllocTake? then Taking else if a.AllocMiss? then Creating else if a.FreeSplice? then Returning else Idle
  {
    hide Run, Record, Bounded, Belongs, Placed, Buffered;
    var s := Run(k, acts);
    var at := RunKeepsInv(k, acts);
    assert PcOk(s.lists, s.owner, w, PcOf(s, w));
    RecordKeeps(k, Move(s, a));
  }

  // ----- A returned node is found again

  ghost predicate SameLists(l: map<Place, seq<Node>>, l': map<Place, seq<Node>>, ps: set<Place>)
  {
    forall p :: p !in ps ==> At(l', p) == At(l, p)
  }

  /** What a worker returns of its own it gets back at once: the pool is as before. */
  lemma ReturnThenRequest(k: Params, s: Pool, w: Worker, n: Node)
    requires Enabled(k, s, Free(w, n)) && s.owner[n] == w
    ensures var s1 := Step(k, s, Free(w, n));
            && At(s1.lists, Local(w)) == [n] + At(s.lists, Local(w)) && Enabled(k, s1, AllocLocal(w))
            && var s2 := Step(k, s1, AllocLocal(w));
            s2.live == s.live && s2.owner == s.owner && SameLists(s.lists, s2.lists, {}) && PcOf(s2, w) == Idle
  {
    hide Record;
    RecordKeeps(k, Move(s, Free(w, n)));
    var s1 := Step(k, s, Free(w, n));
    RecordKeeps(k, Move(s1, AllocLocal(w)));
  }

  /** What others return for v waits in their buffer; a full buffer goes, as a whole and in front, to the list that v
      takes over, and the buffer starts again with the node that did not fit. */
  lemma ReturnsReachTheOwner(k: Params, s: Pool, w: Worker, n: Node)
    requires n in s.live && n in s.owner && w < k.workers && PcOf(s, w) == Idle && s.owner[n] != w
    ensures var v := s.owner[n]; var b := At(s.lists, Buffer(w, v));
            if |b| < k.threshold then
              && Enabled(k, s, Free(w, n))
              && var s' := Step(k, s, Free(w, n));
              At(s'.lists, Buffer(w, v)) == [n] + b && SameLists(s.lists, s'.lists, {Buffer(w, v)})
            else
              && Enabled(k, s, FreeSplice(w, n))
              && var s' := Step(k, s, FreeSplice(w, n));
              && At(s'.lists, Remote(v)) == b + At(s.lists, Remote(v)) && At(s'.lists, Hand(w)) == [n] && At(s'.lists, Buffer(w, v)) == []
              && SameLists(s.lists, s'.lists, {Remote(v), Buffer(w, v), Hand(w)}) && s'.owner == s.owner
              && Enabled(k, s', FreeFinish(w))
              && var s2 := Step(k, s', FreeFinish(w));
              At(s2.lists, Buffer(w, v)) == [n] && At(s2.lists, Hand(w)) == [] && SameLists(s'.lists, s2.lists, {Buffer(w, v), Hand(w)})
  {
    hide Record;
    var a := if |At(s.lists, Buffer(w, s.owner[n]))| < k.threshold then Free(w, n) else FreeSplice(w, n);
    RecordKeeps(k, Move(s, a));
    var s' := Step(k, s, a);
    if a.FreeSplice? { RecordKeeps(k, Move(s', FreeFinish(w))); }
  }

  /** A worker with nothing of its own takes over everything that others returned to it, hands out the first and
      keeps the rest. */
  lemma TakesOver(k: Params, s: Pool, w: Worker)
    requires Enabled(k, s, AllocTake(w))
    ensures var s1 := Step(k, s, AllocTake(w));
            && At(s1.lists, Taken(w)) == At(s.lists, Remote(w)) && At(s1.lists, Remote(w)) == []
            && SameLists(s.lists, s1.lists, {Taken(w), Remote(w)}) && Enabled(k, s1, AllocTaken(w))
            && var s2 := Step(k, s1, AllocTaken(w));
            && [Given(s1, AllocTaken(w))] + At(s2.lists, Local(w)) == At(s.lists, Remote(w)) && At(s2.lists, Taken(w)) == []
            && SameLists(s1.lists, s2.lists, {Local(w), Taken(w)}) && s2.live == s.live + {Given(s1, AllocTaken(w))}
  {
    hide Record;
    RecordKeeps(k, Move(s, AllocTake(w)));
    var s1 := Step(k, s, AllocTake(w));
    RecordKeeps(k, Move(s1, AllocTaken(w)));
  }
}
