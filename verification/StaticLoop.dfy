/** The static loop schedule of the OpenMP runtime: which iterations each thread gets. */
module StaticLoop {

  /** What a thread is told: its own bounds, the stride, and whether it runs the last iteration. */
  datatype Share = Share(lower: int, upper: int, last: bool, stride: int)

  /** The iteration space is not empty and runs towards its upper bound. */
  predicate Loop(lower: int, upper: int, incr: int)
  {
    incr != 0 && (incr > 0 <==> lower <= upper)
  }

  function TripCount(lower: int, upper: int, incr: int): (n: int)
    requires Loop(lower, upper, incr)
    ensures n > 0
  {
    if incr > 0 then (upper - lower) / incr + 1 else (lower - upper) / (-incr) + 1
  }

  function RoundupDivide(x: int, y: int): int
    requires y > 0
  {
    (x + y - 1) / y
  }

  /** `kmpc_for_static_init`. */
  function StaticInit(lower: int, upper: int, incr: int, threads: int, tid: int): Share
    requires Loop(lower, upper, incr) && 0 <= tid < threads
  {
    var trip := TripCount(lower, upper, incr);
    var chunk := RoundupDivide(trip, threads) * incr;
    var lo := lower + tid * chunk;
    var up := lo + chunk - incr;
    var last := if incr > 0 then lo <= upper && up > upper - incr else lo >= upper && up < upper - incr;
    Share(lo, up, last, trip)
  }

  /** The k-th iteration. */
  function Iteration(lower: int, incr: int, k: int): int
  {
    lower + k * incr
  }

  ghost predicate Reaches(lower: int, incr: int, x: int)
  {
    exists m: nat :: x == Iteration(lower, incr, m)
  }

  /** A thread runs x: it reaches x from its lower bound by the increment without passing its own
      upper bound or that of the loop, to which the caller clips it. */
  ghost predicate Runs(s: Share, upper: int, incr: int, x: int)
  {
    && Reaches(s.lower, incr, x)
    && if incr > 0 then x <= s.upper && x <= upper else x >= s.upper && x >= upper
  }

  /** x is one of the loop's iterations. */
  ghost predicate InLoop(lower: int, upper: int, incr: int, x: int)
  {
    && Reaches(lower, incr, x)
    && if incr > 0 then x <= upper else x >= upper
  }

  // ----- Arithmetic

  lemma MulOrder(a: int, b: int, d: int)
    requires d > 0
    ensures a * d <= b * d <==> a <= b
    ensures a * d < b * d <==> a < b
  {
  }

  /** The trip count counts: iteration k is in the loop exactly when k is below it. */
  lemma CountsUp(lower: int, upper: int, incr: int, k: nat)
    requires Loop(lower, upper, incr) && incr > 0
    ensures Iteration(lower, incr, k) <= upper <==> k < TripCount(lower, upper, incr)
  {
    var q, r := (upper - lower) / incr, (upper - lower) % incr;
    assert upper - lower == q * incr + r && 0 <= r < incr;
    MulOrder(k, q, incr);
    MulOrder(q + 1, k, incr);
    assert (q + 1) * incr == q * incr + incr;
  }

  /** The chunk covers the trip count, and is not larger than needed. */
  lemma ChunkCovers(trip: int, threads: int)
    requires trip > 0 && threads > 0
    ensures var c := RoundupDivide(trip, threads); c > 0 && c * threads >= trip > (c - 1) * threads
  {
    var x := trip + threads - 1;
    var c := x / threads;
    assert x == c * threads + x % threads;
    assert (c - 1) * threads == c * threads - threads;
    if c <= 0 { MulOrder(c, 0, threads); }
  }

  lemma ChunkBounds(c: int, tid: int, incr: int, lower: int)
    ensures lower + tid * (c * incr) == Iteration(lower, incr, tid * c)
    ensures lower + tid * (c * incr) + c * incr - incr == Iteration(lower, incr, tid * c + c - 1)
  {
    assert tid * (c * incr) == tid * c * incr;
    assert (tid * c + c - 1) * incr == tid * c * incr + c * incr - incr;
  }

  // ----- Upward loops

  /** A share in terms of iteration numbers: thread tid has the numbers from tid * c to (tid + 1) * c. */
  lemma ShareUp(lower: int, upper: int, incr: int, threads: int, tid: int, k: nat)
    requires Loop(lower, upper, incr) && incr > 0 && 0 <= tid < threads
    ensures var s, trip := StaticInit(lower, upper, incr, threads, tid), TripCount(lower, upper, incr);
            var c := RoundupDivide(trip, threads);
            && c > 0 && s.lower == Iteration(lower, incr, tid * c)
            && (Iteration(lower, incr, k) <= s.upper <==> k < tid * c + c)
            && (s.last <==> tid * c < trip <= tid * c + c)
  {
    var trip := TripCount(lower, upper, incr);
    var c := RoundupDivide(trip, threads);
    ChunkCovers(trip, threads);
    ChunkBounds(c, tid, incr, lower);
    assert 0 <= tid * c by { MulOrder(0, tid, c); }
    CountsUp(lower, upper, incr, tid * c);
    CountsUp(lower, upper, incr, tid * c + c);
    assert Iteration(lower, incr, tid * c + c) == Iteration(lower, incr, tid * c + c - 1) + incr;
    MulOrder(k, tid * c + c - 1, incr);
    hide TripCount, RoundupDivide;
  }

  ghost predicate ThreadRuns(lower: int, upper: int, incr: int, threads: int, tid: int, x: int)
    requires Loop(lower, upper, incr)
  {
    0 <= tid < threads && Runs(StaticInit(lower, upper, incr, threads, tid), upper, incr, x)
  }

  function Chunk(lower: int, upper: int, incr: int, threads: int): (c: int)
    requires Loop(lower, upper, incr) && threads > 0
    ensures c > 0
  {
    ChunkCovers(TripCount(lower, upper, incr), threads);
    RoundupDivide(TripCount(lower, upper, incr), threads)
  }

  /** Thread tid runs exactly the iterations numbered in its chunk. */
  lemma RunsUp(lower: int, upper: int, incr: int, threads: int, tid: int, k: nat)
    requires Loop(lower, upper, incr) && incr > 0 && 0 <= tid < threads
    ensures var c := Chunk(lower, upper, incr, threads);
            (ThreadRuns(lower, upper, incr, threads, tid, Iteration(lower, incr, k))
             <==> k < TripCount(lower, upper, incr) && tid * c <= k < tid * c + c)
  {
    var s, c, x := StaticInit(lower, upper, incr, threads, tid), Chunk(lower, upper, incr, threads), Iteration(lower, incr, k);
    ShareUp(lower, upper, incr, threads, tid, k);
    CountsUp(lower, upper, incr, k);
    hide StaticInit, TripCount, Chunk;
    if tid * c <= k {
      FromStart(lower, incr, tid * c, k - tid * c);
      assert x == Iteration(s.lower, incr, k - tid * c);
    }
    if m: nat :| x == Iteration(s.lower, incr, m) {
      FromStart(lower, incr, tid * c, m);
      SameIteration(lower, incr, k, tid * c + m);
    }
  }

  lemma FromStart(lower: int, incr: int, a: int, m: int)
    ensures Iteration(Iteration(lower, incr, a), incr, m) == Iteration(lower, incr, a + m)
  {
  }

  lemma SameIteration(lower: int, incr: int, a: int, b: int)
    requires incr > 0 && Iteration(lower, incr, a) == Iteration(lower, incr, b)
    ensures a == b
  {
    MulOrder(a, b, incr);
    MulOrder(b, a, incr);
  }

  /** The thread whose chunk holds k. */
  lemma OwnerUp(lower: int, upper: int, incr: int, threads: int, k: nat) returns (tid: int)
    requires Loop(lower, upper, incr) && incr > 0 && threads > 0 && k < TripCount(lower, upper, incr)
    ensures var c := Chunk(lower, upper, incr, threads); 0 <= tid < threads && tid * c <= k < tid * c + c
  {
    var c, trip := Chunk(lower, upper, incr, threads), TripCount(lower, upper, incr);
    ChunkCovers(trip, threads);
    tid := k / c;
    assert k == tid * c + k % c;
    MulOrder(threads, tid, c);
  }

  lemma ChunksApart(c: int, k: int, a: int, b: int)
    requires c > 0 && a * c <= k < a * c + c && b * c <= k < b * c + c
    ensures a == b
  {
    MulOrder(a, b + 1, c);
    MulOrder(b, a + 1, c);
    assert (a + 1) * c == a * c + c && (b + 1) * c == b * c + c;
  }

  lemma PartitionUp(lower: int, upper: int, incr: int, threads: int, x: int)
    requires Loop(lower, upper, incr) && incr > 0 && threads > 0
    ensures InLoop(lower, upper, incr, x) <==> exists tid :: ThreadRuns(lower, upper, incr, threads, tid, x)
    ensures forall s, t :: ThreadRuns(lower, upper, incr, threads, s, x) && ThreadRuns(lower, upper, incr, threads, t, x) ==> s == t
  {
    var c := Chunk(lower, upper, incr, threads);
    if InLoop(lower, upper, incr, x) {
      var k: nat :| x == Iteration(lower, incr, k);
      CountsUp(lower, upper, incr, k);
      var tid := OwnerUp(lower, upper, incr, threads, k);
      RunsUp(lower, upper, incr, threads, tid, k);
    }
    forall s | ThreadRuns(lower, upper, incr, threads, s, x) ensures InLoop(lower, upper, incr, x) {
      var k := NumberOf(lower, upper, incr, threads, s, x);
    }
    forall s, t | ThreadRuns(lower, upper, incr, threads, s, x) && ThreadRuns(lower, upper, incr, threads, t, x) ensures s == t {
      var k := NumberOf(lower, upper, incr, threads, s, x);
      RunsUp(lower, upper, incr, threads, s, k);
      RunsUp(lower, upper, incr, threads, t, k);
      ChunksApart(c, k, s, t);
    }
  }

  /** What a thread runs is an iteration of the loop. */
  lemma NumberOf(lower: int, upper: int, incr: int, threads: int, tid: int, x: int) returns (k: nat)
    requires Loop(lower, upper, incr) && incr > 0 && ThreadRuns(lower, upper, incr, threads, tid, x)
    ensures x == Iteration(lower, incr, k) && InLoop(lower, upper, incr, x)
  {
    var s, c := StaticInit(lower, upper, incr, threads, tid), Chunk(lower, upper, incr, threads);
    ShareUp(lower, upper, incr, threads, tid, 0);
    hide StaticInit;
    var m: nat :| x == Iteration(s.lower, incr, m);
    FromStart(lower, incr, tid * c, m);
    MulOrder(0, tid, c);
    k := tid * c + m;
  }

  // ----- Either direction

  /** A downward loop is the upward loop over the negated values. */
  lemma MirrorRuns(lower: int, upper: int, incr: int, threads: int, tid: int, x: int)
    requires Loop(lower, upper, incr) && incr < 0
    ensures Loop(-lower, -upper, -incr)
    ensures ThreadRuns(lower, upper, incr, threads, tid, x) <==> ThreadRuns(-lower, -upper, -incr, threads, tid, -x)
  {
    if 0 <= tid < threads {
      MirrorShare(lower, upper, incr, threads, tid);
      var s, s' := StaticInit(lower, upper, incr, threads, tid), StaticInit(-lower, -upper, -incr, threads, tid);
      hide StaticInit;
      MirrorReach(s.lower, incr, x);
    }
  }

  lemma MirrorShare(lower: int, upper: int, incr: int, threads: int, tid: int)
    requires Loop(lower, upper, incr) && incr < 0 && 0 <= tid < threads
    ensures Loop(-lower, -upper, -incr)
    ensures var s, s' := StaticInit(lower, upper, incr, threads, tid), StaticInit(-lower, -upper, -incr, threads, tid);
            s'.lower == -s.lower && s'.upper == -s.upper && s'.last == s.last
  {
    var trip := TripCount(lower, upper, incr);
    assert trip == TripCount(-lower, -upper, -incr);
    var c := RoundupDivide(trip, threads);
    hide TripCount, RoundupDivide;
    assert c * -incr == -(c * incr);
    assert tid * -(c * incr) == -(tid * (c * incr));
  }

  lemma MirrorReach(lower: int, incr: int, x: int)
    ensures Reaches(lower, incr, x) <==> Reaches(-lower, -incr, -x)
  {
    if Reaches(lower, incr, x) { MirrorReached(lower, incr, x); }
    if Reaches(-lower, -incr, -x) { MirrorReached(-lower, -incr, -x); }
  }

  lemma MirrorReached(lower: int, incr: int, x: int)
    requires Reaches(lower, incr, x)
    ensures Reaches(-lower, -incr, -x)
  {
    var m: nat :| x == Iteration(lower, incr, m);
    assert m * -incr == -(m * incr);
    var y := Iteration(-lower, -incr, m);
    assert y == -x;
  }

  /** The shares partition the loop, whichever way it runs: what the threads run are exactly its
      iterations, and no iteration is run by two threads. */
  lemma Partition(lower: int, upper: int, incr: int, threads: int, x: int)
    requires Loop(lower, upper, incr) && threads > 0
    ensures InLoop(lower, upper, incr, x) <==> exists tid :: ThreadRuns(lower, upper, incr, threads, tid, x)
    ensures forall s, t :: ThreadRuns(lower, upper, incr, threads, s, x) && ThreadRuns(lower, upper, incr, threads, t, x) ==> s == t
  {
    hide ThreadRuns, Reaches;
    if incr > 0 {
      PartitionUp(lower, upper, incr, threads, x);
    } else {
      MirrorReach(lower, incr, x);
      PartitionUp(-lower, -upper, -incr, threads, -x);
      forall tid | ThreadRuns(lower, upper, incr, threads, tid, x)
        ensures ThreadRuns(-lower, -upper, -incr, threads, tid, -x)
      {
        MirrorRuns(lower, upper, incr, threads, tid, x);
      }
      if InLoop(lower, upper, incr, x) {
        var tid :| ThreadRuns(-lower, -upper, -incr, threads, tid, -x);
        MirrorRuns(lower, upper, incr, threads, tid, x);
      }
    }
  }

  /** The stride that every thread is told is the number of the loop's iterations. */
  lemma StrideCounts(lower: int, upper: int, incr: int, threads: int, tid: int, k: nat)
    requires Loop(lower, upper, incr) && 0 <= tid < threads
    ensures InLoop(lower, upper, incr, Iteration(lower, incr, k)) <==> k < StaticInit(lower, upper, incr, threads, tid).stride
  {
    if incr > 0 {
      CountsUp(lower, upper, incr, k);
    } else {
      CountsUp(-lower, -upper, -incr, k);
      assert Iteration(-lower, -incr, k) == -Iteration(lower, incr, k) by { assert k * -incr == -(k * incr); }
    }
  }

  /** The schedule is even: with c the trip count divided by the number of threads, rounded up, thread tid runs
      the iterations numbered from tid * c to (tid + 1) * c, as far as the loop goes. */
  lemma EvenShares(lower: int, upper: int, incr: int, threads: int, tid: int, k: nat) returns (c: int)
    requires Loop(lower, upper, incr) && 0 <= tid < threads
    ensures var trip := TripCount(lower, upper, incr); c * threads >= trip > (c - 1) * threads
    ensures (ThreadRuns(lower, upper, incr, threads, tid, Iteration(lower, incr, k))
             <==> k < TripCount(lower, upper, incr) && tid * c <= k < tid * c + c)
  {
    ChunkCovers(TripCount(lower, upper, incr), threads);
    if incr > 0 {
      c := Chunk(lower, upper, incr, threads);
      RunsUp(lower, upper, incr, threads, tid, k);
    } else {
      assert TripCount(lower, upper, incr) == TripCount(-lower, -upper, -incr);
      c := Chunk(-lower, -upper, -incr, threads);
      RunsUp(-lower, -upper, -incr, threads, tid, k);
      assert Iteration(-lower, -incr, k) == -Iteration(lower, incr, k) by { assert k * -incr == -(k * incr); }
      MirrorRuns(lower, upper, incr, threads, tid, Iteration(lower, incr, k));
    }
  }

  predicate ToldLast(lower: int, upper: int, incr: int, threads: int, tid: int)
    requires Loop(lower, upper, incr)
  {
    0 <= tid < threads && StaticInit(lower, upper, incr, threads, tid).last
  }

  /** Exactly one thread is told that it runs the last iteration, and it is the one that does. */
  lemma OneLast(lower: int, upper: int, incr: int, threads: int) returns (tid: int)
    requires Loop(lower, upper, incr) && threads > 0
    ensures ToldLast(lower, upper, incr, threads, tid)
    ensures forall t :: ToldLast(lower, upper, incr, threads, t) ==> t == tid
    ensures ThreadRuns(lower, upper, incr, threads, tid, Iteration(lower, incr, TripCount(lower, upper, incr) - 1))
  {
    if incr > 0 {
      tid := OneLastUp(lower, upper, incr, threads);
    } else {
      tid := OneLastUp(-lower, -upper, -incr, threads);
      forall t | 0 <= t < threads
        ensures ToldLast(lower, upper, incr, threads, t) <==> ToldLast(-lower, -upper, -incr, threads, t)
      {
        MirrorShare(lower, upper, incr, threads, t);
      }
      var trip := TripCount(lower, upper, incr);
      assert trip == TripCount(-lower, -upper, -incr);
      var x := Iteration(lower, incr, trip - 1);
      assert Iteration(-lower, -incr, trip - 1) == -x by { assert (trip - 1) * -incr == -((trip - 1) * incr); }
      MirrorRuns(lower, upper, incr, threads, tid, x);
    }
  }

  lemma OneLastUp(lower: int, upper: int, incr: int, threads: int) returns (tid: int)
    requires Loop(lower, upper, incr) && incr > 0 && threads > 0
    ensures ToldLast(lower, upper, incr, threads, tid)
    ensures forall t :: ToldLast(lower, upper, incr, threads, t) ==> t == tid
    ensures ThreadRuns(lower, upper, incr, threads, tid, Iteration(lower, incr, TripCount(lower, upper, incr) - 1))
  {
    var k, c := TripCount(lower, upper, incr) - 1, Chunk(lower, upper, incr, threads);
    tid := OwnerUp(lower, upper, incr, threads, k);
    RunsUp(lower, upper, incr, threads, tid, k);
    ShareUp(lower, upper, incr, threads, tid, k);
    forall t | ToldLast(lower, upper, incr, threads, t) ensures t == tid {
      ShareUp(lower, upper, incr, threads, t, k);
      ChunksApart(c, k, t, tid);
    }
  }
}
