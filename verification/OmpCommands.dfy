/** The command protocol between the master process and the slave processes: which broadcasts and
    barriers of the shared memory each process takes part in. */
module OmpCommands {

  datatype Cmd = NoCmd | StartParallel | EndParallel | Barrier | ExitParallel | ProfBegin | ProfEnd | ExitProgram

  /** What all processes have to do together. */
  datatype Coll = Broadcast(cmd: Cmd) | Dsm

  // ----- The master process

  /** The collectives of the master's `execute_command`; its own thread is the first of the process, so it
      is the one that does the barrier of the shared memory inside a region. */
  function MasterExecutes(cmd: Cmd, parallel: bool): seq<Coll>
  {
    match cmd
    case StartParallel => [Dsm]
    case EndParallel => [Dsm]
    case Barrier => if parallel then [Dsm] else []
    case _ => []
  }

  function ParallelAfter(cmd: Cmd, parallel: bool): bool
  {
    match cmd
    case StartParallel => true
    case EndParallel => false
    case _ => parallel
  }

  /** The command ends the loop: normally or by a fatal error. */
  predicate Stops(cmd: Cmd)
  {
    cmd == ExitProgram || cmd == NoCmd || cmd == ExitParallel
  }

  /** `loop_master` on the commands of the main thread: only outside a region is a command broadcast. */
  function MasterOps(cmds: seq<Cmd>, parallel: bool): seq<Coll>
    decreases |cmds|
  {
    if cmds == [] then []
    else
      var cmd := cmds[0];
      (if parallel then [] else [Broadcast(cmd)]) + MasterExecutes(cmd, parallel)
      + if Stops(cmd) then [] else MasterOps(cmds[1..], ParallelAfter(cmd, parallel))
  }

  /** The commands that are broadcast. */
  function Sent(cmds: seq<Cmd>, parallel: bool): seq<Cmd>
    decreases |cmds|
  {
    if cmds == [] then []
    else
      var cmd := cmds[0];
      (if parallel then [] else [cmd]) + if Stops(cmd) then [] else Sent(cmds[1..], ParallelAfter(cmd, parallel))
  }

  // ----- A slave process

  function Repeat(n: nat): seq<Coll>
  {
    seq(n, _ => Dsm)
  }

  /** `loop_slave`: a region is joined before the next broadcast. counts tells how many barriers the first
      thread of the process executes in each region. */
  function SlaveOps(sent: seq<Cmd>, counts: seq<nat>): seq<Coll>
    decreases |sent|
  {
    if sent == [] then []
    else
      var cmd := sent[0];
      if cmd == StartParallel && counts != [] then
        [Broadcast(cmd), Dsm] + Repeat(counts[0]) + [Dsm] + SlaveOps(sent[1..], counts[1..])
      else if Stops(cmd) || cmd == EndParallel || cmd == StartParallel then [Broadcast(cmd)]
      else [Broadcast(cmd)] + SlaveOps(sent[1..], counts)
  }

  /** What a slave treats as a fatal error. */
  predicate Fatal(cmd: Cmd)
  {
    cmd == EndParallel || cmd == NoCmd || cmd == ExitParallel
  }

  // ----- Programs

  /** A complete program: regions are not nested and are closed, and it exits outside a region. */
  predicate Program(cmds: seq<Cmd>, parallel: bool)
    decreases |cmds|
  {
    && cmds != []
    && match cmds[0]
       case StartParallel => !parallel && Program(cmds[1..], true)
       case EndParallel => parallel && Program(cmds[1..], false)
       case ExitProgram => !parallel && |cmds| == 1
       case NoCmd => false
       case ExitParallel => false
       case _ => Program(cmds[1..], parallel)
  }

  /** How many barriers the master thread executes in each region; the first entry is that of the
      current region, if there is one. */
  function Counts(cmds: seq<Cmd>, parallel: bool): (c: seq<nat>)
    requires Program(cmds, parallel)
    ensures parallel ==> c != []
    decreases |cmds|
  {
    match cmds[0]
    case StartParallel => Counts(cmds[1..], true)
    case EndParallel => [0] + Counts(cmds[1..], false)
    case ExitProgram => []
    case Barrier =>
      var c := Counts(cmds[1..], parallel);
      if parallel then [c[0] + 1] + c[1..] else c
    case ProfBegin => Counts(cmds[1..], parallel)
    case ProfEnd => Counts(cmds[1..], parallel)
  }

  lemma OneMore(n: nat, rest: seq<Coll>)
    ensures Repeat(n + 1) + rest == [Dsm] + (Repeat(n) + rest)
  {
  }

  /** One command of a program. */
  lemma OneCommand(cmds: seq<Cmd>, parallel: bool)
    requires Program(cmds, parallel) && cmds[0] != ExitProgram
    ensures var cmd, rest, after := cmds[0], cmds[1..], ParallelAfter(cmds[0], parallel);
            && Program(rest, after)
            && Sent(cmds, parallel) == (if parallel then Sent(rest, after) else [cmd] + Sent(rest, after))
            && MasterOps(cmds, parallel)
               == (if parallel then [] else [Broadcast(cmd)]) + MasterExecutes(cmd, parallel) + MasterOps(rest, after)
  {
  }

  lemma CountsStep(cmds: seq<Cmd>, parallel: bool)
    requires Program(cmds, parallel) && cmds[0] != ExitProgram && Program(cmds[1..], ParallelAfter(cmds[0], parallel))
    ensures var c, d := Counts(cmds, parallel), Counts(cmds[1..], ParallelAfter(cmds[0], parallel));
            if cmds[0] == EndParallel then c[0] == 0 && c[1..] == d
            else if cmds[0] == Barrier && parallel then c[0] == d[0] + 1 && c[1..] == d[1..]
            else c == d
  {
  }

  lemma SlaveStep(cmd: Cmd, sent: seq<Cmd>, c: seq<nat>)
    ensures cmd == Barrier || cmd == ProfBegin || cmd == ProfEnd ==>
      SlaveOps([cmd] + sent, c) == [Broadcast(cmd)] + SlaveOps(sent, c)
    ensures cmd == StartParallel && c != [] ==>
      SlaveOps([cmd] + sent, c) == [Broadcast(cmd), Dsm] + Repeat(c[0]) + [Dsm] + SlaveOps(sent, c[1..])
  {
    assert ([cmd] + sent)[1..] == sent;
  }

  lemma Regroup(a: seq<Coll>, b: seq<Coll>, c: seq<Coll>, d: seq<Coll>)
    ensures a + b + c + d == a + (b + (c + d))
  {
  }

  /** What a slave still does, in a region or outside. */
  function SlaveRest(sent: seq<Cmd>, c: seq<nat>, parallel: bool): seq<Coll>
    requires parallel ==> c != []
  {
    if parallel then Repeat(c[0]) + ([Dsm] + SlaveOps(sent, c[1..])) else SlaveOps(sent, c)
  }

  lemma StartMatches(sent: seq<Cmd>, c: seq<nat>)
    requires c != []
    ensures [Broadcast(StartParallel)] + [Dsm] + SlaveRest(sent, c, true) == SlaveRest([StartParallel] + sent, c, false)
  {
    hide SlaveOps, Repeat;
    SlaveStep(StartParallel, sent, c);
    Regroup([Broadcast(StartParallel), Dsm], Repeat(c[0]), [Dsm], SlaveOps(sent, c[1..]));
    assert [Broadcast(StartParallel)] + [Dsm] == [Broadcast(StartParallel), Dsm];
  }

  lemma EndMatches(sent: seq<Cmd>, c: seq<nat>)
    requires c != [] && c[0] == 0
    ensures [] + [Dsm] + SlaveRest(sent, c[1..], false) == SlaveRest(sent, c, true)
  {
    hide SlaveOps;
    assert Repeat(0) == [];
  }

  lemma BarrierMatches(sent: seq<Cmd>, c: seq<nat>, d: seq<nat>)
    requires c != [] && d != [] && c[0] == d[0] + 1 && c[1..] == d[1..]
    ensures [] + [Dsm] + SlaveRest(sent, d, true) == SlaveRest(sent, c, true)
  {
    hide SlaveOps, Repeat;
    OneMore(d[0], [Dsm] + SlaveOps(sent, d[1..]));
  }

  /** What the master still does matches what a slave still does. */
  lemma {:induction false} Matching(cmds: seq<Cmd>, parallel: bool)
    requires Program(cmds, parallel)
    ensures MasterOps(cmds, parallel) == SlaveRest(Sent(cmds, parallel), Counts(cmds, parallel), parallel)
    decreases |cmds|
  {
    hide SlaveOps, MasterOps, Sent, Counts, Repeat, Program, SlaveRest;
    Commands(cmds, parallel);
    if cmds[0] == ExitProgram {
      ExitMatches(cmds);
    } else {
      var cmd, rest, after := cmds[0], cmds[1..], ParallelAfter(cmds[0], parallel);
      OneCommand(cmds, parallel);
      CountsStep(cmds, parallel);
      Matching(rest, after);
      var c, d, sent := Counts(cmds, parallel), Counts(rest, after), Sent(rest, after);
      if cmd == StartParallel {
        StartMatches(sent, c);
      } else if cmd == EndParallel {
        EndMatches(sent, c);
      } else if !parallel {
        SerialMatches(cmd, sent, c);
      } else if cmd == Barrier {
        BarrierMatches(sent, c, d);
      }
    }
  }

  lemma SerialMatches(cmd: Cmd, sent: seq<Cmd>, c: seq<nat>)
    requires cmd == Barrier || cmd == ProfBegin || cmd == ProfEnd
    ensures [Broadcast(cmd)] + SlaveRest(sent, c, false) == SlaveRest([cmd] + sent, c, false)
  {
    hide SlaveOps;
    SlaveStep(cmd, sent, c);
  }

  lemma ExitMatches(cmds: seq<Cmd>)
    requires Program(cmds, false) && cmds[0] == ExitProgram
    ensures MasterOps(cmds, false) == SlaveRest(Sent(cmds, false), Counts(cmds, false), false)
  {
  }

  /** Which commands a program may issue where. */
  lemma Commands(cmds: seq<Cmd>, parallel: bool)
    requires Program(cmds, parallel)
    ensures cmds != []
    ensures var cmd := cmds[0];
            && (cmd == StartParallel || cmd == ExitProgram ==> !parallel) && (cmd == EndParallel ==> parallel)
            && cmd != NoCmd && cmd != ExitParallel
  {
  }

  function Regions(sent: seq<Cmd>): nat
  {
    if sent == [] then 0 else (if sent[0] == StartParallel then 1 else 0) + Regions(sent[1..])
  }

  lemma {:induction false} RegionsOf(cmds: seq<Cmd>, parallel: bool)
    requires Program(cmds, parallel)
    ensures |Counts(cmds, parallel)| == Regions(Sent(cmds, parallel)) + if parallel then 1 else 0
    decreases |cmds|
  {
    var cmd, rest := cmds[0], cmds[1..];
    if cmd != ExitProgram {
      RegionsOf(rest, ParallelAfter(cmd, parallel));
      var sent := Sent(rest, ParallelAfter(cmd, parallel));
      assert Sent(cmds, parallel) == if parallel then sent else [cmd] + sent;
      if !parallel { assert ([cmd] + sent)[1..] == sent; }
    } else {
      assert Sent(cmds, parallel) == [cmd];
    }
  }

  /** No command that a slave treats as fatal is ever broadcast, and the last one is the exit. */
  lemma {:induction false} NothingFatalSent(cmds: seq<Cmd>, parallel: bool)
    requires Program(cmds, parallel)
    ensures var sent := Sent(cmds, parallel);
            && (forall i :: 0 <= i < |sent| ==> !Fatal(sent[i]) && (sent[i] == ExitProgram <==> i == |sent| - 1))
            && sent != []
    decreases |cmds|
  {
    var cmd, rest := cmds[0], cmds[1..];
    if cmd != ExitProgram {
      NothingFatalSent(rest, ParallelAfter(cmd, parallel));
      var sent := Sent(rest, ParallelAfter(cmd, parallel));
      assert Sent(cmds, parallel) == if parallel then sent else [cmd] + sent;
    }
  }

  /** How many barriers of the shared memory come first. */
  function Leading(s: seq<Coll>): nat
  {
    if s != [] && s[0] == Dsm then 1 + Leading(s[1..]) else 0
  }

  lemma {:induction false} LeadingIs(m: nat, a: seq<Coll>)
    requires a == [] || a[0] != Dsm
    ensures Leading(Repeat(m) + ([Dsm] + a)) == m + 1
  {
    if m == 0 {
      assert Repeat(0) + ([Dsm] + a) == [Dsm] + a && ([Dsm] + a)[1..] == a;
    } else {
      OneMore(m - 1, [Dsm] + a);
      var x := Repeat(m - 1) + ([Dsm] + a);
      assert ([Dsm] + x)[1..] == x;
      LeadingIs(m - 1, a);
    }
  }

  /** The broadcast that follows a region, if any, tells where its barriers end. */
  lemma RegionEnds(m: nat, n: nat, a: seq<Coll>, b: seq<Coll>)
    requires Repeat(m) + ([Dsm] + a) == Repeat(n) + ([Dsm] + b)
    requires (a == [] || a[0] != Dsm) && (b == [] || b[0] != Dsm)
    ensures m == n && a == b
  {
    LeadingIs(m, a);
    LeadingIs(n, b);
    SamePrefix(Repeat(m), [Dsm] + a, [Dsm] + b);
    SamePrefix([Dsm], a, b);
  }

  lemma StartsWithBroadcast(sent: seq<Cmd>, c: seq<nat>)
    ensures sent == [] || (SlaveOps(sent, c) != [] && SlaveOps(sent, c)[0] == Broadcast(sent[0]))
    ensures sent == [] ==> SlaveOps(sent, c) == []
  {
  }

  /** A slave's collectives tell how many barriers it executed in each region. */
  lemma {:induction false} CountsMatter(sent: seq<Cmd>, c: seq<nat>, d: seq<nat>)
    requires |c| == |d| == Regions(sent) && SlaveOps(sent, c) == SlaveOps(sent, d)
    requires forall i :: 0 <= i < |sent| ==> !Fatal(sent[i]) && (sent[i] == ExitProgram <==> i == |sent| - 1)
    ensures c == d
    decreases |sent|
  {
    if sent != [] {
      var cmd, rest := sent[0], sent[1..];
      if cmd == StartParallel {
        var a, b := SlaveOps(rest, c[1..]), SlaveOps(rest, d[1..]);
        var pre := [Broadcast(cmd), Dsm];
        assert SlaveOps(sent, c) == pre + (Repeat(c[0]) + ([Dsm] + a));
        assert SlaveOps(sent, d) == pre + (Repeat(d[0]) + ([Dsm] + b));
        SamePrefix(pre, Repeat(c[0]) + ([Dsm] + a), Repeat(d[0]) + ([Dsm] + b));
        StartsWithBroadcast(rest, c[1..]);
        StartsWithBroadcast(rest, d[1..]);
        RegionEnds(c[0], d[0], a, b);
        CountsMatter(rest, c[1..], d[1..]);
      } else if |sent| > 1 {
        SamePrefix([Broadcast(cmd)], SlaveOps(rest, c), SlaveOps(rest, d));
        CountsMatter(rest, c, d);
      } else {
        assert Regions(rest) == 0;
      }
    }
  }

  lemma SamePrefix(p: seq<Coll>, a: seq<Coll>, b: seq<Coll>)
    requires p + a == p + b
    ensures a == b
  {
    assert (p + a)[|p|..] == a && (p + b)[|p|..] == b;
  }

  /** For every program, a slave takes part in exactly the master's broadcasts and barriers of the shared
      memory, in the same order, if and only if its first thread executes as many barriers as the master
      thread in each region. */
  lemma SameCollectives(cmds: seq<Cmd>, counts: seq<nat>)
    requires Program(cmds, false) && |counts| == |Counts(cmds, false)|
    ensures SlaveOps(Sent(cmds, false), counts) == MasterOps(cmds, false) <==> counts == Counts(cmds, false)
  {
    Matching(cmds, false);
    RegionsOf(cmds, false);
    NothingFatalSent(cmds, false);
    hide SlaveOps, MasterOps, Sent, Counts;
    if SlaveOps(Sent(cmds, false), counts) == MasterOps(cmds, false) {
      CountsMatter(Sent(cmds, false), counts, Counts(cmds, false));
    }
  }

  // ----- How many collectives a program takes

  function Broadcasts(ops: seq<Coll>): seq<Cmd>
  {
    if ops == [] then [] else (if ops[0].Broadcast? then [ops[0].cmd] else []) + Broadcasts(ops[1..])
  }

  function Dsms(ops: seq<Coll>): nat
  {
    if ops == [] then 0 else (if ops[0] == Dsm then 1 else 0) + Dsms(ops[1..])
  }

  /** Two barriers of the shared memory around each region and one for each barrier in it. */
  function DsmTotal(counts: seq<nat>): nat
  {
    if counts == [] then 0 else counts[0] + 2 + DsmTotal(counts[1..])
  }

  lemma {:induction false} OpsAdd(a: seq<Coll>, b: seq<Coll>)
    ensures Broadcasts(a + b) == Broadcasts(a) + Broadcasts(b) && Dsms(a + b) == Dsms(a) + Dsms(b)
    decreases |a|
  {
    if a == [] {
      assert a + b == b;
    } else {
      OpsAdd(a[1..], b);
      assert (a + b)[1..] == a[1..] + b;
    }
  }

  lemma OneOp(c: Coll)
    ensures Broadcasts([c]) == (if c.Broadcast? then [c.cmd] else []) && Dsms([c]) == if c == Dsm then 1 else 0
    ensures Broadcasts([]) == [] && Dsms([]) == 0
  {
    assert [c][1..] == [];
  }

  /** Every program broadcasts just the commands outside its regions, in order, and does one barrier of the shared
      memory at the beginning and one at the end of each region and one for each barrier of the master thread in
      it. `parallel` tells that a region has been begun. */
  lemma {:induction false} CollectivesOfProgram(cmds: seq<Cmd>, parallel: bool)
    requires Program(cmds, parallel)
    ensures var ops := MasterOps(cmds, parallel);
            && Broadcasts(ops) == Sent(cmds, parallel)
            && Dsms(ops) + (if parallel then 1 else 0) == DsmTotal(Counts(cmds, parallel))
    decreases |cmds|
  {
    hide MasterOps, Sent, Counts, Program, Broadcasts, Dsms;
    Commands(cmds, parallel);
    var cmd := cmds[0];
    OneOp(Broadcast(cmd));
    OneOp(Dsm);
    if cmd == ExitProgram {
      ExitOps(cmds);
    } else {
      OneCommand(cmds, parallel);
      var rest, after := cmds[1..], ParallelAfter(cmd, parallel);
      CollectivesOfProgram(rest, after);
      CountsStep(cmds, parallel);
      var b, x, tail := if parallel then [] else [Broadcast(cmd)], MasterExecutes(cmd, parallel), MasterOps(rest, after);
      OpsAdd(b + x, tail);
      OpsAdd(b, x);
    }
  }

  lemma ExitOps(cmds: seq<Cmd>)
    requires Program(cmds, false) && cmds[0] == ExitProgram
    ensures MasterOps(cmds, false) == [Broadcast(ExitProgram)] && Sent(cmds, false) == [ExitProgram] && Counts(cmds, false) == []
  {
  }

  // ----- The loops

  lemma MasterHead(cmds: seq<Cmd>, i: nat, parallel: bool)
    requires i < |cmds|
    ensures var cmd := cmds[i];
            MasterOps(cmds[i..], parallel)
            == (if parallel then [] else [Broadcast(cmd)]) + MasterExecutes(cmd, parallel)
               + if Stops(cmd) then [] else MasterOps(cmds[i + 1..], ParallelAfter(cmd, parallel))
  {
    assert cmds[i..][1..] == cmds[i + 1..];
  }

  lemma SlaveHead(sent: seq<Cmd>, i: nat, counts: seq<nat>, j: nat)
    requires i < |sent| && j <= |counts| && |counts| - j == Regions(sent[i..])
    ensures Regions(sent[i..]) == Regions(sent[i + 1..]) + if sent[i] == StartParallel then 1 else 0
    ensures var cmd := sent[i];
            SlaveOps(sent[i..], counts[j..])
            == if cmd == StartParallel then [Broadcast(cmd)] + ([Dsm] + Repeat(counts[j]) + [Dsm]) + SlaveOps(sent[i + 1..], counts[j + 1..])
               else if Stops(cmd) || cmd == EndParallel then [Broadcast(cmd)]
               else [Broadcast(cmd)] + SlaveOps(sent[i + 1..], counts[j..])
  {
    hide Repeat;
    assert sent[i..][1..] == sent[i + 1..];
    if sent[i] == StartParallel {
      assert counts[j..][1..] == counts[j + 1..];
      var a, b, c := [Broadcast(StartParallel)], Repeat(counts[j]), SlaveOps(sent[i + 1..], counts[j + 1..]);
      assert [Broadcast(StartParallel), Dsm] + b + [Dsm] + c == a + ([Dsm] + b + [Dsm]) + c;
    }
  }

  lemma Joined(done: seq<Coll>, a: seq<Coll>, b: seq<Coll>, rest: seq<Coll>)
    ensures done + a + b + rest == done + (a + b + rest)
  {
  }

  /** `loop_master`, with the collectives it takes part in. A slave whose first thread executes as many
      barriers takes part in the same. */
  method LoopMaster(cmds: seq<Cmd>) returns (ops: seq<Coll>)
    ensures ops == MasterOps(cmds, false)
    ensures Program(cmds, false) ==> ops == SlaveOps(Sent(cmds, false), Counts(cmds, false))
  {
    hide MasterOps, MasterExecutes, ParallelAfter, Stops, SlaveOps, Program, Sent, Counts;
    if Program(cmds, false) { Matching(cmds, false); }
    ops := [];
    var isParallel, i, running := false, 0, true;
    ghost var rest := MasterOps(cmds, false);
    assert cmds[0..] == cmds;
    while running && i < |cmds|
      invariant i <= |cmds| && rest == if running then MasterOps(cmds[i..], isParallel) else []
      invariant ops + rest == MasterOps(cmds, false)
    {
      MasterHead(cmds, i, isParallel);
      var cmd := cmds[i];
      ghost var done, sent, did := ops, if isParallel then [] else [Broadcast(cmd)], MasterExecutes(cmd, isParallel);
      if !isParallel {
        ops := ops + [Broadcast(cmd)];
      }
      assert ops == done + sent;
      ops := ops + MasterExecutes(cmd, isParallel);
      rest := if Stops(cmd) then [] else MasterOps(cmds[i + 1..], ParallelAfter(cmd, isParallel));
      Joined(done, sent, did, rest);
      isParallel := ParallelAfter(cmd, isParallel);
      running := !Stops(cmd);
      i := i + 1;
    }
    assert rest == [] by { NoCommands(isParallel, cmds, i); }
  }

  lemma NoCommands(parallel: bool, cmds: seq<Cmd>, i: nat)
    requires i <= |cmds|
    ensures i == |cmds| ==> MasterOps(cmds[i..], parallel) == []
    ensures i == |cmds| ==> forall c :: SlaveOps(cmds[i..], c) == []
  {
  }

  /** `loop_slave` on the commands it receives. With those of any program it takes part in the master's
      collectives exactly if the numbers of barriers agree. */
  method LoopSlave(sent: seq<Cmd>, counts: seq<nat>) returns (ops: seq<Coll>)
    requires |counts| == Regions(sent)
    ensures ops == SlaveOps(sent, counts)
    ensures forall cmds :: Program(cmds, false) && sent == Sent(cmds, false) ==>
              (ops == MasterOps(cmds, false) <==> counts == Counts(cmds, false))
  {
    hide Repeat, SlaveOps, Stops, Regions, MasterOps, Program, Sent, Counts;
    forall cmds | Program(cmds, false) && sent == Sent(cmds, false)
      ensures SlaveOps(sent, counts) == MasterOps(cmds, false) <==> counts == Counts(cmds, false)
    {
      RegionsOf(cmds, false);
      SameCollectives(cmds, counts);
    }
    ops := [];
    var i, region, running := 0, 0, true;
    ghost var rest := SlaveOps(sent, counts);
    assert sent[0..] == sent && counts[0..] == counts;
    while running && i < |sent|
      invariant i <= |sent| && region <= |counts| && (running ==> |counts| - region == Regions(sent[i..]))
      invariant rest == if running then SlaveOps(sent[i..], counts[region..]) else []
      invariant ops + rest == SlaveOps(sent, counts)
    {
      SlaveHead(sent, i, counts, region);
      ghost var done := ops;
      var cmd := sent[i];
      ops := ops + [Broadcast(cmd)];
      if cmd == StartParallel {
        ops := ops + ([Dsm] + Repeat(counts[region]) + [Dsm]);
        rest := SlaveOps(sent[i + 1..], counts[region + 1..]);
        Joined(done, [Broadcast(cmd)], [Dsm] + Repeat(counts[region]) + [Dsm], rest);
        region := region + 1;
        running := true;
      } else {
        rest := if Stops(cmd) || cmd == EndParallel then [] else SlaveOps(sent[i + 1..], counts[region..]);
        Joined(done, [Broadcast(cmd)], [], rest);
        running := !(Stops(cmd) || cmd == EndParallel);
      }
      i := i + 1;
    }
    assert rest == [] by { NoCommands(false, sent, i); }
  }
}
