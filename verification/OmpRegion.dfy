/** Whole programs: the command protocol with the barriers that the threads of each region really
    execute. */
module OmpRegion {
  import opened OmpBarrier
  import OmpCommands

  /** The barriers of the shared memory that process p did in each region. */
  function DsmCounts(regions: seq<Region>, runs: seq<seq<Action>>, p: nat): (c: seq<nat>)
    requires |regions| == |runs|
    ensures |c| == |regions|
  {
    seq(|regions|, k requires 0 <= k < |regions| => Of(OmpBarrier.Run(regions[k], runs[k]), First(p)).dsmLeft)
  }

  /** Every region of the program is run to its end by its threads, in any interleaving, and they all
      execute as many barriers as the master thread. */
  ghost predicate RunsOf(cmds: seq<OmpCommands.Cmd>, regions: seq<Region>, runs: seq<seq<Action>>)
  {
    && OmpCommands.Program(cmds, false)
    && var counts := OmpCommands.Counts(cmds, false);
    && |regions| == |runs| == |counts|
    && forall k :: 0 <= k < |regions| ==> RegionRun(regions[k], runs[k], counts[k])
  }

  ghost predicate RegionRun(r: Region, acts: seq<Action>, rounds: nat)
  {
    r.rounds == rounds && r.threads > 0 && Finished(r, OmpBarrier.Run(r, acts))
  }

  /** In every run of every program whose threads execute equally many barriers in each region, every
      process issues the master's sequence of broadcasts and barriers of the shared memory. */
  lemma AllProcessesAgree(cmds: seq<OmpCommands.Cmd>, regions: seq<Region>, runs: seq<seq<Action>>, p: nat)
    requires RunsOf(cmds, regions, runs) && forall k :: 0 <= k < |regions| ==> p < regions[k].procs
    ensures OmpCommands.SlaveOps(OmpCommands.Sent(cmds, false), DsmCounts(regions, runs, p)) == OmpCommands.MasterOps(cmds, false)
  {
    hide OmpCommands.SlaveOps, OmpCommands.MasterOps, OmpCommands.Sent, OmpCommands.Counts, OmpCommands.Program;
    var counts := OmpCommands.Counts(cmds, false);
    var c := DsmCounts(regions, runs, p);
    forall k | 0 <= k < |c| ensures c[k] == counts[k] {
      assert RegionRun(regions[k], runs[k], counts[k]);
      DsmPerRegion(regions[k], runs[k], p);
    }
    assert c == counts;
    OmpCommands.SameCollectives(cmds, c);
  }
}
