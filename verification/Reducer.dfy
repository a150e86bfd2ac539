/** The incremental corpus aggregator (src/toolbench/reducer.py, `Reducer`). */
module Reducer {
  import opened Options
  import opened Transcript
  import opened Sums
  import opened UsageLedger
  import opened RunManifest
  import opened CallMarginals
  import RunAttribution

  class Reducer {
    var sessionsScanned: nat
    var callsJoined: nat
    var malformedTotal: nat
    var unjoinable: map<(string, string), nat>
    var agents: map<string, AgentStats>
    var tools: map<(string, string), ToolStats>
    var toolsByModel: map<(string, string, string), ToolStats>
    var inefficiency: Inefficiency
    const run: Option<Manifest>
    var runStats: RunAttribution.RunStats

    constructor (run: Option<Manifest>)
      ensures Counted() == NO_TOTALS && unjoinable == map[] && runStats == RunAttribution.NO_RUN && this.run == run
    {
      this.run := run;
      sessionsScanned, callsJoined, malformedTotal := 0, 0, 0;
      unjoinable, agents, tools, toolsByModel := map[], map[], map[], map[];
      inefficiency, runStats := NO_INEFFICIENCY, RunAttribution.NO_RUN;
    }

    ghost function Counted(): Totals
      reads this
    {
      Totals(sessionsScanned, callsJoined, malformedTotal, agents, tools, toolsByModel, inefficiency)
    }

    method Absorb(agent: string, result: ParseResult)
      modifies this
      ensures Counted() == CallMarginals.Absorb(old(Counted()), Session(agent, result))
      ensures unjoinable == AddUnjoinable(old(unjoinable), agent, result.unjoinable)
      ensures runStats ==
              if run.Some? then RunAttribution.AbsorbRun(old(runStats), result, run.value) else old(runStats)
    {
      FoldUnjoinable(agent, result.unjoinable);
      OpenSession(agent, result);
      if run.Some? {
        AbsorbRun(result, run.value);
      }
      AbsorbCalls(agent, result.calls);
    }

    method OpenSession(agent: string, result: ParseResult)
      modifies this`sessionsScanned, this`malformedTotal, this`agents
      ensures Counted() == CallMarginals.OpenSession(old(Counted()), agent, result)
    {
      sessionsScanned := sessionsScanned + 1;
      malformedTotal := malformedTotal + result.malformed;
      var stats := AgentAt(agents, agent);
      stats := stats.(sessions := stats.sessions + 1);
      agents := agents[agent := SessionCache(stats, result)];
    }

    method FoldUnjoinable(agent: string, counts: map<string, nat>)
      modifies this`unjoinable
      ensures unjoinable == AddUnjoinable(old(unjoinable), agent, counts)
    {
      var todo := counts.Keys;
      ghost var start := unjoinable;
      assert counts - todo == map[] && AddUnjoinable(start, agent, map[]) == start;
      while todo != {}
        invariant todo <= counts.Keys
        invariant unjoinable == AddUnjoinable(start, agent, counts - todo)
        decreases todo
      {
        var kind :| kind in todo;
        OneMoreKind(start, agent, counts, todo, kind);
        unjoinable := BumpBy(unjoinable, (agent, kind), counts[kind]);
        todo := todo - {kind};
      }
      assert counts - {} == counts;
    }

    // The loop remembers the name and badness of the call before; that is enough to spot churn.
    method AbsorbCalls(agent: string, calls: seq<ToolCall>)
      modifies this`callsJoined, this`agents, this`tools, this`toolsByModel, this`inefficiency
      ensures Counted() == CountCalls(old(Counted()), agent, calls, |calls|)
    {
      var prevName: Option<string> := None;
      var prevBad := false;
      for i := 0 to |calls|
        invariant Counted() == CountCalls(old(Counted()), agent, calls, i)
        invariant prevName == if i > 0 then Some(calls[i - 1].name) else None
        invariant prevBad == (i > 0 && Bad(calls[i - 1]))
      {
        var call := calls[i];
        var churn := Bad(call) && prevBad && Some(call.name) == prevName;
        assert churn == Churns(calls, i);
        AbsorbCall(agent, call, churn);
        prevName, prevBad := Some(call.name), Bad(call);
      }
    }

    method AbsorbCall(agent: string, call: ToolCall, churn: bool)
      modifies this`callsJoined, this`agents, this`tools, this`toolsByModel, this`inefficiency
      ensures Counted() == CountCall(old(Counted()), agent, call, churn)
    {
      var stats := CallStats(call);
      callsJoined := callsJoined + 1;
      agents := AddAgentCall(agents, agent, stats);
      tools := AddTo(tools, (agent, call.name), stats);
      toolsByModel := AddTo(toolsByModel, (agent, ModelOf(call), call.name), stats);
      CallOut(call, churn);
    }

    method CallOut(call: ToolCall, churn: bool)
      modifies this`inefficiency
      ensures inefficiency == Callouts(old(inefficiency), call, churn)
    {
      var i := inefficiency;
      if call.error {
        i := i.(failures := i.failures + 1, failuresByTool := Bump(i.failuresByTool, call.name));
      }
      if call.isDeferral {
        i := i.(toolSearchCalls := i.toolSearchCalls + 1, toolSearchTokens := i.toolSearchTokens + call.Tokens());
      }
      inefficiency := i;
      CallOutByTool(call, churn);
    }

    method CallOutByTool(call: ToolCall, churn: bool)
      modifies this`inefficiency
      ensures var i := old(inefficiency);
              var oversized := call.Tokens() >= OVERSIZED_OUTPUT_TOKENS;
              inefficiency ==
              i.(oversizedOutputs := i.oversizedOutputs + Bit(oversized),
                 oversizedByTool := BumpIf(i.oversizedByTool, call.name, oversized),
                 subagentFanout := i.subagentFanout + Bit(call.isSubagentFanout),
                 subagentByTool := BumpIf(i.subagentByTool, call.name, call.isSubagentFanout),
                 churnRetries := i.churnRetries + Bit(churn),
                 churnByTool := BumpIf(i.churnByTool, call.name, churn))
    {
      var i := inefficiency;
      if call.Tokens() >= OVERSIZED_OUTPUT_TOKENS {
        i := i.(oversizedOutputs := i.oversizedOutputs + 1, oversizedByTool := Bump(i.oversizedByTool, call.name));
      }
      if call.isSubagentFanout {
        i := i.(subagentFanout := i.subagentFanout + 1, subagentByTool := Bump(i.subagentByTool, call.name));
      }
      if churn {
        i := i.(churnRetries := i.churnRetries + 1, churnByTool := Bump(i.churnByTool, call.name));
      }
      inefficiency := i;
    }

    // The detached usage whose directory lies in a manifest worktree; marks the worktrees that claimed.
    method ClaimDetached(result: ParseResult, manifest: Manifest) returns (claimed: BranchUsage)
      modifies this`runStats
      ensures claimed == RunAttribution.Claimed(result, manifest)
      ensures runStats == old(runStats).(worktreesSeen :=
                old(runStats).worktreesSeen + RunAttribution.WorktreesClaiming(result, manifest))
    {
      var seen;
      claimed, seen := SumClaimed(result, manifest);
      runStats := runStats.(worktreesSeen := runStats.worktreesSeen + seen);
    }

    method AbsorbRun(result: ParseResult, manifest: Manifest)
      modifies this`runStats
      ensures runStats == RunAttribution.AbsorbRun(old(runStats), result, manifest)
    {
      var claimed := ClaimDetached(result, manifest);
      var detached := Bucket(result.usageByBranch, DETACHED_BRANCH);
      runStats := RunAttribution.BookDetached(runStats, detached.Minus(claimed));
      if RunAttribution.RunBranches(result, manifest) == {} && claimed.messages == 0 {
        return;
      }
      FoldCandidate(result, manifest, claimed);
    }

    // A session that takes part in the run.
    method FoldCandidate(result: ParseResult, manifest: Manifest, claimed: BranchUsage)
      modifies this`runStats
      ensures var counted := old(runStats).(
                candidateSessions := old(runStats).candidateSessions + 1,
                branchesSeen := old(runStats).branchesSeen + RunAttribution.RunBranches(result, manifest));
              var folded := if claimed.messages != 0 then RunAttribution.FoldClaimed(counted, claimed) else counted;
              runStats ==
              RunAttribution.FoldSpill(
                RunAttribution.FoldRun(folded, RunAttribution.InRun(result, manifest)),
                RunAttribution.Spill(result, manifest))
    {
      runStats := runStats.(candidateSessions := runStats.candidateSessions + 1,
                            branchesSeen := runStats.branchesSeen + RunAttribution.RunBranches(result, manifest));
      if claimed.messages != 0 {
        runStats := RunAttribution.FoldClaimed(runStats, claimed);
      }
      FoldBranches(result, manifest);
    }

    // Run branches go to the run, the detached bucket was booked before, the rest is spillover.
    method FoldBranches(result: ParseResult, manifest: Manifest)
      modifies this`runStats
      ensures runStats ==
              RunAttribution.FoldSpill(
                RunAttribution.FoldRun(old(runStats), RunAttribution.InRun(result, manifest)),
                RunAttribution.Spill(result, manifest))
    {
      var usage := result.usageByBranch;
      var todo := usage.Keys;
      ghost var inRun := RunAttribution.RunBranches(result, manifest);
      ghost var spill := RunAttribution.SpillBranches(result, manifest);
      while todo != {}
        invariant todo <= usage.Keys
        invariant runStats ==
                  RunAttribution.FoldSpill(
                    RunAttribution.FoldRun(old(runStats), Column(Only(usage, inRun - todo))),
                    Column(Only(usage, spill - todo)))
        decreases todo
      {
        var branch :| branch in todo;
        OneMore(usage, inRun, todo, branch);
        OneMore(usage, spill, todo, branch);
        if branch in manifest.branches {
          runStats := RunAttribution.FoldRun(runStats, usage[branch]);
        } else if branch != DETACHED_BRANCH {
          runStats := RunAttribution.FoldSpill(runStats, usage[branch]);
        }
        todo := todo - {branch};
      }
      assert inRun - {} == inRun && spill - {} == spill;
    }
  }

  method SumClaimed(result: ParseResult, manifest: Manifest) returns (claimed: BranchUsage, seen: set<string>)
    ensures claimed == RunAttribution.Claimed(result, manifest)
    ensures seen == RunAttribution.WorktreesClaiming(result, manifest)
  {
    var usage := result.detachedByCwd;
    var todo := usage.Keys;
    claimed, seen := NO_USAGE, {};
    ghost var all := RunAttribution.ClaimedCwds(result, manifest);
    assert Only(usage, all - todo) == map[];
    while todo != {}
      invariant todo <= usage.Keys
      invariant claimed == Column(Only(usage, all - todo))
      invariant seen == RunAttribution.WorktreesOf(all - todo, manifest)
      decreases todo
    {
      var cwd :| cwd in todo;
      OneMore(usage, all, todo, cwd);
      OneMoreWorktree(all, todo, cwd, manifest);
      var worktree := FindWorktree(manifest, cwd);
      if worktree.Some? {
        seen := seen + {worktree.value};
        claimed := claimed.Plus(usage[cwd]);
      }
      todo := todo - {cwd};
    }
    assert all - {} == all;
  }

  lemma OneMoreWorktree(all: set<string>, todo: set<string>, cwd: string, m: Manifest)
    requires cwd in todo && forall c :: c in all ==> WorktreeFor(m.worktrees, c).Some?
    ensures RunAttribution.WorktreesOf(all - (todo - {cwd}), m) ==
            RunAttribution.WorktreesOf(all - todo, m)
            + if cwd in all then {WorktreeFor(m.worktrees, cwd).value} else {}
  {
    assert all - (todo - {cwd}) == (all - todo) + if cwd in all then {cwd} else {};
  }

  lemma OneMore(m: map<string, BranchUsage>, keys: set<string>, todo: set<string>, k: string)
    requires k in todo && k in m
    ensures Column(Only(m, keys - (todo - {k}))) ==
            if k in keys then Column(Only(m, keys - todo)).Plus(m[k]) else Column(Only(m, keys - todo))
  {
    var before := Only(m, keys - todo);
    if k in keys {
      ColumnUpdate(before, k, m[k]);
      assert Only(m, keys - (todo - {k})) == before[k := m[k]];
      assert Bucket(before, k) == NO_USAGE && NO_USAGE.Plus(m[k]) == m[k];
    } else {
      assert keys - (todo - {k}) == keys - todo;
    }
  }

  function BumpBy(m: map<(string, string), nat>, key: (string, string), count: nat): map<(string, string), nat> {
    m[key := (if key in m then m[key] else 0) + count]
  }

  lemma OneMoreKind(start: map<(string, string), nat>, agent: string, counts: map<string, nat>, todo: set<string>,
          kind: string)
    requires kind in todo && kind in counts
    ensures AddUnjoinable(start, agent, counts - (todo - {kind})) ==
            BumpBy(AddUnjoinable(start, agent, counts - todo), (agent, kind), counts[kind])
  {
    var a, b := AddUnjoinable(start, agent, counts - todo), AddUnjoinable(start, agent, counts - (todo - {kind}));
    var c := BumpBy(a, (agent, kind), counts[kind]);
    assert b.Keys == c.Keys;
    assert forall k :: k in b ==> b[k] == c[k];
  }
}
