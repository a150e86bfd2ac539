/**
 The per-call counters of the reducer (src/toolbench/reducer.py, `absorb` and `_absorb_calls`), told
 as the sum of small steps, and the laws that tie the leaderboards to the grand totals.
 */
module CallMarginals {
  import opened Options
  import opened Transcript
  import opened Sums

  const OVERSIZED_OUTPUT_TOKENS := 5000
  const UNKNOWN_MODEL := "unknown"

  datatype ToolStats = ToolStats(
    calls: nat,
    outputTokens: nat,
    inputTokens: nat,
    errors: nat,
    noResult: nat,
    cacheHits: nat,
    usageMissing: nat)
  {
    function Plus(b: ToolStats): ToolStats {
      ToolStats(calls + b.calls, outputTokens + b.outputTokens, inputTokens + b.inputTokens,
                errors + b.errors, noResult + b.noResult, cacheHits + b.cacheHits, usageMissing + b.usageMissing)
    }
  }

  const NO_CALLS := ToolStats(0, 0, 0, 0, 0, 0, 0)

  // An agent row keeps no cache hits and no usage-missing count of its own.
  datatype AgentStats = AgentStats(
    sessions: nat,
    calls: nat,
    outputTokens: nat,
    inputTokens: nat,
    errors: nat,
    noResult: nat,
    sessionsWithCacheData: nat,
    sessionsWithCacheHit: nat,
    cacheReadTotal: int,
    cacheCreationTotal: int)

  const NO_AGENT := AgentStats(0, 0, 0, 0, 0, 0, 0, 0, 0, 0)

  datatype Inefficiency = Inefficiency(
    toolSearchCalls: nat,
    toolSearchTokens: nat,
    failures: nat,
    oversizedOutputs: nat,
    subagentFanout: nat,
    churnRetries: nat,
    failuresByTool: map<string, nat>,
    oversizedByTool: map<string, nat>,
    churnByTool: map<string, nat>,
    subagentByTool: map<string, nat>)

  const NO_INEFFICIENCY := Inefficiency(0, 0, 0, 0, 0, 0, map[], map[], map[], map[])

  datatype Totals = Totals(
    sessionsScanned: nat,
    callsJoined: nat,
    malformed: nat,
    agents: map<string, AgentStats>,
    tools: map<(string, string), ToolStats>,
    toolsByModel: map<(string, string, string), ToolStats>,
    inefficiency: Inefficiency)

  const NO_TOTALS := Totals(0, 0, 0, map[], map[], map[], NO_INEFFICIENCY)

  /******* One call *******/

  predicate Bad(c: ToolCall) {
    c.error || c.noResult
  }

  predicate CacheHit(c: ToolCall) {
    c.usage.Some? && (c.usage.value.read.AboveZero() || c.usage.value.creation.AboveZero())
  }

  function Bit(b: bool): nat {
    if b then 1 else 0
  }

  function CallStats(c: ToolCall): ToolStats {
    ToolStats(1, c.Tokens(), c.InputTokens(), Bit(c.error), Bit(c.noResult), Bit(CacheHit(c)),
              Bit(c.provenance != Present))
  }

  function ModelOf(c: ToolCall): string {
    if c.model.Some? && c.model.value != "" then c.model.value else UNKNOWN_MODEL
  }

  function At<K>(m: map<K, ToolStats>, k: K): ToolStats {
    if k in m then m[k] else NO_CALLS
  }

  function AddTo<K>(m: map<K, ToolStats>, k: K, x: ToolStats): map<K, ToolStats> {
    m[k := At(m, k).Plus(x)]
  }

  function AgentAt(m: map<string, AgentStats>, k: string): AgentStats {
    if k in m then m[k] else NO_AGENT
  }

  function Bump(m: map<string, nat>, tool: string): map<string, nat> {
    m[tool := (if tool in m then m[tool] else 0) + 1]
  }

  function BumpIf(m: map<string, nat>, tool: string, b: bool): map<string, nat> {
    if b then Bump(m, tool) else m
  }

  function AddCall(a: AgentStats, x: ToolStats): AgentStats {
    a.(calls := a.calls + x.calls, outputTokens := a.outputTokens + x.outputTokens,
       inputTokens := a.inputTokens + x.inputTokens, errors := a.errors + x.errors,
       noResult := a.noResult + x.noResult)
  }

  function AddAgentCall(m: map<string, AgentStats>, agent: string, x: ToolStats): map<string, AgentStats> {
    m[agent := AddCall(AgentAt(m, agent), x)]
  }

  function Callouts(i: Inefficiency, c: ToolCall, churn: bool): Inefficiency {
    var oversized := c.Tokens() >= OVERSIZED_OUTPUT_TOKENS;
    Inefficiency(
      i.toolSearchCalls + Bit(c.isDeferral),
      i.toolSearchTokens + if c.isDeferral then c.Tokens() else 0,
      i.failures + Bit(c.error),
      i.oversizedOutputs + Bit(oversized),
      i.subagentFanout + Bit(c.isSubagentFanout),
      i.churnRetries + Bit(churn),
      BumpIf(i.failuresByTool, c.name, c.error),
      BumpIf(i.oversizedByTool, c.name, oversized),
      BumpIf(i.churnByTool, c.name, churn),
      BumpIf(i.subagentByTool, c.name, c.isSubagentFanout))
  }

  // One joined call of an agent; `churn` says that it repeats the bad call just before it.
  function CountCall(t: Totals, agent: string, c: ToolCall, churn: bool): Totals {
    var x := CallStats(c);
    var model := (agent, ModelOf(c), c.name);
    t.(callsJoined := t.callsJoined + 1,
       agents := AddAgentCall(t.agents, agent, x),
       tools := AddTo(t.tools, (agent, c.name), x),
       toolsByModel := AddTo(t.toolsByModel, model, x),
       inefficiency := Callouts(t.inefficiency, c, churn))
  }

  /******* One session *******/

  function SessionCache(a: AgentStats, r: ParseResult): AgentStats {
    if r.cacheRead.None? && r.cacheCreation.None? then a
    else
      var read, creation := r.cacheRead.GetOr(0), r.cacheCreation.GetOr(0);
      a.(sessionsWithCacheData := a.sessionsWithCacheData + 1,
         cacheReadTotal := a.cacheReadTotal + read,
         cacheCreationTotal := a.cacheCreationTotal + creation,
         sessionsWithCacheHit := a.sessionsWithCacheHit + Bit(read > 0 || creation > 0))
  }

  function AddAgentSession(m: map<string, AgentStats>, agent: string, r: ParseResult): map<string, AgentStats> {
    var a := AgentAt(m, agent);
    m[agent := SessionCache(a.(sessions := a.sessions + 1), r)]
  }

  // Records a parser saw but could not join, per agent and kind; kept apart from the calls.
  function AddUnjoinable(m: map<(string, string), nat>, agent: string, counts: map<string, nat>): map<(string,
          string), nat> {
    map k | k in m.Keys + (set kind | kind in counts :: (agent, kind)) ::
      (if k in m then m[k] else 0) + (if k.0 == agent && k.1 in counts then counts[k.1] else 0)
  }

  function OpenSession(t: Totals, agent: string, r: ParseResult): Totals {
    t.(sessionsScanned := t.sessionsScanned + 1,
       malformed := t.malformed + r.malformed,
       agents := AddAgentSession(t.agents, agent, r))
  }

  // Call i is bad and so is the call just before it, of the same name.
  predicate Churns(calls: seq<ToolCall>, i: nat)
    requires i < |calls|
  {
    i > 0 && Bad(calls[i]) && Bad(calls[i - 1]) && calls[i].name == calls[i - 1].name
  }

  function CountCalls(t: Totals, agent: string, calls: seq<ToolCall>, n: nat): Totals
    requires n <= |calls|
  {
    if n == 0 then t
    else CountCall(CountCalls(t, agent, calls, n - 1), agent, calls[n - 1], Churns(calls, n - 1))
  }

  datatype Session = Session(agent: string, result: ParseResult)

  function Absorb(t: Totals, s: Session): Totals {
    CountCalls(OpenSession(t, s.agent, s.result), s.agent, s.result.calls, |s.result.calls|)
  }

  function AbsorbAll(ss: seq<Session>): Totals {
    if ss == [] then NO_TOTALS else Absorb(AbsorbAll(ss[..|ss| - 1]), ss[|ss| - 1])
  }

  /******* The marginals agree *******/

  function Calls(x: ToolStats): int { x.calls }
  function OutputTokens(x: ToolStats): int { x.outputTokens }
  function InputTokens(x: ToolStats): int { x.inputTokens }
  function Errors(x: ToolStats): int { x.errors }
  function NoResult(x: ToolStats): int { x.noResult }
  function CacheHits(x: ToolStats): int { x.cacheHits }
  function UsageMissing(x: ToolStats): int { x.usageMissing }
  function AgentCalls(a: AgentStats): int { a.calls }
  function AgentOutputTokens(a: AgentStats): int { a.outputTokens }
  function AgentInputTokens(a: AgentStats): int { a.inputTokens }
  function AgentErrors(a: AgentStats): int { a.errors }
  function AgentNoResult(a: AgentStats): int { a.noResult }

  // The column sums of a leaderboard.
  datatype Row = Row(calls: int, outputTokens: int, inputTokens: int, errors: int, noResult: int)

  ghost function ToolRow<K>(m: map<K, ToolStats>): Row {
    Row(Sum(m, Calls), Sum(m, OutputTokens), Sum(m, InputTokens), Sum(m, Errors), Sum(m, NoResult))
  }

  ghost function AgentRow(m: map<string, AgentStats>): Row {
    Row(Sum(m, AgentCalls), Sum(m, AgentOutputTokens), Sum(m, AgentInputTokens), Sum(m, AgentErrors),
        Sum(m, AgentNoResult))
  }

  ghost predicate MarginalsAgree(t: Totals) {
    && AgentRow(t.agents) == ToolRow(t.tools) == ToolRow(t.toolsByModel)
    && t.callsJoined == ToolRow(t.tools).calls
    && Sum(t.tools, CacheHits) == Sum(t.toolsByModel, CacheHits)
    && Sum(t.tools, UsageMissing) == Sum(t.toolsByModel, UsageMissing)
    && CalloutsAgree(t.inefficiency)
    && t.inefficiency.failures == ToolRow(t.tools).errors
  }

  ghost predicate CalloutsAgree(i: Inefficiency) {
    && i.failures == Sum(i.failuresByTool, Itself)
    && i.oversizedOutputs == Sum(i.oversizedByTool, Itself)
    && i.churnRetries == Sum(i.churnByTool, Itself)
    && i.subagentFanout == Sum(i.subagentByTool, Itself)
  }

  function RowPlus(a: Row, x: ToolStats): Row {
    Row(a.calls + x.calls, a.outputTokens + x.outputTokens, a.inputTokens + x.inputTokens,
        a.errors + x.errors, a.noResult + x.noResult)
  }

  lemma ToolRowUpdate<K>(m: map<K, ToolStats>, k: K, x: ToolStats)
    ensures ToolRow(AddTo(m, k, x)) == RowPlus(ToolRow(m), x)
    ensures Sum(AddTo(m, k, x), CacheHits) == Sum(m, CacheHits) + x.cacheHits
    ensures Sum(AddTo(m, k, x), UsageMissing) == Sum(m, UsageMissing) + x.usageMissing
  {
    var v := At(m, k).Plus(x);
    SumUpdate(m, k, v, Calls);
    SumUpdate(m, k, v, OutputTokens);
    SumUpdate(m, k, v, InputTokens);
    SumUpdate(m, k, v, Errors);
    SumUpdate(m, k, v, NoResult);
    SumUpdate(m, k, v, CacheHits);
    SumUpdate(m, k, v, UsageMissing);
  }

  lemma AgentRowUpdate(m: map<string, AgentStats>, k: string, x: ToolStats)
    ensures AgentRow(AddAgentCall(m, k, x)) == RowPlus(AgentRow(m), x)
  {
    var v := AddCall(AgentAt(m, k), x);
    SumUpdate(m, k, v, AgentCalls);
    SumUpdate(m, k, v, AgentOutputTokens);
    SumUpdate(m, k, v, AgentInputTokens);
    SumUpdate(m, k, v, AgentErrors);
    SumUpdate(m, k, v, AgentNoResult);
  }

  lemma BumpIfSum(m: map<string, nat>, k: string, b: bool)
    ensures Sum(BumpIf(m, k, b), Itself) == Sum(m, Itself) + Bit(b)
  {
    if b {
      SumUpdate(m, k, (if k in m then m[k] else 0) + 1, Itself);
    }
  }

  lemma CalloutsStep(i: Inefficiency, c: ToolCall, churn: bool)
    requires CalloutsAgree(i)
    ensures CalloutsAgree(Callouts(i, c, churn))
  {
    BumpIfSum(i.failuresByTool, c.name, c.error);
    BumpIfSum(i.oversizedByTool, c.name, c.Tokens() >= OVERSIZED_OUTPUT_TOKENS);
    BumpIfSum(i.churnByTool, c.name, churn);
    BumpIfSum(i.subagentByTool, c.name, c.isSubagentFanout);
  }

  lemma CountCallAgrees(t: Totals, agent: string, c: ToolCall, churn: bool)
    requires MarginalsAgree(t)
    ensures MarginalsAgree(CountCall(t, agent, c, churn))
  {
    var x := CallStats(c);
    AgentRowUpdate(t.agents, agent, x);
    ToolRowUpdate(t.tools, (agent, c.name), x);
    ToolRowUpdate(t.toolsByModel, (agent, ModelOf(c), c.name), x);
    CalloutsStep(t.inefficiency, c, churn);
  }

  lemma AgentRowSame(m: map<string, AgentStats>, k: string, v: AgentStats)
    requires var a := AgentAt(m, k);
             v == v.(calls := a.calls, outputTokens := a.outputTokens, inputTokens := a.inputTokens,
                     errors := a.errors, noResult := a.noResult)
    ensures AgentRow(m[k := v]) == AgentRow(m)
  {
    SumUpdate(m, k, v, AgentCalls);
    SumUpdate(m, k, v, AgentOutputTokens);
    SumUpdate(m, k, v, AgentInputTokens);
    SumUpdate(m, k, v, AgentErrors);
    SumUpdate(m, k, v, AgentNoResult);
  }

  lemma OpenSessionAgrees(t: Totals, agent: string, r: ParseResult)
    requires MarginalsAgree(t)
    ensures MarginalsAgree(OpenSession(t, agent, r))
  {
    var a := AgentAt(t.agents, agent);
    AgentRowSame(t.agents, agent, SessionCache(a.(sessions := a.sessions + 1), r));
  }

  lemma {:induction false} CountCallsAgrees(t: Totals, agent: string, calls: seq<ToolCall>, n: nat)
    requires MarginalsAgree(t) && n <= |calls|
    ensures MarginalsAgree(CountCalls(t, agent, calls, n))
  {
    if n > 0 {
      CountCallsAgrees(t, agent, calls, n - 1);
      CountCallAgrees(CountCalls(t, agent, calls, n - 1), agent, calls[n - 1], Churns(calls, n - 1));
    }
  }

  // After every sequence of sessions the leaderboards and the callout breakdowns add up.
  lemma {:induction false} MarginalsAlwaysAgree(ss: seq<Session>)
    ensures MarginalsAgree(AbsorbAll(ss))
  {
    if ss != [] {
      var t, s := AbsorbAll(ss[..|ss| - 1]), ss[|ss| - 1];
      MarginalsAlwaysAgree(ss[..|ss| - 1]);
      OpenSessionAgrees(t, s.agent, s.result);
      CountCallsAgrees(OpenSession(t, s.agent, s.result), s.agent, s.result.calls, |s.result.calls|);
    }
  }
}
