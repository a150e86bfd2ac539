/** What each number of the reducer counts, and how the leaderboards refine each other row by row. */
module CallMeanings {
  import opened Options
  import opened Transcript
  import opened Sums
  import opened CallMarginals

  /******* The grand totals *******/

  // A call that failed or was never answered, right behind another such call of the same tool.
  predicate Repeats(calls: seq<ToolCall>, i: nat)
    requires i < |calls|
  {
    && i > 0 && calls[i].name == calls[i - 1].name
    && (calls[i].error || calls[i].noResult) && (calls[i - 1].error || calls[i - 1].noResult)
  }

  function ChurnPairs(calls: seq<ToolCall>, n: nat): nat
    requires n <= |calls|
  {
    if n == 0 then 0 else ChurnPairs(calls, n - 1) + if Repeats(calls, n - 1) then 1 else 0
  }

  function ChurnOfAll(ss: seq<Session>): nat {
    if ss == [] then 0
    else ChurnOfAll(ss[..|ss| - 1]) + ChurnPairs(ss[|ss| - 1].result.calls, |ss[|ss| - 1].result.calls|)
  }

  function CallsOfAll(ss: seq<Session>): nat {
    if ss == [] then 0 else CallsOfAll(ss[..|ss| - 1]) + |ss[|ss| - 1].result.calls|
  }

  function MalformedOfAll(ss: seq<Session>): nat {
    if ss == [] then 0 else MalformedOfAll(ss[..|ss| - 1]) + ss[|ss| - 1].result.malformed
  }

  lemma {:induction false} CountCallsTotals(t: Totals, agent: string, calls: seq<ToolCall>, n: nat)
    requires n <= |calls|
    ensures CountCalls(t, agent, calls, n).callsJoined == t.callsJoined + n
    ensures CountCalls(t, agent, calls, n).sessionsScanned == t.sessionsScanned
    ensures CountCalls(t, agent, calls, n).malformed == t.malformed
    ensures CountCalls(t, agent, calls, n).inefficiency.churnRetries ==
            t.inefficiency.churnRetries + ChurnPairs(calls, n)
  {
    if n > 0 {
      CountCallsTotals(t, agent, calls, n - 1);
    }
  }

  // The grand totals count every session, every malformed line and every call, and churn the adjacent bad
  // repeats inside sessions.
  lemma {:induction false} TotalsMeaning(ss: seq<Session>)
    ensures AbsorbAll(ss).sessionsScanned == |ss| && AbsorbAll(ss).malformed == MalformedOfAll(ss)
    ensures AbsorbAll(ss).callsJoined == CallsOfAll(ss)
    ensures AbsorbAll(ss).inefficiency.churnRetries == ChurnOfAll(ss)
  {
    if ss != [] {
      var init, s := ss[..|ss| - 1], ss[|ss| - 1];
      TotalsMeaning(init);
      CountCallsTotals(OpenSession(AbsorbAll(init), s.agent, s.result), s.agent, s.result.calls, |s.result.calls|);
    }
  }

  /******* The rows of the leaderboards *******/

  // Python counts `True` as above zero.
  predicate Positive(n: Count) {
    n == Flag(true) || (n.Whole? && n.n > 0) || (n.Fraction? && n.positive)
  }

  function One(b: bool): nat {
    if b then 1 else 0
  }

  // What one call adds to its row: its two lengths in tokens of four characters, and whether it failed,
  // was never answered, hit the cache, and came without usage of its own.
  function Toll(c: ToolCall): ToolStats {
    var hit := c.usage.Some? && (Positive(c.usage.value.read) || Positive(c.usage.value.creation));
    ToolStats(1, c.outputChars / 4, c.inputChars / 4, One(c.error), One(c.noResult), One(hit),
              One(c.provenance != Present))
  }

  // Calls without a model, or with an empty one, go under "unknown".
  function ModelName(c: ToolCall): string {
    if c.model == None || c.model == Some("") then "unknown" else c.model.value
  }

  lemma TollIs(c: ToolCall)
    ensures CallStats(c) == Toll(c) && ModelOf(c) == ModelName(c)
  {}

  // The row a call of an agent belongs to.
  function ToolKey(): (string, ToolCall) -> (string, string) {
    (agent, c: ToolCall) => (agent, c.name)
  }

  function ModelKey(): (string, ToolCall) -> (string, string, string) {
    (agent, c: ToolCall) => (agent, ModelName(c), c.name)
  }

  function AgentKey(): (string, ToolCall) -> string {
    (agent, c: ToolCall) => agent
  }

  // The sum of the calls of one session that belong to row k.
  function Picked<K(==)>(agent: string, calls: seq<ToolCall>, n: nat, key: (string, ToolCall) -> K, k: K): ToolStats
    requires n <= |calls|
  {
    if n == 0 then NO_CALLS
    else if key(agent, calls[n - 1]) == k then Picked(agent, calls, n - 1, key, k).Plus(Toll(calls[n - 1]))
    else Picked(agent, calls, n - 1, key, k)
  }

  function RowOf<K(==)>(ss: seq<Session>, key: (string, ToolCall) -> K, k: K): ToolStats {
    if ss == [] then NO_CALLS
    else
      var s := ss[|ss| - 1];
      RowOf(ss[..|ss| - 1], key, k).Plus(Picked(s.agent, s.result.calls, |s.result.calls|, key, k))
  }

  lemma PlusAssociative(a: ToolStats, b: ToolStats, c: ToolStats)
    ensures a.Plus(b).Plus(c) == a.Plus(b.Plus(c))
  {}

  lemma PlusNone(a: ToolStats)
    ensures a.Plus(NO_CALLS) == a
  {}

  // One leaderboard alone.
  function BoardAfter<K(==)>(m: map<K, ToolStats>, agent: string, calls: seq<ToolCall>, n: nat,
          key: (string, ToolCall) -> K): map<K, ToolStats>
    requires n <= |calls|
  {
    if n == 0 then m
    else AddTo(BoardAfter(m, agent, calls, n - 1, key), key(agent, calls[n - 1]), Toll(calls[n - 1]))
  }

  lemma {:induction false} ToolsAreSeparate(t: Totals, agent: string, calls: seq<ToolCall>, n: nat)
    requires n <= |calls|
    ensures CountCalls(t, agent, calls, n).tools == BoardAfter(t.tools, agent, calls, n, ToolKey())
  {
    if n > 0 {
      ToolsAreSeparate(t, agent, calls, n - 1);
      TollIs(calls[n - 1]);
    }
  }

  lemma {:induction false} ModelsAreSeparate(t: Totals, agent: string, calls: seq<ToolCall>, n: nat)
    requires n <= |calls|
    ensures CountCalls(t, agent, calls, n).toolsByModel == BoardAfter(t.toolsByModel, agent, calls, n, ModelKey())
  {
    if n > 0 {
      ModelsAreSeparate(t, agent, calls, n - 1);
      TollIs(calls[n - 1]);
    }
  }

  // One more call: the row it belongs to grows by it.
  lemma BoardStep<K>(m: map<K, ToolStats>, agent: string, calls: seq<ToolCall>, i: nat,
          key: (string, ToolCall) -> K, k: K)
    requires i < |calls|
    ensures var row := At(BoardAfter(m, agent, calls, i, key), k);
            At(BoardAfter(m, agent, calls, i + 1, key), k) ==
            if key(agent, calls[i]) == k then row.Plus(Toll(calls[i])) else row
  {}

  lemma PickedStep<K>(agent: string, calls: seq<ToolCall>, i: nat, key: (string, ToolCall) -> K, k: K)
    requires i < |calls|
    ensures var row := Picked(agent, calls, i, key, k);
            Picked(agent, calls, i + 1, key, k) ==
            if key(agent, calls[i]) == k then row.Plus(Toll(calls[i])) else row
  {}

  lemma {:induction false} BoardMeaning<K>(m: map<K, ToolStats>, agent: string, calls: seq<ToolCall>, n: nat,
          key: (string, ToolCall) -> K, k: K)
    requires n <= |calls|
    ensures At(BoardAfter(m, agent, calls, n, key), k) == At(m, k).Plus(Picked(agent, calls, n, key, k))
  {
    if n == 0 {
      PlusNone(At(m, k));
    } else {
      var i := n - 1;
      BoardMeaning(m, agent, calls, i, key, k);
      BoardStep(m, agent, calls, i, key, k);
      PickedStep(agent, calls, i, key, k);
      PlusAssociative(At(m, k), Picked(agent, calls, i, key, k), Toll(calls[i]));
    }
  }

  // Each row of the tool leaderboard, and of the leaderboard by model, is the sum of its own calls.
  lemma {:induction false} RowMeaning(ss: seq<Session>, agent: string, model: string, name: string)
    ensures At(AbsorbAll(ss).tools, (agent, name)) == RowOf(ss, ToolKey(), (agent, name))
    ensures At(AbsorbAll(ss).toolsByModel, (agent, model, name)) == RowOf(ss, ModelKey(), (agent, model, name))
  {
    if ss != [] {
      var init, s := ss[..|ss| - 1], ss[|ss| - 1];
      var start, calls := OpenSession(AbsorbAll(init), s.agent, s.result), s.result.calls;
      RowMeaning(init, agent, model, name);
      ToolsAreSeparate(start, s.agent, calls, |calls|);
      ModelsAreSeparate(start, s.agent, calls, |calls|);
      BoardMeaning(start.tools, s.agent, calls, |calls|, ToolKey(), (agent, name));
      BoardMeaning(start.toolsByModel, s.agent, calls, |calls|, ModelKey(), (agent, model, name));
    }
  }

  /******* The rows of the agents *******/

  // The columns an agent shares with its tools.
  function AgentColumns(a: AgentStats): Row {
    Row(a.calls, a.outputTokens, a.inputTokens, a.errors, a.noResult)
  }

  function Columns(x: ToolStats): Row {
    Row(x.calls, x.outputTokens, x.inputTokens, x.errors, x.noResult)
  }

  // The columns counted once for each session.
  datatype SessionColumns = SessionColumns(sessions: int, withData: int, withHit: int, read: int, creation: int) {
    function Plus(b: SessionColumns): SessionColumns {
      SessionColumns(sessions + b.sessions, withData + b.withData, withHit + b.withHit, read + b.read,
                     creation + b.creation)
    }
  }

  function SessionPart(a: AgentStats): SessionColumns {
    SessionColumns(a.sessions, a.sessionsWithCacheData, a.sessionsWithCacheHit, a.cacheReadTotal, a.cacheCreationTotal)
  }

  // A session counts as measured when either cache field is there, as a hit when a measured one is positive.
  function OneSession(r: ParseResult): SessionColumns {
    var read, creation := r.cacheRead.GetOr(0), r.cacheCreation.GetOr(0);
    SessionColumns(1, One(r.cacheRead.Some? || r.cacheCreation.Some?), One(read > 0 || creation > 0), read, creation)
  }

  function SessionsOf(ss: seq<Session>, agent: string): SessionColumns {
    if ss == [] then SessionColumns(0, 0, 0, 0, 0)
    else
      var rest := SessionsOf(ss[..|ss| - 1], agent);
      if ss[|ss| - 1].agent == agent then rest.Plus(OneSession(ss[|ss| - 1].result)) else rest
  }

  function RowSum(a: Row, b: Row): Row {
    Row(a.calls + b.calls, a.outputTokens + b.outputTokens, a.inputTokens + b.inputTokens, a.errors + b.errors,
        a.noResult + b.noResult)
  }

  lemma CallOnRow(m: map<string, AgentStats>, agent: string, x: ToolStats, k: string)
    ensures var a, b := AgentAt(m, k), AgentAt(AddAgentCall(m, agent, x), k);
            && SessionPart(b) == SessionPart(a)
            && AgentColumns(b) == if agent == k then RowSum(AgentColumns(a), Columns(x)) else AgentColumns(a)
  {}

  lemma RowsAssociative(a: Row, b: ToolStats, c: ToolStats)
    ensures RowSum(RowSum(a, Columns(b)), Columns(c)) == RowSum(a, Columns(b.Plus(c)))
    ensures RowSum(Columns(b), Columns(c)) == Columns(b.Plus(c))
  {}

  lemma RowSumNone(a: Row)
    ensures RowSum(a, Columns(NO_CALLS)) == a
  {}

  // The agents alone.
  function AgentsAfter(m: map<string, AgentStats>, agent: string, calls: seq<ToolCall>, n: nat): map<string, AgentStats>
    requires n <= |calls|
  {
    if n == 0 then m else AddAgentCall(AgentsAfter(m, agent, calls, n - 1), agent, Toll(calls[n - 1]))
  }

  lemma {:induction false} AgentsAreSeparate(t: Totals, agent: string, calls: seq<ToolCall>, n: nat)
    requires n <= |calls|
    ensures CountCalls(t, agent, calls, n).agents == AgentsAfter(t.agents, agent, calls, n)
  {
    if n > 0 {
      AgentsAreSeparate(t, agent, calls, n - 1);
      TollIs(calls[n - 1]);
    }
  }

  // The row of an agent after the calls, seen from the row before them.
  function RowAfter(start: Row, agent: string, calls: seq<ToolCall>, n: nat, k: string): Row
    requires n <= |calls|
  {
    RowSum(start, Columns(Picked(agent, calls, n, AgentKey(), k)))
  }

  lemma RowAfterStep(start: Row, agent: string, calls: seq<ToolCall>, i: nat, k: string)
    requires i < |calls|
    ensures RowAfter(start, agent, calls, 0, k) == start
    ensures var row := RowAfter(start, agent, calls, i, k);
            RowAfter(start, agent, calls, i + 1, k) ==
            if agent == k then RowSum(row, Columns(Toll(calls[i]))) else row
  {
    RowSumNone(start);
    PickedStep(agent, calls, i, AgentKey(), k);
    RowsAssociative(start, Picked(agent, calls, i, AgentKey(), k), Toll(calls[i]));
  }

  // One row of an agent after the calls.
  function CalledRow(a: AgentStats, agent: string, calls: seq<ToolCall>, n: nat, k: string): AgentStats
    requires n <= |calls|
  {
    if n == 0 then a
    else if agent == k then AddCall(CalledRow(a, agent, calls, n - 1, k), Toll(calls[n - 1]))
    else CalledRow(a, agent, calls, n - 1, k)
  }

  lemma {:induction false} RowCalled(m: map<string, AgentStats>, agent: string, calls: seq<ToolCall>, n: nat, k: string)
    requires n <= |calls|
    ensures AgentAt(AgentsAfter(m, agent, calls, n), k) == CalledRow(AgentAt(m, k), agent, calls, n, k)
  {
    if n > 0 {
      RowCalled(m, agent, calls, n - 1, k);
    }
  }

  lemma {:induction false} CalledColumns(a: AgentStats, agent: string, calls: seq<ToolCall>, n: nat, k: string)
    requires n <= |calls|
    ensures var b := CalledRow(a, agent, calls, n, k);
            SessionPart(b) == SessionPart(a) && AgentColumns(b) == RowAfter(AgentColumns(a), agent, calls, n, k)
  {
    if n == 0 {
      RowSumNone(AgentColumns(a));
    } else {
      CalledColumns(a, agent, calls, n - 1, k);
      RowAfterStep(AgentColumns(a), agent, calls, n - 1, k);
    }
  }

  lemma CallsOnRow(m: map<string, AgentStats>, agent: string, calls: seq<ToolCall>, n: nat, k: string)
    requires n <= |calls|
    ensures var a, b := AgentAt(m, k), AgentAt(AgentsAfter(m, agent, calls, n), k);
            SessionPart(b) == SessionPart(a) && AgentColumns(b) == RowAfter(AgentColumns(a), agent, calls, n, k)
  {
    RowCalled(m, agent, calls, n, k);
    CalledColumns(AgentAt(m, k), agent, calls, n, k);
  }

  lemma SessionOnRow(a: AgentStats, r: ParseResult)
    ensures var b := SessionCache(a.(sessions := a.sessions + 1), r);
            AgentColumns(b) == AgentColumns(a) && SessionPart(b) == SessionPart(a).Plus(OneSession(r))
  {
    if r.cacheRead.None? && r.cacheCreation.None? {
      assert OneSession(r) == SessionColumns(1, 0, 0, 0, 0);
    } else {
      assert OneSession(r).withData == 1;
    }
  }

  lemma RowOpened(m: map<string, AgentStats>, agent: string, r: ParseResult, k: string)
    ensures var a := AgentAt(m, k);
            AgentAt(AddAgentSession(m, agent, r), k) ==
            if agent == k then SessionCache(a.(sessions := a.sessions + 1), r) else a
  {}

  lemma OpenOnRow(m: map<string, AgentStats>, agent: string, r: ParseResult, k: string)
    ensures var a, b := AgentAt(m, k), AgentAt(AddAgentSession(m, agent, r), k);
            && AgentColumns(b) == AgentColumns(a)
            && SessionPart(b) == if agent == k then SessionPart(a).Plus(OneSession(r)) else SessionPart(a)
  {
    RowOpened(m, agent, r, k);
    SessionOnRow(AgentAt(m, k), r);
  }

  // Each agent row is the sum of that agent's calls, and of its sessions.
  lemma {:induction false} AgentMeaning(ss: seq<Session>, agent: string)
    ensures AgentColumns(AgentAt(AbsorbAll(ss).agents, agent)) == Columns(RowOf(ss, AgentKey(), agent))
    ensures SessionPart(AgentAt(AbsorbAll(ss).agents, agent)) == SessionsOf(ss, agent)
  {
    if ss != [] {
      var init, s := ss[..|ss| - 1], ss[|ss| - 1];
      var t := AbsorbAll(init);
      var calls := s.result.calls;
      AgentMeaning(init, agent);
      var before := AddAgentSession(t.agents, s.agent, s.result);
      OpenOnRow(t.agents, s.agent, s.result, agent);
      AgentsAreSeparate(OpenSession(t, s.agent, s.result), s.agent, calls, |calls|);
      CallsOnRow(before, s.agent, calls, |calls|, agent);
      RowsAssociative(AgentColumns(NO_AGENT), RowOf(init, AgentKey(), agent),
                      Picked(s.agent, calls, |calls|, AgentKey(), agent));
    }
  }

  /******* Rows refine rows *******/

  // The rows of a leaderboard that a selection takes.
  function Where<K, V>(m: map<K, V>, p: K -> bool): map<K, V> {
    map k | k in m && p(k) :: m[k]
  }

  function ModelsOf(agent: string, name: string): ((string, string, string)) -> bool {
    (k: (string, string, string)) => k.0 == agent && k.2 == name
  }

  function ToolsOf(agent: string): ((string, string)) -> bool {
    (k: (string, string)) => k.0 == agent
  }

  // All columns of a leaderboard, summed.
  datatype Board = Board(row: Row, cacheHits: int, usageMissing: int)

  ghost function BoardSum<K>(m: map<K, ToolStats>): Board {
    Board(ToolRow(m), Sum(m, CacheHits), Sum(m, UsageMissing))
  }

  function AsBoard(x: ToolStats): Board {
    Board(Columns(x), x.cacheHits, x.usageMissing)
  }

  function BoardPlus(a: Board, x: ToolStats): Board {
    Board(RowPlus(a.row, x), a.cacheHits + x.cacheHits, a.usageMissing + x.usageMissing)
  }

  lemma WhereAddTo<K>(m: map<K, ToolStats>, k: K, x: ToolStats, p: K -> bool)
    ensures BoardSum(Where(AddTo(m, k, x), p)) ==
            if p(k) then BoardPlus(BoardSum(Where(m, p)), x) else BoardSum(Where(m, p))
  {
    if p(k) {
      assert Where(AddTo(m, k, x), p) == AddTo(Where(m, p), k, x);
      ToolRowUpdate(Where(m, p), k, x);
    } else {
      assert Where(AddTo(m, k, x), p) == Where(m, p);
    }
  }

  // A tool's row is the sum of its rows by model, an agent's row the sum of the rows of its tools.
  ghost predicate RowsRefine(t: Totals, agent: string, name: string) {
    && AsBoard(At(t.tools, (agent, name))) == BoardSum(Where(t.toolsByModel, ModelsOf(agent, name)))
    && AgentColumns(AgentAt(t.agents, agent)) == ToolRow(Where(t.tools, ToolsOf(agent)))
  }

  lemma CallRefinesTool(t: Totals, agent: string, c: ToolCall, churn: bool, k: string, name: string)
    requires RowsRefine(t, k, name)
    ensures var u := CountCall(t, agent, c, churn);
            AsBoard(At(u.tools, (k, name))) == BoardSum(Where(u.toolsByModel, ModelsOf(k, name)))
  {
    WhereAddTo(t.toolsByModel, (agent, ModelOf(c), c.name), CallStats(c), ModelsOf(k, name));
  }

  lemma CallRefinesAgent(t: Totals, agent: string, c: ToolCall, churn: bool, k: string, name: string)
    requires RowsRefine(t, k, name)
    ensures var u := CountCall(t, agent, c, churn);
            AgentColumns(AgentAt(u.agents, k)) == ToolRow(Where(u.tools, ToolsOf(k)))
  {
    WhereAddTo(t.tools, (agent, c.name), CallStats(c), ToolsOf(k));
    CallOnRow(t.agents, agent, CallStats(c), k);
  }

  lemma CallRefines(t: Totals, agent: string, c: ToolCall, churn: bool, k: string, name: string)
    requires RowsRefine(t, k, name)
    ensures RowsRefine(CountCall(t, agent, c, churn), k, name)
  {
    CallRefinesTool(t, agent, c, churn, k, name);
    CallRefinesAgent(t, agent, c, churn, k, name);
  }

  lemma {:induction false} CallsRefine(t: Totals, agent: string, calls: seq<ToolCall>, n: nat, k: string, name: string)
    requires n <= |calls| && RowsRefine(t, k, name)
    ensures RowsRefine(CountCalls(t, agent, calls, n), k, name)
  {
    if n > 0 {
      CallsRefine(t, agent, calls, n - 1, k, name);
      CallRefines(CountCalls(t, agent, calls, n - 1), agent, calls[n - 1], Churns(calls, n - 1), k, name);
    }
  }

  lemma NothingRefines(agent: string, name: string)
    ensures RowsRefine(NO_TOTALS, agent, name)
  {
    var none: map<(string, string, string), ToolStats> := map[];
    assert Where(none, ModelsOf(agent, name)) == map[];
    var tools: map<(string, string), ToolStats> := map[];
    assert Where(tools, ToolsOf(agent)) == map[];
  }

  lemma {:induction false} RowsAlwaysRefine(ss: seq<Session>, agent: string, name: string)
    ensures RowsRefine(AbsorbAll(ss), agent, name)
  {
    if ss == [] {
      NothingRefines(agent, name);
    } else {
      var init, s := ss[..|ss| - 1], ss[|ss| - 1];
      RowsAlwaysRefine(init, agent, name);
      OpenOnRow(AbsorbAll(init).agents, s.agent, s.result, agent);
      var start := OpenSession(AbsorbAll(init), s.agent, s.result);
      CallsRefine(start, s.agent, s.result.calls, |s.result.calls|, agent, name);
    }
  }

  /******* The callouts *******/

  function CountOf(m: map<string, nat>, name: string): nat {
    if name in m then m[name] else 0
  }

  // The breakdowns of a name, and what is counted over all names.
  datatype Offences = Offences(
    failed: int,
    oversized: int,
    fanout: int,
    churned: int,
    deferrals: int,
    deferredTokens: int)
  {
    function Plus(b: Offences): Offences {
      Offences(failed + b.failed, oversized + b.oversized, fanout + b.fanout, churned + b.churned,
               deferrals + b.deferrals, deferredTokens + b.deferredTokens)
    }
  }

  const NO_OFFENCES := Offences(0, 0, 0, 0, 0, 0)

  function OffencesOf(i: Inefficiency, name: string): Offences {
    Offences(CountOf(i.failuresByTool, name), CountOf(i.oversizedByTool, name), CountOf(i.subagentByTool, name),
             CountOf(i.churnByTool, name), i.toolSearchCalls, i.toolSearchTokens)
  }

  function OffencesAt(c: ToolCall, churn: bool, name: string): Offences {
    var named := c.name == name;
    Offences(One(named && c.error), One(named && c.outputChars >= 20000), One(named && c.isSubagentFanout),
             One(named && churn), One(c.isDeferral), if c.isDeferral then c.outputChars / 4 else 0)
  }

  function OffencesIn(calls: seq<ToolCall>, n: nat, name: string): Offences
    requires n <= |calls|
  {
    if n == 0 then NO_OFFENCES
    else OffencesIn(calls, n - 1, name).Plus(OffencesAt(calls[n - 1], Repeats(calls, n - 1), name))
  }

  function OffencesInAll(ss: seq<Session>, name: string): Offences {
    if ss == [] then NO_OFFENCES
    else
      var calls := ss[|ss| - 1].result.calls;
      OffencesInAll(ss[..|ss| - 1], name).Plus(OffencesIn(calls, |calls|, name))
  }

  lemma CallOffences(t: Totals, agent: string, c: ToolCall, churn: bool, name: string)
    ensures OffencesOf(CountCall(t, agent, c, churn).inefficiency, name) ==
            OffencesOf(t.inefficiency, name).Plus(OffencesAt(c, churn, name))
  {}

  lemma OffencesAssociative(a: Offences, b: Offences, c: Offences)
    ensures a.Plus(b).Plus(c) == a.Plus(b.Plus(c)) && a.Plus(NO_OFFENCES) == a
  {}

  lemma OneMoreOffence(t: Totals, agent: string, calls: seq<ToolCall>, i: nat, name: string)
    requires i < |calls|
    ensures var x := OffencesAt(calls[i], Repeats(calls, i), name);
            && OffencesOf(CountCalls(t, agent, calls, i + 1).inefficiency, name) ==
               OffencesOf(CountCalls(t, agent, calls, i).inefficiency, name).Plus(x)
            && OffencesIn(calls, i + 1, name) == OffencesIn(calls, i, name).Plus(x)
  {
    CallOffences(CountCalls(t, agent, calls, i), agent, calls[i], Churns(calls, i), name);
  }

  lemma {:induction false} CountCallsOffences(t: Totals, agent: string, calls: seq<ToolCall>, n: nat, name: string)
    requires n <= |calls|
    ensures OffencesOf(CountCalls(t, agent, calls, n).inefficiency, name) ==
            OffencesOf(t.inefficiency, name).Plus(OffencesIn(calls, n, name))
  {
    var start := OffencesOf(t.inefficiency, name);
    if n == 0 {
      OffencesAssociative(start, NO_OFFENCES, NO_OFFENCES);
    } else {
      var i := n - 1;
      CountCallsOffences(t, agent, calls, i, name);
      OneMoreOffence(t, agent, calls, i, name);
      OffencesAssociative(start, OffencesIn(calls, i, name), OffencesAt(calls[i], Repeats(calls, i), name));
    }
  }

  // Each callout counts, under the tool's own name, the calls that failed, that returned at least
  // 20000 characters, that fanned out and that churned; deferrals and their tokens are counted over
  // all names.
  lemma {:induction false} CalloutsMeaning(ss: seq<Session>, name: string)
    ensures OffencesOf(AbsorbAll(ss).inefficiency, name) == OffencesInAll(ss, name)
  {
    if ss != [] {
      var init, s := ss[..|ss| - 1], ss[|ss| - 1];
      var start := OpenSession(AbsorbAll(init), s.agent, s.result);
      CalloutsMeaning(init, name);
      CountCallsOffences(start, s.agent, s.result.calls, |s.result.calls|, name);
    }
  }
}
