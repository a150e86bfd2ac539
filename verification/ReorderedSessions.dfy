/**
 The reducer's numbers do not depend on the order in which sessions arrive (src/toolbench/reducer.py).

 The counters and the run totals are folds whose steps commute, one session after the other or
 the other way round.
 */
module ReorderedSessions {
  import opened Transcript
  import opened CallMarginals
  import opened RunAttribution
  import opened RunManifest
  import opened OrderInvariance

  /******* The counters *******/

  lemma AddToCommutes<K>(m: map<K, ToolStats>, k: K, x: ToolStats, l: K, y: ToolStats)
    ensures AddTo(AddTo(m, k, x), l, y) == AddTo(AddTo(m, l, y), k, x)
  {
    assert At(m, k).Plus(x).Plus(y) == At(m, k).Plus(y).Plus(x);
  }

  lemma BumpIfCommutes(m: map<string, nat>, k: string, a: bool, l: string, b: bool)
    ensures BumpIf(BumpIf(m, k, a), l, b) == BumpIf(BumpIf(m, l, b), k, a)
  {}

  lemma CalloutsCommute(i: Inefficiency, c: ToolCall, x: bool, d: ToolCall, y: bool)
    ensures Callouts(Callouts(i, c, x), d, y) == Callouts(Callouts(i, d, y), c, x)
  {
    BumpIfCommutes(i.failuresByTool, c.name, c.error, d.name, d.error);
    BumpIfCommutes(i.oversizedByTool, c.name, c.Tokens() >= OVERSIZED_OUTPUT_TOKENS,
                   d.name, d.Tokens() >= OVERSIZED_OUTPUT_TOKENS);
    BumpIfCommutes(i.churnByTool, c.name, x, d.name, y);
    BumpIfCommutes(i.subagentByTool, c.name, c.isSubagentFanout, d.name, d.isSubagentFanout);
  }

  lemma AgentCallsCommute(m: map<string, AgentStats>, k: string, x: ToolStats, l: string, y: ToolStats)
    ensures AddAgentCall(AddAgentCall(m, k, x), l, y) == AddAgentCall(AddAgentCall(m, l, y), k, x)
  {
    if k != l {
      MapUpdatesCommute(m, k, AddAgentCall(m, k, x)[k], l, AddAgentCall(m, l, y)[l]);
    }
  }

  lemma AgentCallAndSession(m: map<string, AgentStats>, k: string, r: ParseResult, l: string, y: ToolStats)
    ensures AddAgentCall(AddAgentSession(m, k, r), l, y) == AddAgentSession(AddAgentCall(m, l, y), k, r)
  {
    if k != l {
      MapUpdatesCommute(m, k, AddAgentSession(m, k, r)[k], l, AddAgentCall(m, l, y)[l]);
    }
  }

  lemma AgentSessionsCommute(m: map<string, AgentStats>, k: string, r: ParseResult, l: string, s: ParseResult)
    ensures AddAgentSession(AddAgentSession(m, k, r), l, s) == AddAgentSession(AddAgentSession(m, l, s), k, r)
  {
    if k != l {
      MapUpdatesCommute(m, k, AddAgentSession(m, k, r)[k], l, AddAgentSession(m, l, s)[l]);
    }
  }

  lemma MapUpdatesCommute<K, V>(m: map<K, V>, k: K, v: V, l: K, w: V)
    requires k != l
    ensures m[k := v][l := w] == m[l := w][k := v]
  {}

  // A session as single steps: it is opened, then its calls are counted.
  datatype Change = Opened(agent: string, result: ParseResult) | Counted(agent: string, call: ToolCall, churn: bool)

  function Apply(t: Totals, d: Change): Totals {
    match d
    case Opened(agent, result) => OpenSession(t, agent, result)
    case Counted(agent, call, churn) => CountCall(t, agent, call, churn)
  }

  lemma CallAndCall(t: Totals, a: string, c: ToolCall, x: bool, b: string, d: ToolCall, y: bool)
    ensures CountCall(CountCall(t, a, c, x), b, d, y) == CountCall(CountCall(t, b, d, y), a, c, x)
  {
    AddToCommutes(t.tools, (a, c.name), CallStats(c), (b, d.name), CallStats(d));
    AddToCommutes(t.toolsByModel, (a, ModelOf(c), c.name), CallStats(c), (b, ModelOf(d), d.name), CallStats(d));
    CalloutsCommute(t.inefficiency, c, x, d, y);
    AgentCallsCommute(t.agents, a, CallStats(c), b, CallStats(d));
  }

  lemma OpenAndCall(t: Totals, a: string, r: ParseResult, b: string, d: ToolCall, y: bool)
    ensures CountCall(OpenSession(t, a, r), b, d, y) == OpenSession(CountCall(t, b, d, y), a, r)
  {
    AgentCallAndSession(t.agents, a, r, b, CallStats(d));
  }

  lemma OpenAndOpen(t: Totals, a: string, r: ParseResult, b: string, s: ParseResult)
    ensures OpenSession(OpenSession(t, a, r), b, s) == OpenSession(OpenSession(t, b, s), a, r)
  {
    AgentSessionsCommute(t.agents, a, r, b, s);
  }

  lemma ChangesCommute(t: Totals, d: Change, e: Change)
    ensures Apply(Apply(t, d), e) == Apply(Apply(t, e), d)
  {
    match (d, e) {
      case (Opened(a, r), Opened(b, s)) => OpenAndOpen(t, a, r, b, s);
      case (Opened(a, r), Counted(b, c, y)) => OpenAndCall(t, a, r, b, c, y);
      case (Counted(b, c, y), Opened(a, r)) => OpenAndCall(t, a, r, b, c, y);
      case (Counted(a, c, x), Counted(b, d, y)) => CallAndCall(t, a, c, x, b, d, y);
    }
  }

  function CallChanges(agent: string, calls: seq<ToolCall>, n: nat): seq<Change>
    requires n <= |calls|
  {
    if n == 0 then []
    else CallChanges(agent, calls, n - 1) + [Counted(agent, calls[n - 1], Churns(calls, n - 1))]
  }

  function Changes(s: Session): seq<Change> {
    [Opened(s.agent, s.result)] + CallChanges(s.agent, s.result.calls, |s.result.calls|)
  }

  lemma {:induction false} CallsAreChanges(t: Totals, agent: string, calls: seq<ToolCall>, n: nat)
    requires n <= |calls|
    ensures Fold(Apply, t, CallChanges(agent, calls, n)) == CountCalls(t, agent, calls, n)
  {
    if n > 0 {
      var before, i := CallChanges(agent, calls, n - 1), n - 1;
      var last := Counted(agent, calls[i], Churns(calls, i));
      CallsAreChanges(t, agent, calls, i);
      OneMoreCall(t, agent, calls, i);
      FoldLast(Apply, t, before, last);
    }
  }

  lemma OneMoreCall(t: Totals, agent: string, calls: seq<ToolCall>, i: nat)
    requires i < |calls|
    ensures var last := Counted(agent, calls[i], Churns(calls, i));
            && CountCalls(t, agent, calls, i + 1) == Apply(CountCalls(t, agent, calls, i), last)
            && CallChanges(agent, calls, i + 1) == CallChanges(agent, calls, i) + [last]
  {}

  lemma SessionIsChanges(t: Totals, s: Session)
    ensures Fold(Apply, t, Changes(s)) == Absorb(t, s)
  {
    var first := Opened(s.agent, s.result);
    FoldInPieces(Apply, t, [first], CallChanges(s.agent, s.result.calls, |s.result.calls|));
    FoldLast(Apply, t, [], first);
    assert [] + [first] == [first];
    CallsAreChanges(OpenSession(t, s.agent, s.result), s.agent, s.result.calls, |s.result.calls|);
  }

  lemma SessionsCommute(t: Totals, a: Session, b: Session)
    ensures Absorb(Absorb(t, a), b) == Absorb(Absorb(t, b), a)
  {
    SessionIsChanges(t, a);
    SessionIsChanges(t, b);
    SessionIsChanges(Absorb(t, a), b);
    SessionIsChanges(Absorb(t, b), a);
    forall u, d, e {
      ChangesCommute(u, d, e);
    }
    BlocksCommute(Apply, t, Changes(a), Changes(b));
  }

  lemma FoldIsAbsorbAll(ss: seq<Session>)
    ensures Fold(Absorb, NO_TOTALS, ss) == CallMarginals.AbsorbAll(ss)
  {}

  // Every total, leaderboard row and callout is the same for every order of the sessions.
  lemma {:induction false} TotalsIgnoreOrder(a: seq<Session>, b: seq<Session>)
    requires multiset(a) == multiset(b)
    ensures CallMarginals.AbsorbAll(a) == CallMarginals.AbsorbAll(b)
  {
    forall t, x, y {
      SessionsCommute(t, x, y);
    }
    FoldPermutation(Absorb, NO_TOTALS, a, b);
    FoldIsAbsorbAll(a);
    FoldIsAbsorbAll(b);
  }

  /******* The run totals *******/

  lemma SharesCommute(s: RunStats, x: Share, y: Share)
    ensures AbsorbShare(AbsorbShare(s, x), y) == AbsorbShare(AbsorbShare(s, y), x)
  {
    ShareIsGain(s, x);
    ShareIsGain(s, y);
    ShareIsGain(s.Plus(Gain(x)), y);
    ShareIsGain(s.Plus(Gain(y)), x);
    PlusCommutes(s, Gain(x), Gain(y));
  }

  // What a session adds does not depend on what was there before.
  function Gain(x: Share): RunStats {
    AbsorbShare(NO_RUN, x)
  }

  lemma ShareIsGain(s: RunStats, x: Share)
    ensures AbsorbShare(s, x) == s.Plus(Gain(x))
  {
    assert {} + x.branches == x.branches && {} + x.worktrees == x.worktrees;
    assert s.branchesSeen + {} == s.branchesSeen;
  }

  lemma PlusCommutes(s: RunStats, a: RunStats, b: RunStats)
    ensures s.Plus(a).Plus(b) == s.Plus(b).Plus(a)
  {
    assert s.branchesSeen + a.branchesSeen + b.branchesSeen == s.branchesSeen + b.branchesSeen + a.branchesSeen;
    assert s.worktreesSeen + a.worktreesSeen + b.worktreesSeen == s.worktreesSeen + b.worktreesSeen + a.worktreesSeen;
  }

  ghost function RunStep(m: Manifest): (RunStats, ParseResult) -> RunStats {
    (s, r) => AbsorbRun(s, r, m)
  }

  lemma FoldIsRun(rs: seq<ParseResult>, m: Manifest)
    ensures Fold(RunStep(m), NO_RUN, rs) == RunAttribution.AbsorbAll(rs, m)
  {}

  lemma {:induction false} RunIgnoresOrder(a: seq<ParseResult>, b: seq<ParseResult>, m: Manifest)
    requires multiset(a) == multiset(b)
    ensures RunAttribution.AbsorbAll(a, m) == RunAttribution.AbsorbAll(b, m)
  {
    forall s, x, y
      ensures RunStep(m)(RunStep(m)(s, x), y) == RunStep(m)(RunStep(m)(s, y), x)
    {
      SharesCommute(s, ShareOf(x, m), ShareOf(y, m));
    }
    FoldPermutation(RunStep(m), NO_RUN, a, b);
    FoldIsRun(a, m);
    FoldIsRun(b, m);
  }

  /******* The records nobody could join *******/

  function Unjoined(m: map<(string, string), nat>, k: (string, string)): nat {
    if k in m then m[k] else 0
  }

  lemma UnjoinableAt(m: map<(string, string), nat>, a: string, x: map<string, nat>, k: (string, string))
    ensures k in AddUnjoinable(m, a, x) <==> k in m || (k.0 == a && k.1 in x)
    ensures Unjoined(AddUnjoinable(m, a, x), k) == Unjoined(m, k) + if k.0 == a && k.1 in x then x[k.1] else 0
  {}

  lemma UnjoinableCommute(m: map<(string, string), nat>, a: string, x: map<string, nat>, b: string, y: map<string, nat>)
    ensures AddUnjoinable(AddUnjoinable(m, a, x), b, y) == AddUnjoinable(AddUnjoinable(m, b, y), a, x)
  {
    var p, q := AddUnjoinable(AddUnjoinable(m, a, x), b, y), AddUnjoinable(AddUnjoinable(m, b, y), a, x);
    forall k
      ensures (k in p <==> k in q) && Unjoined(p, k) == Unjoined(q, k)
    {
      UnjoinableBothAt(m, a, x, b, y, k);
    }
    SameUnjoined(p, q);
  }

  lemma UnjoinableBothAt(m: map<(string, string), nat>, a: string, x: map<string, nat>, b: string, y: map<string,
          nat>, k: (string, string))
    ensures var p, q := AddUnjoinable(AddUnjoinable(m, a, x), b, y), AddUnjoinable(AddUnjoinable(m, b, y), a, x);
            (k in p <==> k in q) && Unjoined(p, k) == Unjoined(q, k)
  {
    UnjoinableAt(m, a, x, k);
    UnjoinableAt(m, b, y, k);
    UnjoinableAt(AddUnjoinable(m, a, x), b, y, k);
    UnjoinableAt(AddUnjoinable(m, b, y), a, x, k);
  }

  lemma SameUnjoined(p: map<(string, string), nat>, q: map<(string, string), nat>)
    requires forall k :: (k in p <==> k in q) && Unjoined(p, k) == Unjoined(q, k)
    ensures p == q
  {
    assert forall k :: k in p ==> p[k] == Unjoined(p, k);
    assert forall k :: k in q ==> q[k] == Unjoined(q, k);
  }

  function UnjoinableStep(): (map<(string, string), nat>, Session) -> map<(string, string), nat> {
    (m, s: Session) => AddUnjoinable(m, s.agent, s.result.unjoinable)
  }

  lemma {:induction false} UnjoinableIgnoresOrder(a: seq<Session>, b: seq<Session>)
    requires multiset(a) == multiset(b)
    ensures Fold(UnjoinableStep(), map[], a) == Fold(UnjoinableStep(), map[], b)
  {
    forall m, x: Session, y: Session
      ensures UnjoinableStep()(UnjoinableStep()(m, x), y) == UnjoinableStep()(UnjoinableStep()(m, y), x)
    {
      UnjoinableCommute(m, x.agent, x.result.unjoinable, y.agent, y.result.unjoinable);
    }
    FoldPermutation(UnjoinableStep(), map[], a, b);
  }

  // The records of one kind that the sessions of one agent could not join.
  function UnjoinedOf(ss: seq<Session>, agent: string, kind: string): nat {
    if ss == [] then 0
    else
      var s := ss[|ss| - 1];
      var rest := UnjoinedOf(ss[..|ss| - 1], agent, kind);
      if s.agent == agent && kind in s.result.unjoinable then rest + s.result.unjoinable[kind] else rest
  }

  // The count under an agent and a kind is the sum over that agent's sessions.
  lemma {:induction false} UnjoinableMeaning(ss: seq<Session>, agent: string, kind: string)
    ensures Unjoined(Fold(UnjoinableStep(), map[], ss), (agent, kind)) == UnjoinedOf(ss, agent, kind)
  {
    if ss != [] {
      var init, s := ss[..|ss| - 1], ss[|ss| - 1];
      UnjoinableMeaning(init, agent, kind);
      UnjoinableAt(Fold(UnjoinableStep(), map[], init), s.agent, s.result.unjoinable, (agent, kind));
    }
  }
}
