/** What a finished Claude parse guarantees to its readers. */
module ParseLaws {
  import opened Options
  import opened Transcript
  import opened Sums
  import opened ToolJoin
  import opened JoinLaws
  import opened CallRecords
  import opened UsageLedger
  import opened ClaudeParser

  /******* The ledger invariant the reducer builds on *******/

  function SessionTotal(r: ParseResult): BranchUsage {
    BranchUsage(r.cacheRead.GetOr(0), r.cacheCreation.GetOr(0), r.inputTokens, r.outputTokens, r.usageMessages)
  }

  ghost predicate KeepsLedger(r: ParseResult) {
    Partitions(SessionTotal(r), r.usageByBranch, r.detachedByCwd)
  }

  lemma NoBucketsWithoutMessages(m: map<string, BranchUsage>)
    requires forall k :: k in m ==> m[k].messages >= 1
    ensures Sum(m, Messages) >= 0
    ensures Sum(m, Messages) == 0 ==> m == map[]
    decreases |m|
  {
    if m != map[] {
      var k := PickKey(m);
      SmallerWithout(m, k);
      NoBucketsWithoutMessages(m - {k});
    }
  }

  // Every parse hands on a ledger whose buckets partition the session, also when it billed nothing.
  lemma {:induction false} ParseKeepsLedger(lines: seq<Line<Entry>>, mode: Mode)
    requires ParseSpec(lines, mode).Parsed?
    ensures KeepsLedger(ParseSpec(lines, mode).value)
    ensures ParseSpec(lines, mode).value.usageByBranch == Ledger(Records(lines)).byBranch
    ensures SessionTotal(ParseSpec(lines, mode).value) == ChargedSum(Records(lines), Any())
  {
    var t := Ledger(Records(lines));
    LedgerPartitions(Records(lines));
    LedgerMeaning(Records(lines), DETACHED_BRANCH, "");
    if t.total.messages == 0 {
      NoBucketsWithoutMessages(t.byBranch);
      assert Bucket(t.byBranch, DETACHED_BRANCH) == NO_USAGE;
      NoBucketsWithoutMessages(t.detachedByCwd);
    }
  }

  /******* The join, as a reader of the result sees it *******/

  // Enqueued uses are emitted or were overwritten while pending. When no id repeats there is one call
  // for every use: first the answered ones in result order, then the orphans in arrival order.
  lemma {:induction false} ParseJoins(lines: seq<Line<Entry>>, mode: Mode)
    requires ParseSpec(lines, mode).Parsed?
    ensures var events := Events(Records(lines), mode);
            var calls := ParseSpec(lines, mode).value.calls;
            && CountUses(events, Every()) == |calls| + CountOverwritten(events, Every())
            && (DistinctUseIds(events) ==>
                  && calls == FinishAll(AnsweredCalls(events, |events|)) + FinishAll(OrphanCalls(events, |events|))
                  && |calls| == CountUses(events, Every()))
  {
    var events := Events(Records(lines), mode);
    JoinConserves(events, Every());
    CountEvery(Stream(events));
    if DistinctUseIds(events) {
      DistinctJoin(events, Every());
      FinishAppend(AnsweredCalls(events, |events|), OrphanCalls(events, |events|));
    }
  }

  // The calls still pending at the end come out in dictionary order, each without a result.
  lemma {:induction false} DrainedHaveNoResult(p: Pending<PendingCall>, i: nat)
    requires p.Valid() && i < |p.keys|
    ensures |FinishAll(Drain(p))| == |p.keys|
    ensures var c, call := FinishAll(Drain(p))[i], p.calls[p.keys[i]];
            && c.name == call.name && c.inputChars == call.inputChars && c.turnKey == call.turnKey
            && c.noResult && c.outputChars == 0 && !c.error && c.resultSource == None
  {
    FinishAt(Drain(p), i);
  }

  // The parse is refused exactly when turns are tracked and what the assistant wrote lacks a request id.
  lemma RefusalMeaning(lines: seq<Line<Entry>>, mode: Mode)
    ensures ParseSpec(lines, mode).TurnKeyError? <==>
            mode.trackTurns && exists e :: e in Records(lines) && WrittenByAssistant(e) && WithoutRequest(e)
    ensures ParseSpec(lines, mode).Parsed? ==> ParseSpec(lines, mode).value.malformed == MalformedCount(lines)
  {
    forall e: Entry
      ensures IsAssistant(e) && LacksTurnKey(e) <==> WrittenByAssistant(e) && WithoutRequest(e)
    {
      WithoutRequestIs(e);
    }
  }

  predicate WithoutRequest(e: Entry) {
    e.requestId == None || e.requestId == Some("")
  }

  lemma WithoutRequestIs(e: Entry)
    ensures IsAssistant(e) <==> WrittenByAssistant(e)
    ensures LacksTurnKey(e) <==> WithoutRequest(e)
  {}

  predicate WrittenByAssistant(e: Entry) {
    !e.userType && e.message.Some? && !e.message.value.userRole && e.message.value.content.Some?
  }

  /******* Turns: what each billing unit emitted *******/

  function ToolUses(blocks: seq<Block>): nat {
    if blocks == [] then 0
    else ToolUses(blocks[..|blocks| - 1]) + if blocks[|blocks| - 1].ToolUse? then 1 else 0
  }

  // The tool_use blocks of all entries billed to one turn.
  function TurnToolUses(es: seq<Entry>, mode: Mode, key: string): nat {
    if es == [] then 0
    else
      var e := es[|es| - 1];
      TurnToolUses(es[..|es| - 1], mode, key) +
      if TurnKey(e, mode) == Some(key) then ToolUses(Content(e).GetOr([])) else 0
  }

  lemma CountBlocksUses(stats: TurnStats, blocks: seq<Block>)
    ensures CountBlocks(stats, blocks).toolUses == stats.toolUses + ToolUses(blocks)
  {
    if blocks != [] {
      CountBlocksUses(stats, blocks[..|blocks| - 1]);
    }
  }

  lemma {:induction false} TurnMeaning(es: seq<Entry>, mode: Mode, key: string)
    ensures StatsAt(Turns(es, mode), key).toolUses == TurnToolUses(es, mode, key)
    ensures key in Turns(es, mode) <==> exists e :: e in es && TurnKey(e, mode) == Some(key)
  {
    if es != [] {
      var n := |es| - 1;
      TurnMeaning(es[..n], mode, key);
      assert es == es[..n] + [es[n]];
      CountBlocksUses(StatsAt(Turns(es[..n], mode), key), Content(es[n]).GetOr([]));
    }
  }

  function OfTurn(key: string): PendingCall -> bool { (u: PendingCall) => u.turnKey == Some(key) }

  function OutsideTurns(keys: set<string>): PendingCall -> bool {
    (u: PendingCall) => u.turnKey.None? || u.turnKey.value !in keys
  }

  lemma CountUsesAppend<U, R>(a: seq<Event<U, R>>, b: seq<Event<U, R>>, p: U -> bool)
    ensures CountUses(a + b, p) == CountUses(a, p) + CountUses(b, p)
  {
    if b == [] {
      assert a + b == a;
    } else {
      CountUsesAppend(a, b[..|b| - 1], p);
      assert (a + b)[..|a + b| - 1] == a + b[..|b| - 1];
    }
  }

  lemma ResultsHoldNoUse(entry: Entry, rs: seq<Option<Block>>, p: PendingCall -> bool)
    requires forall r :: r in rs && r.Some? ==> r.value.ToolResult?
    ensures CountUses(ResultEvents(entry, rs), p) == 0
  {
    if rs != [] {
      var init, last := rs[..|rs| - 1], rs[|rs| - 1];
      ResultsHoldNoUse(entry, init, p);
      CountUsesAppend(ResultEvents(entry, init), ResultEvent(entry, last), p);
    }
  }

  // The uses of one entry all carry its turn key, and there are no more of them than blocks.
  lemma EntryUses(blocks: seq<Block>, entry: Entry, mode: Mode, p: PendingCall -> bool)
    ensures CountUses(UseEvents(blocks, entry, mode), p) <= ToolUses(blocks)
    ensures (forall u: PendingCall :: u.turnKey == TurnKey(entry, mode) ==> !p(u)) ==>
              CountUses(UseEvents(blocks, entry, mode), p) == 0
    ensures mode.trackTurns && !IsAssistant(entry) ==> UseEvents(blocks, entry, mode) == []
  {
    if blocks != [] {
      var init, b := blocks[..|blocks| - 1], blocks[|blocks| - 1];
      EntryUses(init, entry, mode, p);
      if Enqueues(b, entry, mode) {
        CountUsesAppend(UseEvents(init, entry, mode), [Use(b.id.value, CallOf(b, entry, mode))], p);
        assert CallOf(b, entry, mode).turnKey == TurnKey(entry, mode);
      }
    }
  }

  lemma {:induction false} UsesFitTurn(es: seq<Entry>, mode: Mode, key: string)
    ensures CountUses(Events(es, mode), OfTurn(key)) <= TurnToolUses(es, mode, key)
  {
    if es != [] {
      var init, e := es[..|es| - 1], es[|es| - 1];
      UsesFitTurn(init, mode, key);
      SplitEntry(init, e, mode, OfTurn(key));
      EntryUses(Content(e).GetOr([]), e, mode, OfTurn(key));
    }
  }

  lemma SplitEntry(init: seq<Entry>, e: Entry, mode: Mode, p: PendingCall -> bool)
    ensures CountUses(Events(init, mode) + EntryEvents(e, mode), p) ==
            CountUses(Events(init, mode), p) + CountUses(UseEvents(Content(e).GetOr([]), e, mode), p)
  {
    CountUsesAppend(Events(init, mode), EntryEvents(e, mode), p);
    CountUsesAppend(UseEvents(Content(e).GetOr([]), e, mode), ResultEvents(e, ResultSources(e)), p);
    ResultsHoldNoUse(e, ResultSources(e), p);
  }

  lemma {:induction false} UsesStayInTurns(es: seq<Entry>, mode: Mode, keys: set<string>)
    requires mode.trackTurns && Turns(es, mode).Keys <= keys
    ensures CountUses(Events(es, mode), OutsideTurns(keys)) == 0
  {
    if es != [] {
      var init, e := es[..|es| - 1], es[|es| - 1];
      UsesStayInTurns(init, mode, keys);
      SplitEntry(init, e, mode, OutsideTurns(keys));
      EntryUses(Content(e).GetOr([]), e, mode, OutsideTurns(keys));
    }
  }

  function CallsOfTurn(calls: seq<ToolCall>, key: string): nat {
    if calls == [] then 0
    else CallsOfTurn(calls[..|calls| - 1], key) + if calls[|calls| - 1].turnKey == Some(key) then 1 else 0
  }

  lemma CallsOfTurnCounts(cs: seq<Emitted<PendingCall, ResultInfo>>, key: string)
    ensures CallsOfTurn(FinishAll(cs), key) == CountCalls(cs, OfTurn(key))
  {
    if cs != [] {
      var n := |cs| - 1;
      CallsOfTurnCounts(cs[..n], key);
      assert FinishAll(cs)[..n] == FinishAll(cs[..n]);
    }
  }

  lemma CountAtLeastOne<U, R>(cs: seq<Emitted<U, R>>, i: nat, p: U -> bool)
    requires i < |cs| && p(cs[i].use)
    ensures CountCalls(cs, p) >= 1
  {
    if i < |cs| - 1 {
      CountAtLeastOne(cs[..|cs| - 1], i, p);
    }
  }

  lemma EveryCallHasTurn(es: seq<Entry>, mode: Mode, i: nat)
    requires mode.trackTurns && i < |Stream(Events(es, mode))|
    ensures var key := Stream(Events(es, mode))[i].use.turnKey; key.Some? && key.value in Turns(es, mode)
  {
    var keys := Turns(es, mode).Keys;
    UsesStayInTurns(es, mode, keys);
    JoinConserves(Events(es, mode), OutsideTurns(keys));
    if OutsideTurns(keys)(Stream(Events(es, mode))[i].use) {
      CountAtLeastOne(Stream(Events(es, mode)), i, OutsideTurns(keys));
    }
  }

  lemma TurnsHoldCalls(es: seq<Entry>, mode: Mode, key: string)
    ensures CallsOfTurn(FinishAll(Stream(Events(es, mode))), key) <= StatsAt(Turns(es, mode), key).toolUses
  {
    JoinConserves(Events(es, mode), OfTurn(key));
    CallsOfTurnCounts(Stream(Events(es, mode)), key);
    UsesFitTurn(es, mode, key);
    TurnMeaning(es, mode, key);
  }

  // Under turn tracking every call is billed to a turn that was tracked, and a turn is never billed
  // for more calls than the tool_use blocks it was seen to emit.
  lemma {:induction false} CallsFitTurns(lines: seq<Line<Entry>>, mode: Mode, key: string)
    requires mode.trackTurns && ParseSpec(lines, mode).Parsed?
    ensures var r := ParseSpec(lines, mode).value;
            && (forall i :: 0 <= i < |r.calls| ==> r.calls[i].turnKey.Some? && r.calls[i].turnKey.value in r.turns)
            && CallsOfTurn(r.calls, key) <= StatsAt(r.turns, key).toolUses
  {
    var es := Records(lines);
    var r := ParseSpec(lines, mode).value;
    TurnsHoldCalls(es, mode, key);
    forall i | 0 <= i < |r.calls|
      ensures r.calls[i].turnKey.Some? && r.calls[i].turnKey.value in r.turns
    {
      FinishAt(Stream(Events(es, mode)), i);
      EveryCallHasTurn(es, mode, i);
    }
  }

  lemma TwoOfTurn(calls: seq<ToolCall>, key: string, i: nat, j: nat)
    requires i < j < |calls| && calls[i].turnKey == calls[j].turnKey == Some(key)
    ensures CallsOfTurn(calls, key) >= 2
  {
    var n := |calls| - 1;
    if j < n {
      TwoOfTurn(calls[..n], key, i, j);
    } else {
      OneOfTurn(calls[..n], key, i);
    }
  }

  lemma OneOfTurn(calls: seq<ToolCall>, key: string, i: nat)
    requires i < |calls| && calls[i].turnKey == Some(key)
    ensures CallsOfTurn(calls, key) >= 1
  {
    if i < |calls| - 1 {
      OneOfTurn(calls[..|calls| - 1], key, i);
    }
  }
}
