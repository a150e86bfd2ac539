/** Pricing of probe calls (src/toolbench/probe.py): which calls are hits and which turns isolate one. */
module Probe {
  import opened Options
  import opened Transcript
  import opened ToolJoin
  import opened JoinLaws
  import opened CallRecords
  import opened ClaudeParser
  import opened ParseLaws

  // The probe reads transcripts with the raw input kept and the turns tracked.
  const PROBE_MODE := Mode(true, true, false)

  datatype ProbeHit = ProbeHit(name: string, serializedInput: string, turnKey: string, call: ToolCall)

  function Hits(calls: seq<ToolCall>): seq<ProbeHit> {
    if calls == [] then []
    else
      var c := calls[|calls| - 1];
      var rest := Hits(calls[..|calls| - 1]);
      if c.rawInput.Some? && c.turnKey.Some?
      then rest + [ProbeHit(c.name, c.rawInput.value, c.turnKey.value, c)]
      else rest
  }

  predicate Isolable(turn: TurnStats) {
    turn.toolUses == 1 && !turn.nonToolOutput
  }

  lemma HitAt(calls: seq<ToolCall>, i: nat)
    requires i < |calls|
    requires forall c :: c in calls ==> c.rawInput.Some? && c.turnKey.Some?
    ensures |Hits(calls)| == |calls|
    ensures Hits(calls)[i].call == calls[i] && Some(Hits(calls)[i].turnKey) == calls[i].turnKey
  {
    var n := |calls| - 1;
    if n > 0 {
      HitAt(calls[..n], if i < n then i else 0);
    }
  }

  function WithoutRawInput(): PendingCall -> bool { (u: PendingCall) => u.rawInput.None? }

  lemma UsesKeepRawInput(blocks: seq<Block>, entry: Entry)
    ensures CountUses(UseEvents(blocks, entry, PROBE_MODE), WithoutRawInput()) == 0
  {
    if blocks != [] {
      var init, b := blocks[..|blocks| - 1], blocks[|blocks| - 1];
      UsesKeepRawInput(init, entry);
      if Enqueues(b, entry, PROBE_MODE) {
        CountUsesAppend(UseEvents(init, entry, PROBE_MODE),
                        [Use(b.id.value, CallOf(b, entry, PROBE_MODE))], WithoutRawInput());
      }
    }
  }

  lemma EventsKeepRawInput(es: seq<Entry>)
    ensures CountUses(Events(es, PROBE_MODE), WithoutRawInput()) == 0
  {
    if es != [] {
      var init, e := es[..|es| - 1], es[|es| - 1];
      EventsKeepRawInput(init);
      SplitEntry(init, e, PROBE_MODE, WithoutRawInput());
      UsesKeepRawInput(Content(e).GetOr([]), e);
    }
  }

  // In probe mode the filter for raw input and turn key drops nothing: every call is a hit.
  lemma {:induction false} EveryCallIsAHit(lines: seq<Line<Entry>>, i: nat)
    requires ParseSpec(lines, PROBE_MODE).Parsed?
    requires i < |ParseSpec(lines, PROBE_MODE).value.calls|
    ensures var calls := ParseSpec(lines, PROBE_MODE).value.calls;
            && |Hits(calls)| == |calls|
            && Hits(calls)[i].call == calls[i] && Some(Hits(calls)[i].turnKey) == calls[i].turnKey
  {
    var calls := ParseSpec(lines, PROBE_MODE).value.calls;
    var events := Events(Records(lines), PROBE_MODE);
    CallsFitTurns(lines, PROBE_MODE, "");
    EventsKeepRawInput(Records(lines));
    JoinConserves(events, WithoutRawInput());
    forall k | 0 <= k < |calls|
      ensures calls[k].rawInput.Some?
    {
      FinishAt(Stream(events), k);
      if Stream(events)[k].use.rawInput.None? {
        CountAtLeastOne(Stream(events), k, WithoutRawInput());
      }
    }
    HitAt(calls, i);
  }

  // A hit whose turn is isolable is the only call of the whole session billed to that turn, so the
  // response's output tokens price exactly that call.
  lemma {:induction false} IsolableTurnPricesOneCall(lines: seq<Line<Entry>>, i: nat, j: nat)
    requires ParseSpec(lines, PROBE_MODE).Parsed?
    requires var r := ParseSpec(lines, PROBE_MODE).value;
             && i < |r.calls| && j < |r.calls|
             && r.calls[i].turnKey == r.calls[j].turnKey
    ensures var r := ParseSpec(lines, PROBE_MODE).value;
            && r.calls[i].turnKey.Some? && r.calls[i].turnKey.value in r.turns
            && (Isolable(r.turns[r.calls[i].turnKey.value]) ==> i == j)
  {
    var r := ParseSpec(lines, PROBE_MODE).value;
    CallsFitTurns(lines, PROBE_MODE, r.calls[i].turnKey.GetOr(""));
    var key := r.calls[i].turnKey.value;
    if i < j {
      TwoOfTurn(r.calls, key, i, j);
    } else if j < i {
      TwoOfTurn(r.calls, key, j, i);
    }
  }

  /******* When a turn isolates a call *******/

  lemma {:induction false} SomeUse(blocks: seq<Block>)
    ensures ToolUses(blocks) == 0 <==> forall i :: 0 <= i < |blocks| ==> !blocks[i].ToolUse?
  {
    if blocks != [] {
      SomeUse(blocks[..|blocks| - 1]);
    }
  }

  ghost predicate OnlyUse(blocks: seq<Block>, i: nat) {
    i < |blocks| && blocks[i].ToolUse? && forall j :: 0 <= j < |blocks| && j != i ==> !blocks[j].ToolUse?
  }

  lemma {:induction false} OneUse(blocks: seq<Block>)
    ensures ToolUses(blocks) == 1 <==> exists i: nat :: OnlyUse(blocks, i)
  {
    if blocks != [] {
      var n := |blocks| - 1;
      var init := blocks[..n];
      OneUse(init);
      SomeUse(init);
      if i: nat :| OnlyUse(init, i) {
        assert !blocks[n].ToolUse? ==> OnlyUse(blocks, i);
      }
      if i: nat :| OnlyUse(blocks, i) {
        assert i < n ==> OnlyUse(init, i);
      }
      assert (forall j :: 0 <= j < n ==> !init[j].ToolUse?) && blocks[n].ToolUse? ==> OnlyUse(blocks, n);
    }
  }

  // The blocks of an entry that is billed to the turn.
  function TurnBlocks(e: Entry, key: string): seq<Block> {
    if WrittenByAssistant(e) && e.requestId.Some? && key == "req:" + e.requestId.value
    then e.message.value.content.value else []
  }

  // The blocks of the turn, entry after entry.
  function AllBlocks(es: seq<Entry>, key: string): seq<Block> {
    if es == [] then [] else AllBlocks(es[..|es| - 1], key) + TurnBlocks(es[|es| - 1], key)
  }

  predicate Visible(b: Block) {
    b == Text(true) || b == Thinking
  }

  lemma {:induction false} CountMeaning(stats: TurnStats, blocks: seq<Block>)
    ensures CountBlocks(stats, blocks).toolUses == stats.toolUses + ToolUses(blocks)
    ensures CountBlocks(stats, blocks).nonToolOutput <==> stats.nonToolOutput || exists b :: b in blocks && Visible(b)
  {
    if blocks != [] {
      var init, last := blocks[..|blocks| - 1], blocks[|blocks| - 1];
      CountMeaning(stats, init);
      assert blocks == init + [last];
      assert forall b :: b in blocks <==> b in init || b == last;
      assert Visible(last) <==> last == Text(true) || last.Thinking?;
      assert last in blocks;
    }
  }

  lemma {:induction false} CountAppend(stats: TurnStats, a: seq<Block>, b: seq<Block>)
    ensures CountBlocks(stats, a + b) == CountBlocks(CountBlocks(stats, a), b)
  {
    if b == [] {
      assert a + b == a;
    } else {
      CountAppend(stats, a, b[..|b| - 1]);
      assert (a + b)[..|a + b| - 1] == a + b[..|b| - 1];
    }
  }

  lemma TrackedBlocks(turns: map<string, TurnStats>, e: Entry, key: string)
    requires !NotKeyed(e, PROBE_MODE)
    ensures StatsAt(Track(turns, e, PROBE_MODE), key) == CountBlocks(StatsAt(turns, key), TurnBlocks(e, key))
  {
    WithoutRequestIs(e);
    if IsAssistant(e) {
      var own := "req:" + e.requestId.value;
      assert TurnKey(e, PROBE_MODE) == Some(own);
      assert Track(turns, e, PROBE_MODE) == turns[own := CountBlocks(StatsAt(turns, own), TurnBlocks(e, own))];
    }
  }

  lemma {:induction false} TurnOfBlocks(es: seq<Entry>, key: string)
    requires !Unkeyable(es, PROBE_MODE)
    ensures StatsAt(Turns(es, PROBE_MODE), key) == CountBlocks(TurnStats(0, false), AllBlocks(es, key))
  {
    if es != [] {
      var init, last := es[..|es| - 1], es[|es| - 1];
      assert es == init + [last];
      UnkeyableStep(init, last, PROBE_MODE);
      TurnOfBlocks(init, key);
      TrackedBlocks(Turns(init, PROBE_MODE), last, key);
      CountAppend(TurnStats(0, false), AllBlocks(init, key), TurnBlocks(last, key));
    }
  }

  // A turn isolates a call exactly when, in all that the assistant wrote under its request, one block is a
  // tool use and none is visible text or thinking.
  lemma {:induction false} IsolableMeaning(lines: seq<Line<Entry>>, key: string)
    requires ParseSpec(lines, PROBE_MODE).Parsed? && key in ParseSpec(lines, PROBE_MODE).value.turns
    ensures var blocks := AllBlocks(Records(lines), key);
            Isolable(ParseSpec(lines, PROBE_MODE).value.turns[key]) <==>
            (exists i: nat :: OnlyUse(blocks, i)) && forall b :: b in blocks ==> b != Text(true) && b != Thinking
  {
    var blocks := AllBlocks(Records(lines), key);
    TurnOfBlocks(Records(lines), key);
    CountMeaning(TurnStats(0, false), blocks);
    OneUse(blocks);
  }
}
