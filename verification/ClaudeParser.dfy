/**
 The Claude transcript parser (src/toolbench/parsers.py, `ClaudeParser` and `HermesTraceParser`): one pass that
 joins calls to results, keeps the usage ledger and counts what each billing turn emitted.
 */
module ClaudeParser {
  import opened Options
  import opened Transcript
  import opened ToolJoin
  import opened CallRecords
  import opened UsageLedger

  // `len(str(None))`: the length a result without any payload is given.
  const NONE_LENGTH := 4

  // `keepRawInput` and `trackTurns` are the probe's switches; `hermes` is the subclass whose producer
  // never writes usage.
  datatype Mode = Mode(keepRawInput: bool, trackTurns: bool, hermes: bool)

  datatype Outcome<T> = Parsed(value: T) | TurnKeyError

  /******* What one entry contributes *******/

  function Content(entry: Entry): Option<seq<Block>> {
    match entry.message
    case None => None
    case Some(m) => m.content
  }

  predicate IsAssistant(entry: Entry) {
    entry.message.Some? && entry.message.value.content.Some? &&
    !entry.userType && !entry.message.value.userRole
  }

  predicate LacksTurnKey(entry: Entry) {
    entry.requestId.None? || entry.requestId.value == ""
  }

  // An assistant record that cannot be keyed to its billing unit.
  predicate NotKeyed(entry: Entry, mode: Mode) {
    mode.trackTurns && IsAssistant(entry) && LacksTurnKey(entry)
  }

  function TurnKey(entry: Entry, mode: Mode): Option<string> {
    if mode.trackTurns && IsAssistant(entry) then Some("req:" + entry.requestId.GetOr("")) else None
  }

  function CallOf(block: Block, entry: Entry, mode: Mode): PendingCall
    requires block.ToolUse? && block.name.Some?
  {
    var usage := if entry.message.Some? then entry.message.value.usage else None;
    PendingCall(
      block.name.value,
      block.inputLen,
      entry.sessionId.GetOr(""),
      entry.timestamp.GetOr(""),
      usage,
      if mode.hermes then AbsentByExport else if usage.Some? then Present else AbsentUnexpected,
      if entry.message.Some? then entry.message.value.model else None,
      if mode.keepRawInput then Some(block.rawInput) else None,
      TurnKey(entry, mode))
  }

  // Under turn tracking only assistant content is enqueued.
  predicate Enqueues(block: Block, entry: Entry, mode: Mode) {
    && block.ToolUse? && block.id.Some? && block.name.Some?
    && (mode.trackTurns ==> IsAssistant(entry))
  }

  function UseEvents(blocks: seq<Block>, entry: Entry, mode: Mode): seq<Event<PendingCall, ResultInfo>> {
    if blocks == [] then []
    else
      var b := blocks[|blocks| - 1];
      var rest := UseEvents(blocks[..|blocks| - 1], entry, mode);
      if Enqueues(b, entry, mode) then rest + [Use(b.id.value, CallOf(b, entry, mode))] else rest
  }

  // The join key: the block's own id, else the entry's.
  function ResultId(entry: Entry, block: Option<Block>): Option<string>
    requires block.Some? ==> block.value.ToolResult?
  {
    if block.Some? && block.value.toolUseId.Some? then block.value.toolUseId
    else if entry.toolUseID.Id? then Some(entry.toolUseID.id)
    else None
  }

  function PayloadOf(entry: Entry, block: Option<Block>): ResultInfo
    requires block.Some? ==> block.value.ToolResult?
  {
    var error := block.Some? && block.value.isError;
    if block.Some? && block.value.content.Some? then
      ResultInfo(block.value.content.value, error, Some("block_local"))
    else if entry.toolUseResult.Some? then
      ResultInfo(entry.toolUseResult.value, error, Some("top_level"))
    else ResultInfo(NONE_LENGTH, error, None)
  }

  function ResultEvent(entry: Entry, block: Option<Block>): seq<Event<PendingCall, ResultInfo>>
    requires block.Some? ==> block.value.ToolResult?
  {
    match ResultId(entry, block)
    case None => []
    case Some(id) => [Result(id, PayloadOf(entry, block))]
  }

  // The entry's result blocks; `None` stands for the shape that carries its id on the entry.
  function ResultBlocks(blocks: seq<Block>): (rs: seq<Option<Block>>)
    ensures forall r :: r in rs ==> r.Some? && r.value.ToolResult?
  {
    if blocks == [] then []
    else
      var b := blocks[|blocks| - 1];
      var rest := ResultBlocks(blocks[..|blocks| - 1]);
      if b.ToolResult? then rest + [Some(b)] else rest
  }

  function ResultSources(entry: Entry): (rs: seq<Option<Block>>)
    ensures forall r :: r in rs && r.Some? ==> r.value.ToolResult?
  {
    var rs := ResultBlocks(Content(entry).GetOr([]));
    if rs == [] && !entry.toolUseID.NoKey? then [None] else rs
  }

  function ResultEvents(entry: Entry, rs: seq<Option<Block>>): seq<Event<PendingCall, ResultInfo>>
    requires forall r :: r in rs && r.Some? ==> r.value.ToolResult?
  {
    if rs == [] then []
    else ResultEvents(entry, rs[..|rs| - 1]) + ResultEvent(entry, rs[|rs| - 1])
  }

  // All uses of an entry are enqueued before its results are joined.
  function EntryEvents(entry: Entry, mode: Mode): seq<Event<PendingCall, ResultInfo>> {
    UseEvents(Content(entry).GetOr([]), entry, mode) + ResultEvents(entry, ResultSources(entry))
  }

  function Events(es: seq<Entry>, mode: Mode): seq<Event<PendingCall, ResultInfo>> {
    if es == [] then []
    else Events(es[..|es| - 1], mode) + EntryEvents(es[|es| - 1], mode)
  }

  /******* Turns *******/

  function CountBlock(stats: TurnStats, block: Block): TurnStats {
    if block.ToolUse? then stats.(toolUses := stats.toolUses + 1)
    else stats.(nonToolOutput := stats.nonToolOutput || block == Text(true) || block.Thinking?)
  }

  function CountBlocks(stats: TurnStats, blocks: seq<Block>): TurnStats {
    if blocks == [] then stats
    else CountBlock(CountBlocks(stats, blocks[..|blocks| - 1]), blocks[|blocks| - 1])
  }

  function StatsAt(turns: map<string, TurnStats>, key: string): TurnStats {
    if key in turns then turns[key] else TurnStats(0, false)
  }

  function Track(turns: map<string, TurnStats>, entry: Entry, mode: Mode): map<string, TurnStats> {
    match TurnKey(entry, mode)
    case None => turns
    case Some(key) => turns[key := CountBlocks(StatsAt(turns, key), Content(entry).GetOr([]))]
  }

  function Turns(es: seq<Entry>, mode: Mode): map<string, TurnStats> {
    if es == [] then map[] else Track(Turns(es[..|es| - 1], mode), es[|es| - 1], mode)
  }

  /******* The parse, told as separate passes *******/

  predicate Unkeyable(es: seq<Entry>, mode: Mode) {
    mode.trackTurns && exists e :: e in es && IsAssistant(e) && LacksTurnKey(e)
  }

  function ResultOf(calls: seq<ToolCall>, malformed: nat, t: Tally, turns: map<string, TurnStats>): ParseResult {
    if t.total.messages == 0 then
      ParseResult(calls, malformed, None, None, 0, 0, 0, map[], map[], map[], turns)
    else
      ParseResult(calls, malformed, Some(t.total.read), Some(t.total.creation), t.total.input,
                  t.total.output, t.total.messages, t.byBranch, t.detachedByCwd, map[], turns)
  }

  function ParseSpec(lines: seq<Line<Entry>>, mode: Mode): Outcome<ParseResult> {
    var es := Records(lines);
    if Unkeyable(es, mode) then TurnKeyError
    else
      Parsed(ResultOf(FinishAll(Stream(Events(es, mode))), MalformedCount(lines), Ledger(es), Turns(es, mode)))
  }

  /******* The one pass the parser makes *******/

  method TrackTurn(turns: map<string, TurnStats>, entry: Entry, mode: Mode)
    returns (out: Outcome<map<string, TurnStats>>)
    ensures out == if NotKeyed(entry, mode) then TurnKeyError
                   else Parsed(Track(turns, entry, mode))
  {
    if !(mode.trackTurns && IsAssistant(entry)) {
      return Parsed(turns);
    }
    if LacksTurnKey(entry) {
      return TurnKeyError;
    }
    var blocks := Content(entry).GetOr([]);
    var key := "req:" + entry.requestId.value;
    var start := StatsAt(turns, key);
    var stats := start;
    for i := 0 to |blocks|
      invariant stats == CountBlocks(start, blocks[..i])
    {
      stats := CountBlock(stats, blocks[i]);
      assert blocks[..i + 1][..i] == blocks[..i];
    }
    assert blocks[..|blocks|] == blocks;
    return Parsed(turns[key := stats]);
  }

  method EnqueueToolUses(pending: PendingCalls<PendingCall>, entry: Entry, mode: Mode, ghost s: State<PendingCall,
          ResultInfo>)
    returns (ghost t: State<PendingCall, ResultInfo>)
    requires pending.Contents() == s.pending
    modifies pending
    ensures t == RunFrom(s, UseEvents(Content(entry).GetOr([]), entry, mode))
    ensures pending.Contents() == t.pending && t.out == s.out
  {
    var blocks := Content(entry).GetOr([]);
    t := s;
    for i := 0 to |blocks|
      invariant t == RunFrom(s, UseEvents(blocks[..i], entry, mode))
      invariant pending.Contents() == t.pending && t.out == s.out
    {
      var b := blocks[i];
      assert blocks[..i + 1][..i] == blocks[..i];
      if Enqueues(b, entry, mode) {
        ghost var use := Use(b.id.value, CallOf(b, entry, mode));
        RunInPieces(s, UseEvents(blocks[..i], entry, mode), [use]);
        t := Step(t, use);
        pending.Put(b.id.value, CallOf(b, entry, mode));
      }
    }
    assert blocks[..|blocks|] == blocks;
  }

  // What one result block does: nothing when its id is missing or not pending, else it finishes a call.
  ghost function AfterResult(s: State<PendingCall, ResultInfo>, entry: Entry,
          block: Option<Block>): State<PendingCall, ResultInfo>
    requires block.Some? ==> block.value.ToolResult?
  {
    var id := ResultId(entry, block);
    if id.Some? && id.value in s.pending.calls
    then State(s.pending.Pop(id.value),
               s.out + [Joined(s.pending.calls[id.value], PayloadOf(entry, block))])
    else s
  }

  ghost function AfterResults(s: State<PendingCall, ResultInfo>, entry: Entry,
          rs: seq<Option<Block>>): State<PendingCall, ResultInfo>
    requires forall r :: r in rs && r.Some? ==> r.value.ToolResult?
  {
    if rs == [] then s
    else AfterResult(AfterResults(s, entry, rs[..|rs| - 1]), entry, rs[|rs| - 1])
  }

  lemma AfterResultsIsRun(s: State<PendingCall, ResultInfo>, entry: Entry, rs: seq<Option<Block>>)
    requires forall r :: r in rs && r.Some? ==> r.value.ToolResult?
    ensures AfterResults(s, entry, rs) == RunFrom(s, ResultEvents(entry, rs))
  {
    if rs != [] {
      var init, last := rs[..|rs| - 1], rs[|rs| - 1];
      AfterResultsIsRun(s, entry, init);
      RunInPieces(s, ResultEvents(entry, init), ResultEvent(entry, last));
      if ResultId(entry, last).Some? {
        assert ResultEvent(entry, last)[..0] == [];
      }
    }
  }

  method JoinResult(pending: PendingCalls<PendingCall>, entry: Entry, block: Option<Block>,
          ghost s: State<PendingCall, ResultInfo>)
    returns (calls: seq<ToolCall>, ghost t: State<PendingCall, ResultInfo>)
    requires block.Some? ==> block.value.ToolResult?
    requires pending.Contents() == s.pending
    modifies pending
    ensures t == AfterResult(s, entry, block)
    ensures pending.Contents() == t.pending && FinishAll(t.out) == FinishAll(s.out) + calls
  {
    t := AfterResult(s, entry, block);
    calls := [];
    var id := ResultId(entry, block);
    if id.Some? && id.value in pending.calls {
      var call := pending.Pop(id.value);
      var done := Joined(call, PayloadOf(entry, block));
      FinishAppend(s.out, [done]);
      calls := [Finish(done)];
    }
  }

  method JoinResults(pending: PendingCalls<PendingCall>, entry: Entry, ghost s: State<PendingCall, ResultInfo>)
    returns (calls: seq<ToolCall>, ghost t: State<PendingCall, ResultInfo>)
    requires pending.Contents() == s.pending
    modifies pending
    ensures t == AfterResults(s, entry, ResultSources(entry))
    ensures pending.Contents() == t.pending && FinishAll(t.out) == FinishAll(s.out) + calls
  {
    var rs := ResultSources(entry);
    calls := [];
    t := s;
    for i := 0 to |rs|
      invariant t == AfterResults(s, entry, rs[..i])
      invariant pending.Contents() == t.pending && FinishAll(t.out) == FinishAll(s.out) + calls
    {
      assert rs[..i + 1][..i] == rs[..i];
      var joined;
      joined, t := JoinResult(pending, entry, rs[i], t);
      assert (FinishAll(s.out) + calls) + joined == FinishAll(s.out) + (calls + joined);
      calls := calls + joined;
    }
    assert rs[..|rs|] == rs;
  }

  // One record: usage, turn, uses and results, in that order. `es` are the records before it.
  method AbsorbEntry(entry: Entry, mode: Mode, pending: PendingCalls<PendingCall>, tally: UsageTally,
                     turns: map<string, TurnStats>, ghost es: seq<Entry>)
    returns (out: Outcome<map<string, TurnStats>>, calls: seq<ToolCall>)
    requires tally.Value() == Ledger(es) && turns == Turns(es, mode)
    requires pending.Contents() == Run(Events(es, mode)).pending
    modifies pending, tally
    ensures out == if NotKeyed(entry, mode) then TurnKeyError else Parsed(Turns(es + [entry], mode))
    ensures tally.Value() == Ledger(es + [entry])
    ensures out.Parsed? ==>
              var s, t := Run(Events(es, mode)), Run(Events(es + [entry], mode));
              pending.Contents() == t.pending && FinishAll(t.out) == FinishAll(s.out) + calls
  {
    EventsStep(es, entry, mode);
    calls := [];
    tally.AccountUsage(entry);
    out := TrackTurn(turns, entry, mode);
    if out.TurnKeyError? {
      return;
    }
    ghost var s := EnqueueToolUses(pending, entry, mode, Run(Events(es, mode)));
    AfterResultsIsRun(s, entry, ResultSources(entry));
    calls, s := JoinResults(pending, entry, s);
  }

  lemma UnkeyableStep(es: seq<Entry>, entry: Entry, mode: Mode)
    ensures Unkeyable(es + [entry], mode) <==> Unkeyable(es, mode) || NotKeyed(entry, mode)
  {
    assert entry in es + [entry];
  }

  // One pass over the lines computes what the separate passes of `ParseSpec` compute.
  method Parse(lines: seq<Line<Entry>>, mode: Mode) returns (result: Outcome<ParseResult>)
    ensures result == ParseSpec(lines, mode)
  {
    var pending := new PendingCalls<PendingCall>();
    var calls: seq<ToolCall> := [];
    var turns: map<string, TurnStats> := map[];
    var tally := new UsageTally();
    var malformed := 0;
    ghost var es: seq<Entry> := [];
    for i := 0 to |lines|
      invariant fresh(pending) && fresh(tally)
      invariant es == Records(lines[..i]) && malformed == MalformedCount(lines[..i])
      invariant !Unkeyable(es, mode)
      invariant tally.Value() == Ledger(es)
      invariant turns == Turns(es, mode)
      invariant pending.Contents() == Run(Events(es, mode)).pending
      invariant calls == FinishAll(Run(Events(es, mode)).out)
    {
      LineStep(lines, i);
      if lines[i].Malformed? {
        malformed := malformed + 1;
      }
      if !lines[i].Record? {
        continue;
      }
      var entry := lines[i].entry;
      var tracked, joined := AbsorbEntry(entry, mode, pending, tally, turns, es);
      UnkeyableStep(es, entry, mode);
      if tracked.TurnKeyError? {
        RecordsInclude(lines, i);
        return TurnKeyError;
      }
      es := es + [entry];
      turns, calls := tracked.value, calls + joined;
    }
    assert lines[..|lines|] == lines;
    RunValid(Events(es, mode));
    FinishAppend(Run(Events(es, mode)).out, Drain(Run(Events(es, mode)).pending));
    calls := calls + FinishAll(DrainKeys(pending.keys, pending.calls));
    if tally.usageMessages == 0 {
      return Parsed(ParseResult(calls, malformed, None, None, 0, 0, 0, map[], map[], map[], turns));
    }
    return Parsed(ParseResult(calls, malformed, Some(tally.cacheRead), Some(tally.cacheCreation),
                              tally.inputTokens, tally.outputTokens, tally.usageMessages,
                              tally.byBranch, tally.detachedByCwd, map[], turns));
  }

  lemma RecordsInclude(lines: seq<Line<Entry>>, i: nat)
    requires i < |lines| && lines[i].Record?
    ensures lines[i].entry in Records(lines)
  {
    if i < |lines| - 1 {
      RecordsInclude(lines[..|lines| - 1], i);
    }
  }

  lemma EventsStep(es: seq<Entry>, entry: Entry, mode: Mode)
    ensures (es + [entry])[..|es|] == es
    ensures var uses, results := UseEvents(Content(entry).GetOr([]), entry, mode),
                                 ResultEvents(entry, ResultSources(entry));
            Run(Events(es + [entry], mode)) == RunFrom(RunFrom(Run(Events(es, mode)), uses), results)
  {
    var uses, results := UseEvents(Content(entry).GetOr([]), entry, mode),
                         ResultEvents(entry, ResultSources(entry));
    assert (es + [entry])[..|es|] == es;
    RunInPieces(Start(), Events(es, mode), uses + results);
    RunInPieces(Run(Events(es, mode)), uses, results);
  }
}
