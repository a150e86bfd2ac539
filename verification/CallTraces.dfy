/** Every call of a Claude parse, traced back to the blocks of the transcript it was read from. */
module CallTraces {
  import opened Options
  import opened Transcript
  import opened ToolJoin
  import opened CallRecords
  import opened ClaudeParser

  /******* Where an emitted call comes from in the stream *******/

  // Event k opened the call, and for an answered call event j, after it, answered it.
  ghost predicate StemsFrom<U, R>(es: seq<Event<U, R>>, c: Emitted<U, R>, k: nat, j: nat) {
    && k < |es| && es[k].Use? && es[k].use == c.use
    && (c.Joined? ==> k < j < |es| && es[j].Result? && es[j].id == es[k].id && es[j].res == c.res)
  }

  lemma JoinedStems<U, R>(es: seq<Event<U, R>>, n: nat, i: nat)
    requires n <= |es| && i < |JoinedCalls(es, n)|
    ensures JoinedCalls(es, n)[i].Joined?
    ensures exists k: nat, j: nat :: StemsFrom(es, JoinedCalls(es, n)[i], k, j)
  {
    if i < |JoinedCalls(es, n - 1)| {
      JoinedStems(es, n - 1, i);
    } else {
      assert StemsFrom(es, JoinedCalls(es, n)[i], LastWith(es, n - 1, es[n - 1].id), n - 1);
    }
  }

  lemma UnmatchedStems<U, R>(es: seq<Event<U, R>>, n: nat, i: nat)
    requires n <= |es| && i < |UnmatchedCalls(es, n)|
    ensures UnmatchedCalls(es, n)[i].Unmatched?
    ensures exists k: nat :: StemsFrom(es, UnmatchedCalls(es, n)[i], k, 0)
  {
    if i < |UnmatchedCalls(es, n - 1)| {
      UnmatchedStems(es, n - 1, i);
    } else {
      assert StemsFrom(es, UnmatchedCalls(es, n)[i], LastWith(es, |es|, es[n - 1].id), 0);
    }
  }

  lemma {:induction false} EmittedStems<U, R>(es: seq<Event<U, R>>, i: nat)
    requires i < |Stream(es)|
    ensures exists k: nat, j: nat :: StemsFrom(es, Stream(es)[i], k, j)
  {
    StreamIsOffline(es);
    var joined := JoinedCalls(es, |es|);
    if i < |joined| {
      JoinedStems(es, |es|, i);
      assert Stream(es)[i] == joined[i];
      var k: nat, j: nat :| StemsFrom(es, joined[i], k, j);
      assert StemsFrom(es, Stream(es)[i], k, j);
    } else {
      assert Stream(es)[i] == UnmatchedCalls(es, |es|)[i - |joined|];
      UnmatchedStems(es, |es|, i - |joined|);
      var k: nat :| StemsFrom(es, UnmatchedCalls(es, |es|)[i - |joined|], k, 0);
      assert StemsFrom(es, Stream(es)[i], k, 0);
    }
  }

  /******* Which entry an event comes from *******/

  function EntryAt(es: seq<Entry>, mode: Mode, k: nat): (a: nat)
    requires k < |Events(es, mode)|
    ensures a < |es| && Events(es, mode)[k] in EntryEvents(es[a], mode)
  {
    var init := es[..|es| - 1];
    if k < |Events(init, mode)| then EntryAt(init, mode, k) else |es| - 1
  }

  lemma {:induction false} EntriesInOrder(es: seq<Entry>, mode: Mode, k: nat, j: nat)
    requires k <= j < |Events(es, mode)|
    ensures EntryAt(es, mode, k) <= EntryAt(es, mode, j)
  {
    var init := es[..|es| - 1];
    if j < |Events(init, mode)| {
      EntriesInOrder(init, mode, k, j);
    }
  }

  lemma {:induction false} UseSource(blocks: seq<Block>, entry: Entry, mode: Mode, ev: Event<PendingCall, ResultInfo>)
    requires ev in UseEvents(blocks, entry, mode)
    ensures exists b :: b in blocks && Enqueues(b, entry, mode) && ev == Use(b.id.value, CallOf(b, entry, mode))
  {
    var init, last := blocks[..|blocks| - 1], blocks[|blocks| - 1];
    assert blocks == init + [last];
    if ev in UseEvents(init, entry, mode) {
      UseSource(init, entry, mode, ev);
    }
  }

  lemma {:induction false} ResultSource(entry: Entry, rs: seq<Option<Block>>, ev: Event<PendingCall, ResultInfo>)
    requires forall r :: r in rs && r.Some? ==> r.value.ToolResult?
    requires ev in ResultEvents(entry, rs)
    ensures exists r :: r in rs && ev in ResultEvent(entry, r)
  {
    var init, last := rs[..|rs| - 1], rs[|rs| - 1];
    assert rs == init + [last];
    if ev in ResultEvents(entry, init) {
      ResultSource(entry, init, ev);
    }
  }

  lemma {:induction false} ResultBlocksAre(blocks: seq<Block>, r: Option<Block>)
    ensures r in ResultBlocks(blocks) <==> r.Some? && r.value in blocks && r.value.ToolResult?
  {
    if blocks != [] {
      var init, last := blocks[..|blocks| - 1], blocks[|blocks| - 1];
      assert blocks == init + [last];
      ResultBlocksAre(init, r);
    }
  }

  /******* What the transcript says about a call *******/

  // The block opens the call: its own name and input, the entry's session and time, the usage and the
  // model of the message it stands in.
  predicate Opens(c: ToolCall, e: Entry, b: Block, id: string, mode: Mode) {
    && b.ToolUse? && b.id == Some(id) && b.name == Some(c.name) && b.inputLen == c.inputChars
    && c.sessionId == e.sessionId.GetOr("") && c.ts == e.timestamp.GetOr("")
    && e.message.Some? && c.usage == e.message.value.usage && c.model == e.message.value.model
    && c.provenance == (if mode.hermes then AbsentByExport else if c.usage.Some? then Present else AbsentUnexpected)
    && c.rawInput == (if mode.keepRawInput then Some(b.rawInput) else None)
    && (mode.trackTurns ==>
          && !e.userType && !e.message.value.userRole
          && e.requestId.Some? && c.turnKey == Some("req:" + e.requestId.value))
  }

  // A result block of the entry carries the id, or lacks one and the entry carries it. The block's own
  // content comes before the entry's.
  predicate AnsweredByBlock(c: ToolCall, f: Entry, b: Block, id: string) {
    && b.ToolResult? && c.error == b.isError
    && (b.toolUseId == Some(id) || (b.toolUseId.None? && f.toolUseID == Id(id)))
    && (if b.content.Some? then c.outputChars == b.content.value && c.resultSource == Some("block_local")
        else HasTopLevelPayload(c, f))
  }

  predicate HasTopLevelPayload(c: ToolCall, f: Entry) {
    if f.toolUseResult.Some? then c.outputChars == f.toolUseResult.value && c.resultSource == Some("top_level")
    else c.outputChars == 4 && c.resultSource == None
  }

  ghost predicate Answered(c: ToolCall, f: Entry, id: string) {
    var blocks := Content(f).GetOr([]);
    || (exists b :: b in blocks && AnsweredByBlock(c, f, b, id))
    || (!c.error && f.toolUseID == Id(id) && HasTopLevelPayload(c, f) && forall b :: b in blocks ==> !b.ToolResult?)
  }

  ghost predicate OpenedIn(c: ToolCall, e: Entry, id: string, mode: Mode) {
    exists b :: b in Content(e).GetOr([]) && Opens(c, e, b, id, mode)
  }

  // A call opened in entry a and, unless it has no result, answered in the same or a later entry.
  ghost predicate Traced(c: ToolCall, es: seq<Entry>, mode: Mode, a: nat, f: nat, id: string) {
    && a < |es| && OpenedIn(c, es[a], id, mode)
    && (if c.noResult then c.outputChars == 0 && !c.error && c.resultSource == None
        else a <= f < |es| && Answered(c, es[f], id))
  }

  lemma UseOpens(entry: Entry, mode: Mode, ev: Event<PendingCall, ResultInfo>, c: Emitted<PendingCall, ResultInfo>)
    requires ev in EntryEvents(entry, mode) && ev.Use? && ev.use == c.use
    requires mode.trackTurns && IsAssistant(entry) ==> entry.requestId.Some?
    ensures OpenedIn(Finish(c), entry, ev.id, mode)
  {
    var blocks := Content(entry).GetOr([]);
    if ev in ResultEvents(entry, ResultSources(entry)) {
      ResultSource(entry, ResultSources(entry), ev);
      assert false;
    }
    UseSource(blocks, entry, mode, ev);
    var b :| b in blocks && Enqueues(b, entry, mode) && ev == Use(b.id.value, CallOf(b, entry, mode));
    assert Opens(Finish(c), entry, b, ev.id, mode);
  }

  lemma ResultAnswers(entry: Entry, mode: Mode, ev: Event<PendingCall, ResultInfo>, c: Emitted<PendingCall, ResultInfo>)
    requires ev in EntryEvents(entry, mode) && ev.Result? && c.Joined? && ev.res == c.res
    ensures Answered(Finish(c), entry, ev.id)
  {
    var blocks := Content(entry).GetOr([]);
    if ev in UseEvents(blocks, entry, mode) {
      UseSource(blocks, entry, mode, ev);
      assert false;
    }
    ResultSource(entry, ResultSources(entry), ev);
    var r :| r in ResultSources(entry) && ev in ResultEvent(entry, r);
    if r.Some? {
      ResultBlocksAre(blocks, r);
      assert AnsweredByBlock(Finish(c), entry, r.value, ev.id);
    } else {
      forall b | b in blocks
        ensures !b.ToolResult?
      {
        ResultBlocksAre(blocks, Some(b));
      }
    }
  }

  // Every call of a parse was opened by a tool_use block of some entry, and answered, if it was, by
  // the same or a later entry, with the lengths, the error and the identity those records hold.
  lemma {:induction false} EveryCallIsTraced(lines: seq<Line<Entry>>, mode: Mode, i: nat)
    requires ParseSpec(lines, mode).Parsed? && i < |ParseSpec(lines, mode).value.calls|
    ensures exists a: nat, f: nat, id :: Traced(ParseSpec(lines, mode).value.calls[i], Records(lines), mode, a, f, id)
  {
    var es := Records(lines);
    var events := Events(es, mode);
    var c := Stream(events)[i];
    FinishAt(Stream(events), i);
    EmittedStems(events, i);
    var k: nat, j: nat :| StemsFrom(events, c, k, j);
    var a := EntryAt(es, mode, k);
    assert es[a] in es;
    UseOpens(es[a], mode, events[k], c);
    var f := if c.Joined? then EntryAt(es, mode, j) else 0;
    if c.Joined? {
      EntriesInOrder(es, mode, k, j);
      ResultAnswers(es[f], mode, events[j], c);
    }
    assert Traced(Finish(c), es, mode, a, f, events[k].id);
  }
}
