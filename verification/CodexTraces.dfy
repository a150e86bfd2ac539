/** Every call of a codex parse, traced back to the records of the transcript it was read from. */
module CodexTraces {
  import opened Options
  import opened Transcript
  import opened ToolJoin
  import opened CallRecords
  import opened CodexParser
  import CallTraces

  // The record a stream event comes from.
  function RecordAt(es: seq<CodexEntry>, k: nat): (a: nat)
    requires k < |Events(es)|
    ensures a < |es| && Events(es)[k] in EntryEvents(es[..a], es[a])
  {
    var init := es[..|es| - 1];
    if k < |Events(init)| then
      var a := RecordAt(init, k);
      assert init[..a] == es[..a];
      a
    else |es| - 1
  }

  // Later events come from later records.
  lemma {:induction false} RecordsInOrder(es: seq<CodexEntry>, k: nat, j: nat)
    requires k < j < |Events(es)|
    ensures RecordAt(es, k) < RecordAt(es, j)
  {
    var init := es[..|es| - 1];
    if j < |Events(init)| {
      RecordsInOrder(init, k, j);
    }
  }

  // The record opens the call: the name and the input field depend on its shape.
  predicate Opens(c: ToolCall, p: Payload, id: string) {
    && p.callId == Some(id)
    && (|| (p.kind == Some("function_call") && p.name == Some(c.name) && c.inputChars == p.argumentsLen)
        || (p.kind == Some("custom_tool_call") && p.name == Some(c.name) && c.inputChars == p.inputLen)
        || (p.kind == Some("tool_search_call") && c.name == "ToolSearch" && c.inputChars == p.argumentsLen))
  }

  predicate OpenedBy(c: ToolCall, e: CodexEntry, id: string) {
    && e.kind == Some("response_item") && e.payload.Some? && Opens(c, e.payload.value, id)
    && c.ts == e.timestamp.GetOr("") && c.usage == None && c.provenance == AbsentBySchema && !c.error
  }

  predicate AnsweredBy(c: ToolCall, e: CodexEntry, id: string) {
    && e.kind == Some("response_item") && e.payload.Some? && c.resultSource == Some("payload")
    && var p := e.payload.value;
    && p.callId == Some(id)
    && (|| (p.kind in {Some("function_call_output"), Some("custom_tool_call_output")} && c.outputChars == p.outputLen)
        || (p.kind == Some("tool_search_output") && c.outputChars == p.toolsLen))
  }

  ghost predicate Traced(c: ToolCall, es: seq<CodexEntry>, a: nat, f: nat, id: string) {
    && a < |es| && OpenedBy(c, es[a], id)
    && c.sessionId == SessionAfter(es[..a]) && c.model == ModelAfter(es[..a])
    && (if c.noResult then c.outputChars == 0 && c.resultSource == None else a < f < |es| && AnsweredBy(c, es[f], id))
  }

  lemma UseOpens(before: seq<CodexEntry>, e: CodexEntry, ev: Event<PendingCall, ResultInfo>,
        c: Emitted<PendingCall, ResultInfo>)
    requires ev in EntryEvents(before, e) && ev.Use? && ev.use == c.use
    requires c.Joined? ==> !c.res.error
    ensures OpenedBy(Finish(c), e, ev.id)
    ensures Finish(c).sessionId == SessionAfter(before) && Finish(c).model == ModelAfter(before)
  {}

  lemma ResultAnswers(before: seq<CodexEntry>, e: CodexEntry, ev: Event<PendingCall, ResultInfo>,
        c: Emitted<PendingCall, ResultInfo>)
    requires ev in EntryEvents(before, e) && ev.Result? && c.Joined? && ev.res == c.res
    ensures AnsweredBy(Finish(c), e, ev.id) && !c.res.error
  {}

  // Every call was opened by a record of a call shape, under the session and the model in force there,
  // and answered, if it was, by a later record of an output shape with the same call id.
  lemma {:induction false} EveryCallIsTraced(lines: seq<Line<CodexEntry>>, i: nat)
    requires i < |ParseSpec(lines).calls|
    ensures exists a: nat, f: nat, id :: Traced(ParseSpec(lines).calls[i], Records(lines), a, f, id)
  {
    var es := Records(lines);
    var events := Events(es);
    var c := Stream(events)[i];
    FinishAt(Stream(events), i);
    CallTraces.EmittedStems(events, i);
    var k: nat, j: nat :| CallTraces.StemsFrom(events, c, k, j);
    var a := RecordAt(es, k);
    var f := if c.Joined? then RecordAt(es, j) else 0;
    if c.Joined? {
      RecordsInOrder(es, k, j);
      ResultAnswers(es[..f], es[f], events[j], c);
    }
    UseOpens(es[..a], es[a], events[k], c);
    assert Traced(Finish(c), es, a, f, events[k].id);
  }
}
