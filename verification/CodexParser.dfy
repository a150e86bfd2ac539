/**
 The codex transcript parser (src/toolbench/parsers.py, `CodexParser`): the same join on another
 record shape, with the session id and the model carried forward from control records.
 */
module CodexParser {
  import opened Options
  import opened Transcript
  import opened ToolJoin
  import opened JoinLaws
  import opened CallRecords

  // A field Python reads with `or`: what matters is whether it is a string and whether it is truthy.
  datatype Field = Str(s: string) | Truthy | Falsy

  // The length fields are the normalised lengths of the payload's fields of that name.
  datatype Payload = Payload(
    kind: Option<string>,
    callId: Option<string>,
    name: Option<string>,
    id: Field,
    sessionId: Field,
    model: Option<string>,
    argumentsLen: nat,
    inputLen: nat,
    outputLen: nat,
    toolsLen: nat)

  datatype CodexEntry = CodexEntry(kind: Option<string>, timestamp: Option<string>, payload: Option<Payload>)

  const UNJOINABLE_TYPES := {"web_search_call"}

  // The call shapes: the length of the input field and the name, fixed or read from the payload.
  function CallShape(p: Payload): Option<(nat, Option<string>)> {
    if p.kind == Some("function_call") then Some((p.argumentsLen, p.name))
    else if p.kind == Some("custom_tool_call") then Some((p.inputLen, p.name))
    else if p.kind == Some("tool_search_call") then Some((p.argumentsLen, Some("ToolSearch")))
    else None
  }

  function OutputLength(p: Payload): Option<nat> {
    if p.kind == Some("function_call_output") || p.kind == Some("custom_tool_call_output")
    then Some(p.outputLen)
    else if p.kind == Some("tool_search_output") then Some(p.toolsLen)
    else None
  }

  predicate IsUnjoinable(p: Payload) {
    p.kind.Some? && p.kind.value in UNJOINABLE_TYPES
  }

  /******* Context carried forward *******/

  // `payload.id or payload.session_id`, when that is a string; "" otherwise.
  function FoundId(p: Payload): string {
    match p.id
    case Str(s) => if s != "" then s else FallbackId(p)
    case Truthy => ""
    case Falsy => FallbackId(p)
  }

  function FallbackId(p: Payload): string {
    if p.sessionId.Str? then p.sessionId.s else ""
  }

  predicate IsRecord(e: CodexEntry, kind: string) {
    e.payload.Some? && e.kind == Some(kind)
  }

  predicate NamesSession(e: CodexEntry) {
    IsRecord(e, "session_meta") && FoundId(e.payload.value) != ""
  }

  predicate NamesModel(e: CodexEntry) {
    IsRecord(e, "turn_context") && e.payload.value.model.Some?
  }

  // The session is the first one named.
  function SessionAfter(es: seq<CodexEntry>): string {
    if es == [] then ""
    else
      var s := SessionAfter(es[..|es| - 1]);
      if s == "" && NamesSession(es[|es| - 1]) then FoundId(es[|es| - 1].payload.value) else s
  }

  // The model is the last one named.
  function ModelAfter(es: seq<CodexEntry>): Option<string> {
    if es == [] then None
    else if NamesModel(es[|es| - 1]) then es[|es| - 1].payload.value.model
    else ModelAfter(es[..|es| - 1])
  }

  lemma {:induction false} FirstSessionWins(es: seq<CodexEntry>, i: nat, n: nat)
    requires i < n <= |es| && NamesSession(es[i])
    requires forall j :: 0 <= j < i ==> !NamesSession(es[j])
    ensures SessionAfter(es[..n]) == FoundId(es[i].payload.value)
  {
    assert es[..n][..n - 1] == es[..n - 1];
    if i < n - 1 {
      FirstSessionWins(es, i, n - 1);
    } else {
      NoSessionYet(es, i);
    }
  }

  lemma {:induction false} NoSessionYet(es: seq<CodexEntry>, n: nat)
    requires n <= |es| && forall j :: 0 <= j < n ==> !NamesSession(es[j])
    ensures SessionAfter(es[..n]) == ""
  {
    if n > 0 {
      assert es[..n][..n - 1] == es[..n - 1];
      NoSessionYet(es, n - 1);
    }
  }

  lemma {:induction false} LastModelWins(es: seq<CodexEntry>, i: nat, n: nat)
    requires i < n <= |es| && NamesModel(es[i])
    requires forall j :: i < j < n ==> !NamesModel(es[j])
    ensures ModelAfter(es[..n]) == es[i].payload.value.model
  {
    assert es[..n][..n - 1] == es[..n - 1];
    if i < n - 1 {
      LastModelWins(es, i, n - 1);
    }
  }

  /******* What one record contributes *******/

  function ItemEvents(p: Payload, ts: string, session: string,
          model: Option<string>): (events: seq<Event<PendingCall, ResultInfo>>)
    ensures |events| <= 1
  {
    if IsUnjoinable(p) || p.callId.None? then []
    else if CallShape(p).Some? then
      var (len, name) := CallShape(p).value;
      if name.None? then []
      else [Use(p.callId.value, PendingCall(name.value, len, session, ts, None, AbsentBySchema, model, None, None))]
    else if OutputLength(p).Some? then
      [Result(p.callId.value, ResultInfo(OutputLength(p).value, false, Some("payload")))]
    else []
  }

  function EntryEvents(before: seq<CodexEntry>, e: CodexEntry): seq<Event<PendingCall, ResultInfo>> {
    if IsRecord(e, "response_item")
    then ItemEvents(e.payload.value, e.timestamp.GetOr(""), SessionAfter(before), ModelAfter(before))
    else []
  }

  function Events(es: seq<CodexEntry>): seq<Event<PendingCall, ResultInfo>> {
    if es == [] then [] else Events(es[..|es| - 1]) + EntryEvents(es[..|es| - 1], es[|es| - 1])
  }

  predicate CountsUnjoinable(e: CodexEntry) {
    IsRecord(e, "response_item") && IsUnjoinable(e.payload.value)
  }

  function UnjoinableCounts(es: seq<CodexEntry>): map<string, nat> {
    if es == [] then map[]
    else
      var counts := UnjoinableCounts(es[..|es| - 1]);
      var e := es[|es| - 1];
      if CountsUnjoinable(e) then
        var kind := e.payload.value.kind.value;
        CountKind(counts, kind)
      else counts
  }

  function CountKind(counts: map<string, nat>, kind: string): map<string, nat> {
    counts[kind := (if kind in counts then counts[kind] else 0) + 1]
  }

  function ParseSpec(lines: seq<Line<CodexEntry>>): ParseResult {
    var es := Records(lines);
    ParseResult(FinishAll(Stream(Events(es))), MalformedCount(lines), None, None, 0, 0, 0, map[], map[],
                UnjoinableCounts(es), map[])
  }

  /******* The one pass the parser makes *******/

  method AbsorbResponseItem(p: Payload, pending: PendingCalls<PendingCall>, unjoinable: map<string, nat>,
                            session: string, ts: string, model: Option<string>, ghost s: State<PendingCall, ResultInfo>)
    returns (calls: seq<ToolCall>, unjoinable': map<string, nat>, ghost t: State<PendingCall, ResultInfo>)
    requires pending.Contents() == s.pending
    modifies pending
    ensures t == RunFrom(s, ItemEvents(p, ts, session, model))
    ensures pending.Contents() == t.pending && FinishAll(t.out) == FinishAll(s.out) + calls
    ensures |calls| <= 1
    ensures unjoinable' ==
            if IsUnjoinable(p) then CountKind(unjoinable, p.kind.value) else unjoinable
  {
    var events := ItemEvents(p, ts, session, model);
    calls, unjoinable', t := [], unjoinable, s;
    if IsUnjoinable(p) {
      var count := if p.kind.value in unjoinable then unjoinable[p.kind.value] else 0;
      unjoinable' := unjoinable[p.kind.value := count + 1];
      return;
    }
    if p.callId.None? {
      return;
    }
    assert events != [] ==> events[..0] == [];
    var shape := CallShape(p);
    if shape.Some? {
      var (len, name) := shape.value;
      if name.Some? {
        var call := PendingCall(name.value, len, session, ts, None, AbsentBySchema, model, None, None);
        t := Step(s, Use(p.callId.value, call));
        pending.Put(p.callId.value, call);
      }
      return;
    }
    var output := OutputLength(p);
    if output.Some? && p.callId.value in pending.calls {
      var res := ResultInfo(output.value, false, Some("payload"));
      t := Step(s, Result(p.callId.value, res));
      var call := pending.Pop(p.callId.value);
      FinishAppend(s.out, [Joined(call, res)]);
      calls := [Finish(Joined(call, res))];
    }
  }

  // One record: a control record changes what is carried along, a response item feeds the join.
  method AbsorbEntry(entry: CodexEntry, pending: PendingCalls<PendingCall>, session: string, model: Option<string>,
                     unjoinable: map<string, nat>, ghost es: seq<CodexEntry>)
    returns (calls: seq<ToolCall>, session': string, model': Option<string>, unjoinable': map<string, nat>)
    requires session == SessionAfter(es) && model == ModelAfter(es)
    requires pending.Contents() == Run(Events(es)).pending && unjoinable == UnjoinableCounts(es)
    modifies pending
    ensures session' == SessionAfter(es + [entry]) && model' == ModelAfter(es + [entry])
    ensures unjoinable' == UnjoinableCounts(es + [entry])
    ensures var s, t := Run(Events(es)), Run(Events(es + [entry]));
            pending.Contents() == t.pending && FinishAll(t.out) == FinishAll(s.out) + calls
  {
    EntryStep(es, entry);
    calls, session', model', unjoinable' := [], session, model, unjoinable;
    if entry.payload.None? {
      return;
    }
    var payload := entry.payload.value;
    if entry.kind == Some("session_meta") {
      if session == "" {
        session' := FoundId(payload);
      }
      return;
    }
    if entry.kind == Some("turn_context") {
      if payload.model.Some? {
        model' := payload.model;
      }
      return;
    }
    if entry.kind != Some("response_item") {
      return;
    }
    ghost var t;
    calls, unjoinable', t := AbsorbResponseItem(payload, pending, unjoinable, session,
                                                entry.timestamp.GetOr(""), model, Run(Events(es)));
  }

  // One pass with the carried context computes the join over the records taken as a whole.
  method Parse(lines: seq<Line<CodexEntry>>) returns (result: ParseResult)
    ensures result == ParseSpec(lines)
  {
    var pending := new PendingCalls<PendingCall>();
    var calls: seq<ToolCall> := [];
    var unjoinable: map<string, nat> := map[];
    var session, model, malformed := "", None, 0;
    ghost var es: seq<CodexEntry> := [];
    for i := 0 to |lines|
      invariant fresh(pending)
      invariant es == Records(lines[..i]) && malformed == MalformedCount(lines[..i])
      invariant session == SessionAfter(es) && model == ModelAfter(es)
      invariant unjoinable == UnjoinableCounts(es)
      invariant pending.Contents() == Run(Events(es)).pending
      invariant calls == FinishAll(Run(Events(es)).out)
    {
      LineStep(lines, i);
      if lines[i].Malformed? {
        malformed := malformed + 1;
      }
      if !lines[i].Record? {
        continue;
      }
      var joined;
      joined, session, model, unjoinable := AbsorbEntry(lines[i].entry, pending, session, model, unjoinable, es);
      es := es + [lines[i].entry];
      calls := calls + joined;
    }
    assert lines[..|lines|] == lines;
    RunValid(Events(es));
    FinishAppend(Run(Events(es)).out, Drain(Run(Events(es)).pending));
    calls := calls + FinishAll(DrainKeys(pending.keys, pending.calls));
    return ParseResult(calls, malformed, None, None, 0, 0, 0, map[], map[], unjoinable, map[]);
  }

  // What one more record does to the events and to everything carried along.
  lemma EntryStep(es: seq<CodexEntry>, entry: CodexEntry)
    ensures Run(Events(es + [entry])) == RunFrom(Run(Events(es)), EntryEvents(es, entry))
    ensures SessionAfter(es + [entry]) ==
            if SessionAfter(es) == "" && NamesSession(entry) then FoundId(entry.payload.value) else SessionAfter(es)
    ensures ModelAfter(es + [entry]) == if NamesModel(entry) then entry.payload.value.model else ModelAfter(es)
    ensures UnjoinableCounts(es + [entry]) ==
            if CountsUnjoinable(entry) then CountKind(UnjoinableCounts(es), entry.payload.value.kind.value)
            else UnjoinableCounts(es)
  {
    assert (es + [entry])[..|es|] == es;
    RunInPieces(Start(), Events(es), EntryEvents(es, entry));
  }

  /******* What the result guarantees *******/

  // Opened calls are emitted or were overwritten while pending; with distinct call ids each is
  // emitted once, joined to the first output after it, else as an orphan in arrival order.
  lemma {:induction false} ParseJoins(lines: seq<Line<CodexEntry>>)
    ensures var events := Events(Records(lines));
            var calls := ParseSpec(lines).calls;
            && CountUses(events, Every()) == |calls| + CountOverwritten(events, Every())
            && (DistinctUseIds(events) ==>
                  && calls == FinishAll(AnsweredCalls(events, |events|)) + FinishAll(OrphanCalls(events, |events|))
                  && |calls| == CountUses(events, Every()))
  {
    var events := Events(Records(lines));
    JoinConserves(events, Every());
    CountEvery(Stream(events));
    if DistinctUseIds(events) {
      DistinctJoin(events, Every());
      FinishAppend(AnsweredCalls(events, |events|), OrphanCalls(events, |events|));
    }
  }
}
