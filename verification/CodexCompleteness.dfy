/** Every call record of a codex transcript makes a call (src/toolbench/parsers.py, `CodexParser`). */
module CodexCompleteness {
  import opened Options
  import opened Transcript
  import opened ToolJoin
  import opened JoinLaws
  import opened JoinPositions
  import opened CallRecords
  import opened CodexParser
  import CodexTraces

  /******* What the records say *******/

  predicate IsItem(e: CodexEntry, id: string, kinds: set<string>) {
    && e.kind == Some("response_item") && e.payload.Some? && e.payload.value.callId == Some(id)
    && e.payload.value.kind.Some? && e.payload.value.kind.value in kinds
  }

  // A tool search needs no name, the other two call shapes do.
  predicate OpensCall(e: CodexEntry, id: string) {
    || (IsItem(e, id, {"function_call", "custom_tool_call"}) && e.payload.value.name.Some?)
    || IsItem(e, id, {"tool_search_call"})
  }

  predicate Carries(e: CodexEntry, id: string) {
    IsItem(e, id, {"function_call_output", "custom_tool_call_output", "tool_search_output"})
  }

  predicate Opening(es: seq<CodexEntry>, a: nat) {
    && a < |es| && es[a].payload.Some? && es[a].payload.value.callId.Some?
    && OpensCall(es[a], es[a].payload.value.callId.value)
  }

  function IdAt(es: seq<CodexEntry>, a: nat): (id: string)
    requires Opening(es, a)
    ensures OpensCall(es[a], id)
  {
    es[a].payload.value.callId.value
  }

  ghost predicate NoIdRepeats(es: seq<CodexEntry>) {
    forall a: nat, b: nat :: Opening(es, a) && Opening(es, b) && a != b ==> IdAt(es, a) != IdAt(es, b)
  }

  // The first record behind a with the id.
  ghost predicate FirstAnswer(es: seq<CodexEntry>, a: nat, id: string, f: nat) {
    a < f < |es| && Carries(es[f], id) && forall g :: a < g < f ==> !Carries(es[g], id)
  }

  /******* Session and model *******/

  // `id` names the session, `session_id` does where `id` is empty or missing.
  predicate Names(e: CodexEntry, s: string) {
    && s != "" && e.kind == Some("session_meta") && e.payload.Some?
    && var p := e.payload.value;
    p.id == CodexParser.Str(s) || ((p.id == Falsy || p.id == CodexParser.Str("")) && p.sessionId == CodexParser.Str(s))
  }

  // The first name before record n, or none.
  ghost predicate InSession(es: seq<CodexEntry>, n: nat, s: string)
    requires n <= |es|
  {
    if s == "" then forall i, t :: 0 <= i < n ==> !Names(es[i], t)
    else exists i :: 0 <= i < n && Names(es[i], s) && forall j, t :: 0 <= j < i ==> !Names(es[j], t)
  }

  predicate Sets(e: CodexEntry, model: string) {
    e.kind == Some("turn_context") && e.payload.Some? && e.payload.value.model == Some(model)
  }

  // The last model set before record n, or none.
  ghost predicate UnderModel(es: seq<CodexEntry>, n: nat, model: Option<string>)
    requires n <= |es|
  {
    match model
    case None => forall i, t :: 0 <= i < n ==> !Sets(es[i], t)
    case Some(m) => exists i :: 0 <= i < n && Sets(es[i], m) && forall j, t :: i < j < n ==> !Sets(es[j], t)
  }

  lemma NamesMeaning(e: CodexEntry, s: string)
    ensures Names(e, s) <==> NamesSession(e) && FoundId(e.payload.value) == s
  {}

  lemma {:induction false} SessionMeaning(es: seq<CodexEntry>, n: nat)
    requires n <= |es|
    ensures InSession(es, n, SessionAfter(es[..n]))
  {
    if n > 0 {
      SessionMeaning(es, n - 1);
      assert es[..n][..n - 1] == es[..n - 1];
      var e := es[n - 1];
      forall t
        ensures Names(e, t) <==> NamesSession(e) && FoundId(e.payload.value) == t
      {
        NamesMeaning(e, t);
      }
    }
  }

  lemma {:induction false} ModelMeaning(es: seq<CodexEntry>, n: nat)
    requires n <= |es|
    ensures UnderModel(es, n, ModelAfter(es[..n]))
  {
    if n > 0 {
      ModelMeaning(es, n - 1);
      assert es[..n][..n - 1] == es[..n - 1];
      var e := es[n - 1];
      if NamesModel(e) {
        assert Sets(e, e.payload.value.model.value);
      } else {
        assert forall t :: !Sets(e, t);
      }
    }
  }

  /******* Where the event of a record stands in the stream *******/

  function From(es: seq<CodexEntry>, a: nat): nat
    requires a <= |es|
  {
    |Events(es[..a])|
  }

  lemma EventsPrefix(es: seq<CodexEntry>, a: nat)
    requires a <= |es|
    ensures Events(es[..a]) <= Events(es)
  {
    if a < |es| {
      var init := es[..|es| - 1];
      EventsPrefix(init, a);
      assert init[..a] == es[..a];
    } else {
      assert es[..a] == es;
    }
  }

  lemma RecordStep(es: seq<CodexEntry>, a: nat)
    requires a < |es|
    ensures Events(es[..a + 1]) == Events(es[..a]) + EntryEvents(es[..a], es[a])
  {
    assert es[..a + 1][..a] == es[..a];
  }

  lemma RecordIn(es: seq<CodexEntry>, a: nat)
    requires a < |es|
    ensures From(es, a + 1) == From(es, a) + |EntryEvents(es[..a], es[a])| <= |Events(es)|
    ensures EntryEvents(es[..a], es[a]) != [] ==> Events(es)[From(es, a)] == EntryEvents(es[..a], es[a])[0]
  {
    EventsPrefix(es, a + 1);
    RecordStep(es, a);
  }

  lemma FromGrows(es: seq<CodexEntry>, a: nat, b: nat)
    requires a <= b <= |es|
    ensures From(es, a) <= From(es, b)
  {
    EventsPrefix(es[..b], a);
    assert es[..b][..a] == es[..a];
  }

  // What a record contributes, told from its fields.
  lemma RecordMeaning(before: seq<CodexEntry>, e: CodexEntry)
    ensures EntryEvents(before, e) == [] <==> forall id :: !OpensCall(e, id) && !Carries(e, id)
    ensures forall id :: OpensCall(e, id) ==>
              |EntryEvents(before, e)| == 1 && EntryEvents(before, e)[0].Use? && EntryEvents(before, e)[0].id == id
    ensures forall id :: Carries(e, id) ==>
              |EntryEvents(before, e)| == 1 && EntryEvents(before, e)[0].Result? && EntryEvents(before, e)[0].id == id
  {
    if e.payload.Some? && e.payload.value.callId.Some? {
      var id := e.payload.value.callId.value;
      assert EntryEvents(before, e) != [] ==> OpensCall(e, id) || Carries(e, id);
    }
  }

  predicate Stands(es: seq<CodexEntry>, k: nat, a: nat) {
    a < |es| && From(es, a) == k && EntryEvents(es[..a], es[a]) != []
  }

  lemma {:induction false} RecordOf(es: seq<CodexEntry>, k: nat)
    requires k < |Events(es)|
    ensures exists a: nat :: Stands(es, k, a)
  {
    var n := |es| - 1;
    var init := es[..n];
    if k < |Events(init)| {
      RecordOf(init, k);
      var a: nat :| Stands(init, k, a);
      assert init[..a] == es[..a];
      assert Stands(es, k, a);
    } else {
      assert Stands(es, k, n);
    }
  }

  lemma UseAtMeaning(es: seq<CodexEntry>, a: nat)
    requires Opening(es, a)
    ensures From(es, a) < |Events(es)| && From(es, a + 1) == From(es, a) + 1
    ensures Events(es)[From(es, a)].Use? && Events(es)[From(es, a)].id == IdAt(es, a)
    ensures Events(es)[From(es, a)] in EntryEvents(es[..a], es[a])
  {
    RecordIn(es, a);
    RecordMeaning(es[..a], es[a]);
    assert OpensCall(es[a], IdAt(es, a));
  }

  lemma ResultAtMeaning(es: seq<CodexEntry>, f: nat, id: string)
    requires f < |es| && Carries(es[f], id)
    ensures From(es, f) < |Events(es)|
    ensures Events(es)[From(es, f)].Result? && Events(es)[From(es, f)].id == id
    ensures Events(es)[From(es, f)] in EntryEvents(es[..f], es[f])
  {
    RecordIn(es, f);
    RecordMeaning(es[..f], es[f]);
  }

  // What stands in the stream is a call record or an output record.
  lemma StandingMeaning(es: seq<CodexEntry>, k: nat)
    requires k < |Events(es)|
    ensures exists a: nat :: a < |es| && From(es, a) == k &&
              (if Events(es)[k].Use? then Opening(es, a) else Carries(es[a], Events(es)[k].id))
  {
    RecordOf(es, k);
    var a: nat :| Stands(es, k, a);
    RecordIn(es, a);
    RecordMeaning(es[..a], es[a]);
    if id :| OpensCall(es[a], id) {
      assert Opening(es, a);
    } else {
      assert exists id :: Carries(es[a], id);
    }
  }

  lemma UseAtGrows(es: seq<CodexEntry>, a: nat, b: nat)
    requires Opening(es, a) && a < b <= |es|
    ensures From(es, a) < From(es, b)
  {
    UseAtMeaning(es, a);
    FromGrows(es, a + 1, b);
  }

  lemma NoRepeatsIsDistinct(es: seq<CodexEntry>)
    requires NoIdRepeats(es)
    ensures DistinctUseIds(Events(es))
  {
    var events := Events(es);
    forall k: nat, l: nat | k < l < |events| && events[k].Use? && events[l].Use?
      ensures events[k].id != events[l].id
    {
      StandingMeaning(es, k);
      StandingMeaning(es, l);
      var a: nat :| Opening(es, a) && From(es, a) == k;
      var b: nat :| Opening(es, b) && From(es, b) == l;
      UseAtMeaning(es, a);
      UseAtMeaning(es, b);
      assert IdAt(es, a) != IdAt(es, b);
    }
  }

  lemma PositionsInOrder(es: seq<CodexEntry>, a: nat, b: nat)
    requires a < |es| && b < |es| && From(es, a) < From(es, b)
    ensures a < b
  {
    if b <= a {
      FromGrows(es, b, a);
    }
  }

  lemma RecordAnswers(es: seq<CodexEntry>, a: nat, f: nat)
    requires Opening(es, a) && FirstAnswer(es, a, IdAt(es, a), f)
    ensures Answers(Events(es), From(es, a), From(es, f))
  {
    var events, u, k, id := Events(es), From(es, a), From(es, f), IdAt(es, a);
    UseAtMeaning(es, a);
    ResultAtMeaning(es, f, id);
    UseAtGrows(es, a, f);
    forall h: nat | u < h < k && events[h].id == id
      ensures events[h].Use?
    {
      StandingMeaning(es, h);
      var b: nat :| b < |es| && From(es, b) == h &&
        (if events[h].Use? then Opening(es, b) else Carries(es[b], events[h].id));
      PositionsInOrder(es, a, b);
      PositionsInOrder(es, b, f);
    }
  }

  lemma FirstAnswerExists(es: seq<CodexEntry>, a: nat, id: string, g: nat)
    requires a < g < |es| && Carries(es[g], id)
    ensures exists f: nat :: FirstAnswer(es, a, id, f)
  {
    if h: nat :| a < h < g && Carries(es[h], id) {
      FirstAnswerExists(es, a, id, h);
    } else {
      assert FirstAnswer(es, a, id, g);
    }
  }

  lemma AnsweredMeaning(es: seq<CodexEntry>, a: nat)
    requires Opening(es, a)
    ensures Answered(Events(es), From(es, a)) <==> exists f: nat :: FirstAnswer(es, a, IdAt(es, a), f)
  {
    if f: nat :| FirstAnswer(es, a, IdAt(es, a), f) {
      RecordAnswers(es, a, f);
    }
    UseAtMeaning(es, a);
    if k: nat :| Answers(Events(es), From(es, a), k) {
      StandingMeaning(es, k);
      var b: nat :| b < |es| && From(es, b) == k && Carries(es[b], IdAt(es, a));
      PositionsInOrder(es, a, b);
      FirstAnswerExists(es, a, IdAt(es, a), b);
    }
  }

  /******* The calls of a parse *******/

  // The call of a record: opened under the session first named and the model last set before it, and answered
  // by the first output record behind it with its id, or by none.
  ghost predicate Made(es: seq<CodexEntry>, a: nat, c: ToolCall)
    requires Opening(es, a)
  {
    var id := IdAt(es, a);
    && CodexTraces.OpenedBy(c, es[a], id)
    && InSession(es, a, c.sessionId) && UnderModel(es, a, c.model)
    && (c.isDeferral <==> c.name == "ToolSearch")
    && (c.isSubagentFanout <==> c.name == "Agent" || c.name == "Task" || c.name == "spawn_agent")
    && (if c.noResult then
          c.outputChars == 0 && c.resultSource == None && forall f :: a < f < |es| ==> !Carries(es[f], id)
        else
          exists f: nat :: FirstAnswer(es, a, id, f) && CodexTraces.AnsweredBy(c, es[f], id))
  }

  ghost predicate AnsweredBefore(es: seq<CodexEntry>, a: nat, b: nat)
    requires Opening(es, a) && Opening(es, b)
  {
    exists f: nat, g: nat :: f < g && FirstAnswer(es, a, IdAt(es, a), f) && FirstAnswer(es, b, IdAt(es, b), g)
  }

  // Every call record has a call of its own, every call is some record's, answered calls come in the order of
  // their answers, and the others behind them in the order of their records.
  ghost predicate OneCallEach(es: seq<CodexEntry>, calls: seq<ToolCall>, at: nat -> nat) {
    && (forall a: nat :: Opening(es, a) ==> at(a) < |calls| && Made(es, a, calls[at(a)]))
    && (forall a: nat, b: nat :: Opening(es, a) && Opening(es, b) && at(a) == at(b) ==> a == b)
    && (forall i: nat :: i < |calls| ==> HasRecord(es, at, i))
    && (forall a: nat, b: nat :: Opening(es, a) && Opening(es, b) ==> InOrder(es, calls, at, a, b))
  }

  ghost predicate HasRecord(es: seq<CodexEntry>, at: nat -> nat, i: nat) {
    exists a: nat :: Opening(es, a) && at(a) == i
  }

  ghost predicate InOrder(es: seq<CodexEntry>, calls: seq<ToolCall>, at: nat -> nat, a: nat, b: nat)
    requires Opening(es, a) && Opening(es, b)
  {
    at(a) < |calls| && at(b) < |calls| ==>
      && (AnsweredBefore(es, a, b) ==> at(a) < at(b))
      && (!calls[at(a)].noResult && calls[at(b)].noResult ==> at(a) < at(b))
      && (calls[at(a)].noResult && calls[at(b)].noResult && a < b ==> at(a) < at(b))
  }

  ghost function CallIndex(es: seq<CodexEntry>): nat -> nat {
    (a: nat) =>
      if Opening(es, a) && From(es, a) < |Events(es)| && Events(es)[From(es, a)].Use?
      then CallAt(Events(es), From(es, a)) else 0
  }

  lemma CallIndexIs(es: seq<CodexEntry>, a: nat)
    requires Opening(es, a)
    ensures From(es, a) < |Events(es)| && Events(es)[From(es, a)].Use?
    ensures CallIndex(es)(a) == CallAt(Events(es), From(es, a))
  {
    UseAtMeaning(es, a);
  }

  lemma AnswerSays(es: seq<CodexEntry>, a: nat, f: nat, c: Emitted<PendingCall, ResultInfo>)
    requires Opening(es, a) && FirstAnswer(es, a, IdAt(es, a), f) && Answered(Events(es), From(es, a))
    requires c.Joined? && c.res == Events(es)[AnswerOf(Events(es), From(es, a))].res
    ensures CodexTraces.AnsweredBy(Finish(c), es[f], IdAt(es, a)) && !c.res.error
  {
    RecordAnswers(es, a, f);
    AnswerIsUnique(Events(es), From(es, a), AnswerOf(Events(es), From(es, a)), From(es, f));
    ResultAtMeaning(es, f, IdAt(es, a));
    CodexTraces.ResultAnswers(es[..f], es[f], Events(es)[From(es, f)], c);
  }

  lemma NoAnswer(es: seq<CodexEntry>, a: nat)
    requires Opening(es, a) && !Answered(Events(es), From(es, a))
    ensures forall f :: a < f < |es| ==> !Carries(es[f], IdAt(es, a))
  {
    AnsweredMeaning(es, a);
    forall f | a < f < |es|
      ensures !Carries(es[f], IdAt(es, a))
    {
      if Carries(es[f], IdAt(es, a)) {
        FirstAnswerExists(es, a, IdAt(es, a), f);
      }
    }
  }

  lemma OpenedAt(es: seq<CodexEntry>, a: nat, c: Emitted<PendingCall, ResultInfo>)
    requires Opening(es, a) && From(es, a) < |Events(es)| && Events(es)[From(es, a)].Use?
    requires c.use == Events(es)[From(es, a)].use && (c.Joined? ==> !c.res.error)
    ensures CodexTraces.OpenedBy(Finish(c), es[a], IdAt(es, a))
    ensures InSession(es, a, Finish(c).sessionId) && UnderModel(es, a, Finish(c).model)
  {
    UseAtMeaning(es, a);
    SessionMeaning(es, a);
    ModelMeaning(es, a);
    CodexTraces.UseOpens(es[..a], es[a], Events(es)[From(es, a)], c);
  }

  lemma MadeAt(es: seq<CodexEntry>, a: nat)
    requires Opening(es, a) && NoIdRepeats(es)
    ensures var events, k := Events(es), CallIndex(es)(a);
            k < |Stream(events)| && Made(es, a, Finish(Stream(events)[k]))
  {
    var events, u := Events(es), From(es, a);
    NoRepeatsIsDistinct(es);
    CallIndexIs(es, a);
    CallAtMeaning(events, u);
    var c := Stream(events)[CallAt(events, u)];
    if Answered(events, u) {
      AnsweredMeaning(es, a);
      var f: nat :| FirstAnswer(es, a, IdAt(es, a), f);
      AnswerSays(es, a, f, c);
    } else {
      NoAnswer(es, a);
    }
    OpenedAt(es, a, c);
  }

  lemma RecordOfCall(es: seq<CodexEntry>, i: nat)
    requires NoIdRepeats(es) && i < |Stream(Events(es))|
    ensures HasRecord(es, CallIndex(es), i)
  {
    NoRepeatsIsDistinct(es);
    CallAtOnto(Events(es), i);
    var k: nat :| k < |Events(es)| && Events(es)[k].Use? && CallAt(Events(es), k) == i;
    StandingMeaning(es, k);
    var a: nat :| Opening(es, a) && From(es, a) == k;
    CallIndexIs(es, a);
  }

  lemma OwnCall(es: seq<CodexEntry>, a: nat, b: nat)
    requires NoIdRepeats(es) && Opening(es, a) && Opening(es, b) && CallIndex(es)(a) == CallIndex(es)(b)
    ensures a == b
  {
    NoRepeatsIsDistinct(es);
    CallIndexIs(es, a);
    CallIndexIs(es, b);
    if a < b {
      UseAtGrows(es, a, b);
      CallAtInjective(Events(es), From(es, a), From(es, b));
    } else if b < a {
      UseAtGrows(es, b, a);
      CallAtInjective(Events(es), From(es, b), From(es, a));
    }
  }

  lemma AnswersOrdered(es: seq<CodexEntry>, a: nat, b: nat)
    requires NoIdRepeats(es) && Opening(es, a) && Opening(es, b) && AnsweredBefore(es, a, b)
    ensures CallIndex(es)(a) < CallIndex(es)(b)
  {
    var events, u, v := Events(es), From(es, a), From(es, b);
    var f: nat, g: nat :| f < g && FirstAnswer(es, a, IdAt(es, a), f) && FirstAnswer(es, b, IdAt(es, b), g);
    NoRepeatsIsDistinct(es);
    CallIndexIs(es, a);
    CallIndexIs(es, b);
    RecordAnswers(es, a, f);
    RecordAnswers(es, b, g);
    AnswerIsUnique(events, u, AnswerOf(events, u), From(es, f));
    AnswerIsUnique(events, v, AnswerOf(events, v), From(es, g));
    AnswersApart(es, f, g, IdAt(es, a));
    AnsweredOrder(events, u, v);
  }

  lemma AnswersApart(es: seq<CodexEntry>, f: nat, g: nat, id: string)
    requires f < g < |es| && Carries(es[f], id)
    ensures From(es, f) < From(es, g)
  {
    RecordIn(es, f);
    RecordMeaning(es[..f], es[f]);
    FromGrows(es, f + 1, g);
  }

  lemma UnansweredOrdered(es: seq<CodexEntry>, a: nat, b: nat)
    requires NoIdRepeats(es) && Opening(es, a) && Opening(es, b) && !Answered(Events(es), From(es, b))
    ensures Answered(Events(es), From(es, a)) || a < b ==> CallIndex(es)(a) < CallIndex(es)(b)
  {
    NoRepeatsIsDistinct(es);
    CallIndexIs(es, a);
    CallIndexIs(es, b);
    if Answered(Events(es), From(es, a)) {
      AnsweredFirst(Events(es), From(es, a), From(es, b));
    } else if a < b {
      UseAtGrows(es, a, b);
      OrphanOrder(Events(es), From(es, a), From(es, b));
    }
  }

  lemma NoResultMeaning(es: seq<CodexEntry>, a: nat)
    requires Opening(es, a) && NoIdRepeats(es)
    ensures var k := CallIndex(es)(a);
            k < |Stream(Events(es))| && (Stream(Events(es))[k].Unmatched? <==> !Answered(Events(es), From(es, a)))
  {
    NoRepeatsIsDistinct(es);
    CallIndexIs(es, a);
    CallAtMeaning(Events(es), From(es, a));
  }

  lemma RecordsInOrder(es: seq<CodexEntry>, calls: seq<ToolCall>, a: nat, b: nat)
    requires NoIdRepeats(es) && Opening(es, a) && Opening(es, b) && calls == FinishAll(Stream(Events(es)))
    ensures InOrder(es, calls, CallIndex(es), a, b)
  {
    NoResultMeaning(es, a);
    NoResultMeaning(es, b);
    FinishAt(Stream(Events(es)), CallIndex(es)(a));
    FinishAt(Stream(Events(es)), CallIndex(es)(b));
    if AnsweredBefore(es, a, b) {
      AnswersOrdered(es, a, b);
    }
    if calls[CallIndex(es)(b)].noResult {
      UnansweredOrdered(es, a, b);
    }
  }

  // Where no call id repeats, the calls of a parse and the call records of its transcript are one to one.
  lemma {:induction false} EveryRecordMakesOneCall(lines: seq<Line<CodexEntry>>)
    requires NoIdRepeats(Records(lines))
    ensures exists at :: OneCallEach(Records(lines), ParseSpec(lines).calls, at)
  {
    var es := Records(lines);
    var calls, at := ParseSpec(lines).calls, CallIndex(es);
    forall a: nat | Opening(es, a)
      ensures at(a) < |calls| && Made(es, a, calls[at(a)])
    {
      MadeAt(es, a);
      FinishAt(Stream(Events(es)), at(a));
    }
    forall a: nat, b: nat | Opening(es, a) && Opening(es, b) && at(a) == at(b)
      ensures a == b
    {
      OwnCall(es, a, b);
    }
    forall i: nat | i < |calls|
      ensures HasRecord(es, at, i)
    {
      RecordOfCall(es, i);
    }
    forall a: nat, b: nat | Opening(es, a) && Opening(es, b)
      ensures InOrder(es, calls, at, a, b)
    {
      RecordsInOrder(es, calls, a, b);
    }
    assert OneCallEach(es, calls, at);
  }

  /******* What cannot be joined *******/

  predicate IsWebSearch(e: CodexEntry) {
    e.kind == Some("response_item") && e.payload.Some? && e.payload.value.kind == Some("web_search_call")
  }

  function WebSearches(es: seq<CodexEntry>): nat {
    if es == [] then 0 else WebSearches(es[..|es| - 1]) + if IsWebSearch(es[|es| - 1]) then 1 else 0
  }

  // Exactly the web searches are counted, under their own name, and none of them opens a call.
  lemma {:induction false} UnjoinableMeaning(es: seq<CodexEntry>)
    ensures UnjoinableCounts(es) == if WebSearches(es) == 0 then map[] else map["web_search_call" := WebSearches(es)]
    ensures forall a: nat :: a < |es| && IsWebSearch(es[a]) ==> !Opening(es, a)
  {
    if es != [] {
      UnjoinableMeaning(es[..|es| - 1]);
    }
  }
}
