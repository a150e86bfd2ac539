/** Every tool_use block of a Claude transcript makes a call (src/toolbench/parsers.py, `ClaudeParser`). */
module CallCompleteness {
  import opened Options
  import opened Transcript
  import opened ToolJoin
  import opened JoinLaws
  import opened JoinPositions
  import opened CallRecords
  import opened ClaudeParser
  import opened EntryStreams
  import CallTraces

  /******* The uses of a stream *******/

  // The places and the uses of a stream are one to one, in order, repeated ids included.
  ghost predicate UsesOfStream(es: seq<Entry>, mode: Mode, events: seq<Event<PendingCall, ResultInfo>>,
          at: Place -> nat)
  {
    && (forall p :: Opening(es, mode, p) ==>
                      && at(p) < |events| && events[at(p)].Use? && events[at(p)].id == BlockAt(es, mode, p).id.value
                      && events[at(p)].use == CallOf(BlockAt(es, mode, p), es[p.entry], mode))
    && (forall p, q :: Opening(es, mode, p) && Opening(es, mode, q) && Before(p, q) ==> at(p) < at(q))
    && (forall k: nat :: k < |events| && events[k].Use? ==> HasPlace(es, mode, at, k))
  }

  ghost predicate HasPlace(es: seq<Entry>, mode: Mode, at: Place -> nat, i: nat) {
    exists p :: Opening(es, mode, p) && at(p) == i
  }

  ghost function UseIndex(es: seq<Entry>, mode: Mode): Place -> nat {
    (p: Place) => if Opening(es, mode, p) then UseAt(es, mode, p) else 0
  }

  lemma {:induction false} EveryUseIsAnEvent(es: seq<Entry>, mode: Mode)
    ensures exists at :: UsesOfStream(es, mode, Events(es, mode), at)
  {
    var events, at := Events(es, mode), UseIndex(es, mode);
    forall p | Opening(es, mode, p)
      ensures at(p) < |events|
      ensures events[at(p)] == Use(BlockAt(es, mode, p).id.value, CallOf(BlockAt(es, mode, p), es[p.entry], mode))
    {
      UseAtMeaning(es, mode, p);
    }
    forall p, q | Opening(es, mode, p) && Opening(es, mode, q) && Before(p, q)
      ensures at(p) < at(q)
    {
      UseAtGrows(es, mode, p, q);
    }
    forall k: nat | k < |events| && events[k].Use?
      ensures HasPlace(es, mode, at, k)
    {
      UseAtOnto(es, mode, k);
      var p :| Opening(es, mode, p) && UseAt(es, mode, p) == k;
      assert at(p) == k;
    }
    assert UsesOfStream(es, mode, events, at);
  }

  /******* The calls of a parse *******/

  // The call of a place: opened by its block, and answered by the first entry from its own on that carries
  // its id, or by none.
  ghost predicate Made(es: seq<Entry>, mode: Mode, p: Place, c: ToolCall)
    requires Opening(es, mode, p)
  {
    var id := BlockAt(es, mode, p).id.value;
    && CallTraces.Opens(c, es[p.entry], BlockAt(es, mode, p), id, mode)
    && (c.isDeferral <==> c.name == "ToolSearch")
    && (c.isSubagentFanout <==> c.name == "Agent" || c.name == "Task" || c.name == "spawn_agent")
    && (if c.noResult then
          && c.outputChars == 0 && !c.error && c.resultSource == None
          && (forall f :: p.entry <= f < |es| ==> !CarriesId(es[f], id))
        else
          exists f: nat ::
            FirstAnswer(es, p.entry, id, f) &&
            AnswersAs(es[f], id, ResultInfo(c.outputChars, c.error, c.resultSource)))
  }

  // Both have an answer, and p's comes first.
  ghost predicate AnsweredBefore(es: seq<Entry>, mode: Mode, p: Place, q: Place)
    requires Opening(es, mode, p) && Opening(es, mode, q)
  {
    var x, y := BlockAt(es, mode, p).id.value, BlockAt(es, mode, q).id.value;
    exists f: nat, g: nat ::
      && FirstAnswer(es, p.entry, x, f) && FirstAnswer(es, q.entry, y, g)
      && (f < g || (f == g && CarriedBefore(es[f], x, y)))
  }

  // The first block with one id stands before the first one with the other.
  ghost predicate CarriedBefore(f: Entry, x: string, y: string) {
    exists i: nat, j: nat :: i < j && FirstCarrier(f, x, i) && FirstCarrier(f, y, j)
  }

  // Every place has a call of its own, every call is some place's, answered calls come in the order of their
  // answers, and the others behind them in the order of their places.
  ghost predicate OneCallEach(es: seq<Entry>, mode: Mode, calls: seq<ToolCall>, at: Place -> nat) {
    && (forall p :: Opening(es, mode, p) ==> at(p) < |calls| && Made(es, mode, p, calls[at(p)]))
    && (forall p, q :: Opening(es, mode, p) && Opening(es, mode, q) && at(p) == at(q) ==> p == q)
    && (forall i: nat :: i < |calls| ==> HasPlace(es, mode, at, i))
    && (forall p, q :: Opening(es, mode, p) && Opening(es, mode, q) ==> InOrder(es, mode, calls, at, p, q))
  }

  ghost predicate InOrder(es: seq<Entry>, mode: Mode, calls: seq<ToolCall>, at: Place -> nat, p: Place, q: Place)
    requires Opening(es, mode, p) && Opening(es, mode, q)
  {
    at(p) < |calls| && at(q) < |calls| ==>
      && (AnsweredBefore(es, mode, p, q) ==> at(p) < at(q))
      && (!calls[at(p)].noResult && calls[at(q)].noResult ==> at(p) < at(q))
      && (calls[at(p)].noResult && calls[at(q)].noResult && Before(p, q) ==> at(p) < at(q))
  }

  ghost function CallIndex(es: seq<Entry>, mode: Mode): Place -> nat {
    (p: Place) =>
      if Opening(es, mode, p) && UseAt(es, mode, p) < |Events(es, mode)| && Events(es, mode)[UseAt(es, mode, p)].Use?
      then CallAt(Events(es, mode), UseAt(es, mode, p)) else 0
  }

  lemma CallIndexIs(es: seq<Entry>, mode: Mode, p: Place)
    requires Opening(es, mode, p)
    ensures UseAt(es, mode, p) < |Events(es, mode)| && Events(es, mode)[UseAt(es, mode, p)].Use?
    ensures CallIndex(es, mode)(p) == CallAt(Events(es, mode), UseAt(es, mode, p))
  {
    IdOfUse(es, mode, p);
  }

  // What the answer of a place says, as an event of the stream.
  lemma AnswerSays(es: seq<Entry>, mode: Mode, p: Place, f: nat)
    requires Opening(es, mode, p) && FirstAnswer(es, p.entry, BlockAt(es, mode, p).id.value, f)
    ensures var events, u := Events(es, mode), UseAt(es, mode, p);
            && Answered(events, u)
            && events[AnswerOf(events, u)].Result?
            && AnswersAs(es[f], BlockAt(es, mode, p).id.value, events[AnswerOf(events, u)].res)
  {
    var id := BlockAt(es, mode, p).id.value;
    CarriersAnswer(es[f], id);
    var i: nat :| FirstWithId(Answerings(es[f]), id, i);
    PlaceAnswered(es, mode, p, f, i);
    FirstAnswersAs(es[f], id, i);
    AnswerIsUnique(Events(es, mode), UseAt(es, mode, p), AnswerOf(Events(es, mode), UseAt(es, mode, p)),
                   AnswerPos(es, mode, f, i));
  }

  lemma Opened(e: Entry, b: Block, mode: Mode, c: Emitted<PendingCall, ResultInfo>)
    requires b in BlocksOf(e) && OpensCall(e, b, mode) && c.use == CallOf(b, e, mode)
    requires mode.trackTurns ==> e.requestId.Some?
    ensures CallTraces.Opens(Finish(c), e, b, b.id.value, mode)
  {}

  lemma Keyed(es: seq<Entry>, mode: Mode, p: Place)
    requires Opening(es, mode, p) && !Unkeyable(es, mode)
    ensures mode.trackTurns ==> es[p.entry].requestId.Some?
  {
    assert es[p.entry] in es;
  }

  // The call at the index of a place is the place's.
  lemma MadeAt(es: seq<Entry>, mode: Mode, p: Place)
    requires Opening(es, mode, p) && NoIdRepeats(es, mode) && !Unkeyable(es, mode)
    ensures var events, k := Events(es, mode), CallIndex(es, mode)(p);
            k < |Stream(events)| && Made(es, mode, p, Finish(Stream(events)[k]))
  {
    var events, u, id := Events(es, mode), UseAt(es, mode, p), BlockAt(es, mode, p).id.value;
    NoRepeatsIsDistinct(es, mode);
    UseAtMeaning(es, mode, p);
    CallIndexIs(es, mode, p);
    CallAtMeaning(events, u);
    var c := Stream(events)[CallAt(events, u)];
    Keyed(es, mode, p);
    Opened(es[p.entry], BlockAt(es, mode, p), mode, c);
    AnsweredMeaning(es, mode, p);
    if Answered(events, u) {
      var f: nat :| FirstAnswer(es, p.entry, id, f);
      AnswerSays(es, mode, p, f);
    } else {
      forall f | p.entry <= f < |es|
        ensures !CarriesId(es[f], id)
      {
        if CarriesId(es[f], id) {
          FirstAnswerExists(es, p.entry, id, f);
        }
      }
    }
  }

  lemma PlaceOfCall(es: seq<Entry>, mode: Mode, i: nat)
    requires NoIdRepeats(es, mode) && i < |Stream(Events(es, mode))|
    ensures HasPlace(es, mode, CallIndex(es, mode), i)
  {
    var events := Events(es, mode);
    NoRepeatsIsDistinct(es, mode);
    CallAtOnto(events, i);
    var k: nat :| k < |events| && events[k].Use? && CallAt(events, k) == i;
    UseAtOnto(es, mode, k);
    var p :| Opening(es, mode, p) && UseAt(es, mode, p) == k;
    CallIndexIs(es, mode, p);
  }

  lemma OwnCall(es: seq<Entry>, mode: Mode, p: Place, q: Place)
    requires NoIdRepeats(es, mode) && Opening(es, mode, p) && Opening(es, mode, q)
    requires CallIndex(es, mode)(p) == CallIndex(es, mode)(q)
    ensures p == q
  {
    var events, u, v := Events(es, mode), UseAt(es, mode, p), UseAt(es, mode, q);
    NoRepeatsIsDistinct(es, mode);
    CallIndexIs(es, mode, p);
    CallIndexIs(es, mode, q);
    if u < v {
      CallAtInjective(events, u, v);
    } else if v < u {
      CallAtInjective(events, v, u);
    }
    UseAtInjective(es, mode, p, q);
  }

  // Answers in the order of their entries and blocks are answers in the order of the stream.
  lemma LaterEntryLater(es: seq<Entry>, mode: Mode, f: nat, i: nat, g: nat, j: nat)
    requires f < g < |es| && i < |Answerings(es[f])|
    ensures AnswerPos(es, mode, f, i) < AnswerPos(es, mode, g, j)
  {
    EntryEnds(es, mode, f);
    FromGrows(es, mode, f + 1, g);
  }

  lemma CarriersInOrder(f: Entry, x: string, i: nat, y: string, j: nat)
    requires FirstWithId(Answerings(f), x, i) && FirstWithId(Answerings(f), y, j) && CarriedBefore(f, x, y)
    ensures i < j
  {
    var a: nat, b: nat :| a < b && FirstCarrier(f, x, a) && FirstCarrier(f, y, b);
    assert BlocksOf(f)[a] in BlocksOf(f);
    CarrierIndex(f, x, a, i);
    CarrierIndex(f, y, b, j);
    BlocksBefore(f, BlocksOf(f), a, b, x);
  }

  lemma CarrierIndex(f: Entry, id: string, a: nat, i: nat)
    requires FirstCarrier(f, id, a) && FirstWithId(Answerings(f), id, i)
    ensures |BlockResults(f, BlocksOf(f)[..a])| == i
  {
    assert BlocksOf(f)[a] in BlocksOf(f);
    FirstIsFirstCarrier(f, id, i);
  }

  // The answer of a place by its event.
  lemma AnswerOfPlace(es: seq<Entry>, mode: Mode, p: Place, f: nat) returns (i: nat)
    requires Opening(es, mode, p) && FirstAnswer(es, p.entry, BlockAt(es, mode, p).id.value, f)
    ensures FirstWithId(Answerings(es[f]), BlockAt(es, mode, p).id.value, i)
    ensures Answers(Events(es, mode), UseAt(es, mode, p), AnswerPos(es, mode, f, i))
  {
    CarriersAnswer(es[f], BlockAt(es, mode, p).id.value);
    i :| FirstWithId(Answerings(es[f]), BlockAt(es, mode, p).id.value, i);
    PlaceAnswered(es, mode, p, f, i);
  }

  lemma AnswersOrdered(es: seq<Entry>, mode: Mode, p: Place, q: Place)
    requires NoIdRepeats(es, mode) && Opening(es, mode, p) && Opening(es, mode, q) && AnsweredBefore(es, mode, p, q)
    ensures CallIndex(es, mode)(p) < CallIndex(es, mode)(q)
  {
    var x, y := BlockAt(es, mode, p).id.value, BlockAt(es, mode, q).id.value;
    var f: nat, g: nat :|
      && FirstAnswer(es, p.entry, x, f) && FirstAnswer(es, q.entry, y, g)
      && (f < g || (f == g && CarriedBefore(es[f], x, y)));
    var i := AnswerOfPlace(es, mode, p, f);
    var j := AnswerOfPlace(es, mode, q, g);
    if f < g {
      LaterEntryLater(es, mode, f, i, g, j);
    } else {
      CarriersInOrder(es[f], x, i, y, j);
    }
    CallsOrdered(es, mode, p, q, AnswerPos(es, mode, f, i), AnswerPos(es, mode, g, j));
  }

  lemma CallsOrdered(es: seq<Entry>, mode: Mode, p: Place, q: Place, k: nat, l: nat)
    requires NoIdRepeats(es, mode) && Opening(es, mode, p) && Opening(es, mode, q) && k < l
    requires Answers(Events(es, mode), UseAt(es, mode, p), k) && Answers(Events(es, mode), UseAt(es, mode, q), l)
    ensures CallIndex(es, mode)(p) < CallIndex(es, mode)(q)
  {
    var events, u, v := Events(es, mode), UseAt(es, mode, p), UseAt(es, mode, q);
    NoRepeatsIsDistinct(es, mode);
    CallIndexIs(es, mode, p);
    CallIndexIs(es, mode, q);
    AnswerIsUnique(events, u, AnswerOf(events, u), k);
    AnswerIsUnique(events, v, AnswerOf(events, v), l);
    AnsweredOrder(events, u, v);
  }

  lemma UnansweredOrdered(es: seq<Entry>, mode: Mode, p: Place, q: Place)
    requires NoIdRepeats(es, mode) && Opening(es, mode, p) && Opening(es, mode, q)
    requires !Answered(Events(es, mode), UseAt(es, mode, q))
    ensures Answered(Events(es, mode), UseAt(es, mode, p)) || Before(p, q) ==>
              CallIndex(es, mode)(p) < CallIndex(es, mode)(q)
  {
    var events, u, v := Events(es, mode), UseAt(es, mode, p), UseAt(es, mode, q);
    NoRepeatsIsDistinct(es, mode);
    CallIndexIs(es, mode, p);
    CallIndexIs(es, mode, q);
    if Answered(events, u) {
      AnsweredFirst(events, u, v);
    } else if Before(p, q) {
      UseAtGrows(es, mode, p, q);
      OrphanOrder(events, u, v);
    }
  }

  lemma NoResultMeaning(es: seq<Entry>, mode: Mode, p: Place)
    requires Opening(es, mode, p) && NoIdRepeats(es, mode)
    ensures var k := CallIndex(es, mode)(p);
            k < |Stream(Events(es, mode))| &&
            (Stream(Events(es, mode))[k].Unmatched? <==> !Answered(Events(es, mode), UseAt(es, mode, p)))
  {
    NoRepeatsIsDistinct(es, mode);
    CallIndexIs(es, mode, p);
    CallAtMeaning(Events(es, mode), UseAt(es, mode, p));
  }

  lemma PlacesInOrder(es: seq<Entry>, mode: Mode, calls: seq<ToolCall>, p: Place, q: Place)
    requires NoIdRepeats(es, mode) && Opening(es, mode, p) && Opening(es, mode, q)
    requires calls == FinishAll(Stream(Events(es, mode)))
    ensures InOrder(es, mode, calls, CallIndex(es, mode), p, q)
  {
    NoResultMeaning(es, mode, p);
    NoResultMeaning(es, mode, q);
    FinishAt(Stream(Events(es, mode)), CallIndex(es, mode)(p));
    FinishAt(Stream(Events(es, mode)), CallIndex(es, mode)(q));
    if AnsweredBefore(es, mode, p, q) {
      AnswersOrdered(es, mode, p, q);
    }
    if calls[CallIndex(es, mode)(q)].noResult {
      UnansweredOrdered(es, mode, p, q);
    }
  }

  // Where no id repeats, the calls of a parse and the tool_use blocks of its transcript with an id and a name
  // are one to one.
  lemma {:induction false} EveryUseMakesOneCall(lines: seq<Line<Entry>>, mode: Mode)
    requires ParseSpec(lines, mode).Parsed? && NoIdRepeats(Records(lines), mode)
    ensures exists at :: OneCallEach(Records(lines), mode, ParseSpec(lines, mode).value.calls, at)
  {
    var es := Records(lines);
    var calls, at := ParseSpec(lines, mode).value.calls, CallIndex(es, mode);
    forall p | Opening(es, mode, p)
      ensures at(p) < |calls| && Made(es, mode, p, calls[at(p)])
    {
      MadeAt(es, mode, p);
      FinishAt(Stream(Events(es, mode)), at(p));
    }
    forall p, q | Opening(es, mode, p) && Opening(es, mode, q) && at(p) == at(q)
      ensures p == q
    {
      OwnCall(es, mode, p, q);
    }
    forall i: nat | i < |calls|
      ensures HasPlace(es, mode, at, i)
    {
      PlaceOfCall(es, mode, i);
    }
    forall p, q | Opening(es, mode, p) && Opening(es, mode, q)
      ensures InOrder(es, mode, calls, at, p, q)
    {
      PlacesInOrder(es, mode, calls, p, q);
    }
    assert OneCallEach(es, mode, calls, at);
  }
}
