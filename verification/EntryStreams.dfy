/**
 Where the blocks of a Claude transcript stand in the stream of uses and results the parser makes of it
 (src/toolbench/parsers.py, `_enqueue_tool_uses` and `_join_results`).

 A place is a block of an entry. Its use stands among the uses of its entry, which come before the
 results of the same entry; the result of a place stands among the results of the first entry, from
 its own on, that carries its id.
 */
module EntryStreams {
  import opened Options
  import opened Transcript
  import opened ToolJoin
  import opened JoinLaws
  import opened CallRecords
  import opened ClaudeParser
  import CallTraces

  /******* What the entries say *******/

  function BlocksOf(e: Entry): seq<Block> {
    if e.message.Some? && e.message.value.content.Some? then e.message.value.content.value else []
  }

  // Under turn tracking only what the assistant wrote opens a call.
  predicate OpensCall(e: Entry, b: Block, mode: Mode) {
    && b.ToolUse? && b.id.Some? && b.name.Some?
    && (mode.trackTurns ==> !e.userType && e.message.Some? && !e.message.value.userRole)
  }

  // A block of an entry.
  datatype Place = Place(entry: nat, block: nat)

  predicate Opening(es: seq<Entry>, mode: Mode, p: Place) {
    && p.entry < |es| && p.block < |BlocksOf(es[p.entry])|
    && OpensCall(es[p.entry], BlocksOf(es[p.entry])[p.block], mode)
  }

  function BlockAt(es: seq<Entry>, mode: Mode, p: Place): (b: Block)
    requires Opening(es, mode, p)
    ensures b.ToolUse? && b.id.Some? && b.name.Some?
  {
    BlocksOf(es[p.entry])[p.block]
  }

  predicate Before(p: Place, q: Place) {
    p.entry < q.entry || (p.entry == q.entry && p.block < q.block)
  }

  ghost predicate NoIdRepeats(es: seq<Entry>, mode: Mode) {
    forall p, q :: Opening(es, mode, p) && Opening(es, mode, q) && p != q ==>
                     BlockAt(es, mode, p).id != BlockAt(es, mode, q).id
  }

  // A result block carries its own id, or lacks one and goes by the entry's.
  predicate Carries(f: Entry, b: Block, id: string) {
    b.ToolResult? && (b.toolUseId == Some(id) || (b.toolUseId == None && f.toolUseID == Id(id)))
  }

  predicate NoResultBlock(f: Entry) {
    forall b :: b in BlocksOf(f) ==> !b.ToolResult?
  }

  // An entry without result blocks may carry a result itself.
  predicate CarriesItself(f: Entry, id: string) {
    NoResultBlock(f) && f.toolUseID == Id(id)
  }

  ghost predicate CarriesId(f: Entry, id: string) {
    (exists b :: b in BlocksOf(f) && Carries(f, b, id)) || CarriesItself(f, id)
  }

  /******* Where the events of an entry stand in the stream *******/

  lemma EventsPrefix(es: seq<Entry>, mode: Mode, a: nat)
    requires a <= |es|
    ensures Events(es[..a], mode) <= Events(es, mode)
  {
    if a < |es| {
      var init := es[..|es| - 1];
      EventsPrefix(init, mode, a);
      assert init[..a] == es[..a];
    } else {
      assert es[..a] == es;
    }
  }

  function From(es: seq<Entry>, mode: Mode, a: nat): nat
    requires a <= |es|
  {
    |Events(es[..a], mode)|
  }

  lemma FromGrows(es: seq<Entry>, mode: Mode, a: nat, b: nat)
    requires a <= b <= |es|
    ensures From(es, mode, a) <= From(es, mode, b)
  {
    EventsPrefix(es[..b], mode, a);
    assert es[..b][..a] == es[..a];
  }

  lemma {:induction false} EntryOfEvent(es: seq<Entry>, mode: Mode, k: nat)
    requires k < |Events(es, mode)|
    ensures exists a: nat, i: nat :: IsEventOf(es, mode, k, a, i)
  {
    var n := |es| - 1;
    var init := es[..n];
    if k < |Events(init, mode)| {
      EntryOfEvent(init, mode, k);
      var a: nat, i: nat :| IsEventOf(init, mode, k, a, i);
      assert init[..a] == es[..a];
      assert IsEventOf(es, mode, k, a, i);
    } else {
      assert IsEventOf(es, mode, k, n, k - |Events(init, mode)|);
    }
  }

  predicate IsEventOf(es: seq<Entry>, mode: Mode, k: nat, a: nat, i: nat) {
    a < |es| && k == From(es, mode, a) + i && i < |EntryEvents(es[a], mode)|
  }

  /******* Uses *******/

  lemma UsesPrefix(blocks: seq<Block>, e: Entry, mode: Mode, j: nat)
    requires j <= |blocks|
    ensures UseEvents(blocks[..j], e, mode) <= UseEvents(blocks, e, mode)
  {
    if j < |blocks| {
      UsesPrefix(blocks[..|blocks| - 1], e, mode, j);
      assert blocks[..|blocks| - 1][..j] == blocks[..j];
    } else {
      assert blocks[..j] == blocks;
    }
  }

  lemma UseOfBlock(blocks: seq<Block>, e: Entry, mode: Mode, j: nat)
    requires blocks == BlocksOf(e) && j < |blocks| && OpensCall(e, blocks[j], mode)
    ensures var before, uses := |UseEvents(blocks[..j], e, mode)|, UseEvents(blocks, e, mode);
            && before + 1 == |UseEvents(blocks[..j + 1], e, mode)| <= |uses|
            && uses[before] == Use(blocks[j].id.value, CallOf(blocks[j], e, mode))
  {
    UsesPrefix(blocks, e, mode, j + 1);
    assert blocks[..j + 1][..j] == blocks[..j];
    assert Enqueues(blocks[j], e, mode);
  }

  lemma {:induction false} BlockOfUse(blocks: seq<Block>, e: Entry, mode: Mode, i: nat)
    requires i < |UseEvents(blocks, e, mode)|
    ensures exists j: nat :: j < |blocks| && OpensCall(e, blocks[j], mode) && |UseEvents(blocks[..j], e, mode)| == i
  {
    var n := |blocks| - 1;
    var init := blocks[..n];
    if i < |UseEvents(init, e, mode)| {
      BlockOfUse(init, e, mode, i);
      var j: nat :| j < n && OpensCall(e, init[j], mode) && |UseEvents(init[..j], e, mode)| == i;
      assert init[..j] == blocks[..j] && init[j] == blocks[j];
    } else {
      assert OpensCall(e, blocks[n], mode);
    }
  }

  function UseAt(es: seq<Entry>, mode: Mode, p: Place): nat
    requires Opening(es, mode, p)
  {
    From(es, mode, p.entry) + |UseEvents(BlocksOf(es[p.entry])[..p.block], es[p.entry], mode)|
  }

  function Uses(e: Entry, mode: Mode): seq<Event<PendingCall, ResultInfo>> {
    UseEvents(BlocksOf(e), e, mode)
  }

  function Answerings(e: Entry): seq<Event<PendingCall, ResultInfo>> {
    ResultEvents(e, ResultSources(e))
  }

  lemma EntryIs(e: Entry, mode: Mode)
    ensures EntryEvents(e, mode) == Uses(e, mode) + Answerings(e)
  {
    assert Content(e).GetOr([]) == BlocksOf(e);
  }

  lemma OneMoreEntry(es: seq<Entry>, mode: Mode, a: nat)
    requires a < |es|
    ensures Events(es[..a + 1], mode) == Events(es[..a], mode) + EntryEvents(es[a], mode)
  {
    assert es[..a + 1][..a] == es[..a];
  }

  lemma EntryEnds(es: seq<Entry>, mode: Mode, a: nat)
    requires a < |es|
    ensures From(es, mode, a + 1) == From(es, mode, a) + |Uses(es[a], mode)| + |Answerings(es[a])| <= |Events(es, mode)|
  {
    EntryIs(es[a], mode);
    EventsPrefix(es, mode, a + 1);
    OneMoreEntry(es, mode, a);
  }

  lemma MiddleAt<T>(whole: seq<T>, a: seq<T>, b: seq<T>, c: seq<T>, d: seq<T>)
    requires whole == a + b + c + d
    ensures |a| + |b| + |c| <= |whole|
    ensures forall i :: 0 <= i < |b| ==> whole[|a| + i] == b[i]
    ensures forall i :: 0 <= i < |c| ==> whole[|a| + |b| + i] == c[i]
  {}

  lemma Rest<T>(a: seq<T>, u: seq<T>, r: seq<T>, whole: seq<T>)
    requires a + (u + r) <= whole
    ensures whole == a + u + r + whole[|a| + |u| + |r|..]
  {}

  lemma EventsAround(es: seq<Entry>, mode: Mode, a: nat) returns (rest: seq<Event<PendingCall, ResultInfo>>)
    requires a < |es|
    ensures Events(es, mode) == Events(es[..a], mode) + Uses(es[a], mode) + Answerings(es[a]) + rest
  {
    var all, uses, answers := Events(es, mode), Uses(es[a], mode), Answerings(es[a]);
    EventsPrefix(es, mode, a + 1);
    EntryIs(es[a], mode);
    OneMoreEntry(es, mode, a);
    Rest(Events(es[..a], mode), uses, answers, all);
    rest := all[|Events(es[..a], mode)| + |uses| + |answers|..];
  }

  lemma UseEventAt(es: seq<Entry>, mode: Mode, a: nat, i: nat)
    requires a < |es| && i < |Uses(es[a], mode)|
    ensures From(es, mode, a) + i < |Events(es, mode)|
    ensures Events(es, mode)[From(es, mode, a) + i] == Uses(es[a], mode)[i]
  {
    var rest := EventsAround(es, mode, a);
    MiddleAt(Events(es, mode), Events(es[..a], mode), Uses(es[a], mode), Answerings(es[a]), rest);
  }

  lemma ResultEventAt(es: seq<Entry>, mode: Mode, a: nat, i: nat)
    requires a < |es| && i < |Answerings(es[a])|
    ensures From(es, mode, a) + |Uses(es[a], mode)| + i < |Events(es, mode)|
    ensures Events(es, mode)[From(es, mode, a) + |Uses(es[a], mode)| + i] == Answerings(es[a])[i]
  {
    var rest := EventsAround(es, mode, a);
    MiddleAt(Events(es, mode), Events(es[..a], mode), Uses(es[a], mode), Answerings(es[a]), rest);
  }

  // The event of a place is its use, among the uses of its entry.
  lemma UseAtMeaning(es: seq<Entry>, mode: Mode, p: Place)
    requires Opening(es, mode, p)
    ensures UseAt(es, mode, p) < |Events(es, mode)|
    ensures Events(es, mode)[UseAt(es, mode, p)] ==
            Use(BlockAt(es, mode, p).id.value, CallOf(BlockAt(es, mode, p), es[p.entry], mode))
    ensures UseAt(es, mode, p) < From(es, mode, p.entry) + |Uses(es[p.entry], mode)|
  {
    var e := es[p.entry];
    var before := |UseEvents(BlocksOf(e)[..p.block], e, mode)|;
    UseInUses(e, mode, p.block);
    UseEventAt(es, mode, p.entry, before);
  }

  lemma UseInUses(e: Entry, mode: Mode, j: nat)
    requires j < |BlocksOf(e)| && OpensCall(e, BlocksOf(e)[j], mode)
    ensures var b, before := BlocksOf(e)[j], |UseEvents(BlocksOf(e)[..j], e, mode)|;
            before < |Uses(e, mode)| && Uses(e, mode)[before] == Use(b.id.value, CallOf(b, e, mode))
  {
    UseOfBlock(BlocksOf(e), e, mode, j);
  }

  lemma UsesInOrder(e: Entry, mode: Mode, i: nat, j: nat)
    requires i < j <= |BlocksOf(e)| && OpensCall(e, BlocksOf(e)[i], mode)
    ensures |UseEvents(BlocksOf(e)[..i], e, mode)| < |UseEvents(BlocksOf(e)[..j], e, mode)|
  {
    var blocks := BlocksOf(e);
    UseOfBlock(blocks, e, mode, i);
    UsesPrefix(blocks[..j], e, mode, i + 1);
    assert blocks[..j][..i + 1] == blocks[..i + 1];
  }

  lemma UseAtGrows(es: seq<Entry>, mode: Mode, p: Place, q: Place)
    requires Opening(es, mode, p) && Opening(es, mode, q) && Before(p, q)
    ensures UseAt(es, mode, p) < UseAt(es, mode, q)
  {
    if p.entry < q.entry {
      UseAtMeaning(es, mode, p);
      EntryEnds(es, mode, p.entry);
      FromGrows(es, mode, p.entry + 1, q.entry);
    } else {
      UsesInOrder(es[p.entry], mode, p.block, q.block);
    }
  }

  lemma ResultsAreResults(e: Entry, rs: seq<Option<Block>>, i: nat)
    requires forall r :: r in rs && r.Some? ==> r.value.ToolResult?
    requires i < |ResultEvents(e, rs)|
    ensures ResultEvents(e, rs)[i].Result?
  {
    CallTraces.ResultSource(e, rs, ResultEvents(e, rs)[i]);
  }

  lemma UseInEntry(es: seq<Entry>, mode: Mode, a: nat, i: nat)
    requires a < |es| && i < |Uses(es[a], mode)|
    ensures exists p :: Opening(es, mode, p) && UseAt(es, mode, p) == From(es, mode, a) + i
  {
    var blocks := BlocksOf(es[a]);
    BlockOfUse(blocks, es[a], mode, i);
    var j: nat :| j < |blocks| && OpensCall(es[a], blocks[j], mode) && |UseEvents(blocks[..j], es[a], mode)| == i;
    assert Opening(es, mode, Place(a, j));
    assert UseAt(es, mode, Place(a, j)) == From(es, mode, a) + i;
  }

  predicate IsUseOf(es: seq<Entry>, mode: Mode, k: nat, a: nat, i: nat) {
    a < |es| && i < |Uses(es[a], mode)| && k == From(es, mode, a) + i
  }

  predicate IsAnswerOf(es: seq<Entry>, mode: Mode, k: nat, a: nat, i: nat) {
    a < |es| && i < |Answerings(es[a])| && k == From(es, mode, a) + |Uses(es[a], mode)| + i
  }

  lemma SplitEvent(es: seq<Entry>, mode: Mode, k: nat)
    requires k < |Events(es, mode)|
    ensures exists a: nat, i: nat :: IsUseOf(es, mode, k, a, i) || IsAnswerOf(es, mode, k, a, i)
  {
    EntryOfEvent(es, mode, k);
    var a: nat, i: nat :| IsEventOf(es, mode, k, a, i);
    EntryIs(es[a], mode);
    var uses := |Uses(es[a], mode)|;
    if i < uses {
      assert IsUseOf(es, mode, k, a, i);
    } else {
      assert IsAnswerOf(es, mode, k, a, i - uses);
    }
  }

  lemma AnswersAreResults(es: seq<Entry>, mode: Mode, k: nat, a: nat, i: nat)
    requires IsAnswerOf(es, mode, k, a, i)
    ensures k < |Events(es, mode)| && Events(es, mode)[k] == Answerings(es[a])[i] && Answerings(es[a])[i].Result?
  {
    ResultEventAt(es, mode, a, i);
    ResultsAreResults(es[a], ResultSources(es[a]), i);
  }

  // Every use in the stream is the use of a place.
  lemma UseAtOnto(es: seq<Entry>, mode: Mode, k: nat)
    requires k < |Events(es, mode)| && Events(es, mode)[k].Use?
    ensures exists p :: Opening(es, mode, p) && UseAt(es, mode, p) == k
  {
    SplitEvent(es, mode, k);
    var a: nat, i: nat :| IsUseOf(es, mode, k, a, i) || IsAnswerOf(es, mode, k, a, i);
    if IsAnswerOf(es, mode, k, a, i) {
      AnswersAreResults(es, mode, k, a, i);
    } else {
      UseInEntry(es, mode, a, i);
    }
  }

  lemma PlacesCompare(p: Place, q: Place)
    ensures p == q || Before(p, q) || Before(q, p)
  {}

  lemma UseAtInjective(es: seq<Entry>, mode: Mode, p: Place, q: Place)
    requires Opening(es, mode, p) && Opening(es, mode, q) && UseAt(es, mode, p) == UseAt(es, mode, q)
    ensures p == q
  {
    PlacesCompare(p, q);
    if Before(p, q) {
      UseAtGrows(es, mode, p, q);
    } else if Before(q, p) {
      UseAtGrows(es, mode, q, p);
    }
  }

  lemma NoRepeatsIsDistinct(es: seq<Entry>, mode: Mode)
    requires NoIdRepeats(es, mode)
    ensures DistinctUseIds(Events(es, mode))
  {
    var events := Events(es, mode);
    forall k: nat, l: nat | k < l < |events| && events[k].Use? && events[l].Use?
      ensures events[k].id != events[l].id
    {
      UseAtOnto(es, mode, k);
      UseAtOnto(es, mode, l);
      var p :| Opening(es, mode, p) && UseAt(es, mode, p) == k;
      var q :| Opening(es, mode, q) && UseAt(es, mode, q) == l;
      UseAtMeaning(es, mode, p);
      UseAtMeaning(es, mode, q);
      assert BlockAt(es, mode, p).id != BlockAt(es, mode, q).id;
    }
  }

  /******* Results *******/

  // The results the blocks of an entry carry.
  function BlockResults(e: Entry, blocks: seq<Block>): seq<Event<PendingCall, ResultInfo>> {
    ResultEvents(e, ResultBlocks(blocks))
  }

  lemma BlockResultsLast(e: Entry, blocks: seq<Block>)
    requires blocks != []
    ensures var init, last := blocks[..|blocks| - 1], blocks[|blocks| - 1];
            BlockResults(e, blocks) ==
            BlockResults(e, init) + if last.ToolResult? then ResultEvent(e, Some(last)) else []
  {
    var init, last := blocks[..|blocks| - 1], blocks[|blocks| - 1];
    var rs := ResultBlocks(init);
    if last.ToolResult? {
      assert (rs + [Some(last)])[..|rs|] == rs;
    }
  }

  lemma BlockResultsPrefix(e: Entry, blocks: seq<Block>, j: nat)
    requires j <= |blocks|
    ensures BlockResults(e, blocks[..j]) <= BlockResults(e, blocks)
  {
    if j < |blocks| {
      BlockResultsLast(e, blocks);
      BlockResultsPrefix(e, blocks[..|blocks| - 1], j);
      assert blocks[..|blocks| - 1][..j] == blocks[..j];
    } else {
      assert blocks[..j] == blocks;
    }
  }

  // What a result block says: its own content, else the entry's.
  predicate Says(res: ResultInfo, f: Entry, b: Block)
    requires b.ToolResult?
  {
    && res.error == b.isError
    && (if b.content.Some? then res.outputChars == b.content.value && res.source == Some("block_local")
        else SaysItself(res, f))
  }

  predicate SaysItself(res: ResultInfo, f: Entry) {
    if f.toolUseResult.Some? then res.outputChars == f.toolUseResult.value && res.source == Some("top_level")
    else res.outputChars == 4 && res.source == None
  }

  lemma EventOfBlock(e: Entry, b: Block, id: string)
    requires Carries(e, b, id)
    ensures ResultEvent(e, Some(b)) == [Result(id, PayloadOf(e, Some(b)))] && Says(PayloadOf(e, Some(b)), e, b)
  {}

  lemma ResultOfBlock(e: Entry, blocks: seq<Block>, j: nat, id: string)
    requires j < |blocks| && Carries(e, blocks[j], id)
    ensures var before, all := |BlockResults(e, blocks[..j])|, BlockResults(e, blocks);
            before < |all| && all[before] == Result(id, PayloadOf(e, Some(blocks[j])))
  {
    BlockResultsPrefix(e, blocks, j + 1);
    BlockResultsLast(e, blocks[..j + 1]);
    EventOfBlock(e, blocks[j], id);
    assert blocks[..j + 1][..j] == blocks[..j];
  }

  lemma {:induction false} BlockOfResult(e: Entry, blocks: seq<Block>, i: nat)
    requires i < |BlockResults(e, blocks)|
    ensures exists j: nat ::
              && j < |blocks| && Carries(e, blocks[j], BlockResults(e, blocks)[i].id)
              && |BlockResults(e, blocks[..j])| == i
  {
    var n := |blocks| - 1;
    var init, last := blocks[..n], blocks[n];
    BlockResultsLast(e, blocks);
    if i < |BlockResults(e, init)| {
      BlockOfResult(e, init, i);
      var j: nat :|
        j < n && Carries(e, init[j], BlockResults(e, init)[i].id) && |BlockResults(e, init[..j])| == i;
      assert init[..j] == blocks[..j] && init[j] == blocks[j];
    } else {
      assert Carries(e, blocks[n], BlockResults(e, blocks)[i].id);
    }
  }

  ghost predicate FirstCarrier(f: Entry, id: string, j: nat) {
    && j < |BlocksOf(f)| && Carries(f, BlocksOf(f)[j], id)
    && forall i :: 0 <= i < j ==> !Carries(f, BlocksOf(f)[i], id)
  }

  // The entry's first block with the id says this, or the entry itself does.
  ghost predicate AnswersAs(f: Entry, id: string, res: ResultInfo) {
    || (exists j: nat :: FirstCarrier(f, id, j) && Says(res, f, BlocksOf(f)[j]))
    || (CarriesItself(f, id) && !res.error && SaysItself(res, f))
  }

  lemma ResultBlocksOf(f: Entry)
    ensures NoResultBlock(f) <==> ResultBlocks(BlocksOf(f)) == []
  {
    var rs := ResultBlocks(BlocksOf(f));
    if rs != [] {
      CallTraces.ResultBlocksAre(BlocksOf(f), rs[0]);
    }
    forall b | b in BlocksOf(f) && b.ToolResult?
      ensures Some(b) in rs
    {
      CallTraces.ResultBlocksAre(BlocksOf(f), Some(b));
    }
  }

  lemma AnsweringsAre(f: Entry)
    ensures !NoResultBlock(f) ==> Answerings(f) == BlockResults(f, BlocksOf(f))
    ensures NoResultBlock(f) ==>
              Answerings(f) == if f.toolUseID.Id? then [Result(f.toolUseID.id, PayloadOf(f, None))] else []
    ensures PayloadOf(f, None).error == false && SaysItself(PayloadOf(f, None), f)
  {
    ResultBlocksOf(f);
    assert Content(f).GetOr([]) == BlocksOf(f);
    if NoResultBlock(f) && !f.toolUseID.NoKey? {
      assert ResultEvents(f, [None]) == ResultEvents(f, []) + ResultEvent(f, None);
    }
  }

  ghost predicate FirstWithId(events: seq<Event<PendingCall, ResultInfo>>, id: string, i: nat) {
    i < |events| && events[i].Result? && events[i].id == id && forall h :: 0 <= h < i ==> events[h].id != id
  }

  lemma FirstExists(events: seq<Event<PendingCall, ResultInfo>>, id: string, k: nat)
    requires k < |events| && events[k].id == id && forall h :: 0 <= h < |events| ==> events[h].Result?
    ensures exists i: nat :: FirstWithId(events, id, i)
  {
    if exists h :: 0 <= h < k && events[h].id == id {
      var h :| 0 <= h < k && events[h].id == id;
      FirstExists(events, id, h);
    } else {
      assert FirstWithId(events, id, k);
    }
  }

  lemma FirstIsFirstCarrier(f: Entry, id: string, i: nat)
    requires !NoResultBlock(f) && FirstWithId(Answerings(f), id, i)
    ensures exists j: nat ::
              && FirstCarrier(f, id, j) && Says(Answerings(f)[i].res, f, BlocksOf(f)[j])
              && |BlockResults(f, BlocksOf(f)[..j])| == i
  {
    var blocks := BlocksOf(f);
    AnsweringsAre(f);
    BlockOfResult(f, blocks, i);
    var j: nat :| j < |blocks| && Carries(f, blocks[j], id) && |BlockResults(f, blocks[..j])| == i;
    ResultOfBlock(f, blocks, j, id);
    EventOfBlock(f, blocks[j], id);
    forall h | 0 <= h < j && Carries(f, blocks[h], id)
      ensures false
    {
      ResultOfBlock(f, blocks, h, id);
      BlocksBefore(f, blocks, h, j, id);
    }
    assert FirstCarrier(f, id, j);
  }

  lemma BlocksBefore(f: Entry, blocks: seq<Block>, h: nat, j: nat, id: string)
    requires h < j <= |blocks| && Carries(f, blocks[h], id)
    ensures |BlockResults(f, blocks[..h])| < |BlockResults(f, blocks[..j])|
  {
    assert blocks[..j][..h] == blocks[..h];
    ResultOfBlock(f, blocks[..j], h, id);
  }

  lemma FirstAnswersAs(f: Entry, id: string, i: nat)
    requires FirstWithId(Answerings(f), id, i)
    ensures AnswersAs(f, id, Answerings(f)[i].res)
  {
    AnsweringsAre(f);
    if !NoResultBlock(f) {
      FirstIsFirstCarrier(f, id, i);
    }
  }

  // An entry answers an id exactly when it carries it.
  lemma CarriersAnswer(f: Entry, id: string)
    ensures CarriesId(f, id) <==> exists i: nat :: FirstWithId(Answerings(f), id, i)
  {
    AnsweringsAre(f);
    if CarriesId(f, id) {
      CarrierIsFound(f, id);
    }
    if i: nat :| FirstWithId(Answerings(f), id, i) {
      FirstAnswersAs(f, id, i);
    }
  }

  lemma CarrierIsFound(f: Entry, id: string)
    requires CarriesId(f, id)
    ensures exists i: nat :: FirstWithId(Answerings(f), id, i)
  {
    AnsweringsAre(f);
    forall h | 0 <= h < |Answerings(f)|
      ensures Answerings(f)[h].Result?
    {
      ResultsAreResults(f, ResultSources(f), h);
    }
    var blocks := BlocksOf(f);
    if NoResultBlock(f) {
      FirstExists(Answerings(f), id, 0);
    } else {
      var b :| b in blocks && Carries(f, b, id);
      var j :| 0 <= j < |blocks| && blocks[j] == b;
      ResultOfBlock(f, blocks, j, id);
      FirstExists(Answerings(f), id, |BlockResults(f, blocks[..j])|);
    }
  }

  /******* The answer of a place *******/

  // The first entry from a on that carries the id.
  ghost predicate FirstAnswer(es: seq<Entry>, a: nat, id: string, f: nat) {
    a <= f < |es| && CarriesId(es[f], id) && forall g :: a <= g < f ==> !CarriesId(es[g], id)
  }

  lemma FirstAnswerExists(es: seq<Entry>, a: nat, id: string, g: nat)
    requires a <= g < |es| && CarriesId(es[g], id)
    ensures exists f: nat :: FirstAnswer(es, a, id, f)
  {
    if h: nat :| a <= h < g && CarriesId(es[h], id) {
      FirstAnswerExists(es, a, id, h);
    } else {
      assert FirstAnswer(es, a, id, g);
    }
  }

  function AnswerPos(es: seq<Entry>, mode: Mode, f: nat, i: nat): nat
    requires f < |es|
  {
    From(es, mode, f) + |Uses(es[f], mode)| + i
  }

  // An event behind a use, up to the end of an entry, that answers it comes from one of the entries between.
  lemma AnswerBetween(es: seq<Entry>, mode: Mode, p: Place, k: nat, a: nat, i: nat, id: string)
    requires Opening(es, mode, p) && UseAt(es, mode, p) < k && IsAnswerOf(es, mode, k, a, i)
    requires Answerings(es[a])[i].id == id
    ensures p.entry <= a && CarriesId(es[a], id)
  {
    if a < p.entry {
      EntryEnds(es, mode, a);
      FromGrows(es, mode, a + 1, p.entry);
    }
    forall h | 0 <= h < |Answerings(es[a])|
      ensures Answerings(es[a])[h].Result?
    {
      ResultsAreResults(es[a], ResultSources(es[a]), h);
    }
    FirstExists(Answerings(es[a]), id, i);
    CarriersAnswer(es[a], id);
  }

  lemma AnswersInOrder(es: seq<Entry>, mode: Mode, a: nat, i: nat, f: nat, j: nat)
    requires a < |es| && f < |es| && i < |Answerings(es[a])| && j < |Answerings(es[f])|
    requires AnswerPos(es, mode, a, i) < AnswerPos(es, mode, f, j)
    ensures a < f || (a == f && i < j)
  {
    if f < a {
      EntryEnds(es, mode, f);
      FromGrows(es, mode, f + 1, a);
    }
  }

  // The first entry with the id answers the place, by its first event with it.
  lemma PlaceAnswered(es: seq<Entry>, mode: Mode, p: Place, f: nat, i: nat)
    requires Opening(es, mode, p)
    requires var id := BlockAt(es, mode, p).id.value;
             FirstAnswer(es, p.entry, id, f) && FirstWithId(Answerings(es[f]), id, i)
    ensures Answers(Events(es, mode), UseAt(es, mode, p), AnswerPos(es, mode, f, i))
    ensures Events(es, mode)[AnswerPos(es, mode, f, i)] == Answerings(es[f])[i]
  {
    IdOfUse(es, mode, p);
    AnswerEvent(es, mode, f, i, BlockAt(es, mode, p).id.value);
    AnswerIsLater(es, mode, p, f, i);
    OnlyUsesBetween(es, mode, p, f, i);
    UsesBetween(Events(es, mode), UseAt(es, mode, p), AnswerPos(es, mode, f, i), BlockAt(es, mode, p).id.value);
  }

  lemma IdOfUse(es: seq<Entry>, mode: Mode, p: Place)
    requires Opening(es, mode, p)
    ensures UseAt(es, mode, p) < |Events(es, mode)|
    ensures Events(es, mode)[UseAt(es, mode, p)].Use?
    ensures Events(es, mode)[UseAt(es, mode, p)].id == BlockAt(es, mode, p).id.value
  {
    UseAtMeaning(es, mode, p);
  }

  lemma AnswerEvent(es: seq<Entry>, mode: Mode, f: nat, i: nat, id: string)
    requires f < |es| && FirstWithId(Answerings(es[f]), id, i)
    ensures AnswerPos(es, mode, f, i) < |Events(es, mode)|
    ensures Events(es, mode)[AnswerPos(es, mode, f, i)] == Answerings(es[f])[i]
    ensures Events(es, mode)[AnswerPos(es, mode, f, i)].Result?
    ensures Events(es, mode)[AnswerPos(es, mode, f, i)].id == id
  {
    ResultEventAt(es, mode, f, i);
  }

  lemma OnlyUsesBetween(es: seq<Entry>, mode: Mode, p: Place, f: nat, i: nat)
    requires Opening(es, mode, p)
    requires var id := BlockAt(es, mode, p).id.value;
             FirstAnswer(es, p.entry, id, f) && FirstWithId(Answerings(es[f]), id, i)
    requires AnswerPos(es, mode, f, i) < |Events(es, mode)|
    ensures var events := Events(es, mode);
            forall h: nat ::
              UseAt(es, mode, p) < h < AnswerPos(es, mode, f, i) &&
              events[h].id == BlockAt(es, mode, p).id.value ==>
                events[h].Use?
  {
    var events, id := Events(es, mode), BlockAt(es, mode, p).id.value;
    var u, k := UseAt(es, mode, p), AnswerPos(es, mode, f, i);
    forall h: nat | u < h < k && events[h].id == id
      ensures events[h].Use?
    {
      NoEarlierAnswer(es, mode, p, f, i, h);
    }
  }

  lemma UsesBetween<U, R>(events: seq<Event<U, R>>, u: nat, k: nat, id: string)
    requires u < k < |events| && events[u].Use? && events[k].Result? && events[u].id == events[k].id == id
    requires forall h: nat :: u < h < k && events[h].id == id ==> events[h].Use?
    ensures Answers(events, u, k)
  {}

  lemma AnswerIsLater(es: seq<Entry>, mode: Mode, p: Place, f: nat, i: nat)
    requires Opening(es, mode, p) && p.entry <= f < |es|
    ensures UseAt(es, mode, p) < AnswerPos(es, mode, f, i)
  {
    UseAtMeaning(es, mode, p);
    UsesEndBefore(es, mode, p.entry, f);
  }

  lemma UsesEndBefore(es: seq<Entry>, mode: Mode, a: nat, f: nat)
    requires a <= f < |es|
    ensures From(es, mode, a) + |Uses(es[a], mode)| <= From(es, mode, f) + |Uses(es[f], mode)|
  {
    if a < f {
      EntryEnds(es, mode, a);
      FromGrows(es, mode, a + 1, f);
    }
  }

  lemma NoEarlierAnswer(es: seq<Entry>, mode: Mode, p: Place, f: nat, i: nat, k: nat)
    requires Opening(es, mode, p) && UseAt(es, mode, p) < k < |Events(es, mode)|
    requires var id := BlockAt(es, mode, p).id.value;
             && FirstAnswer(es, p.entry, id, f) && FirstWithId(Answerings(es[f]), id, i)
             && Events(es, mode)[k].id == id
    ensures k < AnswerPos(es, mode, f, i) ==> Events(es, mode)[k].Use?
  {
    var id := BlockAt(es, mode, p).id.value;
    SplitEvent(es, mode, k);
    var a: nat, j: nat :| IsUseOf(es, mode, k, a, j) || IsAnswerOf(es, mode, k, a, j);
    if IsUseOf(es, mode, k, a, j) {
      UsesAreUses(es, mode, k, a, j);
    } else {
      AnswersAreResults(es, mode, k, a, j);
      AnswerBetween(es, mode, p, k, a, j, id);
      if k < AnswerPos(es, mode, f, i) {
        AnswersInOrder(es, mode, a, j, f, i);
      }
    }
  }

  lemma UsesAreUses(es: seq<Entry>, mode: Mode, k: nat, a: nat, i: nat)
    requires IsUseOf(es, mode, k, a, i)
    ensures k < |Events(es, mode)| && Events(es, mode)[k].Use?
  {
    UseEventAt(es, mode, a, i);
    CallTraces.UseSource(BlocksOf(es[a]), es[a], mode, Uses(es[a], mode)[i]);
  }

  // A place is answered exactly when its entry or a later one carries its id.
  lemma AnsweredMeaning(es: seq<Entry>, mode: Mode, p: Place)
    requires Opening(es, mode, p)
    ensures Answered(Events(es, mode), UseAt(es, mode, p)) <==>
            exists f: nat :: FirstAnswer(es, p.entry, BlockAt(es, mode, p).id.value, f)
  {
    var events, id := Events(es, mode), BlockAt(es, mode, p).id.value;
    UseAtMeaning(es, mode, p);
    if f: nat :| FirstAnswer(es, p.entry, id, f) {
      CarriersAnswer(es[f], id);
      var i: nat :| FirstWithId(Answerings(es[f]), id, i);
      PlaceAnswered(es, mode, p, f, i);
    }
    if k: nat :| Answers(events, UseAt(es, mode, p), k) {
      SplitEvent(es, mode, k);
      var a: nat, j: nat :| IsUseOf(es, mode, k, a, j) || IsAnswerOf(es, mode, k, a, j);
      if IsUseOf(es, mode, k, a, j) {
        UsesAreUses(es, mode, k, a, j);
      } else {
        AnswersAreResults(es, mode, k, a, j);
        AnswerBetween(es, mode, p, k, a, j, id);
        FirstAnswerExists(es, p.entry, id, a);
      }
    }
  }
}
