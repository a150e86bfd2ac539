/**
 Discovery through AgentsView (src/toolbench/sources.py): the paged listings, the probe that tells
 parents from children, and the census that gives the report its denominators.
 */
module Sources {
  // AgentsView is an immutable archive that answers a query page by page; how it cuts a listing into
  // pages, and at which page it may fail, is arbitrary.

  import opened Options
  import opened Sorting
  import opened Sums

  datatype Session = Session(
    id: string,
    agent: string,
    project: string,
    date: int,
    child: bool,
    automated: bool,
    oneShot: bool)

  // Which of the sessions AgentsView leaves out by default a query opts into.
  datatype Includes = Includes(children: bool, automated: bool, oneShot: bool)

  const ALL_INCLUDES := Includes(true, true, true)
  const PROBE_INCLUDES := Includes(false, true, true)

  // The census describes the population the report counts.
  function CensusIncludes(includeSubagents: bool): Includes {
    if includeSubagents then ALL_INCLUDES else PROBE_INCLUDES
  }

  datatype Scope = Scope(agent: string, project: Option<string>, since: Option<int>)

  datatype Query = Query(scope: Scope, includes: Includes, limit: int)

  // The exceptions discovery tells apart.
  datatype Error = FileNotFound | OtherOsError | TimedOut | RuntimeFailure | ValueFailure | Unforeseen

  // `except (RuntimeError, ValueError)`; a timeout is a RuntimeError.
  predicate RuntimeOrValue(e: Error) {
    e.TimedOut? || e.RuntimeFailure? || e.ValueFailure?
  }

  datatype Outcome<T> = Ok(value: T) | Raised(error: Error)

  predicate Matches(s: Session, scope: Scope, includes: Includes) {
    && (scope.agent == "all" || s.agent == scope.agent)
    && (scope.project.Some? ==> s.project == scope.project.value)
    && (scope.since.Some? ==> s.date >= scope.since.value)
    && (s.child ==> includes.children)
    && (s.automated ==> includes.automated)
    && (s.oneShot ==> includes.oneShot)
  }

  function Listing(archive: seq<Session>, scope: Scope, includes: Includes): seq<Session> {
    if archive == [] then []
    else
      var last := archive[|archive| - 1];
      var rest := Listing(archive[..|archive| - 1], scope, includes);
      if Matches(last, scope, includes) then rest + [last] else rest
  }

  lemma ListingLast(archive: seq<Session>, last: Session, scope: Scope, includes: Includes)
    ensures Listing(archive + [last], scope, includes) ==
            Listing(archive, scope, includes) + if Matches(last, scope, includes) then [last] else []
  {
    assert (archive + [last])[..|archive|] == archive;
  }

  function Concat(pages: seq<seq<Session>>): seq<Session> {
    if pages == [] then [] else Concat(pages[..|pages| - 1]) + pages[|pages| - 1]
  }

  // Where a listing breaks off, and with what.
  datatype Break = Break(page: nat, error: Error)

  datatype AgentsView = AgentsView(
    archive: seq<Session>,
    pages: Query -> seq<seq<Session>>,
    breaks: Query -> Option<Break>,
    health: Option<Error>)
  {
    ghost predicate Valid() {
      forall q :: pages(q) != [] && Concat(pages(q)) == Listing(archive, q.scope, q.includes)
    }
  }

  // One answer: the rows of a page, the cursor of the next page if there is one, and the total.
  datatype Page = Page(sessions: seq<Session>, next: Option<nat>, total: nat)

  function Respond(av: AgentsView, q: Query, cursor: nat): Outcome<Page>
    requires cursor < |av.pages(q)|
  {
    var b := av.breaks(q);
    if b.Some? && b.value.page <= cursor then Raised(b.value.error)
    else
      Ok(Page(av.pages(q)[cursor],
              if cursor + 1 < |av.pages(q)| then Some(cursor + 1) else None,
              |Listing(av.archive, q.scope, q.includes)|))
  }

  // How many pages of a query can be read.
  function Readable(av: AgentsView, q: Query): nat {
    var b := av.breaks(q);
    if b.Some? && b.value.page < |av.pages(q)| then b.value.page else |av.pages(q)|
  }

  predicate Complete(av: AgentsView, q: Query) {
    Readable(av, q) == |av.pages(q)|
  }

  function IdsOf(ss: seq<Session>): set<string> {
    set s | s in ss :: s.id
  }

  function AgentsOf(ss: seq<Session>): set<string> {
    set s | s in ss :: s.agent
  }

  /******* The passes over a listing *******/

  // Parent ids and agents of the child-excluded listing.
  method ProbePass(av: AgentsView, scope: Scope, limit: int) returns (r: Outcome<(set<string>, set<string>)>)
    requires av.Valid()
    ensures var q := Query(scope, PROBE_INCLUDES, limit);
            var listing := Listing(av.archive, scope, PROBE_INCLUDES);
            r == if Complete(av, q) then Ok((IdsOf(listing), AgentsOf(listing))) else Raised(av.breaks(q).value.error)
  {
    var q := Query(scope, PROBE_INCLUDES, limit);
    var parents: set<string>, agents: set<string> := {}, {};
    var cursor := 0;
    while true
      invariant cursor < |av.pages(q)| && cursor <= Readable(av, q)
      invariant parents == IdsOf(Concat(av.pages(q)[..cursor]))
      invariant agents == AgentsOf(Concat(av.pages(q)[..cursor]))
      decreases |av.pages(q)| - cursor
    {
      var response := Respond(av, q, cursor);
      if response.Raised? {
        return Raised(response.error);
      }
      ConcatNext(av.pages(q), cursor);
      var rows := response.value.sessions;
      parents := parents + set s | s in rows :: s.id;
      agents := agents + set s | s in rows :: s.agent;
      if response.value.next.None? {
        assert av.pages(q)[..cursor + 1] == av.pages(q);
        return Ok((parents, agents));
      }
      cursor := response.value.next.value;
    }
  }

  lemma ConcatNext(pages: seq<seq<Session>>, cursor: nat)
    requires cursor < |pages|
    ensures Concat(pages[..cursor + 1]) == Concat(pages[..cursor]) + pages[cursor]
    ensures IdsOf(Concat(pages[..cursor + 1])) == IdsOf(Concat(pages[..cursor])) + IdsOf(pages[cursor])
    ensures AgentsOf(Concat(pages[..cursor + 1])) == AgentsOf(Concat(pages[..cursor])) + AgentsOf(pages[cursor])
  {
    assert pages[..cursor + 1][..cursor] == pages[..cursor];
  }

  // `--limit 1` asks for the count only.
  function ListTotal(av: AgentsView, scope: Scope, includes: Includes): Outcome<nat>
    requires av.Valid()
  {
    match Respond(av, Query(scope, includes, 1), 0)
    case Raised(e) => Raised(e)
    case Ok(page) => Ok(page.total)
  }

  datatype Census = Census(totals: map<string, nat>, archiveTotal: nat, unavailable: Option<Error>) {
    ghost function Residual(): int {
      archiveTotal - Sum(totals, Itself)
    }
  }

  function UnknownCensus(e: Error): Census {
    Census(map[], 0, Some(e))
  }

  function TotalOf(archive: seq<Session>, agent: string, scope: Scope, includes: Includes): nat {
    |Listing(archive, scope.(agent := agent), includes)|
  }

  // The first of these requests that fails.
  function FirstFailure(av: AgentsView, order: seq<string>, scope: Scope, includes: Includes): Option<Error>
    requires av.Valid()
  {
    if order == [] then None
    else
      match ListTotal(av, scope.(agent := order[0]), includes)
      case Raised(e) => Some(e)
      case Ok(_) => FirstFailure(av, order[1..], scope, includes)
  }

  // The error the census ends in: of the agents' requests in order, and then of the scope's own.
  ghost function CensusError(av: AgentsView, agents: set<string>, scope: Scope, includes: Includes): Option<Error>
    requires av.Valid()
  {
    match FirstFailure(av, InOrder(StringLeq, agents), scope, includes)
    case Some(e) => Some(e)
    case None =>
      match ListTotal(av, scope, includes)
      case Raised(e) => Some(e)
      case Ok(_) => None
  }

  function Totals(archive: seq<Session>, agents: set<string>, scope: Scope, includes: Includes): map<string, nat> {
    map a | a in agents :: TotalOf(archive, a, scope, includes)
  }

  // One total per agent, and the total of the run's own scope.
  method TakeCensus(av: AgentsView, agents: set<string>, scope: Scope, includes: Includes) returns (r: Outcome<Census>)
    requires av.Valid()
    ensures r == match CensusError(av, agents, scope, includes)
                 case Some(e) => Raised(e)
                 case None => Ok(FullCensus(av.archive, agents, scope, includes))
  {
    StringsAreOrdered();
    var order := ListInOrder(StringLeq, agents);
    var totals: map<string, nat> := map[];
    for i := 0 to |order|
      invariant totals == Totals(av.archive, Members(order[..i]), scope, includes)
      invariant FirstFailure(av, order, scope, includes) == FirstFailure(av, order[i..], scope, includes)
    {
      var total := ListTotal(av, scope.(agent := order[i]), includes);
      if total.Raised? {
        return Raised(total.error);
      }
      assert order[i..][1..] == order[i + 1..];
      OneMoreTotal(av.archive, order, i, scope, includes);
      totals := totals[order[i] := total.value];
    }
    AllMembers(order, agents);
    var archiveTotal := ListTotal(av, scope, includes);
    if archiveTotal.Raised? {
      return Raised(archiveTotal.error);
    }
    return Ok(Census(totals, archiveTotal.value, None));
  }

  function Members(order: seq<string>): set<string> {
    set a | a in order
  }

  lemma OneMoreTotal(archive: seq<Session>, order: seq<string>, i: nat, scope: Scope, includes: Includes)
    requires i < |order|
    ensures Totals(archive, Members(order[..i + 1]), scope, includes) ==
            Totals(archive, Members(order[..i]), scope, includes)
              [order[i] := TotalOf(archive, order[i], scope, includes)]
  {
    assert order[..i + 1] == order[..i] + [order[i]];
    assert Members(order[..i + 1]) == Members(order[..i]) + {order[i]};
  }

  lemma AllMembers(order: seq<string>, agents: set<string>)
    requires order == InOrder(StringLeq, agents)
    ensures order[..|order|] == order && Members(order) == agents
  {
    StringsAreOrdered();
    InOrderMembers(StringLeq, agents);
  }

  function FullCensus(archive: seq<Session>, agents: set<string>, scope: Scope, includes: Includes): Census {
    Census(Totals(archive, agents, scope, includes), |Listing(archive, scope, includes)|, None)
  }

  datatype Ref = Ref(agent: string, project: string, id: string, isSubagent: bool)

  // What an iterator over refs yields, and how it ends.
  datatype RefStream = RefStream(refs: seq<Ref>, end: Option<Error>)

  function RefOf(s: Session, parents: set<string>): Ref {
    Ref(s.agent, s.project, s.id, s.id !in parents)
  }

  function Stamp(ss: seq<Session>, parents: set<string>): seq<Ref> {
    seq(|ss|, i requires 0 <= i < |ss| => RefOf(ss[i], parents))
  }

  lemma StampAppend(a: seq<Session>, b: seq<Session>, parents: set<string>)
    ensures Stamp(a + b, parents) == Stamp(a, parents) + Stamp(b, parents)
  {
  }

  // The full listing with every ref stamped; it ends where the listing breaks off.
  ghost function FullStream(av: AgentsView, parents: set<string>, q: Query): RefStream {
    RefStream(Stamp(Concat(av.pages(q)[..Readable(av, q)]), parents),
              if Complete(av, q) then None else Some(av.breaks(q).value.error))
  }

  method YieldRefs(av: AgentsView, parents: set<string>, scope: Scope, limit: int) returns (stream: RefStream)
    requires av.Valid()
    ensures stream == FullStream(av, parents, Query(scope, ALL_INCLUDES, limit))
  {
    var q := Query(scope, ALL_INCLUDES, limit);
    var refs: seq<Ref> := [];
    var cursor := 0;
    while true
      invariant cursor < |av.pages(q)| && cursor <= Readable(av, q)
      invariant refs == Stamp(Concat(av.pages(q)[..cursor]), parents)
      decreases |av.pages(q)| - cursor
    {
      var response := Respond(av, q, cursor);
      if response.Raised? {
        assert cursor == Readable(av, q) && !Complete(av, q);
        return RefStream(refs, Some(response.error));
      }
      ConcatNext(av.pages(q), cursor);
      var rows := response.value.sessions;
      StampAppend(Concat(av.pages(q)[..cursor]), rows, parents);
      refs := refs + Stamp(rows, parents);
      if response.value.next.None? {
        assert cursor + 1 == Readable(av, q) && Complete(av, q);
        return RefStream(refs, None);
      }
      cursor := response.value.next.value;
    }
  }

  // However the listing is cut into pages, what it yields is a prefix of one fixed list, and the
  // whole of it when no page fails.
  lemma StreamIsPrefix(av: AgentsView, parents: set<string>, q: Query)
    requires av.Valid()
    ensures var all := Stamp(Listing(av.archive, q.scope, q.includes), parents);
            var stream := FullStream(av, parents, q);
            && stream.refs <= all
            && (stream.end.None? ==> stream.refs == all)
  {
    var n := Readable(av, q);
    ConcatPrefix(av.pages(q), n);
    var read := Concat(av.pages(q)[..n]);
    var all := Concat(av.pages(q));
    assert all == read + all[|read|..];
    StampAppend(read, all[|read|..], parents);
    if n == |av.pages(q)| {
      assert av.pages(q)[..n] == av.pages(q);
    }
  }

  // What discovery hands over: a census that cannot be taken is unknown, not fatal.
  ghost function CensusOutcome(av: AgentsView, scope: Scope, includes: Includes): Outcome<Census>
    requires av.Valid()
  {
    var agents := AgentsOf(Listing(av.archive, scope, PROBE_INCLUDES));
    match CensusError(av, agents, scope, includes)
    case None => Ok(FullCensus(av.archive, agents, scope, includes))
    case Some(e) => if RuntimeOrValue(e) then Ok(UnknownCensus(e)) else Raised(e)
  }

  // The refs of the archive, told apart into parents and children by the probe.
  ghost function ArchiveStream(av: AgentsView, scope: Scope, limit: int): RefStream
    requires av.Valid()
  {
    FullStream(av, IdsOf(Listing(av.archive, scope, PROBE_INCLUDES)), Query(scope, ALL_INCLUDES, limit))
  }

  // Census and refs together.
  method DiscoverAgentsview(av: AgentsView, scope: Scope, limit: int, includeSubagents: bool)
      returns (r: Outcome<(Census, RefStream)>)
    requires av.Valid()
    ensures var q := Query(scope, PROBE_INCLUDES, limit);
            r == if !Complete(av, q) then Raised(av.breaks(q).value.error)
                 else
                   match CensusOutcome(av, scope, CensusIncludes(includeSubagents))
                   case Raised(e) => Raised(e)
                   case Ok(census) => Ok((census, ArchiveStream(av, scope, limit)))
  {
    var probed := ProbePass(av, scope, limit);
    if probed.Raised? {
      return Raised(probed.error);
    }
    var (parents, agents) := probed.value;
    var taken := TakeCensus(av, agents, scope, CensusIncludes(includeSubagents));
    var census;
    match taken {
      case Ok(c) => census := c;
      case Raised(e) =>
        if RuntimeOrValue(e) {
          census := UnknownCensus(e);
        } else {
          return Raised(e);
        }
    }
    var stream := YieldRefs(av, parents, scope, limit);
    return Ok((census, stream));
  }

  lemma ConcatPrefix(pages: seq<seq<Session>>, n: nat)
    requires n <= |pages|
    ensures Concat(pages[..n]) <= Concat(pages)
  {
    if n < |pages| {
      var init := pages[..|pages| - 1];
      ConcatPrefix(init, n);
      assert init[..n] == pages[..n];
    } else {
      assert pages[..n] == pages;
    }
  }

  /******* Numerator and denominator describe the same population *******/

  ghost predicate UniqueIds(archive: seq<Session>) {
    forall i, j :: 0 <= i < j < |archive| ==> archive[i].id != archive[j].id
  }

  function FilterSubagents(refs: seq<Ref>): seq<Ref> {
    if refs == [] then []
    else
      var last := refs[|refs| - 1];
      var rest := FilterSubagents(refs[..|refs| - 1]);
      if last.isSubagent then rest else rest + [last]
  }

  function CountAgent(refs: seq<Ref>, agent: string): nat {
    if refs == [] then 0
    else CountAgent(refs[..|refs| - 1], agent) + if refs[|refs| - 1].agent == agent then 1 else 0
  }

  // The refs the report counts under the flag.
  function Counted(refs: seq<Ref>, includeSubagents: bool): seq<Ref> {
    if includeSubagents then refs else FilterSubagents(refs)
  }

  lemma {:induction false} ListingMembers(archive: seq<Session>, scope: Scope, includes: Includes, s: Session)
    ensures s in Listing(archive, scope, includes) <==> s in archive && Matches(s, scope, includes)
  {
    if archive != [] {
      var n := |archive| - 1;
      ListingMembers(archive[..n], scope, includes, s);
      assert archive == archive[..n] + [archive[n]];
    }
  }

  // With unique ids, the probe's ids tell exactly the parents among the sessions in scope.
  lemma ParentsAreNotChildren(archive: seq<Session>, scope: Scope, s: Session)
    requires UniqueIds(archive) && s in archive && Matches(s, scope, ALL_INCLUDES)
    ensures s.id in IdsOf(Listing(archive, scope, PROBE_INCLUDES)) <==> !s.child
  {
    ListingMembers(archive, scope, PROBE_INCLUDES, s);
    if s.id in IdsOf(Listing(archive, scope, PROBE_INCLUDES)) {
      var t :| t in Listing(archive, scope, PROBE_INCLUDES) && t.id == s.id;
      ListingMembers(archive, scope, PROBE_INCLUDES, t);
      var i :| 0 <= i < |archive| && archive[i] == s;
      var j :| 0 <= j < |archive| && archive[j] == t;
      assert i == j;
    }
  }

  // The agent, the project and the date a run asks for; nothing is left out by default.
  predicate InScope(s: Session, scope: Scope) {
    && (scope.agent != "all" ==> s.agent == scope.agent)
    && (scope.project != None ==> s.project == scope.project.value)
    && (scope.since != None ==> scope.since.value <= s.date)
  }

  function Scoped(archive: seq<Session>, scope: Scope): seq<Session> {
    if archive == [] then []
    else
      var init, last := archive[..|archive| - 1], archive[|archive| - 1];
      if InScope(last, scope) then Scoped(init, scope) + [last] else Scoped(init, scope)
  }

  lemma {:induction false} ScopedIsListed(archive: seq<Session>, scope: Scope)
    ensures Scoped(archive, scope) == Listing(archive, scope, ALL_INCLUDES)
    ensures forall s :: s in Scoped(archive, scope) ==> s in archive
  {
    if archive != [] {
      ScopedIsListed(archive[..|archive| - 1], scope);
    }
  }

  // However the pages are cut, the refs are one for each session in scope, in the order of the archive and
  // with the children marked, up to the page the listing breaks at and all of them when it does not.
  lemma {:induction false} ArchiveMeaning(av: AgentsView, scope: Scope, limit: int)
    requires av.Valid() && UniqueIds(av.archive)
    ensures var stream, sessions := ArchiveStream(av, scope, limit), Scoped(av.archive, scope);
            && |stream.refs| <= |sessions| && (stream.end == None ==> |stream.refs| == |sessions|)
            && forall i :: 0 <= i < |stream.refs| ==>
                 var s := sessions[i]; stream.refs[i] == Ref(s.agent, s.project, s.id, s.child)
  {
    var parents, q := IdsOf(Listing(av.archive, scope, PROBE_INCLUDES)), Query(scope, ALL_INCLUDES, limit);
    var stream, sessions := ArchiveStream(av, scope, limit), Scoped(av.archive, scope);
    StreamIsPrefix(av, parents, q);
    ScopedIsListed(av.archive, scope);
    forall i | 0 <= i < |stream.refs|
      ensures var s := sessions[i]; stream.refs[i] == Ref(s.agent, s.project, s.id, s.child)
    {
      var s := sessions[i];
      assert s in sessions;
      ListingMembers(av.archive, scope, ALL_INCLUDES, s);
      ParentsAreNotChildren(av.archive, scope, s);
      assert stream.refs[i] == Stamp(sessions, parents)[i];
    }
  }

  lemma CountedLast(refs: seq<Ref>, last: Ref, includeSubagents: bool, agent: string)
    ensures CountAgent(Counted(refs + [last], includeSubagents), agent) ==
            CountAgent(Counted(refs, includeSubagents), agent)
            + if last.agent == agent && (includeSubagents || !last.isSubagent) then 1 else 0
  {
    assert (refs + [last])[..|refs|] == refs;
    var kept := Counted(refs, includeSubagents);
    assert (kept + [last])[..|kept|] == kept;
  }

  ghost predicate TellsParents(parents: set<string>, archive: seq<Session>, scope: Scope) {
    forall s :: s in archive && Matches(s, scope, ALL_INCLUDES) ==> (s.id in parents <==> !s.child)
  }

  // Counting refs is counting sessions, for any parent set that tells parents from children.
  lemma {:induction false} CountIsTotal(archive: seq<Session>, scope: Scope, parents: set<string>,
          includeSubagents: bool, agent: string)
    requires scope.agent == "all" || scope.agent == agent
    requires agent != "all" && TellsParents(parents, archive, scope)
    ensures CountAgent(Counted(Stamp(Listing(archive, scope, ALL_INCLUDES), parents), includeSubagents), agent) ==
            TotalOf(archive, agent, scope, CensusIncludes(includeSubagents))
  {
    if archive != [] {
      var init, last := archive[..|archive| - 1], archive[|archive| - 1];
      assert archive == init + [last];
      CountIsTotal(init, scope, parents, includeSubagents, agent);
      ListingLast(init, last, scope, ALL_INCLUDES);
      ListingLast(init, last, scope.(agent := agent), CensusIncludes(includeSubagents));
      if Matches(last, scope, ALL_INCLUDES) {
        CountLast(Listing(init, scope, ALL_INCLUDES), last, parents, includeSubagents, agent);
      }
    }
  }

  lemma CountLast(listing: seq<Session>, last: Session, parents: set<string>, includeSubagents: bool, agent: string)
    ensures CountAgent(Counted(Stamp(listing + [last], parents), includeSubagents), agent) ==
            CountAgent(Counted(Stamp(listing, parents), includeSubagents), agent)
            + if last.agent == agent && (includeSubagents || last.id in parents) then 1 else 0
  {
    var ref := RefOf(last, parents);
    StampAppend(listing, [last], parents);
    assert Stamp([last], parents) == [ref];
    CountedLast(Stamp(listing, parents), ref, includeSubagents, agent);
  }

  lemma {:induction false} CountPrefix(refs: seq<Ref>, n: nat, includeSubagents: bool, agent: string)
    requires n <= |refs|
    ensures CountAgent(Counted(refs[..n], includeSubagents), agent) <=
            CountAgent(Counted(refs, includeSubagents), agent)
  {
    if n < |refs| {
      var init := refs[..|refs| - 1];
      CountPrefix(init, n, includeSubagents, agent);
      assert init[..n] == refs[..n] && refs == init + [refs[|refs| - 1]];
      CountedLast(init, refs[|refs| - 1], includeSubagents, agent);
    } else {
      assert refs[..n] == refs;
    }
  }

  // Each enumerated agent's total is its count of refs under either setting of the flag, and a
  // truncated listing never shows more than the total.
  lemma {:induction false} CensusMatchesRefs(archive: seq<Session>, scope: Scope, includeSubagents: bool,
          agent: string, n: nat)
    requires UniqueIds(archive) && agent != "all"
    requires agent in AgentsOf(Listing(archive, scope, PROBE_INCLUDES))
    ensures var parents := IdsOf(Listing(archive, scope, PROBE_INCLUDES));
            var refs := Stamp(Listing(archive, scope, ALL_INCLUDES), parents);
            var total := TotalOf(archive, agent, scope, CensusIncludes(includeSubagents));
            && CountAgent(Counted(refs, includeSubagents), agent) == total
            && (n <= |refs| ==> CountAgent(Counted(refs[..n], includeSubagents), agent) <= total)
  {
    var parents := IdsOf(Listing(archive, scope, PROBE_INCLUDES));
    var refs := Stamp(Listing(archive, scope, ALL_INCLUDES), parents);
    var t :| t in Listing(archive, scope, PROBE_INCLUDES) && t.agent == agent;
    ListingMembers(archive, scope, PROBE_INCLUDES, t);
    forall s | s in archive && Matches(s, scope, ALL_INCLUDES)
      ensures s.id in parents <==> !s.child
    {
      ParentsAreNotChildren(archive, scope, s);
    }
    CountIsTotal(archive, scope, parents, includeSubagents, agent);
    if n <= |refs| {
      CountPrefix(refs, n, includeSubagents, agent);
    }
  }

  // Whatever page a discovery breaks at and wherever a limit cuts it, an agent's row never shows more
  // sessions than the census counted, and shows all of them once the listing was read to its end.
  lemma RowsFitTheCensus(av: AgentsView, scope: Scope, limit: int, includeSubagents: bool, agent: string, n: nat)
    requires av.Valid() && UniqueIds(av.archive) && agent != "all"
    requires agent in AgentsOf(Listing(av.archive, scope, PROBE_INCLUDES))
    ensures var stream := ArchiveStream(av, scope, limit);
            var total := TotalOf(av.archive, agent, scope, CensusIncludes(includeSubagents));
            && (n <= |stream.refs| ==> CountAgent(Counted(stream.refs[..n], includeSubagents), agent) <= total)
            && (stream.end.None? ==> CountAgent(Counted(stream.refs, includeSubagents), agent) == total)
  {
    var parents := IdsOf(Listing(av.archive, scope, PROBE_INCLUDES));
    var q := Query(scope, ALL_INCLUDES, limit);
    var all, read := Stamp(Listing(av.archive, scope, ALL_INCLUDES), parents), FullStream(av, parents, q).refs;
    StreamIsPrefix(av, parents, q);
    CensusMatchesRefs(av.archive, scope, includeSubagents, agent, n);
    if n <= |read| {
      assert read[..n] == all[..n];
    }
  }

  /******* The residual *******/

  function OutsideAgents(ss: seq<Session>, agents: set<string>): nat {
    if ss == [] then 0
    else OutsideAgents(ss[..|ss| - 1], agents) + if ss[|ss| - 1].agent in agents then 0 else 1
  }

  lemma OutsideLast(ss: seq<Session>, last: Session, agents: set<string>)
    ensures OutsideAgents(ss + [last], agents) == OutsideAgents(ss, agents) + if last.agent in agents then 0 else 1
  {
    assert (ss + [last])[..|ss|] == ss;
  }

  // One more session raises the total of its own agent and no other.
  lemma TotalsLast(archive: seq<Session>, last: Session, agents: set<string>, scope: Scope, includes: Includes)
    requires "all" !in agents && (scope.agent != "all" ==> agents <= {scope.agent})
    ensures var before := Totals(archive, agents, scope, includes);
            Totals(archive + [last], agents, scope, includes) ==
            if Matches(last, scope, includes) && last.agent in agents
            then before[last.agent := before[last.agent] + 1]
            else before
  {
    var before, after := Totals(archive, agents, scope, includes), Totals(archive + [last], agents, scope, includes);
    forall a | a in agents
      ensures after[a] == before[a] + if Matches(last, scope, includes) && last.agent == a then 1 else 0
    {
      ListingLast(archive, last, scope.(agent := a), includes);
    }
  }

  // One listed session is accounted for once: in its agent's total or outside all of them.
  lemma AddUpLast(before: map<string, nat>, listing: seq<Session>, last: Session)
    ensures var after := if last.agent in before then before[last.agent := before[last.agent] + 1] else before;
            Sum(after, Itself) + OutsideAgents(listing + [last], before.Keys) ==
            Sum(before, Itself) + OutsideAgents(listing, before.Keys) + 1
  {
    OutsideLast(listing, last, before.Keys);
    if last.agent in before {
      SumUpdate(before, last.agent, before[last.agent] + 1, Itself);
    }
  }

  lemma {:induction false} TotalsAddUp(archive: seq<Session>, agents: set<string>, scope: Scope, includes: Includes)
    requires "all" !in agents && (scope.agent != "all" ==> agents <= {scope.agent})
    ensures var listing := Listing(archive, scope, includes);
            Sum(Totals(archive, agents, scope, includes), Itself) + OutsideAgents(listing, agents) == |listing|
  {
    if archive == [] {
      SumZero(Totals(archive, agents, scope, includes), Itself);
    } else {
      var init, last := archive[..|archive| - 1], archive[|archive| - 1];
      assert archive == init + [last];
      TotalsAddUp(init, agents, scope, includes);
      TotalsLast(init, last, agents, scope, includes);
      var listing, before := Listing(init, scope, includes), Totals(init, agents, scope, includes);
      assert before.Keys == agents;
      ListingLast(init, last, scope, includes);
      if Matches(last, scope, includes) {
        AddUpLast(before, listing, last);
      } else {
        assert listing + [] == listing;
      }
    }
  }

  // A session nobody's row accounts for: its agent has no session in scope that is not a child.
  ghost predicate Unenumerated(archive: seq<Session>, scope: Scope, s: Session) {
    && s in archive && Matches(s, scope, ALL_INCLUDES)
    && forall t :: t in archive && Matches(t, scope, ALL_INCLUDES) && t.agent == s.agent ==> t.child
  }

  lemma {:induction false} NoneOutside(ss: seq<Session>, agents: set<string>)
    requires forall s :: s in ss ==> s.agent in agents
    ensures OutsideAgents(ss, agents) == 0
  {
    if ss != [] {
      var init := ss[..|ss| - 1];
      assert forall s :: s in init ==> s in ss;
      NoneOutside(init, agents);
      assert ss[|ss| - 1] in ss;
    }
  }

  lemma ProbedAgents(archive: seq<Session>, scope: Scope, agent: string)
    requires agent in AgentsOf(Listing(archive, scope, PROBE_INCLUDES))
    ensures agent in AgentsOf(archive) && (scope.agent == "all" || agent == scope.agent)
  {
    var t :| t in Listing(archive, scope, PROBE_INCLUDES) && t.agent == agent;
    ListingMembers(archive, scope, PROBE_INCLUDES, t);
  }

  // The residual counts exactly the sessions of agents all of whose sessions in scope are children,
  // and with subagents excluded it is zero.
  lemma {:induction false} ResidualMeaning(archive: seq<Session>, scope: Scope, includeSubagents: bool, s: Session)
    requires "all" !in AgentsOf(archive)
    ensures var agents := AgentsOf(Listing(archive, scope, PROBE_INCLUDES));
            var includes := CensusIncludes(includeSubagents);
            var listing := Listing(archive, scope, includes);
            && FullCensus(archive, agents, scope, includes).Residual() == OutsideAgents(listing, agents)
            && (!includeSubagents ==> OutsideAgents(listing, agents) == 0)
            && (includeSubagents ==> (s in listing && s.agent !in agents <==> Unenumerated(archive, scope, s)))
  {
    var agents := AgentsOf(Listing(archive, scope, PROBE_INCLUDES));
    forall a | a in agents
      ensures a != "all" && (scope.agent == "all" || a == scope.agent)
    {
      ProbedAgents(archive, scope, a);
    }
    TotalsAddUp(archive, agents, scope, CensusIncludes(includeSubagents));
    if includeSubagents {
      ListingMembers(archive, scope, ALL_INCLUDES, s);
      if s in archive && Matches(s, scope, ALL_INCLUDES) {
        OutsideIsUnenumerated(archive, scope, s);
      }
    } else {
      NoneOutside(Listing(archive, scope, PROBE_INCLUDES), agents);
    }
  }

  lemma OutsideIsUnenumerated(archive: seq<Session>, scope: Scope, s: Session)
    requires s in archive && Matches(s, scope, ALL_INCLUDES)
    ensures s.agent !in AgentsOf(Listing(archive, scope, PROBE_INCLUDES)) <==> Unenumerated(archive, scope, s)
  {
    var probe := Listing(archive, scope, PROBE_INCLUDES);
    forall t
      ensures t in probe <==> t in archive && Matches(t, scope, ALL_INCLUDES) && !t.child
    {
      ListingMembers(archive, scope, PROBE_INCLUDES, t);
    }
  }
}
