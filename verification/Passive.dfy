/**
 Discovery as the report runs it (src/toolbench/passive.py): collecting refs under a limit, asking
 whether the limit cut anything, and what happens when a source fails half-way.
 */
module Passive {
  import opened Options
  import opened Sources

  /******* Collecting under a limit *******/

  // A ref the report will count.
  predicate Reported(ref: Ref, excludeSubagents: bool) {
    !(excludeSubagents && ref.isSubagent)
  }

  predicate ReportedFrom(stream: RefStream, from: nat, excludeSubagents: bool) {
    exists i :: from <= i < |stream.refs| && Reported(stream.refs[i], excludeSubagents)
  }

  // Did the limit leave a reported session behind? Unknown when the listing failed first.
  method ProbeTruncation(stream: RefStream, from: nat, excludeSubagents: bool) returns (answer: Outcome<Option<bool>>)
    requires from <= |stream.refs|
    ensures answer == Ok(Some(true)) <==> ReportedFrom(stream, from, excludeSubagents)
    ensures answer == Ok(Some(false)) <==> !ReportedFrom(stream, from, excludeSubagents) && stream.end.None?
    ensures answer == Ok(None) <==>
            !ReportedFrom(stream, from, excludeSubagents) && stream.end.Some? && !stream.end.value.Unforeseen?
    ensures answer.Raised? <==> !ReportedFrom(stream, from, excludeSubagents) && stream.end == Some(Unforeseen)
    ensures answer.Raised? ==> answer.error == Unforeseen
  {
    var i := from;
    while i < |stream.refs|
      invariant from <= i <= |stream.refs|
      invariant forall j :: from <= j < i ==> !Reported(stream.refs[j], excludeSubagents)
    {
      if !(excludeSubagents && stream.refs[i].isSubagent) {
        assert Reported(stream.refs[i], excludeSubagents);
        return Ok(Some(true));
      }
      i := i + 1;
    }
    match stream.end {
      case None => answer := Ok(Some(false));
      case Some(e) => answer := if e.Unforeseen? then Raised(e) else Ok(None);
    }
  }

  // The number of refs a limit lets through; a limit below one still takes the first.
  function Quota(limit: int): nat {
    if limit < 1 then 1 else limit
  }

  predicate CutShort(stream: RefStream, limit: Option<int>) {
    limit.Some? && Quota(limit.value) <= |stream.refs|
  }

  // What collecting from one stream gives: the refs, and the observed truncation.
  ghost predicate CollectedFrom(stream: RefStream, limit: Option<int>, excludeSubagents: bool, refs: seq<Ref>,
          truncated: Option<bool>) {
    if CutShort(stream, limit) then
      var n := Quota(limit.value);
      && refs == stream.refs[..n]
      && (truncated == Some(true) <==> ReportedFrom(stream, n, excludeSubagents))
      && (truncated == Some(false) <==> !ReportedFrom(stream, n, excludeSubagents) && stream.end.None?)
    else
      refs == stream.refs && stream.end.None? && truncated == Some(false)
  }

  // Collecting fails with the listing's error: always before the limit, and behind it only with an
  // unforeseen one that the question about the rest runs into.
  ghost predicate CollectRaises(stream: RefStream, limit: Option<int>, excludeSubagents: bool, e: Error) {
    && stream.end == Some(e)
    && (CutShort(stream, limit) ==>
          e.Unforeseen? && !ReportedFrom(stream, Quota(limit.value), excludeSubagents))
  }

  method CollectRefs(stream: RefStream, limit: Option<int>, excludeSubagents: bool)
      returns (r: Outcome<(seq<Ref>, Option<bool>)>)
    ensures r.Ok? ==> CollectedFrom(stream, limit, excludeSubagents, r.value.0, r.value.1)
    ensures r.Ok? ==> forall e :: !CollectRaises(stream, limit, excludeSubagents, e)
    ensures r.Raised? ==> CollectRaises(stream, limit, excludeSubagents, r.error)
  {
    var refs: seq<Ref> := [];
    while |refs| < |stream.refs|
      invariant |refs| <= |stream.refs| && refs == stream.refs[..|refs|]
      invariant limit.Some? ==> |refs| < Quota(limit.value)
    {
      refs := refs + [stream.refs[|refs|]];
      if limit.Some? && |refs| >= limit.value {
        var answer := ProbeTruncation(stream, |refs|, excludeSubagents);
        match answer {
          case Raised(e) => return Raised(e);
          case Ok(truncated) => return Ok((refs, truncated));
        }
      }
    }
    match stream.end {
      case None => r := Ok((refs, Some(false)));
      case Some(e) => r := Raised(e);
    }
  }

  /******* Choosing a source *******/

  datatype IndexSource = Auto | AgentsViewOnly | RawOnly

  const RAW_AGENT := "claude-code"

  datatype Args = Args(source: IndexSource, scope: Scope, limit: Option<int>, excludeSubagents: bool)

  function PageLimit(args: Args): int {
    args.limit.GetOr(500)
  }

  // A count of files; a root that is not there is an unknown census.
  function RawCensus(raw: RefStream, includeSubagents: bool): Outcome<Census> {
    match raw.end
    case None =>
      var count := |Counted(raw.refs, includeSubagents)|;
      Ok(Census(map[RAW_AGENT := count], count, None))
    case Some(e) => if e.FileNotFound? then Ok(UnknownCensus(e)) else Raised(e)
  }

  datatype Fallback = Unhealthy(cause: Error) | Degraded(cause: Error)

  datatype Started = Started(stream: RefStream, fallback: Option<Fallback>, census: Census)

  function StartRaw(raw: RefStream, reason: Option<Fallback>, includeSubagents: bool): Outcome<Started> {
    match RawCensus(raw, includeSubagents)
    case Raised(e) => Raised(e)
    case Ok(census) => Ok(Started(raw, reason, census))
  }

  // `None` when AgentsView answers its health check, a reason when it is absent, hung or broken;
  // any other failure is not a health verdict.
  function HealthVerdict(av: AgentsView): Outcome<Option<Fallback>> {
    match av.health
    case None => Ok(None)
    case Some(e) => if e.FileNotFound? || RuntimeOrValue(e) then Ok(Some(Unhealthy(e))) else Raised(e)
  }

  predicate AsksAgentsView(av: AgentsView, source: IndexSource) {
    source.AgentsViewOnly? || (source.Auto? && av.health.None?)
  }

  // The stream the run's first attempt reads.
  ghost function FirstStream(av: AgentsView, raw: RefStream, args: Args): RefStream
    requires av.Valid()
  {
    if AsksAgentsView(av, args.source) then ArchiveStream(av, args.scope, PageLimit(args)) else raw
  }

  function FirstFallback(av: AgentsView, args: Args): Option<Fallback> {
    if args.source.Auto? && av.health.Some? then Some(Unhealthy(av.health.value)) else None
  }

  ghost predicate FirstCensus(av: AgentsView, raw: RefStream, args: Args, census: Census)
    requires av.Valid()
  {
    var includeSubagents := !args.excludeSubagents;
    if AsksAgentsView(av, args.source)
    then CensusOutcome(av, args.scope, CensusIncludes(includeSubagents)) == Ok(census)
    else RawCensus(raw, includeSubagents) == Ok(census)
  }

  // The errors starting that attempt may end in.
  ghost predicate StartRaises(av: AgentsView, raw: RefStream, args: Args, e: Error)
    requires av.Valid()
  {
    if AsksAgentsView(av, args.source) then
      var q := Query(args.scope, PROBE_INCLUDES, PageLimit(args));
      if !Complete(av, q) then e == av.breaks(q).value.error
      else CensusOutcome(av, args.scope, CensusIncludes(!args.excludeSubagents)) == Raised(e)
    else if args.source.Auto? && HealthVerdict(av).Raised? then
      av.health == Some(e)
    else
      raw.end == Some(e) && !e.FileNotFound?
  }

  ghost predicate Starts(av: AgentsView, raw: RefStream, args: Args)
    requires av.Valid()
  {
    forall e :: !StartRaises(av, raw, args, e)
  }

  method IterSessions(av: AgentsView, raw: RefStream, args: Args) returns (r: Outcome<Started>)
    requires av.Valid()
    ensures r.Ok? <==> Starts(av, raw, args)
    ensures r.Ok? ==> r.value.stream == FirstStream(av, raw, args)
    ensures r.Ok? ==> r.value.fallback == FirstFallback(av, args) && FirstCensus(av, raw, args, r.value.census)
    ensures r.Raised? ==> StartRaises(av, raw, args, r.error)
  {
    var includeSubagents := !args.excludeSubagents;
    var reason: Option<Fallback> := None;
    if args.source.Auto? {
      var verdict := HealthVerdict(av);
      if verdict.Raised? {
        assert StartRaises(av, raw, args, verdict.error);
        return Raised(verdict.error);
      }
      reason := verdict.value;
    }
    if args.source.RawOnly? || reason.Some? {
      var started := StartRaw(raw, reason, includeSubagents);
      assert started.Raised? ==> StartRaises(av, raw, args, started.error);
      return started;
    }
    var found := DiscoverAgentsview(av, args.scope, PageLimit(args), includeSubagents);
    match found {
      case Raised(e) =>
        assert StartRaises(av, raw, args, e);
        return Raised(e);
      case Ok((census, stream)) => return Ok(Started(stream, None, census));
    }
  }

  /******* The whole discovery *******/

  datatype SkipReason = MissingSource | ExportTimeout | ExportFailed

  function ClassifySkip(e: Error): SkipReason {
    if e.TimedOut? then ExportTimeout else ExportFailed
  }

  datatype Skip = Skip(agent: string, reason: SkipReason, cause: Error)

  datatype Discovery = Discovery(
    refs: seq<Ref>,
    fallback: Option<Fallback>,
    skips: seq<Skip>,
    census: Census,
    truncated: Option<bool>)

  // The error of the first attempt, in starting it or, once started, in reading its listing.
  ghost predicate AttemptRaises(av: AgentsView, raw: RefStream, args: Args, e: Error)
    requires av.Valid()
  {
    || StartRaises(av, raw, args, e)
    || (Starts(av, raw, args) && CollectRaises(FirstStream(av, raw, args), args.limit, args.excludeSubagents, e))
  }

  ghost predicate Attempts(av: AgentsView, raw: RefStream, args: Args)
    requires av.Valid()
  {
    forall e :: !AttemptRaises(av, raw, args, e)
  }

  // The error of reading the raw files again.
  ghost predicate RescanRaises(raw: RefStream, args: Args, e: Error) {
    || RawCensus(raw, !args.excludeSubagents) == Raised(e)
    || (RawCensus(raw, !args.excludeSubagents).Ok? && CollectRaises(raw, args.limit, args.excludeSubagents, e))
  }

  // The three ways a discovery can end well: one attempt read without any error, a vanished source with
  // nothing read, or a broken one thrown away whole and read again from the raw files.
  ghost predicate NotSpliced(av: AgentsView, raw: RefStream, args: Args, d: Discovery)
    requires av.Valid()
  {
    if d.skips == [] then
      && Attempts(av, raw, args)
      && CollectedFrom(FirstStream(av, raw, args), args.limit, args.excludeSubagents, d.refs, d.truncated)
      && FirstCensus(av, raw, args, d.census) && d.fallback == FirstFallback(av, args)
    else
      && |d.skips| == 1
      && var skip := d.skips[0];
      && args.source.Auto? && skip.agent == args.scope.agent && AttemptRaises(av, raw, args, skip.cause)
      && (if skip.cause.FileNotFound? then
            && skip.reason == MissingSource
            && d.refs == [] && d.truncated == Some(false) && d.census == UnknownCensus(FileNotFound)
            && d.fallback == if Starts(av, raw, args) then FirstFallback(av, args) else None
          else
            && RuntimeOrValue(skip.cause) && skip.reason == ClassifySkip(skip.cause)
            && (forall e :: !RescanRaises(raw, args, e))
            && CollectedFrom(raw, args.limit, args.excludeSubagents, d.refs, d.truncated)
            && RawCensus(raw, !args.excludeSubagents) == Ok(d.census)
            && d.fallback == Some(Degraded(skip.cause)))
  }

  // A discovery fails with the error of an attempt nothing stands in for, or with the rescan's.
  ghost predicate Fatal(av: AgentsView, raw: RefStream, args: Args, e: Error)
    requires av.Valid()
  {
    || (AttemptRaises(av, raw, args, e) && (args.source.Auto? ==> !e.FileNotFound? && !RuntimeOrValue(e)))
    || (args.source.Auto? && RescanRaises(raw, args, e)
        && exists cause :: AttemptRaises(av, raw, args, cause) && RuntimeOrValue(cause))
  }

  method DiscoverRefs(av: AgentsView, raw: RefStream, args: Args) returns (r: Outcome<Discovery>)
    requires av.Valid()
    ensures r.Ok? ==> NotSpliced(av, raw, args, r.value)
    ensures r.Raised? ==> Fatal(av, raw, args, r.error)
  {
    var fallback: Option<Fallback> := None;
    var cause: Error;
    var started := IterSessions(av, raw, args);
    match started {
      case Raised(e) => cause := e;
      case Ok(s) =>
        fallback := s.fallback;
        var collected := CollectRefs(s.stream, args.limit, args.excludeSubagents);
        match collected {
          case Ok((refs, truncated)) => return Ok(Discovery(refs, fallback, [], s.census, truncated));
          case Raised(e) => cause := e;
        }
    }
    assert AttemptRaises(av, raw, args, cause);
    if !args.source.Auto? {
      return Raised(cause);
    }
    if cause.FileNotFound? {
      var skip := Skip(args.scope.agent, MissingSource, cause);
      return Ok(Discovery([], fallback, [skip], UnknownCensus(cause), Some(false)));
    }
    if !RuntimeOrValue(cause) {
      return Raised(cause);
    }
    var again := StartRaw(raw, None, !args.excludeSubagents);
    if again.Raised? {
      return Raised(again.error);
    }
    var recollected := CollectRefs(raw, args.limit, args.excludeSubagents);
    if recollected.Raised? {
      return Raised(recollected.error);
    }
    var (refs, truncated) := recollected.value;
    return Ok(Discovery(refs, Some(Degraded(cause)), [Skip(args.scope.agent, ClassifySkip(cause), cause)],
                        again.value.census, truncated));
  }

  /******* A discovery has one outcome *******/

  lemma OneStartError(av: AgentsView, raw: RefStream, args: Args, e: Error, f: Error)
    requires av.Valid() && StartRaises(av, raw, args, e) && StartRaises(av, raw, args, f)
    ensures e == f
  {}

  lemma OneAttemptError(av: AgentsView, raw: RefStream, args: Args, e: Error, f: Error)
    requires av.Valid() && AttemptRaises(av, raw, args, e) && AttemptRaises(av, raw, args, f)
    ensures e == f
  {
    if StartRaises(av, raw, args, e) && StartRaises(av, raw, args, f) {
      OneStartError(av, raw, args, e, f);
    }
  }

  lemma ThreeAnswers(b: Option<bool>)
    ensures b == None || b == Some(true) || b == Some(false)
  {
    if b.Some? {
      if b.value {
        assert b == Some(true);
      } else {
        assert b == Some(false);
      }
    }
  }

  lemma OneCollection(stream: RefStream, limit: Option<int>, excludeSubagents: bool,
          d: (seq<Ref>, Option<bool>), e: (seq<Ref>, Option<bool>))
    requires CollectedFrom(stream, limit, excludeSubagents, d.0, d.1)
    requires CollectedFrom(stream, limit, excludeSubagents, e.0, e.1)
    ensures d == e
  {
    ThreeAnswers(d.1);
    ThreeAnswers(e.1);
  }

  // Two discoveries of the same sources agree on refs, truncation, census, fallback and cause.
  lemma DiscoveriesAgree(av: AgentsView, raw: RefStream, args: Args, d: Discovery, e: Discovery)
    requires av.Valid() && NotSpliced(av, raw, args, d) && NotSpliced(av, raw, args, e)
    ensures d == e
  {
    if d.skips != [] && e.skips != [] {
      OneAttemptError(av, raw, args, d.skips[0].cause, e.skips[0].cause);
      assert d.skips == [d.skips[0]] && e.skips == [e.skips[0]];
      if !d.skips[0].cause.FileNotFound? {
        OneCollection(raw, args.limit, args.excludeSubagents, (d.refs, d.truncated), (e.refs, e.truncated));
      }
    } else {
      var stream := FirstStream(av, raw, args);
      OneCollection(stream, args.limit, args.excludeSubagents, (d.refs, d.truncated), (e.refs, e.truncated));
    }
  }

  // No discovery both ends well and fails.
  lemma NeverBoth(av: AgentsView, raw: RefStream, args: Args, d: Discovery, e: Error)
    requires av.Valid() && NotSpliced(av, raw, args, d)
    ensures !Fatal(av, raw, args, e)
  {
    if d.skips != [] {
      forall f | AttemptRaises(av, raw, args, f)
        ensures f == d.skips[0].cause
      {
        OneAttemptError(av, raw, args, d.skips[0].cause, f);
      }
    }
  }

  // For every point an attempt may fail at: the whole attempt is thrown away, and the report says why.
  lemma BrokenAttemptIsReplaced(av: AgentsView, raw: RefStream, args: Args, d: Discovery, e: Error)
    requires av.Valid() && NotSpliced(av, raw, args, d) && AttemptRaises(av, raw, args, e)
    ensures d.skips == [Skip(args.scope.agent, if e.FileNotFound? then MissingSource else ClassifySkip(e), e)]
    ensures e.FileNotFound? ==> d.refs == []
    ensures !e.FileNotFound? ==>
              && CollectedFrom(raw, args.limit, args.excludeSubagents, d.refs, d.truncated)
              && d.fallback == Some(Degraded(e))
  {
    OneAttemptError(av, raw, args, d.skips[0].cause, e);
  }

  // The child-excluded listing is one of those points, whatever page it breaks at.
  lemma ProbeBreakIsReplaced(av: AgentsView, raw: RefStream, args: Args, d: Discovery)
    requires av.Valid() && NotSpliced(av, raw, args, d) && AsksAgentsView(av, args.source)
    requires !Complete(av, Query(args.scope, PROBE_INCLUDES, PageLimit(args)))
    ensures var e := av.breaks(Query(args.scope, PROBE_INCLUDES, PageLimit(args))).value.error;
            && |d.skips| == 1 && d.skips[0].cause == e
            && (if e.FileNotFound? then d.refs == []
                else CollectedFrom(raw, args.limit, args.excludeSubagents, d.refs, d.truncated))
  {
    var e := av.breaks(Query(args.scope, PROBE_INCLUDES, PageLimit(args))).value.error;
    assert StartRaises(av, raw, args, e);
    BrokenAttemptIsReplaced(av, raw, args, d, e);
  }

  // Where the run starts. A healthy AgentsView is read in both modes that know it. In the automatic mode
  // one that is absent, hung or broken is replaced by the raw files, which start unless their count fails
  // with more than a missing root; any other failure of the health check ends the run.
  lemma {:induction false} StartMeaning(av: AgentsView, raw: RefStream, args: Args)
    requires av.Valid()
    ensures var archive := ArchiveStream(av, args.scope, PageLimit(args));
            match args.source
            case RawOnly => FirstStream(av, raw, args) == raw && FirstFallback(av, args) == None
            case AgentsViewOnly => FirstStream(av, raw, args) == archive && FirstFallback(av, args) == None
            case Auto =>
              match av.health
              case None => FirstStream(av, raw, args) == archive && FirstFallback(av, args) == None
              case Some(e) =>
                if e in {FileNotFound, TimedOut, RuntimeFailure, ValueFailure}
                then
                  && (Starts(av, raw, args) <==> raw.end == None || raw.end == Some(FileNotFound))
                  && FirstStream(av, raw, args) == raw && FirstFallback(av, args) == Some(Unhealthy(e))
                else
                  && Fatal(av, raw, args, e) && forall d :: !NotSpliced(av, raw, args, d)
  {
    if args.source.Auto? && av.health.Some? {
      var e := av.health.value;
      if e in {FileNotFound, TimedOut, RuntimeFailure, ValueFailure} {
        assert HealthVerdict(av) == Ok(Some(Unhealthy(e)));
        if raw.end.Some? && !raw.end.value.FileNotFound? {
          assert StartRaises(av, raw, args, raw.end.value);
        }
      } else {
        assert StartRaises(av, raw, args, e) && AttemptRaises(av, raw, args, e);
        UnforeseenIsFatal(av, raw, args, e);
      }
    }
  }

  lemma UnforeseenIsFatal(av: AgentsView, raw: RefStream, args: Args, e: Error)
    requires av.Valid() && AttemptRaises(av, raw, args, e)
    requires e == OtherOsError || e == Unforeseen
    ensures Fatal(av, raw, args, e)
    ensures forall d :: !NotSpliced(av, raw, args, d)
  {
    forall d
      ensures !NotSpliced(av, raw, args, d)
    {
      if NotSpliced(av, raw, args, d) {
        NeverBoth(av, raw, args, d, e);
      }
    }
  }

  // The listing can be read as far as the limit asks, and with it the question what lies behind.
  predicate ReadableTo(stream: RefStream, limit: Option<int>) {
    || stream.end == None
    || (stream.end != Some(Unforeseen) && limit.Some? && |stream.refs| > 0 && limit.value <= |stream.refs|)
  }

  // An AgentsView that is absent, hung or broken never blocks a scan: whatever the raw files hold within
  // the limit is reported, with the reason and without a skip.
  lemma {:induction false} UnhealthyNeverBlocks(av: AgentsView, raw: RefStream, args: Args, d: Discovery)
    requires av.Valid() && args.source == Auto
    requires av.health.Some? && av.health.value in {FileNotFound, TimedOut, RuntimeFailure, ValueFailure}
    requires raw.end == None || raw.end == Some(FileNotFound)
    requires ReadableTo(raw, args.limit)
    ensures forall e :: !Fatal(av, raw, args, e)
    ensures NotSpliced(av, raw, args, d) ==>
              && d.skips == [] && d.fallback == Some(Unhealthy(av.health.value))
              && (if args.limit == None || (args.limit.value > |raw.refs|) || raw.refs == [] then d.refs == raw.refs
                  else if args.limit.value <= 1 then d.refs == raw.refs[..1]
                  else d.refs == raw.refs[..args.limit.value])
  {
    StartMeaning(av, raw, args);
    assert Starts(av, raw, args);
    assert forall e :: !StartRaises(av, raw, args, e);
    assert forall e :: !CollectRaises(raw, args.limit, args.excludeSubagents, e);
    assert forall e :: !AttemptRaises(av, raw, args, e);
  }

  // What a failing attempt comes to in the automatic mode, error by error.
  lemma {:induction false} FailureMeaning(av: AgentsView, raw: RefStream, args: Args, d: Discovery, e: Error)
    requires av.Valid() && AttemptRaises(av, raw, args, e)
    ensures args.source != Auto || e in {OtherOsError, Unforeseen} ==>
              Fatal(av, raw, args, e) && !NotSpliced(av, raw, args, d)
    ensures NotSpliced(av, raw, args, d) ==>
              && |d.skips| == 1 && d.skips[0].cause == e && d.skips[0].agent == args.scope.agent
              && (e == FileNotFound ==> d.skips[0].reason == MissingSource && d.refs == [])
              && (e == TimedOut ==> d.skips[0].reason == ExportTimeout)
              && (e in {RuntimeFailure, ValueFailure} ==> d.skips[0].reason == ExportFailed)
              && (e in {TimedOut, RuntimeFailure, ValueFailure} ==>
                    d.refs <= raw.refs && d.fallback == Some(Degraded(e)))
  {
    if NotSpliced(av, raw, args, d) {
      BrokenAttemptIsReplaced(av, raw, args, d, e);
      NeverBoth(av, raw, args, d, e);
    }
  }

  /******* What a reader of the report may conclude *******/

  // The listing the refs of a discovery come from.
  ghost function ReadStream(av: AgentsView, raw: RefStream, args: Args, d: Discovery): RefStream
    requires av.Valid()
  {
    if d.skips == [] then FirstStream(av, raw, args) else raw
  }

  predicate Vanished(d: Discovery) {
    d.skips != [] && d.skips[0].cause.FileNotFound?
  }

  // No discovery mixes two listings, and its length depends on one listing and the limit alone.
  lemma NeverSplices(av: AgentsView, raw: RefStream, args: Args, d: Discovery)
    requires av.Valid() && NotSpliced(av, raw, args, d)
    ensures if Vanished(d) then d.refs == []
            else
              var source := ReadStream(av, raw, args, d).refs;
              && d.refs <= source
              && var quota := if args.limit.Some? then Quota(args.limit.value) else |source|;
                 |d.refs| == if quota < |source| then quota else |source|
  {
  }

  lemma CountedDrop(refs: seq<Ref>, n: nat, excludeSubagents: bool)
    requires n <= |refs| && forall i :: n <= i < |refs| ==> !Reported(refs[i], excludeSubagents)
    ensures Counted(refs[..n], !excludeSubagents) == Counted(refs, !excludeSubagents)
    decreases |refs| - n
  {
    if n < |refs| {
      assert !Reported(refs[n], excludeSubagents);
      assert refs[..n + 1][..n] == refs[..n];
      CountedDrop(refs, n + 1, excludeSubagents);
    } else {
      assert refs[..n] == refs;
    }
  }

  lemma CountedMisses(refs: seq<Ref>, n: nat, i: nat, excludeSubagents: bool)
    requires n <= i < |refs| && Reported(refs[i], excludeSubagents)
    ensures |Counted(refs[..n], !excludeSubagents)| < |Counted(refs, !excludeSubagents)|
  {
    CountedGrows(refs[..i], n, !excludeSubagents);
    assert refs[..i][..n] == refs[..n] && refs[..i + 1][..i] == refs[..i];
    CountedGrows(refs, i + 1, !excludeSubagents);
  }

  lemma {:induction false} CountedGrows(refs: seq<Ref>, n: nat, includeSubagents: bool)
    requires n <= |refs|
    ensures |Counted(refs[..n], includeSubagents)| <= |Counted(refs, includeSubagents)|
  {
    if n < |refs| {
      var init := refs[..|refs| - 1];
      CountedGrows(init, n, includeSubagents);
      assert init[..n] == refs[..n];
    } else {
      assert refs[..n] == refs;
    }
  }

  // `truncated` tells the truth about the sessions the report counts: when it says no, they are
  // those of the whole listing; when it says yes, one of them is missing.
  lemma TruncationIsTruthful(av: AgentsView, raw: RefStream, args: Args, d: Discovery)
    requires av.Valid() && NotSpliced(av, raw, args, d) && !Vanished(d)
    ensures var source := ReadStream(av, raw, args, d);
            var shown, all := Counted(d.refs, !args.excludeSubagents), Counted(source.refs, !args.excludeSubagents);
            && (d.truncated == Some(false) ==> source.end.None? && shown == all)
            && (d.truncated == Some(true) ==> |shown| < |all|)
            && (d.truncated == None ==> source.end.Some?)
  {
    var source := ReadStream(av, raw, args, d);
    if CutShort(source, args.limit) {
      var n := Quota(args.limit.value);
      if ReportedFrom(source, n, args.excludeSubagents) {
        var i :| n <= i < |source.refs| && Reported(source.refs[i], args.excludeSubagents);
        CountedMisses(source.refs, n, i, args.excludeSubagents);
      } else {
        CountedDrop(source.refs, n, args.excludeSubagents);
      }
    }
  }

  ghost predicate AllFrom(refs: seq<Ref>, agent: string) {
    forall ref :: ref in refs ==> ref.agent == agent
  }

  lemma {:induction false} CountAllFrom(refs: seq<Ref>, includeSubagents: bool, agent: string)
    requires AllFrom(refs, agent)
    ensures CountAgent(Counted(refs, includeSubagents), agent) == |Counted(refs, includeSubagents)|
  {
    if refs != [] {
      var init, last := refs[..|refs| - 1], refs[|refs| - 1];
      assert refs == init + [last];
      CountAllFrom(init, includeSubagents, agent);
      CountedLast(init, last, includeSubagents, agent);
    }
  }

  // Numerator and denominator, end to end: in a report that has a census, an agent's row shows at
  // most its total, and when the run says nothing was truncated every row shows all of it. The raw
  // files all carry the one agent name raw discovery stamps.
  lemma RowsNeverExceedTotals(av: AgentsView, raw: RefStream, args: Args, d: Discovery, agent: string)
    requires av.Valid() && UniqueIds(av.archive) && "all" !in AgentsOf(av.archive) && AllFrom(raw.refs, RAW_AGENT)
    requires NotSpliced(av, raw, args, d) && d.census.unavailable.None? && agent in d.census.totals
    ensures var shown := CountAgent(Counted(d.refs, !args.excludeSubagents), agent);
            && shown <= d.census.totals[agent]
            && (d.truncated == Some(false) ==> shown == d.census.totals[agent])
  {
    NeverSplices(av, raw, args, d);
    TruncationIsTruthful(av, raw, args, d);
    var source := ReadStream(av, raw, args, d).refs;
    assert d.refs == source[..|d.refs|];
    if d.skips == [] && AsksAgentsView(av, args.source) {
      ProbedAgents(av.archive, args.scope, agent);
      RowsFitTheCensus(av, args.scope, PageLimit(args), !args.excludeSubagents, agent, |d.refs|);
    } else {
      RawRowsFit(raw, agent, |d.refs|, !args.excludeSubagents, d.census);
    }
  }

  // The raw files and their count.
  lemma RawRowsFit(raw: RefStream, agent: string, n: nat, includeSubagents: bool, census: Census)
    requires AllFrom(raw.refs, RAW_AGENT) && n <= |raw.refs|
    requires RawCensus(raw, includeSubagents) == Ok(census) && census.unavailable.None? && agent in census.totals
    ensures CountAgent(Counted(raw.refs[..n], includeSubagents), agent) <= census.totals[agent]
    ensures CountAgent(Counted(raw.refs, includeSubagents), agent) == census.totals[agent]
  {
    var count := |Counted(raw.refs, includeSubagents)|;
    RawTotal(raw, agent, includeSubagents, census);
    FilesFit(raw.refs, agent, n, includeSubagents, count);
  }

  lemma RawTotal(raw: RefStream, agent: string, includeSubagents: bool, census: Census)
    requires RawCensus(raw, includeSubagents) == Ok(census) && census.unavailable.None? && agent in census.totals
    ensures agent == RAW_AGENT && census.totals[agent] == |Counted(raw.refs, includeSubagents)|
  {}

  lemma FilesFit(refs: seq<Ref>, agent: string, n: nat, includeSubagents: bool, count: nat)
    requires AllFrom(refs, agent) && n <= |refs| && count == |Counted(refs, includeSubagents)|
    ensures CountAgent(Counted(refs[..n], includeSubagents), agent) <= count
    ensures CountAgent(Counted(refs, includeSubagents), agent) == count
  {
    CountAllFrom(refs, includeSubagents, agent);
    CountPrefix(refs, n, includeSubagents, agent);
  }
}
