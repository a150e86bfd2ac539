/** Attribution of a session's tokens to one orchestration run (src/toolbench/reducer.py, `_absorb_run`). */
module RunAttribution {
  import opened Options
  import opened Transcript
  import opened Sums
  import opened UsageLedger
  import opened ClaudeParser
  import opened ParseLaws
  import opened RunManifest

  datatype RunStats = RunStats(
    read: int,
    creation: int,
    input: int,
    output: int,
    candidateSessions: nat,
    unattributedRead: int,
    unattributedCreation: int,
    detachedSessions: nat,
    detachedRead: int,
    detachedCreation: int,
    detachedInput: int,
    detachedOutput: int,
    worktreeSessions: nat,
    worktreeRead: int,
    worktreeCreation: int,
    branchesSeen: set<string>,
    worktreesSeen: set<string>)
  {
    function Plus(b: RunStats): RunStats {
      RunStats(read + b.read, creation + b.creation, input + b.input, output + b.output,
               candidateSessions + b.candidateSessions,
               unattributedRead + b.unattributedRead, unattributedCreation + b.unattributedCreation,
               detachedSessions + b.detachedSessions,
               detachedRead + b.detachedRead, detachedCreation + b.detachedCreation,
               detachedInput + b.detachedInput, detachedOutput + b.detachedOutput,
               worktreeSessions + b.worktreeSessions,
               worktreeRead + b.worktreeRead, worktreeCreation + b.worktreeCreation,
               branchesSeen + b.branchesSeen, worktreesSeen + b.worktreesSeen)
    }
  }

  const NO_RUN := RunStats(0, 0, 0, 0, 0, 0, 0, 0, 0, 0, 0, 0, 0, 0, 0, {}, {})

  function ClaimedCwds(r: ParseResult, m: Manifest): set<string> {
    set cwd | cwd in r.detachedByCwd && WorktreeFor(m.worktrees, cwd).Some?
  }

  // The detached usage a manifest worktree claims.
  ghost function Claimed(r: ParseResult, m: Manifest): BranchUsage {
    Column(Only(r.detachedByCwd, ClaimedCwds(r, m)))
  }

  function WorktreesOf(cwds: set<string>, m: Manifest): set<string>
    requires forall cwd :: cwd in cwds ==> WorktreeFor(m.worktrees, cwd).Some?
  {
    set cwd | cwd in cwds :: WorktreeFor(m.worktrees, cwd).value
  }

  function WorktreesClaiming(r: ParseResult, m: Manifest): set<string> {
    WorktreesOf(ClaimedCwds(r, m), m)
  }

  function RunBranches(r: ParseResult, m: Manifest): set<string> {
    set b | b in r.usageByBranch && b in m.branches
  }

  function SpillBranches(r: ParseResult, m: Manifest): set<string> {
    set b | b in r.usageByBranch && b !in m.branches && b != DETACHED_BRANCH
  }

  ghost function InRun(r: ParseResult, m: Manifest): BranchUsage {
    Column(Only(r.usageByBranch, RunBranches(r, m)))
  }

  ghost function Spill(r: ParseResult, m: Manifest): BranchUsage {
    Column(Only(r.usageByBranch, SpillBranches(r, m)))
  }

  ghost predicate Candidate(r: ParseResult, m: Manifest) {
    RunBranches(r, m) != {} || Claimed(r, m).messages != 0
  }

  predicate SpentAnything(u: BranchUsage) {
    u.read != 0 || u.creation != 0 || u.input != 0 || u.output != 0
  }

  function BookDetached(s: RunStats, u: BranchUsage): RunStats {
    if !SpentAnything(u) then s
    else
      s.(detachedSessions := s.detachedSessions + 1,
         detachedRead := s.detachedRead + u.read,
         detachedCreation := s.detachedCreation + u.creation,
         detachedInput := s.detachedInput + u.input,
         detachedOutput := s.detachedOutput + u.output)
  }

  function FoldClaimed(s: RunStats, u: BranchUsage): RunStats {
    s.(worktreeSessions := s.worktreeSessions + 1,
       worktreeRead := s.worktreeRead + u.read,
       worktreeCreation := s.worktreeCreation + u.creation,
       read := s.read + u.read,
       creation := s.creation + u.creation,
       input := s.input + u.input,
       output := s.output + u.output)
  }

  function FoldRun(s: RunStats, u: BranchUsage): RunStats {
    s.(read := s.read + u.read, creation := s.creation + u.creation,
       input := s.input + u.input, output := s.output + u.output)
  }

  function FoldSpill(s: RunStats, u: BranchUsage): RunStats {
    s.(unattributedRead := s.unattributedRead + u.read,
       unattributedCreation := s.unattributedCreation + u.creation)
  }

  // What one session holds for the run.
  datatype Share = Share(
    claimed: BranchUsage,
    detached: BranchUsage,
    inRun: BranchUsage,
    spill: BranchUsage,
    branches: set<string>,
    worktrees: set<string>)

  function AbsorbShare(s: RunStats, x: Share): RunStats {
    var seen := s.(worktreesSeen := s.worktreesSeen + x.worktrees);
    var booked := BookDetached(seen, x.detached.Minus(x.claimed));
    if x.branches == {} && x.claimed.messages == 0 then booked
    else
      var counted := booked.(candidateSessions := booked.candidateSessions + 1,
                             branchesSeen := booked.branchesSeen + x.branches);
      var folded := if x.claimed.messages != 0 then FoldClaimed(counted, x.claimed) else counted;
      FoldSpill(FoldRun(folded, x.inRun), x.spill)
  }

  ghost function ShareOf(r: ParseResult, m: Manifest): Share {
    Share(Claimed(r, m), Bucket(r.usageByBranch, DETACHED_BRANCH), InRun(r, m), Spill(r, m),
          RunBranches(r, m), WorktreesClaiming(r, m))
  }

  ghost function AbsorbRun(s: RunStats, r: ParseResult, m: Manifest): RunStats {
    AbsorbShare(s, ShareOf(r, m))
  }

  /******* Conservation of one session *******/

  // What the three totals gained, column by column.
  function GainedRead(s: RunStats, t: RunStats): int {
    (t.read - s.read) + (t.unattributedRead - s.unattributedRead) + (t.detachedRead - s.detachedRead)
  }

  function GainedCreation(s: RunStats, t: RunStats): int {
    (t.creation - s.creation) + (t.unattributedCreation - s.unattributedCreation)
    + (t.detachedCreation - s.detachedCreation)
  }

  lemma ColumnSplit(m: map<string, BranchUsage>, keys: set<string>)
    ensures Column(m) == Column(Only(m, keys)).Plus(Column(Only(m, m.Keys - keys)))
  {
    SumSplit(m, keys, Read);
    SumSplit(m, keys, Creation);
    SumSplit(m, keys, Input);
    SumSplit(m, keys, Output);
    SumSplit(m, keys, Messages);
  }

  lemma ColumnOfOne(m: map<string, BranchUsage>, k: string)
    ensures Column(Only(m, {k})) == Bucket(m, k)
  {
    if k in m {
      assert Only(m, {k}) == (map[])[k := m[k]];
      ColumnUpdate(map[], k, m[k]);
    } else {
      assert Only(m, {k}) == map[];
    }
  }

  // The claimed part subtracted from the detached bucket leaves exactly the unclaimed directories.
  lemma {:induction false} MinusLeavesUnclaimed(r: ParseResult, m: Manifest)
    requires KeepsLedger(r)
    ensures Bucket(r.usageByBranch, DETACHED_BRANCH).Minus(Claimed(r, m)) ==
            Column(Only(r.detachedByCwd, r.detachedByCwd.Keys - ClaimedCwds(r, m)))
  {
    ColumnSplit(r.detachedByCwd, ClaimedCwds(r, m));
  }

  // A session nothing claims has claimed nothing: a bucket without messages does not exist.
  lemma NothingClaimed(r: ParseResult, m: Manifest)
    requires KeepsLedger(r) && Claimed(r, m).messages == 0
    ensures ClaimedCwds(r, m) == {} && Claimed(r, m) == NO_USAGE
  {
    var only := Only(r.detachedByCwd, ClaimedCwds(r, m));
    NoBucketsWithoutMessages(only);
    assert only.Keys == ClaimedCwds(r, m);
  }

  lemma ThreeWaySplit(all: map<string, BranchUsage>, a: set<string>, b: set<string>)
    requires a !! b
    ensures Column(all) == Column(Only(all, a)).Plus(Column(Only(all, b))).Plus(Column(Only(all, all.Keys - a - b)))
  {
    var rest := Only(all, all.Keys - a);
    ColumnSplit(all, a);
    ColumnSplit(rest, b);
    assert Only(rest, b) == Only(all, b);
    assert Only(rest, rest.Keys - b) == Only(all, all.Keys - a - b);
  }

  // The branches that are neither of the run nor spillover: the detached one, unless the manifest lists it.
  lemma NeitherIsDetached(r: ParseResult, m: Manifest)
    ensures Only(r.usageByBranch, r.usageByBranch.Keys - RunBranches(r, m) - SpillBranches(r, m)) ==
            if DETACHED_BRANCH in m.branches then map[] else Only(r.usageByBranch, {DETACHED_BRANCH})
  {}

  // The branches of a session: those of the run, the spillover, and the detached one.
  lemma BranchesSplit(r: ParseResult, m: Manifest)
    ensures Column(r.usageByBranch) ==
            if DETACHED_BRANCH in m.branches then InRun(r, m).Plus(Spill(r, m))
            else InRun(r, m).Plus(Spill(r, m)).Plus(Bucket(r.usageByBranch, DETACHED_BRANCH))
  {
    ThreeWaySplit(r.usageByBranch, RunBranches(r, m), SpillBranches(r, m));
    NeitherIsDetached(r, m);
    LastColumn(r, m);
  }

  lemma LastColumn(r: ParseResult, m: Manifest)
    ensures Column(map[]) == NO_USAGE
    ensures Column(Only(r.usageByBranch, {DETACHED_BRANCH})) == Bucket(r.usageByBranch, DETACHED_BRANCH)
  {
    ColumnOfOne(r.usageByBranch, DETACHED_BRANCH);
  }

  // What a candidate adds to the three totals: its run branches, its spillover and its detached bucket.
  lemma CandidateGains(s: RunStats, x: Share)
    requires x.branches != {} || x.claimed.messages != 0
    requires x.claimed.messages == 0 ==> x.claimed == NO_USAGE
    ensures var t := AbsorbShare(s, x);
            && GainedRead(s, t) == x.inRun.read + x.spill.read + x.detached.read
            && GainedCreation(s, t) == x.inRun.creation + x.spill.creation + x.detached.creation
  {}

  lemma CandidateBalance(s: RunStats, x: Share, total: BranchUsage, headListed: bool)
    requires x.branches != {} || x.claimed.messages != 0
    requires x.claimed.messages == 0 ==> x.claimed == NO_USAGE
    requires total == if headListed then x.inRun.Plus(x.spill) else x.inRun.Plus(x.spill).Plus(x.detached)
    ensures var t := AbsorbShare(s, x);
            && (GainedRead(s, t) == total.read <==> !headListed || x.detached.read == 0)
            && (GainedCreation(s, t) == total.creation <==> !headListed || x.detached.creation == 0)
  {
    CandidateGains(s, x);
  }

  lemma OtherGains(s: RunStats, x: Share)
    requires x.branches == {} && x.claimed == NO_USAGE && x.worktrees == {}
    ensures AbsorbShare(s, x) == BookDetached(s, x.detached)
  {
    assert s.worktreesSeen + {} == s.worktreesSeen;
    assert x.detached.Minus(NO_USAGE) == x.detached;
  }

  lemma ShareClaims(r: ParseResult, m: Manifest)
    requires KeepsLedger(r)
    ensures Claimed(r, m).messages == 0 ==> Claimed(r, m) == NO_USAGE && WorktreesClaiming(r, m) == {}
  {
    if Claimed(r, m).messages == 0 {
      NothingClaimed(r, m);
    }
  }

  // A candidate session's cache tokens end up in the three totals, all of them and once, exactly when
  // the detached bucket is not also folded in as a run branch.
  lemma {:induction false} CandidateConserves(s: RunStats, r: ParseResult, m: Manifest)
    requires KeepsLedger(r) && Candidate(r, m)
    ensures var t := AbsorbRun(s, r, m);
            var head := Bucket(r.usageByBranch, DETACHED_BRANCH);
            && (GainedRead(s, t) == SessionTotal(r).read <==> DETACHED_BRANCH !in m.branches || head.read == 0)
            && (GainedCreation(s, t) == SessionTotal(r).creation <==>
                DETACHED_BRANCH !in m.branches || head.creation == 0)
  {
    BranchesSplit(r, m);
    ShareClaims(r, m);
    CandidateBalance(s, ShareOf(r, m), SessionTotal(r), DETACHED_BRANCH in m.branches);
  }

  // A manifest that lists the detached branch loses the law: one detached token is counted twice.
  lemma HeadListedCountsTwice()
    ensures var usage := BranchUsage(1, 0, 0, 0, 1);
            var branches, cwds := map[DETACHED_BRANCH := usage], map["" := usage];
            var r := ParseResult([], 0, Some(1), Some(0), 0, 0, 1, branches, cwds, map[], map[]);
            var m := Manifest("", [], {DETACHED_BRANCH}, []);
            && KeepsLedger(r) && Candidate(r, m)
            && GainedRead(NO_RUN, AbsorbRun(NO_RUN, r, m)) != SessionTotal(r).read
  {
    var usage := BranchUsage(1, 0, 0, 0, 1);
    var branches, cwds := map[DETACHED_BRANCH := usage], map["" := usage];
    var r := ParseResult([], 0, Some(1), Some(0), 0, 0, 1, branches, cwds, map[], map[]);
    var m := Manifest("", [], {DETACHED_BRANCH}, []);
    ColumnOfOne(r.usageByBranch, DETACHED_BRANCH);
    ColumnOfOne(r.detachedByCwd, "");
    assert Only(r.usageByBranch, {DETACHED_BRANCH}) == r.usageByBranch;
    assert Only(r.detachedByCwd, {""}) == r.detachedByCwd;
    assert DETACHED_BRANCH in RunBranches(r, m);
    CandidateConserves(NO_RUN, r, m);
  }

  // A session that is no candidate adds its detached bucket to the blind spot and nothing else.
  lemma {:induction false} OtherAddsOnlyDetached(s: RunStats, r: ParseResult, m: Manifest)
    requires KeepsLedger(r) && !Candidate(r, m)
    ensures var t := AbsorbRun(s, r, m);
            var head := Bucket(r.usageByBranch, DETACHED_BRANCH);
            && t == BookDetached(s, head)
            && t.detachedRead - s.detachedRead == head.read
            && t.detachedCreation - s.detachedCreation == head.creation
            && t.detachedInput - s.detachedInput == head.input
            && t.detachedOutput - s.detachedOutput == head.output
  {
    ShareClaims(r, m);
    OtherGains(s, ShareOf(r, m));
  }

  /******* Conservation over whole runs *******/

  ghost function AbsorbAll(rs: seq<ParseResult>, m: Manifest): RunStats {
    if rs == [] then NO_RUN else AbsorbRun(AbsorbAll(rs[..|rs| - 1], m), rs[|rs| - 1], m)
  }

  // What a session owes the three totals together.
  ghost function Owed(r: ParseResult, m: Manifest): BranchUsage {
    if Candidate(r, m) then SessionTotal(r) else Bucket(r.usageByBranch, DETACHED_BRANCH)
  }

  // What is booked on top of that when the manifest lists the detached branch: a candidate's detached
  // bucket, once more.
  ghost function BookedTwice(r: ParseResult, m: Manifest): BranchUsage {
    if DETACHED_BRANCH in m.branches && Candidate(r, m) then Bucket(r.usageByBranch, DETACHED_BRANCH) else NO_USAGE
  }

  ghost function OwedByAll(rs: seq<ParseResult>, m: Manifest): BranchUsage {
    if rs == [] then NO_USAGE else OwedByAll(rs[..|rs| - 1], m).Plus(Owed(rs[|rs| - 1], m))
  }

  ghost function TwiceByAll(rs: seq<ParseResult>, m: Manifest): BranchUsage {
    if rs == [] then NO_USAGE else TwiceByAll(rs[..|rs| - 1], m).Plus(BookedTwice(rs[|rs| - 1], m))
  }

  // Cache tokens, read and created.
  datatype Cache = Cache(read: int, creation: int)

  function CacheOf(u: BranchUsage): Cache {
    Cache(u.read, u.creation)
  }

  // What the run, the spillover and the blind spot hold together.
  function Held(t: RunStats): Cache {
    Cache(t.read + t.unattributedRead + t.detachedRead, t.creation + t.unattributedCreation + t.detachedCreation)
  }

  lemma CandidateHolds(s: RunStats, x: Share, total: BranchUsage, headListed: bool, amount: BranchUsage)
    requires Held(s) == CacheOf(amount)
    requires x.branches != {} || x.claimed.messages != 0
    requires x.claimed.messages == 0 ==> x.claimed == NO_USAGE
    requires total == if headListed then x.inRun.Plus(x.spill) else x.inRun.Plus(x.spill).Plus(x.detached)
    ensures Held(AbsorbShare(s, x)) == CacheOf(amount.Plus(total.Plus(if headListed then x.detached else NO_USAGE)))
  {
    CandidateGains(s, x);
  }

  lemma BookedHolds(s: RunStats, u: BranchUsage, amount: BranchUsage)
    requires Held(s) == CacheOf(amount)
    ensures Held(BookDetached(s, u)) == CacheOf(amount.Plus(u.Plus(NO_USAGE)))
  {}

  // What one session adds to the totals.
  ghost function Due(r: ParseResult, m: Manifest): BranchUsage {
    Owed(r, m).Plus(BookedTwice(r, m))
  }

  ghost function DueByAll(rs: seq<ParseResult>, m: Manifest): BranchUsage {
    if rs == [] then NO_USAGE else DueByAll(rs[..|rs| - 1], m).Plus(Due(rs[|rs| - 1], m))
  }

  lemma CandidateIsDue(s: RunStats, r: ParseResult, m: Manifest, amount: BranchUsage)
    requires KeepsLedger(r) && Held(s) == CacheOf(amount) && Candidate(r, m)
    ensures Held(AbsorbRun(s, r, m)) == CacheOf(amount.Plus(Due(r, m)))
  {
    BranchesSplit(r, m);
    ShareClaims(r, m);
    CandidateHolds(s, ShareOf(r, m), SessionTotal(r), DETACHED_BRANCH in m.branches, amount);
  }

  lemma OtherIsDue(s: RunStats, r: ParseResult, m: Manifest, amount: BranchUsage)
    requires KeepsLedger(r) && Held(s) == CacheOf(amount) && !Candidate(r, m)
    ensures Held(AbsorbRun(s, r, m)) == CacheOf(amount.Plus(Due(r, m)))
  {
    OtherAddsOnlyDetached(s, r, m);
    BookedHolds(s, Bucket(r.usageByBranch, DETACHED_BRANCH), amount);
  }

  lemma SessionIsDue(s: RunStats, r: ParseResult, m: Manifest, amount: BranchUsage)
    requires KeepsLedger(r) && Held(s) == CacheOf(amount)
    ensures Held(AbsorbRun(s, r, m)) == CacheOf(amount.Plus(Due(r, m)))
  {
    if Candidate(r, m) {
      CandidateIsDue(s, r, m, amount);
    } else {
      OtherIsDue(s, r, m, amount);
    }
  }

  lemma {:induction false} RunHoldsDue(rs: seq<ParseResult>, m: Manifest)
    requires forall r :: r in rs ==> KeepsLedger(r)
    ensures Held(AbsorbAll(rs, m)) == CacheOf(DueByAll(rs, m))
  {
    if rs == [] {
      NothingHeld(AbsorbAll(rs, m), DueByAll(rs, m));
    } else {
      var init, last := rs[..|rs| - 1], rs[|rs| - 1];
      assert rs == init + [last];
      RunHoldsDue(init, m);
      OneMoreDue(init, last, m);
    }
  }

  lemma NothingHeld(t: RunStats, u: BranchUsage)
    requires t.read == t.unattributedRead == t.detachedRead == 0
    requires t.creation == t.unattributedCreation == t.detachedCreation == 0
    requires u == NO_USAGE
    ensures Held(t) == CacheOf(u)
  {}

  lemma OneMoreDue(init: seq<ParseResult>, last: ParseResult, m: Manifest)
    requires KeepsLedger(last) && Held(AbsorbAll(init, m)) == CacheOf(DueByAll(init, m))
    ensures Held(AbsorbAll(init + [last], m)) == CacheOf(DueByAll(init + [last], m))
  {
    SessionIsDue(AbsorbAll(init, m), last, m, DueByAll(init, m));
    assert (init + [last])[..|init|] == init;
  }

  lemma {:induction false} DueSplits(rs: seq<ParseResult>, m: Manifest)
    ensures DueByAll(rs, m) == OwedByAll(rs, m).Plus(TwiceByAll(rs, m))
  {
    if rs != [] {
      var init, last := rs[..|rs| - 1], rs[|rs| - 1];
      DueSplits(init, m);
      PlusPairs(OwedByAll(init, m), TwiceByAll(init, m), Owed(last, m), BookedTwice(last, m));
    }
  }

  lemma PlusPairs(a: BranchUsage, b: BranchUsage, c: BranchUsage, d: BranchUsage)
    ensures a.Plus(b).Plus(c.Plus(d)) == a.Plus(c).Plus(b.Plus(d))
  {}

  lemma {:induction false} NothingTwice(rs: seq<ParseResult>, m: Manifest)
    requires DETACHED_BRANCH !in m.branches
    ensures TwiceByAll(rs, m) == NO_USAGE
  {
    if rs != [] {
      NothingTwice(rs[..|rs| - 1], m);
    }
  }

  // Over every list of sessions and every manifest.
  lemma {:induction false} RunConserves(rs: seq<ParseResult>, m: Manifest)
    requires forall r :: r in rs ==> KeepsLedger(r)
    ensures Held(AbsorbAll(rs, m)) == CacheOf(OwedByAll(rs, m).Plus(TwiceByAll(rs, m)))
    ensures DETACHED_BRANCH !in m.branches ==> TwiceByAll(rs, m) == NO_USAGE
  {
    RunHoldsDue(rs, m);
    DueSplits(rs, m);
    if DETACHED_BRANCH !in m.branches {
      NothingTwice(rs, m);
    }
  }

  /******* What each total of a run means *******/

  // The detached usage of one session that no worktree claims.
  ghost function Unclaimed(r: ParseResult, m: Manifest): BranchUsage {
    Column(Only(r.detachedByCwd, r.detachedByCwd.Keys - ClaimedCwds(r, m)))
  }

  // The parts a session's usage falls into; spillover counts only in sessions that take part in the run.
  datatype Parts = Parts(run: BranchUsage, claimed: BranchUsage, unclaimed: BranchUsage, spill: BranchUsage) {
    function Plus(p: Parts): Parts {
      Parts(run.Plus(p.run), claimed.Plus(p.claimed), unclaimed.Plus(p.unclaimed), spill.Plus(p.spill))
    }
  }

  ghost function PartsOf(r: ParseResult, m: Manifest): Parts {
    Parts(InRun(r, m).Plus(Claimed(r, m)), Claimed(r, m), Unclaimed(r, m),
          if Candidate(r, m) then Spill(r, m) else NO_USAGE)
  }

  ghost function PartsOfAll(rs: seq<ParseResult>, m: Manifest): Parts {
    if rs == [] then Parts(NO_USAGE, NO_USAGE, NO_USAGE, NO_USAGE)
    else PartsOfAll(rs[..|rs| - 1], m).Plus(PartsOf(rs[|rs| - 1], m))
  }

  // The totals of a run, told apart.
  predicate TotalsAre(t: RunStats, p: Parts) {
    && t.read == p.run.read && t.creation == p.run.creation && t.input == p.run.input && t.output == p.run.output
    && t.worktreeRead == p.claimed.read && t.worktreeCreation == p.claimed.creation
    && t.detachedRead == p.unclaimed.read && t.detachedCreation == p.unclaimed.creation
    && t.detachedInput == p.unclaimed.input && t.detachedOutput == p.unclaimed.output
    && t.unattributedRead == p.spill.read && t.unattributedCreation == p.spill.creation
  }

  lemma BookedTotals(s: RunStats, u: BranchUsage, p: Parts)
    requires TotalsAre(s, p)
    ensures TotalsAre(BookDetached(s, u), p.(unclaimed := p.unclaimed.Plus(u)))
  {}

  lemma FoldedTotals(s: RunStats, x: Share, p: Parts)
    requires TotalsAre(s, p)
    ensures TotalsAre(FoldSpill(FoldRun(s, x.inRun), x.spill),
                      p.(run := p.run.Plus(x.inRun), spill := p.spill.Plus(x.spill)))
    ensures TotalsAre(FoldClaimed(s, x.claimed), p.(run := p.run.Plus(x.claimed), claimed := p.claimed.Plus(x.claimed)))
  {}

  function ShareParts(x: Share): Parts {
    var candidate := x.branches != {} || x.claimed.messages != 0;
    Parts(x.inRun.Plus(x.claimed), x.claimed, x.detached.Minus(x.claimed), if candidate then x.spill else NO_USAGE)
  }

  // The parts reached by booking, folding the claim and folding the branches, in that order.
  function Reached(p: Parts, x: Share): Parts {
    var booked := p.(unclaimed := p.unclaimed.Plus(x.detached.Minus(x.claimed)));
    if x.branches == {} && x.claimed.messages == 0 then booked
    else
      var folded := if x.claimed.messages != 0
                    then booked.(run := booked.run.Plus(x.claimed), claimed := booked.claimed.Plus(x.claimed))
                    else booked;
      folded.(run := folded.run.Plus(x.inRun), spill := folded.spill.Plus(x.spill))
  }

  lemma ReachedIsSum(p: Parts, x: Share)
    requires x.claimed.messages == 0 ==> x.claimed == NO_USAGE
    requires x.branches == {} ==> x.inRun == NO_USAGE
    ensures Reached(p, x) == p.Plus(ShareParts(x))
  {
    PlusRearranges(p.run, x.claimed, x.inRun);
    PlusNothing(p.run);
    PlusNothing(p.claimed);
    PlusNothing(p.spill);
    PlusNothing(x.inRun);
    if x.claimed.messages == 0 {
      if x.branches == {} {
        assert x.inRun.Plus(x.claimed) == NO_USAGE;
      } else {
        assert x.inRun.Plus(x.claimed) == x.inRun;
      }
    }
  }

  lemma PlusRearranges(a: BranchUsage, b: BranchUsage, c: BranchUsage)
    ensures a.Plus(b).Plus(c) == a.Plus(c.Plus(b))
  {}

  lemma PlusNothing(a: BranchUsage)
    ensures a.Plus(NO_USAGE) == a
  {}

  lemma ShareTotals(s: RunStats, x: Share, p: Parts)
    requires TotalsAre(s, p)
    ensures TotalsAre(AbsorbShare(s, x), Reached(p, x))
  {
    var seen := s.(worktreesSeen := s.worktreesSeen + x.worktrees);
    var unclaimed := x.detached.Minus(x.claimed);
    var booked := BookDetached(seen, unclaimed);
    var q := p.(unclaimed := p.unclaimed.Plus(unclaimed));
    BookedTotals(seen, unclaimed, p);
    if x.branches != {} || x.claimed.messages != 0 {
      var counted := booked.(candidateSessions := booked.candidateSessions + 1,
                             branchesSeen := booked.branchesSeen + x.branches);
      CountedTotals(counted, x, q);
    }
  }

  lemma CountedTotals(s: RunStats, x: Share, p: Parts)
    requires TotalsAre(s, p)
    ensures var folded := if x.claimed.messages != 0 then FoldClaimed(s, x.claimed) else s;
            var q := if x.claimed.messages != 0
                     then p.(run := p.run.Plus(x.claimed), claimed := p.claimed.Plus(x.claimed)) else p;
            TotalsAre(FoldSpill(FoldRun(folded, x.inRun), x.spill),
                      q.(run := q.run.Plus(x.inRun), spill := q.spill.Plus(x.spill)))
  {
    FoldedTotals(s, x, p);
    if x.claimed.messages != 0 {
      FoldedTotals(FoldClaimed(s, x.claimed), x,
                   p.(run := p.run.Plus(x.claimed), claimed := p.claimed.Plus(x.claimed)));
    }
  }

  lemma NoBranchesNoUsage(r: ParseResult, m: Manifest)
    ensures RunBranches(r, m) == {} ==> InRun(r, m) == NO_USAGE
  {
    if RunBranches(r, m) == {} {
      assert Only(r.usageByBranch, {}) == map[];
    }
  }

  lemma SessionTotals(s: RunStats, r: ParseResult, m: Manifest, p: Parts)
    requires TotalsAre(s, p) && KeepsLedger(r)
    ensures TotalsAre(AbsorbRun(s, r, m), p.Plus(PartsOf(r, m)))
  {
    SessionParts(r, m);
    ShareTotals(s, ShareOf(r, m), p);
    ReachedIsSum(p, ShareOf(r, m));
  }

  // Over every list of sessions: the run holds its branches and the claimed directories, the blind
  // spot exactly the unclaimed ones, and the spillover the other branches of participating sessions.
  lemma {:induction false} TotalsMeaning(rs: seq<ParseResult>, m: Manifest)
    requires forall r :: r in rs ==> KeepsLedger(r)
    ensures TotalsAre(AbsorbAll(rs, m), PartsOfAll(rs, m))
  {
    if rs != [] {
      var init, last := rs[..|rs| - 1], rs[|rs| - 1];
      assert last in rs;
      TotalsMeaning(init, m);
      SessionTotals(AbsorbAll(init, m), last, m, PartsOfAll(init, m));
    }
  }

  lemma SessionParts(r: ParseResult, m: Manifest)
    requires KeepsLedger(r)
    ensures var x := ShareOf(r, m);
            && PartsOf(r, m) == ShareParts(x)
            && (x.claimed.messages == 0 ==> x.claimed == NO_USAGE)
            && (x.branches == {} ==> x.inRun == NO_USAGE)
  {
    MinusLeavesUnclaimed(r, m);
    ShareClaims(r, m);
    NoBranchesNoUsage(r, m);
  }

  // How many sessions took part, left detached spending unclaimed, and had directories claimed.
  datatype Counts = Counts(candidates: nat, detached: nat, claimed: nat)

  ghost function CountsOf(rs: seq<ParseResult>, m: Manifest): Counts {
    if rs == [] then Counts(0, 0, 0)
    else
      var c, last := CountsOf(rs[..|rs| - 1], m), rs[|rs| - 1];
      Counts(c.candidates + (if Candidate(last, m) then 1 else 0),
             c.detached + (if SpentAnything(Unclaimed(last, m)) then 1 else 0),
             c.claimed + (if ClaimedCwds(last, m) != {} then 1 else 0))
  }

  lemma ShareCounts(s: RunStats, x: Share)
    ensures var t := AbsorbShare(s, x);
            var candidate := x.branches != {} || x.claimed.messages != 0;
            && t.candidateSessions == s.candidateSessions + (if candidate then 1 else 0)
            && t.detachedSessions == s.detachedSessions + (if SpentAnything(x.detached.Minus(x.claimed)) then 1 else 0)
            && t.worktreeSessions == s.worktreeSessions + (if x.claimed.messages != 0 then 1 else 0)
  {}

  // A session has claimed messages exactly when some directory was claimed.
  lemma ClaimedMessages(r: ParseResult, m: Manifest)
    requires KeepsLedger(r)
    ensures Claimed(r, m).messages != 0 <==> ClaimedCwds(r, m) != {}
  {
    if Claimed(r, m).messages == 0 {
      NothingClaimed(r, m);
    }
  }

  lemma SessionCounts(s: RunStats, r: ParseResult, m: Manifest)
    requires KeepsLedger(r)
    ensures var t := AbsorbRun(s, r, m);
            && t.candidateSessions == s.candidateSessions + (if Candidate(r, m) then 1 else 0)
            && t.detachedSessions == s.detachedSessions + (if SpentAnything(Unclaimed(r, m)) then 1 else 0)
            && t.worktreeSessions == s.worktreeSessions + (if ClaimedCwds(r, m) != {} then 1 else 0)
  {
    MinusLeavesUnclaimed(r, m);
    ClaimedMessages(r, m);
    ShareCounts(s, ShareOf(r, m));
  }

  // The three session counts of a run: the sessions that take part, those with detached spending no
  // worktree claims, and those with a claimed directory.
  lemma {:induction false} SessionsMeaning(rs: seq<ParseResult>, m: Manifest)
    requires forall r :: r in rs ==> KeepsLedger(r)
    ensures var t := AbsorbAll(rs, m);
            Counts(t.candidateSessions, t.detachedSessions, t.worktreeSessions) == CountsOf(rs, m)
  {
    if rs != [] {
      var init, last := rs[..|rs| - 1], rs[|rs| - 1];
      assert last in rs;
      SessionsMeaning(init, m);
      SessionCounts(AbsorbAll(init, m), last, m);
    }
  }

  // A manifest branch is reported missing exactly when no session spent anything on it, a worktree
  // exactly when no detached entry ran in it.
  lemma {:induction false} SeenMeaning(rs: seq<ParseResult>, m: Manifest, name: string)
    requires forall r :: r in rs ==> KeepsLedger(r)
    ensures name in AbsorbAll(rs, m).branchesSeen <==>
            name in m.branches && exists r :: r in rs && name in r.usageByBranch
    ensures name in AbsorbAll(rs, m).worktreesSeen <==>
            exists r :: r in rs && name in WorktreesClaiming(r, m)
  {
    if rs != [] {
      var init, last := rs[..|rs| - 1], rs[|rs| - 1];
      assert rs == init + [last];
      SeenMeaning(init, m, name);
      ShareSeen(AbsorbAll(init, m), ShareOf(last, m));
    }
  }

  lemma ShareSeen(s: RunStats, x: Share)
    ensures AbsorbShare(s, x).branchesSeen == s.branchesSeen + x.branches
    ensures AbsorbShare(s, x).worktreesSeen == s.worktreesSeen + x.worktrees
  {
    assert x.branches == {} ==> s.branchesSeen + x.branches == s.branchesSeen;
  }

  predicate NonNegative(u: BranchUsage) {
    u.read >= 0 && u.creation >= 0 && u.input >= 0 && u.output >= 0 && u.messages >= 0
  }

  lemma {:induction false} ColumnNonNegative(m: map<string, BranchUsage>)
    requires forall k :: k in m ==> NonNegative(m[k])
    ensures NonNegative(Column(m))
    decreases |m|
  {
    if m != map[] {
      var k := PickKey(m);
      SmallerWithout(m, k);
      ColumnNonNegative(m - {k});
      ColumnWithout(m, k);
    }
  }

  lemma ColumnWithout(m: map<string, BranchUsage>, k: string)
    requires k in m
    ensures Column(m) == Column(m - {k}).Plus(m[k])
  {
    SumWithout(m, k, Read);
    SumWithout(m, k, Creation);
    SumWithout(m, k, Input);
    SumWithout(m, k, Output);
    SumWithout(m, k, Messages);
  }

  // Where no usage is negative, taking out the claimed part never books a negative blind spot.
  lemma MinusNeverNegative(r: ParseResult, m: Manifest)
    requires KeepsLedger(r) && forall c :: c in r.detachedByCwd ==> NonNegative(r.detachedByCwd[c])
    ensures NonNegative(Bucket(r.usageByBranch, DETACHED_BRANCH).Minus(Claimed(r, m)))
  {
    MinusLeavesUnclaimed(r, m);
    ColumnNonNegative(Only(r.detachedByCwd, r.detachedByCwd.Keys - ClaimedCwds(r, m)));
  }

  /******* End to end: from transcripts to the run *******/

  function ParseAll(transcripts: seq<seq<Line<Entry>>>, mode: Mode): seq<ParseResult>
    requires !mode.trackTurns
  {
    if transcripts == [] then []
    else
      ParseAll(transcripts[..|transcripts| - 1], mode) + [ParseSpec(transcripts[|transcripts| - 1], mode).value]
  }

  // No charged entry counts below zero.
  ghost predicate ChargesNonNegative(es: seq<Entry>) {
    forall i :: 0 <= i < |es| && Charged(es, i) ==> NonNegative(BillOf(es[i]).value.amount)
  }

  lemma ChargedInPrefix(es: seq<Entry>, n: nat, i: nat)
    requires i < n <= |es|
    ensures Charged(es[..n], i) <==> Charged(es, i)
  {
    assert forall j :: 0 <= j <= i ==> es[..n][j] == es[j];
  }

  lemma {:induction false} ChargedSumNonNegative(es: seq<Entry>, select: Bill -> bool)
    requires ChargesNonNegative(es)
    ensures NonNegative(ChargedSum(es, select))
  {
    if es != [] {
      var n := |es| - 1;
      forall i | 0 <= i < n && Charged(es[..n], i)
        ensures NonNegative(BillOf(es[..n][i]).value.amount)
      {
        ChargedInPrefix(es, n, i);
      }
      ChargedSumNonNegative(es[..n], select);
    }
  }

  // From the transcript: where no charged entry has a negative count, nothing negative is booked.
  lemma {:induction false} NothingNegativeBooked(lines: seq<Line<Entry>>, mode: Mode, m: Manifest)
    requires ParseSpec(lines, mode).Parsed? && ChargesNonNegative(Records(lines))
    ensures var r := ParseSpec(lines, mode).value;
            NonNegative(Bucket(r.usageByBranch, DETACHED_BRANCH).Minus(Claimed(r, m)))
  {
    var r := ParseSpec(lines, mode).value;
    ParseKeepsLedger(lines, mode);
    forall c | c in r.detachedByCwd
      ensures NonNegative(r.detachedByCwd[c])
    {
      LedgerMeaning(Records(lines), "", c);
      ChargedSumNonNegative(Records(lines), DetachedIn(c));
    }
    MinusNeverNegative(r, m);
  }

  // What a transcript owes, read off its entries: each response charged once, over all branches for
  // a candidate and over the detached entries otherwise.
  ghost function TranscriptOwes(lines: seq<Line<Entry>>, mode: Mode, m: Manifest): BranchUsage
    requires !mode.trackTurns
  {
    if Candidate(ParseSpec(lines, mode).value, m)
    then ChargedSum(Records(lines), Any())
    else ChargedSum(Records(lines), OnBranch(DETACHED_BRANCH))
  }

  // What a candidate's detached entries add once more when the manifest lists the detached branch.
  ghost function TranscriptTwice(lines: seq<Line<Entry>>, mode: Mode, m: Manifest): BranchUsage
    requires !mode.trackTurns
  {
    if DETACHED_BRANCH in m.branches && Candidate(ParseSpec(lines, mode).value, m)
    then ChargedSum(Records(lines), OnBranch(DETACHED_BRANCH))
    else NO_USAGE
  }

  ghost function TranscriptsOwe(ts: seq<seq<Line<Entry>>>, mode: Mode, m: Manifest): BranchUsage
    requires !mode.trackTurns
  {
    if ts == [] then NO_USAGE
    else TranscriptsOwe(ts[..|ts| - 1], mode, m).Plus(TranscriptOwes(ts[|ts| - 1], mode, m))
  }

  ghost function TranscriptsTwice(ts: seq<seq<Line<Entry>>>, mode: Mode, m: Manifest): BranchUsage
    requires !mode.trackTurns
  {
    if ts == [] then NO_USAGE
    else TranscriptsTwice(ts[..|ts| - 1], mode, m).Plus(TranscriptTwice(ts[|ts| - 1], mode, m))
  }

  lemma TranscriptParsed(lines: seq<Line<Entry>>, mode: Mode, m: Manifest)
    requires !mode.trackTurns
    ensures var r := ParseSpec(lines, mode).value;
            && KeepsLedger(r)
            && Owed(r, m) == TranscriptOwes(lines, mode, m)
            && BookedTwice(r, m) == TranscriptTwice(lines, mode, m)
  {
    ParseKeepsLedger(lines, mode);
    LedgerMeaning(Records(lines), DETACHED_BRANCH, "");
  }

  lemma {:induction false} ParsedOwes(ts: seq<seq<Line<Entry>>>, mode: Mode, m: Manifest)
    requires !mode.trackTurns
    ensures forall r :: r in ParseAll(ts, mode) ==> KeepsLedger(r)
    ensures OwedByAll(ParseAll(ts, mode), m) == TranscriptsOwe(ts, mode, m)
    ensures TwiceByAll(ParseAll(ts, mode), m) == TranscriptsTwice(ts, mode, m)
  {
    if ts != [] {
      var init, last := ts[..|ts| - 1], ts[|ts| - 1];
      ParsedOwes(init, mode, m);
      TranscriptParsed(last, mode, m);
      var parsed := ParseAll(init, mode);
      assert (parsed + [ParseSpec(last, mode).value])[..|parsed|] == parsed;
    }
  }

  // Over every list of transcripts, the run, the spillover and the blind spot together hold exactly
  // the tokens of the responses the transcripts record; when the manifest lists the detached branch,
  // the candidates' detached responses are held twice.
  lemma {:induction false} TranscriptsConserve(ts: seq<seq<Line<Entry>>>, mode: Mode, m: Manifest)
    requires !mode.trackTurns
    ensures Held(AbsorbAll(ParseAll(ts, mode), m)) ==
            CacheOf(TranscriptsOwe(ts, mode, m).Plus(TranscriptsTwice(ts, mode, m)))
    ensures DETACHED_BRANCH !in m.branches ==> TranscriptsTwice(ts, mode, m) == NO_USAGE
  {
    ParsedOwes(ts, mode, m);
    RunConserves(ParseAll(ts, mode), m);
  }
}
