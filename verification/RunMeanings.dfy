/**
 What the totals of a run mean for the transcripts they were read from: which entries' tokens each of
 them holds (src/toolbench/reducer.py, `_absorb_run`).
 */
module RunMeanings {
  import opened Options
  import opened Transcript
  import opened Sums
  import opened UsageLedger
  import opened Responses
  import opened ClaudeParser
  import opened ParseLaws
  import opened RunManifest
  import opened RunAttribution

  /******* Where an entry's work was done *******/

  predicate InTree(m: Manifest, cwd: string) {
    exists w :: w in m.worktrees && Contains(w, cwd)
  }

  predicate Detached(e: Entry) {
    e.gitBranch == Some("HEAD")
  }

  // On a branch of the run.
  function OnRun(m: Manifest): Entry -> bool {
    (e: Entry) => e.gitBranch.GetOr("") in m.branches
  }

  // On no branch, in a directory some worktree of the manifest contains.
  function DetachedInTree(m: Manifest): Entry -> bool {
    (e: Entry) => Detached(e) && InTree(m, e.cwd.GetOr(""))
  }

  // On no branch, in a directory no worktree of the manifest contains.
  function DetachedOutside(m: Manifest): Entry -> bool {
    (e: Entry) => Detached(e) && !InTree(m, e.cwd.GetOr(""))
  }

  // On a branch of its own that is none of the run's.
  function Elsewhere(m: Manifest): Entry -> bool {
    (e: Entry) => !Detached(e) && e.gitBranch.GetOr("") !in m.branches
  }

  // Some response was first seen at a selected entry.
  ghost predicate Occurs(es: seq<Entry>, where: Entry -> bool) {
    exists i: nat :: i < |es| && FirstAt(es, i) && where(es[i])
  }

  /******* Sums over selected buckets *******/

  function Pick(m: map<string, BranchUsage>, p: string -> bool): map<string, BranchUsage> {
    map k | k in m && p(k) :: m[k]
  }

  function BranchIs(p: string -> bool): Bill -> bool { (b: Bill) => p(b.branch) }
  function CwdIs(p: string -> bool): Bill -> bool { (b: Bill) => b.branch == DETACHED_BRANCH && p(b.cwd) }

  lemma PickUpdate(m: map<string, BranchUsage>, p: string -> bool, k: string, u: BranchUsage)
    ensures Column(Pick(m[k := Bucket(m, k).Plus(u)], p)) ==
            if p(k) then Column(Pick(m, p)).Plus(u) else Column(Pick(m, p))
  {
    var grown := m[k := Bucket(m, k).Plus(u)];
    if p(k) {
      assert Pick(grown, p) == Pick(m, p)[k := Bucket(Pick(m, p), k).Plus(u)];
      ColumnUpdate(Pick(m, p), k, u);
    } else {
      assert Pick(grown, p) == Pick(m, p);
    }
  }

  lemma NothingPicked(p: string -> bool)
    ensures Column(Pick(map[], p)) == NO_USAGE
  {
    assert Pick(map[], p) == map[];
  }

  lemma {:induction false} PickedSum(es: seq<Entry>, p: string -> bool)
    ensures Column(Pick(Ledger(es).byBranch, p)) == ChargedSum(es, BranchIs(p))
    ensures Column(Pick(Ledger(es).detachedByCwd, p)) == ChargedSum(es, CwdIs(p))
  {
    if es == [] {
      NothingPicked(p);
    } else {
      var n := |es| - 1;
      PickedSum(es[..n], p);
      LedgerStep(es);
      if Charged(es, n) {
        var b, t := BillOf(es[n]).value, Ledger(es[..n]);
        PickUpdate(t.byBranch, p, b.branch, b.amount);
        PickUpdate(t.detachedByCwd, p, b.cwd, b.amount);
      }
    }
  }

  function AnyIn(names: set<string>): string -> bool { (b: string) => b in names }
  function NeitherIn(names: set<string>): string -> bool { (b: string) => b !in names && b != DETACHED_BRANCH }
  function Inside(m: Manifest): string -> bool { (cwd: string) => InTree(m, cwd) }
  function Outside(m: Manifest): string -> bool { (cwd: string) => !InTree(m, cwd) }

  /******* One session *******/

  // A detached directory is claimed exactly when some worktree of the manifest contains it.
  lemma {:induction false} ClaimedMeaning(r: ParseResult, m: Manifest, cwd: string)
    ensures cwd in ClaimedCwds(r, m) <==>
            cwd in r.detachedByCwd && exists w :: w in m.worktrees && Contains(w, cwd)
  {
    DeepestWins(m.worktrees, cwd);
  }

  lemma ParsedLedger(lines: seq<Line<Entry>>, mode: Mode)
    requires ParseSpec(lines, mode).Parsed?
    ensures var r := ParseSpec(lines, mode).value;
            && r.usageByBranch == Ledger(Records(lines)).byBranch
            && r.detachedByCwd == Ledger(Records(lines)).detachedByCwd
  {
    ParseKeepsLedger(lines, mode);
    LedgerPartitions(Records(lines));
    var t := Ledger(Records(lines));
    if t.total.messages == 0 {
      NoBucketsWithoutMessages(t.byBranch);
      assert Bucket(t.byBranch, DETACHED_BRANCH) == NO_USAGE;
      NoBucketsWithoutMessages(t.detachedByCwd);
    }
  }

  lemma OnlyIsPick(b: map<string, BranchUsage>, keys: set<string>, p: string -> bool)
    requires forall k :: k in b ==> (k in keys <==> p(k))
    ensures Only(b, keys) == Pick(b, p)
  {}

  lemma BranchPicks(r: ParseResult, m: Manifest)
    ensures InRun(r, m) == Column(Pick(r.usageByBranch, AnyIn(m.branches)))
    ensures Spill(r, m) == Column(Pick(r.usageByBranch, NeitherIn(m.branches)))
  {
    OnlyIsPick(r.usageByBranch, RunBranches(r, m), AnyIn(m.branches));
    OnlyIsPick(r.usageByBranch, SpillBranches(r, m), NeitherIn(m.branches));
  }

  lemma CwdPicks(r: ParseResult, m: Manifest)
    ensures Claimed(r, m) == Column(Pick(r.detachedByCwd, Inside(m)))
    ensures Unclaimed(r, m) == Column(Pick(r.detachedByCwd, Outside(m)))
  {
    forall cwd | cwd in r.detachedByCwd
      ensures cwd in ClaimedCwds(r, m) <==> InTree(m, cwd)
    {
      ClaimedMeaning(r, m, cwd);
    }
    OnlyIsPick(r.detachedByCwd, ClaimedCwds(r, m), Inside(m));
    OnlyIsPick(r.detachedByCwd, r.detachedByCwd.Keys - ClaimedCwds(r, m), Outside(m));
  }

  lemma SelectionsAgree(m: Manifest)
    ensures SelectsSame(BranchIs(AnyIn(m.branches)), OnRun(m))
    ensures SelectsSame(BranchIs(NeitherIn(m.branches)), Elsewhere(m))
    ensures SelectsSame(CwdIs(Inside(m)), DetachedInTree(m))
    ensures SelectsSame(CwdIs(Outside(m)), DetachedOutside(m))
  {
    forall e: Entry | BillOf(e).Some?
      ensures BillOf(e).value.branch == e.gitBranch.GetOr("") && BillOf(e).value.cwd == e.cwd.GetOr("")
      ensures Detached(e) <==> BillOf(e).value.branch == DETACHED_BRANCH
    {
      BillMeaning(e);
    }
  }

  // The session's usage by where it was spent.
  lemma SessionSpent(lines: seq<Line<Entry>>, mode: Mode, m: Manifest)
    requires ParseSpec(lines, mode).Parsed?
    ensures var r, es := ParseSpec(lines, mode).value, Records(lines);
            && InRun(r, m) == Spent(es, OnRun(m)) && Spill(r, m) == Spent(es, Elsewhere(m))
            && Claimed(r, m) == Spent(es, DetachedInTree(m)) && Unclaimed(r, m) == Spent(es, DetachedOutside(m))
  {
    var r, es := ParseSpec(lines, mode).value, Records(lines);
    ParsedLedger(lines, mode);
    BranchPicks(r, m);
    CwdPicks(r, m);
    SelectionsAgree(m);
    PickedSum(es, AnyIn(m.branches));
    PickedSum(es, NeitherIn(m.branches));
    PickedSum(es, Inside(m));
    PickedSum(es, Outside(m));
    SpentIsCharged(es, BranchIs(AnyIn(m.branches)), OnRun(m));
    SpentIsCharged(es, BranchIs(NeitherIn(m.branches)), Elsewhere(m));
    SpentIsCharged(es, CwdIs(Inside(m)), DetachedInTree(m));
    SpentIsCharged(es, CwdIs(Outside(m)), DetachedOutside(m));
  }

  function OnBranchNamed(name: string): Entry -> bool { (e: Entry) => e.gitBranch.GetOr("") == name }
  function DetachedAt(cwd: string): Entry -> bool { (e: Entry) => Detached(e) && e.cwd.GetOr("") == cwd }

  lemma BucketsOccur(lines: seq<Line<Entry>>, mode: Mode, k: string)
    requires ParseSpec(lines, mode).Parsed?
    ensures k in ParseSpec(lines, mode).value.usageByBranch <==> Occurs(Records(lines), OnBranchNamed(k))
    ensures k in ParseSpec(lines, mode).value.detachedByCwd <==> Occurs(Records(lines), DetachedAt(k))
  {
    var es := Records(lines);
    ParsedLedger(lines, mode);
    BucketMeaning(es, k);
    if i: nat :| i < |es| && FirstAt(es, i) && es[i].gitBranch.GetOr("") == k {
      assert OnBranchNamed(k)(es[i]);
    }
    if i: nat :| i < |es| && FirstAt(es, i) && es[i].gitBranch == Some("HEAD") && es[i].cwd.GetOr("") == k {
      assert DetachedAt(k)(es[i]);
    }
  }

  lemma OccursAlso(es: seq<Entry>, p: Entry -> bool, q: Entry -> bool)
    requires Occurs(es, p) && forall e: Entry :: p(e) ==> q(e)
    ensures Occurs(es, q)
  {}

  lemma BranchesOccur(lines: seq<Line<Entry>>, mode: Mode, m: Manifest)
    requires ParseSpec(lines, mode).Parsed?
    ensures RunBranches(ParseSpec(lines, mode).value, m) != {} <==> Occurs(Records(lines), OnRun(m))
  {
    var r, es := ParseSpec(lines, mode).value, Records(lines);
    if Occurs(es, OnRun(m)) {
      var i: nat :| i < |es| && FirstAt(es, i) && OnRun(m)(es[i]);
      var b := es[i].gitBranch.GetOr("");
      assert OnBranchNamed(b)(es[i]);
      BucketsOccur(lines, mode, b);
      assert b in RunBranches(r, m);
    }
    if RunBranches(r, m) != {} {
      var b :| b in RunBranches(r, m);
      BucketsOccur(lines, mode, b);
      OccursAlso(es, OnBranchNamed(b), OnRun(m));
    }
  }

  lemma ClaimsOccur(lines: seq<Line<Entry>>, mode: Mode, m: Manifest)
    requires ParseSpec(lines, mode).Parsed?
    ensures ClaimedCwds(ParseSpec(lines, mode).value, m) != {} <==> Occurs(Records(lines), DetachedInTree(m))
  {
    var r, es := ParseSpec(lines, mode).value, Records(lines);
    if Occurs(es, DetachedInTree(m)) {
      var i: nat :| i < |es| && FirstAt(es, i) && DetachedInTree(m)(es[i]);
      var c := es[i].cwd.GetOr("");
      assert DetachedAt(c)(es[i]);
      BucketsOccur(lines, mode, c);
      ClaimedMeaning(r, m, c);
      assert c in ClaimedCwds(r, m);
    }
    if ClaimedCwds(r, m) != {} {
      var c :| c in ClaimedCwds(r, m);
      BucketsOccur(lines, mode, c);
      ClaimedMeaning(r, m, c);
      assert InTree(m, c);
      OccursAlso(es, DetachedAt(c), DetachedInTree(m));
    }
  }

  function Anywhere(): Entry -> bool { (e: Entry) => true }

  ghost predicate Measured(es: seq<Entry>) {
    exists e :: e in es && BearsUsage(e)
  }

  lemma {:induction false} MessagesMeaning(es: seq<Entry>)
    ensures Spent(es, Anywhere()).messages >= 0
    ensures Spent(es, Anywhere()).messages == 0 <==> !Measured(es)
  {
    if es != [] {
      var init, last := es[..|es| - 1], es[|es| - 1];
      MessagesMeaning(init);
      assert es == init + [last];
      assert FirstCopy(init, last) ==> BearsUsage(last);
      assert !Measured(init) && BearsUsage(last) ==> FirstCopy(init, last);
    }
  }

  // What a parse says was spent: the first copies of all responses, those of each branch, and those of each
  // directory among the detached ones. The cache is measured when some entry bears usage.
  lemma {:induction false} ParseSpends(lines: seq<Line<Entry>>, mode: Mode, branch: string, cwd: string)
    requires ParseSpec(lines, mode).Parsed?
    ensures var r, es := ParseSpec(lines, mode).value, Records(lines);
            && r.inputTokens == Spent(es, Anywhere()).input && r.outputTokens == Spent(es, Anywhere()).output
            && r.usageMessages == Spent(es, Anywhere()).messages
            && r.cacheRead == (if Measured(es) then Some(Spent(es, Anywhere()).read) else None)
            && r.cacheCreation == (if Measured(es) then Some(Spent(es, Anywhere()).creation) else None)
            && Bucket(r.usageByBranch, branch) == Spent(es, OnBranchNamed(branch))
            && Bucket(r.detachedByCwd, cwd) == Spent(es, DetachedAt(cwd))
  {
    var es := Records(lines);
    ParsedLedger(lines, mode);
    LedgerMeaning(es, branch, cwd);
    ParseKeepsLedger(lines, mode);
    forall e: Entry | BillOf(e).Some?
      ensures BillOf(e).value.branch == e.gitBranch.GetOr("") && BillOf(e).value.cwd == e.cwd.GetOr("")
      ensures Detached(e) <==> BillOf(e).value.branch == DETACHED_BRANCH
    {
      BillMeaning(e);
    }
    SpentIsCharged(es, Any(), Anywhere());
    SpentIsCharged(es, OnBranch(branch), OnBranchNamed(branch));
    SpentIsCharged(es, DetachedIn(cwd), DetachedAt(cwd));
    MessagesMeaning(es);
  }

  /******* Whole runs *******/

  // A transcript takes part in the run: some response of it was first seen on a branch of the run, or
  // on no branch in a worktree of the manifest.
  ghost predicate TakesPart(es: seq<Entry>, m: Manifest) {
    Occurs(es, OnRun(m)) || Occurs(es, DetachedInTree(m))
  }

  // Some token was spent on no branch outside every worktree.
  ghost predicate SpendsOutside(es: seq<Entry>, m: Manifest) {
    var u := Spent(es, DetachedOutside(m));
    u.read != 0 || u.creation != 0 || u.input != 0 || u.output != 0
  }

  // The sum of a transcript's usage over the list.
  ghost function SpentInAll(ts: seq<seq<Line<Entry>>>, where: Entry -> bool): BranchUsage {
    if ts == [] then NO_USAGE
    else SpentInAll(ts[..|ts| - 1], where).Plus(Spent(Records(ts[|ts| - 1]), where))
  }

  // Only the transcripts that take part.
  ghost function SpilledByAll(ts: seq<seq<Line<Entry>>>, m: Manifest): BranchUsage {
    if ts == [] then NO_USAGE
    else
      var init, es := ts[..|ts| - 1], Records(ts[|ts| - 1]);
      if TakesPart(es, m) then SpilledByAll(init, m).Plus(Spent(es, Elsewhere(m))) else SpilledByAll(init, m)
  }

  ghost function CountWhere(ts: seq<seq<Line<Entry>>>, p: seq<Entry> -> bool): nat {
    if ts == [] then 0
    else CountWhere(ts[..|ts| - 1], p) + if p(Records(ts[|ts| - 1])) then 1 else 0
  }

  ghost function PartsSpent(ts: seq<seq<Line<Entry>>>, m: Manifest): Parts {
    Parts(SpentInAll(ts, OnRun(m)).Plus(SpentInAll(ts, DetachedInTree(m))), SpentInAll(ts, DetachedInTree(m)),
          SpentInAll(ts, DetachedOutside(m)), SpilledByAll(ts, m))
  }

  lemma TranscriptParts(lines: seq<Line<Entry>>, mode: Mode, m: Manifest)
    requires !mode.trackTurns
    ensures var r, es := ParseSpec(lines, mode).value, Records(lines);
            && KeepsLedger(r)
            && (Candidate(r, m) <==> TakesPart(es, m))
            && PartsOf(r, m) == Parts(Spent(es, OnRun(m)).Plus(Spent(es, DetachedInTree(m))),
                                      Spent(es, DetachedInTree(m)), Spent(es, DetachedOutside(m)),
                                      if TakesPart(es, m) then Spent(es, Elsewhere(m)) else NO_USAGE)
  {
    ParseKeepsLedger(lines, mode);
    SessionSpent(lines, mode, m);
    BranchesOccur(lines, mode, m);
    ClaimsOccur(lines, mode, m);
    ClaimedMessages(ParseSpec(lines, mode).value, m);
  }

  lemma PartsPlus(a: BranchUsage, b: BranchUsage, c: BranchUsage, d: BranchUsage)
    ensures a.Plus(b).Plus(c.Plus(d)) == a.Plus(c).Plus(b.Plus(d))
    ensures a.Plus(NO_USAGE) == a
  {}

  lemma {:induction false} AllParts(ts: seq<seq<Line<Entry>>>, mode: Mode, m: Manifest)
    requires !mode.trackTurns
    ensures forall r :: r in ParseAll(ts, mode) ==> KeepsLedger(r)
    ensures PartsOfAll(ParseAll(ts, mode), m) == PartsSpent(ts, m)
  {
    if ts == [] {
      PartsPlus(NO_USAGE, NO_USAGE, NO_USAGE, NO_USAGE);
    } else {
      var init, last := ts[..|ts| - 1], ts[|ts| - 1];
      AllParts(init, mode, m);
      TranscriptParts(last, mode, m);
      var parsed := ParseAll(init, mode);
      assert (parsed + [ParseSpec(last, mode).value])[..|parsed|] == parsed;
      PartsPlus(SpentInAll(init, OnRun(m)), SpentInAll(init, DetachedInTree(m)),
                Spent(Records(last), OnRun(m)), Spent(Records(last), DetachedInTree(m)));
      PartsPlus(SpilledByAll(init, m), NO_USAGE, NO_USAGE, NO_USAGE);
    }
  }

  // From transcripts to totals: the run holds what was spent on its branches and in its worktrees, the
  // blind spot what was spent on no branch outside of them, the spillover what the transcripts that take
  // part spent elsewhere. Every response counts once, where it was first seen.
  lemma {:induction false} RunHolds(ts: seq<seq<Line<Entry>>>, mode: Mode, m: Manifest)
    requires !mode.trackTurns
    ensures var t := AbsorbAll(ParseAll(ts, mode), m);
            var onRun, inTree := SpentInAll(ts, OnRun(m)), SpentInAll(ts, DetachedInTree(m));
            var outside, spilled := SpentInAll(ts, DetachedOutside(m)), SpilledByAll(ts, m);
            && t.read == onRun.read + inTree.read && t.creation == onRun.creation + inTree.creation
            && t.input == onRun.input + inTree.input && t.output == onRun.output + inTree.output
            && t.worktreeRead == inTree.read && t.worktreeCreation == inTree.creation
            && t.detachedRead == outside.read && t.detachedCreation == outside.creation
            && t.detachedInput == outside.input && t.detachedOutput == outside.output
            && t.unattributedRead == spilled.read && t.unattributedCreation == spilled.creation
  {
    AllParts(ts, mode, m);
    TotalsMeaning(ParseAll(ts, mode), m);
  }

  // Of how many transcripts something holds.
  ghost function TakesPartIn(m: Manifest): seq<Entry> -> bool { (es: seq<Entry>) => TakesPart(es, m) }
  ghost function ClaimedIn(m: Manifest): seq<Entry> -> bool { (es: seq<Entry>) => Occurs(es, DetachedInTree(m)) }
  ghost function OutsideOf(m: Manifest): seq<Entry> -> bool { (es: seq<Entry>) => SpendsOutside(es, m) }

  lemma TranscriptCounts(lines: seq<Line<Entry>>, mode: Mode, m: Manifest)
    requires !mode.trackTurns
    ensures var r, es := ParseSpec(lines, mode).value, Records(lines);
            && KeepsLedger(r)
            && (Candidate(r, m) <==> TakesPart(es, m))
            && (ClaimedCwds(r, m) != {} <==> Occurs(es, DetachedInTree(m)))
            && (SpentAnything(Unclaimed(r, m)) <==> SpendsOutside(es, m))
  {
    TranscriptParts(lines, mode, m);
    ClaimsOccur(lines, mode, m);
    SessionSpent(lines, mode, m);
  }

  ghost predicate SameFlags(r: ParseResult, es: seq<Entry>, m: Manifest) {
    && (Candidate(r, m) <==> TakesPart(es, m))
    && (ClaimedCwds(r, m) != {} <==> Occurs(es, DetachedInTree(m)))
    && (SpentAnything(Unclaimed(r, m)) <==> SpendsOutside(es, m))
  }

  lemma {:induction false} CountsAgree(rs: seq<ParseResult>, ts: seq<seq<Line<Entry>>>, m: Manifest)
    requires |rs| == |ts| && forall i :: 0 <= i < |ts| ==> SameFlags(rs[i], Records(ts[i]), m)
    ensures var c := CountsOf(rs, m);
            && c.candidates == CountWhere(ts, TakesPartIn(m))
            && c.detached == CountWhere(ts, OutsideOf(m))
            && c.claimed == CountWhere(ts, ClaimedIn(m))
  {
    if ts != [] {
      CountsAgree(rs[..|ts| - 1], ts[..|ts| - 1], m);
      assert SameFlags(rs[|ts| - 1], Records(ts[|ts| - 1]), m);
    }
  }

  lemma ParsedAt(ts: seq<seq<Line<Entry>>>, mode: Mode, i: nat)
    requires !mode.trackTurns && i < |ts|
    ensures |ParseAll(ts, mode)| == |ts| && ParseAll(ts, mode)[i] == ParseSpec(ts[i], mode).value
  {
    if i < |ts| - 1 {
      ParsedAt(ts[..|ts| - 1], mode, i);
    } else if i > 0 {
      ParsedAt(ts[..|ts| - 1], mode, i - 1);
    }
  }

  lemma AllCounts(ts: seq<seq<Line<Entry>>>, mode: Mode, m: Manifest)
    requires !mode.trackTurns
    ensures var c := CountsOf(ParseAll(ts, mode), m);
            && c.candidates == CountWhere(ts, TakesPartIn(m))
            && c.detached == CountWhere(ts, OutsideOf(m))
            && c.claimed == CountWhere(ts, ClaimedIn(m))
  {
    var rs := ParseAll(ts, mode);
    forall i | 0 <= i < |ts|
      ensures |rs| == |ts| && SameFlags(rs[i], Records(ts[i]), m)
    {
      ParsedAt(ts, mode, i);
      TranscriptCounts(ts[i], mode, m);
    }
    if ts == [] {
      assert rs == [];
    } else {
      ParsedAt(ts, mode, 0);
    }
    CountsAgree(rs, ts, m);
  }

  // The session counts of a run: the transcripts that take part, those with a response first seen in a
  // worktree on no branch, and those that spent tokens on no branch outside of every worktree.
  lemma {:induction false} RunCounts(ts: seq<seq<Line<Entry>>>, mode: Mode, m: Manifest)
    requires !mode.trackTurns
    ensures var t := AbsorbAll(ParseAll(ts, mode), m);
            && t.candidateSessions == CountWhere(ts, TakesPartIn(m))
            && t.worktreeSessions == CountWhere(ts, ClaimedIn(m))
            && t.detachedSessions == CountWhere(ts, OutsideOf(m))
  {
    AllParts(ts, mode, m);
    AllCounts(ts, mode, m);
    SessionsMeaning(ParseAll(ts, mode), m);
  }

  // On no branch, in a directory whose first deepest worktree has this name.
  function DetachedUnder(m: Manifest, name: string): Entry -> bool {
    (e: Entry) => Detached(e) && exists i :: 0 <= i < |m.worktrees| && Chosen(m, e.cwd.GetOr(""), i, name)
  }

  predicate Chosen(m: Manifest, cwd: string, i: nat, name: string) {
    ChosenAt(m.worktrees, cwd, i) && m.worktrees[i] == name
  }

  lemma UnderMeaning(m: Manifest, cwd: string, name: string)
    ensures WorktreeFor(m.worktrees, cwd) == Some(name) <==>
            exists i :: 0 <= i < |m.worktrees| && Chosen(m, cwd, i, name)
  {
    FirstDeepestWins(m.worktrees, cwd);
    if WorktreeFor(m.worktrees, cwd) == Some(name) {
      var i: nat :| ChosenAt(m.worktrees, cwd, i) && m.worktrees[i] == name;
      assert Chosen(m, cwd, i, name);
    }
    if i :| 0 <= i < |m.worktrees| && Chosen(m, cwd, i, name) {
      ChosenIsAnswer(m.worktrees, cwd, i);
    }
  }

  lemma TreesOccur(lines: seq<Line<Entry>>, mode: Mode, m: Manifest, name: string)
    requires ParseSpec(lines, mode).Parsed?
    ensures name in WorktreesClaiming(ParseSpec(lines, mode).value, m) <==>
            Occurs(Records(lines), DetachedUnder(m, name))
  {
    var r, es := ParseSpec(lines, mode).value, Records(lines);
    if Occurs(es, DetachedUnder(m, name)) {
      var i: nat :| i < |es| && FirstAt(es, i) && DetachedUnder(m, name)(es[i]);
      var c := es[i].cwd.GetOr("");
      assert DetachedAt(c)(es[i]);
      BucketsOccur(lines, mode, c);
      UnderMeaning(m, c, name);
      assert c in ClaimedCwds(r, m);
    }
    if name in WorktreesClaiming(r, m) {
      var c :| c in ClaimedCwds(r, m) && WorktreeFor(m.worktrees, c) == Some(name);
      BucketsOccur(lines, mode, c);
      UnderMeaning(m, c, name);
      OccursAlso(es, DetachedAt(c), DetachedUnder(m, name));
    }
  }

  ghost predicate OccursInAny(ts: seq<seq<Line<Entry>>>, where: Entry -> bool) {
    exists lines :: lines in ts && Occurs(Records(lines), where)
  }

  lemma {:induction false} ParsedMembers(ts: seq<seq<Line<Entry>>>, mode: Mode, r: ParseResult)
    requires !mode.trackTurns
    ensures r in ParseAll(ts, mode) <==> exists lines :: lines in ts && ParseSpec(lines, mode).value == r
  {
    if ts != [] {
      var init, last := ts[..|ts| - 1], ts[|ts| - 1];
      assert ts == init + [last];
      ParsedMembers(init, mode, r);
    }
  }

  // What the manifest lists is reported missing exactly when it does not occur: a branch when no response
  // was first seen on it, a worktree when none was first seen on no branch in a directory it is the
  // deepest worktree of.
  lemma {:induction false} RunSees(ts: seq<seq<Line<Entry>>>, mode: Mode, m: Manifest, name: string)
    requires !mode.trackTurns
    ensures var t := AbsorbAll(ParseAll(ts, mode), m);
            && (name in t.branchesSeen <==> name in m.branches && OccursInAny(ts, OnBranchNamed(name)))
            && (name in t.worktreesSeen <==> OccursInAny(ts, DetachedUnder(m, name)))
  {
    var rs := ParseAll(ts, mode);
    AllParts(ts, mode, m);
    SeenMeaning(rs, m, name);
    forall lines | lines in ts
      ensures ParseSpec(lines, mode).value in rs
      ensures name in ParseSpec(lines, mode).value.usageByBranch <==> Occurs(Records(lines), OnBranchNamed(name))
      ensures name in WorktreesClaiming(ParseSpec(lines, mode).value, m) <==>
              Occurs(Records(lines), DetachedUnder(m, name))
    {
      ParsedMembers(ts, mode, ParseSpec(lines, mode).value);
      BucketsOccur(lines, mode, name);
      TreesOccur(lines, mode, m, name);
    }
    forall r | r in rs
      ensures exists lines :: lines in ts && ParseSpec(lines, mode).value == r
    {
      ParsedMembers(ts, mode, r);
    }
  }
}
