/** The worktree reporter (src/toolbench/worktrees.py): the porcelain parser and the reclaim verdict. */
module Worktrees {
  import opened Options
  import opened Text

  datatype Stanza = Stanza(
    path: string,
    head: string,
    branch: Option<string>,
    bare: bool,
    locked: bool,
    lockReason: string,
    prunable: bool,
    prunableReason: string)

  const HEADS := "refs/heads/"
  const TRUNK := "refs/heads/main"
  const REMOTES := "refs/remotes/"

  /******* Parsing `git worktree list --porcelain` *******/

  function ShortBranch(ref: string): string {
    if HEADS <= ref then ref[|HEADS|..] else ref
  }

  function Field(fields: map<string, string>, key: string): string {
    if key in fields then fields[key] else ""
  }

  function StanzaOf(fields: map<string, string>): Stanza {
    Stanza(
      Field(fields, "worktree"),
      Field(fields, "HEAD"),
      if Field(fields, "branch") != "" then Some(ShortBranch(fields["branch"])) else None,
      "bare" in fields,
      "locked" in fields,
      Field(fields, "locked"),
      "prunable" in fields,
      Field(fields, "prunable"))
  }

  datatype Reading = Reading(fields: map<string, string>, stanzas: seq<Stanza>)

  function Flush(r: Reading): seq<Stanza> {
    if "worktree" in r.fields then r.stanzas + [StanzaOf(r.fields)] else r.stanzas
  }

  // `line.partition(" ")`, the value stripped.
  function AddLine(fields: map<string, string>, line: string): map<string, string> {
    fields[Before(' ', line) := if ' ' in line then Strip(After(' ', line)) else ""]
  }

  predicate IsBlank(line: string) {
    Strip(line) == ""
  }

  function ReadLine(r: Reading, line: string): Reading {
    if IsBlank(line) then Reading(map[], Flush(r)) else Reading(AddLine(r.fields, line), r.stanzas)
  }

  function ReadLines(r: Reading, lines: seq<string>): Reading {
    if lines == [] then r else ReadLine(ReadLines(r, lines[..|lines| - 1]), lines[|lines| - 1])
  }

  function Stanzas(lines: seq<string>): seq<Stanza> {
    Flush(ReadLines(Reading(map[], []), lines))
  }

  method ParseWorktreeList(lines: seq<string>) returns (stanzas: seq<Stanza>)
    ensures stanzas == Stanzas(lines)
  {
    stanzas := [];
    var fields: map<string, string> := map[];
    for i := 0 to |lines|
      invariant Reading(fields, stanzas) == ReadLines(Reading(map[], []), lines[..i])
    {
      assert lines[..i + 1][..i] == lines[..i];
      if IsBlank(lines[i]) {
        stanzas := Flush(Reading(fields, stanzas));
        fields := map[];
        continue;
      }
      fields := AddLine(fields, lines[i]);
    }
    assert lines[..|lines|] == lines;
    stanzas := Flush(Reading(fields, stanzas));
  }

  /******* What git prints *******/

  function Labelled(key: string, reason: string): string {
    if reason == "" then key else key + " " + reason
  }

  function CheckoutLines(s: Stanza): seq<string> {
    if s.bare then ["bare"]
    else ["HEAD " + s.head] + if s.branch.Some? then ["branch " + ("refs/heads/" + s.branch.value)] else ["detached"]
  }

  function StateLines(s: Stanza): seq<string> {
    (if s.locked then [Labelled("locked", s.lockReason)] else [])
    + (if s.prunable then [Labelled("prunable", s.prunableReason)] else [])
  }

  function Printed(s: Stanza): seq<string> {
    ["worktree " + s.path] + CheckoutLines(s) + StateLines(s)
  }

  // What a record can hold: trimmed texts, a path, a head and branch only when there is a checkout,
  // and a reason only with its label.
  predicate Printable(s: Stanza) {
    && s.path != "" && Trimmed(s.path) && Trimmed(s.head) && Trimmed(s.lockReason) && Trimmed(s.prunableReason)
    && (s.bare ==> s.head == "" && s.branch.None?)
    && (s.branch.Some? ==> s.branch.value != "" && Trimmed(s.branch.value))
    && (!s.locked ==> s.lockReason == "")
    && (!s.prunable ==> s.prunableReason == "")
  }

  /******* Reading back what git printed *******/

  lemma ReadLast(r: Reading, lines: seq<string>, line: string)
    ensures ReadLines(r, lines + [line]) == ReadLine(ReadLines(r, lines), line)
  {
    assert (lines + [line])[..|lines|] == lines;
  }

  lemma AppendLast<T>(a: seq<T>, b: seq<T>)
    requires b != []
    ensures b == b[..|b| - 1] + [b[|b| - 1]] && a + b == (a + b[..|b| - 1]) + [b[|b| - 1]]
  {}

  lemma {:induction false} ReadInPieces(r: Reading, a: seq<string>, b: seq<string>)
    ensures ReadLines(r, a + b) == ReadLines(ReadLines(r, a), b)
  {
    if b == [] {
      assert a + b == a;
    } else {
      var init, last := b[..|b| - 1], b[|b| - 1];
      ReadInPieces(r, a, init);
      ReadLast(r, a + init, last);
      ReadLast(ReadLines(r, a), init, last);
      AppendLast(a, b);
    }
  }

  // The labels of a record hold no blank and are not empty.
  predicate Label(key: string) {
    key != "" && !IsSpace(key[0]) && ' ' !in key
  }

  lemma ReadValue(r: Reading, key: string, value: string)
    requires Label(key) && Trimmed(value)
    ensures ReadLine(r, key + " " + value) == Reading(r.fields[key := value], r.stanzas)
  {
    var line := key + " " + value;
    assert line == key + [' '] + value;
    SplitAt(' ', key, value);
    TrimmedStays(value);
    NotBlank(line);
  }

  lemma ReadFlag(r: Reading, key: string)
    requires Label(key)
    ensures ReadLine(r, key) == Reading(r.fields[key := ""], r.stanzas)
  {
    BeforeAbsent(' ', key);
    NotBlank(key);
  }

  lemma NotBlank(line: string)
    requires line != "" && !IsSpace(line[0])
    ensures !IsBlank(line)
  {
    RightStripTrims(line);
    KeepsFirst(line);
  }

  lemma {:induction false} KeepsFirst(s: string)
    requires s != "" && !IsSpace(s[0])
    ensures RightStrip(s) != ""
  {
    if IsSpace(s[|s| - 1]) {
      KeepsFirst(s[..|s| - 1]);
    }
  }

  lemma ReadLabelled(r: Reading, key: string, reason: string)
    requires Label(key) && Trimmed(reason)
    ensures ReadLine(r, Labelled(key, reason)) == Reading(r.fields[key := reason], r.stanzas)
  {
    if reason == "" {
      ReadFlag(r, key);
    } else {
      ReadValue(r, key, reason);
    }
  }

  lemma ReadOne(r: Reading, line: string)
    ensures ReadLines(r, [line]) == ReadLine(r, line)
  {
    assert [line][..0] == [];
  }

  function CheckoutFields(fields: map<string, string>, s: Stanza): map<string, string> {
    if s.bare then fields["bare" := ""]
    else if s.branch.Some? then fields["HEAD" := s.head]["branch" := HEADS + s.branch.value]
    else fields["HEAD" := s.head]["detached" := ""]
  }

  lemma ReadTwo(r: Reading, a: string, b: string)
    ensures ReadLines(r, [a] + [b]) == ReadLine(ReadLine(r, a), b)
  {
    ReadLast(r, [a], b);
    ReadOne(r, a);
  }

  lemma ReadHead(r: Reading, head: string)
    requires Trimmed(head)
    ensures ReadLine(r, "HEAD " + head) == Reading(r.fields["HEAD" := head], r.stanzas)
  {
    assert "HEAD " + head == "HEAD" + " " + head;
    ReadValue(r, "HEAD", head);
  }

  lemma ReadBranch(r: Reading, branch: string)
    requires branch != "" && Trimmed(branch)
    ensures ReadLine(r, "branch " + (HEADS + branch)) == Reading(r.fields["branch" := HEADS + branch], r.stanzas)
  {
    var ref := HEADS + branch;
    assert ref[|ref| - 1] == branch[|branch| - 1];
    assert "branch " + ref == "branch" + " " + ref;
    ReadValue(r, "branch", ref);
  }

  lemma ReadCheckout(r: Reading, s: Stanza)
    requires Printable(s)
    ensures ReadLines(r, CheckoutLines(s)) == Reading(CheckoutFields(r.fields, s), r.stanzas)
  {
    if s.bare {
      ReadOne(r, "bare");
      ReadFlag(r, "bare");
    } else {
      ReadAttached(r, s);
    }
  }

  lemma ReadAttached(r: Reading, s: Stanza)
    requires Printable(s) && !s.bare
    ensures ReadLines(r, CheckoutLines(s)) == Reading(CheckoutFields(r.fields, s), r.stanzas)
  {
    match s.branch {
      case Some(b) => ReadOnBranch(r, s.head, b);
      case None => ReadDetached(r, s.head);
    }
  }

  lemma ReadOnBranch(r: Reading, head: string, branch: string)
    requires Trimmed(head) && branch != "" && Trimmed(branch)
    ensures ReadLines(r, ["HEAD " + head] + ["branch " + (HEADS + branch)]) ==
            Reading(r.fields["HEAD" := head]["branch" := HEADS + branch], r.stanzas)
  {
    ReadHead(r, head);
    ReadTwo(r, "HEAD " + head, "branch " + (HEADS + branch));
    ReadBranch(Reading(r.fields["HEAD" := head], r.stanzas), branch);
  }

  lemma ReadDetached(r: Reading, head: string)
    requires Trimmed(head)
    ensures ReadLines(r, ["HEAD " + head] + ["detached"]) ==
            Reading(r.fields["HEAD" := head]["detached" := ""], r.stanzas)
  {
    ReadHead(r, head);
    ReadTwo(r, "HEAD " + head, "detached");
    ReadFlag(Reading(r.fields["HEAD" := head], r.stanzas), "detached");
  }

  function StateFields(fields: map<string, string>, s: Stanza): map<string, string> {
    var locked := if s.locked then fields["locked" := s.lockReason] else fields;
    if s.prunable then locked["prunable" := s.prunableReason] else locked
  }

  lemma ReadState(r: Reading, s: Stanza)
    requires Printable(s)
    ensures ReadLines(r, StateLines(s)) == Reading(StateFields(r.fields, s), r.stanzas)
  {
    var first := if s.locked then [Labelled("locked", s.lockReason)] else [];
    var second := if s.prunable then [Labelled("prunable", s.prunableReason)] else [];
    var between := Reading(if s.locked then r.fields["locked" := s.lockReason] else r.fields, r.stanzas);
    if s.locked {
      ReadOne(r, first[0]);
      ReadLabelled(r, "locked", s.lockReason);
    }
    assert ReadLines(r, first) == between;
    if s.prunable {
      ReadOne(between, second[0]);
      ReadLabelled(between, "prunable", s.prunableReason);
    }
    ReadInPieces(r, first, second);
  }

  function RecordFields(s: Stanza): map<string, string> {
    StateFields(CheckoutFields(map["worktree" := s.path], s), s)
  }

  lemma ReadRecord(stanzas: seq<Stanza>, s: Stanza)
    requires Printable(s)
    ensures ReadLines(Reading(map[], stanzas), Printed(s)) == Reading(RecordFields(s), stanzas)
  {
    var start := Reading(map[], stanzas);
    var line := "worktree " + s.path;
    var withPath := Reading(map["worktree" := s.path], stanzas);
    assert line == "worktree" + " " + s.path;
    ReadOne(start, line);
    ReadValue(start, "worktree", s.path);
    ReadCheckout(withPath, s);
    ReadInPieces(start, [line], CheckoutLines(s));
    ReadState(Reading(CheckoutFields(withPath.fields, s), stanzas), s);
    ReadInPieces(start, [line] + CheckoutLines(s), StateLines(s));
  }

  lemma RecordIsStanza(s: Stanza)
    requires Printable(s)
    ensures "worktree" in RecordFields(s) && StanzaOf(RecordFields(s)) == s
  {
    if s.branch.Some? {
      assert (HEADS + s.branch.value)[|HEADS|..] == s.branch.value;
    }
  }

  predicate AllBlank(lines: seq<string>) {
    forall l :: l in lines ==> IsBlank(l)
  }

  // A record and the blank lines after it.
  function Record(s: Stanza, gap: seq<string>): seq<string> {
    Printed(s) + gap
  }

  // Records one after the other, each followed by its blank lines.
  function Layout(ss: seq<Stanza>, gaps: seq<seq<string>>): seq<string>
    requires |gaps| == |ss|
  {
    if ss == [] then []
    else
      var n := |ss| - 1;
      Layout(ss[..n], gaps[..n]) + Record(ss[n], gaps[n])
  }

  lemma {:induction false} ReadGap(r: Reading, gap: seq<string>)
    requires AllBlank(gap)
    ensures ReadLines(r, gap) == if gap == [] then r else Reading(map[], Flush(r))
  {
    if gap != [] {
      var init, last := gap[..|gap| - 1], gap[|gap| - 1];
      assert IsBlank(last) && forall l :: l in init ==> l in gap;
      ReadGap(r, init);
    }
  }

  lemma {:induction false} ReadLayout(ss: seq<Stanza>, gaps: seq<seq<string>>)
    requires |gaps| == |ss|
    requires forall s :: s in ss ==> Printable(s)
    requires forall g :: g in gaps ==> AllBlank(g) && g != []
    ensures ReadLines(Reading(map[], []), Layout(ss, gaps)) == Reading(map[], ss)
  {
    if ss != [] {
      var n := |ss| - 1;
      assert ss == ss[..n] + [ss[n]] && gaps == gaps[..n] + [gaps[n]];
      ReadLayout(ss[..n], gaps[..n]);
      ReadLastRecord(ss, gaps);
    }
  }

  lemma ReadRecordAndGap(stanzas: seq<Stanza>, s: Stanza, gap: seq<string>)
    requires Printable(s) && AllBlank(gap)
    ensures var r := ReadLines(Reading(map[], stanzas), Record(s, gap));
            Flush(r) == stanzas + [s] && (gap != [] ==> r == Reading(map[], stanzas + [s]))
  {
    ReadInPieces(Reading(map[], stanzas), Printed(s), gap);
    ReadRecord(stanzas, s);
    ReadGap(Reading(RecordFields(s), stanzas), gap);
    RecordIsStanza(s);
  }

  lemma InitAndLast<T>(s: seq<T>)
    requires s != []
    ensures s == s[..|s| - 1] + [s[|s| - 1]]
  {}

  lemma ReadLastRecord(ss: seq<Stanza>, gaps: seq<seq<string>>)
    requires |gaps| == |ss| > 0
    requires Printable(ss[|ss| - 1]) && AllBlank(gaps[|ss| - 1])
    requires var n := |ss| - 1; ReadLines(Reading(map[], []), Layout(ss[..n], gaps[..n])) == Reading(map[], ss[..n])
    ensures Flush(ReadLines(Reading(map[], []), Layout(ss, gaps))) == ss
    ensures gaps[|ss| - 1] != [] ==> ReadLines(Reading(map[], []), Layout(ss, gaps)) == Reading(map[], ss)
  {
    var n := |ss| - 1;
    var before := Layout(ss[..n], gaps[..n]);
    var record := Record(ss[n], gaps[n]);
    ReadInPieces(Reading(map[], []), before, record);
    assert Layout(ss, gaps) == before + record;
    ReadRecordAndGap(ss[..n], ss[n], gaps[n]);
    InitAndLast(ss);
  }

  // The parser recovers every list of records in order; the blank lines after the last are optional.
  lemma {:induction false} ParsePrinted(ss: seq<Stanza>, gaps: seq<seq<string>>)
    requires |gaps| == |ss|
    requires forall s :: s in ss ==> Printable(s)
    requires forall i :: 0 <= i < |gaps| ==> AllBlank(gaps[i]) && (i < |gaps| - 1 ==> gaps[i] != [])
    ensures Stanzas(Layout(ss, gaps)) == ss
  {
    if ss != [] {
      var n := |ss| - 1;
      assert ss == ss[..n] + [ss[n]];
      assert forall g :: g in gaps[..n] ==> exists i :: 0 <= i < n && gaps[i] == g;
      ReadLayout(ss[..n], gaps[..n]);
      ReadLastRecord(ss, gaps);
    }
  }

  /******* Parsing the recorded upstreams *******/

  // Branch, commit and upstream stand between tabs; a line without a tab says nothing.
  function AddUpstream(upstreams: map<string, string>, line: string): map<string, string> {
    if IsBlank(line) || '\t' !in line then upstreams
    else
      var rest := After('\t', line);
      upstreams[ShortBranch(Before('\t', line)) := if '\t' in rest then Before('\t', After('\t', rest)) else ""]
  }

  function Upstreams(lines: seq<string>): map<string, string> {
    if lines == [] then map[] else AddUpstream(Upstreams(lines[..|lines| - 1]), lines[|lines| - 1])
  }

  method ParseUpstreams(lines: seq<string>) returns (upstreams: map<string, string>)
    ensures upstreams == Upstreams(lines)
  {
    upstreams := map[];
    for i := 0 to |lines|
      invariant upstreams == Upstreams(lines[..i])
    {
      assert lines[..i + 1][..i] == lines[..i];
      upstreams := AddUpstream(upstreams, lines[i]);
    }
    assert lines[..|lines|] == lines;
  }

  datatype BranchRef = BranchRef(branch: string, commit: string, upstream: string)

  predicate TabFree(r: BranchRef) {
    '\t' !in r.branch && '\t' !in r.commit && '\t' !in r.upstream
  }

  function RefLine(r: BranchRef): string {
    "refs/heads/" + r.branch + "\t" + r.commit + "\t" + r.upstream
  }

  function RefLines(rs: seq<BranchRef>): seq<string> {
    if rs == [] then [] else RefLines(rs[..|rs| - 1]) + [RefLine(rs[|rs| - 1])]
  }

  lemma RefLineRead(upstreams: map<string, string>, r: BranchRef)
    requires TabFree(r)
    ensures AddUpstream(upstreams, RefLine(r)) == upstreams[r.branch := r.upstream]
  {
    var line := RefLine(r);
    assert line == (HEADS + r.branch) + ['\t'] + (r.commit + ['\t'] + r.upstream);
    SplitAt('\t', HEADS + r.branch, r.commit + ['\t'] + r.upstream);
    SplitAt('\t', r.commit, r.upstream);
    BeforeAbsent('\t', r.upstream);
    NotBlank(line);
    assert (HEADS + r.branch)[|HEADS|..] == r.branch;
  }

  // What the lines record: the upstream of the last line of a branch.
  function Recorded(rs: seq<BranchRef>): map<string, string> {
    if rs == [] then map[] else Recorded(rs[..|rs| - 1])[rs[|rs| - 1].branch := rs[|rs| - 1].upstream]
  }

  lemma UpstreamsLast(lines: seq<string>, line: string)
    ensures Upstreams(lines + [line]) == AddUpstream(Upstreams(lines), line)
  {
    assert (lines + [line])[..|lines|] == lines;
  }

  lemma {:induction false} UpstreamsAreRecorded(rs: seq<BranchRef>)
    requires forall r :: r in rs ==> TabFree(r)
    ensures Upstreams(RefLines(rs)) == Recorded(rs)
  {
    if rs != [] {
      var init, last := rs[..|rs| - 1], rs[|rs| - 1];
      assert last in rs && forall r :: r in init ==> r in rs;
      UpstreamsAreRecorded(init);
      UpstreamsLast(RefLines(init), RefLine(last));
      RefLineRead(Upstreams(RefLines(init)), last);
    }
  }

  lemma {:induction false} RecordedBranches(rs: seq<BranchRef>, branch: string)
    ensures branch in Recorded(rs) <==> exists r :: r in rs && r.branch == branch
  {
    if rs != [] {
      var init, last := rs[..|rs| - 1], rs[|rs| - 1];
      assert rs == init + [last];
      RecordedBranches(init, branch);
    }
  }

  lemma {:induction false} RecordedLast(rs: seq<BranchRef>, i: nat)
    requires i < |rs| && forall j :: i < j < |rs| ==> rs[j].branch != rs[i].branch
    ensures rs[i].branch in Recorded(rs) && Recorded(rs)[rs[i].branch] == rs[i].upstream
  {
    if i < |rs| - 1 {
      RecordedLast(rs[..|rs| - 1], i);
    }
  }

  // Every branch is read with the upstream the last of its lines records, and no other branch.
  lemma UpstreamsRecovered(rs: seq<BranchRef>, branch: string)
    requires forall r :: r in rs ==> TabFree(r)
    ensures branch in Upstreams(RefLines(rs)) <==> exists r :: r in rs && r.branch == branch
    ensures forall i :: 0 <= i < |rs| && rs[i].branch == branch && (forall j :: i < j < |rs| ==> rs[j].branch != branch)
              ==> Field(Upstreams(RefLines(rs)), branch) == rs[i].upstream
  {
    UpstreamsAreRecorded(rs);
    RecordedBranches(rs, branch);
    forall i | 0 <= i < |rs| && rs[i].branch == branch && (forall j :: i < j < |rs| ==> rs[j].branch != branch)
      ensures Field(Recorded(rs), branch) == rs[i].upstream
    {
      RecordedLast(rs, i);
    }
  }

  /******* The verdict *******/

  datatype Verdict = Safe | Dirty | Locked | UniqueWork | ClaimedElsewhere

  const UNKNOWN := -1
  const IDLE_DAYS := 7

  // What the commands answer: the refs with the commits they contain, whether asking which of them
  // contain a head fails, whether asking if a ref resolves fails although it does, the entries
  // `git status` lists for a tree, and the measured idle days. `None` is a command that failed.
  datatype Git = Git(
    refs: seq<(string, set<string>)>,
    refsFail: string -> bool,
    verifyFails: string -> bool,
    status: string -> Option<nat>,
    idle: string -> int)

  // `for-each-ref` patterns: the trunk, itself or as a directory, and everything under the remotes.
  predicate CountsAsHome(ref: string) {
    ref == TRUNK || TRUNK + "/" <= ref || REMOTES <= ref
  }

  function ContainingIn(refs: seq<(string, set<string>)>, head: string): seq<string> {
    if refs == [] then []
    else
      var rest := ContainingIn(refs[1..], head);
      if CountsAsHome(refs[0].0) && head in refs[0].1 then [refs[0].0] + rest else rest
  }

  function ContainingRefs(git: Git, head: string): Option<seq<string>> {
    if git.refsFail(head) then None else Some(ContainingIn(git.refs, head))
  }

  predicate Resolves(git: Git, ref: string) {
    exists r :: r in git.refs && r.0 == ref
  }

  // Any failing answer of `rev-parse --verify` reads as not claimed.
  predicate IsClaimed(git: Git, branch: Option<string>, upstreams: map<string, string>) {
    match branch
    case None => false
    case Some(b) =>
      var upstream := Field(upstreams, b);
      REMOTES <= upstream && Resolves(git, upstream) && !git.verifyFails(upstream)
  }

  function Reachability(git: Git, s: Stanza, upstreams: map<string, string>): Option<Verdict> {
    match ContainingRefs(git, s.head)
    case None => None
    case Some(containing) =>
      if containing == [] then Some(UniqueWork)
      else if IsClaimed(git, s.branch, upstreams) then Some(ClaimedElsewhere)
      else Some(Safe)
  }

  function VerdictOf(git: Git, s: Stanza, upstreams: map<string, string>): Option<Verdict> {
    if s.locked then Some(Locked)
    else if s.prunable then Reachability(git, s, upstreams)
    else
      match git.status(s.path)
      case None => None
      case Some(entries) => if entries > 0 then Some(Dirty) else Reachability(git, s, upstreams)
  }

  datatype Tree = Tree(path: string, branch: Option<string>, head: string, verdict: Verdict, idleDays: int)

  function TreeOf(git: Git, s: Stanza, upstreams: map<string, string>): Option<Tree> {
    match VerdictOf(git, s, upstreams)
    case None => None
    case Some(v) => Some(Tree(s.path, s.branch, s.head, v, if s.prunable then UNKNOWN else git.idle(s.path)))
  }

  // The main checkout comes first and is never classified. A failed listing, a failed search for the
  // refs that hold a head, or a failed status fails the whole report.
  method Collect(listing: Option<seq<string>>, refListing: Option<seq<string>>, git: Git)
      returns (trees: Option<seq<Tree>>)
    ensures listing.None? || refListing.None? ==> trees == None
    ensures listing.Some? && refListing.Some? ==>
              var stanzas, upstreams := Stanzas(listing.value), Upstreams(refListing.value);
              match trees
              case Some(ts) =>
                && |ts| == (if |stanzas| > 0 then |stanzas| - 1 else 0)
                && forall i :: 0 <= i < |ts| ==> TreeOf(git, stanzas[i + 1], upstreams) == Some(ts[i])
              case None => exists i :: 0 < i < |stanzas| && TreeOf(git, stanzas[i], upstreams) == None
  {
    if listing.None? || refListing.None? {
      return None;
    }
    var stanzas := ParseWorktreeList(listing.value);
    var upstreams := ParseUpstreams(refListing.value);
    if stanzas == [] {
      return Some([]);
    }
    var out: seq<Tree> := [];
    for i := 1 to |stanzas|
      invariant |out| == i - 1
      invariant forall k :: 0 <= k < |out| ==> TreeOf(git, stanzas[k + 1], upstreams) == Some(out[k])
    {
      var tree := TreeOf(git, stanzas[i], upstreams);
      if tree.None? {
        return None;
      }
      out := out + [tree.value];
    }
    return Some(out);
  }

  function Reclaimable(trees: seq<Tree>): seq<Tree> {
    if trees == [] then []
    else
      var last := trees[|trees| - 1];
      var rest := Reclaimable(trees[..|trees| - 1]);
      if last.verdict == Safe && last.idleDays != UNKNOWN && last.idleDays >= IDLE_DAYS then rest + [last] else rest
  }

  // A live remote-tracking ref still backs the branch.
  predicate Backed(git: Git, s: Stanza, upstreams: map<string, string>) {
    && s.branch.Some?
    && "refs/remotes/" <= Field(upstreams, s.branch.value)
    && Resolves(git, Field(upstreams, s.branch.value))
  }

  // The question about that ref was answered by an error.
  predicate CheckFailed(git: Git, s: Stanza, upstreams: map<string, string>) {
    s.branch.Some? && git.verifyFails(Field(upstreams, s.branch.value))
  }

  // The work survives elsewhere, nothing in the tree would be lost, and nobody has used it lately.
  ghost predicate Expendable(git: Git, s: Stanza) {
    && !s.locked && !s.prunable
    && git.status(s.path) == Some(0)
    && (exists r :: r in git.refs && Shared(r.0) && s.head in r.1)
    && git.idle(s.path) >= 7
  }

  // The trunk, what lies below it, and whatever a remote holds.
  predicate Shared(ref: string) {
    ref == "refs/heads/main" || "refs/heads/main/" <= ref || "refs/remotes/" <= ref
  }

  // And nobody else backs the branch.
  ghost predicate SafeToRemove(git: Git, s: Stanza, upstreams: map<string, string>) {
    Expendable(git, s) && !Backed(git, s, upstreams)
  }

  predicate Offered(t: Tree) {
    t.verdict == Safe && t.idleDays != UNKNOWN && t.idleDays >= IDLE_DAYS
  }

  lemma {:induction false} ContainingMeaning(refs: seq<(string, set<string>)>, head: string)
    ensures ContainingIn(refs, head) != [] <==> exists r :: r in refs && Shared(r.0) && head in r.1
  {
    if refs != [] {
      ContainingMeaning(refs[1..], head);
      assert refs == [refs[0]] + refs[1..];
    }
  }

  // The verdicts in their order: a lock comes before everything, then changes in a tree that is still there,
  // then commits no shared ref holds, then a live upstream that was seen.
  lemma {:induction false} VerdictMeaning(git: Git, s: Stanza, upstreams: map<string, string>)
    requires VerdictOf(git, s, upstreams).Some?
    ensures var v := VerdictOf(git, s, upstreams).value;
            var changed := !s.prunable && git.status(s.path).Some? && git.status(s.path).value > 0;
            var held := exists r :: r in git.refs && Shared(r.0) && s.head in r.1;
            var claimed := Backed(git, s, upstreams) && !CheckFailed(git, s, upstreams);
            && (v == Locked <==> s.locked)
            && (v == Dirty <==> !s.locked && changed)
            && (v == UniqueWork <==> !s.locked && !changed && !held)
            && (v == ClaimedElsewhere <==> !s.locked && !changed && held && claimed)
            && (v == Safe <==> !s.locked && !changed && held && !claimed)
  {
    ContainingMeaning(git.refs, s.head);
  }

  // A tree cannot be judged when its status is asked for and fails, or when it is asked which refs hold its
  // head and that fails; a judged tree is reported as it is, idle by its last use unless it is gone.
  lemma TreeMeaning(git: Git, s: Stanza, upstreams: map<string, string>)
    ensures TreeOf(git, s, upstreams) == None <==>
            && !s.locked
            && (if !s.prunable && git.status(s.path) == None then true
                else (s.prunable || git.status(s.path) == Some(0)) && git.refsFail(s.head))
    ensures TreeOf(git, s, upstreams).Some? ==>
              var t := TreeOf(git, s, upstreams).value;
              && t.path == s.path && t.branch == s.branch && t.head == s.head
              && Some(t.verdict) == VerdictOf(git, s, upstreams)
              && t.idleDays == if s.prunable then -1 else git.idle(s.path)
  {}

  lemma {:induction false} ReclaimableMembers(trees: seq<Tree>, t: Tree)
    ensures t in Reclaimable(trees) <==> t in trees && Offered(t)
  {
    if trees != [] {
      var n := |trees| - 1;
      ReclaimableMembers(trees[..n], t);
      assert trees == trees[..n] + [trees[n]];
    }
  }

  // A linked tree is offered exactly when it is expendable and no live upstream was seen to back it.
  lemma {:induction false} TreeIsReclaimable(git: Git, s: Stanza, upstreams: map<string, string>)
    requires TreeOf(git, s, upstreams).Some?
    ensures Offered(TreeOf(git, s, upstreams).value) <==> SeenSafe(git, s, upstreams)
  {
    ContainingMeaning(git.refs, s.head);
    if Expendable(git, s) {
      assert !git.refsFail(s.head);
    }
  }

  // An expendable tree with a live upstream that the failed check did not show.
  ghost predicate MissedBacking(git: Git, s: Stanza, upstreams: map<string, string>) {
    Expendable(git, s) && Backed(git, s, upstreams) && CheckFailed(git, s, upstreams)
  }

  // For a tree that is otherwise safe, being offered means being safe to remove, unless the check of a
  // live upstream failed.
  lemma OfferedIffSafe(git: Git, s: Stanza, upstreams: map<string, string>)
    requires TreeOf(git, s, upstreams).Some?
    ensures (Offered(TreeOf(git, s, upstreams).value) <==> SafeToRemove(git, s, upstreams)) <==>
            !MissedBacking(git, s, upstreams)
  {
    TreeIsReclaimable(git, s, upstreams);
  }

  // A clean and idle tree with a live upstream, offered because `rev-parse` failed.
  lemma FailedCheckOffersBackedTree()
    ensures var s := Stanza("/w", "c0", Some("b"), false, false, "", false, "");
            var upstreams := map["b" := "refs/remotes/origin/b"];
            var git := Git([("refs/remotes/origin/b", {"c0"})], head => false, ref => true, path => Some(0), path => 7);
            TreeOf(git, s, upstreams).Some? && Offered(TreeOf(git, s, upstreams).value) && Backed(git, s, upstreams)
  {
    var s := Stanza("/w", "c0", Some("b"), false, false, "", false, "");
    var upstreams := map["b" := "refs/remotes/origin/b"];
    var home := ("refs/remotes/origin/b", {"c0"});
    var git := Git([home], head => false, ref => true, path => Some(0), path => 7);
    assert home in git.refs && Shared(home.0);
    ContainingMeaning(git.refs, s.head);
  }

  // What the report takes for safe: no live upstream was seen to back the branch.
  ghost predicate SeenSafe(git: Git, s: Stanza, upstreams: map<string, string>) {
    Expendable(git, s) && (Backed(git, s, upstreams) ==> CheckFailed(git, s, upstreams))
  }

  // The trees the report offers are the linked trees it takes for safe, and the main checkout, the
  // first stanza, is never among them.
  lemma {:induction false} ReclaimableIsSeenSafe(stanzas: seq<Stanza>, trees: seq<Tree>, git: Git,
          upstreams: map<string, string>, t: Tree)
    requires |stanzas| == |trees| + 1
    requires forall i :: 0 <= i < |trees| ==> TreeOf(git, stanzas[i + 1], upstreams) == Some(trees[i])
    ensures t in Reclaimable(trees) <==>
            exists i :: 0 <= i < |trees| && trees[i] == t && SeenSafe(git, stanzas[i + 1], upstreams)
  {
    ReclaimableMembers(trees, t);
    forall i | 0 <= i < |trees|
      ensures Offered(trees[i]) <==> SeenSafe(git, stanzas[i + 1], upstreams)
    {
      assert TreeOf(git, stanzas[i + 1], upstreams) == Some(trees[i]);
      TreeIsReclaimable(git, stanzas[i + 1], upstreams);
    }
  }

  // They are the linked trees that are safe to remove, exactly when no expendable linked tree is backed
  // by a live upstream whose check failed.
  lemma {:induction false} ReclaimableIsSafe(stanzas: seq<Stanza>, trees: seq<Tree>, git: Git,
          upstreams: map<string, string>)
    requires |stanzas| == |trees| + 1
    requires forall i :: 0 <= i < |trees| ==> TreeOf(git, stanzas[i + 1], upstreams) == Some(trees[i])
    ensures (forall i :: 0 <= i < |trees| ==>
               (trees[i] in Reclaimable(trees) <==> SafeToRemove(git, stanzas[i + 1], upstreams)))
            <==> forall s :: s in stanzas[1..] ==> !MissedBacking(git, s, upstreams)
  {
    forall i | 0 <= i < |trees|
      ensures (trees[i] in Reclaimable(trees) <==> SafeToRemove(git, stanzas[i + 1], upstreams)) <==>
              !MissedBacking(git, stanzas[i + 1], upstreams)
    {
      assert TreeOf(git, stanzas[i + 1], upstreams) == Some(trees[i]);
      ReclaimableMembers(trees, trees[i]);
      OfferedIffSafe(git, stanzas[i + 1], upstreams);
    }
    forall s | s in stanzas[1..]
      ensures exists i :: 0 <= i < |trees| && stanzas[i + 1] == s && TreeOf(git, s, upstreams) == Some(trees[i])
    {
      var j :| 0 <= j < |trees| && stanzas[1..][j] == s;
      assert TreeOf(git, stanzas[j + 1], upstreams) == Some(trees[j]);
    }
    assert forall i :: 0 <= i < |trees| ==> stanzas[1..][i] == stanzas[i + 1];
  }
}
