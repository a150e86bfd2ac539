/** The run manifest and its worktrees (src/toolbench/run_manifest.py). */
module RunManifest {
  import opened Options
  import opened PosixPath

  datatype Manifest = Manifest(run: string, tickets: seq<string>, branches: set<string>, worktrees: seq<string>)

  // `PurePosixPath(normpath(path)).parts`: the root, when there is one, counts as a part.
  function PathParts(path: string): seq<string> {
    var normal := Normalize(path);
    if IsAbs(normal) then [Slashes(LeadingSlashes(normal))] + Components(normal) else Components(normal)
  }

  // The directory lies in the worktree: the worktree's parts come first.
  predicate Contains(worktree: string, cwd: string) {
    cwd != "" && PathParts(worktree) != [] && PathParts(worktree) <= PathParts(cwd)
  }

  // A scan that keeps the longest match and, among equally long ones, the first.
  function WorktreeFor(worktrees: seq<string>, cwd: string): Option<string> {
    if worktrees == [] then None
    else
      var best := WorktreeFor(worktrees[..|worktrees| - 1], cwd);
      var last := worktrees[|worktrees| - 1];
      if Contains(last, cwd) && (best.None? || |PathParts(last)| > |PathParts(best.value)|)
      then Some(last) else best
  }

  method FindWorktree(manifest: Manifest, cwd: string) returns (best: Option<string>)
    ensures best == WorktreeFor(manifest.worktrees, cwd)
  {
    if cwd == "" {
      NoWorktreeForEmpty(manifest.worktrees);
      return None;
    }
    var parts := PathParts(cwd);
    best := None;
    var bestLen := 0;
    for i := 0 to |manifest.worktrees|
      invariant best == WorktreeFor(manifest.worktrees[..i], cwd)
      invariant if best.None? then bestLen == 0 else bestLen == |PathParts(best.value)| > 0
    {
      var worktree := manifest.worktrees[i];
      ScanStep(manifest.worktrees, i, cwd);
      var tree := PathParts(worktree);
      ContainsByParts(worktree, cwd, tree, parts);
      if |tree| > bestLen && tree <= parts {
        best, bestLen := Some(worktree), |tree|;
      }
    }
    assert manifest.worktrees[..|manifest.worktrees|] == manifest.worktrees;
  }

  lemma ContainsByParts(worktree: string, cwd: string, tree: seq<string>, parts: seq<string>)
    requires cwd != "" && tree == PathParts(worktree) && parts == PathParts(cwd)
    ensures Contains(worktree, cwd) <==> |tree| > 0 && tree <= parts
  {}

  lemma ScanStep(worktrees: seq<string>, i: nat, cwd: string)
    requires i < |worktrees|
    ensures var best, last := WorktreeFor(worktrees[..i], cwd), worktrees[i];
            WorktreeFor(worktrees[..i + 1], cwd) ==
            if Contains(last, cwd) && (best.None? || |PathParts(last)| > |PathParts(best.value)|)
            then Some(last) else best
  {
    assert worktrees[..i + 1][..i] == worktrees[..i];
  }

  lemma NoWorktreeForEmpty(worktrees: seq<string>)
    ensures WorktreeFor(worktrees, "") == None
  {}

  // The deepest worktree that contains the directory, or None exactly when none does; every other
  // worktree that contains it encloses the chosen one.
  ghost predicate IsDeepest(worktrees: seq<string>, cwd: string, answer: Option<string>) {
    match answer
    case None => forall w :: w in worktrees ==> !Contains(w, cwd)
    case Some(best) =>
      && best in worktrees && Contains(best, cwd)
      && forall w :: w in worktrees && Contains(w, cwd) ==> PathParts(w) <= PathParts(best)
  }

  lemma {:induction false} DeepestWins(worktrees: seq<string>, cwd: string)
    ensures IsDeepest(worktrees, cwd, WorktreeFor(worktrees, cwd))
  {
    if worktrees != [] {
      var init, last := worktrees[..|worktrees| - 1], worktrees[|worktrees| - 1];
      DeepestWins(init, cwd);
      assert worktrees == init + [last];
      var best := WorktreeFor(init, cwd);
      forall w | w in worktrees && Contains(w, cwd) && WorktreeFor(worktrees, cwd).Some?
        ensures PathParts(w) <= PathParts(WorktreeFor(worktrees, cwd).value)
      {
        PrefixesNest(PathParts(w), PathParts(WorktreeFor(worktrees, cwd).value), PathParts(cwd));
      }
    }
  }

  // Entry i contains the directory, lies in every worktree that does, and no earlier one lies in it.
  predicate ChosenAt(worktrees: seq<string>, cwd: string, i: nat) {
    && i < |worktrees| && Contains(worktrees[i], cwd)
    && (forall j :: 0 <= j < |worktrees| && Contains(worktrees[j], cwd) ==> Contains(worktrees[j], worktrees[i]))
    && (forall j :: 0 <= j < i && Contains(worktrees[j], cwd) ==> !Contains(worktrees[i], worktrees[j]))
  }

  lemma NestedContain(v: string, w: string, cwd: string)
    requires Contains(v, cwd) && Contains(w, cwd)
    ensures Contains(v, w) <==> |PathParts(v)| <= |PathParts(w)|
  {
    PrefixesNest(PathParts(v), PathParts(w), PathParts(cwd));
    if w == "" {
      EmptyHasNoParts();
    }
  }

  lemma EmptyHasNoParts()
    ensures PathParts("") == []
  {
    NormalForm("");
    PushNothing(false, [], Split(""));
  }

  // The first of the deepest entries that match.
  predicate FirstBest(worktrees: seq<string>, matches: string -> bool, depth: string -> nat, i: nat) {
    && i < |worktrees| && matches(worktrees[i])
    && (forall j :: 0 <= j < |worktrees| && matches(worktrees[j]) ==> depth(worktrees[j]) <= depth(worktrees[i]))
    && (forall j :: 0 <= j < i && matches(worktrees[j]) ==> depth(worktrees[j]) < depth(worktrees[i]))
  }

  function Holding(cwd: string): string -> bool { (w: string) => Contains(w, cwd) }
  function Depth(): string -> nat { (w: string) => |PathParts(w)| }

  lemma ScanLast(worktrees: seq<string>, cwd: string)
    requires worktrees != []
    ensures var best, last := WorktreeFor(worktrees[..|worktrees| - 1], cwd), worktrees[|worktrees| - 1];
            WorktreeFor(worktrees, cwd) ==
            if Holding(cwd)(last) && (best.None? || Depth()(last) > Depth()(best.value)) then Some(last) else best
  {}

  lemma LastAgainst(worktrees: seq<string>, matches: string -> bool, depth: string -> nat, i: nat)
    requires worktrees != [] && FirstBest(worktrees[..|worktrees| - 1], matches, depth, i)
    ensures var last := worktrees[|worktrees| - 1];
            if matches(last) && depth(last) > depth(worktrees[i])
            then FirstBest(worktrees, matches, depth, |worktrees| - 1) else FirstBest(worktrees, matches, depth, i)
  {
    var n := |worktrees| - 1;
    assert forall j :: 0 <= j < n ==> worktrees[..n][j] == worktrees[j];
  }

  ghost predicate IsFirstBest(worktrees: seq<string>, matches: string -> bool, depth: string -> nat,
          answer: Option<string>)
  {
    match answer
    case None => forall i :: 0 <= i < |worktrees| ==> !matches(worktrees[i])
    case Some(best) => exists i: nat :: FirstBest(worktrees, matches, depth, i) && worktrees[i] == best
  }

  lemma BestStep(worktrees: seq<string>, matches: string -> bool, depth: string -> nat, best: Option<string>)
    requires worktrees != [] && IsFirstBest(worktrees[..|worktrees| - 1], matches, depth, best)
    ensures var last := worktrees[|worktrees| - 1];
            IsFirstBest(worktrees, matches, depth,
                        if matches(last) && (best.None? || depth(last) > depth(best.value)) then Some(last) else best)
  {
    var n := |worktrees| - 1;
    var init := worktrees[..n];
    assert forall j :: 0 <= j < n ==> init[j] == worktrees[j];
    if best.Some? {
      var i: nat :| FirstBest(init, matches, depth, i) && init[i] == best.value;
      LastAgainst(worktrees, matches, depth, i);
      assert worktrees[i] == best.value;
    } else {
      FirstOfAll(worktrees, matches, depth);
    }
  }

  lemma {:induction false} LongestWins(worktrees: seq<string>, cwd: string)
    ensures IsFirstBest(worktrees, Holding(cwd), Depth(), WorktreeFor(worktrees, cwd))
  {
    if worktrees != [] {
      LongestWins(worktrees[..|worktrees| - 1], cwd);
      ScanLast(worktrees, cwd);
      BestStep(worktrees, Holding(cwd), Depth(), WorktreeFor(worktrees[..|worktrees| - 1], cwd));
    }
  }

  lemma FirstOfAll(worktrees: seq<string>, matches: string -> bool, depth: string -> nat)
    requires worktrees != [] && forall j :: 0 <= j < |worktrees| - 1 ==> !matches(worktrees[j])
    ensures matches(worktrees[|worktrees| - 1]) ==> FirstBest(worktrees, matches, depth, |worktrees| - 1)
  {}

  lemma BestIsChosen(worktrees: seq<string>, cwd: string, i: nat)
    requires FirstBest(worktrees, Holding(cwd), Depth(), i)
    ensures ChosenAt(worktrees, cwd, i)
  {
    forall j | 0 <= j < |worktrees| && Contains(worktrees[j], cwd)
      ensures Contains(worktrees[j], worktrees[i]) && (j < i ==> !Contains(worktrees[i], worktrees[j]))
    {
      assert Holding(cwd)(worktrees[j]) && Holding(cwd)(worktrees[i]);
      assert Depth()(worktrees[j]) == |PathParts(worktrees[j])| && Depth()(worktrees[i]) == |PathParts(worktrees[i])|;
      NestedContain(worktrees[j], worktrees[i], cwd);
      NestedContain(worktrees[i], worktrees[j], cwd);
    }
  }

  // The answer is the first of the deepest worktrees that contain the directory.
  lemma {:induction false} FirstDeepestWins(worktrees: seq<string>, cwd: string)
    ensures match WorktreeFor(worktrees, cwd)
            case None => forall i :: 0 <= i < |worktrees| ==> !Contains(worktrees[i], cwd)
            case Some(best) => exists i: nat :: ChosenAt(worktrees, cwd, i) && worktrees[i] == best
  {
    LongestWins(worktrees, cwd);
    if WorktreeFor(worktrees, cwd).Some? {
      var i: nat :|
        FirstBest(worktrees, Holding(cwd), Depth(), i) && worktrees[i] == WorktreeFor(worktrees, cwd).value;
      BestIsChosen(worktrees, cwd, i);
    } else {
      assert forall i :: 0 <= i < |worktrees| ==> (Holding(cwd)(worktrees[i]) <==> Contains(worktrees[i], cwd));
    }
  }

  lemma OneChosen(worktrees: seq<string>, cwd: string, i: nat, j: nat)
    requires ChosenAt(worktrees, cwd, i) && ChosenAt(worktrees, cwd, j)
    ensures i == j
  {}

  lemma {:induction false} ChosenIsAnswer(worktrees: seq<string>, cwd: string, i: nat)
    requires ChosenAt(worktrees, cwd, i)
    ensures WorktreeFor(worktrees, cwd) == Some(worktrees[i])
  {
    FirstDeepestWins(worktrees, cwd);
    var j: nat :| ChosenAt(worktrees, cwd, j) && worktrees[j] == WorktreeFor(worktrees, cwd).value;
    OneChosen(worktrees, cwd, i, j);
  }

  lemma PrefixesNest(a: seq<string>, b: seq<string>, whole: seq<string>)
    requires a <= whole && b <= whole
    ensures |a| <= |b| ==> a <= b
  {}

  // With distinct component lists the answer does not depend on the order of the list.
  lemma {:induction false} OrderDoesNotMatter(a: seq<string>, b: seq<string>, cwd: string)
    requires forall w :: w in a <==> w in b
    requires forall v, w :: v in a && w in a && PathParts(v) == PathParts(w) ==> v == w
    ensures WorktreeFor(a, cwd) == WorktreeFor(b, cwd)
  {
    DeepestWins(a, cwd);
    DeepestWins(b, cwd);
    var x, y := WorktreeFor(a, cwd), WorktreeFor(b, cwd);
    if x.Some? && y.Some? {
      assert PathParts(x.value) == PathParts(y.value);
    }
  }

  // Compared by components: a worktree never claims a sibling whose name merely continues its own, nor
  // anything in it.
  lemma {:induction false} SiblingNotClaimed(worktree: string, name: string, suffix: string, cwd: string)
    requires Proper(name) && name != ".." && suffix != "" && '/' !in suffix
    requires IsAbs(worktree)
    requires PathParts(Join(worktree, name + suffix)) <= PathParts(cwd)
    ensures !Contains(Join(worktree, name), cwd)
  {
    JoinOne(worktree, name);
    Extended(name, suffix);
    JoinOne(worktree, name + suffix);
    var a, b := PathParts(Join(worktree, name)), PathParts(Join(worktree, name + suffix));
    assert |a| == |b| && a[|a| - 1] == name && b[|b| - 1] == name + suffix;
  }

  lemma Extended(name: string, suffix: string)
    requires Proper(name) && suffix != "" && '/' !in suffix
    ensures Proper(name + suffix) && name + suffix != ".." && name + suffix != name
  {
    assert name == (name + suffix)[..|name|];
    assert |name| == 1 ==> name == [name[0]] && name != ".";
  }

  lemma JoinOne(base: string, name: string)
    requires IsAbs(base) && Proper(name) && name != ".."
    ensures PathParts(Join(base, name)) == [Slashes(LeadingSlashes(base))] + (Components(base) + [name])
  {
    JoinContinues(base, name);
    SplitPlain(name);
    PushOne(true, Components(base), name);
    NormalForm(Join(base, name));
  }

  // A directory contains what lies below it, and not what it lies in.
  lemma {:induction false} ContainsBelow(worktree: string, cwd: string, name: string)
    requires cwd != "" && Proper(name) && name != ".."
    ensures Contains(worktree, cwd) ==> Contains(worktree, Join(cwd, name))
    ensures Normalize(cwd) != "." ==> Contains(cwd, cwd)
    ensures !Contains(Join(cwd, name), cwd)
  {
    PartsBelow(cwd, name);
    PartsMeaning(cwd);
    assert |PathParts(Join(cwd, name))| > |PathParts(cwd)|;
    assert Join(cwd, name) != "";
  }

  lemma PartsOfPath(path: string)
    requires path != ""
    ensures PathParts(path) == (if IsAbs(path) then [Slashes(LeadingSlashes(path))] else []) + Components(path)
  {
    NormalForm(path);
  }

  lemma PartsBelow(cwd: string, name: string)
    requires cwd != "" && Proper(name) && name != ".."
    ensures PathParts(Join(cwd, name)) == PathParts(cwd) + [name]
  {
    JoinContinues(cwd, name);
    SplitPlain(name);
    PushOne(IsAbs(cwd), Components(cwd), name);
    assert Components(Join(cwd, name)) == Components(cwd) + [name];
    PartsOfPath(cwd);
    PartsOfPath(Join(cwd, name));
  }

  lemma PartsMeaning(cwd: string)
    ensures Normalize(cwd) != "." ==> PathParts(cwd) != []
  {
    NormalForm(cwd);
    if Components(cwd) == [] {
      RenderedNothing(LeadingSlashes(cwd));
    }
  }
}
