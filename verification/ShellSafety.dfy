/** The read-scope audit of the complex probe (src/toolbench/shell_safety.py). */
module ShellSafety {
  import opened PosixPath
  import opened Text

  function Resolve(path: string, root: string): string {
    if IsAbs(path) then Normalize(path) else Normalize(Join(root, path))
  }

  // The string test the audit applies.
  predicate PathEscapes(path: string, root: string) {
    var resolved := Resolve(path, root);
    !(resolved == root || root + "/" <= resolved)
  }

  // What it is meant to decide: the same leading slashes, and the root's components come first.
  predicate Inside(path: string, root: string) {
    && LeadingSlashes(path) == LeadingSlashes(root)
    && Components(root) <= Components(path)
  }

  lemma ResolveIsJoin(path: string, root: string)
    ensures Resolve(path, root) == Normalize(Join(root, path))
  {}

  /******* The string test decides containment *******/

  lemma GluePrefix(a: seq<string>, b: seq<string>)
    requires a != []
    ensures b == [] ==> JoinWith("/", a + b) == JoinWith("/", a)
    ensures b != [] ==> JoinWith("/", a) + "/" <= JoinWith("/", a + b)
  {
    if b == [] {
      assert a + b == a;
    } else {
      var init := b[..|b| - 1];
      assert (a + b)[..|a + b| - 1] == a + init;
      GluePrefix(a, init);
    }
  }

  lemma PrefixExtends(slashes: string, a: string, b: string)
    ensures a <= b ==> slashes + a <= slashes + b
    ensures slashes + (a + "/") == (slashes + a) + "/"
  {}

  lemma InsideKeepsPrefix(path: string, root: string)
    requires Normalize(root) == root && Components(root) != []
    requires Inside(path, root) && Normalize(path) == path
    ensures path == root || root + "/" <= path
  {
    var slashes, comps := Slashes(LeadingSlashes(root)), Components(root);
    var rest := Components(path)[|comps|..];
    assert Components(path) == comps + rest;
    RenderedParts(root);
    RenderedParts(path);
    GluePrefix(comps, rest);
    PrefixExtends(slashes, JoinWith("/", comps), "");
    PrefixExtends(slashes, JoinWith("/", comps) + "/", JoinWith("/", comps + rest));
  }

  lemma RenderedParts(path: string)
    requires Normalize(path) == path && Components(path) != []
    ensures path == Slashes(LeadingSlashes(path)) + JoinWith("/", Components(path))
    ensures Split(path) == Blanks(LeadingSlashes(path)) + Components(path)
  {
    NormalForm(path);
    SplitRendered(LeadingSlashes(path), Components(path));
  }

  // A normalised path below the root has the root's leading slashes, and a component.
  lemma BelowHasSlashes(path: string, root: string)
    requires Normalize(root) == root && Components(root) != []
    requires Normalize(path) == path && root + "/" <= path
    ensures LeadingSlashes(path) == LeadingSlashes(root)
    ensures Components(path) != []
  {
    var slashes := LeadingSlashes(root);
    NormalForm(root);
    NormalForm(path);
    GlueStartsPlain(Components(root));
    SplitRendered(slashes, Components(root));
    SlashesLength(slashes);
    var rest := path[slashes..];
    assert path[..slashes] == root[..slashes] == Slashes(slashes);
    assert path == Slashes(slashes) + rest && rest[0] == root[slashes] == JoinWith("/", Components(root))[0];
    RenderedSlashes(slashes, rest);
    RenderedNothing(slashes);
  }

  lemma SlashesLength(n: nat)
    ensures |Slashes(n)| == n
  {}

  lemma PrefixIsInside(path: string, root: string)
    requires Normalize(root) == root && Components(root) != []
    requires Normalize(path) == path && root + "/" <= path
    ensures Inside(path, root)
  {
    BelowHasSlashes(path, root);
    var tail := path[|root| + 1..];
    var blanks := Blanks(LeadingSlashes(root));
    assert path == root + "/" + tail;
    NormalForm(root);
    NormalForm(path);
    SplitRendered(LeadingSlashes(root), Components(root));
    SplitRendered(LeadingSlashes(path), Components(path));
    SplitAtSlash(root, tail);
    DropCommon(blanks, Components(path), Components(root), Split(tail));
  }

  lemma DropCommon(blanks: seq<string>, a: seq<string>, b: seq<string>, c: seq<string>)
    requires blanks + a == (blanks + b) + c
    ensures b <= a
  {
    assert a == (blanks + a)[|blanks|..];
    assert ((blanks + b) + c)[|blanks|..] == b + c;
  }

  // For every normalised root that has a component and every path string, the string test is the
  // component test.
  lemma {:induction false} EscapesDecidesContainment(path: string, root: string)
    requires Normalize(root) == root && Components(root) != []
    ensures PathEscapes(path, root) <==> !Inside(Resolve(path, root), root)
  {
    var resolved := Resolve(path, root);
    ResolveIsJoin(path, root);
    NormalizeIdempotent(Join(root, path));
    if Inside(resolved, root) {
      InsideKeepsPrefix(resolved, root);
    } else if root + "/" <= resolved {
      PrefixIsInside(resolved, root);
    }
  }

  // The roots without a component ("/", "//" and ".") are exactly the ones the test gets wrong: it
  // reports the plain name "a" below such a root as an escape.
  lemma {:induction false} TestNeedsAComponent(root: string)
    requires Normalize(root) == root
    ensures (forall path :: PathEscapes(path, root) <==> !Inside(Resolve(path, root), root)) <==>
            Components(root) != []
  {
    if Components(root) == [] {
      BareRootMisjudged(root);
    } else {
      forall path {
        EscapesDecidesContainment(path, root);
      }
    }
  }

  lemma BareRootMisjudged(root: string)
    requires Normalize(root) == root && Components(root) == []
    ensures PathEscapes("a", root) && Inside(Resolve("a", root), root)
  {
    var slashes := LeadingSlashes(root);
    NormalForm(root);
    NameBelowBareRoot(root);
    BelowBareRoot(slashes, root);
  }

  // The plain name "a" resolves to itself below such a root.
  lemma NameBelowBareRoot(root: string)
    requires Normalize(root) == root && Components(root) == []
    ensures Resolve("a", root) == Slashes(LeadingSlashes(root)) + "a"
    ensures LeadingSlashes(Resolve("a", root)) == LeadingSlashes(root)
  {
    var path := Join(root, "a");
    BareJoin(root);
    NormalForm(path);
    assert JoinWith("/", ["a"]) == "a";
  }

  lemma BareJoin(root: string)
    requires Normalize(root) == root && Components(root) == []
    ensures LeadingSlashes(Join(root, "a")) == LeadingSlashes(root) && Components(Join(root, "a")) == ["a"]
  {
    NormalForm(root);
    JoinContinues(root, "a");
    SplitPlain("a");
    PushOne(IsAbs(root), [], "a");
  }

  lemma BelowBareRoot(slashes: nat, root: string)
    requires slashes <= 2 && root == Render(slashes, [])
    ensures !(Slashes(slashes) + "a" == root || root + "/" <= Slashes(slashes) + "a")
  {
    SlashesLength(slashes);
    RenderedNothing(slashes);
    var path := Slashes(slashes) + "a";
    assert path[slashes] == 'a' && |path| == slashes + 1;
    if slashes > 0 {
      assert |root| == slashes && (root + "/")[slashes] == '/';
    }
  }

  // A sibling whose name continues the root's name shares the string prefix, and everything that
  // resolves to a place in it escapes, the sibling itself first of all.
  lemma {:induction false} SiblingEscapes(root: string, suffix: string, path: string)
    requires Normalize(root) == root && IsAbs(root) && Components(root) != []
    requires suffix != "" && '/' !in suffix
    ensures root <= root + suffix && PathEscapes(root + suffix, root)
    ensures Inside(Resolve(path, root), root + suffix) ==> PathEscapes(path, root)
  {
    SiblingComponents(root, suffix);
    NormalForm(root + suffix);
    EscapesDecidesContainment(root + suffix, root);
    EscapesDecidesContainment(path, root);
    OtherName(Components(Resolve(root + suffix, root)), Components(root), suffix);
    OtherName(Components(Resolve(path, root)), Components(root), suffix);
  }

  // Components that follow the sibling do not follow the root.
  lemma OtherName(comps: seq<string>, root: seq<string>, suffix: string)
    requires root != [] && suffix != ""
    ensures root[..|root| - 1] + [root[|root| - 1] + suffix] <= comps ==> !(root <= comps)
  {
    var n := |root| - 1;
    assert root[n] + suffix != root[n];
  }

  lemma SiblingComponents(root: string, suffix: string)
    requires Normalize(root) == root && IsAbs(root) && Components(root) != []
    requires suffix != "" && '/' !in suffix
    ensures var comps := Components(root);
            var n := |comps| - 1;
            Components(root + suffix) == comps[..n] + [comps[n] + suffix]
  {
    var slashes, comps := LeadingSlashes(root), Components(root);
    var n := |comps| - 1;
    var init, name := Blanks(slashes) + comps[..n], comps[n] + suffix;
    NormalForm(root);
    SiblingSplits(root, suffix);
    NormalLast(true, comps[..n], comps[n], comps);
    NormalIsKept(true, comps[..n]);
    PushBlanks(true, [], slashes, comps[..n]);
    PushLast(true, [], init, name);
    LongerName(comps[n], suffix);
    assert Push(true, comps[..n], name) == comps[..n] + [name];
    assert IsAbs(root + suffix);
  }

  lemma SiblingSplits(root: string, suffix: string)
    requires Normalize(root) == root && Components(root) != [] && '/' !in suffix
    ensures var comps := Components(root);
            var n := |comps| - 1;
            Split(root + suffix) == (Blanks(LeadingSlashes(root)) + comps[..n]) + [comps[n] + suffix]
  {
    var slashes, comps := LeadingSlashes(root), Components(root);
    var n := |comps| - 1;
    RenderedParts(root);
    assert comps == comps[..n] + [comps[n]];
    Associative(Blanks(slashes), comps[..n], [comps[n]]);
    SplitSuffix(root, suffix, Blanks(slashes) + comps[..n], comps[n]);
  }

  lemma LongerName(last: string, suffix: string)
    requires Proper(last) && suffix != ""
    ensures last + suffix != "" && last + suffix != "." && last + suffix != ".."
  {
    assert last == (last + suffix)[..|last|];
    assert |last| == 1 ==> last == [last[0]] && last != ".";
  }

  // Text without a slash lengthens the last part.
  lemma {:induction false} SplitSuffix(path: string, suffix: string, init: seq<string>, last: string)
    requires '/' !in suffix && Split(path) == init + [last]
    ensures Split(path + suffix) == init + [last + suffix]
  {
    if path == "" {
      SplitPlain(suffix);
      assert |init| == 0 && last == (init + [last])[0] == "";
      assert path + suffix == suffix && last + suffix == suffix;
    } else {
      var c, tail := path[0], path[1..];
      var parts := Split(tail);
      var rest, end := parts[..|parts| - 1], parts[|parts| - 1];
      SplitSuffix(tail, suffix, rest, end);
      SplitCons(c, tail + suffix);
      assert path + suffix == [c] + (tail + suffix);
      AttachLast(c, rest, end, suffix, init, last);
    }
  }

  lemma AttachLast(c: char, rest: seq<string>, end: string, suffix: string, init: seq<string>, last: string)
    requires Attach(c, rest + [end]) == init + [last]
    ensures Attach(c, rest + [end + suffix]) == init + [last + suffix]
  {
    var whole := init + [last];
    assert init == whole[..|whole| - 1] && last == whole[|whole| - 1];
    if c == '/' {
      assert init == [""] + rest && last == end;
    } else if rest == [] {
      assert init == [] && last == [c] + end;
      assert [c] + (end + suffix) == ([c] + end) + suffix;
    } else {
      assert init == [[c] + rest[0]] + rest[1..] && last == end;
    }
  }

  /******* The Glob audit *******/

  // The arguments of a structured call.
  datatype Arg = Absent | NotString | Str(s: string)

  datatype GlobCall = GlobCall(name: string, path: Arg, pattern: Arg)

  // The base directory the pattern is read from.
  function GlobBase(call: GlobCall): string {
    if call.path.Str? then call.path.s else "."
  }

  // The path the pattern names, read from that directory. `expand` puts in the home directory.
  function GlobTarget(call: GlobCall, expand: string -> string): string
    requires call.pattern.Str?
  {
    Join(expand(GlobBase(call)), expand(call.pattern.s))
  }

  // The strings a Glob call is judged by: its path, and its pattern read from that path.
  function GlobCandidates(call: GlobCall, expand: string -> string): seq<string> {
    (match call.path
     case Absent => ["."]
     case NotString => []
     case Str(s) => [s])
    + if call.pattern.Str? then [GlobTarget(call, expand)] else []
  }

  function Report(call: GlobCall, raw: string): string {
    "ReadEscape:" + call.name + ":" + raw
  }

  // The candidates reported: those whose expansion lies outside.
  function Reports(call: GlobCall, candidates: seq<string>, root: string, expand: string -> string): set<string> {
    set raw | raw in candidates && PathEscapes(expand(raw), root) :: Report(call, raw)
  }

  method GlobEscapes(call: GlobCall, root: string, expand: string -> string) returns (escapes: set<string>)
    ensures escapes == Reports(call, GlobCandidates(call, expand), root, expand)
  {
    var candidates := GlobCandidates(call, expand);
    escapes := {};
    for i := 0 to |candidates|
      invariant escapes == Reports(call, candidates[..i], root, expand)
    {
      assert candidates[..i + 1] == candidates[..i] + [candidates[i]];
      if PathEscapes(expand(candidates[i]), root) {
        escapes := escapes + {Report(call, candidates[i])};
      }
    }
    assert candidates[..|candidates|] == candidates;
  }

  // The path is judged as it stands, and a call without one is judged by the working directory.
  lemma {:induction false} GlobPathIsJudged(call: GlobCall, root: string, expand: string -> string)
    ensures var escapes := Reports(call, GlobCandidates(call, expand), root, expand);
            match call.path
            case Absent => PathEscapes(expand("."), root) ==> "ReadEscape:" + call.name + ":" + "." in escapes
            case Str(s) => PathEscapes(expand(s), root) ==> "ReadEscape:" + call.name + ":" + s in escapes
            case NotString => call.pattern.Str? || escapes == {}
  {
    var candidates := GlobCandidates(call, expand);
    if !call.path.NotString? {
      assert candidates[0] == GlobBase(call) && candidates[0] in candidates;
      assert Report(call, GlobBase(call)) == "ReadEscape:" + call.name + ":" + GlobBase(call);
    }
  }

  lemma ReportsDiffer(call: GlobCall, a: string, b: string)
    requires Report(call, a) == Report(call, b)
    ensures a == b
  {
    var head := "ReadEscape:" + call.name + ":";
    assert Report(call, a) == head + a && Report(call, b) == head + b;
    assert a == (head + a)[|head|..] && b == (head + b)[|head|..];
  }

  // The audit of the pattern judges the path the tool reaches: the tool goes to the resolved base and
  // reads the pattern from there. What is joined holds nothing left to expand.
  lemma {:induction false} GlobJudgesReachedPath(call: GlobCall, root: string, expand: string -> string)
    requires Normalize(root) == root && Components(root) != [] && call.pattern.Str?
    requires expand(GlobTarget(call, expand)) == GlobTarget(call, expand)
    ensures var raw := GlobTarget(call, expand);
            var reached := Normalize(Join(Resolve(expand(GlobBase(call)), root), expand(call.pattern.s)));
            && Resolve(raw, root) == reached
            && (Report(call, raw) in Reports(call, GlobCandidates(call, expand), root, expand) <==>
                !Inside(reached, root))
  {
    var raw, candidates := GlobTarget(call, expand), GlobCandidates(call, expand);
    NormalizeComposes(root, expand(GlobBase(call)), expand(call.pattern.s));
    EscapesDecidesContainment(raw, root);
    assert candidates[|candidates| - 1] == raw;
    forall other | other in candidates && Report(call, other) == Report(call, raw)
      ensures other == raw
    {
      ReportsDiffer(call, other, raw);
    }
  }
}
