/** A worktree contains a directory: the test on path parts (src/toolbench/run_manifest.py) told on the path strings. */
module Containment {
  import opened PosixPath
  import opened ShellSafety
  import opened PathLaws
  import opened RunManifest

  // The parts of a path from its leading slashes and its components.
  function Parts(slashes: string, comps: seq<string>): seq<string> {
    (if slashes == "" then [] else [slashes]) + comps
  }

  predicate SlashFree(comps: seq<string>) {
    forall c :: c in comps ==> '/' !in c
  }

  predicate OnlySlashes(s: string) {
    s == "" || '/' in s
  }

  lemma SameStart(a: seq<string>, b: seq<string>)
    requires a != [] && a <= b
    ensures b != [] && a[0] == b[0]
  {}

  lemma SameHead(s: string, a: seq<string>, b: seq<string>)
    ensures [s] + a <= [s] + b <==> a <= b
  {
    var x, y := [s] + a, [s] + b;
    if x <= y {
      assert y[..|x|][1..] == b[..|a|] && x[1..] == a;
    }
    if a <= b {
      assert y[..|x|] == [s] + b[..|a|];
    }
  }

  lemma PartsPrefix(s: string, a: seq<string>, t: string, b: seq<string>)
    requires OnlySlashes(s) && OnlySlashes(t) && SlashFree(a) && SlashFree(b) && Parts(s, a) != []
    ensures Parts(s, a) <= Parts(t, b) <==> s == t && a <= b
  {
    if s == t {
      if s != "" {
        SameHead(s, a, b);
      } else {
        assert Parts(s, a) == a && Parts(t, b) == b;
      }
    } else if Parts(s, a) <= Parts(t, b) {
      SameStart(Parts(s, a), Parts(t, b));
    }
  }

  lemma PartsOf(path: string)
    requires path != ""
    ensures PathParts(path) == Parts(Slashes(LeadingSlashes(path)), Components(path))
    ensures OnlySlashes(Slashes(LeadingSlashes(path))) && SlashFree(Components(path))
  {
    PartsOfPath(path);
    SplitHasNoSlash(path);
    NormalForm(path);
    SlashesMeaning(LeadingSlashes(path));
  }

  lemma SlashesMeaning(n: nat)
    requires n <= 2
    ensures Slashes(n) == if n == 0 then "" else if n == 1 then "/" else "//"
  {
    assert Slashes(1) == "/" && Slashes(2) == "//";
  }

  // On paths: the same leading slashes, and the worktree's components first.
  lemma ContainsIsInside(worktree: string, cwd: string)
    requires worktree != "" && cwd != "" && Normalize(worktree) != "."
    ensures Contains(worktree, cwd) <==> Inside(cwd, worktree)
  {
    PartsOf(worktree);
    PartsOf(cwd);
    PartsMeaning(worktree);
    PartsPrefix(Slashes(LeadingSlashes(worktree)), Components(worktree), Slashes(LeadingSlashes(cwd)), Components(cwd));
    SlashesMeaning(LeadingSlashes(worktree));
    SlashesMeaning(LeadingSlashes(cwd));
  }

  lemma NormalParts(path: string)
    requires path != ""
    ensures LeadingSlashes(Normalize(path)) == LeadingSlashes(path) && Components(Normalize(path)) == Components(path)
    ensures Normalize(Normalize(path)) == Normalize(path) != ""
  {
    NormalForm(path);
    NormalizeIdempotent(path);
  }

  // The string reading: the normalised directory is the normalised worktree or continues it behind a
  // slash. The root "/" holds what starts with one slash, "//" what starts with two, "." holds nothing.
  lemma {:induction false} ContainsOnStrings(worktree: string, cwd: string)
    ensures var w, c := Normalize(worktree), Normalize(cwd);
            Contains(worktree, cwd) <==>
            && cwd != "" && w != "."
            && (if w == "/" then IsAbs(cwd) && LeadingSlashes(cwd) == 1
                else if w == "//" then LeadingSlashes(cwd) == 2
                else c == w || w + "/" <= c)
  {
    if worktree == "" {
      EmptyHasNoParts();
      assert Normalize("") == ".";
    } else if Normalize(worktree) == "." {
      DotHasNoParts(worktree);
    } else if cwd != "" {
      ContainsIsInside(worktree, cwd);
      BareMeaning(worktree);
      if Components(worktree) != [] {
        StringPrefix(worktree, cwd);
      }
    }
  }

  lemma DotHasNoParts(path: string)
    requires path != "" && Normalize(path) == "."
    ensures PathParts(path) == []
  {
    BareMeaning(path);
    PartsOfPath(path);
  }

  lemma StringPrefix(root: string, path: string)
    requires root != "" && path != "" && Components(root) != []
    ensures var r, p := Normalize(root), Normalize(path);
            Inside(path, root) <==> p == r || r + "/" <= p
  {
    NormalParts(root);
    NormalParts(path);
    var r, p := Normalize(root), Normalize(path);
    if Inside(p, r) {
      InsideKeepsPrefix(p, r);
    } else if r + "/" <= p {
      PrefixIsInside(p, r);
    }
  }
}
