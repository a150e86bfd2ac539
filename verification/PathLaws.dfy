/** What one more component does to a path, on the strings themselves (src/toolbench/shell_safety.py). */
module PathLaws {
  import opened PosixPath
  import opened ShellSafety
  import opened Text

  // A component that names an entry of a directory.
  predicate Name(comp: string) {
    Proper(comp) && comp != ".."
  }

  lemma JoinOneComponent(p: string, comp: string)
    requires p != "" && '/' !in comp
    ensures Join(p, comp) != "" && LeadingSlashes(Join(p, comp)) == LeadingSlashes(p)
    ensures Components(Join(p, comp)) == Push(IsAbs(p), Components(p), comp)
    ensures Normalize(Join(p, comp)) == Render(LeadingSlashes(p), Components(Join(p, comp)))
  {
    JoinContinues(p, comp);
    SplitPlain(comp);
    PushOne(IsAbs(p), Components(p), comp);
    NormalForm(Join(p, comp));
  }

  // The empty path is read as ".".
  function Here(p: string): (q: string)
    ensures q != ""
  {
    if p == "" then "." else p
  }

  lemma HereIsSame(p: string, b: string)
    ensures Normalize(Here(p)) == Normalize(p)
    ensures Normalize(Join(Here(p), b)) == Normalize(Join(p, b))
  {
    NormalizeBase("", b);
    NormalizeIdempotent("");
  }

  // A parent step takes back the name before it.
  lemma {:induction false} ParentUndoesName(p: string, name: string)
    requires Name(name)
    ensures Normalize(Join(Join(p, name), "..")) == Normalize(p)
  {
    var q := Here(p);
    HereIsSame(p, name);
    NormalizeBase(Join(p, name), "..");
    NormalizeBase(Join(q, name), "..");
    NamedAndBack(q, name);
  }

  lemma NamedAndBack(q: string, name: string)
    requires q != "" && Name(name)
    ensures Normalize(Join(Join(q, name), "..")) == Normalize(q)
  {
    NormalForm(q);
    JoinOneComponent(q, name);
    JoinOneComponent(Join(q, name), "..");
  }

  // A dot, or nothing, stays where it is.
  lemma {:induction false} DotStays(p: string)
    ensures Normalize(Join(p, ".")) == Normalize(p)
    ensures Normalize(Join(p, "")) == Normalize(p)
  {
    var q := Here(p);
    HereIsSame(p, ".");
    HereIsSame(p, "");
    JoinOneComponent(q, ".");
    JoinOneComponent(q, "");
    NormalForm(q);
  }

  // A path of no components: here, or one of the two roots.
  predicate Bare(p: string) {
    Normalize(p) == "." || Normalize(p) == "/" || Normalize(p) == "//"
  }

  lemma NameLast(head: string, kept: seq<string>, last: string)
    requires last != ""
    ensures var path := head + JoinWith("/", kept + [last]);
            && path != "" && path[|path| - 1] == last[|last| - 1]
            && (kept == [] ==> path == head + last)
            && (kept != [] ==> path == head + JoinWith("/", kept) + "/" + last)
  {
    assert (kept + [last])[..|kept|] == kept;
    if kept == [] {
      assert kept + [last] == [last];
    } else {
      assert JoinWith("/", kept + [last]) == JoinWith("/", kept) + "/" + last;
      assert head + (JoinWith("/", kept) + "/" + last) == head + JoinWith("/", kept) + "/" + last;
    }
  }

  lemma RenderedName(slashes: nat, kept: seq<string>, last: string)
    requires last != ""
    ensures var path := Render(slashes, kept + [last]);
            && path != "" && path[|path| - 1] == last[|last| - 1]
            && (kept == [] ==> path == Slashes(slashes) + last)
            && (kept != [] ==> path == Slashes(slashes) + JoinWith("/", kept) + "/" + last)
  {
    NameLast(Slashes(slashes), kept, last);
  }

  lemma RenderedNext(slashes: nat, kept: seq<string>, last: string)
    requires kept != [] && kept[|kept| - 1] != "" && last != ""
    ensures Render(slashes, kept + [last]) == Render(slashes, kept) + "/" + last
  {
    NameLast(Slashes(slashes), kept, last);
    assert kept == kept[..|kept| - 1] + [kept[|kept| - 1]];
    NameLast(Slashes(slashes), kept[..|kept| - 1], kept[|kept| - 1]);
  }

  lemma NotBare(slashes: nat, comps: seq<string>)
    requires slashes <= 2 && comps != [] && Proper(comps[|comps| - 1])
    ensures Render(slashes, comps) !in {".", "/", "//"}
  {
    var last := comps[|comps| - 1];
    assert comps == comps[..|comps| - 1] + [last];
    RenderedName(slashes, comps[..|comps| - 1], last);
    SlashesLength(slashes);
    if |comps| == 1 && slashes == 0 {
      assert Slashes(0) + last == last;
    }
  }

  lemma BareMeaning(p: string)
    requires p != ""
    ensures Bare(p) <==> Components(p) == []
    ensures Components(p) == [] ==>
              Normalize(p) == if LeadingSlashes(p) == 0 then "." else if LeadingSlashes(p) == 1 then "/" else "//"
  {
    NormalForm(p);
    if Components(p) == [] {
      RenderedNothing(LeadingSlashes(p));
    } else {
      assert Components(p)[|Components(p)| - 1] in Components(p);
      NotBare(LeadingSlashes(p), Components(p));
    }
  }

  lemma BelowRendered(slashes: nat, comps: seq<string>, name: string)
    requires slashes <= 2 && Name(name) && forall c :: c in comps ==> Proper(c)
    ensures var path := Render(slashes, comps);
            Render(slashes, comps + [name]) == if path == "." then name else Join(path, name)
  {
    if comps == [] {
      RenderedName(slashes, [], name);
      BelowBare(slashes, name);
    } else {
      var init, last := comps[..|comps| - 1], comps[|comps| - 1];
      assert last in comps && comps == init + [last];
      RenderedNext(slashes, comps, name);
      RenderedName(slashes, init, last);
      NotBare(slashes, comps);
      BelowText(Render(slashes, comps), last, name);
    }
  }

  lemma BelowBare(slashes: nat, name: string)
    requires slashes <= 2 && Name(name)
    ensures var path := Render(slashes, []);
            Slashes(slashes) + name == if path == "." then name else Join(path, name)
  {
    RenderedNothing(slashes);
    assert Slashes(0) == "" && Slashes(1) == "/" && Slashes(2) == "//";
  }

  lemma BelowText(path: string, last: string, name: string)
    requires path != "" && Proper(last) && path[|path| - 1] == last[|last| - 1] && Name(name)
    ensures Join(path, name) == path + "/" + name
  {
    assert last[|last| - 1] in last;
  }

  // A name goes below.
  lemma {:induction false} NameGoesBelow(p: string, name: string)
    requires Name(name)
    ensures Normalize(Join(p, name)) == if Normalize(p) == "." then name else Join(Normalize(p), name)
  {
    var q := Here(p);
    HereIsSame(p, name);
    NormalForm(q);
    JoinOneComponent(q, name);
    BelowRendered(LeadingSlashes(q), Components(q), name);
  }

  // Above a root there is nothing.
  lemma {:induction false} NothingAboveRoot(p: string)
    requires Normalize(p) == "/" || Normalize(p) == "//"
    ensures Normalize(Join(p, "..")) == Normalize(p)
  {
    assert Normalize("") == ".";
    NormalForm(p);
    BareMeaning(p);
    JoinOneComponent(p, "..");
  }

  // In front of a relative path, and after another parent step that stayed, the step stays.
  lemma {:induction false} ParentStays(p: string)
    requires Normalize(p) == "." || ClimbsUp(Normalize(p))
    ensures Normalize(Join(p, "..")) == if Normalize(p) == "." then ".." else Normalize(p) + "/.."
  {
    var q := Here(p);
    var slashes, comps := LeadingSlashes(q), Components(q);
    HereIsSame(p, "..");
    NormalForm(q);
    BareMeaning(q);
    LastIsParent(q);
    JoinOneComponent(q, "..");
    RenderedParent(slashes, comps);
  }

  lemma RenderedParent(slashes: nat, comps: seq<string>)
    requires if comps == [] then slashes == 0 else comps[|comps| - 1] == ".."
    ensures Render(slashes, comps + [".."]) == if comps == [] then ".." else Render(slashes, comps) + "/.."
  {
    if comps == [] {
      RenderedName(0, [], "..");
      assert Slashes(0) + ".." == "..";
    } else {
      RenderedNext(slashes, comps, "..");
    }
  }

  // Ends in a parent step.
  predicate ClimbsUp(path: string) {
    path == ".." || (|path| >= 3 && path[|path| - 3..] == "/..")
  }

  lemma LastIsParent(p: string)
    requires p != ""
    ensures ClimbsUp(Normalize(p)) <==> Components(p) != [] && Components(p)[|Components(p)| - 1] == ".."
  {
    NormalForm(p);
    BareMeaning(p);
    var slashes, comps := LeadingSlashes(p), Components(p);
    if comps != [] {
      var init, last := comps[..|comps| - 1], comps[|comps| - 1];
      assert Proper(last) && comps == init + [last];
      RenderedName(slashes, init, last);
      SlashesLength(slashes);
      EndsInLast(slashes, init, last);
    }
  }

  lemma EndsInLast(slashes: nat, init: seq<string>, last: string)
    requires slashes <= 2 && Proper(last) && (slashes > 0 ==> init != [] || last != "..")
    ensures ClimbsUp(Render(slashes, init + [last])) <==> last == ".."
  {
    RenderedName(slashes, init, last);
    var path := Render(slashes, init + [last]);
    if init == [] && slashes == 0 {
      assert Slashes(0) + last == last && path == last;
      EndsInSlash("", last);
    } else if init == [] {
      EndsInSlash(Slashes(slashes), last);
    } else {
      EndsInSlash(Slashes(slashes) + JoinWith("/", init) + "/", last);
    }
  }

  // Text that ends in a slash, or nothing, in front of a name without one.
  lemma EndsInSlash(head: string, last: string)
    requires '/' !in last && last != "" && (head != "" ==> head[|head| - 1] == '/')
    ensures ClimbsUp(head + last) <==> last == ".."
  {
    var path := head + last;
    if |last| >= 3 {
      assert path[|path| - 3] == last[|last| - 3];
    } else if head != "" {
      assert path[|path| - |last|..] == last && path[|path| - |last| - 1] == '/';
      if |path| >= 3 {
        assert path[|path| - 3..] == [path[|path| - 3], path[|path| - 2], path[|path| - 1]];
      }
    }
  }

  // There is no other path: it is bare, it climbs up, or its last step is a name.
  lemma {:induction false} StepsOfAPath(p: string)
    ensures Bare(p) || ClimbsUp(Normalize(p)) ||
            exists q, name :: Name(name) && Normalize(p) == Normalize(Join(q, name))
  {
    NormalForm(p);
    if p != "" && !Bare(p) && !ClimbsUp(Normalize(p)) {
      BareMeaning(p);
      LastIsParent(p);
      var slashes, comps := LeadingSlashes(p), Components(p);
      var init, name := comps[..|comps| - 1], comps[|comps| - 1];
      assert Name(name) && comps == init + [name];
      NormalLast(IsAbs(p), init, name, comps);
      NormalIsKept(IsAbs(p), init);
      RenderedReadsBack(slashes, init, []);
      JoinOneComponent(Render(slashes, init), name);
    }
  }

  /******* Slashes *******/

  lemma SlashInFront(path: string)
    ensures IsAbs("/" + path)
    ensures Components("/" + path) == PushAll(true, [], Split(path))
  {
    SplitCons('/', path);
    PushInPieces(true, [], [""], Split(path));
    PushOne(true, [], "");
  }

  lemma SlashesCounted(path: string)
    ensures LeadingSlashes("///" + path) == 1
    ensures !IsAbs(path) ==> LeadingSlashes("/" + path) == 1 && LeadingSlashes("//" + path) == 2
  {}

  // Two slashes in front are kept, three or more are one.
  lemma {:induction false} SlashesInFront(path: string)
    ensures Normalize("////" + path) == Normalize("///" + path)
    ensures !IsAbs(path) ==> Normalize("///" + path) == Normalize("/" + path)
    ensures !IsAbs(path) ==> Normalize("//" + path) == "/" + Normalize("/" + path)
  {
    var one, two, three := "/" + path, "//" + path, "///" + path;
    assert two == "/" + one && three == "/" + two && "////" + path == "/" + three;
    SlashInFront(path);
    SlashInFront(one);
    SlashInFront(two);
    SlashInFront(three);
    SlashesCounted(path);
    SlashesCounted(one);
    SlashOnce(PushAll(true, [], Split(path)));
  }

  lemma SlashOnce(comps: seq<string>)
    ensures Render(2, comps) == "/" + Render(1, comps)
  {
    assert Slashes(1) == "/" && Slashes(2) == "//";
  }

  lemma SlashTwiceBehind(abs: bool, init: string)
    ensures PushAll(abs, [], Split(init + "/" + "/")) == PushAll(abs, [], Split(init + "/" + ""))
  {
    SplitAtSlash(init, "");
    SplitAtSlash(init, "/");
    SplitCons('/', "");
    assert "/" == ['/'] + "" && Split("/") == ["", ""];
    PushInPieces(abs, [], Split(init), [""]);
    PushInPieces(abs, [], Split(init), ["", ""]);
    PushNothing(abs, PushAll(abs, [], Split(init)), ["", ""]);
    PushNothing(abs, PushAll(abs, [], Split(init)), [""]);
  }

  // A slash more behind a path that is no mere "/" changes nothing.
  lemma {:induction false} SlashBehind(p: string)
    requires p !in {"", "/", "//"}
    ensures Normalize(p + "/") == Normalize(p)
  {
    if p[|p| - 1] == '/' {
      var init := p[..|p| - 1];
      assert p == init + "/" + "" && p + "/" == init + "/" + "/";
      SlashTwiceBehind(IsAbs(p), init);
      assert IsAbs(p) && |p| == 2 ==> p == "//";
      assert LeadingSlashes(p + "/") == LeadingSlashes(p);
    } else {
      DotStays(p);
      assert Join(p, "") == p + "/";
    }
  }

  /******* The audit *******/

  lemma LeafOfRoot(root: string, parent: string, leaf: string)
    requires Normalize(root) == root == Join(parent, leaf) && Name(leaf)
    ensures root != "" && Components(root) != []
    ensures Components(root)[|Components(root)| - 1] == leaf
    ensures Components(Join(root, "..")) == Components(root)[..|Components(root)| - 1]
  {
    NormalForm(root);
    var q := Here(parent);
    HereIsSame(parent, leaf);
    JoinOneComponent(q, leaf);
    NormalForm(Join(q, leaf));
    JoinOneComponent(root, "..");
  }

  lemma StepEscapes(path: string, root: string)
    requires Normalize(root) == root && Components(root) != [] && !IsAbs(path)
    ensures PathEscapes(path, root) <==> !(Components(root) <= Components(Join(root, path)))
  {
    NormalForm(root);
    JoinContinues(root, path);
    EscapesDecidesContainment(path, root);
    NormalForm(Join(root, path));
  }

  lemma PushSteps(abs: bool, comps: seq<string>, name: string)
    requires comps != [] && comps[|comps| - 1] != ".." && Name(name)
    ensures Push(abs, comps, "..") == comps[..|comps| - 1]
    ensures Push(abs, comps, name) == comps + [name]
    ensures Push(abs, comps[..|comps| - 1], name) == comps[..|comps| - 1] + [name]
  {}

  // The components reached from a root by "..", by a name, and by one after the other.
  lemma StepsFromRoot(root: string, name: string)
    requires root != "" && Components(root) != [] && Name(name)
    requires Components(root)[|Components(root)| - 1] != ".."
    ensures var comps := Components(root);
            && Components(Join(root, "..")) == comps[..|comps| - 1]
            && Components(Join(root, name)) == comps + [name]
            && Components(Join(root, "../" + name)) == comps[..|comps| - 1] + [name]
  {
    PushSteps(IsAbs(root), Components(root), name);
    JoinContinues(root, "../" + name);
    StepSplits(name);
    PushInPieces(IsAbs(root), Components(root), [".."], [name]);
    PushOne(IsAbs(root), Components(root), "..");
    PushOne(IsAbs(root), Push(IsAbs(root), Components(root), ".."), name);
    JoinOneComponent(root, "..");
    JoinOneComponent(root, name);
  }

  lemma StepSplits(name: string)
    requires Name(name)
    ensures !IsAbs("../" + name) && Split("../" + name) == [".."] + [name]
  {
    assert "../" + name == ".." + "/" + name;
    SplitAtSlash("..", name);
    SplitPlain("..");
    SplitPlain(name);
  }

  // Below a root that ends in a name: the parent lies outside, of what lies in the parent only the root
  // itself does not, and every name lies inside.
  lemma {:induction false} ParentEscapes(root: string, parent: string, leaf: string, name: string)
    requires Normalize(root) == root == Join(parent, leaf) && Name(leaf) && Name(name)
    ensures PathEscapes("..", root)
    ensures PathEscapes("../" + name, root) <==> name != leaf
    ensures !PathEscapes(name, root)
  {
    LeafOfRoot(root, parent, leaf);
    StepsFromRoot(root, name);
    StepEscapes("..", root);
    StepEscapes("../" + name, root);
    StepEscapes(name, root);
    OtherLeaf(Components(root), name);
  }

  lemma OtherLeaf(comps: seq<string>, name: string)
    requires comps != []
    ensures !(comps <= comps[..|comps| - 1])
    ensures comps <= comps[..|comps| - 1] + [name] <==> name == comps[|comps| - 1]
  {
    assert comps == comps[..|comps| - 1] + [comps[|comps| - 1]];
  }
}
