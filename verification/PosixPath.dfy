/**
 Lexical path arithmetic as Python's `posixpath` does it: `normpath` and `join` on strings.
 Exactly two leading slashes are kept, as section 4.13 of the POSIX.1-2017 Base Definitions allows.
 */
module PosixPath {
  import opened Text

  predicate IsAbs(path: string) {
    path != "" && path[0] == '/'
  }

  function LeadingSlashes(path: string): (n: nat)
    ensures n <= 2
  {
    if !IsAbs(path) then 0
    else if |path| >= 2 && path[1] == '/' && !(|path| >= 3 && path[2] == '/') then 2
    else 1
  }

  // `path.split("/")`
  function Split(path: string): (parts: seq<string>)
    ensures parts != []
  {
    if path == "" then [""] else Attach(path[0], Split(path[1..]))
  }

  // A character in front of a split text: a slash starts a new part.
  function Attach(c: char, parts: seq<string>): (more: seq<string>)
    requires parts != []
    ensures more != []
  {
    if c == '/' then [""] + parts else [[c] + parts[0]] + parts[1..]
  }

  // One component against the components kept so far.
  function Push(abs: bool, kept: seq<string>, comp: string): seq<string> {
    if comp == "" || comp == "." then kept
    else if comp != ".." || (!abs && kept == []) || (kept != [] && kept[|kept| - 1] == "..") then kept + [comp]
    else if kept != [] then kept[..|kept| - 1]
    else kept
  }

  function PushAll(abs: bool, kept: seq<string>, comps: seq<string>): seq<string> {
    if comps == [] then kept
    else Push(abs, PushAll(abs, kept, comps[..|comps| - 1]), comps[|comps| - 1])
  }

  function Slashes(n: nat): string {
    if n == 0 then "" else Slashes(n - 1) + "/"
  }

  function Render(slashes: nat, comps: seq<string>): string {
    var path := Slashes(slashes) + JoinWith("/", comps);
    if path == "" then "." else path
  }

  // The components a path resolves to.
  function Components(path: string): seq<string> {
    PushAll(IsAbs(path), [], Split(path))
  }

  function Normalize(path: string): string {
    if path == "" then "." else Render(LeadingSlashes(path), Components(path))
  }

  function Join(a: string, b: string): string {
    if IsAbs(b) then b
    else if a == "" || a[|a| - 1] == '/' then a + b
    else a + "/" + b
  }

  /******* Splitting *******/

  lemma SplitCons(c: char, tail: string)
    ensures Split([c] + tail) == Attach(c, Split(tail))
  {
    assert ([c] + tail)[1..] == tail;
  }

  lemma AttachAppend(c: char, a: seq<string>, b: seq<string>)
    requires a != []
    ensures Attach(c, a + b) == Attach(c, a) + b
  {
    assert (a + b)[1..] == a[1..] + b;
  }

  lemma {:induction false} SplitAtSlash(a: string, b: string)
    ensures Split(a + "/" + b) == Split(a) + Split(b)
  {
    if a == "" {
      SplitCons('/', b);
      assert a + "/" + b == ['/'] + b;
    } else {
      var tail := a[1..] + "/" + b;
      SplitAtSlash(a[1..], b);
      SplitCons(a[0], tail);
      AttachAppend(a[0], Split(a[1..]), Split(b));
      assert a + "/" + b == [a[0]] + tail by {
        assert a == [a[0]] + a[1..];
      }
    }
  }

  lemma {:induction false} SplitPlain(s: string)
    requires '/' !in s
    ensures Split(s) == [s]
  {
    if s != "" {
      SplitPlain(s[1..]);
      assert [s[0]] + s[1..] == s;
    }
  }

  lemma SplitHasNoSlash(path: string)
    ensures forall c :: c in Split(path) ==> '/' !in c
  {}

  /******* Normal component lists *******/

  predicate Proper(comp: string) {
    comp != "" && comp != "." && '/' !in comp
  }

  // What normalisation leaves: proper components, and `..` only as the leading run of a relative path.
  predicate Normal(abs: bool, comps: seq<string>) {
    && (forall c :: c in comps ==> Proper(c))
    && (abs ==> ".." !in comps)
    && (forall i, j :: 0 <= i < j < |comps| && comps[j] == ".." ==> comps[i] == "..")
  }

  lemma PushLast(abs: bool, kept: seq<string>, comps: seq<string>, last: string)
    ensures PushAll(abs, kept, comps + [last]) == Push(abs, PushAll(abs, kept, comps), last)
  {
    assert (comps + [last])[..|comps|] == comps;
  }

  lemma PushOne(abs: bool, kept: seq<string>, comp: string)
    ensures PushAll(abs, kept, [comp]) == Push(abs, kept, comp)
  {
    assert [comp][..0] == [];
  }

  lemma {:induction false} PushAllIsNormal(abs: bool, kept: seq<string>, comps: seq<string>)
    requires Normal(abs, kept) && forall c :: c in comps ==> '/' !in c
    ensures Normal(abs, PushAll(abs, kept, comps))
  {
    if comps != [] {
      var init, comp := comps[..|comps| - 1], comps[|comps| - 1];
      PushAllIsNormal(abs, kept, init);
      PushIsNormal(abs, PushAll(abs, kept, init), comp);
    }
  }

  lemma PushIsNormal(abs: bool, kept: seq<string>, comp: string)
    requires Normal(abs, kept) && '/' !in comp
    ensures Normal(abs, Push(abs, kept, comp))
  {
    if Push(abs, kept, comp) == kept + [comp] {
      if comp == ".." && kept != [] {
        assert forall i :: 0 <= i < |kept| ==> kept[i] == "..";
      }
    }
  }

  lemma {:induction false} NormalIsKept(abs: bool, comps: seq<string>)
    requires Normal(abs, comps)
    ensures PushAll(abs, [], comps) == comps
  {
    if comps != [] {
      var init, comp := comps[..|comps| - 1], comps[|comps| - 1];
      NormalLast(abs, init, comp, comps);
      NormalIsKept(abs, init);
      PushLast(abs, [], init, comp);
    }
  }

  lemma NormalLast(abs: bool, init: seq<string>, comp: string, comps: seq<string>)
    requires comps == init + [comp] && Normal(abs, comps)
    ensures Normal(abs, init) && Push(abs, init, comp) == comps
  {
    assert forall i :: 0 <= i < |init| ==> comps[i] == init[i];
    assert comp == comps[|init|] && Proper(comp);
    if comp == ".." && init != [] {
      assert init[|init| - 1] == comps[|init| - 1] == "..";
    }
    forall c | c in init
      ensures c in comps
    {}
  }

  lemma {:induction false} PushInPieces(abs: bool, kept: seq<string>, a: seq<string>, b: seq<string>)
    ensures PushAll(abs, kept, a + b) == PushAll(abs, PushAll(abs, kept, a), b)
  {
    if b == [] {
      assert a + b == a;
    } else {
      var init, last := b[..|b| - 1], b[|b| - 1];
      PushInPieces(abs, kept, a, init);
      PushLast(abs, kept, a + init, last);
      PushLast(abs, PushAll(abs, kept, a), init, last);
      assert b == init + [last] && a + b == (a + init) + [last];
    }
  }

  /******* A rendered path reads back *******/

  function Blanks(n: nat): seq<string> {
    if n == 0 then [] else [""] + Blanks(n - 1)
  }

  lemma {:induction false} SplitGlue(comps: seq<string>)
    requires comps != [] && forall c :: c in comps ==> Proper(c)
    ensures Split(JoinWith("/", comps)) == comps
  {
    var n := |comps| - 1;
    assert Proper(comps[n]);
    SplitPlain(comps[n]);
    if n == 0 {
      assert comps == [comps[0]];
    } else {
      SplitGlue(comps[..n]);
      SplitAtSlash(JoinWith("/", comps[..n]), comps[n]);
      assert comps == comps[..n] + [comps[n]];
    }
  }

  lemma {:induction false} GlueStartsPlain(comps: seq<string>)
    requires comps != [] && forall c :: c in comps ==> Proper(c)
    ensures JoinWith("/", comps) != "" && JoinWith("/", comps)[0] != '/'
  {
    assert Proper(comps[0]);
    if |comps| > 1 {
      GlueStartsPlain(comps[..|comps| - 1]);
    }
  }

  lemma {:induction false} SplitSlashes(n: nat, rest: string)
    ensures Split(Slashes(n) + rest) == Blanks(n) + Split(rest)
  {
    if n == 0 {
      assert Slashes(0) + rest == rest;
    } else {
      var tail := Slashes(n - 1) + rest;
      SplitSlashes(n - 1, rest);
      SlashFirst(n);
      assert Slashes(n) + rest == ['/'] + tail;
      SplitCons('/', tail);
      Associative([""], Blanks(n - 1), Split(rest));
    }
  }

  lemma SplitRendered(slashes: nat, comps: seq<string>)
    requires comps != [] && forall c :: c in comps ==> Proper(c)
    ensures Render(slashes, comps) == Slashes(slashes) + JoinWith("/", comps)
    ensures Split(Render(slashes, comps)) == Blanks(slashes) + comps
  {
    SplitGlue(comps);
    GlueStartsPlain(comps);
    SplitSlashes(slashes, JoinWith("/", comps));
  }

  lemma SlashFirst(n: nat)
    requires n > 0
    ensures Slashes(n) == "/" + Slashes(n - 1)
  {
    if n > 1 {
      SlashFirst(n - 1);
    }
  }

  lemma PushBlanks(abs: bool, kept: seq<string>, n: nat, comps: seq<string>)
    ensures PushAll(abs, kept, Blanks(n) + comps) == PushAll(abs, kept, comps)
  {
    if n == 0 {
      assert Blanks(0) + comps == comps;
    } else {
      assert Blanks(n) + comps == [""] + (Blanks(n - 1) + comps);
      PushInPieces(abs, kept, [""], Blanks(n - 1) + comps);
      PushOne(abs, kept, "");
      PushBlanks(abs, kept, n - 1, comps);
    }
  }

  lemma {:induction false} RenderedReadsBack(slashes: nat, comps: seq<string>, kept: seq<string>)
    requires slashes <= 2 && Normal(slashes > 0, comps)
    ensures var path := Render(slashes, comps);
            && path != "" && LeadingSlashes(path) == slashes
            && PushAll(slashes > 0, kept, Split(path)) == PushAll(slashes > 0, kept, comps)
  {
    if comps == [] {
      RenderedNothing(slashes);
      PushNothing(slashes > 0, kept, Split(Render(slashes, [])));
    } else {
      GlueStartsPlain(comps);
      SplitRendered(slashes, comps);
      PushBlanks(slashes > 0, kept, slashes, comps);
      RenderedSlashes(slashes, JoinWith("/", comps));
    }
  }

  lemma RenderedNothing(slashes: nat)
    requires slashes <= 2
    ensures Render(slashes, []) == if slashes == 0 then "." else if slashes == 1 then "/" else "//"
    ensures LeadingSlashes(Render(slashes, [])) == slashes
    ensures forall c :: c in Split(Render(slashes, [])) ==> c == "" || c == "."
  {
    assert Slashes(1) == "/" && Slashes(2) == "//";
    SplitPlain("");
    SplitPlain(".");
    SplitCons('/', "");
    SplitCons('/', "/");
  }

  lemma RenderedSlashes(slashes: nat, rest: string)
    requires slashes <= 2 && rest != "" && rest[0] != '/'
    ensures LeadingSlashes(Slashes(slashes) + rest) == slashes
  {
    assert Slashes(0) == "" && Slashes(1) == "/" && Slashes(2) == "//";
    var path := Slashes(slashes) + rest;
    assert path[slashes] == rest[0];
  }

  lemma {:induction false} PushNothing(abs: bool, kept: seq<string>, comps: seq<string>)
    requires forall c :: c in comps ==> c == "" || c == "."
    ensures PushAll(abs, kept, comps) == kept
  {
    if comps != [] {
      var init := comps[..|comps| - 1];
      assert forall c :: c in init ==> c in comps;
      PushNothing(abs, kept, init);
      assert comps[|comps| - 1] in comps;
    }
  }

  // A path and its normal form have the same leading slashes and resolve to the same components.
  lemma {:induction false} NormalForm(path: string)
    ensures Normalize(path) != ""
    ensures LeadingSlashes(Normalize(path)) == LeadingSlashes(path)
    ensures Components(Normalize(path)) == Components(path)
    ensures Normal(IsAbs(path), Components(path))
    ensures Normalize(path) == Render(LeadingSlashes(path), Components(path))
  {
    SplitHasNoSlash(path);
    PushAllIsNormal(IsAbs(path), [], Split(path));
    NormalIsKept(IsAbs(path), Components(path));
    RenderedReadsBack(LeadingSlashes(path), Components(path), []);
    if path == "" {
      assert Split(path) == [""];
      PushNothing(false, [], [""]);
      assert Slashes(0) + JoinWith("/", []) == "";
    }
  }

  lemma {:induction false} NormalizeIdempotent(path: string)
    ensures Normalize(Normalize(path)) == Normalize(path)
  {
    NormalForm(path);
  }

  /******* Joining *******/

  // What a relative path is put after when it is joined to `a`.
  function Stem(a: string): string {
    if a == "" || a[|a| - 1] == '/' then a else a + "/"
  }

  lemma JoinRelative(a: string, b: string)
    requires !IsAbs(b)
    ensures Join(a, b) == Stem(a) + b
    ensures Stem(a + b) == if b == "" then Stem(a) else a + Stem(b)
    ensures Stem(Stem(a)) == Stem(a)
  {
    if b == "" {
      assert a + b == a;
    }
  }

  lemma JoinAssociative(a: string, b: string, c: string)
    ensures Join(a, Join(b, c)) == Join(Join(a, b), c)
  {
    if !IsAbs(c) {
      JoinRelative(b, c);
      JoinRelative(Join(a, b), c);
      if IsAbs(b) {
        assert IsAbs(Stem(b) + c);
      } else {
        JoinRelativeTwice(a, b, c);
      }
    }
  }

  lemma JoinRelativeTwice(a: string, b: string, c: string)
    requires !IsAbs(b) && !IsAbs(c)
    ensures Join(a, Stem(b) + c) == Stem(Join(a, b)) + c
  {
    JoinRelative(a, b);
    JoinRelative(Stem(a), b);
    assert !IsAbs(Stem(b) + c);
    JoinRelative(a, Stem(b) + c);
    if b == "" {
      assert Stem(b) + c == c;
    } else {
      assert Stem(a) + (Stem(b) + c) == (Stem(a) + Stem(b)) + c;
    }
  }

  lemma JoinKeepsSlashes(a: string, b: string)
    requires a != "" && !IsAbs(b)
    ensures Join(a, b) != "" && LeadingSlashes(Join(a, b)) == LeadingSlashes(a)
  {
    JoinRelative(a, b);
    var path := Stem(a) + b;
    assert path[0] == a[0];
    if |a| >= 2 {
      assert path[1] == a[1];
    }
    if |a| >= 3 {
      assert path[2] == a[2];
    }
  }

  lemma JoinSplits(abs: bool, a: string, b: string)
    requires a != "" && !IsAbs(b)
    ensures PushAll(abs, [], Split(Join(a, b))) == PushAll(abs, PushAll(abs, [], Split(a)), Split(b))
  {
    JoinRelative(a, b);
    if a[|a| - 1] == '/' {
      var init := a[..|a| - 1];
      assert a == init + "/" + "" && a + b == init + "/" + b;
      SplitAtSlash(init, "");
      SplitAtSlash(init, b);
      PushInPieces(abs, [], Split(init), Split(b));
      PushInPieces(abs, [], Split(init), [""]);
      PushNothing(abs, PushAll(abs, [], Split(init)), [""]);
    } else {
      SplitAtSlash(a, b);
      PushInPieces(abs, [], Split(a), Split(b));
    }
  }

  // Joining a relative path continues from the components of what it is joined to.
  lemma JoinContinues(a: string, b: string)
    requires a != "" && !IsAbs(b)
    ensures Join(a, b) != "" && LeadingSlashes(Join(a, b)) == LeadingSlashes(a)
    ensures Components(Join(a, b)) == PushAll(IsAbs(a), Components(a), Split(b))
  {
    JoinKeepsSlashes(a, b);
    JoinSplits(IsAbs(a), a, b);
  }

  // Normalising what a path is joined to changes nothing.
  lemma {:induction false} NormalizeBase(a: string, b: string)
    ensures Normalize(Join(Normalize(a), b)) == Normalize(Join(a, b))
  {
    if !IsAbs(b) {
      NormalForm(a);
      JoinContinues(Normalize(a), b);
      if a == "" {
        assert Join(a, b) == b;
        assert Components(a) == [] by { PushNothing(false, [], Split(a)); }
        if b == "" {
          assert Split(b) == [""];
          PushNothing(false, [], Split(b));
          assert Render(0, []) == ".";
        }
      } else {
        JoinContinues(a, b);
      }
    }
  }

  // Normalisation composes, for every root, base and pattern.
  lemma {:induction false} NormalizeComposes(root: string, base: string, pattern: string)
    ensures Normalize(Join(root, Join(base, pattern))) ==
            Normalize(Join(Normalize(Join(root, base)), pattern))
  {
    JoinAssociative(root, base, pattern);
    NormalizeBase(Join(root, base), pattern);
  }
}
