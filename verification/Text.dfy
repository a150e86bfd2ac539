/**
 The string operations of Python that the model needs.

 Blanks are those of `str.isspace`. Stripping takes them off both ends, splitting into words cuts at
 them, joining puts a separator between the parts, and partitioning cuts at the first occurrence of
 a character.

 What is proved here is what the callers rely on: stripping a trimmed text changes nothing, the words
 of joined words are those words, and partitioning undoes a join.
 */
module Text {

  // `str.isspace` for one character.
  predicate IsSpace(c: char) {
    var n := c as int;
    || 0x09 <= n <= 0x0D || 0x1C <= n <= 0x20 || n == 0x85 || n == 0xA0 || n == 0x1680
    || 0x2000 <= n <= 0x200A || n == 0x2028 || n == 0x2029 || n == 0x202F || n == 0x205F || n == 0x3000
  }

  function LeftStrip(s: string): string {
    if s != "" && IsSpace(s[0]) then LeftStrip(s[1..]) else s
  }

  function RightStrip(s: string): string {
    if s != "" && IsSpace(s[|s| - 1]) then RightStrip(s[..|s| - 1]) else s
  }

  // `str.strip()`
  function Strip(s: string): string {
    RightStrip(LeftStrip(s))
  }

  // No blank at either end.
  predicate Trimmed(s: string) {
    s == "" || (!IsSpace(s[0]) && !IsSpace(s[|s| - 1]))
  }

  lemma TrimmedStays(s: string)
    requires Trimmed(s)
    ensures Strip(s) == s
  {}

  lemma {:induction false} LeftStripTrims(s: string)
    ensures LeftStrip(s) == "" || !IsSpace(LeftStrip(s)[0])
    ensures Trimmed(s) ==> LeftStrip(s) == s
    ensures |LeftStrip(s)| <= |s| && LeftStrip(s) == s[|s| - |LeftStrip(s)|..]
  {
    if s != "" && IsSpace(s[0]) {
      LeftStripTrims(s[1..]);
    }
  }

  lemma {:induction false} RightStripTrims(s: string)
    ensures RightStrip(s) == "" || !IsSpace(RightStrip(s)[|RightStrip(s)| - 1])
    ensures |RightStrip(s)| <= |s| && RightStrip(s) == s[..|RightStrip(s)|]
  {
    if s != "" && IsSpace(s[|s| - 1]) {
      RightStripTrims(s[..|s| - 1]);
    }
  }

  // `sep.join(parts)`
  function JoinWith(sep: string, parts: seq<string>): string {
    if parts == [] then ""
    else if |parts| == 1 then parts[0]
    else JoinWith(sep, parts[..|parts| - 1]) + sep + parts[|parts| - 1]
  }

  lemma JoinLast(sep: string, parts: seq<string>, last: string)
    ensures JoinWith(sep, parts + [last]) == if parts == [] then last else JoinWith(sep, parts) + sep + last
  {
    assert (parts + [last])[..|parts|] == parts;
  }

  // The end of the word a text starts with.
  function WordEnd(s: string): (n: nat)
    ensures n <= |s|
    ensures forall i :: 0 <= i < n ==> !IsSpace(s[i])
    ensures n < |s| ==> IsSpace(s[n])
  {
    if s == "" || IsSpace(s[0]) then 0 else 1 + WordEnd(s[1..])
  }

  // `str.split()`
  function Words(s: string): seq<string>
    decreases |s|
  {
    if s == "" then []
    else if IsSpace(s[0]) then Words(s[1..])
    else [s[..WordEnd(s)]] + Words(s[WordEnd(s)..])
  }

  predicate IsWord(s: string) {
    s != "" && forall c :: c in s ==> !IsSpace(c)
  }

  // A text ends a word where a blank, or nothing, follows.
  lemma {:induction false} WordsAppend(a: string, b: string)
    requires b == "" || IsSpace(b[0])
    ensures Words(a + b) == Words(a) + Words(b)
    decreases |a|
  {
    if a == "" {
      assert a + b == b && Words(a) == [];
    } else if IsSpace(a[0]) {
      WordsAppend(a[1..], b);
      BlankFirst(a);
      BlankFirst(a + b);
      assert (a + b)[1..] == a[1..] + b;
    } else {
      var n := WordEnd(a);
      WordsAppend(a[n..], b);
      WordEndAppend(a, b);
      FirstWord(a, n);
      FirstWord(a + b, n);
      CutInFirst(a, b, n);
      Associative([a[..n]], Words(a[n..]), Words(b));
    }
  }

  lemma BlankFirst(s: string)
    requires s != "" && IsSpace(s[0])
    ensures Words(s) == Words(s[1..])
  {}

  lemma CutInFirst(a: string, b: string, n: nat)
    requires n <= |a|
    ensures (a + b)[..n] == a[..n] && (a + b)[n..] == a[n..] + b
  {}

  lemma Associative<T>(a: seq<T>, b: seq<T>, c: seq<T>)
    ensures a + (b + c) == (a + b) + c
  {}

  lemma FirstWord(s: string, n: nat)
    requires s != "" && !IsSpace(s[0]) && n == WordEnd(s)
    ensures Words(s) == [s[..n]] + Words(s[n..])
  {}

  lemma WordEndAppend(a: string, b: string)
    requires b == "" || IsSpace(b[0])
    ensures WordEnd(a + b) == WordEnd(a)
  {
    assert forall i :: 0 <= i < |a| ==> (a + b)[i] == a[i];
    assert b != "" ==> (a + b)[|a|] == b[0];
  }

  lemma OneWord(w: string)
    requires IsWord(w)
    ensures Words(w) == [w]
  {
    assert forall i :: 0 <= i < |w| ==> w[i] in w;
    assert w[..|w|] == w && w[|w|..] == "";
  }

  // Words joined by blanks read back.
  lemma {:induction false} WordsOfJoin(parts: seq<string>)
    requires forall w :: w in parts ==> IsWord(w)
    ensures Words(JoinWith(" ", parts)) == parts
  {
    if parts != [] {
      var n := |parts| - 1;
      OneWord(parts[n]);
      if n > 0 {
        var init := parts[..n];
        WordsOfJoin(init);
        JoinLast(" ", init, parts[n]);
        assert parts == init + [parts[n]];
        var tail := " " + parts[n];
        assert tail[1..] == parts[n];
        WordsAppend(JoinWith(" ", init), tail);
        assert JoinWith(" ", init) + " " + parts[n] == JoinWith(" ", init) + tail;
      }
    }
  }

  // Stripping does not change the words.
  lemma {:induction false} WordsLeftStrip(s: string)
    ensures Words(LeftStrip(s)) == Words(s)
  {
    if s != "" && IsSpace(s[0]) {
      WordsLeftStrip(s[1..]);
    }
  }

  lemma {:induction false} WordsRightStrip(s: string)
    ensures Words(RightStrip(s)) == Words(s)
  {
    if s != "" && IsSpace(s[|s| - 1]) {
      var init, last := s[..|s| - 1], [s[|s| - 1]];
      WordsRightStrip(init);
      assert s == init + last && last[1..] == "";
      WordsAppend(init, last);
    }
  }

  lemma WordsStrip(s: string)
    ensures Words(Strip(s)) == Words(s)
  {
    WordsLeftStrip(s);
    WordsRightStrip(LeftStrip(s));
  }

  // `s.split(c, 1)[0]`: what stands before the first `c`.
  function Before(c: char, s: string): string {
    if s == "" || s[0] == c then "" else [s[0]] + Before(c, s[1..])
  }

  // What follows the first `c`.
  function After(c: char, s: string): string
    requires c in s
  {
    if s[0] == c then s[1..] else After(c, s[1..])
  }

  lemma {:induction false} BeforeAbsent(c: char, s: string)
    requires c !in s
    ensures Before(c, s) == s
  {
    if s != "" {
      assert s == [s[0]] + s[1..];
      BeforeAbsent(c, s[1..]);
    }
  }

  lemma {:induction false} SplitAt(c: char, a: string, b: string)
    requires c !in a
    ensures Before(c, a + [c] + b) == a
    ensures c in a + [c] + b && After(c, a + [c] + b) == b
  {
    var s := a + [c] + b;
    assert s[|a|] == c;
    if a == "" {
      assert s == [c] + b && s[1..] == b;
    } else {
      SplitAt(c, a[1..], b);
      assert s[1..] == a[1..] + [c] + b;
      assert a == [a[0]] + a[1..];
    }
  }
}
