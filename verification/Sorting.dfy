/**
 Sorting the way Python's `sorted` does it, and what makes the result canonical.

 Strings are compared code point by code point. Two lists sort to the same list exactly when they
 hold the same items equally often, so sorting the members of a set gives one list, whatever order
 the set is walked in.
 */
module Sorting {

  ghost predicate TotalOrder<T(!new)>(leq: (T, T) -> bool) {
    && (forall a, b :: leq(a, b) || leq(b, a))
    && (forall a, b :: leq(a, b) && leq(b, a) ==> a == b)
    && (forall a, b, c :: leq(a, b) && leq(b, c) ==> leq(a, c))
  }

  /******* Strings *******/

  // Python's `a <= b` on strings: code point by code point, a proper prefix first.
  predicate StringLeq(a: string, b: string) {
    a == "" || (b != "" && (a[0] < b[0] || (a[0] == b[0] && StringLeq(a[1..], b[1..]))))
  }

  lemma {:induction false} StringLeqTotal(a: string, b: string)
    ensures StringLeq(a, b) || StringLeq(b, a)
    ensures StringLeq(a, b) && StringLeq(b, a) ==> a == b
  {
    if a != "" && b != "" {
      StringLeqTotal(a[1..], b[1..]);
      if a[0] == b[0] && a[1..] == b[1..] {
        assert a == [a[0]] + a[1..] && b == [b[0]] + b[1..];
      }
    }
  }

  lemma {:induction false} StringLeqTransitive(a: string, b: string, c: string)
    requires StringLeq(a, b) && StringLeq(b, c)
    ensures StringLeq(a, c)
  {
    if a != "" && a[0] == b[0] && b[0] == c[0] {
      StringLeqTransitive(a[1..], b[1..], c[1..]);
    }
  }

  // The strings part at position i, where a's character is the smaller one.
  predicate PartsAt(a: string, b: string, i: nat) {
    i < |a| && i < |b| && a[..i] == b[..i] && a[i] < b[i]
  }

  // a is a proper prefix of b, or smaller where they part.
  predicate Precedes(a: string, b: string) {
    a < b || exists i: nat :: i < |a| && PartsAt(a, b, i)
  }

  lemma PartsLater(c: char, a: string, b: string, i: nat)
    ensures PartsAt([c] + a, [c] + b, i + 1) <==> PartsAt(a, b, i)
  {
    var x, y := [c] + a, [c] + b;
    if i < |a| && i < |b| {
      assert x[..i + 1] == [c] + a[..i] && y[..i + 1] == [c] + b[..i];
      assert x[..i + 1][1..] == a[..i] && y[..i + 1][1..] == b[..i];
    }
  }

  lemma PrecedesBehind(c: char, a: string, b: string)
    ensures Precedes([c] + a, [c] + b) <==> Precedes(a, b)
  {
    var x, y := [c] + a, [c] + b;
    assert x[1..] == a && y[1..] == b;
    if Precedes(a, b) && !(a < b) {
      var i: nat :| i < |a| && PartsAt(a, b, i);
      PartsLater(c, a, b, i);
    }
    if Precedes(x, y) && !(x < y) {
      var i: nat :| i < |x| && PartsAt(x, y, i);
      PartsLater(c, a, b, i - 1);
    }
    PrefixBehind(c, a, b);
  }

  lemma PrefixBehind(c: char, a: string, b: string)
    ensures [c] + a < [c] + b <==> a < b
  {
    var x, y := [c] + a, [c] + b;
    if x < y {
      assert y[..|x|][1..] == b[..|a|] && x[1..] == a;
    }
    if a < b {
      assert y[..|x|] == [c] + b[..|a|];
    }
  }

  lemma {:induction false} StringOrder(a: string, b: string)
    ensures StringLeq(a, b) <==> a == b || Precedes(a, b)
  {
    if a != "" && b != "" {
      assert a == [a[0]] + a[1..] && b == [b[0]] + b[1..];
      if a[0] == b[0] {
        StringOrder(a[1..], b[1..]);
        PrecedesBehind(a[0], a[1..], b[1..]);
      } else {
        FirstParts(a, b);
      }
    }
  }

  lemma FirstParts(a: string, b: string)
    requires a != "" && b != "" && a[0] != b[0]
    ensures Precedes(a, b) <==> a[0] < b[0]
  {
    assert a[0] < b[0] ==> PartsAt(a, b, 0);
    forall i: nat | PartsAt(a, b, i)
      ensures i == 0
    {
      SameBefore(a, b, i);
    }
  }

  lemma SameBefore(a: string, b: string, i: nat)
    requires PartsAt(a, b, i)
    ensures i > 0 ==> a[0] == b[0]
  {
    if i > 0 {
      assert a[..i][0] == b[..i][0];
    }
  }

  lemma StringsAreOrdered()
    ensures TotalOrder(StringLeq)
  {
    forall a, b {
      StringLeqTotal(a, b);
    }
    forall a, b, c | StringLeq(a, b) && StringLeq(b, c) {
      StringLeqTransitive(a, b, c);
    }
  }

  /******* Lists *******/

  predicate IsSorted<T>(leq: (T, T) -> bool, s: seq<T>) {
    forall i, j :: 0 <= i < j < |s| ==> leq(s[i], s[j])
  }

  function Insert<T>(leq: (T, T) -> bool, x: T, s: seq<T>): seq<T> {
    if s == [] || leq(x, s[0]) then [x] + s else [s[0]] + Insert(leq, x, s[1..])
  }

  // `sorted(items)`
  function Sorted<T>(leq: (T, T) -> bool, items: seq<T>): seq<T> {
    if items == [] then [] else Insert(leq, items[0], Sorted(leq, items[1..]))
  }

  // A sorted list stays sorted below a smaller head.
  lemma SortedBelow<T>(leq: (T, T) -> bool, x: T, s: seq<T>)
    requires IsSorted(leq, s) && forall y :: y in s ==> leq(x, y)
    ensures IsSorted(leq, [x] + s)
  {
    assert forall j :: 0 <= j < |s| ==> s[j] in s;
  }

  lemma {:induction false} InsertContent<T>(leq: (T, T) -> bool, x: T, s: seq<T>)
    ensures multiset(Insert(leq, x, s)) == multiset(s) + multiset{x}
  {
    if s != [] && !leq(x, s[0]) {
      InsertContent(leq, x, s[1..]);
      assert s == [s[0]] + s[1..];
    }
  }

  lemma HeadIsLeast<T(!new)>(leq: (T, T) -> bool, s: seq<T>, x: T)
    requires TotalOrder(leq) && IsSorted(leq, s) && x in s
    ensures leq(s[0], x)
  {
    assert leq(x, x);
  }

  lemma {:induction false} InsertSorts<T(!new)>(leq: (T, T) -> bool, x: T, s: seq<T>)
    requires TotalOrder(leq) && IsSorted(leq, s)
    ensures IsSorted(leq, Insert(leq, x, s))
  {
    if s == [] {
    } else if leq(x, s[0]) {
      forall y | y in s
        ensures leq(x, y)
      {
        HeadIsLeast(leq, s, y);
      }
      SortedBelow(leq, x, s);
    } else {
      InsertSorts(leq, x, s[1..]);
      InsertContent(leq, x, s[1..]);
      forall y | y in Insert(leq, x, s[1..])
        ensures leq(s[0], y)
      {
        assert y in multiset(Insert(leq, x, s[1..]));
        if y != x {
          assert y in s[1..];
          HeadIsLeast(leq, s, y);
        }
      }
      SortedBelow(leq, s[0], Insert(leq, x, s[1..]));
    }
  }

  lemma {:induction false} SortedIsSorted<T(!new)>(leq: (T, T) -> bool, items: seq<T>)
    requires TotalOrder(leq)
    ensures IsSorted(leq, Sorted(leq, items)) && multiset(Sorted(leq, items)) == multiset(items)
  {
    if items != [] {
      SortedIsSorted(leq, items[1..]);
      InsertSorts(leq, items[0], Sorted(leq, items[1..]));
      InsertContent(leq, items[0], Sorted(leq, items[1..]));
      assert items == [items[0]] + items[1..];
    }
  }

  lemma Tail<T>(leq: (T, T) -> bool, s: seq<T>)
    requires s != [] && IsSorted(leq, s)
    ensures s == [s[0]] + s[1..] && IsSorted(leq, s[1..])
    ensures multiset(s[1..]) == multiset(s) - multiset{s[0]}
  {
    assert s == [s[0]] + s[1..];
  }

  lemma SameHead<T(!new)>(leq: (T, T) -> bool, a: seq<T>, b: seq<T>)
    requires TotalOrder(leq) && IsSorted(leq, a) && IsSorted(leq, b)
    requires multiset(a) == multiset(b) && a != [] && b != []
    ensures a[0] == b[0]
  {
    assert a[0] in multiset(b) && b[0] in multiset(a);
    HeadIsLeast(leq, a, b[0]);
    HeadIsLeast(leq, b, a[0]);
  }

  // There is one sorted list of a given content.
  lemma {:induction false} SortedIsUnique<T(!new)>(leq: (T, T) -> bool, a: seq<T>, b: seq<T>)
    requires TotalOrder(leq) && IsSorted(leq, a) && IsSorted(leq, b) && multiset(a) == multiset(b)
    ensures a == b
  {
    assert |a| == |multiset(a)| == |multiset(b)| == |b|;
    if a != [] {
      SameHead(leq, a, b);
      Tail(leq, a);
      Tail(leq, b);
      SortedIsUnique(leq, a[1..], b[1..]);
    }
  }

  lemma {:induction false} SortedIsCanonical<T(!new)>(leq: (T, T) -> bool, a: seq<T>, b: seq<T>)
    requires TotalOrder(leq)
    ensures multiset(a) == multiset(b) <==> Sorted(leq, a) == Sorted(leq, b)
  {
    SortedIsSorted(leq, a);
    SortedIsSorted(leq, b);
    if multiset(a) == multiset(b) {
      SortedIsUnique(leq, Sorted(leq, a), Sorted(leq, b));
    }
  }

  /******* Sets *******/

  // The members of a set, each once, in no particular order.
  ghost function Listed<T>(s: set<T>): (items: seq<T>)
    ensures multiset(items) == multiset(s)
  {
    if s == {} then []
    else
      var x :| x in s;
      assert multiset(s) == multiset(s - {x}) + multiset{x};
      Listed(s - {x}) + [x]
  }

  // `sorted(s)` for a set.
  ghost function InOrder<T(!new)>(leq: (T, T) -> bool, s: set<T>): seq<T> {
    Sorted(leq, Listed(s))
  }

  // It is the one sorted list that holds each member once.
  lemma InOrderIs<T(!new)>(leq: (T, T) -> bool, s: set<T>, items: seq<T>)
    requires TotalOrder(leq)
    ensures items == InOrder(leq, s) <==> IsSorted(leq, items) && multiset(items) == multiset(s)
  {
    SortedIsSorted(leq, Listed(s));
    if IsSorted(leq, items) && multiset(items) == multiset(s) {
      SortedIsUnique(leq, items, InOrder(leq, s));
    }
  }

  lemma InOrderMembers<T(!new)>(leq: (T, T) -> bool, s: set<T>)
    requires TotalOrder(leq)
    ensures forall x :: x in InOrder(leq, s) <==> x in s
    ensures |InOrder(leq, s)| == |s|
    ensures forall i, j :: 0 <= i < j < |s| ==> InOrder(leq, s)[i] != InOrder(leq, s)[j]
  {
    var items := InOrder(leq, s);
    SortedIsSorted(leq, Listed(s));
    assert |items| == |multiset(items)| == |multiset(s)| == |s|;
    forall x
      ensures x in items <==> x in s
    {
      assert x in items <==> x in multiset(items);
      assert x in s <==> x in multiset(s);
    }
    forall i, j | 0 <= i < j < |s|
      ensures items[i] != items[j]
    {
      OnceEach(items, s, i, j);
    }
  }

  lemma OnceEach<T>(items: seq<T>, s: set<T>, i: nat, j: nat)
    requires multiset(items) == multiset(s) && i < j < |items|
    ensures items[i] != items[j]
  {
    assert items == items[..j] + [items[j]] + items[j + 1..];
    assert items[i] in multiset(items[..j]);
    assert multiset(items)[items[j]] == multiset(s)[items[j]] <= 1;
  }

  method ListInOrder<T(!new, ==)>(leq: (T, T) -> bool, s: set<T>) returns (items: seq<T>)
    requires TotalOrder(leq)
    ensures items == InOrder(leq, s)
  {
    items := [];
    var todo := s;
    while todo != {}
      invariant todo <= s
      invariant IsSorted(leq, items) && multiset(items) == multiset(s - todo)
      decreases todo
    {
      var x :| x in todo;
      InsertSorts(leq, x, items);
      InsertContent(leq, x, items);
      items := Insert(leq, x, items);
      assert s - (todo - {x}) == (s - todo) + {x};
      todo := todo - {x};
    }
    assert s - todo == s;
    InOrderIs(leq, s, items);
  }
}
