/**
 The corpus fingerprint before it is hashed (src/toolbench/report.py, `corpus_fingerprint` and
 `session_signature`).

 One line for each scanned session, sorted: its id and every count the summary shows for it.
 */
module Fingerprint {
  import opened Options
  import opened Decimals
  import opened Sorting

  // One scanned session: its identity and every count the summary shows for it.
  datatype Scanned = Scanned(id: string, calls: nat, malformed: nat, unjoinable: nat)

  function Signature(s: Scanned): string {
    s.id + "\t" + Decimal(s.calls) + "\t" + Decimal(s.malformed) + "\t" + Decimal(s.unjoinable)
  }

  // The field after the last tab.
  lemma LastField(a: string, x: string, b: string, y: string)
    requires a + "\t" + x == b + "\t" + y && '\t' !in x && '\t' !in y
    ensures a == b && x == y
  {
    var s := a + "\t" + x;
    assert s[|a|] == '\t' && s[|b|] == '\t';
    assert forall k :: |a| < k < |s| ==> s[k] in x;
    assert forall k :: |b| < k < |s| ==> s[k] in y;
    assert a == s[..|a|] && b == s[..|b|];
    assert x == s[|a| + 1..] && y == s[|b| + 1..];
  }

  lemma {:induction false} SignatureInjective(s: Scanned, t: Scanned)
    requires Signature(s) == Signature(t)
    ensures s == t
  {
    DecimalIsPlain(s.calls);
    DecimalIsPlain(t.calls);
    DecimalIsPlain(s.malformed);
    DecimalIsPlain(t.malformed);
    DecimalIsPlain(s.unjoinable);
    DecimalIsPlain(t.unjoinable);
    var a, b := s.id + "\t" + Decimal(s.calls), t.id + "\t" + Decimal(t.calls);
    LastField(a + "\t" + Decimal(s.malformed), Decimal(s.unjoinable),
              b + "\t" + Decimal(t.malformed), Decimal(t.unjoinable));
    LastField(a, Decimal(s.malformed), b, Decimal(t.malformed));
    LastField(s.id, Decimal(s.calls), t.id, Decimal(t.calls));
    DecimalInjective(s.calls, t.calls);
    DecimalInjective(s.malformed, t.malformed);
    DecimalInjective(s.unjoinable, t.unjoinable);
  }

  // A signature is the id and its counts, and a line break in it is one in the id.
  function Counts(s: Scanned): string {
    "\t" + Decimal(s.calls) + "\t" + Decimal(s.malformed) + "\t" + Decimal(s.unjoinable)
  }

  lemma SignatureParts(s: Scanned)
    ensures Signature(s) == s.id + Counts(s)
    ensures '\n' !in Counts(s) && '\t' in Counts(s)
  {
    DecimalIsPlain(s.calls);
    DecimalIsPlain(s.malformed);
    DecimalIsPlain(s.unjoinable);
    assert Counts(s)[0] == '\t';
  }

  // What the hash is fed: every item and a line break.
  function LinesOf(items: seq<string>): string {
    if items == [] then "" else items[0] + "\n" + LinesOf(items[1..])
  }

  // The digest stands for its input: the hash is taken to be injective.
  datatype CorpusFingerprint = CorpusFingerprint(hashed: string, count: nat)

  function FingerprintOf(signatures: seq<string>): CorpusFingerprint {
    CorpusFingerprint(LinesOf(Sorted(StringLeq, signatures)), |signatures|)
  }

  // Two lines as the hash is fed them: the smaller first, a line break behind each.
  lemma {:induction false} TwoLinesFed(x: string, y: string)
    requires !StringLeq(x, y)
    ensures FingerprintOf([x, y]).hashed == y + "\n" + x + "\n"
  {
    assert [x, y][1..] == [y] && [y][1..] == [];
    assert Sorted(StringLeq, [y]) == [y];
    assert Insert(StringLeq, x, []) == [x];
    assert Insert(StringLeq, x, [y]) == [y] + [x];
    assert [y, x][1..] == [x] && [x][1..] == [];
    assert LinesOf([x]) == x + "\n" + LinesOf([]);
    assert LinesOf([y, x]) == y + "\n" + LinesOf([x]);
  }

  // A session on its line: the id and the counts, each behind a tab.
  lemma {:induction false} SessionOnItsLine()
    ensures Signature(Scanned("b", 12, 0, 3)) == "b\t12\t0\t3"
  {
    assert Decimal(12) == Decimal(1) + "2" && Decimal(1) == "1";
  }

  method TakeFingerprint(signatures: seq<string>) returns (f: CorpusFingerprint)
    ensures f == FingerprintOf(signatures)
  {
    var items := Sorted(StringLeq, signatures);
    StringsAreOrdered();
    SortedIsSorted(StringLeq, signatures);
    assert |items| == |multiset(items)| == |multiset(signatures)| == |signatures|;
    var fed := "";
    for i := 0 to |items|
      invariant fed + LinesOf(items[i..]) == LinesOf(items)
    {
      NextLine(items, i, fed);
      fed := fed + (items[i] + "\n");
    }
    return CorpusFingerprint(fed, |items|);
  }

  lemma NextLine(items: seq<string>, i: nat, fed: string)
    requires i < |items|
    ensures (fed + (items[i] + "\n")) + LinesOf(items[i + 1..]) == fed + LinesOf(items[i..])
  {
    assert items[i..][1..] == items[i + 1..];
  }

  lemma LinesNotEmpty(items: seq<string>)
    ensures items != [] ==> LinesOf(items) != ""
  {}

  function Signatures(ss: seq<Scanned>): seq<string> {
    if ss == [] then [] else [Signature(ss[0])] + Signatures(ss[1..])
  }

  lemma {:induction false} SignaturesAppend(a: seq<Scanned>, b: seq<Scanned>)
    ensures Signatures(a + b) == Signatures(a) + Signatures(b)
  {
    if a == [] {
      assert a + b == b;
    } else {
      SignaturesAppend(a[1..], b);
      assert (a + b)[1..] == a[1..] + b;
      var head := [Signature(a[0])];
      assert head + (Signatures(a[1..]) + Signatures(b)) == (head + Signatures(a[1..])) + Signatures(b);
    }
  }

  lemma {:induction false} SignatureIn(ss: seq<Scanned>, sig: string)
    ensures sig in Signatures(ss) <==> exists s :: s in ss && Signature(s) == sig
    ensures |Signatures(ss)| == |ss|
  {
    if ss != [] {
      SignatureIn(ss[1..], sig);
      assert ss == [ss[0]] + ss[1..];
    }
  }

  lemma TakeOut<T>(s: seq<T>, i: nat)
    requires i < |s|
    ensures s == s[..i] + ([s[i]] + s[i + 1..])
    ensures multiset(s) == multiset(s[..i] + s[i + 1..]) + multiset{s[i]}
  {
    assert s == s[..i] + [s[i]] + s[i + 1..];
  }

  lemma SignaturesTakeOut(b: seq<Scanned>, j: nat)
    requires j < |b|
    ensures multiset(Signatures(b)) == multiset(Signatures(b[..j] + b[j + 1..])) + multiset{Signature(b[j])}
  {
    TakeOut(b, j);
    SignaturesAppend(b[..j], [b[j]] + b[j + 1..]);
    SignaturesAppend([b[j]], b[j + 1..]);
    SignaturesAppend(b[..j], b[j + 1..]);
    OneSignature(b[j]);
  }

  lemma OneSignature(s: Scanned)
    ensures Signatures([s]) == [Signature(s)]
  {
    var rest: seq<Scanned> := [s][1..];
    assert rest == [];
  }

  lemma SameWithoutOne<T>(a: multiset<T>, b: multiset<T>, x: T)
    ensures a + multiset{x} == b + multiset{x} <==> a == b
  {
    if a + multiset{x} == b + multiset{x} {
      assert a == (a + multiset{x}) - multiset{x};
      assert b == (b + multiset{x}) - multiset{x};
    }
  }

  ghost predicate Agree(a: seq<Scanned>, b: seq<Scanned>) {
    multiset(Signatures(a)) == multiset(Signatures(b)) <==> multiset(a) == multiset(b)
  }

  // Taking the same session out of both sides changes nothing about their agreement.
  lemma AgreeWithoutOne(a: seq<Scanned>, i: nat, b: seq<Scanned>, j: nat)
    requires i < |a| && j < |b| && a[i] == b[j]
    requires Agree(a[..i] + a[i + 1..], b[..j] + b[j + 1..])
    ensures Agree(a, b)
  {
    var p, q := a[..i] + a[i + 1..], b[..j] + b[j + 1..];
    TakeOut(a, i);
    TakeOut(b, j);
    SignaturesTakeOut(a, i);
    SignaturesTakeOut(b, j);
    SameWithoutOne(multiset(p), multiset(q), a[i]);
    SameWithoutOne(multiset(Signatures(p)), multiset(Signatures(q)), Signature(a[i]));
  }

  // Signatures keep multisets apart and together.
  lemma {:induction false} SameSignatures(a: seq<Scanned>, b: seq<Scanned>)
    ensures multiset(Signatures(a)) == multiset(Signatures(b)) <==> multiset(a) == multiset(b)
    decreases |a|
  {
    if a == [] {
      SignatureIn(b, "");
      assert |Signatures(b)| == |multiset(Signatures(b))| && |b| == |multiset(b)|;
    } else if a[0] in b {
      var j :| 0 <= j < |b| && b[j] == a[0];
      var p, q := a[..0] + a[1..], b[..j] + b[j + 1..];
      SameSignatures(p, q);
      assert Agree(p, q);
      AgreeWithoutOne(a, 0, b, j);
      assert Agree(a, b);
    } else {
      HeadIsMissing(a, b);
    }
  }

  lemma HeadIsMissing(a: seq<Scanned>, b: seq<Scanned>)
    requires a != [] && a[0] !in b
    ensures multiset(Signatures(a)) != multiset(Signatures(b)) && multiset(a) != multiset(b)
  {
    assert a[0] in multiset(a) && a[0] !in multiset(b);
    SignatureIn(a, Signature(a[0]));
    SignatureIn(b, Signature(a[0]));
    assert Signature(a[0]) in multiset(Signatures(a));
    if Signature(a[0]) in Signatures(b) {
      var s :| s in b && Signature(s) == Signature(a[0]);
      SignatureInjective(a[0], s);
    }
  }

  /******* Reading a signature *******/

  // The last tab of a text, or -1.
  function LastTab(s: string): (t: int)
    ensures -1 <= t < |s|
    ensures t >= 0 ==> s[t] == '\t'
    ensures forall i :: t < i < |s| ==> s[i] != '\t'
  {
    if s == "" then -1 else if s[|s| - 1] == '\t' then |s| - 1 else LastTab(s[..|s| - 1])
  }

  // The text before a last field that is a count.
  function DropCount(s: string): Option<string> {
    var t := LastTab(s);
    if t >= 0 && IsCount(s[t + 1..]) then Some(s[..t]) else None
  }

  lemma DropCountOf(a: string, n: nat)
    ensures DropCount(a + "\t" + Decimal(n)) == Some(a)
  {
    var s := a + "\t" + Decimal(n);
    DecimalIsPlain(n);
    DecimalIsCount(n);
    assert s[|a|] == '\t' && s[|a| + 1..] == Decimal(n) && s[..|a|] == a;
    assert forall i :: |a| < i < |s| ==> s[i] in Decimal(n);
  }

  // The last field of such a text.
  function LastCount(s: string): nat
    requires DropCount(s).Some?
  {
    Value(s[LastTab(s) + 1..])
  }

  lemma DropCountFinds(s: string)
    requires DropCount(s).Some?
    ensures s == DropCount(s).value + "\t" + Decimal(LastCount(s))
  {
    CountIsDecimal(s[LastTab(s) + 1..]);
  }

  // Text that a session could sign: it ends in three counts.
  predicate ReadsAsSignature(s: string) {
    && DropCount(s).Some?
    && DropCount(DropCount(s).value).Some?
    && DropCount(DropCount(DropCount(s).value).value).Some?
  }

  lemma SignatureReads(p: Scanned)
    ensures ReadsAsSignature(Signature(p))
  {
    var a := p.id + "\t" + Decimal(p.calls);
    var b := a + "\t" + Decimal(p.malformed);
    DropCountOf(p.id, p.calls);
    DropCountOf(a, p.malformed);
    DropCountOf(b, p.unjoinable);
  }

  lemma ReadSignature(s: string) returns (p: Scanned)
    requires ReadsAsSignature(s)
    ensures Signature(p) == s
  {
    var b := DropCount(s).value;
    var a := DropCount(b).value;
    DropCountFinds(s);
    DropCountFinds(b);
    DropCountFinds(a);
    p := Scanned(DropCount(a).value, LastCount(a), LastCount(b), LastCount(s));
  }

  /******* Which ids the fingerprint can tell apart *******/

  // No line break of the id ends a text that could be another session's line.
  predicate SafeId(id: string) {
    forall k :: 0 <= k < |id| && id[k] == '\n' ==> !ReadsAsSignature(id[..k])
  }

  predicate SafeIds(ss: seq<Scanned>) {
    forall s :: s in ss ==> SafeId(s.id)
  }

  lemma PlainIdsAreSafe(id: string)
    requires '\n' !in id
    ensures SafeId(id)
  {
    assert forall k :: 0 <= k < |id| ==> id[k] in id;
  }

  ghost predicate SignedSafely(line: string) {
    exists p :: Signature(p) == line && SafeId(p.id)
  }

  // A signature cut at one of its line breaks: the break lies in the id, and what follows is a
  // signature again.
  lemma CutSignature(p: Scanned, head: string, tail: string)
    requires Signature(p) == head + "\n" + tail
    ensures |head| < |p.id| && p.id[|head|] == '\n' && p.id[..|head|] == head
    ensures tail == Signature(p.(id := p.id[|head| + 1..]))
  {
    SignatureParts(p);
    var whole := head + "\n" + tail;
    assert whole[|head|] == '\n';
    assert forall i :: |p.id| <= i < |whole| ==> whole[i] == Counts(p)[i - |p.id|];
    var rest := p.(id := p.id[|head| + 1..]);
    SignatureParts(rest);
    assert Counts(rest) == Counts(p);
    assert tail == whole[|head| + 1..] == (p.id + Counts(p))[|head| + 1..] == rest.id + Counts(p);
    assert p.id[..|head|] == whole[..|head|] == head;
  }

  lemma SafeIsNotCut(line: string, head: string, tail: string)
    requires SignedSafely(line) && ReadsAsSignature(head)
    ensures line != head + "\n" + tail
  {
    var p :| Signature(p) == line && SafeId(p.id);
    if line == head + "\n" + tail {
      CutSignature(p, head, tail);
    }
  }

  lemma TailReads(line: string, head: string, tail: string)
    requires ReadsAsSignature(line) && line == head + "\n" + tail
    ensures ReadsAsSignature(tail)
  {
    var p := ReadSignature(line);
    CutSignature(p, head, tail);
    SignatureReads(p.(id := p.id[|head| + 1..]));
  }

  // Two lines in front of equal texts: one is the other, or is cut off from it at a line break.
  lemma FirstLines(x: string, more: string, y: string, rest: string)
    requires x + "\n" + more == y + "\n" + rest
    ensures |x| == |y| ==> x == y && more == rest
    ensures |x| > |y| ==> x == y + "\n" + x[|y| + 1..]
    ensures |x| < |y| ==> y == x + "\n" + y[|x| + 1..] && more == y[|x| + 1..] + "\n" + rest
  {
    var whole := x + "\n" + more;
    assert whole[|x|] == '\n' && whole[|y|] == '\n';
    assert more == whole[|x| + 1..] && rest == whole[|y| + 1..];
    assert x == whole[..|x|] && y == whole[..|y|];
    if |x| > |y| {
      assert x[..|y|] == y && x[|y|] == '\n';
    } else if |x| < |y| {
      assert y[..|x|] == x && y[|x|] == '\n';
    }
  }

  lemma HeadAndTail(lines: seq<string>)
    requires lines != []
    ensures lines == [lines[0]] + lines[1..] && LinesOf(lines) == lines[0] + "\n" + LinesOf(lines[1..])
  {}

  // Safe lines cut a text as finely as it can be cut: no other reading of it has more lines, and only
  // one has as many.
  lemma {:induction false} SafeLinesAreFinest(lines: seq<string>, first: string, others: seq<string>)
    requires LinesOf(lines) == first + "\n" + LinesOf(others)
    requires forall l :: l in lines ==> SignedSafely(l)
    requires ReadsAsSignature(first) && forall l :: l in others ==> ReadsAsSignature(l)
    ensures |lines| >= |others| + 1
    ensures |lines| == |others| + 1 ==> lines == [first] + others
  {
    var line, more := lines[0], lines[1..];
    HeadAndTail(lines);
    FirstLines(line, LinesOf(more), first, LinesOf(others));
    if |line| > |first| {
      SafeIsNotCut(line, first, line[|first| + 1..]);
    } else if |line| < |first| {
      TailReads(first, line, first[|line| + 1..]);
      SafeLinesAreFinest(more, first[|line| + 1..], others);
    } else if others != [] {
      HeadAndTail(others);
      SafeLinesAreFinest(more, others[0], others[1..]);
    } else {
      LinesNotEmpty(more);
    }
  }

  lemma SortedLinesSigned(ss: seq<Scanned>, line: string)
    requires line in Sorted(StringLeq, Signatures(ss))
    ensures ReadsAsSignature(line) && (SafeIds(ss) ==> SignedSafely(line))
  {
    StringsAreOrdered();
    SortedIsSorted(StringLeq, Signatures(ss));
    assert line in multiset(Signatures(ss));
    SignatureIn(ss, line);
    var p :| p in ss && Signature(p) == line;
    SignatureReads(p);
  }

  lemma SafeTextsAgree(a: seq<Scanned>, b: seq<Scanned>)
    requires SafeIds(a) && FingerprintOf(Signatures(a)) == FingerprintOf(Signatures(b))
    ensures Sorted(StringLeq, Signatures(a)) == Sorted(StringLeq, Signatures(b))
  {
    var x, y := Sorted(StringLeq, Signatures(a)), Sorted(StringLeq, Signatures(b));
    StringsAreOrdered();
    SortedIsSorted(StringLeq, Signatures(a));
    SortedIsSorted(StringLeq, Signatures(b));
    assert |x| == |multiset(x)| == |multiset(y)| == |y|;
    if y != [] {
      forall l | l in x {
        SortedLinesSigned(a, l);
      }
      forall l | l in y {
        SortedLinesSigned(b, l);
      }
      assert y == [y[0]] + y[1..];
      SafeLinesAreFinest(x, y[0], y[1..]);
    }
  }

  // Text and count together are a canonical and injective encoding of every scanned set whose ids are
  // safe, whatever the other set holds.
  lemma {:induction false} FingerprintIsIdentity(a: seq<Scanned>, b: seq<Scanned>)
    requires SafeIds(a)
    ensures FingerprintOf(Signatures(a)) == FingerprintOf(Signatures(b)) <==> multiset(a) == multiset(b)
  {
    StringsAreOrdered();
    SortedIsCanonical(StringLeq, Signatures(a), Signatures(b));
    SameSignatures(a, b);
    if multiset(a) == multiset(b) {
      assert |Signatures(a)| == |multiset(Signatures(a))| == |multiset(Signatures(b))| == |Signatures(b)|;
    } else if FingerprintOf(Signatures(a)) == FingerprintOf(Signatures(b)) {
      SafeTextsAgree(a, b);
    }
  }
}
