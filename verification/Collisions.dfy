/**
 The scanned sets the corpus fingerprint cannot tell apart, and the exact condition on their ids
 (src/toolbench/report.py, `corpus_fingerprint` and `session_signature`).

 A session id may hold a line break and then what another session could sign.
 */
module Collisions {
  import opened Decimals
  import opened Sorting
  import opened Fingerprint

  // The session whose line is the line of `p`, a line break, and the line of `r`.
  function Fused(p: Scanned, r: Scanned): Scanned {
    r.(id := Signature(p) + "\n" + r.id)
  }

  lemma FusedSignature(p: Scanned, r: Scanned)
    ensures Signature(Fused(p, r)) == Signature(p) + "\n" + Signature(r)
  {
    SignatureParts(r);
    SignatureParts(Fused(p, r));
    assert Counts(Fused(p, r)) == Counts(r);
  }

  lemma TwoSigned(x: Scanned, y: Scanned)
    requires StringLeq(Signature(x), Signature(y))
    ensures FingerprintOf(Signatures([x, y])) == CorpusFingerprint(Signature(x) + "\n" + (Signature(y) + "\n"), 2)
  {
    OneSignature(x);
    OneSignature(y);
    SignaturesAppend([x], [y]);
    assert [x] + [y] == [x, y];
    TwoLines(Signature(x), Signature(y));
  }

  lemma TwoLines(s: string, t: string)
    requires StringLeq(s, t)
    ensures FingerprintOf([s] + [t]) == CorpusFingerprint(s + "\n" + (t + "\n"), 2)
  {
    assert ([s] + [t])[1..] == [t] && [t][1..] == [];
    assert Sorted(StringLeq, [t]) == [t];
    assert Sorted(StringLeq, [s] + [t]) == [s] + [t];
    assert LinesOf([t]) == t + "\n";
  }

  // Three lines read as two sessions in two ways.
  lemma TwoReadings(y: Scanned, p: Scanned, r: Scanned)
    requires StringLeq(Signature(y), Signature(Fused(p, r))) && StringLeq(Signature(Fused(y, p)), Signature(r))
    ensures FingerprintOf(Signatures([y, Fused(p, r)])) == FingerprintOf(Signatures([Fused(y, p), r]))
  {
    TwoSigned(y, Fused(p, r));
    TwoSigned(Fused(y, p), r);
    FusedSignature(p, r);
    FusedSignature(y, p);
    Regroup(Signature(y), Signature(p), Signature(r));
  }

  lemma Regroup(a: string, b: string, c: string)
    ensures a + "\n" + ((b + "\n" + c) + "\n") == (a + "\n" + b) + "\n" + (c + "\n")
  {}

  lemma DifferentPairs(y: Scanned, x: Scanned, z: Scanned, r: Scanned)
    requires y != z && y != r
    ensures multiset([y, x]) != multiset([z, r])
  {
    assert y in multiset([y, x]);
    assert y !in multiset([z, r]);
  }

  // Two sets of two sessions with one fingerprint.
  lemma LineBreakInIdCollides()
    ensures var a := [Scanned("a", 1, 0, 0), Scanned("b\t1\t0\t0\nc", 1, 0, 0)];
            var b := [Scanned("a\t1\t0\t0\nb", 1, 0, 0), Scanned("c", 1, 0, 0)];
            FingerprintOf(Signatures(a)) == FingerprintOf(Signatures(b)) && multiset(a) != multiset(b)
  {
    var y, p, r := Scanned("a", 1, 0, 0), Scanned("b", 1, 0, 0), Scanned("c", 1, 0, 0);
    assert Decimal(1) == "1" && Decimal(0) == "0";
    assert Fused(p, r).id == "b\t1\t0\t0\nc" && Fused(y, p).id == "a\t1\t0\t0\nb";
    TwoReadings(y, p, r);
    DifferentPairs(y, Fused(p, r), Fused(y, p), r);
  }

  /******* Every unsafe id collides *******/

  function Zeros(n: nat): string {
    if n == 0 then "" else "\0" + Zeros(n - 1)
  }

  // Enough zero characters sort before any text that holds a tab.
  lemma {:induction false} ZerosFirst(n: nat, rest: string, s: string)
    requires '\t' in s && |s| <= n
    ensures StringLeq(Zeros(n) + rest, s)
  {
    var first := Zeros(n) + rest;
    assert first[0] == '\0' && first[1..] == Zeros(n - 1) + rest;
    if s[0] == '\0' {
      assert s == [s[0]] + s[1..];
      ZerosFirst(n - 1, rest, s[1..]);
    }
  }

  lemma {:induction false} ZerosArePlain(n: nat)
    ensures |Zeros(n)| == n && '\n' !in Zeros(n)
  {
    if n > 0 {
      ZerosArePlain(n - 1);
    }
  }

  // An unsafe id is another session's line, a line break and more.
  lemma UnsafeIsFused(x: Scanned) returns (p: Scanned, r: Scanned)
    requires !SafeId(x.id)
    ensures x == Fused(p, r)
  {
    var k :| 0 <= k < |x.id| && x.id[k] == '\n' && ReadsAsSignature(x.id[..k]);
    p := ReadSignature(x.id[..k]);
    r := x.(id := x.id[k + 1..]);
    CutAt(x.id, k);
  }

  lemma CutAt(id: string, k: nat)
    requires k < |id| && id[k] == '\n'
    ensures id == id[..k] + "\n" + id[k + 1..]
  {}

  lemma ZerosSignedFirst(n: nat, p: Scanned, r: Scanned)
    requires n == |Signature(Fused(p, r))|
    ensures var y := Scanned(Zeros(n), 0, 0, 0);
            StringLeq(Signature(y), Signature(Fused(p, r))) && StringLeq(Signature(Fused(y, p)), Signature(r))
  {
    var y := Scanned(Zeros(n), 0, 0, 0);
    SignatureParts(y);
    SignatureParts(r);
    SignatureParts(Fused(p, r));
    FusedSignature(p, r);
    FusedSignature(y, p);
    var rest := Counts(y) + "\n" + Signature(p);
    assert Signature(Fused(y, p)) == Zeros(n) + rest;
    ZerosFirst(n, Counts(y), Signature(Fused(p, r)));
    ZerosFirst(n, rest, Signature(r));
  }

  // Sets whose ids have no line break, but for this one.
  predicate PlainBut(ss: seq<Scanned>, id: string) {
    forall s :: s in ss ==> s.id == id || '\n' !in s.id
  }

  ghost predicate Confused(a: seq<Scanned>, b: seq<Scanned>) {
    FingerprintOf(Signatures(a)) == FingerprintOf(Signatures(b)) && multiset(a) != multiset(b)
  }

  lemma PairIsPlainBut(y: Scanned, x: Scanned)
    requires '\n' !in y.id
    ensures PlainBut([y, x], x.id)
  {}

  // A session with an unsafe id, next to one whose id has no line break, is confused with two others.
  lemma UnsafeIdCollides(x: Scanned) returns (a: seq<Scanned>, b: seq<Scanned>)
    requires !SafeId(x.id)
    ensures x in a && |a| == 2 && PlainBut(a, x.id) && Confused(a, b)
  {
    var p, r := UnsafeIsFused(x);
    var n := |Signature(x)|;
    var y := Scanned(Zeros(n), 0, 0, 0);
    var z := Fused(y, p);
    a, b := [y, x], [z, r];
    ZerosArePlain(n);
    ZerosSignedFirst(n, p, r);
    TwoReadings(y, p, r);
    FusedSignature(p, r);
    SignatureParts(r);
    PairIsPlainBut(y, x);
    assert z.id[|Signature(y)|] == '\n';
    DifferentPairs(y, x, z, r);
  }

  lemma PlainButSafe(a: seq<Scanned>, id: string)
    requires PlainBut(a, id) && SafeId(id)
    ensures SafeIds(a)
  {
    forall s: Scanned | s in a
      ensures SafeId(s.id)
    {
      if s.id != id {
        PlainIdsAreSafe(s.id);
      }
    }
  }

  lemma SafeIsNotConfused(a: seq<Scanned>, b: seq<Scanned>, id: string)
    requires SafeId(id) && PlainBut(a, id)
    ensures !Confused(a, b)
  {
    PlainButSafe(a, id);
    FingerprintIsIdentity(a, b);
  }

  lemma UnsafeIsConfused(id: string)
    requires !SafeId(id)
    ensures exists a, b :: PlainBut(a, id) && Confused(a, b)
  {
    var a, b := UnsafeIdCollides(Scanned(id, 0, 0, 0));
  }

  // An id is safe exactly when no set that holds it next to plain ids is ever confused with another.
  lemma {:induction false} SafeIdsAreExact(id: string)
    ensures SafeId(id) <==> forall a, b :: PlainBut(a, id) ==> !Confused(a, b)
  {
    if SafeId(id) {
      forall a, b | PlainBut(a, id) {
        SafeIsNotConfused(a, b, id);
      }
    } else {
      UnsafeIsConfused(id);
    }
  }
}
