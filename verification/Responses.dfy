/**
 Which entries are copies of one API response, and what a response costs, told from the fields of the
 entries alone.
 */
module Responses {
  import opened Options
  import opened Transcript
  import opened UsageLedger

  predicate BearsUsage(e: Entry) {
    e.message.Some? && e.message.value.usage.Some?
  }

  // The request id names the response; an entry without one, or with an empty one, goes by its message id.
  predicate OfResponse(e: Entry, k: string) {
    && k != ""
    && (e.requestId == Some(k) ||
        ((e.requestId == None || e.requestId == Some("")) && e.message.Some? && e.message.value.id == Some(k)))
  }

  // Entry e bears usage of a response that no entry of es bore usage of.
  ghost predicate FirstCopy(es: seq<Entry>, e: Entry) {
    BearsUsage(e) && forall f, k :: f in es && BearsUsage(f) && OfResponse(f, k) ==> !OfResponse(e, k)
  }

  // A count is an integer, a fraction cut off at the point, or nothing.
  function Number(c: Count): int {
    match c
    case Whole(n) => n
    case Fraction(n, _) => n
    case Flag(_) => 0
    case NoNumber => 0
  }

  // One message with the counts of the entry's usage.
  function Cost(e: Entry): BranchUsage
    requires BearsUsage(e)
  {
    var usage := e.message.value.usage.value;
    BranchUsage(Number(usage.read), Number(usage.creation), Number(usage.input), Number(usage.output), 1)
  }

  predicate Adds(was: BranchUsage, now: BranchUsage, u: BranchUsage) {
    && now.read == was.read + u.read && now.creation == was.creation + u.creation
    && now.input == was.input + u.input && now.output == was.output + u.output
    && now.messages == was.messages + u.messages
  }

  // The bucket of k grew by u and no other bucket changed.
  ghost predicate Grew(was: map<string, BranchUsage>, now: map<string, BranchUsage>, k: string, u: BranchUsage) {
    && now.Keys == was.Keys + {k}
    && (forall j :: j in was && j != k ==> now[j] == was[j])
    && (if k in was then Adds(was[k], now[k], u) else now[k] == u)
  }

  lemma BillMeaning(e: Entry)
    ensures BillOf(e).Some? <==> BearsUsage(e)
    ensures BearsUsage(e) ==>
              var b := BillOf(e).value;
              && b.branch == (if e.gitBranch == None then "" else e.gitBranch.value)
              && b.cwd == (if e.cwd == None then "" else e.cwd.value)
              && b.amount == Cost(e)
              && forall k :: b.key == Some(k) <==> OfResponse(e, k)
  {}

  lemma KeyMeaning(es: seq<Entry>, k: string)
    ensures k in Ledger(es).charged <==> exists f :: f in es && BearsUsage(f) && OfResponse(f, k)
  {
    ChargedKeys(es, k);
    forall f | f in es
      ensures HasKey(f, k) <==> BearsUsage(f) && OfResponse(f, k)
    {
      BillMeaning(f);
    }
    if f :| f in es && BearsUsage(f) && OfResponse(f, k) {
      var j :| 0 <= j < |es| && es[j] == f;
      assert HasKey(es[j], k);
    }
  }

  // The cost u of entry e goes to the session, to its branch, and for a checkout on no branch to its directory.
  ghost predicate Books(was: Tally, now: Tally, e: Entry, u: BranchUsage) {
    && Adds(was.total, now.total, u)
    && Grew(was.byBranch, now.byBranch, e.gitBranch.GetOr(""), u)
    && (if e.gitBranch == Some("HEAD") then Grew(was.detachedByCwd, now.detachedByCwd, e.cwd.GetOr(""), u)
        else now.detachedByCwd == was.detachedByCwd)
  }

  lemma BucketGrows(m: map<string, BranchUsage>, k: string, u: BranchUsage)
    ensures Grew(m, m[k := Bucket(m, k).Plus(u)], k, u)
  {}

  lemma PlusAdds(was: BranchUsage, u: BranchUsage)
    ensures Adds(was, was.Plus(u), u)
  {}

  lemma ChargeBooks(t: Tally, e: Entry, b: Bill)
    requires b.branch == e.gitBranch.GetOr("") && b.cwd == e.cwd.GetOr("")
    ensures Books(t, Charge(t, b), e, b.amount)
  {
    PlusAdds(t.total, b.amount);
    BucketGrows(t.byBranch, b.branch, b.amount);
    BucketGrows(t.detachedByCwd, b.cwd, b.amount);
    assert e.gitBranch == Some("HEAD") <==> b.branch == DETACHED_BRANCH;
  }

  // The first copy of a response, and every usage without a response to its name, is charged in full.
  lemma {:induction false} FirstCopyIsCharged(es: seq<Entry>, e: Entry)
    requires FirstCopy(es, e)
    ensures Books(Ledger(es), Ledger(es + [e]), e, Cost(e))
  {
    assert (es + [e])[..|es|] == es;
    BillMeaning(e);
    var b := BillOf(e).value;
    if b.key.Some? {
      KeyMeaning(es, b.key.value);
      assert OfResponse(e, b.key.value);
    }
    ChargeBooks(Ledger(es), e, b);
  }

  // Any other entry changes nothing in the ledger, whatever its time, its branch and its directory.
  lemma {:induction false} LaterCopyIsFree(es: seq<Entry>, e: Entry)
    requires !FirstCopy(es, e)
    ensures Ledger(es + [e]) == Ledger(es)
  {
    assert (es + [e])[..|es|] == es;
    BillMeaning(e);
    if BearsUsage(e) {
      var f, k :| f in es && BearsUsage(f) && OfResponse(f, k) && OfResponse(e, k);
      KeyMeaning(es, k);
    }
  }

  // Copies may be dropped from anywhere in the transcript.
  lemma {:induction false} CopiesDoNotMatter(a: seq<Entry>, e: Entry, b: seq<Entry>)
    requires !FirstCopy(a, e)
    ensures Ledger(a + [e] + b) == Ledger(a + b)
  {
    if b == [] {
      LaterCopyIsFree(a, e);
      assert a + [e] + b == a + [e] && a + b == a;
    } else {
      var n := |b| - 1;
      CopiesDoNotMatter(a, e, b[..n]);
      assert (a + [e] + b)[..|a + [e] + b| - 1] == a + [e] + b[..n];
      assert (a + b)[..|a + b| - 1] == a + b[..n];
    }
  }

  // The charged entries are the first copies.
  lemma ChargedMeaning(es: seq<Entry>, i: nat)
    requires i < |es|
    ensures Charged(es, i) <==> FirstCopy(es[..i], es[i])
  {
    BillMeaning(es[i]);
    forall f | f in es
      ensures forall k :: HasKey(f, k) <==> BearsUsage(f) && OfResponse(f, k)
    {
      BillMeaning(f);
    }
    forall j | 0 <= j < i
      ensures es[j] in es[..i]
    {
      assert es[..i][j] == es[j];
    }
  }

  /******* What the first copies of a transcript cost *******/

  ghost predicate FirstAt(es: seq<Entry>, i: nat)
    requires i < |es|
  {
    FirstCopy(es[..i], es[i])
  }

  // The cost of the first copies among the selected entries.
  ghost function Spent(es: seq<Entry>, where: Entry -> bool): BranchUsage {
    if es == [] then NO_USAGE
    else
      var init, last := es[..|es| - 1], es[|es| - 1];
      if FirstCopy(init, last) && where(last) then Spent(init, where).Plus(Cost(last)) else Spent(init, where)
  }

  ghost predicate SelectsSame(select: Bill -> bool, where: Entry -> bool) {
    forall e: Entry :: BillOf(e).Some? ==> (select(BillOf(e).value) <==> where(e))
  }

  lemma {:induction false} SpentIsCharged(es: seq<Entry>, select: Bill -> bool, where: Entry -> bool)
    requires SelectsSame(select, where)
    ensures ChargedSum(es, select) == Spent(es, where)
  {
    if es != [] {
      SpentIsCharged(es[..|es| - 1], select, where);
      ChargedMeaning(es, |es| - 1);
      BillMeaning(es[|es| - 1]);
    }
  }

  // A branch has a bucket exactly when some response was first seen on it, a directory when that
  // happened in it on no branch.
  lemma {:induction false} BucketMeaning(es: seq<Entry>, k: string)
    ensures k in Ledger(es).byBranch <==> exists i: nat :: i < |es| && FirstAt(es, i) && es[i].gitBranch.GetOr("") == k
    ensures k in Ledger(es).detachedByCwd <==>
            exists i: nat :: i < |es| && FirstAt(es, i) && es[i].gitBranch == Some("HEAD") && es[i].cwd.GetOr("") == k
  {
    if es != [] {
      var n := |es| - 1;
      var init, last := es[..n], es[n];
      assert es == init + [last];
      BucketMeaning(init, k);
      forall i: nat | i < n
        ensures FirstAt(init, i) <==> FirstAt(es, i)
      {
        assert init[..i] == es[..i];
      }
      if FirstAt(es, n) {
        FirstCopyIsCharged(init, last);
      } else {
        LaterCopyIsFree(init, last);
      }
    }
  }
}
