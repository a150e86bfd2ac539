/** The usage ledger of one parse (src/toolbench/parsers.py, `_UsageTally` and `_account_usage`). */
module UsageLedger {
  // Claude Code repeats the usage of one API response on each of its entries; the ledger charges the
  // first copy and splits what it charged by branch, and the detached part again by directory.

  import opened Options
  import opened Transcript
  import opened Sums

  // What one entry bills: the response it belongs to, where the work was done, and the amounts.
  datatype Bill = Bill(key: Option<string>, branch: string, cwd: string, amount: BranchUsage)

  function BillingKey(entry: Entry, message: Message): Option<string> {
    if entry.requestId.Some? && entry.requestId.value != "" then entry.requestId
    else if message.id.Some? && message.id.value != "" then message.id
    else None
  }

  function Amount(u: Usage): BranchUsage {
    BranchUsage(u.read.AsInt(), u.creation.AsInt(), u.input.AsInt(), u.output.AsInt(), 1)
  }

  function BillOf(entry: Entry): Option<Bill> {
    match entry.message
    case None => None
    case Some(message) =>
      match message.usage
      case None => None
      case Some(u) =>
        Some(Bill(BillingKey(entry, message), entry.gitBranch.GetOr(""), entry.cwd.GetOr(""), Amount(u)))
  }

  datatype Tally = Tally(
    total: BranchUsage,
    byBranch: map<string, BranchUsage>,
    detachedByCwd: map<string, BranchUsage>,
    charged: set<string>)

  const EMPTY_TALLY := Tally(NO_USAGE, map[], map[], {})

  function Bucket(m: map<string, BranchUsage>, k: string): BranchUsage {
    if k in m then m[k] else NO_USAGE
  }

  function Charge(t: Tally, b: Bill): Tally {
    Tally(
      t.total.Plus(b.amount),
      t.byBranch[b.branch := Bucket(t.byBranch, b.branch).Plus(b.amount)],
      if b.branch == DETACHED_BRANCH
      then t.detachedByCwd[b.cwd := Bucket(t.detachedByCwd, b.cwd).Plus(b.amount)]
      else t.detachedByCwd,
      if b.key.Some? then t.charged + {b.key.value} else t.charged)
  }

  function Account(t: Tally, entry: Entry): Tally {
    match BillOf(entry)
    case None => t
    case Some(b) => if b.key.Some? && b.key.value in t.charged then t else Charge(t, b)
  }

  function Ledger(es: seq<Entry>): Tally {
    if es == [] then EMPTY_TALLY else Account(Ledger(es[..|es| - 1]), es[|es| - 1])
  }

  /******* The tally object the parser folds into *******/

  class UsageTally {
    var cacheRead: int
    var cacheCreation: int
    var inputTokens: int
    var outputTokens: int
    var usageMessages: int
    var byBranch: map<string, BranchUsage>
    var detachedByCwd: map<string, BranchUsage>
    var charged: set<string>

    constructor ()
      ensures Value() == EMPTY_TALLY
    {
      cacheRead, cacheCreation, inputTokens, outputTokens, usageMessages := 0, 0, 0, 0, 0;
      byBranch, detachedByCwd, charged := map[], map[], {};
    }

    ghost function Value(): Tally
      reads this
    {
      Tally(BranchUsage(cacheRead, cacheCreation, inputTokens, outputTokens, usageMessages),
            byBranch, detachedByCwd, charged)
    }

    // True when the response was charged before; marks it charged otherwise.
    method AlreadyCharged(key: Option<string>) returns (already: bool)
      modifies this`charged
      ensures already == (key.Some? && key.value in old(charged))
      ensures charged == if key.Some? then old(charged) + {key.value} else old(charged)
      ensures already ==> charged == old(charged)
    {
      if key.None? {
        return false;
      }
      if key.value in charged {
        return true;
      }
      charged := charged + {key.value};
      return false;
    }

    method AccountUsage(entry: Entry)
      modifies this
      ensures Value() == Account(old(Value()), entry)
    {
      if entry.message.None? || entry.message.value.usage.None? {
        return;
      }
      ghost var bill := BillOf(entry).value;
      var message := entry.message.value;
      var already := AlreadyCharged(BillingKey(entry, message));
      if already {
        return;
      }
      var amount := Amount(message.usage.value);
      assert bill == Bill(BillingKey(entry, message), entry.gitBranch.GetOr(""), entry.cwd.GetOr(""), amount);
      AddToTotals(amount);
      FoldIntoBuckets(entry.gitBranch.GetOr(""), entry.cwd.GetOr(""), amount);
      assert Value() == Charge(old(Value()), bill);
    }

    method AddToTotals(amount: BranchUsage)
      modifies this`cacheRead, this`cacheCreation, this`inputTokens, this`outputTokens, this`usageMessages
      ensures Value().total == old(Value()).total.Plus(amount)
    {
      usageMessages := usageMessages + amount.messages;
      cacheRead := cacheRead + amount.read;
      cacheCreation := cacheCreation + amount.creation;
      inputTokens := inputTokens + amount.input;
      outputTokens := outputTokens + amount.output;
    }

    // The branch bucket, and for a detached entry its directory bucket.
    method FoldIntoBuckets(branch: string, cwd: string, amount: BranchUsage)
      modifies this`byBranch, this`detachedByCwd
      ensures byBranch == old(byBranch)[branch := Bucket(old(byBranch), branch).Plus(amount)]
      ensures detachedByCwd ==
              if branch == DETACHED_BRANCH
              then old(detachedByCwd)[cwd := Bucket(old(detachedByCwd), cwd).Plus(amount)]
              else old(detachedByCwd)
    {
      byBranch := byBranch[branch := Bucket(byBranch, branch).Plus(amount)];
      if branch == DETACHED_BRANCH {
        detachedByCwd := detachedByCwd[cwd := Bucket(detachedByCwd, cwd).Plus(amount)];
      }
    }
  }

  /******* Which entries are charged, and what a tally must add up to *******/

  predicate HasKey(entry: Entry, key: string) {
    BillOf(entry).Some? && BillOf(entry).value.key == Some(key)
  }

  // Entry i is the first usage-bearing entry of its response, or its response is unknown.
  ghost predicate Charged(es: seq<Entry>, i: nat)
    requires i < |es|
  {
    && BillOf(es[i]).Some?
    && match BillOf(es[i]).value.key
       case None => true
       case Some(key) => forall j :: 0 <= j < i ==> !HasKey(es[j], key)
  }

  // The sum over the charged entries that `select` picks.
  ghost function ChargedSum(es: seq<Entry>, select: Bill -> bool): BranchUsage {
    if es == [] then NO_USAGE
    else
      var n := |es| - 1;
      if Charged(es, n) && select(BillOf(es[n]).value)
      then ChargedSum(es[..n], select).Plus(BillOf(es[n]).value.amount)
      else ChargedSum(es[..n], select)
  }

  function Any(): Bill -> bool { (b: Bill) => true }
  function OnBranch(branch: string): Bill -> bool { (b: Bill) => b.branch == branch }
  function DetachedIn(cwd: string): Bill -> bool { (b: Bill) => b.branch == DETACHED_BRANCH && b.cwd == cwd }

  lemma {:induction false} ChargedKeys(es: seq<Entry>, key: string)
    ensures key in Ledger(es).charged <==> exists j :: 0 <= j < |es| && HasKey(es[j], key)
  {
    if es != [] {
      var n := |es| - 1;
      ChargedKeys(es[..n], key);
      KeysStep(es[..n], es[n], key);
      assert es == es[..n] + [es[n]];
    }
  }

  lemma KeysStep(es: seq<Entry>, e: Entry, key: string)
    ensures key in Account(Ledger(es), e).charged <==> key in Ledger(es).charged || HasKey(e, key)
    ensures (exists j :: 0 <= j < |es + [e]| && HasKey((es + [e])[j], key)) <==>
            (exists j :: 0 <= j < |es| && HasKey(es[j], key)) || HasKey(e, key)
  {
    if HasKey(e, key) {
      assert HasKey((es + [e])[|es|], key);
    } else if exists j :: 0 <= j < |es| && HasKey(es[j], key) {
      var j :| 0 <= j < |es| && HasKey(es[j], key);
      assert HasKey((es + [e])[j], key);
    }
  }

  lemma LedgerStep(es: seq<Entry>)
    requires es != []
    ensures var n := |es| - 1;
            Ledger(es) ==
            if Charged(es, n) then Charge(Ledger(es[..n]), BillOf(es[n]).value) else Ledger(es[..n])
  {
    var n := |es| - 1;
    if BillOf(es[n]).Some? && BillOf(es[n]).value.key.Some? {
      var key := BillOf(es[n]).value.key.value;
      ChargedKeys(es[..n], key);
      assert forall j :: 0 <= j < n ==> es[..n][j] == es[j];
    }
  }

  // Each response is charged exactly once, and every bucket holds exactly its share.
  lemma {:induction false} LedgerMeaning(es: seq<Entry>, branch: string, cwd: string)
    ensures Ledger(es).total == ChargedSum(es, Any())
    ensures Bucket(Ledger(es).byBranch, branch) == ChargedSum(es, OnBranch(branch))
    ensures Bucket(Ledger(es).detachedByCwd, cwd) == ChargedSum(es, DetachedIn(cwd))
  {
    if es != [] {
      LedgerMeaning(es[..|es| - 1], branch, cwd);
      LedgerStep(es);
    }
  }

  // The laws the reducer relies on: for every column the branch buckets add up to the session, the
  // directory buckets add up to the detached bucket, and no bucket is empty.
  ghost predicate Partitions(total: BranchUsage, byBranch: map<string, BranchUsage>, detachedByCwd: map<string,
          BranchUsage>)
  {
    && total == Column(byBranch)
    && Bucket(byBranch, DETACHED_BRANCH) == Column(detachedByCwd)
    && (forall b :: b in byBranch ==> byBranch[b].messages >= 1)
    && (forall c :: c in detachedByCwd ==> detachedByCwd[c].messages >= 1)
  }

  // The column sums of a dictionary of buckets.
  ghost function Column(m: map<string, BranchUsage>): BranchUsage {
    BranchUsage(Sum(m, Read), Sum(m, Creation), Sum(m, Input), Sum(m, Output), Sum(m, Messages))
  }

  lemma ColumnUpdate(m: map<string, BranchUsage>, k: string, amount: BranchUsage)
    ensures Column(m[k := Bucket(m, k).Plus(amount)]) == Column(m).Plus(amount)
  {
    var v := Bucket(m, k).Plus(amount);
    SumUpdate(m, k, v, Read);
    SumUpdate(m, k, v, Creation);
    SumUpdate(m, k, v, Input);
    SumUpdate(m, k, v, Output);
    SumUpdate(m, k, v, Messages);
  }

  lemma {:induction false} LedgerPartitions(es: seq<Entry>)
    ensures var t := Ledger(es); Partitions(t.total, t.byBranch, t.detachedByCwd)
  {
    if es != [] {
      var n := |es| - 1;
      LedgerPartitions(es[..n]);
      var t := Ledger(es[..n]);
      if BillOf(es[n]).Some? {
        var b := BillOf(es[n]).value;
        ColumnUpdate(t.byBranch, b.branch, b.amount);
        ColumnUpdate(t.detachedByCwd, b.cwd, b.amount);
      }
    }
  }
}
