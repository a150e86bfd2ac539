/** The complexity gate (src/toolbench/complexity_gate.py): a change may not add complexity debt. */
module ComplexityGate {
  import opened Options
  import opened Sorting

  datatype Symbol = Symbol(path: string, qualname: string)

  datatype Measured = Measured(symbol: Symbol, complexity: int, line: int)

  type Snapshot = map<Symbol, Measured>

  datatype Reason = NewFunction | Crossed | HotspotIncreased | IncreasedBy(delta: int)

  datatype Change = Change(current: Measured, previous: Option<int>, reason: Reason)

  datatype Limits = Limits(threshold: int, warningDelta: int)

  datatype Judgement = Fine | Error(change: Change) | Warning(change: Change)

  function Judge(previous: Snapshot, current: Measured, symbol: Symbol, limits: Limits): Judgement {
    var score := current.complexity;
    if symbol !in previous then
      if score > limits.threshold then Error(Change(current, None, NewFunction)) else Fine
    else
      var before := previous[symbol].complexity;
      if before <= limits.threshold < score then Error(Change(current, Some(before), Crossed))
      else if before > limits.threshold && score > before then Error(Change(current, Some(before), HotspotIncreased))
      else if score <= limits.threshold && score - before >= limits.warningDelta then
        Warning(Change(current, Some(before), IncreasedBy(score - before)))
      else Fine
  }

  function Errors(previous: Snapshot, current: Snapshot, order: seq<Symbol>, limits: Limits): seq<Change>
    requires forall s :: s in order ==> s in current
  {
    if order == [] then []
    else
      var last := order[|order| - 1];
      var rest := Errors(previous, current, order[..|order| - 1], limits);
      var j := Judge(previous, current[last], last, limits);
      if j.Error? then rest + [j.change] else rest
  }

  function Warnings(previous: Snapshot, current: Snapshot, order: seq<Symbol>, limits: Limits): seq<Change>
    requires forall s :: s in order ==> s in current
  {
    if order == [] then []
    else
      var last := order[|order| - 1];
      var rest := Warnings(previous, current, order[..|order| - 1], limits);
      var j := Judge(previous, current[last], last, limits);
      if j.Warning? then rest + [j.change] else rest
  }

  // Symbols are ordered by path, then by name.
  predicate SymbolLeq(a: Symbol, b: Symbol) {
    if a.path == b.path then StringLeq(a.qualname, b.qualname) else StringLeq(a.path, b.path)
  }

  lemma SymbolsAreOrdered()
    ensures TotalOrder(SymbolLeq)
  {
    forall a: string, b: string {
      StringLeqTotal(a, b);
    }
    forall a: Symbol, b: Symbol, c: Symbol | SymbolLeq(a, b) && SymbolLeq(b, c)
      ensures SymbolLeq(a, c)
    {
      SymbolLeqTransitive(a, b, c);
    }
  }

  lemma SymbolLeqTransitive(a: Symbol, b: Symbol, c: Symbol)
    requires SymbolLeq(a, b) && SymbolLeq(b, c)
    ensures SymbolLeq(a, c)
  {
    if a.path == b.path == c.path {
      StringLeqTransitive(a.qualname, b.qualname, c.qualname);
    } else {
      StringLeqTotal(a.path, b.path);
      StringLeqTotal(b.path, c.path);
      StringLeqTotal(a.path, c.path);
      if a.path != b.path && b.path != c.path {
        StringLeqTransitive(a.path, b.path, c.path);
      }
    }
  }

  // What `sorted(current.items())` walks.
  ghost function Walk(current: Snapshot): (order: seq<Symbol>)
    ensures forall s :: s in order <==> s in current
  {
    SymbolsAreOrdered();
    InOrderMembers(SymbolLeq, current.Keys);
    InOrder(SymbolLeq, current.Keys)
  }

  ghost function AllErrors(previous: Snapshot, current: Snapshot, limits: Limits): seq<Change> {
    Errors(previous, current, Walk(current), limits)
  }

  ghost function AllWarnings(previous: Snapshot, current: Snapshot, limits: Limits): seq<Change> {
    Warnings(previous, current, Walk(current), limits)
  }

  method CompareComplexity(previous: Snapshot, current: Snapshot, limits: Limits)
    returns (errors: seq<Change>, warnings: seq<Change>)
    ensures errors == AllErrors(previous, current, limits)
    ensures warnings == AllWarnings(previous, current, limits)
  {
    SymbolsAreOrdered();
    var order := ListInOrder(SymbolLeq, current.Keys);
    assert order == Walk(current);
    errors, warnings := CompareAlong(previous, current, order, limits);
  }

  method CompareAlong(previous: Snapshot, current: Snapshot, order: seq<Symbol>, limits: Limits)
    returns (errors: seq<Change>, warnings: seq<Change>)
    requires forall s :: s in order ==> s in current
    ensures errors == Errors(previous, current, order, limits)
    ensures warnings == Warnings(previous, current, order, limits)
  {
    errors, warnings := [], [];
    for i := 0 to |order|
      invariant errors == Errors(previous, current, order[..i], limits)
      invariant warnings == Warnings(previous, current, order[..i], limits)
    {
      var symbol := order[i];
      assert order[..i + 1][..i] == order[..i];
      var measured := current[symbol];
      var known := symbol in previous;
      if !known && measured.complexity > limits.threshold {
        errors := errors + [Change(measured, None, NewFunction)];
      } else if known && previous[symbol].complexity <= limits.threshold < measured.complexity {
        errors := errors + [Change(measured, Some(previous[symbol].complexity), Crossed)];
      } else if known && previous[symbol].complexity > limits.threshold
                && measured.complexity > previous[symbol].complexity {
        errors := errors + [Change(measured, Some(previous[symbol].complexity), HotspotIncreased)];
      } else if known && measured.complexity <= limits.threshold
                && measured.complexity - previous[symbol].complexity >= limits.warningDelta {
        var delta := measured.complexity - previous[symbol].complexity;
        warnings := warnings + [Change(measured, Some(previous[symbol].complexity), IncreasedBy(delta))];
      }
    }
    assert order[..|order|] == order;
  }

  /******* What is reported *******/

  // A function above the threshold that is new, that crossed it, or that was above it and rose.
  predicate IsError(previous: Snapshot, now: Measured, s: Symbol, threshold: int, c: Change) {
    && c.current == now && now.complexity > threshold
    && (if s !in previous then c.previous == None && c.reason == NewFunction
        else
          var before := previous[s].complexity;
          && c.previous == Some(before)
          && (before <= threshold ==> c.reason == Crossed)
          && (before > threshold ==> now.complexity > before && c.reason == HotspotIncreased))
  }

  // A known function within the threshold that rose by the delta or more.
  predicate IsWarning(previous: Snapshot, now: Measured, s: Symbol, limits: Limits, c: Change) {
    && c.current == now && now.complexity <= limits.threshold && s in previous
    && now.complexity >= previous[s].complexity + limits.warningDelta
    && c.previous == Some(previous[s].complexity)
    && c.reason == IncreasedBy(now.complexity - previous[s].complexity)
  }

  // Along any walk the changes of each kind are those of its symbols, one behind the other in its order.
  lemma {:induction false} ReportedAlong(previous: Snapshot, current: Snapshot, order: seq<Symbol>, limits: Limits)
    requires order != [] && forall s :: s in order ==> s in current
    ensures var init, s := order[..|order| - 1], order[|order| - 1];
            var errors := Errors(previous, current, order, limits);
            var warnings := Warnings(previous, current, order, limits);
            var moreErrors := errors[|Errors(previous, current, init, limits)|..];
            var moreWarnings := warnings[|Warnings(previous, current, init, limits)|..];
            && Errors(previous, current, init, limits) <= errors && |moreErrors| <= 1
            && Warnings(previous, current, init, limits) <= warnings && |moreWarnings| <= 1
            && (forall c :: c in moreErrors <==> IsError(previous, current[s], s, limits.threshold, c))
            && (forall c :: c in moreWarnings <==> IsWarning(previous, current[s], s, limits, c))
  {
    var j := Judge(previous, current[order[|order| - 1]], order[|order| - 1], limits);
  }

  lemma {:induction false} ReportedOn(previous: Snapshot, current: Snapshot, order: seq<Symbol>, limits: Limits,
          c: Change)
    requires forall s :: s in order ==> s in current
    ensures c in Errors(previous, current, order, limits) <==>
            exists s :: s in order && IsError(previous, current[s], s, limits.threshold, c)
    ensures c in Warnings(previous, current, order, limits) <==>
            exists s :: s in order && IsWarning(previous, current[s], s, limits, c)
  {
    if order != [] {
      var init, last := order[..|order| - 1], order[|order| - 1];
      assert order == init + [last];
      ReportedOn(previous, current, init, limits, c);
      var j := Judge(previous, current[last], last, limits);
      assert j == Error(c) <==> IsError(previous, current[last], last, limits.threshold, c);
      assert j == Warning(c) <==> IsWarning(previous, current[last], last, limits, c);
    }
  }

  // Every change of the comparison, and no other, with its reason and its score before.
  lemma ReportMeaning(previous: Snapshot, current: Snapshot, limits: Limits, c: Change)
    ensures c in AllErrors(previous, current, limits) <==>
            exists s :: s in current && IsError(previous, current[s], s, limits.threshold, c)
    ensures c in AllWarnings(previous, current, limits) <==>
            exists s :: s in current && IsWarning(previous, current[s], s, limits, c)
  {
    ReportedOn(previous, current, Walk(current), limits, c);
  }

  // They come file by file, and in a file by name.
  lemma {:induction false} ReportOrder(current: Snapshot, i: nat, j: nat)
    requires i < j < |Walk(current)|
    ensures var a, b := Walk(current)[i], Walk(current)[j];
            Precedes(a.path, b.path) || (a.path == b.path && Precedes(a.qualname, b.qualname))
  {
    var a, b := Walk(current)[i], Walk(current)[j];
    SymbolsAreOrdered();
    InOrderMembers(SymbolLeq, current.Keys);
    InOrderIs(SymbolLeq, current.Keys, Walk(current));
    StringOrder(a.path, b.path);
    StringOrder(a.qualname, b.qualname);
  }

  /******* The gate is a ratchet *******/

  // Every function above the threshold was there before, and at least as complex.
  ghost predicate NoNewDebt(previous: Snapshot, current: Snapshot, threshold: int) {
    forall s :: s in current && current[s].complexity > threshold ==>
      s in previous && previous[s].complexity >= current[s].complexity
  }

  lemma {:induction false} NoErrorIffNoDebt(previous: Snapshot, current: Snapshot, order: seq<Symbol>, limits: Limits)
    requires forall s :: s in order ==> s in current
    ensures Errors(previous, current, order, limits) == [] <==>
            forall s :: s in order && current[s].complexity > limits.threshold ==>
              s in previous && previous[s].complexity >= current[s].complexity
  {
    if order != [] {
      var init, last := order[..|order| - 1], order[|order| - 1];
      assert order == init + [last];
      assert forall s :: s in order <==> s in init || s == last;
      NoErrorIffNoDebt(previous, current, init, limits);
    }
  }

  // A comparison passes exactly when it adds no debt.
  lemma GatePassesIffNoDebt(previous: Snapshot, current: Snapshot, limits: Limits)
    ensures AllErrors(previous, current, limits) == [] <==> NoNewDebt(previous, current, limits.threshold)
  {
    NoErrorIffNoDebt(previous, current, Walk(current), limits);
  }

  // Snapshot i passed the gate against the one before it.
  ghost predicate Passes(history: seq<Snapshot>, limits: Limits, i: nat) {
    0 < i < |history| ==> AllErrors(history[i - 1], history[i], limits) == []
  }

  // Over every passing history, what is above the threshold at the end was so all along, and never rose.
  lemma {:induction false} Ratchet(history: seq<Snapshot>, limits: Limits, s: Symbol, i: nat, j: nat)
    requires forall k :: Passes(history, limits, k)
    requires i <= j < |history| && s in history[j] && history[j][s].complexity > limits.threshold
    ensures s in history[i] && history[i][s].complexity > limits.threshold
    ensures history[i][s].complexity >= history[j][s].complexity
  {
    if i < j {
      assert Passes(history, limits, j);
      GatePassesIffNoDebt(history[j - 1], history[j], limits);
      Ratchet(history, limits, s, i, j - 1);
    }
  }

  /******* Looking at the changed files only *******/

  function InPaths(m: Snapshot, paths: set<string>): Snapshot {
    map s | s in m && s.path in paths :: m[s]
  }

  function OrderIn(order: seq<Symbol>, paths: set<string>): (restricted: seq<Symbol>)
    ensures forall s :: s in restricted <==> s in order && s.path in paths
  {
    if order == [] then []
    else
      var last := order[|order| - 1];
      if last.path in paths then OrderIn(order[..|order| - 1], paths) + [last]
      else OrderIn(order[..|order| - 1], paths)
  }

  // Files outside the changed ones hold the same functions with the same scores.
  ghost predicate SameOutside(previous: Snapshot, current: Snapshot, paths: set<string>) {
    forall s :: s in current && s.path !in paths ==> s in previous && previous[s].complexity == current[s].complexity
  }

  // Unchanged functions that are within the threshold.
  function UnchangedWithin(current: Snapshot, order: seq<Symbol>, paths: set<string>, threshold: int): nat
    requires forall s :: s in order ==> s in current
  {
    if order == [] then 0
    else
      var last := order[|order| - 1];
      UnchangedWithin(current, order[..|order| - 1], paths, threshold)
      + if last.path !in paths && current[last].complexity <= threshold then 1 else 0
  }

  lemma JudgeInside(previous: Snapshot, measured: Measured, symbol: Symbol, paths: set<string>, limits: Limits)
    requires symbol.path in paths
    ensures Judge(InPaths(previous, paths), measured, symbol, limits) == Judge(previous, measured, symbol, limits)
  {}

  lemma JudgeOutside(previous: Snapshot, current: Snapshot, symbol: Symbol, paths: set<string>, limits: Limits)
    requires SameOutside(previous, current, paths) && symbol in current && symbol.path !in paths
    ensures !Judge(previous, current[symbol], symbol, limits).Error?
    ensures Judge(previous, current[symbol], symbol, limits).Warning? <==>
            limits.warningDelta <= 0 && current[symbol].complexity <= limits.threshold
  {}

  // Along one walk, restricting it to the changed files leaves the errors as they are.
  lemma {:induction false} RestrictedErrorsAlong(previous: Snapshot, current: Snapshot, order: seq<Symbol>,
          paths: set<string>, limits: Limits)
    requires forall s :: s in order ==> s in current
    requires SameOutside(previous, current, paths)
    ensures Errors(InPaths(previous, paths), InPaths(current, paths), OrderIn(order, paths), limits) ==
            Errors(previous, current, order, limits)
  {
    if order != [] {
      var init, last := order[..|order| - 1], order[|order| - 1];
      assert order == init + [last];
      RestrictedErrorsAlong(previous, current, init, paths, limits);
      if last.path in paths {
        var kept := OrderIn(init, paths);
        assert (kept + [last])[..|kept|] == kept;
        JudgeInside(previous, current[last], last, paths, limits);
      } else {
        JudgeOutside(previous, current, last, paths, limits);
      }
    }
  }

  lemma {:induction false} RestrictedWarningCount(previous: Snapshot, current: Snapshot, order: seq<Symbol>,
          paths: set<string>, limits: Limits)
    requires forall s :: s in order ==> s in current
    requires SameOutside(previous, current, paths)
    ensures var whole := Warnings(previous, current, order, limits);
            var before, after := InPaths(previous, paths), InPaths(current, paths);
            var restricted := Warnings(before, after, OrderIn(order, paths), limits);
            var quiet := UnchangedWithin(current, order, paths, limits.threshold);
            var extra := if limits.warningDelta > 0 then 0 else quiet;
            && |whole| == |restricted| + extra
            && (extra == 0 ==> whole == restricted)
  {
    if order != [] {
      var init, last := order[..|order| - 1], order[|order| - 1];
      assert order == init + [last];
      RestrictedWarningCount(previous, current, init, paths, limits);
      if last.path in paths {
        var kept := OrderIn(init, paths);
        assert (kept + [last])[..|kept|] == kept;
        JudgeInside(previous, current[last], last, paths, limits);
      } else {
        JudgeOutside(previous, current, last, paths, limits);
      }
    }
  }

  // The walk over the changed files is the whole walk with the other files left out.
  lemma {:induction false} OrderInSorted(order: seq<Symbol>, paths: set<string>)
    requires IsSorted(SymbolLeq, order)
    ensures IsSorted(SymbolLeq, OrderIn(order, paths))
  {
    if order != [] {
      var init, last := order[..|order| - 1], order[|order| - 1];
      OrderInSorted(init, paths);
      forall s | s in OrderIn(init, paths)
        ensures SymbolLeq(s, last)
      {
        assert s in init;
        var i :| 0 <= i < |init| && init[i] == s;
        assert SymbolLeq(order[i], order[|init|]);
      }
    }
  }

  lemma {:induction false} OrderInCounts(order: seq<Symbol>, paths: set<string>, s: Symbol)
    ensures multiset(OrderIn(order, paths))[s] == if s.path in paths then multiset(order)[s] else 0
  {
    if order != [] {
      var init, last := order[..|order| - 1], order[|order| - 1];
      assert order == init + [last];
      OrderInCounts(init, paths, s);
    }
  }

  lemma WalkIn(current: Snapshot, paths: set<string>)
    ensures OrderIn(Walk(current), paths) == Walk(InPaths(current, paths))
  {
    var keys, kept, items := current.Keys, InPaths(current, paths).Keys, OrderIn(Walk(current), paths);
    SymbolsAreOrdered();
    InOrderIs(SymbolLeq, keys, Walk(current));
    OrderInSorted(Walk(current), paths);
    forall s
      ensures multiset(items)[s] == multiset(kept)[s]
    {
      OrderInCounts(Walk(current), paths, s);
      assert multiset(kept)[s] == if s.path in paths then multiset(keys)[s] else 0;
    }
    assert multiset(items) == multiset(kept);
    InOrderIs(SymbolLeq, kept, items);
  }

  // The gate restricted to the changed files reports the same errors as the whole comparison.
  lemma RestrictedErrors(previous: Snapshot, current: Snapshot, paths: set<string>, limits: Limits)
    requires SameOutside(previous, current, paths)
    ensures AllErrors(InPaths(previous, paths), InPaths(current, paths), limits) == AllErrors(previous, current, limits)
  {
    WalkIn(current, paths);
    RestrictedErrorsAlong(previous, current, Walk(current), paths, limits);
  }

  // An unchanged function that is within the threshold.
  ghost predicate QuietOutside(current: Snapshot, paths: set<string>, threshold: int) {
    exists s :: s in current && s.path !in paths && current[s].complexity <= threshold
  }

  lemma {:induction false} UnchangedWithinMeaning(current: Snapshot, order: seq<Symbol>, paths: set<string>,
          threshold: int)
    requires forall s :: s in order ==> s in current
    ensures UnchangedWithin(current, order, paths, threshold) > 0 <==>
            exists s :: s in order && s.path !in paths && current[s].complexity <= threshold
  {
    if order != [] {
      var init, last := order[..|order| - 1], order[|order| - 1];
      assert order == init + [last];
      UnchangedWithinMeaning(current, init, paths, threshold);
    }
  }

  // It reports the same warnings exactly when a warning needs a rise, or nothing unchanged is within
  // the threshold: a non-positive delta makes every unchanged function within it a warning.
  lemma RestrictedWarnings(previous: Snapshot, current: Snapshot, paths: set<string>, limits: Limits)
    requires SameOutside(previous, current, paths)
    ensures AllWarnings(InPaths(previous, paths), InPaths(current, paths), limits) ==
            AllWarnings(previous, current, limits)
            <==> limits.warningDelta > 0 || !QuietOutside(current, paths, limits.threshold)
  {
    WalkIn(current, paths);
    RestrictedWarningCount(previous, current, Walk(current), paths, limits);
    UnchangedWithinMeaning(current, Walk(current), paths, limits.threshold);
  }

  // With a delta of zero an unchanged function is a warning of the whole comparison only.
  lemma UnchangedIsWarned()
    ensures var symbol := Symbol("src/a.py", "f");
            var same := map[symbol := Measured(symbol, 3, 1)];
            var restricted := AllWarnings(InPaths(same, {}), InPaths(same, {}), Limits(10, 0));
            SameOutside(same, same, {}) && restricted != AllWarnings(same, same, Limits(10, 0))
  {
    var symbol := Symbol("src/a.py", "f");
    var same := map[symbol := Measured(symbol, 3, 1)];
    assert symbol in same && symbol.path !in {};
    assert QuietOutside(same, {}, 10);
    RestrictedWarnings(same, same, {}, Limits(10, 0));
  }
}
