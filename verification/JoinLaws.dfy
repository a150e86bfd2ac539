/**
 What callers may rely on from the join: the conservation law that holds of every stream, and the
 plain reading of the join when no tool use id is repeated.
 */
module JoinLaws {
  import opened ToolJoin

  /******* Conservation: enqueued = emitted + overwritten while pending *******/

  function CountUses<U, R>(es: seq<Event<U, R>>, p: U -> bool): nat {
    if es == [] then 0
    else
      var e := es[|es| - 1];
      CountUses(es[..|es| - 1], p) + if e.Use? && p(e.use) then 1 else 0
  }

  function CountCalls<U, R>(calls: seq<Emitted<U, R>>, p: U -> bool): nat {
    if calls == [] then 0
    else CountCalls(calls[..|calls| - 1], p) + if p(calls[|calls| - 1].use) then 1 else 0
  }

  // Uses selected by `p` that a later use of the same id replaced before any result came.
  function CountOverwritten<U, R>(es: seq<Event<U, R>>, p: U -> bool): nat {
    if es == [] then 0
    else
      var n := |es| - 1;
      var e := es[n];
      CountOverwritten(es[..n], p) +
      if e.Use? && OpenAt(es, n, e.id) && p(es[LastWith(es, n, e.id)].use) then 1 else 0
  }

  lemma CountCallsAppend<U, R>(a: seq<Emitted<U, R>>, b: seq<Emitted<U, R>>, p: U -> bool)
    ensures CountCalls(a + b, p) == CountCalls(a, p) + CountCalls(b, p)
  {
    if b == [] {
      assert a + b == a;
    } else {
      var m := |b| - 1;
      CountCallsAppend(a, b[..m], p);
      assert (a + b)[..|a + b| - 1] == a + b[..m];
    }
  }

  ghost function CountPending<U>(keys: seq<string>, calls: map<string, U>, p: U -> bool): int
    requires forall k :: k in keys ==> k in calls
  {
    if keys == [] then 0
    else CountPending(keys[..|keys| - 1], calls, p) + if p(calls[keys[|keys| - 1]]) then 1 else 0
  }

  lemma CountDrained<U, R>(keys: seq<string>, calls: map<string, U>, p: U -> bool)
    requires forall k :: k in keys ==> k in calls
    ensures CountCalls(DrainKeys<U, R>(keys, calls), p) == CountPending(keys, calls, p)
  {
    if keys != [] {
      CountDrained<U, R>(keys[..|keys| - 1], calls, p);
      var init := DrainKeys<U, R>(keys[..|keys| - 1], calls);
      assert DrainKeys<U, R>(keys, calls)[..|keys| - 1] == init;
    }
  }

  lemma CountPendingSame<U>(keys: seq<string>, a: map<string, U>, b: map<string, U>, p: U -> bool)
    requires forall k :: k in keys ==> k in a && k in b && a[k] == b[k]
    ensures CountPending(keys, a, p) == CountPending(keys, b, p)
  {}

  lemma CountPendingPut<U>(keys: seq<string>, calls: map<string, U>, id: string, use: U, p: U -> bool)
    requires Distinct(keys) && id in keys
    requires forall k :: k in keys ==> k in calls
    ensures CountPending(keys, calls[id := use], p) ==
            CountPending(keys, calls, p)
            - (if p(calls[id]) then 1 else 0) + (if p(use) then 1 else 0)
  {
    var n := |keys| - 1;
    if keys[n] == id {
      CountPendingSame(keys[..n], calls, calls[id := use], p);
    } else {
      CountPendingPut(keys[..n], calls, id, use, p);
    }
  }

  lemma CountPendingLast<U>(keys: seq<string>, last: string, calls: map<string, U>, p: U -> bool)
    requires last in calls && forall k :: k in keys ==> k in calls
    ensures CountPending(keys + [last], calls, p) == CountPending(keys, calls, p) + if p(calls[last]) then 1 else 0
  {
    assert (keys + [last])[..|keys|] == keys;
  }

  lemma {:induction false} CountPendingPop<U>(keys: seq<string>, calls: map<string, U>, id: string, p: U -> bool)
    requires Distinct(keys) && id in keys
    requires forall k :: k in keys ==> k in calls
    requires forall k :: k in Without(keys, id) ==> k in calls - {id}
    ensures CountPending(Without(keys, id), calls - {id}, p) ==
            CountPending(keys, calls, p) - (if p(calls[id]) then 1 else 0)
  {
    var n := |keys| - 1;
    var init, last := keys[..n], keys[n];
    WithoutMembers(init, id);
    assert keys == init + [last];
    WithoutAppend(init, last, id);
    if last == id {
      assert id !in init;
      CountPendingSame(init, calls, calls - {id}, p);
    } else {
      assert id in init;
      CountPendingPop(init, calls, id, p);
      CountPendingLast(Without(init, id), last, calls - {id}, p);
    }
  }

  // The emitted and the still pending calls that `p` selects.
  ghost function Held<U, R>(s: State<U, R>, p: U -> bool): int
    requires s.pending.Valid()
  {
    CountCalls(s.out, p) + CountPending(s.pending.keys, s.pending.calls, p)
  }

  lemma UseHolds<U, R>(s: State<U, R>, id: string, use: U, p: U -> bool)
    requires s.pending.Valid() && Step(s, Use(id, use)).pending.Valid()
    ensures Held(Step(s, Use(id, use)), p) ==
            Held(s, p) + (if p(use) then 1 else 0)
            - (if id in s.pending.calls && p(s.pending.calls[id]) then 1 else 0)
  {
    if id in s.pending.calls {
      CountPendingPut(s.pending.keys, s.pending.calls, id, use, p);
    } else {
      CountPendingSame(s.pending.keys, s.pending.calls, s.pending.calls[id := use], p);
      assert (s.pending.keys + [id])[..|s.pending.keys|] == s.pending.keys;
    }
  }

  lemma ResultHolds<U, R>(s: State<U, R>, id: string, res: R, p: U -> bool)
    requires s.pending.Valid() && Step(s, Result(id, res)).pending.Valid()
    ensures Held(Step(s, Result(id, res)), p) == Held(s, p)
  {
    if id in s.pending.calls {
      CountPendingPop(s.pending.keys, s.pending.calls, id, p);
      CountCallsAppend(s.out, [Joined(s.pending.calls[id], res)], p);
    }
  }

  lemma {:induction false} RunConserves<U, R>(es: seq<Event<U, R>>, p: U -> bool)
    ensures Run(es).pending.Valid()
    ensures CountUses(es, p) == Held(Run(es), p) + CountOverwritten(es, p)
  {
    RunValid(es);
    if es != [] {
      RunConserves(es[..|es| - 1], p);
      EventConserves(es, p);
    }
  }

  // A use is overwritten by the event at the end of the stream when its id is pending there.
  lemma OverwrittenIsPending<U, R>(es: seq<Event<U, R>>, p: U -> bool)
    requires es != []
    ensures var init, e := es[..|es| - 1], es[|es| - 1];
            var calls := Run(init).pending.calls;
            CountOverwritten(es, p) ==
            CountOverwritten(init, p) + if e.Use? && e.id in calls && p(calls[e.id]) then 1 else 0
  {
    var n := |es| - 1;
    PendingIsOpen(es[..n], es[n].id);
    LastWithPrefix(es, n, n, es[n].id);
  }

  lemma EventConserves<U, R>(es: seq<Event<U, R>>, p: U -> bool)
    requires es != [] && Run(es).pending.Valid() && Run(es[..|es| - 1]).pending.Valid()
    ensures var init, e := es[..|es| - 1], es[|es| - 1];
            Held(Run(es), p) - Held(Run(init), p) ==
            (CountUses(es, p) - CountUses(init, p)) - (CountOverwritten(es, p) - CountOverwritten(init, p))
  {
    var n := |es| - 1;
    var s := Run(es[..n]);
    assert Run(es) == Step(s, es[n]);
    OverwrittenIsPending(es, p);
    match es[n] {
      case Use(id, use) => UseHolds(s, id, use, p);
      case Result(id, res) => ResultHolds(s, id, res, p);
    }
  }

  // For every stream and every way of selecting uses: each selected use is emitted once, or was
  // overwritten while pending.
  lemma {:induction false} JoinConserves<U, R>(es: seq<Event<U, R>>, p: U -> bool)
    ensures CountUses(es, p) == CountCalls(Stream(es), p) + CountOverwritten(es, p)
  {
    RunConserves(es, p);
    var s := Run(es);
    CountDrained<U, R>(s.pending.keys, s.pending.calls, p);
    CountCallsAppend(s.out, Drain(s.pending), p);
  }

  function Every<U>(): U -> bool { (u: U) => true }

  lemma CountEvery<U, R>(cs: seq<Emitted<U, R>>)
    ensures CountCalls(cs, Every()) == |cs|
  {
    if cs != [] {
      CountEvery(cs[..|cs| - 1]);
    }
  }

  /******* The join when no id is repeated *******/

  ghost predicate DistinctUseIds<U, R>(es: seq<Event<U, R>>) {
    forall i, j :: 0 <= i < j < |es| && es[i].Use? && es[j].Use? ==> es[i].id != es[j].id
  }

  // Event k is the first result for the id of the use at p that comes after it.
  ghost predicate Answers<U, R>(es: seq<Event<U, R>>, p: nat, k: nat) {
    && p < k < |es|
    && es[p].Use? && es[k].Result? && es[p].id == es[k].id
    && forall i :: p < i < k && es[i].id == es[k].id ==> es[i].Use?
  }

  ghost predicate Answered<U, R>(es: seq<Event<U, R>>, p: nat) {
    exists k: nat :: Answers(es, p, k)
  }

  // The answered calls, in the order of the results.
  ghost function AnsweredCalls<U, R>(es: seq<Event<U, R>>, n: nat): seq<Emitted<U, R>>
    requires n <= |es|
  {
    if n == 0 then []
    else
      var k := n - 1;
      if exists p: nat :: Answers(es, p, k) then
        var p: nat :| Answers(es, p, k);
        AnsweredCalls(es, k) + [Joined(es[p].use, es[k].res)]
      else AnsweredCalls(es, k)
  }

  // The calls nobody answered, in the order of arrival.
  ghost function OrphanCalls<U, R>(es: seq<Event<U, R>>, n: nat): seq<Emitted<U, R>>
    requires n <= |es|
  {
    if n == 0 then []
    else if es[n - 1].Use? && !Answered(es, n - 1) then
      OrphanCalls(es, n - 1) + [Unmatched(es[n - 1].use)]
    else OrphanCalls(es, n - 1)
  }

  lemma AnswersIsLatest<U, R>(es: seq<Event<U, R>>, p: nat, k: nat)
    requires DistinctUseIds(es) && Answers(es, p, k)
    ensures OpenAt(es, k, es[k].id) && LastWith(es, k, es[k].id) == p
  {
    var j := LastWith(es, k, es[k].id);
    assert j >= p;
    if j > p {
      assert false;
    }
  }

  lemma AnsweredAreJoined<U, R>(es: seq<Event<U, R>>, n: nat)
    requires DistinctUseIds(es) && n <= |es|
    ensures AnsweredCalls(es, n) == JoinedCalls(es, n)
  {
    if n > 0 {
      var k := n - 1;
      var e := es[k];
      AnsweredAreJoined(es, k);
      if exists p: nat :: Answers(es, p, k) {
        var p: nat :| Answers(es, p, k);
        forall q: nat | Answers(es, q, k)
          ensures OpenAt(es, k, e.id) && LastWith(es, k, e.id) == q
        {
          AnswersIsLatest(es, q, k);
        }
      } else {
        assert e.Result? && OpenAt(es, k, e.id) ==> Answers(es, LastWith(es, k, e.id), k);
      }
    }
  }

  lemma FirstResultAfter<U, R>(es: seq<Event<U, R>>, p: nat, i: nat)
    requires p < i < |es| && es[p].Use? && es[i].Result? && es[i].id == es[p].id
    ensures Answered(es, p)
  {
    if exists j :: p < j < i && es[j].Result? && es[j].id == es[p].id {
      var j :| p < j < i && es[j].Result? && es[j].id == es[p].id;
      FirstResultAfter(es, p, j);
    } else {
      assert Answers(es, p, i);
    }
  }

  lemma OrphansWait<U, R>(es: seq<Event<U, R>>, k: nat)
    requires DistinctUseIds(es) && k < |es|
    ensures Waits(es, k) <==> es[k].Use? && !Answered(es, k)
    ensures Waits(es, k) ==> LastWith(es, |es|, es[k].id) == k
  {
    if Waits(es, k) {
      var j := LastWith(es, |es|, es[k].id);
      if j > k {
        assert false;
      }
    } else if es[k].Use? && !OpenAt(es, k, es[k].id) {
      var i :| k < i < |es| && es[i].id == es[k].id && !es[i].Use?;
      FirstResultAfter(es, k, i);
    }
  }

  lemma OrphansAreUnmatched<U, R>(es: seq<Event<U, R>>, n: nat)
    requires DistinctUseIds(es) && n <= |es|
    ensures OrphanCalls(es, n) == UnmatchedCalls(es, n)
  {
    if n > 0 {
      OrphansAreUnmatched(es, n - 1);
      OrphansWait(es, n - 1);
    }
  }

  lemma NothingOverwritten<U, R>(es: seq<Event<U, R>>, p: U -> bool)
    requires DistinctUseIds(es)
    ensures CountOverwritten(es, p) == 0
  {
    if es != [] {
      NothingOverwritten(es[..|es| - 1], p);
    }
  }

  // With distinct ids: every use is paired with the first result after it, joined calls come out in
  // result order, the rest follow in arrival order, and each selected use yields exactly one call.
  lemma {:induction false} DistinctJoin<U, R>(es: seq<Event<U, R>>, p: U -> bool)
    requires DistinctUseIds(es)
    ensures Stream(es) == AnsweredCalls(es, |es|) + OrphanCalls(es, |es|)
    ensures CountCalls(Stream(es), p) == CountUses(es, p)
  {
    StreamIsOffline(es);
    AnsweredAreJoined(es, |es|);
    OrphansAreUnmatched(es, |es|);
    JoinConserves(es, p);
    NothingOverwritten(es, p);
  }

  // A result whose id is not pending where it comes adds nothing, whatever follows it.
  lemma {:induction false} StrayResultAddsNothing<U, R>(a: seq<Event<U, R>>, e: Event<U, R>, b: seq<Event<U, R>>)
    requires e.Result? && !OpenAt(a, |a|, e.id)
    ensures Stream(a + [e] + b) == Stream(a + b)
  {
    PendingIsOpen(a, e.id);
    assert (a + [e])[..|a|] == a;
    RunInPieces(Start(), a + [e], b);
    RunInPieces(Start(), a, b);
  }
}
