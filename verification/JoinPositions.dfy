/** Where each use of a stream ends up among the emitted calls, when no id is repeated. */
module JoinPositions {
  import opened ToolJoin
  import opened JoinLaws

  // The first result after a use that carries its id.
  ghost function AnswerOf<U(!new), R(!new)>(es: seq<Event<U, R>>, p: nat): (k: nat)
    requires Answered(es, p)
    ensures Answers(es, p, k)
  {
    var k: nat :| Answers(es, p, k);
    k
  }

  lemma AnswerIsUnique<U, R>(es: seq<Event<U, R>>, p: nat, j: nat, k: nat)
    requires Answers(es, p, j) && Answers(es, p, k)
    ensures j == k
  {}

  // Answered uses come in the order of their results, the others after them in the order of arrival.
  ghost function CallAt<U(!new), R(!new)>(es: seq<Event<U, R>>, p: nat): nat
    requires p < |es| && es[p].Use?
  {
    if Answered(es, p) then |AnsweredCalls(es, AnswerOf(es, p))|
    else |AnsweredCalls(es, |es|)| + |OrphanCalls(es, p)|
  }

  lemma {:induction false} AnsweredGrow<U, R>(es: seq<Event<U, R>>, m: nat, n: nat)
    requires m <= n <= |es|
    ensures AnsweredCalls(es, m) <= AnsweredCalls(es, n)
  {
    if m < n {
      AnsweredGrow(es, m, n - 1);
    }
  }

  lemma {:induction false} OrphansGrow<U, R>(es: seq<Event<U, R>>, m: nat, n: nat)
    requires m <= n <= |es|
    ensures OrphanCalls(es, m) <= OrphanCalls(es, n)
  {
    if m < n {
      OrphansGrow(es, m, n - 1);
    }
  }

  lemma AnsweredStep<U, R>(es: seq<Event<U, R>>, p: nat, k: nat)
    requires DistinctUseIds(es) && Answers(es, p, k)
    ensures AnsweredCalls(es, k + 1) == AnsweredCalls(es, k) + [Joined(es[p].use, es[k].res)]
  {
    forall q: nat | Answers(es, q, k)
      ensures q == p
    {
      AnswersIsLatest(es, p, k);
      AnswersIsLatest(es, q, k);
    }
  }

  lemma AnsweredPlace<U(!new), R(!new)>(es: seq<Event<U, R>>, p: nat)
    requires DistinctUseIds(es) && Answered(es, p)
    ensures var k, all := AnswerOf(es, p), AnsweredCalls(es, |es|);
            |AnsweredCalls(es, k)| < |all| && all[|AnsweredCalls(es, k)|] == Joined(es[p].use, es[k].res)
  {
    var k := AnswerOf(es, p);
    AnsweredStep(es, p, k);
    AnsweredGrow(es, k + 1, |es|);
  }

  lemma OrphanPlace<U, R>(es: seq<Event<U, R>>, p: nat)
    requires p < |es| && es[p].Use? && !Answered(es, p)
    ensures var all := OrphanCalls(es, |es|);
            |OrphanCalls(es, p)| < |all| && all[|OrphanCalls(es, p)|] == Unmatched(es[p].use)
  {
    OrphansGrow(es, p + 1, |es|);
  }

  // The call at that place is the use's own, with the result that answered it.
  lemma CallAtMeaning<U(!new), R(!new)>(es: seq<Event<U, R>>, p: nat)
    requires DistinctUseIds(es) && p < |es| && es[p].Use?
    ensures CallAt(es, p) < |Stream(es)|
    ensures Stream(es)[CallAt(es, p)] ==
            if Answered(es, p) then Joined(es[p].use, es[AnswerOf(es, p)].res) else Unmatched(es[p].use)
  {
    DistinctJoin(es, Every());
    if Answered(es, p) {
      AnsweredPlace(es, p);
    } else {
      OrphanPlace(es, p);
    }
  }

  lemma AnsweredOrder<U(!new), R(!new)>(es: seq<Event<U, R>>, p: nat, q: nat)
    requires DistinctUseIds(es) && Answered(es, p) && Answered(es, q) && AnswerOf(es, p) < AnswerOf(es, q)
    ensures CallAt(es, p) < CallAt(es, q)
  {
    AnsweredStep(es, p, AnswerOf(es, p));
    AnsweredGrow(es, AnswerOf(es, p) + 1, AnswerOf(es, q));
  }

  lemma OrphanOrder<U(!new), R(!new)>(es: seq<Event<U, R>>, p: nat, q: nat)
    requires p < q < |es| && es[p].Use? && es[q].Use? && !Answered(es, p) && !Answered(es, q)
    ensures CallAt(es, p) < CallAt(es, q)
  {
    OrphansGrow(es, p + 1, q);
  }

  lemma AnsweredFirst<U(!new), R(!new)>(es: seq<Event<U, R>>, p: nat, q: nat)
    requires DistinctUseIds(es) && Answered(es, p) && q < |es| && es[q].Use? && !Answered(es, q)
    ensures CallAt(es, p) < CallAt(es, q)
  {
    AnsweredPlace(es, p);
  }

  // No two uses share a call.
  lemma CallAtInjective<U(!new), R(!new)>(es: seq<Event<U, R>>, p: nat, q: nat)
    requires DistinctUseIds(es) && p < q < |es| && es[p].Use? && es[q].Use?
    ensures CallAt(es, p) != CallAt(es, q)
  {
    if Answered(es, p) && Answered(es, q) {
      assert es[AnswerOf(es, p)].id == es[p].id && es[AnswerOf(es, q)].id == es[q].id;
      if AnswerOf(es, p) < AnswerOf(es, q) {
        AnsweredOrder(es, p, q);
      } else {
        AnsweredOrder(es, q, p);
      }
    } else if Answered(es, p) {
      AnsweredFirst(es, p, q);
    } else if Answered(es, q) {
      AnsweredFirst(es, q, p);
    } else {
      OrphanOrder(es, p, q);
    }
  }

  lemma {:induction false} AnsweredFrom<U(!new), R(!new)>(es: seq<Event<U, R>>, n: nat, i: nat)
    requires n <= |es| && i < |AnsweredCalls(es, n)|
    ensures exists p: nat :: Answered(es, p) && |AnsweredCalls(es, AnswerOf(es, p))| == i
  {
    if i < |AnsweredCalls(es, n - 1)| {
      AnsweredFrom(es, n - 1, i);
    } else {
      var p: nat :| Answers(es, p, n - 1);
      AnswerIsUnique(es, p, AnswerOf(es, p), n - 1);
    }
  }

  lemma {:induction false} OrphanFrom<U, R>(es: seq<Event<U, R>>, n: nat, i: nat)
    requires n <= |es| && i < |OrphanCalls(es, n)|
    ensures exists p: nat :: p < n && es[p].Use? && !Answered(es, p) && |OrphanCalls(es, p)| == i
  {
    if i < |OrphanCalls(es, n - 1)| {
      OrphanFrom(es, n - 1, i);
    } else {
      assert es[n - 1].Use? && !Answered(es, n - 1);
    }
  }

  // Every call is some use's.
  lemma CallAtOnto<U(!new), R(!new)>(es: seq<Event<U, R>>, i: nat)
    requires DistinctUseIds(es) && i < |Stream(es)|
    ensures exists p: nat :: p < |es| && es[p].Use? && CallAt(es, p) == i
  {
    DistinctJoin(es, Every());
    var answered := |AnsweredCalls(es, |es|)|;
    if i < answered {
      AnsweredFrom(es, |es|, i);
      var p: nat :| Answered(es, p) && |AnsweredCalls(es, AnswerOf(es, p))| == i;
      assert CallAt(es, p) == i;
    } else {
      OrphanFrom(es, |es|, i - answered);
      var p: nat :| p < |es| && es[p].Use? && !Answered(es, p) && |OrphanCalls(es, p)| == i - answered;
      assert CallAt(es, p) == i;
    }
  }
}
