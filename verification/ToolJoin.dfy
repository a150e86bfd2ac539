/** The join of tool calls to their results (src/toolbench/parsers.py). */
module ToolJoin {

  // Both parsers hold a `pending` dictionary while they read a transcript: a tool use is stored under
  // its id, a result pops the call stored under its id and emits it, and whatever is still pending at
  // the end is drained. This module holds that machine (`Run`), the meaning it must have when the whole
  // stream is known (`Offline`), and the proof that they agree on every stream.

  datatype Event<U, R> =
    | Use(id: string, use: U)
    | Result(id: string, res: R)

  datatype Emitted<U, R> =
    | Joined(use: U, res: R)
    | Unmatched(use: U)

  ghost predicate Distinct(keys: seq<string>) {
    forall i, j :: 0 <= i < j < |keys| ==> keys[i] != keys[j]
  }

  // A Python dict: assigning a key that is present keeps its position, a popped key that comes
  // back goes to the end.
  datatype Pending<U> = Pending(keys: seq<string>, calls: map<string, U>) {

    ghost predicate Valid() {
      && Distinct(keys)
      && (forall k :: k in keys <==> k in calls)
    }

    function Put(id: string, use: U): Pending<U> {
      Pending(if id in calls then keys else keys + [id], calls[id := use])
    }

    function Pop(id: string): Pending<U> {
      Pending(Without(keys, id), calls - {id})
    }
  }

  function Without(keys: seq<string>, id: string): seq<string> {
    if keys == [] then []
    else
      var rest := Without(keys[..|keys| - 1], id);
      if keys[|keys| - 1] == id then rest else rest + [keys[|keys| - 1]]
  }

  datatype State<U, R> = State(pending: Pending<U>, out: seq<Emitted<U, R>>)

  function Start<U, R>(): State<U, R> {
    State(Pending([], map[]), [])
  }

  function Step<U, R>(s: State<U, R>, e: Event<U, R>): State<U, R> {
    match e
    case Use(id, use) => s.(pending := s.pending.Put(id, use))
    case Result(id, res) =>
      if id in s.pending.calls then
        State(s.pending.Pop(id), s.out + [Joined(s.pending.calls[id], res)])
      else s
  }

  function RunFrom<U, R>(s: State<U, R>, es: seq<Event<U, R>>): State<U, R> {
    if es == [] then s else Step(RunFrom(s, es[..|es| - 1]), es[|es| - 1])
  }

  // The machine after the whole stream, before the drain.
  function Run<U, R>(es: seq<Event<U, R>>): State<U, R> {
    RunFrom(Start(), es)
  }

  lemma RunInPieces<U, R>(s: State<U, R>, a: seq<Event<U, R>>, b: seq<Event<U, R>>)
    ensures RunFrom(s, a + b) == RunFrom(RunFrom(s, a), b)
  {
    if b == [] {
      assert a + b == a;
    } else {
      RunInPieces(s, a, b[..|b| - 1]);
      assert (a + b)[..|a + b| - 1] == a + b[..|b| - 1];
    }
  }

  // Still pending calls, in dictionary order.
  function Drain<U, R>(p: Pending<U>): (out: seq<Emitted<U, R>>)
    requires p.Valid()
  {
    DrainKeys(p.keys, p.calls)
  }

  function DrainKeys<U, R>(keys: seq<string>, calls: map<string, U>): (out: seq<Emitted<U, R>>)
    requires forall k :: k in keys ==> k in calls
    ensures |out| == |keys|
    ensures forall i :: 0 <= i < |keys| ==> out[i] == Unmatched(calls[keys[i]])
  {
    if keys == [] then []
    else DrainKeys(keys[..|keys| - 1], calls) + [Unmatched(calls[keys[|keys| - 1]])]
  }

  function Stream<U, R>(es: seq<Event<U, R>>): seq<Emitted<U, R>> {
    RunValid(es);
    Run(es).out + Drain(Run(es).pending)
  }

  // The dictionary object the parsers share with their helpers.
  class PendingCalls<U> {
    var keys: seq<string>
    var calls: map<string, U>

    constructor ()
      ensures Contents() == Pending([], map[])
    {
      keys, calls := [], map[];
    }

    ghost function Contents(): Pending<U>
      reads this
    {
      Pending(keys, calls)
    }

    method Put(id: string, use: U)
      modifies this
      ensures Contents() == old(Contents()).Put(id, use)
    {
      if id !in calls {
        keys := keys + [id];
      }
      calls := calls[id := use];
    }

    method Pop(id: string) returns (use: U)
      requires id in calls
      modifies this
      ensures use == old(calls)[id]
      ensures Contents() == old(Contents()).Pop(id)
    {
      use := calls[id];
      keys := Without(keys, id);
      calls := calls - {id};
    }
  }

  /******* What the stream means once all of it is known *******/

  // The position of the latest event before `n` that carries `id`, or -1.
  function LastWith<U, R>(es: seq<Event<U, R>>, n: nat, id: string): (j: int)
    requires n <= |es|
    ensures -1 <= j < n
    ensures j >= 0 ==> es[j].id == id
    ensures forall i :: j < i < n ==> es[i].id != id
  {
    if n == 0 then -1
    else if es[n - 1].id == id then n - 1
    else LastWith(es, n - 1, id)
  }

  // Is the latest event before `n` that carries `id` a use?
  predicate OpenAt<U, R>(es: seq<Event<U, R>>, n: nat, id: string)
    requires n <= |es|
  {
    LastWith(es, n, id) >= 0 && es[LastWith(es, n, id)].Use?
  }

  // The calls the results among the first `n` events complete, in result order: a result takes the
  // event with its id just before it, when that event is a use.
  function JoinedCalls<U, R>(es: seq<Event<U, R>>, n: nat): seq<Emitted<U, R>>
    requires n <= |es|
  {
    if n == 0 then []
    else
      var rest := JoinedCalls(es, n - 1);
      var e := es[n - 1];
      if e.Result? && OpenAt(es, n - 1, e.id)
      then rest + [Joined(es[LastWith(es, n - 1, e.id)].use, e.res)]
      else rest
  }

  // Position k opens a call that no later event completes: a use, not a repetition of a use still
  // waiting, with no result for its id after it.
  ghost predicate Waits<U, R>(es: seq<Event<U, R>>, k: nat)
    requires k < |es|
  {
    && es[k].Use?
    && !OpenAt(es, k, es[k].id)
    && forall i :: k < i < |es| && es[i].id == es[k].id ==> es[i].Use?
  }

  // The ids of the calls opened before position k that wait to the end, in opening order.
  ghost function WaitingIds<U, R>(es: seq<Event<U, R>>, k: nat): seq<string>
    requires k <= |es|
  {
    if k == 0 then []
    else if Waits(es, k - 1) then WaitingIds(es, k - 1) + [es[k - 1].id]
    else WaitingIds(es, k - 1)
  }

  // The call a waiting id ends up with: the latest use of it.
  ghost function UnmatchedCalls<U, R>(es: seq<Event<U, R>>, k: nat): seq<Emitted<U, R>>
    requires k <= |es|
  {
    if k == 0 then []
    else if Waits(es, k - 1) then
      UnmatchedCalls(es, k - 1) + [Unmatched(LatestUse(es, es[k - 1].id, k - 1))]
    else UnmatchedCalls(es, k - 1)
  }

  ghost function LatestUse<U, R>(es: seq<Event<U, R>>, id: string, k: nat): U
    requires k < |es| && es[k].id == id && Waits(es, k)
  {
    es[LastWith(es, |es|, id)].use
  }

  ghost function Offline<U, R>(es: seq<Event<U, R>>): seq<Emitted<U, R>> {
    JoinedCalls(es, |es|) + UnmatchedCalls(es, |es|)
  }

  /******* The machine keeps its dictionary in step with that meaning *******/

  lemma WithoutAppend(w: seq<string>, last: string, id: string)
    ensures Without(w + [last], id) == if last == id then Without(w, id) else Without(w, id) + [last]
  {
    assert (w + [last])[..|w|] == w;
  }

  lemma {:induction false} WithoutMembers(keys: seq<string>, id: string)
    ensures forall k :: k in Without(keys, id) <==> k in keys && k != id
    ensures Distinct(keys) ==> Distinct(Without(keys, id))
    ensures id !in keys ==> Without(keys, id) == keys
  {
    if keys != [] {
      var n := |keys| - 1;
      WithoutMembers(keys[..n], id);
      assert keys == keys[..n] + [keys[n]];
      if Distinct(keys) {
        assert Distinct(keys[..n]);
        assert keys[n] !in keys[..n];
      }
    }
  }

  lemma RunValid<U, R>(es: seq<Event<U, R>>)
    ensures Run(es).pending.Valid()
  {
    if es != [] {
      RunValid(es[..|es| - 1]);
      WithoutMembers(Run(es[..|es| - 1]).pending.keys, es[|es| - 1].id);
    }
  }

  lemma LastWithPrefix<U, R>(es: seq<Event<U, R>>, m: nat, n: nat, id: string)
    requires n <= m <= |es|
    ensures LastWith(es[..m], n, id) == LastWith(es, n, id)
  {
    if n > 0 {
      LastWithPrefix(es, m, n - 1, id);
    }
  }

  lemma JoinedPrefix<U, R>(es: seq<Event<U, R>>, m: nat, n: nat)
    requires n <= m <= |es|
    ensures JoinedCalls(es[..m], n) == JoinedCalls(es, n)
  {
    if n > 0 {
      JoinedPrefix(es, m, n - 1);
      LastWithPrefix(es, m, n - 1, es[n - 1].id);
    }
  }

  // One more event: a use leaves the waiting ids of the earlier events alone, a result strikes its id.
  lemma {:induction false} WaitingStep<U, R>(es: seq<Event<U, R>>, k: nat)
    requires es != [] && k < |es|
    ensures var init, e := es[..|es| - 1], es[|es| - 1];
            WaitingIds(es, k) ==
            if e.Use? then WaitingIds(init, k) else Without(WaitingIds(init, k), e.id)
  {
    var init, e := es[..|es| - 1], es[|es| - 1];
    if k > 0 {
      WaitingStep(es, k - 1);
      WaitsStep(es, k - 1);
      var id, before := es[k - 1].id, WaitingIds(init, k - 1);
      assert init[k - 1].id == id;
      if Waits(init, k - 1) {
        assert WaitingIds(init, k) == before + [id];
        WithoutAppend(before, id, e.id);
        assert WaitingIds(es, k) ==
               if e.Use? || e.id != id then WaitingIds(es, k - 1) + [id] else WaitingIds(es, k - 1);
      } else {
        assert WaitingIds(init, k) == before;
        assert WaitingIds(es, k) == WaitingIds(es, k - 1);
      }
    }
  }

  lemma WaitsStep<U, R>(es: seq<Event<U, R>>, k: nat)
    requires k < |es| - 1
    ensures var init, e := es[..|es| - 1], es[|es| - 1];
            Waits(es, k) <==> Waits(init, k) && (e.Use? || e.id != es[k].id)
  {
    var init := es[..|es| - 1];
    LastWithPrefix(es, |es| - 1, k, es[k].id);
    assert forall i :: 0 <= i < |init| ==> init[i] == es[i];
  }

  // An id is pending exactly when its latest event is a use, and then that use is what is stored.
  lemma {:induction false} PendingIsOpen<U, R>(es: seq<Event<U, R>>, id: string)
    ensures id in Run(es).pending.calls <==> OpenAt(es, |es|, id)
    ensures OpenAt(es, |es|, id) ==>
              Run(es).pending.calls[id] == es[LastWith(es, |es|, id)].use
  {
    if es != [] {
      var n := |es| - 1;
      PendingIsOpen(es[..n], id);
      LastWithPrefix(es, n, n, id);
    }
  }

  lemma {:induction false} OutIsJoined<U, R>(es: seq<Event<U, R>>)
    ensures Run(es).out == JoinedCalls(es, |es|)
  {
    if es != [] {
      var n := |es| - 1;
      OutIsJoined(es[..n]);
      JoinedPrefix(es, n, n);
      PendingIsOpen(es[..n], es[n].id);
      LastWithPrefix(es, n, n, es[n].id);
    }
  }

  lemma {:induction false} KeysAreWaiting<U, R>(es: seq<Event<U, R>>)
    ensures Run(es).pending.keys == WaitingIds(es, |es|)
  {
    if es != [] {
      var n := |es| - 1;
      var init, e := es[..n], es[n];
      KeysAreWaiting(init);
      RunValid(init);
      WaitingStep(es, n);
      PendingIsOpen(init, e.id);
      LastWithPrefix(es, n, n, e.id);
      WithoutMembers(Run(init).pending.keys, e.id);
    }
  }

  lemma {:induction false} DrainMeaning<U, R>(es: seq<Event<U, R>>, k: nat)
    requires k <= |es|
    requires forall id :: id in WaitingIds(es, k) ==> id in Run(es).pending.calls
    ensures DrainKeys(WaitingIds(es, k), Run(es).pending.calls) == UnmatchedCalls(es, k)
  {
    if k > 0 {
      var w := WaitingIds(es, k - 1);
      assert forall id :: id in w ==> id in WaitingIds(es, k);
      DrainMeaning(es, k - 1);
      if Waits(es, k - 1) {
        assert (w + [es[k - 1].id])[..|w|] == w;
        assert es[k - 1].id in WaitingIds(es, k);
        PendingIsOpen(es, es[k - 1].id);
      }
    }
  }

  // The streaming join refines the offline join on every stream, repeated ids included.
  lemma {:induction false} StreamIsOffline<U, R>(es: seq<Event<U, R>>)
    ensures Stream(es) == Offline(es)
  {
    RunValid(es);
    OutIsJoined(es);
    KeysAreWaiting(es);
    DrainMeaning(es, |es|);
  }
}
