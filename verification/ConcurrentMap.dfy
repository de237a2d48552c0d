/** The pool of coroutines that maps a task over a list with a bounded number in
    flight. A coroutine runs without interruption from one `await` to the next,
    so taking an index off the shared cursor is one step. */
module ConcurrentMap {
  import opened Wrappers
  import opened Sums

  datatype Coroutine = Ready | Awaiting(index: nat) | Returned | Rejected

  /** `started` is the history of the indices whose task was called. */
  datatype Pool<Out> = Pool(
    cursor: nat, coroutines: seq<Coroutine>, results: seq<Option<Out>>, started: seq<nat>)

  datatype Event = Resume(w: nat) | Resolve(w: nat) | Reject(w: nat)

  /** `Math.min(limit, items.length)` coroutines; none if the limit is not
      positive. */
  function WorkerCount(limit: int, n: nat): nat {
    if limit < 0 then 0 else if limit < n then limit else n
  }

  function Start<In, Out>(items: seq<Option<In>>, limit: int): Pool<Out> {
    Pool(0, seq(WorkerCount(limit, |items|), _ => Ready), seq(|items|, _ => None), [])
  }

  predicate Enabled<Out>(p: Pool<Out>, e: Event) {
    match e
    case Resume(w) => w < |p.coroutines| && p.coroutines[w].Ready?
    case Resolve(w) => w < |p.coroutines| && p.coroutines[w].Awaiting?
    case Reject(w) => w < |p.coroutines| && p.coroutines[w].Awaiting?
  }

  /** `None` among the items stands for `undefined`, which ends the coroutine. */
  function Step<In, Out>(items: seq<Option<In>>, task: (In, nat) -> Out, p: Pool<Out>, e: Event): Pool<Out>
    requires Enabled(p, e) && PoolOk(items, task, p)
  {
    match e
    case Resume(w) =>
      var index := p.cursor;
      if index >= |items| || items[index].None? then
        p.(cursor := p.cursor + 1, coroutines := p.coroutines[w := Returned])
      else
        p.(cursor := p.cursor + 1, coroutines := p.coroutines[w := Awaiting(index)], started := p.started + [index])
    case Resolve(w) =>
      assert HeldOk(items, p, w);
      var index := p.coroutines[w].index;
      p.(results := p.results[index := Some(task(items[index].value, index))], coroutines := p.coroutines[w := Ready])
    case Reject(w) => p.(coroutines := p.coroutines[w := Coroutine.Rejected])
  }

  // ---- what holds after every step -----------------------------------------

  predicate Defined<In>(items: seq<Option<In>>, i: nat) { i < |items| && items[i].Some? }

  /** An index is held by at most one coroutine, was taken off the cursor, and has
      no result yet. */
  predicate HeldOk<In, Out>(items: seq<Option<In>>, p: Pool<Out>, w: nat)
    requires w < |p.coroutines| && |p.results| == |items|
  {
    p.coroutines[w].Awaiting? ==>
      && Defined(items, p.coroutines[w].index) && p.coroutines[w].index < p.cursor
      && p.results[p.coroutines[w].index].None?
  }

  ghost predicate PoolOk<In, Out>(items: seq<Option<In>>, task: (In, nat) -> Out, p: Pool<Out>) {
    && |p.results| == |items|
    && (forall w :: 0 <= w < |p.coroutines| ==> HeldOk(items, p, w))
    && (forall v, w :: 0 <= v < w < |p.coroutines| && p.coroutines[v].Awaiting? ==> p.coroutines[v] != p.coroutines[w])
    && (forall i :: 0 <= i < |items| && p.results[i].Some? ==>
          i < p.cursor && Defined(items, i) && p.results[i] == Some(task(items[i].value, i)))
    && (forall k :: 0 <= k < |p.started| ==> p.started[k] < p.cursor && Defined(items, p.started[k]))
    && (forall j, k :: 0 <= j < k < |p.started| ==> p.started[j] != p.started[k])
  }

  /** Every defined item below the cursor was started, and is done or held by a
      coroutine, unless one was rejected. */
  predicate Covered<In, Out>(items: seq<Option<In>>, p: Pool<Out>) {
    && |p.results| == |items|
    && forall i :: 0 <= i < |items| && i < p.cursor && Defined(items, i) ==>
         i in p.started && (p.results[i].Some? || AnyRejected(p) || Held(p, i))
  }

  predicate Held<Out>(p: Pool<Out>, i: nat) { Awaiting(i) in p.coroutines }

  predicate AnyRejected<Out>(p: Pool<Out>) { Coroutine.Rejected in p.coroutines }

  /** A coroutine that returned found the cursor past the end, or an `undefined`. */
  predicate ReturnsOk<In, Out>(items: seq<Option<In>>, p: Pool<Out>) {
    Returned in p.coroutines ==> p.cursor > |items| || exists i :: 0 <= i < |items| && items[i].None?
  }

  lemma StartOk<In, Out>(items: seq<Option<In>>, task: (In, nat) -> Out, limit: int)
    ensures var p: Pool<Out> := Start(items, limit);
      PoolOk(items, task, p) && Covered(items, p) && ReturnsOk(items, p)
  {
  }

  lemma StepKeepsPool<In, Out>(items: seq<Option<In>>, task: (In, nat) -> Out, p: Pool<Out>, e: Event)
    requires PoolOk(items, task, p) && Enabled(p, e)
    ensures PoolOk(items, task, Step(items, task, p, e))
  {
    assert HeldOk(items, p, e.w);
    var p' := Step(items, task, p, e);
    forall w | 0 <= w < |p'.coroutines|
      ensures HeldOk(items, p', w)
    {
      assert HeldOk(items, p, w);
    }
    forall v, w | 0 <= v < w < |p'.coroutines| && p'.coroutines[v].Awaiting?
      ensures p'.coroutines[v] != p'.coroutines[w]
    {
      assert HeldOk(items, p, v) && HeldOk(items, p, w);
    }
  }

  lemma StepKeepsCovered<In, Out>(items: seq<Option<In>>, task: (In, nat) -> Out, p: Pool<Out>, e: Event)
    requires PoolOk(items, task, p) && Enabled(p, e) && Covered(items, p) && ReturnsOk(items, p)
    ensures Covered(items, Step(items, task, p, e)) && ReturnsOk(items, Step(items, task, p, e))
  {
    assert HeldOk(items, p, e.w);
    var p' := Step(items, task, p, e);
    assert p'.coroutines[e.w] in p'.coroutines;
    forall c | c in p.coroutines && c != p.coroutines[e.w]
      ensures c in p'.coroutines
    {
      var w :| 0 <= w < |p.coroutines| && p.coroutines[w] == c;
      assert p'.coroutines[w] == c;
    }
    assert forall c :: c in p'.coroutines ==> c in p.coroutines || c == p'.coroutines[e.w];
    assert p.started <= p'.started;
    assert forall i :: i in p.started ==> i in p'.started;
    if e.Resume? && p'.coroutines[e.w].Awaiting? { assert p'.started[|p.started|] == p.cursor; }
    forall i | 0 <= i < |items| && i < p'.cursor && Defined(items, i)
      ensures i in p'.started && (p'.results[i].Some? || AnyRejected(p') || Held(p', i))
    {
      if i < p.cursor && Held(p, i) && Awaiting(i) != p.coroutines[e.w] { assert Awaiting(i) in p'.coroutines; }
    }
  }

  // ---- in flight -----------------------------------------------------------

  function InFlightFlags(coroutines: seq<Coroutine>): seq<nat> {
    seq(|coroutines|, w requires 0 <= w < |coroutines| => if coroutines[w].Awaiting? then 1 else 0)
  }

  function InFlight<Out>(p: Pool<Out>): nat { Sum(InFlightFlags(p.coroutines)) }

  // ---- termination ---------------------------------------------------------

  function Weight(c: Coroutine): nat {
    match c
    case Ready => 1
    case Awaiting(_) => 2
    case _ => 0
  }

  function Weights(coroutines: seq<Coroutine>): seq<nat> {
    seq(|coroutines|, w requires 0 <= w < |coroutines| => Weight(coroutines[w]))
  }

  /** What is left to do: every step takes some of it. */
  function Left<In, Out>(items: seq<Option<In>>, p: Pool<Out>): nat {
    2 * (if p.cursor < |items| then |items| - p.cursor else 0) + Sum(Weights(p.coroutines))
  }

  lemma StepsShrink<In, Out>(items: seq<Option<In>>, task: (In, nat) -> Out, p: Pool<Out>, e: Event)
    requires PoolOk(items, task, p) && Enabled(p, e)
    ensures Left(items, Step(items, task, p, e)) < Left(items, p)
  {
    var p' := Step(items, task, p, e);
    SumChange(Weights(p.coroutines), Weights(p'.coroutines), e.w);
  }

  lemma {:induction false} SumOfOnes(ws: seq<nat>)
    requires forall i :: 0 <= i < |ws| ==> ws[i] == 1
    ensures Sum(ws) == |ws|
  {
    if ws != [] { SumOfOnes(ws[..|ws| - 1]); }
  }

  /** No run is longer than three steps an item. */
  lemma StartLeft<In, Out>(items: seq<Option<In>>, limit: int)
    ensures Left<In, Out>(items, Start(items, limit)) <= 3 * |items|
  {
    var p: Pool<Out> := Start(items, limit);
    SumOfOnes(Weights(p.coroutines));
  }

  // ---- the end of the pool -------------------------------------------------

  predicate Quiescent<Out>(p: Pool<Out>) {
    forall w :: 0 <= w < |p.coroutines| ==> p.coroutines[w].Returned? || p.coroutines[w].Rejected?
  }

  predicate AllDefined<In>(items: seq<Option<In>>) { forall i :: 0 <= i < |items| ==> Defined(items, i) }

  /** The results of running the task on one item after the other. */
  function Sequential<In, Out>(items: seq<Option<In>>, task: (In, nat) -> Out): (results: seq<Option<Out>>)
    requires AllDefined(items)
  {
    seq(|items|, i requires 0 <= i < |items| => assert Defined(items, i); Some(task(items[i].value, i)))
  }

  /** A pool that has come to rest, with one coroutine that returned, has started
      every item exactly once, even if another coroutine was rejected: a
      rejection cancels nothing. */
  lemma AllStarted<In, Out>(items: seq<Option<In>>, task: (In, nat) -> Out, p: Pool<Out>, i: nat)
    requires PoolOk(items, task, p) && Covered(items, p) && ReturnsOk(items, p)
    requires AllDefined(items) && Returned in p.coroutines && i < |items|
    ensures i in p.started
    ensures forall j, k :: 0 <= j < k < |p.started| ==> p.started[j] != p.started[k]
  {
    assert p.cursor > |items| by {
      if exists k :: 0 <= k < |items| && items[k].None? {
        var k :| 0 <= k < |items| && items[k].None?;
        assert Defined(items, k);
      }
    }
    assert Defined(items, i);
  }

  /** Fulfilled, the pool has computed the sequential map. */
  lemma FulfilledIsSequential<In, Out>(items: seq<Option<In>>, task: (In, nat) -> Out, p: Pool<Out>)
    requires PoolOk(items, task, p) && Covered(items, p) && ReturnsOk(items, p)
    requires AllDefined(items) && Quiescent(p) && !AnyRejected(p) && |p.coroutines| > 0
    ensures p.results == Sequential(items, task)
  {
    assert p.coroutines[0] in p.coroutines;
    forall i | 0 <= i < |items|
      ensures p.results[i] == Sequential(items, task)[i]
    {
      assert Defined(items, i);
      AllStarted(items, task, p, i);
      assert i < p.cursor;
      assert forall w :: 0 <= w < |p.coroutines| ==> p.coroutines[w] != Awaiting(i);
    }
  }

  // ---- runs ----------------------------------------------------------------

  /** Events that can follow one another. */
  ghost predicate CanRun<In, Out>(items: seq<Option<In>>, task: (In, nat) -> Out, p: Pool<Out>, events: seq<Event>)
    requires PoolOk(items, task, p)
    decreases |events|
  {
    events == [] || (Enabled(p, events[0]) &&
      (StepKeepsPool(items, task, p, events[0]); CanRun(items, task, Step(items, task, p, events[0]), events[1..])))
  }

  ghost function Run<In, Out>(items: seq<Option<In>>, task: (In, nat) -> Out, p: Pool<Out>,
                              events: seq<Event>): Pool<Out>
    requires PoolOk(items, task, p) && CanRun(items, task, p, events)
    decreases |events|
  {
    if events == [] then p
    else
      StepKeepsPool(items, task, p, events[0]);
      Run(items, task, Step(items, task, p, events[0]), events[1..])
  }

  lemma {:induction false} RunKeeps<In, Out>(items: seq<Option<In>>, task: (In, nat) -> Out, p: Pool<Out>,
                                             events: seq<Event>)
    requires PoolOk(items, task, p) && Covered(items, p) && ReturnsOk(items, p) && CanRun(items, task, p, events)
    ensures var q := Run(items, task, p, events);
      && PoolOk(items, task, q) && Covered(items, q) && ReturnsOk(items, q)
      && |q.coroutines| == |p.coroutines| && Left(items, q) + |events| <= Left(items, p)
    decreases |events|
  {
    if events != [] {
      var q := Step(items, task, p, events[0]);
      StepKeepsPool(items, task, p, events[0]);
      StepKeepsCovered(items, task, p, events[0]);
      StepsShrink(items, task, p, events[0]);
      RunKeeps(items, task, q, events[1..]);
    }
  }

  /** In every interleaving: each index is started at most once, no more than
      min(limit, n) tasks are in flight, and the pool rests after at most three
      steps an item. */
  lemma PoolIsBounded<In, Out>(items: seq<Option<In>>, task: (In, nat) -> Out, limit: int, events: seq<Event>)
    requires PoolOk(items, task, Start(items, limit)) && CanRun(items, task, Start(items, limit), events)
    ensures var q := Run(items, task, Start(items, limit), events);
      && InFlight(q) <= |items| && (limit >= 0 ==> InFlight(q) <= limit) && (limit < 0 ==> InFlight(q) == 0)
      && |events| <= 3 * |items|
      && (forall j, k :: 0 <= j < k < |q.started| ==> q.started[j] != q.started[k])
  {
    StartOk(items, task, limit);
    StartLeft<In, Out>(items, limit);
    RunKeeps(items, task, Start(items, limit), events);
    SumOfFlags(InFlightFlags(Run(items, task, Start(items, limit), events).coroutines));
  }

  /** The coroutines before `k` have each taken an item, the others none. */
  predicate FirstAreIn<Out>(p: Pool<Out>, k: nat) {
    && p.cursor == k <= |p.coroutines|
    && (forall w :: 0 <= w < k ==> p.coroutines[w].Awaiting?)
    && (forall w :: k <= w < |p.coroutines| ==> p.coroutines[w].Ready?)
  }

  /** The rest of them take theirs. */
  lemma {:induction false} TheRestGoIn<In, Out>(items: seq<Option<In>>, task: (In, nat) -> Out, p: Pool<Out>, k: nat)
    returns (events: seq<Event>)
    requires PoolOk(items, task, p) && AllDefined(items) && |p.coroutines| <= |items| && FirstAreIn(p, k)
    ensures CanRun(items, task, p, events) && InFlight(Run(items, task, p, events)) == |p.coroutines|
    decreases |p.coroutines| - k
  {
    events := [];
    if k == |p.coroutines| {
      SumOfOnes(InFlightFlags(p.coroutines));
    } else {
      var e := Resume(k);
      assert Defined(items, k) && Enabled(p, e);
      StepKeepsPool(items, task, p, e);
      var rest := TheRestGoIn(items, task, Step(items, task, p, e), k + 1);
      events := [e] + rest;
      assert events[1..] == rest;
    }
  }

  /** The bound is reached: over defined items min(limit, n) tasks can be in flight. */
  lemma BoundIsReached<In, Out>(items: seq<Option<In>>, task: (In, nat) -> Out, limit: int)
    returns (events: seq<Event>)
    requires AllDefined(items) && limit >= 0
    ensures PoolOk(items, task, Start(items, limit)) && CanRun(items, task, Start(items, limit), events)
    ensures InFlight(Run(items, task, Start(items, limit), events)) == if limit <= |items| then limit else |items|
  {
    StartOk(items, task, limit);
    events := TheRestGoIn(items, task, Start(items, limit), 0);
  }

  /** Every interleaving that is fulfilled gives the sequential map. */
  ghost predicate AlwaysSequential<In, Out>(items: seq<Option<In>>, task: (In, nat) -> Out, limit: int)
    requires AllDefined(items)
  {
    var p: Pool<Out> := Start(items, limit);
    forall events :: PoolOk(items, task, p) && CanRun(items, task, p, events) ==>
      var q := Run(items, task, p, events);
      Quiescent(q) && !AnyRejected(q) ==> q.results == Sequential(items, task)
  }

  /** For a list of defined items that is so exactly when the limit is positive or
      there is nothing to do: with no coroutine the pool is fulfilled at once,
      with nothing but holes. */
  lemma SequentialIff<In, Out>(items: seq<Option<In>>, task: (In, nat) -> Out, limit: int)
    requires AllDefined(items)
    ensures AlwaysSequential(items, task, limit) <==> limit >= 1 || |items| == 0
  {
    var p: Pool<Out> := Start(items, limit);
    StartOk(items, task, limit);
    if limit >= 1 || |items| == 0 {
      forall events | CanRun(items, task, p, events)
        ensures var q := Run(items, task, p, events);
          Quiescent(q) && !AnyRejected(q) ==> q.results == Sequential(items, task)
      {
        RunKeeps(items, task, p, events);
        var q := Run(items, task, p, events);
        if Quiescent(q) && !AnyRejected(q) && |items| > 0 { FulfilledIsSequential(items, task, q); }
      }
    } else {
      assert CanRun(items, task, p, []) && Run(items, task, p, []) == p;
      assert Defined(items, 0) && p.results[0] != Sequential(items, task)[0];
    }
  }

  // ---- the pool's code -----------------------------------------------------

  /** Which tasks have shown what they do: a result means the task does not fail, a
      rejected coroutine that some task does. */
  predicate Honest<In, Out>(items: seq<Option<In>>, p: Pool<Out>, fails: nat -> bool) {
    && |p.results| == |items|
    && (forall i :: 0 <= i < |items| && p.results[i].Some? ==> !fails(i))
    && (AnyRejected(p) ==> exists i :: 0 <= i < |items| && fails(i))
  }

  /** One coroutine runs to its next `await`, or ends. */
  method RunCoroutine<In, Out>(items: seq<Option<In>>, task: (In, nat) -> Out, fails: nat -> bool,
      cells: array<Option<Out>>, coroutines: array<Coroutine>, w: nat, cursor: nat, ghost p: Pool<Out>)
    returns (cursor': nat, ghost p': Pool<Out>)
    requires p == Pool(cursor, coroutines[..], cells[..], p.started) && PoolOk(items, task, p)
      && Honest(items, p, fails)
    requires w < coroutines.Length && (coroutines[w].Ready? || coroutines[w].Awaiting?)
    modifies cells, coroutines
    ensures p' == Pool(cursor', coroutines[..], cells[..], p'.started) && Honest(items, p', fails)
    ensures exists e :: Enabled(p, e) && p' == Step(items, task, p, e)
  {
    cursor' := cursor;
    ghost var e;
    assert HeldOk(items, p, w);
    if coroutines[w].Ready? {
      e := Resume(w);
      cursor' := cursor + 1;
      coroutines[w] := if cursor >= |items| || items[cursor].None? then Returned else Awaiting(cursor);
    } else {
      var index := coroutines[w].index;
      e := if fails(index) then Reject(w) else Resolve(w);
      if !fails(index) { cells[index] := Some(task(items[index].value, index)); }
      coroutines[w] := if fails(index) then Coroutine.Rejected else Ready;
    }
    p' := Step(items, task, p, e);
  }

  lemma SomeStep<In, Out>(items: seq<Option<In>>, task: (In, nat) -> Out, p: Pool<Out>, p': Pool<Out>)
    requires PoolOk(items, task, p) && Covered(items, p) && ReturnsOk(items, p)
    requires exists e :: Enabled(p, e) && p' == Step(items, task, p, e)
    ensures PoolOk(items, task, p') && Covered(items, p') && ReturnsOk(items, p') && Left(items, p') < Left(items, p)
  {
    var e :| Enabled(p, e) && p' == Step(items, task, p, e);
    StepKeepsPool(items, task, p, e);
    StepKeepsCovered(items, task, p, e);
    StepsShrink(items, task, p, e);
  }

  /** `mapWithConcurrency`, the scheduler free in its choice of the coroutine that
      runs next; `fails` says which tasks reject. Over defined items it is rejected
      exactly when some task rejects, and else gives the sequential map. */
  method MapWithConcurrency<In, Out>(items: seq<Option<In>>, limit: int, task: (In, nat) -> Out, fails: nat -> bool)
    returns (results: seq<Option<Out>>, rejected: bool)
    ensures |results| == |items|
    ensures rejected ==> exists i :: 0 <= i < |items| && fails(i)
    ensures !rejected && AllDefined(items) && limit >= 1 ==>
      results == Sequential(items, task) && forall i :: 0 <= i < |items| ==> !fails(i)
    ensures forall i :: 0 <= i < |items| && results[i].Some? ==>
      Defined(items, i) && results[i] == Some(task(items[i].value, i))
  {
    var cells := new Option<Out>[|items|](_ => None);
    var coroutines := new Coroutine[WorkerCount(limit, |items|)](_ => Ready);
    var cursor := 0;
    ghost var p: Pool<Out> := Start(items, limit);
    StartOk(items, task, limit);
    while exists w :: 0 <= w < coroutines.Length && (coroutines[w].Ready? || coroutines[w].Awaiting?)
      invariant p == Pool(cursor, coroutines[..], cells[..], p.started)
      invariant PoolOk(items, task, p) && Covered(items, p) && ReturnsOk(items, p) && Honest(items, p, fails)
      decreases Left(items, p)
    {
      var w :| 0 <= w < coroutines.Length && (coroutines[w].Ready? || coroutines[w].Awaiting?);
      ghost var before := p;
      cursor, p := RunCoroutine(items, task, fails, cells, coroutines, w, cursor, p);
      SomeStep(items, task, before, p);
    }
    rejected := Coroutine.Rejected in coroutines[..];
    results := cells[..];
    assert Quiescent(p);
    if !rejected && AllDefined(items) && limit >= 1 && |items| > 0 { FulfilledIsSequential(items, task, p); }
  }

  const PER_TX_FETCH_CONCURRENCY := 5

  /** `getBlockWithTxs`: it fails exactly when the fetch of some txid does, and else
      the decoded transactions come in the order of the block's txids. */
  method GetBlockWithTxs<Tx>(txids: seq<string>, fetch: string -> Option<Tx>) returns (txs: Option<seq<Tx>>)
    ensures txs.None? <==> exists i :: 0 <= i < |txids| && fetch(txids[i]).None?
    ensures txs.Some? ==>
      |txs.value| == |txids| && forall i :: 0 <= i < |txids| ==> fetch(txids[i]) == Some(txs.value[i])
  {
    var items := seq(|txids|, i requires 0 <= i < |txids| => Some(txids[i]));
    var task := (txid: string, index: nat) => fetch(txid);
    var fails := (index: nat) => index < |txids| && fetch(txids[index]).None?;
    assert AllDefined(items);
    var results, rejected := MapWithConcurrency(items, PER_TX_FETCH_CONCURRENCY, task, fails);
    if rejected {
      ghost var i :| 0 <= i < |items| && fails(i);
      assert fetch(txids[i]).None?;
      return None;
    }
    forall i | 0 <= i < |txids|
      ensures results[i] == Some(fetch(txids[i])) && fetch(txids[i]).Some?
    {
      assert !fails(i) && results[i] == Sequential(items, task)[i];
    }
    txs := Some(seq(|txids|, i requires 0 <= i < |txids| => results[i].value.value));
  }
}
