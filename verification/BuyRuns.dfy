/** What the writes to a buy order come to over whole runs, with the four actors
    interleaved in any way and crashes anywhere. */
module BuyRuns {
  import opened Wrappers
  import opened Rows
  import opened BuyOrders

  lemma {:induction false} OrdersInvRun(s: State, events: seq<Event>)
    requires OrdersInv(s)
    ensures OrdersInv(Run(s, events)) && OrdersMove(s, Run(s, events))
  {
    if events != [] {
      var front, e := events[..|events| - 1], events[|events| - 1];
      OrdersInvRun(s, front);
      OrdersInvStep(Run(s, front), e);
      MoveOn(s, Run(s, front), Run(s, events));
    }
  }

  lemma InitialIsOk(s: State)
    requires Initial(s)
    ensures OrdersInv(s)
  {
  }

  /** EXPIRED is final, and excludes payment detection and any hash. */
  lemma ExpiredIsFinal(s: State, before: seq<Event>, after: seq<Event>, o: nat)
    requires Initial(s) && o < |Run(s, before).orders| && Run(s, before).orders[o].status.Expired?
    ensures var order := Run(s, before).orders[o];
      && !order.detected && order.swapTx.None? && order.burnTx.None? && order.release.None?
      && o < |Run(Run(s, before), after).orders| && Run(Run(s, before), after).orders[o] == order
  {
    InitialIsOk(s);
    OrdersInvRun(s, before);
    OrdersInvRun(Run(s, before), after);
    var t := Run(s, before);
    assert OrderOk(t.orders[o], o, t.txs) && OrderMoves(t.orders[o], Run(t, after).orders[o]);
  }

  /** A burn hash means a swap hash whose transaction succeeded. */
  lemma BurnMeansSwapped(s: State, events: seq<Event>, o: nat)
    requires Initial(s) && o < |Run(s, events).orders| && Run(s, events).orders[o].burnTx.Some?
    ensures OnFileAs(Run(s, events).txs, Run(s, events).orders[o].swapTx, Success)
  {
    InitialIsOk(s);
    OrdersInvRun(s, events);
    assert OrderOk(Run(s, events).orders[o], o, Run(s, events).txs);
  }

  /** The release id of an order never changes, and is the FairCoin txid of the
      withdrawal of the order's burn, of which there is exactly one. */
  lemma ReleaseIdIsTheWithdrawals(s: State, before: seq<Event>, after: seq<Event>, o: nat)
    requires Initial(s) && o < |Run(s, before).orders| && Run(s, before).orders[o].release.Some?
    ensures var t := Run(Run(s, before), after);
      && o < |t.orders| && t.orders[o].release == Run(s, before).orders[o].release && t.orders[o].burnTx.Some?
      && exists r ::
           && 0 <= r < |t.releases| && OnlyReleaseOf(t.releases, r, t.orders[o].burnTx.value)
           && t.releases[r].fairTxid == t.orders[o].release
  {
    InitialIsOk(s);
    OrdersInvRun(s, before);
    var u := Run(s, before);
    OrdersInvRun(u, after);
    assert OrderMoves(u.orders[o], Run(u, after).orders[o]);
    ReleaseExists(Run(u, after), o);
  }

  predicate OnlyReleaseOf(releases: seq<Release>, r: nat, burnTx: nat) {
    && r < |releases| && releases[r].burnTx == burnTx
    && forall q :: 0 <= q < |releases| && releases[q].burnTx == burnTx ==> q == r
  }

  lemma ReleaseExists(s: State, o: nat)
    requires OrdersInv(s) && o < |s.orders| && s.orders[o].release.Some?
    ensures s.orders[o].burnTx.Some?
    ensures exists r ::
      && 0 <= r < |s.releases| && OnlyReleaseOf(s.releases, r, s.orders[o].burnTx.value)
      && s.releases[r].fairTxid == s.orders[o].release
  {
    assert OrderOk(s.orders[o], o, s.txs) && LinkOk(s.orders[o], s.releases, s.heldLink);
    var r :| 0 <= r < |s.releases| && Delivers(s.releases[r], s.orders[o]);
    assert OnlyReleaseOf(s.releases, r, s.orders[o].burnTx.value);
  }

  /** The row of an order after DELIVERING has been written over it, or not. */
  function Written(order: Order, written: bool): Order {
    if written then order.(status := Delivering) else order
  }

  /** A row with a release id is written to by DELIVERING alone. */
  lemma OthersLeaveLinked(s: State, e: Event, s': State, o: nat)
    requires OrdersInv(s) && s' == Step(s, e) && o < |s.orders| && s.orders[o].release.Some? && e != MarkDelivering(o)
    requires o < |s'.orders| && (s'.orders[o] == s.orders[o] || s'.orders[o] == s.orders[o].(status := Delivering))
    ensures s'.orders[o] == s.orders[o]
  {
    assert OrderOk(s.orders[o], o, s.txs);
    if s'.orders[o] != s.orders[o] {
      assert !s.orders[o].status.Delivering? && s'.orders[o].status.Delivering?;
      OnlyMarkDelivers(s, e, s', o);
    }
  }

  /** Only the write of DELIVERING makes a row DELIVERING. */
  lemma OnlyMarkDelivers(s: State, e: Event, s': State, o: nat)
    requires s' == Step(s, e) && o < |s.orders| && o < |s'.orders|
    requires !s.orders[o].status.Delivering? && s'.orders[o].status.Delivering?
    ensures e == MarkDelivering(o)
  {
  }

  lemma DeliveringIsWritten(s: State, o: nat)
    requires o < |s.orders| && OnFileAs(s.txs, s.orders[o].burnTx, Success)
    ensures Step(s, MarkDelivering(o)) == WithOrder(s, o, s.orders[o].(status := Delivering))
  {
  }

  lemma MarkDelivers(s: State, s': State, o: nat)
    requires OrdersInv(s) && s' == Step(s, MarkDelivering(o)) && o < |s.orders| && s.orders[o].release.Some?
    ensures o < |s'.orders| && s'.orders[o] == s.orders[o].(status := Delivering)
  {
    LinkedIsBurned(s, o);
    DeliveringIsWritten(s, o);
  }

  lemma LinkedIsBurned(s: State, o: nat)
    requires OrdersInv(s) && o < |s.orders| && s.orders[o].release.Some?
    ensures OnFileAs(s.txs, s.orders[o].burnTx, Success)
  {
    assert OrderOk(s.orders[o], o, s.txs);
  }

  /** A step away from DELIVERED is the write of DELIVERING, and nothing else; a
      row with a release id that is DELIVERING stays so. */
  lemma LinkedStep(s: State, e: Event, s': State, o: nat)
    requires OrdersInv(s) && s' == Step(s, e) && o < |s.orders| && s.orders[o].release.Some?
    ensures o < |s'.orders| && s'.orders[o] == Written(s.orders[o], e == MarkDelivering(o))
  {
    if e == MarkDelivering(o) {
      MarkDelivers(s, s', o);
    } else {
      OrdersInvStep(s, e);
      assert OrderMoves(s.orders[o], s'.orders[o]);
      OthersLeaveLinked(s, e, s', o);
    }
  }

  lemma LastOf(s: State, events: seq<Event>)
    requires events != []
    ensures Run(s, events) == Step(Run(s, events[..|events| - 1]), events[|events| - 1])
    ensures forall e :: e in events <==> e in events[..|events| - 1] || e == events[|events| - 1]
  {
    assert events == events[..|events| - 1] + [events[|events| - 1]];
  }

  /** A linked order, one event later. */
  lemma DeliveredStep(s: State, events: seq<Event>, t: State, e: Event, u: State, o: nat)
    requires OrdersInv(t) && u == Step(t, e) && o < |s.orders| && s.orders[o].release.Some?
    requires o < |t.orders| && t.orders[o] == Written(s.orders[o], MarkDelivering(o) in events)
    ensures o < |u.orders| && u.orders[o] == Written(s.orders[o], MarkDelivering(o) in events || e == MarkDelivering(o))
  {
    LinkedStep(t, e, u, o);
  }

  lemma {:induction false} DeliveredUntil(s: State, events: seq<Event>, t: State, o: nat)
    requires OrdersInv(s) && t == Run(s, events) && o < |s.orders| && s.orders[o].release.Some?
    ensures o < |t.orders| && t.orders[o] == Written(s.orders[o], MarkDelivering(o) in events)
  {
    if events != [] {
      var front := events[..|events| - 1];
      var u := Run(s, front);
      DeliveredUntil(s, front, u, o);
      OrdersInvRun(s, front);
      LastOf(s, events);
      DeliveredStep(s, front, u, events[|events| - 1], t, o);
    }
  }

  /** DELIVERED lasts exactly as long as the buy worker does not write DELIVERING,
      and once that is written the order never is DELIVERED again. */
  lemma DeliveredStaysIff(s: State, events: seq<Event>, o: nat)
    requires OrdersInv(s) && o < |s.orders| && s.orders[o].release.Some?
    ensures o < |Run(s, events).orders| && Run(s, events).orders[o].release == s.orders[o].release
    ensures Run(s, events).orders[o].status.Delivered? <==>
      s.orders[o].status.Delivered? && MarkDelivering(o) !in events
  {
    DeliveredUntil(s, events, Run(s, events), o);
  }

  /** The one attempt to link a release was spent, or lost with a crash. */
  predicate LinkSpent(s: State, r: nat) {
    r < |s.releases| && s.releases[r].broadcast && s.heldLink != Some(r)
  }

  /** The burn of an order was released, and the order was not told. */
  predicate Unlinked(s: State, o: nat, r: nat) {
    && OrdersInv(s) && o < |s.orders| && LinkSpent(s, r)
    && s.orders[o].burnTx == Some(s.releases[r].burnTx) && s.orders[o].release.None?
  }

  lemma UnlinkedStep(s: State, e: Event, s': State, o: nat, r: nat)
    requires Unlinked(s, o, r) && s' == Step(s, e)
    ensures Unlinked(s', o, r)
  {
    OrdersInvStep(s, e);
    assert OrderMoves(s.orders[o], s'.orders[o]);
    NotLinkable(s, o, r);
    OnlyLinkSetsRelease(s, e, s', o);
    LinkStaysSpent(s, e, s', r);
  }

  lemma LinkStaysSpent(s: State, e: Event, s': State, r: nat)
    requires LinkSpent(s, r) && s' == Step(s, e)
    ensures LinkSpent(s', r) && s'.releases[r].burnTx == s.releases[r].burnTx
  {
  }

  lemma OnlyLinkSetsRelease(s: State, e: Event, s': State, o: nat)
    requires s' == Step(s, e) && o < |s.orders| && !Linkable(s, o)
    ensures o < |s'.orders| && s'.orders[o].release == s.orders[o].release
  {
  }

  /** It is never told after that: the order is never DELIVERED. */
  lemma {:induction false} NeverLinked(s: State, events: seq<Event>, t: State, o: nat, r: nat)
    requires Unlinked(s, o, r) && t == Run(s, events)
    ensures Unlinked(t, o, r) && !t.orders[o].status.Delivered?
  {
    if events != [] {
      var u := Run(s, events[..|events| - 1]);
      NeverLinked(s, events[..|events| - 1], u, o, r);
      UnlinkedStep(u, events[|events| - 1], t, o, r);
    }
    assert OrderOk(t.orders[o], o, t.txs);
  }

  lemma NotLinkable(s: State, o: nat, r: nat)
    requires OrdersInv(s) && o < |s.orders| && LinkSpent(s, r) && s.orders[o].burnTx == Some(s.releases[r].burnTx)
    ensures !Linkable(s, o)
  {
  }

  /** The one attempt reaches the order of the burn exactly while that order is
      BURNING or DELIVERING; it is DELIVERED then. */
  lemma LinkedIff(s: State, s': State, o: nat, r: nat)
    requires OrdersInv(s) && o < |s.orders| && s.heldLink == Some(r) && s' == Step(s, Link(o))
    ensures s' != s <==>
      && s.orders[o].burnTx == Some(s.releases[r].burnTx)
      && (s.orders[o].status == OrderStatus.Burning || s.orders[o].status == Delivering)
    ensures s' != s ==>
      s'.orders[o] == s.orders[o].(status := Delivered, release := s.releases[r].fairTxid) && s'.heldLink.None?
  {
  }

  /** Of two broadcasts for the same step of an order, the hash of one was lost. */
  lemma BroadcastsAreAccountedFor(s: State, events: seq<Event>, a: nat, b: nat)
    requires Initial(s) && a < b < |Run(s, events).txs|
    requires var t := Run(s, events); t.txs[a].order == t.txs[b].order && t.txs[a].kind == t.txs[b].kind
    ensures Run(s, events).txs[a].lost || Run(s, events).txs[b].lost
  {
    InitialIsOk(s);
    OrdersInvRun(s, events);
    var t := Run(s, events);
    assert TxOk(a, t.txs[a], t.orders, t.heldTx) && TxOk(b, t.txs[b], t.orders, t.heldTx);
    assert OrderOk(t.orders[t.txs[a].order], t.txs[a].order, t.txs);
  }

  // ---- DELIVERED is not final ----------------------------------------------

  lemma Then(s: State, events: seq<Event>, reached: State, e: Event) returns (more: seq<Event>, next: State)
    requires Run(s, events) == reached
    ensures next == Step(reached, e) && Run(s, more) == next && more == events + [e]
  {
    more := events + [e];
    RunExtends(s, events, e);
    next := Step(reached, e);
  }

  /** An order is quoted, paid and claimed. */
  lemma Paid(s: State) returns (events: seq<Event>, t: State)
    requires Initial(s)
    ensures Run(s, events) == t && |t.orders| == 1 && t.txs == [] && t.releases == [] && t.heldTx.None?
      && t.heldLink.None?
    ensures t.orders[0].status.Swapping? && t.orders[0].burnTx.None? && t.orders[0].swapTx.None?
  {
    events, t := Then(s, [], s, Quote(0));
    events, t := Then(s, events, t, Detect(0));
    events, t := Then(s, events, t, ClaimSwapping(0));
  }

  /** Its swap is broadcast, its hash written, its receipt in. */
  lemma Swapped(s: State) returns (events: seq<Event>, t: State)
    requires Initial(s)
    ensures Run(s, events) == t && |t.orders| == 1 && |t.txs| == 1 && t.releases == [] && t.heldTx.None?
      && t.heldLink.None?
    ensures t.orders[0].status.Swapping? && t.orders[0].burnTx.None? && t.orders[0].swapTx == Some(0)
    ensures t.txs[0].outcome.Success?
  {
    events, t := Paid(s);
    events, t := Then(s, events, t, Event.Broadcast(0, Swap));
    events, t := Then(s, events, t, FileTx);
    events, t := Then(s, events, t, Mine(0, true));
  }

  /** Its burn is broadcast and its hash written; the receipt is in. */
  lemma Burned(s: State) returns (events: seq<Event>, t: State)
    requires Initial(s)
    ensures Run(s, events) == t && |t.orders| == 1 && |t.txs| == 2 && t.releases == [] && t.heldLink.None?
    ensures t.orders[0].status.Burning? && t.orders[0].burnTx == Some(1)
    ensures t.txs[1].kind.Burn? && t.txs[1].outcome.Success?
  {
    events, t := Swapped(s);
    events, t := Then(s, events, t, ClaimBurning(0));
    events, t := Then(s, events, t, Event.Broadcast(0, Burn));
    events, t := Then(s, events, t, FileTx);
    events, t := Then(s, events, t, Mine(1, true));
  }

  /** The burn is recorded and sent out. */
  lemma Released(s: State) returns (events: seq<Event>, t: State)
    requires Initial(s)
    ensures Run(s, events) == t && |t.orders| == 1 && t.orders[0].status.Burning? && t.orders[0].burnTx == Some(1)
    ensures t.releases == [Release(1, Some("txid"), false)] && t.heldLink.None?
  {
    events, t := Burned(s);
    events, t := Then(s, events, t, RecordBurn(1));
    events, t := Then(s, events, t, FileRelease(0, "txid"));
  }

  /** The release worker is faster than the buy worker. */
  lemma Linked(s: State) returns (events: seq<Event>, t: State)
    requires Initial(s)
    ensures Run(s, events) == t && |t.orders| == 1 && t.orders[0].status.Delivered? && t.orders[0].release.Some?
  {
    events, t := Released(s);
    events, t := Then(s, events, t, MarkBroadcast(0));
    events, t := Then(s, events, t, Link(0));
  }

  lemma MarkingAddsNoOrder(t: State, u: State, o: nat)
    requires u == Step(t, MarkDelivering(o))
    ensures |u.orders| == |t.orders|
  {
  }

  /** So the order is DELIVERED, then written back to DELIVERING, and in no run
      from there is it DELIVERED again. */
  lemma DeliveredCanBeLost(s: State) returns (events: seq<Event>, t: State, u: State)
    requires Initial(s)
    ensures t == Run(s, events) && |t.orders| == 1 && t.orders[0].status.Delivered?
    ensures u == Run(s, events + [MarkDelivering(0)]) && |u.orders| == 1
    ensures u.orders[0] == t.orders[0].(status := Delivering)
    ensures forall more :: |Run(u, more).orders| > 0 && !Run(u, more).orders[0].status.Delivered?
  {
    events, t := Linked(s);
    InitialIsOk(s);
    OrdersInvRun(s, events);
    RunExtends(s, events, MarkDelivering(0));
    u := Step(t, MarkDelivering(0));
    MarkingAddsNoOrder(t, u, 0);
    LinkedStep(t, MarkDelivering(0), u, 0);
    OrdersInvStep(t, MarkDelivering(0));
    StaysLost(u);
  }

  lemma StaysLost(u: State)
    requires OrdersInv(u) && |u.orders| == 1 && u.orders[0].release.Some? && u.orders[0].status.Delivering?
    ensures forall more :: |Run(u, more).orders| > 0 && !Run(u, more).orders[0].status.Delivered?
  {
    forall more
      ensures |Run(u, more).orders| > 0 && !Run(u, more).orders[0].status.Delivered?
    {
      DeliveredStaysIff(u, more, 0);
    }
  }
}
