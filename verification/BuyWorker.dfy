/** The order table, and the buy worker's code over it, any call failing and the
    other actors writing in between. */
module BuyWorker {
  import opened Wrappers
  import opened Environment
  import opened Rows
  import opened BuyOrders
  import opened BuyRuns

  method AnyEvent() returns (e: Event) { e := *; }

  predicate OfBuyWorker(e: Event) {
    e.ClaimSwapping? || e.ClaimBurning? || e.Broadcast? || e.FileTx? || e.LoseTx? || e.MarkFailed? || e.MarkDelivering?
  }

  /** What the buy worker may rely on: nobody else broadcasts for orders or writes
      their hashes; a detected order can only be marked as delivered by others. */
  predicate BuyRelies(s: State, s': State) {
    && s'.heldTx == s.heldTx && s.buyJobs <= s'.buyJobs
    && |s'.txs| == |s.txs| && (forall t :: 0 <= t < |s.txs| ==> Mined(s.txs[t], s'.txs[t]))
    && |s.orders| <= |s'.orders|
    && (forall o :: 0 <= o < |s.orders| && s.orders[o].detected ==> MarkedOnly(s.orders[o], s'.orders[o]))
  }

  predicate Mined(tx: BuyTx, tx': BuyTx) {
    tx' == tx.(outcome := tx'.outcome) && (!tx.outcome.Pending? ==> tx' == tx)
  }

  predicate MarkedOnly(order: Order, order': Order) {
    || order' == order
    || ((order.status.Burning? || order.status.Delivering?) && order.burnTx.Some?
        && order' == order.(status := Delivered, release := order'.release))
  }

  lemma BuyReliesOn(s: State, t: State, u: State)
    requires BuyRelies(s, t) && BuyRelies(t, u)
    ensures BuyRelies(s, u)
  {
    forall k | 0 <= k < |s.txs| ensures Mined(s.txs[k], u.txs[k]) {
      assert Mined(s.txs[k], t.txs[k]) && Mined(t.txs[k], u.txs[k]);
    }
    forall o | 0 <= o < |s.orders| && s.orders[o].detected ensures MarkedOnly(s.orders[o], u.orders[o]) {
      assert MarkedOnly(s.orders[o], t.orders[o]) && MarkedOnly(t.orders[o], u.orders[o]);
    }
  }

  /** The watcher writes to orders that are not detected yet. */
  lemma WatcherRespectsBuyWorker(s: State, e: Event, s': State)
    requires OrdersInv(s) && s' == Step(s, e) && (e.Expire? || e.Detect?)
    ensures BuyRelies(s, s')
  {
    if e.o < |s.orders| { assert OrderOk(s.orders[e.o], e.o, s.txs); }
  }

  lemma LinkRespectsBuyWorker(s: State, o: nat, s': State)
    requires OrdersInv(s) && s' == Step(s, Link(o))
    ensures BuyRelies(s, s')
  {
    if Linkable(s, o) { assert OrderOk(s.orders[o], o, s.txs); }
  }

  /** The rest does not write to orders. */
  lemma RestRespectsBuyWorker(s: State, e: Event, s': State)
    requires s' == Step(s, e) && !OfBuyWorker(e) && !e.Expire? && !e.Detect? && !e.Link?
    ensures BuyRelies(s, s')
  {
  }

  lemma OthersRespectBuyWorker(s: State, e: Event, s': State)
    requires OrdersInv(s) && !OfBuyWorker(e) && s' == Step(s, e)
    ensures BuyRelies(s, s')
  {
    match e
    case Expire(_) => WatcherRespectsBuyWorker(s, e, s');
    case Detect(_) => WatcherRespectsBuyWorker(s, e, s');
    case Link(o) => LinkRespectsBuyWorker(s, o, s');
    case _ => RestRespectsBuyWorker(s, e, s');
  }

  /** The order table and the chains. */
  class OrderBook {
    ghost const start: State
    ghost var events: seq<Event>
    var world: State

    ghost predicate Valid()
      reads this
    {
      Initial(start) && world == Run(start, events)
    }

    constructor (now: nat)
      ensures Valid() && world == State(now, [], [], [], {}, None, None)
    {
      var s := State(now, [], [], [], {}, None, None);
      world, start, events := s, s, [];
    }

    lemma Facts()
      requires Valid()
      ensures OrdersInv(world)
    {
      InitialIsOk(start);
      OrdersInvRun(start, events);
    }

    /** What the columns of an order say. */
    lemma OrderFacts(o: nat)
      requires Valid() && o < |world.orders|
      ensures OrderOk(world.orders[o], o, world.txs)
    {
      Facts();
    }

    /** Enters the write just performed into the run. */
    ghost method Note(before: State, e: Event)
      requires Initial(start) && before == Run(start, events) && world == Step(before, e)
      modifies this`events
      ensures Valid()
    {
      RunExtends(start, events, e);
      events := events + [e];
    }

    /** One write of anyone. */
    method Do(e: Event)
      requires Valid()
      modifies this
      ensures Valid() && world == Step(old(world), e)
    {
      ghost var before := world;
      world := Step(world, e);
      Note(before, e);
    }

    /** Any number of writes of anyone but the buy worker. */
    method Others()
      requires Valid()
      modifies this
      ensures Valid() && BuyRelies(old(world), world)
    {
      var n := AnyCount();
      while n > 0
        invariant Valid() && BuyRelies(old(world), world)
      {
        var e := AnyEvent();
        if !OfBuyWorker(e) {
          ghost var before := world;
          Facts();
          Do(e);
          OthersRespectBuyWorker(before, e, world);
          BuyReliesOn(old(world), before, world);
        }
        n := n - 1;
      }
    }

    // ---- the buy worker's writes -------------------------------------------

    /** `claimSwapping`: the conditional update, with its filter. */
    method ClaimSwapping(o: nat) returns (claimed: bool)
      requires Valid() && o < |world.orders|
      modifies this
      ensures Valid()
      ensures claimed <==>
        && (old(world).orders[o].status.PaymentDetected? || old(world).orders[o].status.Swapping?)
        && old(world).orders[o].swapTx.None?
      ensures world == if claimed then WithOrder(old(world), o, old(world).orders[o].(status := Swapping))
        else old(world)
    {
      ghost var before := world;
      var order := world.orders[o];
      claimed := (order.status.PaymentDetected? || order.status.Swapping?) && order.swapTx.None?;
      if claimed { world := world.(orders := world.orders[o := order.(status := Swapping)]); }
      Note(before, Event.ClaimSwapping(o));
    }

    /** `claimBurning`, by a worker that has seen the swap on file succeed. */
    method ClaimBurning(o: nat) returns (claimed: bool)
      requires Valid() && o < |world.orders|
      requires world.orders[o].swapTx.Some? ==> OnFileAs(world.txs, world.orders[o].swapTx, Success)
      modifies this
      ensures Valid()
      ensures claimed <==>
        && (old(world).orders[o].status.Swapping? || old(world).orders[o].status.Burning?)
        && old(world).orders[o].burnTx.None? && old(world).orders[o].swapTx.Some?
      ensures world == if claimed then WithOrder(old(world), o, old(world).orders[o].(status := Burning))
        else old(world)
    {
      ghost var before := world;
      var order := world.orders[o];
      claimed := (order.status.Swapping? || order.status.Burning?) && order.burnTx.None? && order.swapTx.Some?;
      if claimed { world := world.(orders := world.orders[o := order.(status := Burning)]); }
      Note(before, Event.ClaimBurning(o));
    }

    /** `writeContract`. */
    method WriteContract(o: nat, kind: Kind)
      requires Valid() && o < |world.orders| && HashOf(world.orders[o], kind).None? && world.heldTx.None?
      requires world.orders[o].status == (if kind.Swap? then Swapping else Burning)
      modifies this
      ensures Valid()
      ensures world
        == old(world).(txs := old(world).txs + [BuyTx(o, kind, Pending, false)], heldTx := Some(|old(world).txs|))
    {
      ghost var before := world;
      world := world.(txs := world.txs + [BuyTx(o, kind, Pending, false)], heldTx := Some(|world.txs|));
      Note(before, Event.Broadcast(o, kind));
    }

    /** The write of the hash in the worker's hand. */
    method Persist(o: nat, kind: Kind)
      requires Valid() && world.heldTx.Some? && world.heldTx.value < |world.txs| && o < |world.orders|
      requires world.txs[world.heldTx.value].order == o && world.txs[world.heldTx.value].kind == kind
      modifies this
      ensures Valid()
      ensures var order := old(world).orders[o]; var hash := old(world).heldTx;
        world == WithOrder(old(world), o,
          if kind.Swap? then order.(swapTx := hash) else order.(burnTx := hash)).(heldTx := None)
    {
      ghost var before := world;
      var order := if kind.Swap? then world.orders[o].(swapTx := world.heldTx)
        else world.orders[o].(burnTx := world.heldTx);
      world := world.(orders := world.orders[o := order], heldTx := None);
      Note(before, FileTx);
    }

    /** The process dies with the hash in hand. */
    method Lose()
      requires Valid() && world.heldTx.Some? && world.heldTx.value < |world.txs|
      modifies this
      ensures Valid()
      ensures world == old(world).(
        txs := old(world).txs[old(world).heldTx.value := old(world).txs[old(world).heldTx.value].(lost := true)],
        heldTx := None)
    {
      ghost var before := world;
      var h := world.heldTx.value;
      world := world.(txs := world.txs[h := world.txs[h].(lost := true)], heldTx := None);
      Note(before, LoseTx);
    }

    /** `$set: { status: "FAILED" }` after a reverted receipt. */
    method Fail(o: nat, kind: Kind)
      requires Valid() && o < |world.orders| && OnFileAs(world.txs, HashOf(world.orders[o], kind), Reverted)
      modifies this
      ensures Valid() && world == WithOrder(old(world), o, old(world).orders[o].(status := OrderStatus.Failed))
    {
      ghost var before := world;
      world := world.(orders := world.orders[o := world.orders[o].(status := OrderStatus.Failed)]);
      Note(before, MarkFailed(o, kind));
    }

    /** `$set: { status: "DELIVERING" }` after the burn's receipt, unconditional. */
    method Deliver(o: nat)
      requires Valid() && o < |world.orders| && OnFileAs(world.txs, world.orders[o].burnTx, Success)
      modifies this
      ensures Valid() && world == WithOrder(old(world), o, old(world).orders[o].(status := Delivering))
    {
      ghost var before := world;
      world := world.(orders := world.orders[o := world.orders[o].(status := Delivering)]);
      Note(before, MarkDelivering(o));
    }

    // ---- the watcher's writes ----------------------------------------------

    method Expire(o: nat)
      requires Valid() && o < |world.orders| && world.orders[o].status.AwaitingPayment?
        && world.orders[o].expiresAt < world.now
      modifies this
      ensures Valid() && world == WithOrder(old(world), o, old(world).orders[o].(status := Expired))
    {
      ghost var before := world;
      world := world.(orders := world.orders[o := world.orders[o].(status := Expired)]);
      Note(before, Event.Expire(o));
    }

    method Detect(o: nat)
      requires Valid() && o < |world.orders| && world.orders[o].status.AwaitingPayment?
      modifies this
      ensures Valid()
        && world == WithOrder(old(world), o, old(world).orders[o].(status := PaymentDetected, detected := true))
    {
      ghost var before := world;
      world := world.(orders := world.orders[o := world.orders[o].(status := PaymentDetected, detected := true)]);
      Note(before, Event.Detect(o));
    }

    method Enqueue(o: nat)
      requires Valid() && o < |world.orders| && world.orders[o].detected
      modifies this
      ensures Valid() && world == old(world).(buyJobs := old(world).buyJobs + {o})
    {
      ghost var before := world;
      world := world.(buyJobs := world.buyJobs + {o});
      Note(before, Event.Enqueue(o));
    }
  }

  // ---- the buy worker ------------------------------------------------------

  /** The worker's moment between two writes, working on a detected order. */
  ghost predicate Working(db: OrderBook, o: nat)
    reads db
  {
    db.Valid() && o < |db.world.orders| && db.world.orders[o].detected
  }

  /** What was broadcast before is still there. */
  predicate SameBroadcasts(s: State, s': State) {
    |s.txs| <= |s'.txs| && forall t :: 0 <= t < |s.txs| ==>
      s'.txs[t].order == s.txs[t].order && s'.txs[t].kind == s.txs[t].kind
  }

  /** From `s` on, at most one broadcast was made: of this step of this order,
      which had no hash for it. Hashes on file stay. */
  predicate AtMostOne(s: State, s': State, o: nat, kind: Kind) {
    && o < |s.orders| <= |s'.orders|
    && SameBroadcasts(s, s') && |s'.txs| <= |s.txs| + 1
    && (|s'.txs| > |s.txs| ==>
          HashOf(s.orders[o], kind).None? && s'.txs[|s.txs|].order == o && s'.txs[|s.txs|].kind == kind)
    && Kept(s.orders[o].swapTx, s'.orders[o].swapTx) && Kept(s.orders[o].burnTx, s'.orders[o].burnTx)
    && (kind.Swap? ==> s'.orders[o].burnTx == s.orders[o].burnTx)
  }

  /** Two stretches of the worker's own code, of which one made no broadcast. */
  lemma StretchesJoin(s: State, u: State, w: State, o: nat, kind: Kind)
    requires AtMostOne(s, u, o, kind) && AtMostOne(u, w, o, kind)
    requires |u.txs| == |s.txs| || |w.txs| == |u.txs|
    requires |u.txs| == |s.txs| ==> HashOf(u.orders[o], kind) == HashOf(s.orders[o], kind)
    ensures AtMostOne(s, w, o, kind)
  {
  }

  /** Other actors write; the worker's order keeps its hashes and its receipts. */
  method Wait(db: OrderBook, o: nat)
    requires Working(db, o) && db.world.heldTx.None?
    modifies db
    ensures Working(db, o) && db.world.heldTx.None?
    ensures |db.world.txs| == |old(db.world).txs| && SameBroadcasts(old(db.world), db.world)
    ensures |old(db.world).orders| <= |db.world.orders|
    ensures MarkedOnly(old(db.world).orders[o], db.world.orders[o])
    ensures OnFileAs(old(db.world).txs, old(db.world).orders[o].swapTx, Success) ==>
      OnFileAs(db.world.txs, db.world.orders[o].swapTx, Success)
    ensures OnFileAs(old(db.world).txs, old(db.world).orders[o].burnTx, Success) ==>
      OnFileAs(db.world.txs, db.world.orders[o].burnTx, Success)
  {
    db.Others();
  }

  /** A broadcast, and the write of its hash or its loss. */
  method BroadcastAndPersist(db: OrderBook, env: Env, o: nat, kind: Kind) returns (filed: bool)
    requires Working(db, o) && db.world.heldTx.None? && HashOf(db.world.orders[o], kind).None?
    requires db.world.orders[o].status == (if kind.Swap? then Swapping else Burning)
    requires db.world.orders[o].burnTx.None?
    modifies db, env
    ensures Working(db, o) && db.world.heldTx.None? && AtMostOne(old(db.world), db.world, o, kind)
    ensures filed ==> HashOf(db.world.orders[o], kind).Some? && |db.world.txs| == |old(db.world).txs| + 1
    ensures old(env.setbacks) <= env.setbacks && (!filed ==> env.setbacks > old(env.setbacks))
  {
    db.Others();
    var dies := env.Dies();
    if dies { return false; }
    db.WriteContract(o, kind);
    db.Others();
    dies := env.Dies();
    if dies { db.Lose(); } else { db.Persist(o, kind); }
    filed := !dies;
  }

  /** Waits for the receipt of the hash on file. Without a setback the receipt
      decides: a revert fails the order, and none in time is an error. */
  method AwaitReceipt(db: OrderBook, env: Env, o: nat, kind: Kind) returns (ok: bool)
    requires Working(db, o) && db.world.heldTx.None? && HashOf(db.world.orders[o], kind).Some?
    modifies db, env
    ensures Working(db, o) && db.world.heldTx.None? && AtMostOne(old(db.world), db.world, o, kind)
    ensures db.world.orders[o].burnTx == old(db.world).orders[o].burnTx
    ensures db.world.orders[o].swapTx == old(db.world).orders[o].swapTx
    ensures |db.world.txs| == |old(db.world).txs|
    ensures ok ==> OnFileAs(db.world.txs, HashOf(db.world.orders[o], kind), Success)
    ensures old(env.setbacks) <= env.setbacks
    ensures !ok ==> env.setbacks > old(env.setbacks) || NotThrough(db.world, o, kind)
  {
    db.Others();
    db.OrderFacts(o);
    var outcome := db.world.txs[HashOf(db.world.orders[o], kind).value].outcome;
    var dies := env.Dies();
    if dies { return false; }
    if outcome.Pending? { return false; }
    if outcome.Reverted? { db.Fail(o, kind); }
    ok := outcome.Success?;
  }

  /** The order is FAILED, for its transaction was reverted. */
  predicate FailedBy(s: State, o: nat, kind: Kind)
    requires o < |s.orders|
  {
    s.orders[o].status.Failed? && OnFileAs(s.txs, HashOf(s.orders[o], kind), Reverted)
  }

  /** The transaction on file failed the order, or is still to be executed. */
  predicate NotThrough(s: State, o: nat, kind: Kind)
    requires o < |s.orders|
  {
    FailedBy(s, o, kind) || OnFileAs(s.txs, HashOf(s.orders[o], kind), Pending)
  }

  /** How a phase of the work ended: on, with an error, or with one that no retry
      will help. */
  datatype PhaseEnd = Succeeded | Stopped | GivenUp

  /** What the payment account has as the worker looks at it: a key that fits the
      order, USDC, and gas or someone to pay for it. */
  datatype Account = Account(keyFits: bool, hasUsdc: bool, hasGas: bool)

  /** The swap half of `processBuy`. An order whose account is empty, or has no gas,
      is given up after it has been claimed. */
  method SwapPhase(db: OrderBook, env: Env, o: nat, account: Account) returns (end: PhaseEnd)
    requires Working(db, o) && db.world.heldTx.None?
    requires db.world.orders[o].swapTx.None? ==>
      db.world.orders[o].status.PaymentDetected? || db.world.orders[o].status.Swapping?
    modifies db, env
    ensures Working(db, o) && db.world.heldTx.None? && AtMostOne(old(db.world), db.world, o, Swap)
    ensures end.Succeeded? ==> OnFileAs(db.world.txs, db.world.orders[o].swapTx, Success)
    ensures end.GivenUp? ==>
      && old(db.world).orders[o].swapTx.None? && !(account.hasUsdc && account.hasGas)
      && |db.world.txs| == |old(db.world).txs| && db.world.orders[o] == old(db.world).orders[o].(status := Swapping)
    ensures old(db.world).orders[o].swapTx.None? && !(account.hasUsdc && account.hasGas) ==>
      end.GivenUp? || (end.Stopped? && env.setbacks > old(env.setbacks))
    ensures old(env.setbacks) <= env.setbacks
    ensures end.Stopped? ==> env.setbacks > old(env.setbacks) || NotThrough(db.world, o, Swap)
  {
    ghost var s := db.world;
    if db.world.orders[o].swapTx.None? {
      db.OrderFacts(o);
      var claimed := db.ClaimSwapping(o);
      var dies := env.Dies();
      if dies { return Stopped; }
      if !account.hasUsdc || !account.hasGas { return GivenUp; }
      var filed := BroadcastAndPersist(db, env, o, Swap);
      if !filed { return Stopped; }
    }
    ghost var u := db.world;
    var ok := AwaitReceipt(db, env, o, Swap);
    StretchesJoin(s, u, db.world, o, Swap);
    end := if ok then Succeeded else Stopped;
  }

  /** The burn half, by a worker that has seen the swap succeed. */
  method BurnPhase(db: OrderBook, env: Env, o: nat) returns (ok: bool)
    requires Working(db, o) && db.world.heldTx.None? && OnFileAs(db.world.txs, db.world.orders[o].swapTx, Success)
    modifies db, env
    ensures Working(db, o) && db.world.heldTx.None? && AtMostOne(old(db.world), db.world, o, Burn)
    ensures ok ==> OnFileAs(db.world.txs, db.world.orders[o].burnTx, Success)
    ensures old(env.setbacks) <= env.setbacks
    ensures !ok ==> env.setbacks > old(env.setbacks) || NotThrough(db.world, o, Burn)
  {
    ghost var s := db.world;
    if db.world.orders[o].burnTx.None? {
      db.OrderFacts(o);
      var claimed := db.ClaimBurning(o);
      var filed := BroadcastAndPersist(db, env, o, Burn);
      if !filed { return false; }
    }
    ghost var u := db.world;
    ok := AwaitReceipt(db, env, o, Burn);
    StretchesJoin(s, u, db.world, o, Burn);
  }

  /** The order needs a swap that its account cannot make. */
  predicate CannotSwap(order: Order, account: Account) {
    && !order.status.Delivered? && !order.status.Delivering? && !order.status.Failed?
    && order.swapTx.None? && !(account.hasUsdc && account.hasGas)
  }

  /** No retry of the job will help. */
  predicate Hopeless(order: Order, account: Account) {
    !account.keyFits || order.status.Failed? || CannotSwap(order, account)
  }

  /** The order can be worked on: what it lacks, a phase brings. */
  predicate Workable(order: Order) {
    && (order.swapTx.None? ==> order.status.PaymentDetected? || order.status.Swapping?)
  }

  /** The burn, and DELIVERING, for an order whose swap succeeded. */
  method BurnAndDeliver(db: OrderBook, env: Env, o: nat) returns (r: JobResult)
    requires Working(db, o) && db.world.heldTx.None? && OnFileAs(db.world.txs, db.world.orders[o].swapTx, Success)
    modifies db, env
    ensures db.Valid() && db.world.heldTx.None? && o < |db.world.orders|
    ensures AtMostOne(old(db.world), db.world, o, Burn)
    ensures r.Done? || r.Threw?
    ensures r.Done? ==> Carried(db.world, o)
    ensures old(env.setbacks) <= env.setbacks
    ensures r.Threw? ==> env.setbacks > old(env.setbacks) || NotThrough(db.world, o, Burn)
  {
    var ok := BurnPhase(db, env, o);
    if !ok { return Threw; }
    Wait(db, o);
    db.Deliver(o);
    db.OrderFacts(o);
    r := Done;
  }

  /** Both receipts are in, and the order is DELIVERING. */
  predicate Carried(s: State, o: nat)
    requires o < |s.orders|
  {
    && s.orders[o].status.Delivering?
    && OnFileAs(s.txs, s.orders[o].swapTx, Success) && OnFileAs(s.txs, s.orders[o].burnTx, Success)
  }

  /** The two halves in turn. */
  method Work(db: OrderBook, env: Env, o: nat, account: Account) returns (r: JobResult)
    requires Working(db, o) && db.world.heldTx.None? && Workable(db.world.orders[o])
    modifies db, env
    ensures db.Valid() && db.world.heldTx.None? && o < |db.world.orders|
    ensures Broadcasts(old(db.world), db.world, o) && !r.Skipped?
    ensures r.NonRetryable? ==>
      && old(db.world).orders[o].swapTx.None? && !(account.hasUsdc && account.hasGas)
      && |db.world.txs| == |old(db.world).txs| && db.world.orders[o] == old(db.world).orders[o].(status := Swapping)
    ensures old(db.world).orders[o].swapTx.None? && !(account.hasUsdc && account.hasGas) ==>
      r.NonRetryable? || (r.Threw? && env.setbacks > old(env.setbacks))
    ensures r.Done? ==> Carried(db.world, o)
    ensures old(env.setbacks) <= env.setbacks
    ensures r.Threw? ==>
      env.setbacks > old(env.setbacks) || NotThrough(db.world, o, Swap) || NotThrough(db.world, o, Burn)
  {
    ghost var s := db.world;
    var end := SwapPhase(db, env, o, account);
    ghost var u := db.world;
    if !end.Succeeded? {
      BroadcastsOf(s, u, u, u, o);
      return if end.GivenUp? then NonRetryable else Threw;
    }
    Wait(db, o);
    ghost var v := db.world;
    r := BurnAndDeliver(db, env, o);
    BroadcastsOf(s, u, v, db.world, o);
  }

  /** `processBuy`: an order past its burn is skipped. A hopeless one is given up:
      nothing is broadcast, its hashes stay, and if it was its account that could
      not pay, it is left SWAPPING without a hash. Otherwise a step is broadcast
      only if it has no hash on file, and at most once; an order carried to the end
      has both receipts and is DELIVERING, whatever a link made of it meanwhile. A
      job that throws had a setback, failed the order for a revert, or waited in vain. */
  method ProcessBuy(db: OrderBook, env: Env, o: nat, account: Account) returns (r: JobResult)
    requires Working(db, o) && db.world.heldTx.None?
    modifies db, env
    ensures db.Valid() && db.world.heldTx.None? && o < |db.world.orders|
    ensures r.Skipped? <==>
      account.keyFits && (old(db.world).orders[o].status.Delivered? || old(db.world).orders[o].status.Delivering?)
    ensures r.NonRetryable? ==> Hopeless(old(db.world).orders[o], account)
    ensures Hopeless(old(db.world).orders[o], account) ==>
      r.NonRetryable? || (CannotSwap(old(db.world).orders[o], account) && r.Threw? && env.setbacks > old(env.setbacks))
    ensures Broadcasts(old(db.world), db.world, o)
    ensures r.Skipped? || r.NonRetryable? ==> |db.world.txs| == |old(db.world).txs|
    ensures r.NonRetryable? && account.keyFits && !old(db.world).orders[o].status.Failed? ==>
      db.world.orders[o] == old(db.world).orders[o].(status := Swapping)
    ensures r.Done? ==> Carried(db.world, o)
    ensures r.Threw? ==>
      env.setbacks > old(env.setbacks) || NotThrough(db.world, o, Swap) || NotThrough(db.world, o, Burn)
  {
    ghost var s := db.world;
    var status := db.world.orders[o].status;
    db.OrderFacts(o);
    Wait(db, o);
    if !account.keyFits { return NonRetryable; }
    if status.Delivered? || status.Delivering? { return Skipped; }
    if status.Failed? { return NonRetryable; }
    ghost var t := db.world;
    StillWorkable(s, t, o);
    r := Work(db, env, o, account);
    BroadcastsSince(s, t, db.world, o);
  }

  /** A link may have come in between; it comes only after the swap. */
  lemma StillWorkable(s: State, t: State, o: nat)
    requires o < |s.orders| <= |t.orders| && MarkedOnly(s.orders[o], t.orders[o]) && OrderOk(s.orders[o], o, s.txs)
    requires s.orders[o].detected && !s.orders[o].status.Delivered? && !s.orders[o].status.Delivering?
      && !s.orders[o].status.Failed?
    ensures Workable(t.orders[o]) && t.orders[o].swapTx == s.orders[o].swapTx
    ensures s.orders[o].swapTx.None? ==> t.orders[o] == s.orders[o]
  {
  }

  lemma BroadcastsOf(s: State, u: State, v: State, w: State, o: nat)
    requires o < |s.orders| && AtMostOne(s, u, o, Swap)
    requires |u.orders| <= |v.orders| && SameBroadcasts(u, v) && |v.txs| == |u.txs|
    requires MarkedOnly(u.orders[o], v.orders[o]) && (w == v || AtMostOne(v, w, o, Burn))
    ensures Broadcasts(s, w, o)
  {
  }

  lemma BroadcastsSince(s: State, t: State, u: State, o: nat)
    requires o < |s.orders| <= |t.orders| && SameBroadcasts(s, t) && |t.txs| == |s.txs| && Broadcasts(t, u, o)
    requires MarkedOnly(s.orders[o], t.orders[o])
    ensures Broadcasts(s, u, o)
  {
    forall i, j | |s.txs| <= i < j < |u.txs|
      ensures SwapThenBurn(u.txs[i], u.txs[j])
    {
      assert SwapThenBurn(u.txs[i], u.txs[j]);
    }
  }

  /** At most one swap, then at most one burn, of this order, each only if it had
      no hash on file. */
  predicate Broadcasts(s: State, s': State, o: nat) {
    && o < |s.orders| && |s.txs| <= |s'.txs|
    && (forall t :: |s.txs| <= t < |s'.txs| ==> s'.txs[t].order == o && HashOf(s.orders[o], s'.txs[t].kind).None?)
    && (forall t, u :: |s.txs| <= t < u < |s'.txs| ==> SwapThenBurn(s'.txs[t], s'.txs[u]))
  }

  predicate SwapThenBurn(a: BuyTx, b: BuyTx) { a.kind.Swap? && b.kind.Burn? }
}
