/** The watcher of buy orders: expiry and payment detection. */
module BuyWatcher {
  import opened Wrappers
  import opened Environment
  import opened BuyOrders
  import opened BuyWorker

  const MAX_ORDERS_PER_TICK := 50

  predicate OfWatcher(e: Event) { e.Expire? || e.Detect? || e.Enqueue? }

  /** What the watcher may rely on: nobody else touches an order that awaits its
      payment, or takes a job off the queue before it is done. */
  predicate WatcherRelies(s: State, s': State) {
    && |s.orders| <= |s'.orders| && s.buyJobs <= s'.buyJobs
    && forall o :: 0 <= o < |s.orders| ==> Untouched(s.orders[o], s'.orders[o])
  }

  predicate Untouched(order: Order, order': Order) {
    (order.status.AwaitingPayment? ==> order' == order) && (order.detected ==> order'.detected)
    && (order'.status.AwaitingPayment? ==> order.status.AwaitingPayment?)
  }

  lemma WatcherReliesOn(s: State, t: State, u: State)
    requires WatcherRelies(s, t) && WatcherRelies(t, u)
    ensures WatcherRelies(s, u)
  {
    forall o | 0 <= o < |s.orders| ensures Untouched(s.orders[o], u.orders[o]) {
      assert Untouched(s.orders[o], t.orders[o]) && Untouched(t.orders[o], u.orders[o]);
    }
  }

  lemma ClaimsRespectWatcher(s: State, e: Event, s': State)
    requires OrdersInv(s) && s' == Step(s, e)
    requires e.ClaimSwapping? || e.ClaimBurning? || e.Link?
    ensures WatcherRelies(s, s')
  {
    if e.o < |s.orders| { assert OrderOk(s.orders[e.o], e.o, s.txs); }
  }

  lemma EndsRespectWatcher(s: State, e: Event, s': State)
    requires OrdersInv(s) && s' == Step(s, e)
    requires e.MarkFailed? || e.MarkDelivering?
    ensures WatcherRelies(s, s')
  {
    if e.o < |s.orders| { assert OrderOk(s.orders[e.o], e.o, s.txs); }
  }

  lemma FilingRespectsWatcher(s: State, s': State)
    requires OrdersInv(s) && s' == Step(s, FileTx)
    ensures WatcherRelies(s, s')
  {
    if s.heldTx.Some? { assert TxOk(s.heldTx.value, s.txs[s.heldTx.value], s.orders, s.heldTx); }
  }

  lemma OthersRespectWatcher(s: State, e: Event, s': State)
    requires OrdersInv(s) && !OfWatcher(e) && s' == Step(s, e)
    ensures WatcherRelies(s, s')
  {
    match e
    case FileTx => FilingRespectsWatcher(s, s');
    case ClaimSwapping(_) => ClaimsRespectWatcher(s, e, s');
    case ClaimBurning(_) => ClaimsRespectWatcher(s, e, s');
    case MarkFailed(_, _) => EndsRespectWatcher(s, e, s');
    case MarkDelivering(_) => EndsRespectWatcher(s, e, s');
    case Link(_) => ClaimsRespectWatcher(s, e, s');
    case _ =>
  }

  /** `expireStaleOrders`: what was awaiting payment past its time no longer is. */
  method ExpireStaleOrders(db: OrderBook)
    requires db.Valid()
    modifies db
    ensures db.Valid() && db.world == old(db.world).(orders := db.world.orders)
    ensures |db.world.orders| == |old(db.world).orders|
    ensures forall o :: 0 <= o < |db.world.orders| ==>
      db.world.orders[o] == if Stale(old(db.world), o) then old(db.world).orders[o].(status := Expired)
        else old(db.world).orders[o]
  {
    ghost var s := db.world;
    var o := 0;
    while o < |db.world.orders|
      invariant db.Valid() && db.world == s.(orders := db.world.orders) && |db.world.orders| == |s.orders|
      invariant 0 <= o <= |s.orders|
      invariant forall p :: 0 <= p < o ==>
        db.world.orders[p] == if Stale(s, p) then s.orders[p].(status := Expired) else s.orders[p]
      invariant forall p :: o <= p < |s.orders| ==> db.world.orders[p] == s.orders[p]
    {
      if db.world.orders[o].status.AwaitingPayment? && db.world.orders[o].expiresAt < db.world.now { db.Expire(o); }
      o := o + 1;
    }
  }

  predicate Stale(s: State, o: nat)
    requires o < |s.orders|
  {
    s.orders[o].status.AwaitingPayment? && s.orders[o].expiresAt < s.now
  }

  /** `BuyOrder.find({ AWAITING_PAYMENT, not expired }).limit(50)`. */
  function FindAwaiting(s: State, n: nat): (found: seq<nat>)
    requires n <= |s.orders|
    ensures |found| <= 50
    ensures forall o :: o in found ==> o < n && s.orders[o].status.AwaitingPayment? && s.orders[o].expiresAt >= s.now
    ensures |found| < 50 ==>
      forall o :: 0 <= o < n && s.orders[o].status.AwaitingPayment? && s.orders[o].expiresAt >= s.now ==> o in found
  {
    if n == 0 then []
    else
      var found := FindAwaiting(s, n - 1);
      if |found| < MAX_ORDERS_PER_TICK && InTime(s, n - 1) then found + [n - 1] else found
  }

  predicate InTime(s: State, o: nat)
    requires o < |s.orders|
  {
    s.orders[o].status.AwaitingPayment? && s.orders[o].expiresAt >= s.now
  }

  /** Any number of writes of the other actors. */
  method Wait(db: OrderBook)
    requires db.Valid()
    modifies db
    ensures db.Valid() && WatcherRelies(old(db.world), db.world)
  {
    var n := AnyCount();
    while n > 0
      invariant db.Valid() && WatcherRelies(old(db.world), db.world)
    {
      var e := AnyEvent();
      if !OfWatcher(e) {
        ghost var before := db.world;
        db.Facts();
        db.Do(e);
        OthersRespectWatcher(before, e, db.world);
        WatcherReliesOn(old(db.world), before, db.world);
      }
      n := n - 1;
    }
  }

  /** Who left AWAITING_PAYMENT since `s`: paid orders found in time, whose job is
      queued, but for one whose detection was the last thing the process did. */
  predicate DetectedSince(s: State, s': State, found: seq<nat>, balances: nat -> Reply, stranded: Option<nat>) {
    && |s.orders| <= |s'.orders|
    && forall o :: 0 <= o < |s.orders| && s.orders[o].status.AwaitingPayment? && s'.orders[o] != s.orders[o] ==>
         && o in found && balances(o) == Yes && Taken(s', o)
         && (o in s'.buyJobs || stranded == Some(o))
  }

  lemma DetectedStill(s: State, t: State, u: State, found: seq<nat>, balances: nat -> Reply)
    requires DetectedSince(s, t, found, balances, None) && WatcherRelies(t, u)
    ensures DetectedSince(s, u, found, balances, None)
  {
    forall o | 0 <= o < |s.orders|
      ensures Untouched(t.orders[o], u.orders[o])
    {
    }
  }

  /** The first `k` orders found whose balance suffices are detected and queued. */
  predicate PaidUpTo(s': State, found: seq<nat>, balances: nat -> Reply, k: nat) {
    forall j :: 0 <= j < k && j < |found| && balances(found[j]) == Yes ==> Taken(s', found[j])
  }

  predicate Taken(s': State, o: nat) {
    o < |s'.orders| && s'.orders[o].detected && !s'.orders[o].status.AwaitingPayment?
  }

  lemma TakenStill(s: State, s': State, found: seq<nat>, balances: nat -> Reply, k: nat)
    requires PaidUpTo(s, found, balances, k) && WatcherRelies(s, s')
    ensures PaidUpTo(s', found, balances, k)
  {
    forall j | 0 <= j < k && j < |found| && balances(found[j]) == Yes
      ensures Taken(s', found[j])
    {
      assert Taken(s, found[j]) && Untouched(s.orders[found[j]], s'.orders[found[j]]);
    }
  }

  /** `detectAwaitingOrders`, with what the chain says of each order's balance:
      enough, not enough, or no answer. Only a setback ends the pass early, or strands
      an order between its detection and its job. */
  method DetectAwaitingOrders(db: OrderBook, env: Env, balances: nat -> Reply)
    returns (completed: bool, stranded: Option<nat>)
    requires db.Valid()
    modifies db, env
    ensures db.Valid()
    ensures DetectedSince(old(db.world), db.world, FindAwaiting(old(db.world), |old(db.world).orders|), balances,
      stranded)
    ensures completed ==> stranded.None?
    ensures old(env.setbacks) <= env.setbacks && (!completed ==> env.setbacks > old(env.setbacks))
    ensures completed ==> forall o :: o in FindAwaiting(old(db.world), |old(db.world).orders|) && balances(o) == Yes ==>
      Taken(db.world, o)
  {
    ghost var s := db.world;
    var found := FindAwaiting(db.world, |db.world.orders|);
    stranded := None;
    var k := 0;
    while k < |found|
      invariant 0 <= k <= |found| && stranded.None? && old(env.setbacks) <= env.setbacks
      invariant db.Valid() && DetectedSince(s, db.world, found, balances, None)
        && PaidUpTo(db.world, found, balances, k)
    {
      ghost var u := db.world;
      Wait(db);
      DetectedStill(s, u, db.world, found, balances);
      TakenStill(u, db.world, found, balances, k);
      assert found[k] in found;
      if balances(found[k]) == Yes {
        completed, stranded := Claim(db, env, found[k], s, found, balances, k);
        if !completed { return; }
      }
      k := k + 1;
    }
    completed := true;
  }

  /** The claim of a paid order, then its job; a claim that finds the order in
      another state does nothing. */
  method Claim(db: OrderBook, env: Env, o: nat, ghost s: State, ghost found: seq<nat>, ghost balances: nat -> Reply,
               ghost k: nat)
    returns (ok: bool, stranded: Option<nat>)
    requires db.Valid() && k < |found| && o == found[k] < |s.orders| && balances(o) == Yes
      && s.orders[o].status.AwaitingPayment?
    requires DetectedSince(s, db.world, found, balances, None) && PaidUpTo(db.world, found, balances, k)
    modifies db, env
    ensures db.Valid() && DetectedSince(s, db.world, found, balances, stranded)
    ensures ok ==> stranded.None? && PaidUpTo(db.world, found, balances, k + 1)
    ensures old(env.setbacks) <= env.setbacks && (!ok ==> env.setbacks > old(env.setbacks))
  {
    var dies := env.Dies();
    if dies { return false, None; }
    if db.world.orders[o].status.AwaitingPayment? {
      db.Detect(o);
      dies := env.Dies();
      if dies { return false, Some(o); }
      db.Enqueue(o);
    }
    return true, None;
  }
}
