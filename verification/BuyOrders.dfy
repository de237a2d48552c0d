/** Buy orders: the API, the watcher, the buy worker and the release worker all
    write to one row, each write being one event. */
module BuyOrders {
  import opened Wrappers
  import opened Rows

  datatype OrderStatus =
    AwaitingPayment | PaymentDetected | Swapping | Burning | Delivering | Delivered | Failed | Expired

  datatype Order = Order(
    expiresAt: nat,
    status: OrderStatus,
    detected: bool,
    swapTx: Option<nat>,
    burnTx: Option<nat>,
    release: Option<string>)

  datatype Kind = Swap | Burn

  /** A broadcast of the buy worker; `lost` once its hash can no longer be written. */
  datatype BuyTx = BuyTx(order: nat, kind: Kind, outcome: TxOutcome, lost: bool)

  /** The withdrawal of a burn transaction; an order's transaction has one log. */
  datatype Release = Release(burnTx: nat, fairTxid: Option<string>, broadcast: bool)

  datatype State = State(
    now: nat,
    orders: seq<Order>,
    txs: seq<BuyTx>,
    releases: seq<Release>,
    buyJobs: set<nat>,
    // memory of the two workers
    heldTx: Option<nat>,
    heldLink: Option<nat>)

  datatype Event =
    | Tick(ms: nat)
    | Quote(validMs: nat)
    | Mine(tx: nat, success: bool)
    // the watcher
    | Expire(o: nat)
    | Detect(o: nat)
    | Enqueue(o: nat)
    // the buy worker
    | ClaimSwapping(o: nat)
    | ClaimBurning(o: nat)
    | Broadcast(o: nat, kind: Kind)
    | FileTx
    | LoseTx
    | MarkFailed(o: nat, kind: Kind)
    | MarkDelivering(o: nat)
    // the burn scanner and the release worker
    | RecordBurn(tx: nat)
    | FileRelease(r: nat, txid: string)
    | MarkBroadcast(r: nat)
    | Link(o: nat)
    | LoseLink

  function HashOf(order: Order, kind: Kind): Option<nat> {
    if kind.Swap? then order.swapTx else order.burnTx
  }

  /** The hash on file is a transaction with that outcome. */
  predicate OnFileAs(txs: seq<BuyTx>, hash: Option<nat>, outcome: TxOutcome) {
    hash.Some? && hash.value < |txs| && txs[hash.value].outcome == outcome
  }

  function WithOrder(s: State, o: nat, order: Order): State
    requires o < |s.orders|
  {
    s.(orders := s.orders[o := order])
  }

  /** An event whose guard does not hold leaves the state as it is. */
  function Step(s: State, e: Event): State {
    match e
    case Tick(ms) => s.(now := s.now + ms)
    case Quote(validMs) =>
      s.(orders := s.orders + [Order(s.now + validMs, AwaitingPayment, false, None, None, None)])
    case Mine(tx, success) =>
      if tx < |s.txs| && s.txs[tx].outcome.Pending? then
        s.(txs := s.txs[tx := s.txs[tx].(outcome := if success then Success else Reverted)])
      else s
    case Expire(o) =>
      if o < |s.orders| && s.orders[o].status.AwaitingPayment? && s.orders[o].expiresAt < s.now then
        WithOrder(s, o, s.orders[o].(status := Expired))
      else s
    case Detect(o) =>
      if o < |s.orders| && s.orders[o].status.AwaitingPayment? then
        WithOrder(s, o, s.orders[o].(status := PaymentDetected, detected := true))
      else s
    case Enqueue(o) => if o < |s.orders| && s.orders[o].detected then s.(buyJobs := s.buyJobs + {o}) else s
    case ClaimSwapping(o) =>
      if o < |s.orders| && (s.orders[o].status.PaymentDetected? || s.orders[o].status.Swapping?)
        && s.orders[o].swapTx.None?
      then WithOrder(s, o, s.orders[o].(status := Swapping)) else s
    case ClaimBurning(o) =>
      if o < |s.orders| && (s.orders[o].status.Swapping? || s.orders[o].status.Burning?) && s.orders[o].burnTx.None?
         && OnFileAs(s.txs, s.orders[o].swapTx, Success)
      then WithOrder(s, o, s.orders[o].(status := Burning)) else s
    case Broadcast(o, kind) =>
      if o < |s.orders| && s.orders[o].status == (if kind.Swap? then Swapping else Burning)
         && HashOf(s.orders[o], kind).None? && s.heldTx.None?
      then s.(txs := s.txs + [BuyTx(o, kind, Pending, false)], heldTx := Some(|s.txs|)) else s
    case FileTx =>
      if s.heldTx.Some? && s.heldTx.value < |s.txs| && s.txs[s.heldTx.value].order < |s.orders| then
        var tx := s.txs[s.heldTx.value];
        WithOrder(s, tx.order, if tx.kind.Swap? then s.orders[tx.order].(swapTx := s.heldTx)
                               else s.orders[tx.order].(burnTx := s.heldTx)).(heldTx := None)
      else s
    case LoseTx =>
      if s.heldTx.Some? && s.heldTx.value < |s.txs| then
        s.(txs := s.txs[s.heldTx.value := s.txs[s.heldTx.value].(lost := true)], heldTx := None)
      else s
    case MarkFailed(o, kind) =>
      if o < |s.orders| && OnFileAs(s.txs, HashOf(s.orders[o], kind), Reverted) then
        WithOrder(s, o, s.orders[o].(status := OrderStatus.Failed))
      else s
    case MarkDelivering(o) =>
      if o < |s.orders| && OnFileAs(s.txs, s.orders[o].burnTx, Success) then
        WithOrder(s, o, s.orders[o].(status := Delivering))
      else s
    case RecordBurn(tx) =>
      if tx < |s.txs| && s.txs[tx].kind.Burn? && s.txs[tx].outcome.Success?
         && (forall r :: 0 <= r < |s.releases| ==> s.releases[r].burnTx != tx)
      then s.(releases := s.releases + [Release(tx, None, false)]) else s
    case FileRelease(r, txid) =>
      if r < |s.releases| && s.releases[r].fairTxid.None? then
        s.(releases := s.releases[r := s.releases[r].(fairTxid := Some(txid))])
      else s
    case MarkBroadcast(r) =>
      if r < |s.releases| && s.releases[r].fairTxid.Some? && !s.releases[r].broadcast && s.heldLink.None? then
        s.(releases := s.releases[r := s.releases[r].(broadcast := true)], heldLink := Some(r))
      else s
    case Link(o) =>
      if Linkable(s, o) then
        WithOrder(s, o,
          s.orders[o].(status := Delivered, release := s.releases[s.heldLink.value].fairTxid)).(heldLink := None)
      else s
    case LoseLink => s.(heldLink := None)
  }

  /** The filter of `linkReleaseToBuyOrder`. */
  predicate Linkable(s: State, o: nat) {
    && o < |s.orders| && s.heldLink.Some? && s.heldLink.value < |s.releases|
    && s.orders[o].burnTx == Some(s.releases[s.heldLink.value].burnTx)
    && (s.orders[o].status.Burning? || s.orders[o].status.Delivering?)
  }

  function Run(s: State, events: seq<Event>): State {
    if events == [] then s
    else Step(Run(s, events[..|events| - 1]), events[|events| - 1])
  }

  // ---- what holds of every reachable state ---------------------------------

  predicate Delivers(r: Release, order: Order) {
    order.burnTx == Some(r.burnTx) && r.fairTxid == order.release
  }

  /** The columns of an order agree with its status, and with the chain. */
  predicate OrderOk(order: Order, o: nat, txs: seq<BuyTx>) {
    && (order.swapTx.Some? ==>
      order.swapTx.value < |txs| && txs[order.swapTx.value].(outcome := Pending) == BuyTx(o, Swap, Pending, false))
    && (order.burnTx.Some? ==>
      order.burnTx.value < |txs| && txs[order.burnTx.value].(outcome := Pending) == BuyTx(o, Burn, Pending, false))
    && (order.burnTx.Some? ==> OnFileAs(txs, order.swapTx, Success))
    && (order.release.Some? ==> OnFileAs(txs, order.burnTx, Success))
    && match order.status
       case AwaitingPayment => !order.detected && order.swapTx.None? && order.burnTx.None?
       case Expired => !order.detected && order.swapTx.None? && order.burnTx.None?
       case PaymentDetected => order.detected && order.swapTx.None? && order.burnTx.None?
       case Swapping => order.detected && order.burnTx.None?
       case Burning => order.detected && order.release.None? && OnFileAs(txs, order.swapTx, Success)
       case Delivering => order.detected && OnFileAs(txs, order.burnTx, Success)
       case Delivered => order.detected && order.release.Some?
       case Failed =>
         && order.detected && order.release.None?
         && (OnFileAs(txs, order.swapTx, Reverted) || OnFileAs(txs, order.burnTx, Reverted))
  }

  /** Every broadcast is on file at its order, lost, or in the worker's hand. */
  predicate TxOk(t: nat, tx: BuyTx, orders: seq<Order>, heldTx: Option<nat>) {
    && tx.order < |orders|
    && (tx.lost || heldTx == Some(t) || HashOf(orders[tx.order], tx.kind) == Some(t))
    && (heldTx == Some(t) ==>
          && !tx.lost && HashOf(orders[tx.order], tx.kind).None? && orders[tx.order].detected
          && orders[tx.order].status == (if tx.kind.Swap? then Swapping else Burning))
  }

  predicate ReleaseOk(r: Release, txs: seq<BuyTx>) {
    && r.burnTx < |txs| && txs[r.burnTx].kind.Burn? && txs[r.burnTx].outcome.Success?
    && (r.broadcast ==> r.fairTxid.Some?)
  }

  /** An order's release id is that of the release of its burn, whose one link
      attempt is spent. */
  predicate LinkOk(order: Order, releases: seq<Release>, heldLink: Option<nat>) {
    order.release.Some? ==>
      exists r :: 0 <= r < |releases| && Delivers(releases[r], order) && releases[r].broadcast && heldLink != Some(r)
  }

  /** A burn has at most one release. */
  predicate OneABurn(releases: seq<Release>) {
    forall r, q :: 0 <= r < q < |releases| ==> releases[r].burnTx != releases[q].burnTx
  }

  predicate OrdersInv(s: State) {
    && (forall o :: 0 <= o < |s.orders| ==> OrderOk(s.orders[o], o, s.txs))
    && (forall o :: 0 <= o < |s.orders| ==> LinkOk(s.orders[o], s.releases, s.heldLink))
    && (forall t :: 0 <= t < |s.txs| ==> TxOk(t, s.txs[t], s.orders, s.heldTx))
    && (s.heldTx.Some? ==> s.heldTx.value < |s.txs|)
    && (forall r :: 0 <= r < |s.releases| ==> ReleaseOk(s.releases[r], s.txs))
    && OneABurn(s.releases)
    && (s.heldLink.Some? ==> s.heldLink.value < |s.releases| && s.releases[s.heldLink.value].broadcast)
    && (forall o :: o in s.buyJobs ==> o < |s.orders| && s.orders[o].detected)
  }

  // ---- how a row may change ------------------------------------------------

  predicate Kept<T(==)>(a: Option<T>, b: Option<T>) { a.Some? ==> b == a }

  /** Hashes and the release id are written once; EXPIRED and FAILED rows do not
      change; a row with a release id can only be written back to DELIVERING. */
  predicate OrderMoves(order: Order, order': Order) {
    && order'.expiresAt == order.expiresAt && (order.detected ==> order'.detected)
    && Kept(order.swapTx, order'.swapTx) && Kept(order.burnTx, order'.burnTx) && Kept(order.release, order'.release)
    && (order.status.Expired? || order.status.Failed? ==> order' == order)
    && (order.release.Some? ==> order' == order || order' == order.(status := Delivering))
  }

  predicate OrdersMove(s: State, s': State) {
    |s.orders| <= |s'.orders| && forall o :: 0 <= o < |s.orders| ==> OrderMoves(s.orders[o], s'.orders[o])
  }

  // ---- the invariant, write by write ---------------------------------------

  /** The row whose transaction the buy worker holds is not touched by others. */
  predicate HeldRowSame(s: State, o: nat, order: Order)
    requires o < |s.orders|
  {
    s.heldTx.Some? && s.heldTx.value < |s.txs| && s.txs[s.heldTx.value].order == o ==>
      && order.status == s.orders[o].status && order.detected == s.orders[o].detected
      && order.swapTx == s.orders[o].swapTx && order.burnTx == s.orders[o].burnTx
  }

  /** One row is written; a link attempt may be spent with it. */
  lemma RowWriteKeeps(s: State, s': State, o: nat, order: Order)
    requires OrdersInv(s) && o < |s.orders|
    requires s' == s.(orders := s.orders[o := order], heldLink := s'.heldLink)
    requires s'.heldLink == s.heldLink || s'.heldLink.None?
    requires OrderOk(order, o, s.txs) && OrderMoves(s.orders[o], order) && HeldRowSame(s, o, order)
    requires LinkOk(order, s.releases, s'.heldLink)
    ensures OrdersInv(s') && OrdersMove(s, s')
  {
    forall t | 0 <= t < |s.txs|
      ensures TxOk(t, s.txs[t], s'.orders, s'.heldTx)
    {
      assert TxOk(t, s.txs[t], s.orders, s.heldTx);
    }
    forall p | 0 <= p < |s'.orders|
      ensures LinkOk(s'.orders[p], s'.releases, s'.heldLink)
    {
      assert LinkOk(s.orders[p], s.releases, s.heldLink);
    }
  }

  /** What the buy worker and the link write to a row, and the watcher's claims. */
  lemma RowEventKeeps(s: State, e: Event)
    requires OrdersInv(s)
    requires e.Expire? || e.Detect? || e.ClaimSwapping? || e.ClaimBurning? || e.MarkFailed? || e.MarkDelivering?
    ensures OrdersInv(Step(s, e)) && OrdersMove(s, Step(s, e))
  {
    var s' := Step(s, e);
    if s' != s {
      WrittenRow(s, e, s'.orders[e.o]);
      RowWriteKeeps(s, s', e.o, s'.orders[e.o]);
    }
  }

  lemma WrittenRow(s: State, e: Event, order: Order)
    requires OrdersInv(s) && Step(s, e) != s
    requires e.Expire? || e.Detect? || e.ClaimSwapping? || e.ClaimBurning? || e.MarkFailed? || e.MarkDelivering?
    requires e.o < |s.orders| && order == Step(s, e).orders[e.o]
    ensures OrderOk(order, e.o, s.txs) && OrderMoves(s.orders[e.o], order) && HeldRowSame(s, e.o, order)
    ensures LinkOk(order, s.releases, s.heldLink)
  {
    var o := e.o;
    assert OrderOk(s.orders[o], o, s.txs) && LinkOk(s.orders[o], s.releases, s.heldLink);
    if s.heldTx.Some? { assert TxOk(s.heldTx.value, s.txs[s.heldTx.value], s.orders, s.heldTx); }
    LinkStaysOk(s.orders[o], order, s.releases, s.heldLink);
  }

  lemma LinkStaysOk(order: Order, order': Order, releases: seq<Release>, heldLink: Option<nat>)
    requires LinkOk(order, releases, heldLink) && order'.release == order.release && order'.burnTx == order.burnTx
    ensures LinkOk(order', releases, heldLink)
  {
    if order.release.Some? {
      var r :| 0 <= r < |releases| && Delivers(releases[r], order) && releases[r].broadcast && heldLink != Some(r);
      assert Delivers(releases[r], order');
    }
  }

  /** An order that has a release id has it from the one release of its burn, and
      that release's link attempt is spent. */
  lemma LinkIsSpent(order: Order, releases: seq<Release>, heldLink: Option<nat>, r: nat)
    requires LinkOk(order, releases, heldLink) && OneABurn(releases) && order.release.Some?
    requires r < |releases| && order.burnTx == Some(releases[r].burnTx)
    ensures heldLink != Some(r) && releases[r].broadcast && releases[r].fairTxid == order.release
  {
    var q :| 0 <= q < |releases| && Delivers(releases[q], order) && releases[q].broadcast && heldLink != Some(q);
    assert releases[q].burnTx == releases[r].burnTx;
    assert q == r;
  }

  lemma SpentLink(s: State, o: nat, r: nat)
    requires OrdersInv(s) && o < |s.orders| && r < |s.releases|
    requires s.orders[o].burnTx == Some(s.releases[r].burnTx)
    ensures s.orders[o].release.Some? ==>
      && s.heldLink != Some(r) && s.releases[r].broadcast && s.releases[r].fairTxid == s.orders[o].release
  {
    if s.orders[o].release.Some? { LinkIsSpent(s.orders[o], s.releases, s.heldLink, r); }
  }

  /** The row a link writes. */
  lemma LinkedRow(s: State, o: nat, order: Order)
    requires OrdersInv(s) && Linkable(s, o)
    requires order == s.orders[o].(status := Delivered, release := s.releases[s.heldLink.value].fairTxid)
    ensures OrderOk(order, o, s.txs) && OrderMoves(s.orders[o], order) && HeldRowSame(s, o, order)
    ensures LinkOk(order, s.releases, None)
  {
    var r := s.heldLink.value;
    SpentLink(s, o, r);
    assert OrderOk(s.orders[o], o, s.txs) && ReleaseOk(s.releases[r], s.txs) && Delivers(s.releases[r], order);
    if s.heldTx.Some? { assert TxOk(s.heldTx.value, s.txs[s.heldTx.value], s.orders, s.heldTx); }
  }

  lemma LinkKeeps(s: State, o: nat)
    requires OrdersInv(s)
    ensures OrdersInv(Step(s, Link(o))) && OrdersMove(s, Step(s, Link(o)))
  {
    if Linkable(s, o) {
      var order := s.orders[o].(status := Delivered, release := s.releases[s.heldLink.value].fairTxid);
      LinkedRow(s, o, order);
      RowWriteKeeps(s, s.(orders := s.orders[o := order], heldLink := None), o, order);
    }
  }

  /** Nothing but the clock, the queue and new rows. */
  lemma OutsideKeeps(s: State, s': State, e: Event)
    requires OrdersInv(s) && (e.Tick? || e.Quote? || e.Enqueue?) && s' == Step(s, e)
    ensures OrdersInv(s') && OrdersMove(s, s')
  {
    assert s.orders <= s'.orders;
    MoreOrdersKeepTxs(s, s'.orders);
    forall p | 0 <= p < |s.orders|
      ensures OrderOk(s'.orders[p], p, s'.txs) && LinkOk(s'.orders[p], s'.releases, s'.heldLink)
    {
      assert OrderOk(s.orders[p], p, s.txs) && LinkOk(s.orders[p], s.releases, s.heldLink);
    }
  }

  lemma MoreOrdersKeepTxs(s: State, orders: seq<Order>)
    requires OrdersInv(s) && s.orders <= orders
    ensures forall t :: 0 <= t < |s.txs| ==> TxOk(t, s.txs[t], orders, s.heldTx)
  {
    forall t | 0 <= t < |s.txs|
      ensures TxOk(t, s.txs[t], orders, s.heldTx)
    {
      assert TxOk(t, s.txs[t], s.orders, s.heldTx);
    }
  }

  /** The same transactions, some mined, some lost, and perhaps more of them. */
  predicate TxsMove(txs: seq<BuyTx>, txs': seq<BuyTx>) {
    |txs| <= |txs'| && forall t :: 0 <= t < |txs| ==> TxMoves(txs[t], txs'[t])
  }

  predicate TxMoves(tx: BuyTx, tx': BuyTx) {
    && tx' == tx.(outcome := tx'.outcome, lost := tx'.lost)
    && (!tx.outcome.Pending? ==> tx'.outcome == tx.outcome)
  }

  /** What a row says of the chain stays true, if no hash on file is lost. */
  lemma OrderStaysOk(order: Order, o: nat, txs: seq<BuyTx>, txs': seq<BuyTx>)
    requires OrderOk(order, o, txs) && TxsMove(txs, txs')
    requires order.swapTx.Some? ==> !txs'[order.swapTx.value].lost
    requires order.burnTx.Some? ==> !txs'[order.burnTx.value].lost
    ensures OrderOk(order, o, txs')
  {
    if order.swapTx.Some? { assert TxMoves(txs[order.swapTx.value], txs'[order.swapTx.value]); }
    if order.burnTx.Some? { assert TxMoves(txs[order.burnTx.value], txs'[order.burnTx.value]); }
  }

  /** Broadcasts, receipts and lost hashes touch no row. */
  lemma TxsKeep(s: State, s': State)
    requires OrdersInv(s) && s' == s.(txs := s'.txs, heldTx := s'.heldTx) && TxsMove(s.txs, s'.txs)
    requires forall t :: 0 <= t < |s.txs| && s'.txs[t].lost && !s.txs[t].lost ==> s.heldTx == Some(t)
    requires forall t :: 0 <= t < |s'.txs| ==> TxOk(t, s'.txs[t], s.orders, s'.heldTx)
    requires s'.heldTx.Some? ==> s'.heldTx.value < |s'.txs|
    ensures OrdersInv(s') && OrdersMove(s, s')
  {
    forall o | 0 <= o < |s.orders|
      ensures OrderOk(s.orders[o], o, s'.txs)
    {
      assert OrderOk(s.orders[o], o, s.txs);
      if s.heldTx.Some? { assert TxOk(s.heldTx.value, s.txs[s.heldTx.value], s.orders, s.heldTx); }
      OrderStaysOk(s.orders[o], o, s.txs, s'.txs);
    }
    forall r | 0 <= r < |s.releases|
      ensures ReleaseOk(s.releases[r], s'.txs)
    {
      assert ReleaseOk(s.releases[r], s.txs) && TxMoves(s.txs[s.releases[r].burnTx], s'.txs[s.releases[r].burnTx]);
    }
    forall o | 0 <= o < |s.orders|
      ensures LinkOk(s.orders[o], s'.releases, s'.heldLink)
    {
      assert LinkOk(s.orders[o], s.releases, s.heldLink);
    }
  }

  lemma ChainKeeps(s: State, s': State, e: Event)
    requires OrdersInv(s) && (e.Mine? || e.Broadcast? || e.LoseTx?) && s' == Step(s, e)
    ensures OrdersInv(s') && OrdersMove(s, s')
  {
    ChainEventsAreOk(s, s', e);
    TxsKeep(s, s');
  }

  lemma ChainEventsAreOk(s: State, s': State, e: Event)
    requires OrdersInv(s) && (e.Mine? || e.Broadcast? || e.LoseTx?) && s' == Step(s, e)
    ensures forall t :: 0 <= t < |s'.txs| ==> TxOk(t, s'.txs[t], s.orders, s'.heldTx)
  {
    forall t | 0 <= t < |s'.txs|
      ensures TxOk(t, s'.txs[t], s.orders, s'.heldTx)
    {
      if t < |s.txs| { assert TxOk(t, s.txs[t], s.orders, s.heldTx); }
      if e.Broadcast? && s' != s { assert OrderOk(s.orders[e.o], e.o, s.txs); }
    }
  }

  /** The write of a hash. */
  lemma FilingKeeps(s: State)
    requires OrdersInv(s)
    ensures OrdersInv(Step(s, FileTx)) && OrdersMove(s, Step(s, FileTx))
  {
    var s' := Step(s, FileTx);
    if s' != s {
      var h := s.heldTx.value;
      var o := s.txs[h].order;
      assert TxOk(h, s.txs[h], s.orders, s.heldTx) && OrderOk(s.orders[o], o, s.txs)
        && OrderOk(s'.orders[o], o, s'.txs);
      assert LinkOk(s.orders[o], s.releases, s.heldLink);
      forall t | 0 <= t < |s.txs|
        ensures TxOk(t, s.txs[t], s'.orders, s'.heldTx)
      {
        assert TxOk(t, s.txs[t], s.orders, s.heldTx);
      }
      forall p | 0 <= p < |s.orders|
        ensures LinkOk(s'.orders[p], s'.releases, s'.heldLink)
      {
        assert LinkOk(s.orders[p], s.releases, s.heldLink);
      }
    }
  }

  predicate ReleaseMoves(r: Release, r': Release) {
    r'.burnTx == r.burnTx && Kept(r.fairTxid, r'.fairTxid) && (r.broadcast ==> r' == r)
  }

  /** The burn scanner and the release worker write their own rows; a release is
      marked as broadcast before its link is attempted. */
  lemma ReleasesKeep(s: State, s': State)
    requires OrdersInv(s) && s' == s.(releases := s'.releases, heldLink := s'.heldLink)
    requires |s.releases| <= |s'.releases| && forall r :: 0 <= r < |s.releases| ==>
      ReleaseMoves(s.releases[r], s'.releases[r])
    requires forall r :: 0 <= r < |s'.releases| ==> ReleaseOk(s'.releases[r], s.txs)
    requires forall r, q :: 0 <= r < q < |s'.releases| ==> s'.releases[r].burnTx != s'.releases[q].burnTx
    requires s'.heldLink == s.heldLink || s'.heldLink.None? ||
      (s'.heldLink.value < |s.releases| && !s.releases[s'.heldLink.value].broadcast)
    requires s'.heldLink.Some? ==> s'.heldLink.value < |s'.releases| && s'.releases[s'.heldLink.value].broadcast
    ensures OrdersInv(s') && OrdersMove(s, s')
  {
    forall o | 0 <= o < |s.orders|
      ensures LinkOk(s.orders[o], s'.releases, s'.heldLink)
    {
      assert LinkOk(s.orders[o], s.releases, s.heldLink);
      if s.orders[o].release.Some? {
        var r :| 0 <= r < |s.releases| && Delivers(s.releases[r], s.orders[o]) && s.releases[r].broadcast
          && s.heldLink != Some(r);
        assert ReleaseMoves(s.releases[r], s'.releases[r]) && Delivers(s'.releases[r], s.orders[o]);
      }
    }
  }

  lemma RecordKeeps(s: State, tx: nat)
    requires OrdersInv(s)
    ensures OrdersInv(Step(s, RecordBurn(tx))) && OrdersMove(s, Step(s, RecordBurn(tx)))
  {
    var s' := Step(s, RecordBurn(tx));
    forall r | 0 <= r < |s'.releases|
      ensures ReleaseOk(s'.releases[r], s.txs)
    {
      if r < |s.releases| { assert ReleaseOk(s.releases[r], s.txs); }
    }
    ReleasesKeep(s, s');
  }

  /** A release keeps its burn. */
  lemma ReleaseEventMoves(s: State, s': State, e: Event)
    requires OrdersInv(s) && (e.FileRelease? || e.MarkBroadcast? || e.LoseLink?) && s' == Step(s, e)
    ensures |s'.releases| == |s.releases|
    ensures forall r :: 0 <= r < |s.releases| ==>
      ReleaseOk(s.releases[r], s.txs) && s'.releases[r].burnTx == s.releases[r].burnTx
  {
  }

  lemma ReleaseEventKeeps(s: State, s': State, e: Event)
    requires OrdersInv(s) && (e.FileRelease? || e.MarkBroadcast? || e.LoseLink?) && s' == Step(s, e)
    ensures OrdersInv(s') && OrdersMove(s, s')
  {
    if s' != s && !e.LoseLink? { assert ReleaseOk(s.releases[e.r], s.txs); }
    ReleaseEventMoves(s, s', e);
    ReleasesKeep(s, s');
  }

  lemma OrdersInvStep(s: State, e: Event)
    requires OrdersInv(s)
    ensures OrdersInv(Step(s, e)) && OrdersMove(s, Step(s, e))
  {
    match e
    case Expire(_) => RowEventKeeps(s, e);
    case Detect(_) => RowEventKeeps(s, e);
    case ClaimSwapping(_) => RowEventKeeps(s, e);
    case ClaimBurning(_) => RowEventKeeps(s, e);
    case MarkFailed(_, _) => RowEventKeeps(s, e);
    case MarkDelivering(_) => RowEventKeeps(s, e);
    case Link(o) => LinkKeeps(s, o);
    case Tick(_) => OutsideKeeps(s, Step(s, e), e);
    case Quote(_) => OutsideKeeps(s, Step(s, e), e);
    case Enqueue(_) => OutsideKeeps(s, Step(s, e), e);
    case Mine(_, _) => ChainKeeps(s, Step(s, e), e);
    case Broadcast(_, _) => ChainKeeps(s, Step(s, e), e);
    case LoseTx => ChainKeeps(s, Step(s, e), e);
    case FileTx => FilingKeeps(s);
    case RecordBurn(tx) => RecordKeeps(s, tx);
    case FileRelease(_, _) => ReleaseEventKeeps(s, Step(s, e), e);
    case MarkBroadcast(_) => ReleaseEventKeeps(s, Step(s, e), e);
    case LoseLink => ReleaseEventKeeps(s, Step(s, e), e);
  }

  predicate Initial(s: State) {
    s.orders == [] && s.txs == [] && s.releases == [] && s.buyJobs == {} && s.heldTx.None? && s.heldLink.None?
  }

  lemma RunExtends(s: State, events: seq<Event>, e: Event)
    ensures Run(s, events + [e]) == Step(Run(s, events), e)
  {
    assert (events + [e])[..|events|] == events;
  }

  lemma MoveOn(s: State, t: State, u: State)
    requires OrdersMove(s, t) && OrdersMove(t, u)
    ensures OrdersMove(s, u)
  {
    forall o | 0 <= o < |s.orders|
      ensures OrderMoves(s.orders[o], u.orders[o])
    {
      assert OrderMoves(s.orders[o], t.orders[o]) && OrderMoves(t.orders[o], u.orders[o]);
    }
  }
}
