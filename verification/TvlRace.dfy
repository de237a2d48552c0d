/** The TVL cap and the order of the scanner's two readings: the cap holds in
    every run exactly when the in-flight total is read first. */
module TvlRace {
  import opened Wrappers
  import opened Money
  import opened Rows
  import opened Sums
  import opened Protocol
  import opened Exposure
  import opened TvlCap
  import opened Runs
  import opened Scenario

  // ---- a run past the cap ------------------------------------------------------

  lemma PayerWaits(cfg: Config, sats: nat, n: nat, j: nat, t: State)
    requires OnTheWire(cfg, sats, n, j, t) && j + 1 < n
    ensures Waits(cfg, t, j + 1, Name(j + 1), sats)
  {
    assert RowAtLevel(t.deposits[j + 1], j + 1, j);
    forall i | 0 <= i < n && i != j + 1
      ensures t.deposits[i].fairAddress != t.deposits[j + 1].fairAddress
      ensures t.deposits[i].outpoint != Some(Outpoint(Name(j + 1), 0))
      ensures DepositDailyWeights(t.deposits, Name(j + 1), 0 - DAY_MS)[i] == 0
    {
      assert i != j ==> RowAtLevel(t.deposits[i], i, j);
      assert |Name(i)| == i && |Name(j + 1)| == j + 1;
    }
    SumZero(DepositDailyWeights(t.deposits, Name(j + 1), 0 - DAY_MS));
  }

  /** The supply was read without the mint on the wire; then the mint executed
      and was settled. */
  function Stale(t: State, j: nat, x: nat, wei: nat): State
    requires j + 1 < |t.deposits| && x < |t.mints|
  {
    t.(fair := HalfRead(t, j + 1), mints := t.mints[x := t.mints[x].(outcome := Success)], supply := t.supply + wei,
       deposits := t.deposits[j := t.deposits[j].(status := DepositStatus.Minted)], stale := true)
  }

  lemma ReadTooEarly(cfg: Config, sats: nat, n: nat, j: nat, before: seq<Event>, t: State)
    returns (events: seq<Event>, u: State)
    requires Path(cfg, Genesis(), before, t) && OnTheWire(cfg, sats, n, j, t) && j + 1 < n
    ensures Path(cfg, Genesis(), events, u) && u == Stale(t, j, t.deposits[j].mintTx.value, NetWei(cfg, sats))
  {
    var g, x := Genesis(), t.deposits[j].mintTx.value;
    PayerWaits(cfg, sats, n, j, t);
    NamesAreTaken(j);
    events, u := ReadTheSupply(cfg, g, before, t, j + 1, Name(j + 1), sats);
    events, u := ExecuteIt(cfg, g, events, u, x);
    events, u := SettleIt(cfg, g, events, u, j);
  }

  /** Neither reading counts that mint. */
  lemma MintIsCountedNowhere(cfg: Config, sats: nat, n: nat, j: nat, t: State, u: State)
    requires OnTheWire(cfg, sats, n, j, t) && j + 1 < n && Fits(cfg, sats)
      && t.supply + NetWei(cfg, sats) <= cfg.maxTvlWei
    requires u == Stale(t, j, t.deposits[j].mintTx.value, NetWei(cfg, sats))
    ensures AboutToConfirm(cfg, u, j + 1, Name(j + 1), sats, t.supply)
    ensures Level(cfg, sats, n, j + 1, u.(fair := NO_FAIR_MEMORY, stale := false))
  {
    var v := u.(fair := NO_FAIR_MEMORY, stale := false);
    Landed(cfg, sats, n, j, t, t.deposits[j].mintTx.value, v);
    NextWaits(cfg, sats, n, j + 1, v);
    OthersWeighNothing(cfg, sats, n, j + 1, v);
    assert t.deposits[j + 1].fairAddress in t.addressCache;
  }

  lemma SumAtLeast(ws: seq<nat>, i: nat)
    requires i < |ws|
    ensures Sum(ws) >= ws[i]
  {
    SumDrop(ws, ws[i := 0], i);
  }

  lemma TwiceMinted(cfg: Config, sats: nat, n: nat, j: nat, t: State, u: State)
    requires Level(cfg, sats, n, j + 1, t.(fair := NO_FAIR_MEMORY, stale := false)) && j + 1 < n
    requires u == AfterConfirming(cfg, t, j + 1, Name(j + 1), sats)
    ensures NothingLost(u) && u.supply + UnexecutedWei(u) >= (j + 1) * NetWei(cfg, sats) + NetWei(cfg, sats)
  {
    assert UnexecutedWeights(u)[j + 1] == NetWei(cfg, sats) by { assert RowAtLevel(t.deposits[j + 1], j + 1, j + 1); }
    SumAtLeast(UnexecutedWeights(u), j + 1);
  }

  /** As many deposits as the cap has room for, and one more. */
  lemma PassTheCap(cfg: Config, sats: nat, j: nat) returns (events: seq<Event>)
    requires Fits(cfg, sats) && (j + 1) * NetWei(cfg, sats) <= cfg.maxTvlWei
    ensures var t := Run(cfg, Genesis(), events);
      && ReadsSupplyFirst(cfg, Genesis(), events) && DropsNothing(events) && NothingLost(t)
      && t.supply + UnexecutedWei(t) >= (j + 1) * NetWei(cfg, sats) + NetWei(cfg, sats)
  {
    var n := j + 2;
    var t;
    assert (j + 1) * NetWei(cfg, sats) == j * NetWei(cfg, sats) + NetWei(cfg, sats);
    events, t := ReachLevel(cfg, sats, n, j);
    events, t := PutOnTheWire(cfg, sats, n, j, events, t);
    events := LetItSlip(cfg, sats, n, j, events, t);
  }

  lemma LetItSlip(cfg: Config, sats: nat, n: nat, j: nat, before: seq<Event>, t: State) returns (events: seq<Event>)
    requires Path(cfg, Genesis(), before, t) && OnTheWire(cfg, sats, n, j, t) && j + 1 < n
    requires Fits(cfg, sats) && t.supply + NetWei(cfg, sats) <= cfg.maxTvlWei
    ensures var u := Run(cfg, Genesis(), events);
      && ReadsSupplyFirst(cfg, Genesis(), events) && DropsNothing(events) && NothingLost(u)
      && u.supply + UnexecutedWei(u) >= (j + 1) * NetWei(cfg, sats) + NetWei(cfg, sats)
  {
    var v, u;
    events, v := ReadTooEarly(cfg, sats, n, j, before, t);
    MintIsCountedNowhere(cfg, sats, n, j, t, v);
    events, u := ConfirmIt(cfg, Genesis(), events, v, j + 1, Name(j + 1), sats, t.supply);
    TwiceMinted(cfg, sats, n, j, v, u);
  }

  // ---- the exact condition -------------------------------------------------------

  /** `Promise.all` leaves the order of the two readings open. */
  datatype ReadOrder = FlightFirst | SupplyFirst | AnyOrder

  predicate Follows(order: ReadOrder, cfg: Config, s: State, events: seq<Event>) {
    match order
    case FlightFirst => ReadsInFlightFirst(cfg, s, events)
    case SupplyFirst => ReadsSupplyFirst(cfg, s, events)
    case AnyOrder => true
  }

  /** In every run of the bridge that takes the readings in this order and loses
      no broadcast, the supply and the accepted mints stay under the cap. */
  ghost predicate CapHolds(cfg: Config, order: ReadOrder) {
    forall s: State, events: seq<Event>, fairStart: nat, baseStart: nat ::
      NotStarted(s, fairStart, baseStart) && Follows(order, cfg, s, events) && NothingLost(Run(cfg, s, events))
      ==> UnderCap(cfg, Run(cfg, s, events))
  }

  predicate UnderCap(cfg: Config, t: State) {
    t.supply + UnexecutedWei(t) <= cfg.maxTvlWei
  }

  lemma FlightFirstHolds(cfg: Config)
    ensures CapHolds(cfg, FlightFirst)
  {
    forall s: State, events: seq<Event>, fairStart: nat, baseStart: nat
      | NotStarted(s, fairStart, baseStart) && ReadsInFlightFirst(cfg, s, events) && NothingLost(Run(cfg, s, events))
      ensures UnderCap(cfg, Run(cfg, s, events))
    {
      NotStartedIsConsistent(cfg, s, fairStart, baseStart);
      TvlCapHoldsFlightFirst(cfg, s, events, fairStart, baseStart);
      NoLossNoCorrection(s, fairStart, baseStart, Run(cfg, s, events));
    }
  }

  lemma NoLossNoCorrection(s: State, fairStart: nat, baseStart: nat, t: State)
    requires NotStarted(s, fairStart, baseStart) && NothingLost(t)
    ensures MintSide(s) == 0 && LostMintWei(t) == 0 && LostPendingWei(t) == 0
  {
    SumZero(UnexecutedWeights(s));
    SumZero(LostWeights(s.mints));
    SumZero(LostPendingWeights(s.mints));
    SumZero(LostWeights(t.mints));
    SumZero(LostPendingWeights(t.mints));
  }

  /** A bridge that takes no deposit mints nothing. */
  lemma NoDepositNothingOwed(cfg: Config, s: State, e: Event)
    requires !TakesDeposits(cfg)
    ensures NewlyOwed(cfg, s, e) == 0
  {
    if e.FairWatcher? && e.fair.RecordDeposit? && CanRecord(cfg, s) && DepositRow(cfg, s).status.Confirmed? {
      assert Fits(cfg, TheVout(s).sats);
    }
  }

  lemma {:induction false} NoDepositNothingMinted(cfg: Config, s: State, events: seq<Event>, fairStart: nat,
    baseStart: nat)
    requires Inv(cfg, s, fairStart, baseStart) && !TakesDeposits(cfg)
    ensures MintSide(Run(cfg, s, events)) <= MintSide(s)
  {
    if events != [] {
      var before := events[..|events| - 1];
      NoDepositNothingMinted(cfg, s, before, fairStart, baseStart);
      InvRun(cfg, s, before, fairStart, baseStart);
      EventMoves(cfg, Run(cfg, s, before), events[|events| - 1]);
      NoDepositNothingOwed(cfg, Run(cfg, s, before), events[|events| - 1]);
    }
  }

  lemma NoDepositHolds(cfg: Config, order: ReadOrder)
    requires !TakesDeposits(cfg)
    ensures CapHolds(cfg, order)
  {
    forall s: State, events: seq<Event>, fairStart: nat, baseStart: nat
      | NotStarted(s, fairStart, baseStart) && Follows(order, cfg, s, events) && NothingLost(Run(cfg, s, events))
      ensures UnderCap(cfg, Run(cfg, s, events))
    {
      NotStartedIsConsistent(cfg, s, fairStart, baseStart);
      NoDepositNothingMinted(cfg, s, events, fairStart, baseStart);
      NoLossNoCorrection(s, fairStart, baseStart, Run(cfg, s, events));
    }
  }

  /** How many equal amounts fit under a cap. */
  lemma HowManyFit(cap: nat, net: nat) returns (m: nat)
    requires 0 < net <= cap
    ensures 0 < m && m * net <= cap < m * net + net
  {
    m := cap / net;
  }

  lemma OneRunIsEnough(cfg: Config, order: ReadOrder, events: seq<Event>)
    requires !order.FlightFirst? && ReadsSupplyFirst(cfg, Genesis(), events)
    requires NothingLost(Run(cfg, Genesis(), events)) && !UnderCap(cfg, Run(cfg, Genesis(), events))
    ensures !CapHolds(cfg, order)
  {
    assert NotStarted(Genesis(), 0, 0);
    assert Follows(order, cfg, Genesis(), events);
  }

  lemma AnyOtherOrderPasses(cfg: Config, order: ReadOrder)
    requires TakesDeposits(cfg) && !order.FlightFirst?
    ensures !CapHolds(cfg, order)
  {
    var sats: nat :| Fits(cfg, sats) && NetWei(cfg, sats) > 0;
    var m := HowManyFit(cfg.maxTvlWei, NetWei(cfg, sats));
    var events := PassTheCap(cfg, sats, m - 1);
    OneRunIsEnough(cfg, order, events);
  }

  /** The TVL cap holds in every run that takes the readings in a given order
      exactly when the in-flight total comes first, or nothing can be deposited
      in the first place. */
  lemma CapHoldsIff(cfg: Config, order: ReadOrder)
    ensures CapHolds(cfg, order) <==> order.FlightFirst? || !TakesDeposits(cfg)
  {
    if order.FlightFirst? {
      FlightFirstHolds(cfg);
    } else if !TakesDeposits(cfg) {
      NoDepositHolds(cfg, order);
    } else {
      AnyOtherOrderPasses(cfg, order);
    }
  }

  /** So the cap of 1000 FAIR that the service comes with can be passed. */
  lemma DefaultsCanPass(order: ReadOrder)
    requires !order.FlightFirst?
    ensures !CapHolds(Defaults(), order)
  {
    DefaultsTakeDeposits();
    AnyOtherOrderPasses(Defaults(), order);
  }
}
