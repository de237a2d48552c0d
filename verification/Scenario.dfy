/** Runs put together event by event: from a bridge that has not started, any
    number of equal deposits minted one after the other, as long as the TVL cap
    lets them through. */
module Scenario {
  import opened Wrappers
  import opened Money
  import opened Rows
  import opened Sums
  import opened Protocol
  import opened TvlCap

  /** The run leads from one state to the other, loses nothing, and takes every
      in-flight reading after the supply reading. */
  predicate Path(cfg: Config, s: State, events: seq<Event>, t: State) {
    Run(cfg, s, events) == t && ReadsSupplyFirst(cfg, s, events) && DropsNothing(events)
  }

  predicate DropsNothing(events: seq<Event>) {
    forall k :: 0 <= k < |events| ==> events[k] != MintWorker(DropMint) && events[k] != ReleaseWorker(DropSend)
  }

  /** One event more. */
  lemma Go(cfg: Config, s: State, events: seq<Event>, t: State, e: Event, u: State)
    requires Path(cfg, s, events, t) && u == Step(cfg, t, e)
    requires e != MintWorker(DropMint) && e != ReleaseWorker(DropSend)
    requires e == FairWatcher(ReadInFlight) ==> t.fair.supply.Some?
    ensures Path(cfg, s, events + [e], u)
  {
    var all := events + [e];
    assert all[..|events|] == events;
    forall k | 0 <= k < |all| && all[k] == FairWatcher(ReadInFlight)
      ensures Run(cfg, s, all[..k]).fair.supply.Some?
    {
      assert k < |events| ==> all[..k] == events[..k];
    }
  }

  // ---- users and miners ------------------------------------------------------

  /** An intent is allocated and its row created. */
  lemma OpenIntent(cfg: Config, s: State, events: seq<Event>, t: State, baseAddress: string)
    returns (longer: seq<Event>, u: State)
    requires Path(cfg, s, events, t) && t.pendingIntents == {}
    ensures Path(cfg, s, longer, u)
    ensures u == t.(
      nextIndex := t.nextIndex + 1,
      addressCache := t.addressCache + {Derived(t.nextIndex)},
      intents := t.intents[t.nextIndex := Intent(baseAddress, |t.deposits|)],
      deposits := t.deposits + [IntentRow(t.nextIndex, baseAddress, t.now)])
  {
    var k := t.nextIndex;
    var v := OutsideStep(t, Allocate);
    u := OutsideStep(v, CreateIntent(k, baseAddress));
    Go(cfg, s, events, t, Outside(Allocate), v);
    Go(cfg, s, events + [Outside(Allocate)], v, Outside(CreateIntent(k, baseAddress)), u);
    longer := events + [Outside(Allocate)] + [Outside(CreateIntent(k, baseAddress))];
    assert v.pendingIntents - {k} == t.pendingIntents;
  }

  function PaymentBlock(txid: string, index: nat, sats: nat): FairBlock {
    [FairTx(txid, [Vout(0, Some(Derived(index)), sats)])]
  }

  function EmptyBlocks(n: nat): seq<FairBlock> {
    seq(n, i => [])
  }

  lemma Mine(cfg: Config, s: State, events: seq<Event>, t: State, block: FairBlock)
    returns (longer: seq<Event>, u: State)
    requires Path(cfg, s, events, t)
    ensures Path(cfg, s, longer, u) && u == t.(fairBlocks := t.fairBlocks + [block])
  {
    u := OutsideStep(t, MineFair(block));
    Go(cfg, s, events, t, Outside(MineFair(block)), u);
    longer := events + [Outside(MineFair(block))];
  }

  lemma MineEmpty(cfg: Config, s: State, events: seq<Event>, t: State, n: nat) returns (longer: seq<Event>, u: State)
    requires Path(cfg, s, events, t)
    ensures Path(cfg, s, longer, u) && u == t.(fairBlocks := t.fairBlocks + EmptyBlocks(n))
  {
    if n == 0 {
      longer, u := events, t;
      assert t.fairBlocks + EmptyBlocks(0) == t.fairBlocks;
    } else {
      longer, u := MineEmpty(cfg, s, events, t, n - 1);
      longer, u := Mine(cfg, s, longer, u, []);
      assert t.fairBlocks + EmptyBlocks(n - 1) + [[]] == t.fairBlocks + EmptyBlocks(n);
    }
  }

  lemma MineBaseBlocks(cfg: Config, s: State, events: seq<Event>, t: State, n: nat)
    returns (longer: seq<Event>, u: State)
    requires Path(cfg, s, events, t)
    ensures Path(cfg, s, longer, u) && u == t.(baseTip := t.baseTip + n)
  {
    if n == 0 {
      longer, u := events, t;
    } else {
      var v;
      longer, v := MineBaseBlocks(cfg, s, events, t, n - 1);
      u := OutsideStep(v, MineBase);
      Go(cfg, s, longer, v, Outside(MineBase), u);
      longer := longer + [Outside(MineBase)];
    }
  }

  // ---- the deposit scanner -----------------------------------------------------

  /** A payment of these sats into the open slot of a row waits under enough
      blocks right behind the cursor. */
  predicate Waits(cfg: Config, t: State, id: nat, txid: string, sats: nat) {
    && t.fair == NO_FAIR_MEMORY && !t.stale
    && id < |t.deposits| && t.deposits[id].Open() && t.deposits[id].fairAddress.Derived?
    && (forall j :: 0 <= j < |t.deposits| && j != id ==> t.deposits[j].fairAddress != t.deposits[id].fairAddress)
    && t.deposits[id].fairAddress in t.addressCache
    && t.fairCursor + 1 + cfg.fairConfirmations < |t.fairBlocks|
    && t.fairBlocks[t.fairCursor + 1] == PaymentBlock(txid, t.deposits[id].fairAddress.index, sats)
    && !DepositRecorded(t.deposits, Outpoint(txid, 0))
    && DepositDailySats(t.deposits, t.deposits[id].baseAddress, t.now) == 0
  }

  function HalfRead(t: State, id: nat): FairMemory {
    FairMemory(Some(FairScan(t.addressCache, 0, 0)), Row(id), Row(id), Some(0), Some(t.supply), None)
  }

  lemma SlotIsFound(cfg: Config, t: State, id: nat, txid: string, sats: nat)
    requires Waits(cfg, t, id, txid, sats)
    ensures FindSlot(t.deposits, t.deposits[id].fairAddress) == Row(id)
  {
    assert IsSlot(t.deposits, t.deposits[id].fairAddress, id);
  }

  /** The scanner takes the block up. */
  lemma TakeTheBlock(cfg: Config, s: State, events: seq<Event>, t: State, id: nat, txid: string, sats: nat)
    returns (longer: seq<Event>, u: State)
    requires Path(cfg, s, events, t) && Waits(cfg, t, id, txid, sats)
    ensures Path(cfg, s, longer, u) && u == t.(fair := Standing(Some(FairScan(t.addressCache, 0, 0))))
  {
    u := FairStep(cfg, t, BeginBlock);
    Go(cfg, s, events, t, FairWatcher(BeginBlock), u);
    longer := events + [FairWatcher(BeginBlock)];
  }

  lemma LookupSteps(cfg: Config, t: State, id: nat, txid: string, sats: nat, v: State)
    requires Waits(cfg, t, id, txid, sats) && v == t.(fair := Standing(Some(FairScan(t.addressCache, 0, 0))))
    ensures FairStep(cfg, v, ReadSlot) == v.(fair := v.fair.(slot := Row(id)))
    ensures FairStep(cfg, v.(fair := v.fair.(slot := Row(id))), ReadOrigin)
      == v.(fair := v.fair.(slot := Row(id), origin := Row(id)))
  {
    SlotIsFound(cfg, t, id, txid, sats);
  }

  /** And finds the slot. */
  lemma FindTheSlot(cfg: Config, s: State, events: seq<Event>, t: State, id: nat, txid: string, sats: nat)
    returns (longer: seq<Event>, u: State)
    requires Path(cfg, s, events, t) && Waits(cfg, t, id, txid, sats)
    ensures Path(cfg, s, longer, u)
    ensures u
      == t.(fair := NO_FAIR_MEMORY.(scan := Some(FairScan(t.addressCache, 0, 0)), slot := Row(id), origin := Row(id)))
  {
    var rs, ro := FairWatcher(ReadSlot), FairWatcher(ReadOrigin);
    var v;
    longer, v := TakeTheBlock(cfg, s, events, t, id, txid, sats);
    LookupSteps(cfg, t, id, txid, sats, v);
    var w := FairStep(cfg, v, ReadSlot);
    Go(cfg, s, longer, v, rs, w);
    u := FairStep(cfg, w, ReadOrigin);
    Go(cfg, s, longer + [rs], w, ro, u);
    longer := longer + [rs] + [ro];
  }

  /** Then it reads the daily total and the supply. */
  lemma ReadTheSupply(cfg: Config, s: State, events: seq<Event>, t: State, id: nat, txid: string, sats: nat)
    returns (longer: seq<Event>, u: State)
    requires Path(cfg, s, events, t) && Waits(cfg, t, id, txid, sats)
    ensures Path(cfg, s, longer, u) && u == t.(fair := HalfRead(t, id))
  {
    var v;
    longer, v := FindTheSlot(cfg, s, events, t, id, txid, sats);
    var w := v.(fair := v.fair.(daily := Some(0)));
    Go(cfg, s, longer, v, FairWatcher(ReadDepositDaily), w);
    longer := longer + [FairWatcher(ReadDepositDaily)];
    u := w.(fair := w.fair.(supply := Some(t.supply)));
    Go(cfg, s, longer, w, FairWatcher(ReadSupply), u);
    longer := longer + [FairWatcher(ReadSupply)];
  }

  /** A deposit of these sats passes every check of the scanner on its own. */
  predicate Fits(cfg: Config, sats: nat) {
    cfg.minDepositSats <= sats <= cfg.depositCapSats && NetWei(cfg, sats) <= cfg.maxTvlWei
  }

  /** Some deposit that is worth anything does. */
  ghost predicate TakesDeposits(cfg: Config) {
    exists sats: nat :: Fits(cfg, sats) && NetWei(cfg, sats) > 0
  }

  const FAIR: nat := 100_000_000

  /** The policy the service comes with. */
  function Defaults(): Config {
    Config(30, 10 * FAIR, 100 * FAIR, 100 * FAIR, 1000 * FAIR * SATS_TO_WEI, 6, 20)
  }

  /** It takes deposits of 12 FAIR, say. */
  lemma DefaultsTakeDeposits()
    ensures TakesDeposits(Defaults())
  {
    assert Fits(Defaults(), 12 * FAIR) && NetWei(Defaults(), 12 * FAIR) > 0;
  }

  function NetWei(cfg: Config, sats: nat): nat {
    ApplyFee(sats * SATS_TO_WEI, cfg.feeBps)
  }

  function AcceptedRow(cfg: Config, d: Deposit, height: nat, txid: string, sats: nat): Deposit {
    d.(status := DepositStatus.Confirmed, outpoint := Some(Outpoint(txid, 0)), height := height,
       amountSats := sats, amountWei := NetWei(cfg, sats), mintTx := None)
  }

  /** The supply was read, and the in-flight total is about to be. */
  predicate AboutToConfirm(cfg: Config, t: State, id: nat, txid: string, sats: nat, supply: nat) {
    && t.fair.scan.Some? && t.fair.scan.value.t == 0 && t.fair.scan.value.v == 0
    && t.fair == FairMemory(t.fair.scan, Row(id), Row(id), Some(0), Some(supply), None)
    && id < |t.deposits| && t.deposits[id].Open() && t.deposits[id].fairAddress.Derived?
    && t.deposits[id].fairAddress in t.addressCache
    && t.fairCursor + 1 < |t.fairBlocks|
    && t.fairBlocks[t.fairCursor + 1] == PaymentBlock(txid, t.deposits[id].fairAddress.index, sats)
    && !DepositRecorded(t.deposits, Outpoint(txid, 0))
    && InFlightWei(t.deposits) == 0 && Fits(cfg, sats) && supply + NetWei(cfg, sats) <= cfg.maxTvlWei
  }

  function AfterConfirming(cfg: Config, t: State, id: nat, txid: string, sats: nat): State
    requires id < |t.deposits|
  {
    t.(deposits := t.deposits[id := AcceptedRow(cfg, t.deposits[id], t.fairCursor + 1, txid, sats)],
       received := t.received + sats, hazard := t.hazard || t.stale, stale := false, fair := Standing(t.fair.scan))
  }

  lemma RowIsAccepted(cfg: Config, u: State, id: nat, txid: string, sats: nat, supply: nat)
    requires AboutToConfirm(cfg, u.(fair := u.fair.(inFlight := None)), id, txid, sats, supply)
      && u.fair.inFlight == Some(0)
    ensures CanRecord(cfg, u)
    ensures DepositRow(cfg, u) == AcceptedRow(cfg, u.deposits[id], u.fairCursor + 1, txid, sats)
  {
  }

  lemma RecordsIt(cfg: Config, v: State, t: State, id: nat, txid: string, sats: nat, supply: nat)
    requires AboutToConfirm(cfg, t, id, txid, sats, supply) && v == t.(fair := t.fair.(inFlight := Some(0)))
    ensures FairStep(cfg, v, RecordDeposit) == AfterConfirming(cfg, t, id, txid, sats)
  {
    assert v.(fair := v.fair.(inFlight := None)) == t;
    RowIsAccepted(cfg, v, id, txid, sats, supply);
  }

  lemma ConfirmIt(cfg: Config, s: State, events: seq<Event>, t: State, id: nat, txid: string, sats: nat, supply: nat)
    returns (longer: seq<Event>, u: State)
    requires Path(cfg, s, events, t) && AboutToConfirm(cfg, t, id, txid, sats, supply)
    ensures Path(cfg, s, longer, u) && u == AfterConfirming(cfg, t, id, txid, sats)
  {
    var v := t.(fair := t.fair.(inFlight := Some(0)));
    Go(cfg, s, events, t, FairWatcher(ReadInFlight), v);
    longer := events + [FairWatcher(ReadInFlight)];
    u := FairStep(cfg, v, RecordDeposit);
    RecordsIt(cfg, v, t, id, txid, sats, supply);
    Go(cfg, s, longer, v, FairWatcher(RecordDeposit), u);
    longer := longer + [FairWatcher(RecordDeposit)];
  }

  lemma QueueIt(cfg: Config, s: State, events: seq<Event>, t: State, id: nat) returns (longer: seq<Event>, u: State)
    requires Path(cfg, s, events, t) && id < |t.deposits| && !t.deposits[id].Open()
    ensures Path(cfg, s, longer, u) && u == t.(mintJobs := t.mintJobs + {MintJobOf(t.deposits, id)})
  {
    u := FairStep(cfg, t, EnqueueMint(id));
    Go(cfg, s, events, t, FairWatcher(EnqueueMint(id)), u);
    longer := events + [FairWatcher(EnqueueMint(id))];
  }

  /** The scan of a block with one recorded payment comes to its end. */
  lemma WalkOff(cfg: Config, t: State, txid: string, index: nat, sats: nat)
    requires t.fair == Standing(Some(FairScan(t.addressCache, 0, 0))) && t.fairCursor + 1 < |t.fairBlocks| && !t.stale
    requires t.fairBlocks[t.fairCursor + 1] == PaymentBlock(txid, index, sats)
      && DepositRecorded(t.deposits, Outpoint(txid, 0))
    ensures FairStep(cfg, t, NextVout) == t.(fair := Standing(Some(FairScan(t.addressCache, 0, 1))))
    ensures FairStep(cfg, t.(fair := Standing(Some(FairScan(t.addressCache, 0, 1)))), NextTx)
      == t.(fair := Standing(Some(FairScan(t.addressCache, 1, 0))))
  {
  }

  lemma LeaveTheBlock(cfg: Config, s: State, events: seq<Event>, t: State, txid: string, index: nat, sats: nat)
    returns (longer: seq<Event>, u: State)
    requires Path(cfg, s, events, t) && !t.stale
    requires t.fair == Standing(Some(FairScan(t.addressCache, 0, 0))) && t.fairCursor + 1 < |t.fairBlocks|
    requires t.fairBlocks[t.fairCursor + 1] == PaymentBlock(txid, index, sats)
      && DepositRecorded(t.deposits, Outpoint(txid, 0))
    ensures Path(cfg, s, longer, u)
    ensures u
      == t.(fairCursor := t.fairCursor + 1, scanned := t.scanned[t.fairCursor + 1 := t.addressCache],
        fair := NO_FAIR_MEMORY)
  {
    var nv, nt, a := FairWatcher(NextVout), FairWatcher(NextTx), FairWatcher(AdvanceFairCursor);
    WalkOff(cfg, t, txid, index, sats);
    var w := t.(fair := Standing(Some(FairScan(t.addressCache, 0, 1))));
    Go(cfg, s, events, t, nv, w);
    var x := t.(fair := Standing(Some(FairScan(t.addressCache, 1, 0))));
    Go(cfg, s, events + [nv], w, nt, x);
    u := t.(fairCursor := t.fairCursor + 1, scanned := t.scanned[t.fairCursor + 1 := t.addressCache],
      fair := NO_FAIR_MEMORY);
    CursorIsWritten(cfg, t, x, u);
    Go(cfg, s, events + [nv] + [nt], x, a, u);
    longer := events + [nv] + [nt] + [a];
  }

  lemma CursorIsWritten(cfg: Config, t: State, x: State, u: State)
    requires !t.stale && t.fairCursor + 1 < |t.fairBlocks| && |t.fairBlocks[t.fairCursor + 1]| == 1
    requires x == t.(fair := Standing(Some(FairScan(t.addressCache, 1, 0))))
    requires u == t.(fairCursor := t.fairCursor + 1, scanned := t.scanned[t.fairCursor + 1 := t.addressCache],
      fair := NO_FAIR_MEMORY)
    ensures FairStep(cfg, x, AdvanceFairCursor) == u
  {
  }

  // ---- the mint worker -----------------------------------------------------------

  lemma BroadcastIt(cfg: Config, s: State, events: seq<Event>, t: State, id: nat) returns (longer: seq<Event>, u: State)
    requires Path(cfg, s, events, t) && id < |t.deposits| && t.deposits[id].status.Confirmed?
      && t.deposits[id].mintTx.None?
    requires MintJobOf(t.deposits, id) in t.mintJobs && t.heldMint.None?
    ensures Path(cfg, s, longer, u)
    ensures u == t.(
      deposits := t.deposits[id := t.deposits[id].(status := DepositStatus.Minting, mintTx := Some(|t.mints|))],
      mints := t.mints + [MintTx(id, t.deposits[id].baseAddress, t.deposits[id].amountWei, Pending, false)])
  {
    var job := MintJobOf(t.deposits, id);
    var c, b, f := MintWorker(MintEvent.ClaimMint(id)), MintWorker(BroadcastMint(job)), MintWorker(FileMint);
    var v := MintStep(t, c.mint);
    Go(cfg, s, events, t, c, v);
    var w := MintStep(v, b.mint);
    Go(cfg, s, events + [c], v, b, w);
    u := MintStep(w, f.mint);
    Go(cfg, s, events + [c] + [b], w, f, u);
    longer := events + [c] + [b] + [f];
  }

  /** `mintForDeposit` executes. */
  lemma ExecuteIt(cfg: Config, s: State, events: seq<Event>, t: State, x: nat) returns (longer: seq<Event>, u: State)
    requires Path(cfg, s, events, t) && x < |t.mints| && t.mints[x].outcome.Pending? && Takes(t.mints[x].to)
    ensures Path(cfg, s, longer, u)
    ensures u == t.(mints := t.mints[x := t.mints[x].(outcome := Success)], supply := t.supply + t.mints[x].wei)
  {
    u := OutsideStep(t, ExecuteMint(x, true));
    Go(cfg, s, events, t, Outside(ExecuteMint(x, true)), u);
    longer := events + [Outside(ExecuteMint(x, true))];
  }

  lemma SettleIt(cfg: Config, s: State, events: seq<Event>, t: State, id: nat) returns (longer: seq<Event>, u: State)
    requires Path(cfg, s, events, t) && id < |t.deposits| && t.deposits[id].status.Minting?
      && t.deposits[id].mintTx.Some?
    requires t.deposits[id].mintTx.value < |t.mints| && t.mints[t.deposits[id].mintTx.value].outcome.Success?
    ensures Path(cfg, s, longer, u)
    ensures u == t.(deposits := t.deposits[id := t.deposits[id].(status := DepositStatus.Minted)],
      stale := t.stale || (t.fair.supply.Some? && t.fair.inFlight.None?))
  {
    u := MintStep(t, MintEvent.SettleMint(id));
    Go(cfg, s, events, t, MintWorker(MintEvent.SettleMint(id)), u);
    longer := events + [MintWorker(MintEvent.SettleMint(id))];
  }

  // ---- many intents, each paid once ----------------------------------------------

  function Genesis(): State {
    State(0, [], [], 0, [], [], 0, [], 0, 0, {}, [], 0, {}, {}, {}, NO_FAIR_MEMORY, None, NO_BASE_MEMORY, None, false,
      0, map[], map[], {}, false, false)
  }

  /** A string of its own for every number. */
  function Name(i: nat): string {
    seq(i, _ => 'x')
  }

  lemma NamesAreTaken(i: nat)
    ensures Takes(Name(i))
  {
    if i > 0 { assert Name(i)[0] == 'x' && ZERO_ADDRESS[0] == '0'; }
  }

  /** Nothing is in anyone's hands, nothing was lost, and no burn was made. */
  predicate Calm(t: State) {
    && t.heldMint.None? && t.pendingIntents == {} && t.now == 0
    && (forall x :: 0 <= x < |t.mints| ==> !t.mints[x].lost)
    && t.sends == [] && t.withdrawals == [] && t.logs == [] && t.baseTip == 0 && t.baseCursor == 0
    && t.base == NO_BASE_MEMORY && t.missed == {}
  }

  /** The first `j` of `n` deposits have been minted; the others wait on chain. */
  predicate Level(cfg: Config, sats: nat, n: nat, j: nat, t: State) {
    && Calm(t) && t.fair == NO_FAIR_MEMORY && !t.stale
    && j <= n == |t.deposits|
    && (forall i :: 0 <= i < n ==> RowAtLevel(t.deposits[i], i, j) && t.deposits[i].fairAddress in t.addressCache)
    && t.fairCursor == j && BlocksAtLevel(cfg, sats, n, t.fairBlocks)
    && t.supply == j * NetWei(cfg, sats)
  }

  predicate RowAtLevel(d: Deposit, i: nat, j: nat) {
    && d.fairAddress == Derived(i) && d.baseAddress == Name(i)
    && (if i < j then d.status.Minted? && d.outpoint == Some(Outpoint(Name(i), 0)) else d == IntentRow(i, Name(i), 0))
  }

  predicate BlocksAtLevel(cfg: Config, sats: nat, n: nat, blocks: seq<FairBlock>) {
    && n + cfg.fairConfirmations < |blocks|
    && forall i :: 0 <= i < n ==> blocks[i + 1] == PaymentBlock(Name(i), i, sats)
  }

  /** The intents are registered. */
  lemma OpenIntents(cfg: Config, n: nat) returns (events: seq<Event>, t: State)
    ensures Path(cfg, Genesis(), events, t)
    ensures t
      == Genesis().(deposits := t.deposits, nextIndex := n, addressCache := t.addressCache, intents := t.intents)
    ensures |t.deposits| == n
    ensures forall i :: 0 <= i < n ==> t.deposits[i] == IntentRow(i, Name(i), 0) && Derived(i) in t.addressCache
  {
    if n == 0 {
      events, t := [], Genesis();
    } else {
      var u;
      events, u := OpenIntents(cfg, n - 1);
      events, t := OpenIntent(cfg, Genesis(), events, u, Name(n - 1));
    }
  }

  /** And paid, one block a payment. */
  lemma PayAll(cfg: Config, sats: nat, before: seq<Event>, t: State, n: nat) returns (events: seq<Event>, u: State)
    requires Path(cfg, Genesis(), before, t) && t.fairBlocks == []
    ensures Path(cfg, Genesis(), events, u) && u == t.(fairBlocks := u.fairBlocks)
    ensures |u.fairBlocks| == n + 1 && forall i :: 0 <= i < n ==> u.fairBlocks[i + 1] == PaymentBlock(Name(i), i, sats)
  {
    if n == 0 {
      events, u := Mine(cfg, Genesis(), before, t, []);
    } else {
      events, u := PayAll(cfg, sats, before, t, n - 1);
      events, u := Mine(cfg, Genesis(), events, u, PaymentBlock(Name(n - 1), n - 1, sats));
    }
  }

  lemma StartLevel(cfg: Config, sats: nat, n: nat) returns (events: seq<Event>, t: State)
    ensures Path(cfg, Genesis(), events, t) && Level(cfg, sats, n, 0, t)
  {
    events, t := OpenIntents(cfg, n);
    events, t := PayAll(cfg, sats, events, t, n);
    events, t := MineEmpty(cfg, Genesis(), events, t, cfg.fairConfirmations);
  }

  lemma OthersWeighNothing(cfg: Config, sats: nat, n: nat, j: nat, t: State)
    requires Level(cfg, sats, n, j, t)
    ensures InFlightWei(t.deposits) == 0
    ensures j < n ==> DepositDailySats(t.deposits, Name(j), 0) == 0
  {
    forall i | 0 <= i < n
      ensures InFlightWeights(t.deposits)[i] == 0
      ensures j < n ==> DepositDailyWeights(t.deposits, Name(j), 0 - DAY_MS)[i] == 0
    {
      assert RowAtLevel(t.deposits[i], i, j);
      assert |Name(i)| == i && |Name(j)| == j;
    }
    SumZero(InFlightWeights(t.deposits));
    if j < n { SumZero(DepositDailyWeights(t.deposits, Name(j), 0 - DAY_MS)); }
  }

  lemma NextWaits(cfg: Config, sats: nat, n: nat, j: nat, t: State)
    requires Level(cfg, sats, n, j, t) && j < n
    ensures Waits(cfg, t, j, Name(j), sats)
  {
    OthersWeighNothing(cfg, sats, n, j, t);
    assert RowAtLevel(t.deposits[j], j, j);
    forall i | 0 <= i < n && i != j
      ensures t.deposits[i].fairAddress != t.deposits[j].fairAddress
      ensures t.deposits[i].outpoint != Some(Outpoint(Name(j), 0))
    {
      assert RowAtLevel(t.deposits[i], i, j);
      assert |Name(i)| == i && |Name(j)| == j;
    }
  }

  /** The next deposit is accepted and its mint is on the wire. */
  predicate OnTheWire(cfg: Config, sats: nat, n: nat, j: nat, t: State) {
    && Calm(t) && t.fair == NO_FAIR_MEMORY && !t.stale
    && j < n == |t.deposits|
    && (forall i :: 0 <= i < n && i != j ==> RowAtLevel(t.deposits[i], i, j))
    && (forall i :: 0 <= i < n ==> t.deposits[i].fairAddress in t.addressCache)
    && MintingRow(t, j, NetWei(cfg, sats))
    && t.fairCursor == j + 1 && BlocksAtLevel(cfg, sats, n, t.fairBlocks)
    && t.supply == j * NetWei(cfg, sats)
  }

  predicate MintingRow(t: State, j: nat, wei: nat)
    requires j < |t.deposits|
  {
    var d := t.deposits[j];
    && d.fairAddress == Derived(j) && d.baseAddress == Name(j) && d.outpoint == Some(Outpoint(Name(j), 0))
    && d.status.Minting? && d.mintTx.Some? && d.mintTx.value < |t.mints|
    && t.mints[d.mintTx.value].outcome.Pending? && t.mints[d.mintTx.value].wei == wei
    && t.mints[d.mintTx.value].to == Name(j)
  }

  /** The deposit accepted, the next moment of the run: its job is queued. */
  function Confirmed(cfg: Config, sats: nat, j: nat, t: State): State
    requires j < |t.deposits|
  {
    t.(deposits := t.deposits[j := AcceptedRow(cfg, t.deposits[j], j + 1, Name(j), sats)],
       received := t.received + sats, hazard := t.hazard, fair := Standing(Some(FairScan(t.addressCache, 0, 0))))
  }

  /** The readings are taken and the row is written. */
  lemma AcceptIt(cfg: Config, sats: nat, n: nat, j: nat, before: seq<Event>, t: State)
    returns (events: seq<Event>, u: State)
    requires Path(cfg, Genesis(), before, t) && Level(cfg, sats, n, j, t) && j < n
    requires Fits(cfg, sats) && t.supply + NetWei(cfg, sats) <= cfg.maxTvlWei
    ensures Path(cfg, Genesis(), events, u) && u == Confirmed(cfg, sats, j, t)
  {
    var v;
    NextWaits(cfg, sats, n, j, t);
    events, v := ReadTheSupply(cfg, Genesis(), before, t, j, Name(j), sats);
    NextIsAboutToConfirm(cfg, sats, n, j, t, v);
    events, u := ConfirmIt(cfg, Genesis(), events, v, j, Name(j), sats, t.supply);
  }

  lemma NextIsAboutToConfirm(cfg: Config, sats: nat, n: nat, j: nat, t: State, v: State)
    requires Level(cfg, sats, n, j, t) && j < n && v == t.(fair := HalfRead(t, j))
    requires Fits(cfg, sats) && t.supply + NetWei(cfg, sats) <= cfg.maxTvlWei
    ensures AboutToConfirm(cfg, v, j, Name(j), sats, t.supply)
    ensures AfterConfirming(cfg, v, j, Name(j), sats) == Confirmed(cfg, sats, j, t)
  {
    NextWaits(cfg, sats, n, j, t);
    OthersWeighNothing(cfg, sats, n, j, t);
    assert RowAtLevel(t.deposits[j], j, j);
  }

  /** The scan stands at the start of a block with one payment, which has its row. */
  predicate PaymentIsRecorded(w: State, j: nat, txid: string, sats: nat) {
    && !w.stale && w.fair == Standing(Some(FairScan(w.addressCache, 0, 0)))
    && w.fairCursor + 1 < |w.fairBlocks| && w.fairBlocks[w.fairCursor + 1] == PaymentBlock(txid, j, sats)
    && j < |w.deposits| && !w.deposits[j].Open() && w.deposits[j].outpoint == Some(Outpoint(txid, 0))
  }

  lemma ConfirmedIsRecorded(cfg: Config, sats: nat, n: nat, j: nat, t: State)
    requires Level(cfg, sats, n, j, t) && j < n
    ensures PaymentIsRecorded(Confirmed(cfg, sats, j, t), j, Name(j), sats)
  {
    assert RowAtLevel(t.deposits[j], j, j);
  }

  /** The mint of the payment is queued, and the scan leaves the block. */
  lemma LeaveQueued(cfg: Config, before: seq<Event>, w: State, j: nat, txid: string, sats: nat)
    returns (events: seq<Event>, u: State)
    requires Path(cfg, Genesis(), before, w) && PaymentIsRecorded(w, j, txid, sats)
    ensures Path(cfg, Genesis(), events, u)
    ensures u == w.(
      mintJobs := w.mintJobs + {MintJobOf(w.deposits, j)}, fairCursor := w.fairCursor + 1,
      scanned := w.scanned[w.fairCursor + 1 := w.addressCache], fair := NO_FAIR_MEMORY)
  {
    var v;
    events, v := QueueIt(cfg, Genesis(), before, w, j);
    assert v.deposits[j].outpoint == Some(Outpoint(txid, 0));
    events, u := LeaveTheBlock(cfg, Genesis(), events, v, txid, j, sats);
  }

  lemma SendTheMint(cfg: Config, sats: nat, n: nat, j: nat, before: seq<Event>, t: State, w: State)
    returns (events: seq<Event>, u: State)
    requires Path(cfg, Genesis(), before, w) && Level(cfg, sats, n, j, t) && j < n && w == Confirmed(cfg, sats, j, t)
    ensures Path(cfg, Genesis(), events, u) && OnTheWire(cfg, sats, n, j, u)
  {
    var v;
    assert RowAtLevel(t.deposits[j], j, j);
    ConfirmedIsRecorded(cfg, sats, n, j, t);
    events, v := LeaveQueued(cfg, before, w, j, Name(j), sats);
    events, u := BroadcastIt(cfg, Genesis(), events, v, j);
    SentIsOnTheWire(cfg, sats, n, j, t, v, u);
  }

  lemma SentIsOnTheWire(cfg: Config, sats: nat, n: nat, j: nat, t: State, v: State, u: State)
    requires Level(cfg, sats, n, j, t) && j < n
    requires v == Confirmed(cfg, sats, j, t).(
      mintJobs := v.mintJobs, fairCursor := j + 1, scanned := v.scanned, fair := NO_FAIR_MEMORY)
    requires u == v.(
      deposits := v.deposits[j := v.deposits[j].(status := DepositStatus.Minting, mintTx := Some(|v.mints|))],
      mints := v.mints + [MintTx(j, v.deposits[j].baseAddress, v.deposits[j].amountWei, Pending, false)])
    ensures OnTheWire(cfg, sats, n, j, u)
  {
    assert RowAtLevel(t.deposits[j], j, j);
    forall i | 0 <= i < n && i != j
      ensures RowAtLevel(u.deposits[i], i, j)
    {
      assert RowAtLevel(t.deposits[i], i, j) && u.deposits[i] == t.deposits[i];
    }
    forall i | 0 <= i < n
      ensures u.deposits[i].fairAddress in u.addressCache
    {
      assert t.deposits[i].fairAddress in t.addressCache;
    }
  }

  lemma PutOnTheWire(cfg: Config, sats: nat, n: nat, j: nat, before: seq<Event>, t: State)
    returns (events: seq<Event>, u: State)
    requires Path(cfg, Genesis(), before, t) && Level(cfg, sats, n, j, t) && j < n
    requires Fits(cfg, sats) && t.supply + NetWei(cfg, sats) <= cfg.maxTvlWei
    ensures Path(cfg, Genesis(), events, u) && OnTheWire(cfg, sats, n, j, u)
  {
    var w;
    events, w := AcceptIt(cfg, sats, n, j, before, t);
    events, u := SendTheMint(cfg, sats, n, j, events, t, w);
  }

  lemma Landed(cfg: Config, sats: nat, n: nat, j: nat, t: State, x: nat, u: State)
    requires OnTheWire(cfg, sats, n, j, t) && t.deposits[j].mintTx == Some(x)
    requires u == t.(mints := t.mints[x := t.mints[x].(outcome := Success)], supply := t.supply + NetWei(cfg, sats),
      deposits := t.deposits[j := t.deposits[j].(status := DepositStatus.Minted)])
    ensures Level(cfg, sats, n, j + 1, u)
  {
    assert (j + 1) * NetWei(cfg, sats) == j * NetWei(cfg, sats) + NetWei(cfg, sats);
    forall i | 0 <= i < n
      ensures RowAtLevel(u.deposits[i], i, j + 1) && u.deposits[i].fairAddress in u.addressCache
    {
      assert i != j ==> RowAtLevel(t.deposits[i], i, j) && u.deposits[i] == t.deposits[i];
      assert t.deposits[i].fairAddress in t.addressCache;
    }
  }

  /** The mint executes and the row is settled. */
  lemma LandIt(cfg: Config, sats: nat, n: nat, j: nat, before: seq<Event>, t: State)
    returns (events: seq<Event>, u: State)
    requires Path(cfg, Genesis(), before, t) && OnTheWire(cfg, sats, n, j, t)
    ensures Path(cfg, Genesis(), events, u) && Level(cfg, sats, n, j + 1, u)
  {
    var x := t.deposits[j].mintTx.value;
    var v;
    NamesAreTaken(j);
    events, v := ExecuteIt(cfg, Genesis(), before, t, x);
    events, u := SettleIt(cfg, Genesis(), events, v, j);
    Landed(cfg, sats, n, j, t, x, u);
  }

  /** As many deposits as the cap has room for can be minted one by one. */
  lemma {:induction false} ReachLevel(cfg: Config, sats: nat, n: nat, j: nat) returns (events: seq<Event>, t: State)
    requires Fits(cfg, sats) && j <= n && j * NetWei(cfg, sats) <= cfg.maxTvlWei
    ensures Path(cfg, Genesis(), events, t) && Level(cfg, sats, n, j, t)
  {
    if j == 0 {
      events, t := StartLevel(cfg, sats, n);
    } else {
      assert j * NetWei(cfg, sats) == (j - 1) * NetWei(cfg, sats) + NetWei(cfg, sats);
      events, t := ReachLevel(cfg, sats, n, j - 1);
      events, t := PutOnTheWire(cfg, sats, n, j - 1, events, t);
      events, t := LandIt(cfg, sats, n, j - 1, events, t);
    }
  }
}
