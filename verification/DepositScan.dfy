/** A deposit row says what the chain says, one row to an outpoint and one open
    slot to an address, and the cache knows every row's address. */
module DepositScan {
  import opened Wrappers
  import opened Rows
  import opened Protocol
  import opened MintLedger

  /** A row that left its slot has an outpoint: a vout of the block at its
      height, paying its address that many sats, under enough confirmations. */
  predicate OnChain(cfg: Config, blocks: seq<FairBlock>, d: Deposit) {
    !d.Open() ==>
      && d.outpoint.Some?
      && d.height + cfg.fairConfirmations < |blocks|
      && exists t, v :: 0 <= t < |blocks[d.height]| && 0 <= v < |blocks[d.height][t].vouts|
           && IsVoutOf(blocks[d.height][t], blocks[d.height][t].vouts[v], d)
  }

  predicate IsVoutOf(tx: FairTx, vout: Vout, d: Deposit) {
    d.outpoint == Some(Outpoint(tx.txid, vout.n)) && vout.address == Some(d.fairAddress) && vout.sats == d.amountSats
  }

  predicate OutpointsDistinct(deposits: seq<Deposit>) {
    forall i, j :: 0 <= i < j < |deposits| && deposits[i].outpoint.Some? ==>
      deposits[i].outpoint != deposits[j].outpoint
  }

  /** Open slots sit at addresses that were allocated, one slot to an address. */
  predicate SlotsOk(deposits: seq<Deposit>, nextIndex: nat, pending: set<nat>) {
    && (forall k :: k in pending ==> k < nextIndex)
    && (forall i :: 0 <= i < |deposits| && deposits[i].Open() ==>
          && deposits[i].fairAddress.Derived?
          && deposits[i].fairAddress.index < nextIndex
          && deposits[i].fairAddress.index !in pending)
    && (forall i, j :: 0 <= i < j < |deposits| && deposits[i].Open() && deposits[j].Open()
          ==> deposits[i].fairAddress != deposits[j].fairAddress)
  }

  predicate CacheOk(deposits: seq<Deposit>, pending: set<nat>, cache: set<FairAddress>) {
    && (forall i :: 0 <= i < |deposits| ==> deposits[i].fairAddress in cache)
    && (forall k :: k in pending ==> Derived(k) in cache)
  }

  /** The rows, the slots and the cache of known addresses. */
  predicate DepositRowsInv(cfg: Config, s: State) {
    && (forall i :: 0 <= i < |s.deposits| ==> OnChain(cfg, s.fairBlocks, s.deposits[i]))
    && OutpointsDistinct(s.deposits)
    && SlotsOk(s.deposits, s.nextIndex, s.pendingIntents)
    && CacheOk(s.deposits, s.pendingIntents, s.addressCache)
  }

  /** A row written into an open slot or at the end of the table. */
  lemma WriteKeepsRowsInv(cfg: Config, s: State, s': State, at: nat, row: Deposit)
    requires DepositRowsInv(cfg, s) && Wrote(s, s', at, row)
    requires at < |s.deposits| ==> s.deposits[at].outpoint.None?
    requires s'.fairBlocks == s.fairBlocks && s'.nextIndex == s.nextIndex
    requires s'.pendingIntents == s.pendingIntents && s'.addressCache == s.addressCache
    requires row.outpoint.Some? && !DepositRecorded(s.deposits, row.outpoint.value)
    requires OnChain(cfg, s.fairBlocks, row) && row.fairAddress in s.addressCache
    ensures DepositRowsInv(cfg, s')
  {
    assert forall i :: 0 <= i < |s.deposits| ==> s.deposits[i].outpoint != row.outpoint;
    assert forall i :: 0 <= i < |s'.deposits| ==>
      s'.deposits[i] == row || (i < |s.deposits| && s'.deposits[i] == s.deposits[i]);
  }

  /** The row written is that of the vout the scanner stands at. */
  lemma RowIsOnChain(cfg: Config, s: State)
    requires CanRecord(cfg, s) && s.fairCursor + 1 + cfg.fairConfirmations < |s.fairBlocks|
    ensures OnChain(cfg, s.fairBlocks, DepositRow(cfg, s))
    ensures DepositRow(cfg, s).fairAddress in s.addressCache
    ensures DepositRow(cfg, s).outpoint == Some(TheKey(s)) && !DepositRecorded(s.deposits, TheKey(s))
  {
    var block := s.fairBlocks[s.fairCursor + 1];
    var scan := s.fair.scan.value;
    assert IsVoutOf(block[scan.t], block[scan.t].vouts[scan.v], DepositRow(cfg, s));
  }

  lemma RecordKeepsScan(cfg: Config, s: State, s': State)
    requires CanRecord(cfg, s) && s' == FairStep(cfg, s, RecordDeposit)
    ensures s'.fairBlocks == s.fairBlocks && s'.nextIndex == s.nextIndex && s'.fairCursor == s.fairCursor
    ensures s'.pendingIntents == s.pendingIntents && s'.addressCache == s.addressCache && s'.intents == s.intents
    ensures s'.fair == Standing(s.fair.scan) && s'.scanned == s.scanned
  {
  }

  lemma RecordKeepsRowsInv(cfg: Config, s: State, s': State)
    requires DepositRowsInv(cfg, s) && MintInv(s) && CanRecord(cfg, s) && s' == FairStep(cfg, s, RecordDeposit)
    requires s.fairCursor + 1 + cfg.fairConfirmations < |s.fairBlocks|
    ensures DepositRowsInv(cfg, s')
  {
    RowIsOnChain(cfg, s);
    RecordWrites(cfg, s, s');
    RecordKeepsScan(cfg, s, s');
    var at := RowAt(s);
    assert at < |s.deposits| ==> DepositOk(s.deposits[at], s.mints, at);
    WriteKeepsRowsInv(cfg, s, s', at, DepositRow(cfg, s));
  }

  lemma ReloadKeepsRowsInv(cfg: Config, s: State, s': State)
    requires DepositRowsInv(cfg, s) && s' == FairStep(cfg, s, Reload)
    ensures DepositRowsInv(cfg, s')
  {
  }

  lemma ScanningKeepsRowsInv(cfg: Config, s: State, s': State, e: FairEvent)
    requires DepositRowsInv(cfg, s) && s' == FairStep(cfg, s, e)
    requires !(e.RecordDeposit? && CanRecord(cfg, s)) && !e.Reload? && s'.deposits == s.deposits
    ensures DepositRowsInv(cfg, s')
  {
  }

  lemma LongerChainKeepsRows(cfg: Config, blocks: seq<FairBlock>, blocks': seq<FairBlock>, d: Deposit, d': Deposit)
    requires OnChain(cfg, blocks, d) && blocks <= blocks' && (d'.Open() <==> d.Open())
    requires d' == d.(status := d'.status, mintTx := d'.mintTx)
    ensures OnChain(cfg, blocks', d')
  {
    if !d.Open() {
      var block := blocks[d.height];
      assert blocks'[d.height] == block;
      var t, v :| 0 <= t < |block| && 0 <= v < |block[t].vouts| && IsVoutOf(block[t], block[t].vouts[v], d);
      assert IsVoutOf(block[t], block[t].vouts[v], d');
    }
  }

  /** Slots, cache and new rows after an event of the intent endpoint. */
  predicate SlotsAndCacheOk(s: State, s': State) {
    && SlotsOk(s'.deposits, s'.nextIndex, s'.pendingIntents)
    && CacheOk(s'.deposits, s'.pendingIntents, s'.addressCache)
    && forall i :: |s.deposits| <= i < |s'.deposits| ==> s'.deposits[i].outpoint.None? && s'.deposits[i].Open()
  }

  lemma AllocateKeepsSlots(cfg: Config, s: State, e: OutsideEvent, s': State)
    requires DepositRowsInv(cfg, s) && s' == OutsideStep(s, e) && (e.Allocate? || e.AbandonIntent?)
    ensures SlotsAndCacheOk(s, s')
  {
  }

  /** A row for an index taken out of the pending ones. */
  lemma NewIntentKeepsSlots(ds: seq<Deposit>, row: Deposit, nextIndex: nat, pending: set<nat>, cache: set<FairAddress>,
    index: nat)
    requires SlotsOk(ds, nextIndex, pending) && CacheOk(ds, pending, cache)
    requires index in pending && row.fairAddress == Derived(index)
    ensures SlotsOk(ds + [row], nextIndex, pending - {index}) && CacheOk(ds + [row], pending - {index}, cache)
  {
    var ds' := ds + [row];
    forall i, j | 0 <= i < j < |ds'| && ds'[i].Open() && ds'[j].Open()
      ensures ds'[i].fairAddress != ds'[j].fairAddress
    {
      if j == |ds| { assert ds[i].fairAddress.index !in pending; }
    }
  }

  lemma IntentKeepsSlots(cfg: Config, s: State, e: OutsideEvent, s': State)
    requires DepositRowsInv(cfg, s) && s' == OutsideStep(s, e) && e.CreateIntent?
    ensures SlotsAndCacheOk(s, s')
  {
    if e.index in s.pendingIntents {
      var row := IntentRow(e.index, e.baseAddress, s.now);
      NewIntentKeepsSlots(s.deposits, row, s.nextIndex, s.pendingIntents, s.addressCache, e.index);
    }
  }

  lemma ElsewhereKeepsSlots(s: State, e: OutsideEvent, s': State)
    requires s' == OutsideStep(s, e) && !e.Allocate? && !e.AbandonIntent? && !e.CreateIntent?
    ensures s'.deposits == s.deposits && s'.nextIndex == s.nextIndex
    ensures s'.pendingIntents == s.pendingIntents && s'.addressCache == s.addressCache
  {
  }

  /** What users, chains and the intent endpoint may change. */
  lemma OutsideKeepsSlots(cfg: Config, s: State, e: OutsideEvent, s': State)
    requires DepositRowsInv(cfg, s) && s' == OutsideStep(s, e)
    ensures SlotsAndCacheOk(s, s')
  {
    match e
    case Allocate => AllocateKeepsSlots(cfg, s, e, s');
    case AbandonIntent(_) => AllocateKeepsSlots(cfg, s, e, s');
    case CreateIntent(_, _) => IntentKeepsSlots(cfg, s, e, s');
    case _ => ElsewhereKeepsSlots(s, e, s');
  }

  lemma OutsideKeepsRowsInv(cfg: Config, s: State, s': State)
    requires DepositRowsInv(cfg, s) && SlotsAndCacheOk(s, s')
    requires s.fairBlocks <= s'.fairBlocks && s.deposits <= s'.deposits
    ensures DepositRowsInv(cfg, s')
  {
    forall i | 0 <= i < |s'.deposits|
      ensures OnChain(cfg, s'.fairBlocks, s'.deposits[i])
    {
      if i < |s.deposits| { LongerChainKeepsRows(cfg, s.fairBlocks, s'.fairBlocks, s.deposits[i], s'.deposits[i]); }
    }
  }

  lemma RelabellingKeepsRowsInv(cfg: Config, s: State, s': State)
    requires DepositRowsInv(cfg, s) && s'.fairBlocks == s.fairBlocks && s'.nextIndex == s.nextIndex
    requires s'.pendingIntents == s.pendingIntents && s'.addressCache == s.addressCache
    requires DepositsRelabelled(s.deposits, s'.deposits)
    ensures DepositRowsInv(cfg, s')
  {
    forall i | 0 <= i < |s'.deposits|
      ensures OnChain(cfg, s'.fairBlocks, s'.deposits[i])
    {
      LongerChainKeepsRows(cfg, s.fairBlocks, s'.fairBlocks, s.deposits[i], s'.deposits[i]);
    }
  }

  lemma FairKeepsRowsInv(cfg: Config, s: State, s': State, e: FairEvent)
    requires DepositRowsInv(cfg, s) && MintInv(s) && s' == FairStep(cfg, s, e)
    requires s.fair.scan.Some? ==> s.fairCursor + 1 + cfg.fairConfirmations < |s.fairBlocks|
    ensures DepositRowsInv(cfg, s')
  {
    if e.RecordDeposit? && CanRecord(cfg, s) { RecordKeepsRowsInv(cfg, s, s'); }
    else if e.Reload? { ReloadKeepsRowsInv(cfg, s, s'); }
    else { ScanningKeepsRowsInv(cfg, s, s', e); }
  }

  lemma RowsInvStep(cfg: Config, s: State, e: Event)
    requires DepositRowsInv(cfg, s) && MintInv(s)
    requires s.fair.scan.Some? ==> s.fairCursor + 1 + cfg.fairConfirmations < |s.fairBlocks|
    ensures DepositRowsInv(cfg, Step(cfg, s, e))
  {
    match e
    case Outside(o) =>
      OutsideKeepsSlots(cfg, s, o, OutsideStep(s, o));
      OutsideKeepsRowsInv(cfg, s, OutsideStep(s, o));
    case FairWatcher(f) => FairKeepsRowsInv(cfg, s, FairStep(cfg, s, f), f);
    case MintWorker(m) => RelabellingKeepsRowsInv(cfg, s, MintStep(s, m));
    case BaseWatcher(b) => RelabellingKeepsRowsInv(cfg, s, BaseStep(cfg, s, b));
    case ReleaseWorker(r) => RelabellingKeepsRowsInv(cfg, s, ReleaseStep(s, r));
  }

  // ---- what no event does to a row -----------------------------------------

  /** A row keeps its FairCoin address, its index and its recipient. */
  predicate OwnersStay(ds: seq<Deposit>, ds': seq<Deposit>) {
    |ds| <= |ds'| && forall i :: 0 <= i < |ds| ==> SameOwner(ds[i], ds'[i])
  }

  predicate SameOwner(d: Deposit, d': Deposit) {
    d'.fairAddress == d.fairAddress && d'.hdIndex == d.hdIndex && d'.baseAddress == d.baseAddress
  }

  lemma RecordKeepsOwners(cfg: Config, s: State, s': State)
    requires CanRecord(cfg, s) && s' == FairStep(cfg, s, RecordDeposit)
    ensures OwnersStay(s.deposits, s'.deposits)
  {
    RecordWrites(cfg, s, s');
    if RowAt(s) < |s.deposits| { assert SameOwner(s.deposits[RowAt(s)], DepositRow(cfg, s)); }
  }

  lemma OwnersStayStep(cfg: Config, s: State, s': State, e: Event)
    requires s' == Step(cfg, s, e)
    ensures OwnersStay(s.deposits, s'.deposits)
  {
    match e
    case Outside(o) => assert s.deposits <= s'.deposits;
    case FairWatcher(f) => if f.RecordDeposit? && CanRecord(cfg, s) { RecordKeepsOwners(cfg, s, s'); }
    case MintWorker(m) => assert DepositsRelabelled(s.deposits, s'.deposits);
    case BaseWatcher(b) => assert s'.deposits == s.deposits;
    case ReleaseWorker(r) => assert s'.deposits == s.deposits;
  }

  /** Outpoints, once on a row, stay there. */
  predicate OutpointsStay(ds: seq<Deposit>, ds': seq<Deposit>) {
    |ds| <= |ds'| && forall i :: 0 <= i < |ds| && ds[i].outpoint.Some? ==> ds'[i].outpoint == ds[i].outpoint
  }

  lemma OutpointsStayStep(cfg: Config, s: State, s': State, e: Event)
    requires MintInv(s) && s' == Step(cfg, s, e)
    ensures OutpointsStay(s.deposits, s'.deposits)
  {
    MintColumnsWriteOnce(cfg, s, e);
    forall i | 0 <= i < |s.deposits| && s.deposits[i].outpoint.Some?
      ensures s'.deposits[i].outpoint == s.deposits[i].outpoint
    {
      assert DepositOk(s.deposits[i], s.mints, i) && DepositKept(s.deposits[i], s'.deposits[i]);
    }
  }
}
