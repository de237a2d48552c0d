/** The deposit scanner's cursor: it passes a block only when every payment in it
    to an address known as its scan began has a row. */
module DepositCursor {
  import opened Wrappers
  import opened Rows
  import opened Protocol
  import opened MintLedger
  import opened DepositScan

  /** The payments before a position of the block to these addresses have rows. */
  predicate RecordedUpTo(block: FairBlock, t: nat, v: nat, known: set<FairAddress>, deposits: seq<Deposit>) {
    forall i, j ::
      0 <= i < |block| && 0 <= j < |block[i].vouts| && (i < t || (i == t && j < v)) && Pays(block[i].vouts[j], known)
      ==> DepositRecorded(deposits, Outpoint(block[i].txid, block[i].vouts[j].n))
  }

  predicate ScanOk(cfg: Config, s: State) {
    s.fair.scan.Some? ==>
      && s.fairCursor + 1 + cfg.fairConfirmations < |s.fairBlocks|
      && s.fair.scan.value.known <= s.addressCache
      && RecordedUpTo(s.fairBlocks[s.fairCursor + 1], s.fair.scan.value.t, s.fair.scan.value.v,
           s.fair.scan.value.known, s.deposits)
  }

  predicate ScannedBlock(cfg: Config, s: State, h: nat) {
    && h + cfg.fairConfirmations < |s.fairBlocks|
    && h in s.scanned && BlockRecorded(s.fairBlocks[h], s.scanned[h], s.deposits)
  }

  predicate CursorInv(cfg: Config, s: State, start: nat) {
    && start <= s.fairCursor
    && ScanOk(cfg, s)
    && forall h :: start < h <= s.fairCursor ==> ScannedBlock(cfg, s, h)
  }

  lemma RecordStays(ds: seq<Deposit>, ds': seq<Deposit>, key: Outpoint)
    requires DepositRecorded(ds, key) && OutpointsStay(ds, ds')
    ensures DepositRecorded(ds', key)
  {
    var i :| 0 <= i < |ds| && ds[i].outpoint == Some(key);
    assert ds'[i].outpoint == ds[i].outpoint;
  }

  lemma RecordedUpToStays(block: FairBlock, t: nat, v: nat, known: set<FairAddress>, ds: seq<Deposit>,
    ds': seq<Deposit>)
    requires RecordedUpTo(block, t, v, known, ds) && OutpointsStay(ds, ds')
    ensures RecordedUpTo(block, t, v, known, ds')
  {
    forall i, j | 0 <= i < |block| && 0 <= j < |block[i].vouts| && (i < t || (i == t && j < v))
      && Pays(block[i].vouts[j], known)
      ensures DepositRecorded(ds', Outpoint(block[i].txid, block[i].vouts[j].n))
    {
      RecordStays(ds, ds', Outpoint(block[i].txid, block[i].vouts[j].n));
    }
  }

  lemma BlockStays(block: FairBlock, known: set<FairAddress>, ds: seq<Deposit>, ds': seq<Deposit>)
    requires BlockRecorded(block, known, ds) && OutpointsStay(ds, ds')
    ensures BlockRecorded(block, known, ds')
  {
    forall i, j | 0 <= i < |block| && 0 <= j < |block[i].vouts| && Pays(block[i].vouts[j], known)
      ensures DepositRecorded(ds', Outpoint(block[i].txid, block[i].vouts[j].n))
    {
      RecordStays(ds, ds', Outpoint(block[i].txid, block[i].vouts[j].n));
    }
  }

  lemma ScannedStays(cfg: Config, s: State, s': State, start: nat)
    requires forall h :: start < h <= s.fairCursor ==> ScannedBlock(cfg, s, h)
    requires OutpointsStay(s.deposits, s'.deposits) && s.fairBlocks <= s'.fairBlocks
    requires forall h :: start < h <= s.fairCursor && h in s.scanned ==>
      h in s'.scanned && s'.scanned[h] == s.scanned[h]
    ensures forall h :: start < h <= s.fairCursor ==> ScannedBlock(cfg, s', h)
  {
    forall h | start < h <= s.fairCursor
      ensures ScannedBlock(cfg, s', h)
    {
      assert ScannedBlock(cfg, s, h);
      BlockStays(s.fairBlocks[h], s.scanned[h], s.deposits, s'.deposits);
    }
  }

  /** The scan stands where it stood; rows, chain and cache may have grown. */
  lemma GrowthKeepsCursorInv(cfg: Config, s: State, s': State, start: nat)
    requires CursorInv(cfg, s, start)
    requires OutpointsStay(s.deposits, s'.deposits) && s.fairBlocks <= s'.fairBlocks
    requires s'.fairCursor == s.fairCursor && s'.scanned == s.scanned
    requires s'.fair.scan.None? || (s'.fair.scan == s.fair.scan && s.addressCache <= s'.addressCache)
    ensures CursorInv(cfg, s', start)
  {
    ScannedStays(cfg, s, s', start);
    if s'.fair.scan.Some? {
      var scan := s.fair.scan.value;
      RecordedUpToStays(s.fairBlocks[s.fairCursor + 1], scan.t, scan.v, scan.known, s.deposits, s'.deposits);
    }
  }

  /** The loops over the block's transactions and their vouts. */
  lemma MoveKeepsScanOk(cfg: Config, s: State, s': State, e: FairEvent)
    requires ScanOk(cfg, s) && s' == FairStep(cfg, s, e)
    requires (e.BeginBlock? || e.NextVout? || e.NextTx?) && ScanMoves(cfg, s, e)
    ensures ScanOk(cfg, s') && s'.fairCursor == s.fairCursor && s'.scanned == s.scanned
  {
    assert s'.fair.scan == ScanAfter(s, e);
  }

  lemma AdvanceKeepsCursorInv(cfg: Config, s: State, s': State, start: nat)
    requires CursorInv(cfg, s, start) && BlockDone(s) && s' == FairStep(cfg, s, AdvanceFairCursor)
    ensures CursorInv(cfg, s', start)
  {
    ScannedStays(cfg, s, s', start);
    assert ScannedBlock(cfg, s', s.fairCursor + 1);
  }

  lemma FairKeepsCursorInv(cfg: Config, s: State, s': State, e: FairEvent, start: nat)
    requires CursorInv(cfg, s, start) && s' == FairStep(cfg, s, e)
    requires OutpointsStay(s.deposits, s'.deposits)
    ensures CursorInv(cfg, s', start)
  {
    if (e.BeginBlock? || e.NextVout? || e.NextTx?) && ScanMoves(cfg, s, e) {
      MoveKeepsScanOk(cfg, s, s', e);
      ScannedStays(cfg, s, s', start);
    } else if e.AdvanceFairCursor? && BlockDone(s) {
      AdvanceKeepsCursorInv(cfg, s, s', start);
    } else {
      GrowthKeepsCursorInv(cfg, s, s', start);
    }
  }

  lemma CursorInvStep(cfg: Config, s: State, e: Event, start: nat)
    requires CursorInv(cfg, s, start) && MintInv(s)
    ensures CursorInv(cfg, Step(cfg, s, e), start)
  {
    var s' := Step(cfg, s, e);
    OutpointsStayStep(cfg, s, s', e);
    match e
    case Outside(o) => GrowthKeepsCursorInv(cfg, s, s', start);
    case FairWatcher(f) => FairKeepsCursorInv(cfg, s, s', f, start);
    case MintWorker(m) => GrowthKeepsCursorInv(cfg, s, s', start);
    case BaseWatcher(b) => GrowthKeepsCursorInv(cfg, s, s', start);
    case ReleaseWorker(r) => GrowthKeepsCursorInv(cfg, s, s', start);
  }

  // ---- an address that had its row in time -----------------------------------

  /** A row stands at the address, and the scan of that height does or did know
      the address if it has begun. */
  predicate KnownInTime(s: State, a: FairAddress, h: nat) {
    && RowStands(s.deposits, a)
    && (s.fair.scan.Some? && s.fairCursor + 1 == h ==> a in s.fair.scan.value.known)
    && (h <= s.fairCursor ==> h in s.scanned && a in s.scanned[h])
  }

  lemma RowStandsOn(ds: seq<Deposit>, ds': seq<Deposit>, a: FairAddress)
    requires RowStands(ds, a) && OwnersStay(ds, ds')
    ensures RowStands(ds', a)
  {
    var i :| 0 <= i < |ds| && ds[i].fairAddress == a;
    assert SameOwner(ds[i], ds'[i]);
  }

  lemma FairKeepsKnown(cfg: Config, s: State, s': State, e: FairEvent, a: FairAddress, h: nat)
    requires KnownInTime(s, a, h) && a in s.addressCache && s' == FairStep(cfg, s, e)
    requires RowStands(s'.deposits, a)
    ensures KnownInTime(s', a, h)
  {
    if e.AdvanceFairCursor? {
      CursorKeepsKnown(cfg, s, s', a, h);
    } else if Moving(e) {
      MovingKeepsKnown(cfg, s, s', e);
    } else {
      RestKeepsScan(cfg, s, s', e);
    }
  }

  predicate Moving(e: FairEvent) {
    e.BeginBlock? || e.NextVout? || e.NextTx? || e.DropFairScan?
  }

  lemma CursorKeepsKnown(cfg: Config, s: State, s': State, a: FairAddress, h: nat)
    requires KnownInTime(s, a, h) && s' == FairStep(cfg, s, AdvanceFairCursor) && RowStands(s'.deposits, a)
    ensures KnownInTime(s', a, h)
  {
  }

  /** A scan that moves knows what it knew, or what was cached as it began. */
  lemma MovingKeepsKnown(cfg: Config, s: State, s': State, e: FairEvent)
    requires s' == FairStep(cfg, s, e) && Moving(e)
    ensures s'.scanned == s.scanned && s'.fairCursor == s.fairCursor
    ensures s'.fair.scan.Some? ==>
      || s'.fair.scan.value.known == s.addressCache
      || (s.fair.scan.Some? && s'.fair.scan.value.known == s.fair.scan.value.known)
  {
  }

  lemma RestKeepsScan(cfg: Config, s: State, s': State, e: FairEvent)
    requires s' == FairStep(cfg, s, e) && !Moving(e) && !e.AdvanceFairCursor?
    ensures s'.scanned == s.scanned && s'.fairCursor == s.fairCursor
    ensures s'.fair.scan == s.fair.scan || s'.fair.scan.None?
  {
  }

  lemma KnownInTimeStep(cfg: Config, s: State, e: Event, a: FairAddress, h: nat)
    requires KnownInTime(s, a, h) && DepositRowsInv(cfg, s)
    ensures KnownInTime(Step(cfg, s, e), a, h)
  {
    var s' := Step(cfg, s, e);
    OwnersStayStep(cfg, s, s', e);
    RowStandsOn(s.deposits, s'.deposits, a);
    match e
    case Outside(o) => assert s'.fair == s.fair && s'.scanned == s.scanned;
    case FairWatcher(f) => FairKeepsKnown(cfg, s, s', f, a, h);
    case MintWorker(m) => assert SameScan(s, s');
    case BaseWatcher(b) => assert SameDepositSide(s, s');
    case ReleaseWorker(r) => assert SameDepositSide(s, s');
  }

  predicate RecordedExactlyOnce(deposits: seq<Deposit>, key: Outpoint) {
    exists i :: 0 <= i < |deposits| && deposits[i].outpoint == Some(key)
      && forall j :: 0 <= j < |deposits| && deposits[j].outpoint == Some(key) ==> j == i
  }

  /** A vout behind the cursor that pays such an address has one row and no more. */
  lemma KnownInTimeIsRecorded(cfg: Config, s: State, start: nat, a: FairAddress, h: nat, t: nat, v: nat)
    requires CursorInv(cfg, s, start) && DepositRowsInv(cfg, s) && KnownInTime(s, a, h) && start < h <= s.fairCursor
    requires h < |s.fairBlocks| && t < |s.fairBlocks[h]| && v < |s.fairBlocks[h][t].vouts|
    requires s.fairBlocks[h][t].vouts[v].address == Some(a)
    ensures RecordedExactlyOnce(s.deposits, Outpoint(s.fairBlocks[h][t].txid, s.fairBlocks[h][t].vouts[v].n))
  {
    assert ScannedBlock(cfg, s, h);
    var key := Outpoint(s.fairBlocks[h][t].txid, s.fairBlocks[h][t].vouts[v].n);
    assert DepositRecorded(s.deposits, key);
    var i :| 0 <= i < |s.deposits| && s.deposits[i].outpoint == Some(key);
    assert forall j :: 0 <= j < |s.deposits| && s.deposits[j].outpoint == Some(key) ==> j == i;
  }
}
