/** The bridge as a state machine: every atomic database operation and every
    atomic chain call is one event. Between any two events of one worker the
    events of the others may come; a crash or a thrown error is an event too
    (`DropMint`, `DropSend`, `DropFairScan`, `DropBaseScan`, `Reload`,
    `RestartBase`). An event whose guard does not hold leaves the state as it is. */
module Protocol {
  import opened Wrappers
  import opened Money
  import opened Rows
  import opened Sums

  datatype State = State(
    // clock and FairCoin chain
    now: nat,
    fairBlocks: seq<FairBlock>,
    sends: seq<Send>,
    // Base chain
    supply: nat,
    mints: seq<MintTx>,
    logs: seq<BurnLog>,
    baseTip: nat,
    // deposit side of the database
    deposits: seq<Deposit>,
    fairCursor: nat,
    nextIndex: nat,
    mintJobs: set<MintJob>,
    // withdrawal side of the database
    withdrawals: seq<Withdrawal>,
    baseCursor: nat,
    releaseJobs: set<ReleaseJob>,
    // memory of the processes: gone after a crash
    addressCache: set<FairAddress>,
    pendingIntents: set<nat>,
    fair: FairMemory,
    heldMint: Option<nat>,
    base: BaseMemory,
    heldSend: Option<nat>,
    aborted: bool,
    // history, read by no worker
    received: nat,
    scanned: map<nat, set<FairAddress>>,
    intents: map<nat, Intent>,
    missed: set<nat>,
    stale: bool,
    hazard: bool)

  /** Where the deposit scanner stands in the block after its cursor. `known` is
      the address cache as the scan of the block began, kept for the history. */
  datatype FairScan = FairScan(known: set<FairAddress>, t: nat, v: nat)

  /** The result of a `findOne`. */
  datatype Lookup = Unread | Nobody | Row(id: nat)

  /** The deposit scanner's position, and what it has read for the vout there. */
  datatype FairMemory = FairMemory(
    scan: Option<FairScan>,
    slot: Lookup,
    origin: Lookup,
    daily: Option<nat>,
    supply: Option<nat>,
    inFlight: Option<nat>)

  /** The window the burn scanner is in: its last block, the logs fetched, how many
      of them are done, and whether the abort flag ended the loop over them. */
  datatype BaseScan = BaseScan(to: nat, found: seq<nat>, next: nat, cut: bool)

  datatype BaseMemory = BaseMemory(scan: Option<BaseScan>, daily: Option<DailyRead>)

  /** The Base address an intent was registered for, and the row it was given. */
  datatype Intent = Intent(baseAddress: string, row: nat)

  const NO_FAIR_MEMORY := FairMemory(None, Unread, Unread, None, None, None)
  const NO_BASE_MEMORY := BaseMemory(None, None)

  /** A worker's reading of an address's daily total, and when it was taken. */
  datatype DailyRead = DailyRead(from: string, at: nat, sats: nat)

  // ---- readings ------------------------------------------------------------

  function InFlightWeights(deposits: seq<Deposit>): seq<nat> {
    seq(|deposits|, i requires 0 <= i < |deposits| =>
      if deposits[i].InFlight() then deposits[i].amountWei else 0)
  }

  /** `sumInFlightWei`. */
  function InFlightWei(deposits: seq<Deposit>): nat {
    Sum(InFlightWeights(deposits))
  }

  function DepositDailyWeights(deposits: seq<Deposit>, baseAddress: string, since: int): seq<nat> {
    seq(|deposits|, i requires 0 <= i < |deposits| =>
      var d := deposits[i];
      if d.baseAddress == baseAddress && d.createdAt >= since && d.CountsToday() then d.amountSats else 0)
  }

  /** `sumDailyDepositSatsForAddress`. */
  function DepositDailySats(deposits: seq<Deposit>, baseAddress: string, now: nat): nat {
    Sum(DepositDailyWeights(deposits, baseAddress, now - DAY_MS))
  }

  function WithdrawalDailyWeights(withdrawals: seq<Withdrawal>, from: string, since: int): seq<nat> {
    seq(|withdrawals|, i requires 0 <= i < |withdrawals| =>
      var w := withdrawals[i];
      if w.from == from && w.createdAt >= since && w.CountsToday() then w.amountSats else 0)
  }

  /** `sumDailyWithdrawalSatsForAddress`, as read at time `now`. */
  function WithdrawalDailySats(withdrawals: seq<Withdrawal>, from: string, now: nat): nat {
    Sum(WithdrawalDailyWeights(withdrawals, from, now - DAY_MS))
  }

  predicate DepositRecorded(deposits: seq<Deposit>, key: Outpoint) {
    exists i :: 0 <= i < |deposits| && deposits[i].outpoint == Some(key)
  }

  predicate BurnRecorded(withdrawals: seq<Withdrawal>, key: BurnKey) {
    exists i :: 0 <= i < |withdrawals| && withdrawals[i].key == key
  }

  /** Every vout of the block that pays one of these addresses has a row. */
  predicate BlockRecorded(block: FairBlock, known: set<FairAddress>, deposits: seq<Deposit>) {
    forall t, v :: 0 <= t < |block| && 0 <= v < |block[t].vouts| && Pays(block[t].vouts[v], known)
      ==> DepositRecorded(deposits, Outpoint(block[t].txid, block[t].vouts[v].n))
  }

  predicate Pays(vout: Vout, known: set<FairAddress>) {
    vout.address.Some? && vout.address.value in known
  }

  function RowAddresses(deposits: seq<Deposit>): set<FairAddress> {
    set i | 0 <= i < |deposits| :: deposits[i].fairAddress
  }

  /** Nothing the deposit side reads or writes has changed. */
  predicate SameDepositSide(s: State, s': State) {
    && s'.deposits == s.deposits && s'.mints == s.mints && s'.heldMint == s.heldMint && s'.mintJobs == s.mintJobs
    && s'.supply == s.supply && s'.received == s.received && s'.fairCursor == s.fairCursor
    && s'.fairBlocks == s.fairBlocks && s'.scanned == s.scanned && s'.nextIndex == s.nextIndex
    && s'.addressCache == s.addressCache && s'.pendingIntents == s.pendingIntents
    && s'.fair == s.fair && s'.intents == s.intents
    && s'.stale == s.stale && s'.hazard == s.hazard && s'.now == s.now
  }

  /** Nothing the withdrawal side reads or writes has changed. */
  predicate SameWithdrawalSide(s: State, s': State) {
    && s'.withdrawals == s.withdrawals && s'.sends == s.sends && s'.heldSend == s.heldSend
    && s'.releaseJobs == s.releaseJobs && s'.base == s.base && s'.missed == s.missed && s'.aborted == s.aborted
    && s'.logs == s.logs && s'.baseTip == s.baseTip && s'.baseCursor == s.baseCursor && s'.now == s.now
  }

  /** The same deposit rows with other statuses and mint hashes; open slots stay
      open and no slot is reopened. */
  predicate DepositsRelabelled(ds: seq<Deposit>, ds': seq<Deposit>) {
    |ds'| == |ds| && forall i :: 0 <= i < |ds| ==>
      && ds'[i] == ds[i].(status := ds'[i].status, mintTx := ds'[i].mintTx)
      && (ds'[i].Open() <==> ds[i].Open())
  }

  /** The same withdrawal rows with other statuses and txids; none counts that
      did not count before. */
  predicate WithdrawalsRelabelled(ws: seq<Withdrawal>, ws': seq<Withdrawal>) {
    |ws'| == |ws| && forall i :: 0 <= i < |ws| ==>
      && ws'[i] == ws[i].(status := ws'[i].status, fairTx := ws'[i].fairTx)
      && (ws'[i].CountsToday() ==> ws[i].CountsToday())
  }

  /** What the deposit scanner owns has not changed. */
  predicate SameScan(s: State, s': State) {
    && s'.fairCursor == s.fairCursor && s'.scanned == s.scanned
    && s'.nextIndex == s.nextIndex && s'.addressCache == s.addressCache && s'.pendingIntents == s.pendingIntents
    && s'.fair == s.fair && s'.intents == s.intents
  }

  // ---- lookups -------------------------------------------------------------

  /** The open intent slot at an address, if any. */
  predicate IsSlot(deposits: seq<Deposit>, address: FairAddress, i: nat) {
    && i < |deposits| && deposits[i].fairAddress == address
    && (deposits[i].status.Awaiting? || deposits[i].status.Detected?)
  }

  /** The earliest row at an address. */
  predicate IsEarliest(deposits: seq<Deposit>, address: FairAddress, i: nat) {
    i < |deposits| && deposits[i].fairAddress == address
    && forall k :: 0 <= k < i ==> deposits[k].fairAddress != address
  }

  /** Some row stands at an address. */
  predicate RowStands(deposits: seq<Deposit>, address: FairAddress) {
    exists i :: 0 <= i < |deposits| && deposits[i].fairAddress == address
  }

  /** `findOne({ fairAddress, status: AWAITING | DETECTED })`. */
  function FindSlot(deposits: seq<Deposit>, address: FairAddress): (slot: Lookup)
    ensures !slot.Unread?
    ensures slot.Row? ==> IsSlot(deposits, address, slot.id)
    ensures slot.Nobody? ==> forall i: nat :: !IsSlot(deposits, address, i)
  {
    if deposits == [] then Nobody
    else
      var n := |deposits| - 1;
      var front := FindSlot(deposits[..n], address);
      if front.Row? then front
      else if deposits[n].fairAddress == address && deposits[n].Open() then Row(n)
      else
        assert forall i: nat :: IsSlot(deposits, address, i) && i < n ==> IsSlot(deposits[..n], address, i);
        Nobody
  }

  /** `findOne({ fairAddress }).sort({ createdAt: 1 })`. */
  function FindEarliest(deposits: seq<Deposit>, address: FairAddress): (origin: Lookup)
    ensures !origin.Unread?
    ensures origin.Row? ==> IsEarliest(deposits, address, origin.id)
    ensures origin.Nobody? ==> forall i :: 0 <= i < |deposits| ==> deposits[i].fairAddress != address
  {
    if deposits == [] then Nobody
    else
      var n := |deposits| - 1;
      var front := FindEarliest(deposits[..n], address);
      if front.Row? then front
      else if deposits[n].fairAddress == address then Row(n) else Nobody
  }

  const MAX_LOG_RANGE: nat := 10

  /** `getLogs`: positions of the logs in blocks from..to, in order. */
  function LogsIn(logs: seq<BurnLog>, from: nat, to: nat): (r: seq<nat>)
    ensures forall i: nat :: i in r <==> i < |logs| && from <= logs[i].block <= to
    ensures forall i, j :: 0 <= i < j < |r| ==> r[i] < r[j]
  {
    if logs == [] then []
    else
      var n := |logs| - 1;
      var front := LogsIn(logs[..n], from, to);
      assert forall i :: 0 <= i < |front| ==> front[i] in front;
      if from <= logs[n].block <= to then front + [n] else front
  }

  // ---- events --------------------------------------------------------------

  datatype Event =
    | Outside(outside: OutsideEvent)
    | FairWatcher(fair: FairEvent)
    | MintWorker(mint: MintEvent)
    | BaseWatcher(base: BaseEvent)
    | ReleaseWorker(release: ReleaseEvent)

  datatype OutsideEvent =
    | Tick(ms: nat)
    | MineFair(block: FairBlock)
    | Allocate
    | CreateIntent(index: nat, baseAddress: string)
    | AbandonIntent(index: nat)
    | ExecuteMint(tx: nat, success: bool)
    | BridgeBurn(key: BurnKey, from: string, wei: nat, destination: string, decodable: bool)
    | Burn(wei: nat)
    | MineBase
    | Abort

  datatype FairEvent =
    | BeginBlock
    | ReadSlot
    | ReadOrigin
    | ReadDepositDaily
    | ReadSupply
    | ReadInFlight
    | RecordDeposit
    | NextVout
    | NextTx
    | AdvanceFairCursor
    | DropFairScan
    | EnqueueMint(id: nat)
    | Reload

  datatype MintEvent =
    | ClaimMint(id: nat)
    | BroadcastMint(job: MintJob)
    | FileMint
    | SettleMint(id: nat)
    | DropMint

  datatype BaseEvent =
    | BeginWindow(to: nat)
    | ReadWithdrawalDaily
    | RecordBurn(valid: bool)
    | NextLog
    | BreakLoop
    | AdvanceBaseCursor
    | DropBaseScan
    | EnqueueRelease(id: nat)
    | RestartBase

  datatype ReleaseEvent =
    | ClaimRelease(id: nat)
    | SendFair(job: ReleaseJob)
    | FileSend
    | MarkBroadcast(id: nat)
    | FailRelease(id: nat)
    | DropSend

  // ---- users, chains, clock and the intent endpoint -------------------------

  const ZERO_ADDRESS: string := "0x0000000000000000000000000000000000000000"

  /** The token reverts a mint to the zero address. */
  predicate Takes(to: string) {
    to != ZERO_ADDRESS
  }

  function OutsideStep(s: State, e: OutsideEvent): (s': State)
    ensures s'.withdrawals == s.withdrawals && s'.sends == s.sends && s'.heldSend == s.heldSend
    ensures s'.releaseJobs == s.releaseJobs && s'.baseCursor == s.baseCursor && s'.base == s.base
      && s'.missed == s.missed
    ensures s'.heldMint == s.heldMint && s'.mintJobs == s.mintJobs && s'.fairCursor == s.fairCursor
    ensures s.fairBlocks <= s'.fairBlocks && s'.scanned == s.scanned && s.logs <= s'.logs && s.baseTip <= s'.baseTip
    ensures s.deposits <= s'.deposits && s.now <= s'.now && s'.received == s.received && (s.aborted ==> s'.aborted)
    ensures s'.fair == s.fair && s'.stale == s.stale && s'.hazard == s.hazard
    ensures !e.CreateIntent? ==> s'.deposits == s.deposits && s'.intents == s.intents
    ensures s.nextIndex <= s'.nextIndex && s.addressCache <= s'.addressCache
  {
    match e
    case Tick(ms) => s.(now := s.now + ms)
    case MineFair(block) => s.(fairBlocks := s.fairBlocks + [block])
    case Allocate =>
      s.(nextIndex := s.nextIndex + 1,
         pendingIntents := s.pendingIntents + {s.nextIndex},
         addressCache := s.addressCache + {Derived(s.nextIndex)})
    case CreateIntent(index, baseAddress) =>
      if index in s.pendingIntents then
        s.(pendingIntents := s.pendingIntents - {index},
           intents := s.intents[index := Intent(baseAddress, |s.deposits|)],
           deposits := s.deposits + [IntentRow(index, baseAddress, s.now)])
      else s
    case AbandonIntent(index) => s.(pendingIntents := s.pendingIntents - {index})
    case ExecuteMint(tx, success) =>
      if tx < |s.mints| && s.mints[tx].outcome.Pending? && (success ==> Takes(s.mints[tx].to)) then
        s.(mints := s.mints[tx := s.mints[tx].(outcome := if success then Success else Reverted)],
           supply := if success then s.supply + s.mints[tx].wei else s.supply)
      else s
    case BridgeBurn(key, from, wei, destination, decodable) =>
      if 0 < wei <= s.supply && (forall i :: 0 <= i < |s.logs| ==> s.logs[i].key != key) then
        s.(supply := s.supply - wei,
           logs := s.logs + [BurnLog(key, s.baseTip + 1, from, wei, destination, decodable)])
      else s
    case Burn(wei) => if wei <= s.supply then s.(supply := s.supply - wei) else s
    case MineBase => s.(baseTip := s.baseTip + 1)
    case Abort => s.(aborted := true)
  }

  /** An executed transaction keeps its outcome; nothing else of it changes. */
  predicate SameMint(m: MintTx, m': MintTx) {
    m' == m.(outcome := m'.outcome) && (!m.outcome.Pending? ==> m' == m)
  }

  /** An intent row that nothing has been paid to. */
  predicate IsIntent(d: Deposit) {
    d.status.Awaiting? && d.outpoint.None? && d.mintTx.None? && d.amountWei == 0
  }

  /** What the outside world does to mints and deposit rows. */
  predicate MintsMined(s: State, s': State) {
    && |s'.mints| == |s.mints| && (forall i :: 0 <= i < |s.mints| ==> SameMint(s.mints[i], s'.mints[i]))
    && s.deposits <= s'.deposits
    && (forall i :: |s.deposits| <= i < |s'.deposits| ==> IsIntent(s'.deposits[i]))
  }

  lemma ExecutionMines(s: State, s': State, tx: nat, outcome: TxOutcome)
    requires tx < |s.mints| && s.mints[tx].outcome.Pending? && s'.deposits == s.deposits
    requires s'.mints == s.mints[tx := s.mints[tx].(outcome := outcome)]
    ensures MintsMined(s, s')
  {
  }

  lemma ElsewhereNothingIsMined(s: State, e: OutsideEvent, s': State)
    requires s' == OutsideStep(s, e) && !e.ExecuteMint? && !e.CreateIntent?
    ensures s'.mints == s.mints && s'.deposits == s.deposits
  {
  }

  lemma OutsideOnlyMines(s: State, e: OutsideEvent, s': State)
    requires s' == OutsideStep(s, e)
    ensures MintsMined(s, s')
  {
    if e.ExecuteMint? {
      if s' != s { ExecutionMines(s, s', e.tx, if e.success then Success else Reverted); }
    } else if e.CreateIntent? {
      assert s'.mints == s.mints;
    } else {
      ElsewhereNothingIsMined(s, e, s');
    }
  }

  function IntentRow(index: nat, baseAddress: string, now: nat): Deposit {
    Deposit(baseAddress, Derived(index), index, DepositStatus.Awaiting, None, 0, 0, 0, None, now)
  }

  // ---- the deposit scanner -------------------------------------------------

  /** The scanner stands at a vout. */
  predicate AtVout(s: State) {
    && s.fair.scan.Some? && s.fairCursor + 1 < |s.fairBlocks|
    && var block := s.fairBlocks[s.fairCursor + 1]; var scan := s.fair.scan.value;
       scan.t < |block| && scan.v < |block[scan.t].vouts|
  }

  function TheTx(s: State): FairTx
    requires AtVout(s)
  {
    s.fairBlocks[s.fairCursor + 1][s.fair.scan.value.t]
  }

  function TheVout(s: State): Vout
    requires AtVout(s)
  {
    TheTx(s).vouts[s.fair.scan.value.v]
  }

  function TheKey(s: State): Outpoint
    requires AtVout(s)
  {
    Outpoint(TheTx(s).txid, TheVout(s).n)
  }

  /** What the scanner decides for a vout, and the readings it needs for it. */
  datatype Verdict = Reject | Accept | NotRead

  function Judge(cfg: Config, known: bool, sats: nat, daily: Option<nat>,
                 supply: Option<nat>, inFlight: Option<nat>): Verdict
  {
    if !known || sats < cfg.minDepositSats then Reject
    else if daily.None? then NotRead
    else if daily.value + sats > cfg.depositCapSats then Reject
    else if supply.None? || inFlight.None? then NotRead
    else if supply.value + inFlight.value + ApplyFee(sats * SATS_TO_WEI, cfg.feeBps) > cfg.maxTvlWei then Reject
    else Accept
  }

  predicate CanRecord(cfg: Config, s: State) {
    && AtVout(s)
    && var vout := TheVout(s);
    && Pays(vout, s.addressCache)
    && !DepositRecorded(s.deposits, TheKey(s))
    && !s.fair.slot.Unread? && !s.fair.origin.Unread?
    && (s.fair.slot.Row? ==> IsSlot(s.deposits, vout.address.value, s.fair.slot.id) && s.fair.origin == s.fair.slot)
    && (s.fair.slot.Nobody? && s.fair.origin.Row? ==> IsEarliest(s.deposits, vout.address.value, s.fair.origin.id))
    && !Judge(cfg, s.fair.origin.Row?, vout.sats, s.fair.daily, s.fair.supply, s.fair.inFlight).NotRead?
  }

  /** The row written for a vout: the slot's own columns or a fresh row, then the
      outcome's status, outpoint and amounts. */
  function DepositRow(cfg: Config, s: State): Deposit
    requires CanRecord(cfg, s)
  {
    var vout := TheVout(s);
    var slot, origin := s.fair.slot, s.fair.origin;
    var accept := Judge(cfg, origin.Row?, vout.sats, s.fair.daily, s.fair.supply, s.fair.inFlight).Accept?;
    var gross := vout.sats * SATS_TO_WEI;
    Deposit(
      if origin.Row? then s.deposits[origin.id].baseAddress else ZERO_ADDRESS,
      vout.address.value,
      if origin.Row? then s.deposits[origin.id].hdIndex else -1,
      if accept then DepositStatus.Confirmed else DepositStatus.Failed,
      Some(TheKey(s)),
      s.fairCursor + 1,
      vout.sats,
      if accept then ApplyFee(gross, cfg.feeBps) else gross,
      None,
      if slot.Row? then s.deposits[slot.id].createdAt else s.now)
  }

  function MintJobOf(deposits: seq<Deposit>, id: nat): MintJob
    requires id < |deposits|
  {
    MintJob(id, deposits[id].baseAddress, deposits[id].amountWei)
  }

  /** The event moves the scan to another vout or block, or drops it. */
  predicate ScanMoves(cfg: Config, s: State, e: FairEvent) {
    match e
    case BeginBlock => s.fair.scan.None? && s.fairCursor + 1 + cfg.fairConfirmations < |s.fairBlocks|
    case NextVout => AtVout(s) && (!Pays(TheVout(s), s.addressCache) || DepositRecorded(s.deposits, TheKey(s)))
    case NextTx => InBlock(s) && !AtVout(s)
    case DropFairScan => true
    case _ => false
  }

  /** The scanner stands at a transaction of the block after the cursor. */
  predicate InBlock(s: State) {
    && s.fair.scan.Some? && s.fairCursor + 1 < |s.fairBlocks|
    && s.fair.scan.value.t < |s.fairBlocks[s.fairCursor + 1]|
  }

  /** The scanner has come to the end of the block after the cursor. */
  predicate BlockDone(s: State) {
    && s.fair.scan.Some? && s.fairCursor + 1 < |s.fairBlocks|
    && s.fair.scan.value.t >= |s.fairBlocks[s.fairCursor + 1]|
  }

  function ScanAfter(s: State, e: FairEvent): Option<FairScan> {
    match e
    case BeginBlock => Some(FairScan(s.addressCache, 0, 0))
    case NextVout => if s.fair.scan.Some? then Some(s.fair.scan.value.(v := s.fair.scan.value.v + 1)) else None
    case NextTx => if s.fair.scan.Some? then Some(s.fair.scan.value.(t := s.fair.scan.value.t + 1, v := 0)) else None
    case _ => None
  }

  /** The scanner's memory after a reading. */
  function FairRead(s: State, e: FairEvent): FairMemory {
    match e
    case ReadSlot =>
      if AtVout(s) && Pays(TheVout(s), s.addressCache) && s.fair.slot.Unread? then
        s.fair.(slot := FindSlot(s.deposits, TheVout(s).address.value))
      else s.fair
    case ReadOrigin =>
      if AtVout(s) && Pays(TheVout(s), s.addressCache) && !s.fair.slot.Unread? && s.fair.origin.Unread? then
        s.fair.(origin :=
          if s.fair.slot.Row? then s.fair.slot else FindEarliest(s.deposits, TheVout(s).address.value))
      else s.fair
    case ReadDepositDaily =>
      if s.fair.origin.Row? && s.fair.origin.id < |s.deposits| then
        s.fair.(daily := Some(DepositDailySats(s.deposits, s.deposits[s.fair.origin.id].baseAddress, s.now)))
      else s.fair
    case ReadSupply => if s.fair.supply.None? then s.fair.(supply := Some(s.supply)) else s.fair
    case ReadInFlight => if s.fair.inFlight.None? then s.fair.(inFlight := Some(InFlightWei(s.deposits))) else s.fair
    case _ => s.fair
  }

  /** Where the row of the vout goes: into the slot, or after the last row. */
  function RowAt(s: State): nat {
    if s.fair.slot.Row? then s.fair.slot.id else |s.deposits|
  }

  /** The table after the row of the vout is written. */
  function DepositsWith(s: State, row: Deposit): seq<Deposit> {
    if RowAt(s) < |s.deposits| then s.deposits[RowAt(s) := row] else s.deposits + [row]
  }

  /** The scan goes on with no readings. */
  function Standing(scan: Option<FairScan>): FairMemory {
    NO_FAIR_MEMORY.(scan := scan)
  }

  function FairStep(cfg: Config, s: State, e: FairEvent): (s': State)
    ensures SameWithdrawalSide(s, s')
    ensures s'.mints == s.mints && s'.heldMint == s.heldMint && s'.supply == s.supply && s'.fairBlocks == s.fairBlocks
    ensures !e.EnqueueMint? ==> s'.mintJobs == s.mintJobs
    ensures s'.nextIndex == s.nextIndex && s'.intents == s.intents
    ensures !e.Reload? ==> s'.addressCache == s.addressCache && s'.pendingIntents == s.pendingIntents
    ensures !(e.RecordDeposit? && CanRecord(cfg, s)) ==> s'.deposits == s.deposits && s'.received == s.received
  {
    match e
    case BeginBlock | NextVout | NextTx | DropFairScan =>
      if ScanMoves(cfg, s, e) then s.(fair := Standing(ScanAfter(s, e)), stale := false) else s
    case ReadSlot | ReadOrigin | ReadDepositDaily | ReadSupply | ReadInFlight => s.(fair := FairRead(s, e))
    case RecordDeposit =>
      if CanRecord(cfg, s) then
        var row := DepositRow(cfg, s);
        s.(deposits := DepositsWith(s, row),
           received := s.received + row.amountSats,
           hazard := s.hazard || (row.status.Confirmed? && s.stale),
           fair := Standing(s.fair.scan), stale := false)
      else s
    case AdvanceFairCursor =>
      if BlockDone(s) then
        s.(fairCursor := s.fairCursor + 1, scanned := s.scanned[s.fairCursor + 1 := s.fair.scan.value.known],
           fair := NO_FAIR_MEMORY, stale := false)
      else s
    case EnqueueMint(id) =>
      if id < |s.deposits| && !s.deposits[id].Open() then
        s.(mintJobs := s.mintJobs + {MintJobOf(s.deposits, id)})
      else s
    case Reload =>
      s.(addressCache := RowAddresses(s.deposits), pendingIntents := {}, fair := NO_FAIR_MEMORY, stale := false)
  }

  /** A row that left its slot or was added with no mint yet. */
  predicate Wrote(s: State, s': State, at: nat, row: Deposit) {
    && (if at < |s.deposits| then s.deposits[at].Open() && s'.deposits == s.deposits[at := row]
        else at == |s.deposits| && s'.deposits == s.deposits + [row])
    && (row.status.Confirmed? || row.status.Failed?) && row.mintTx.None? && row.outpoint.Some?
    && s'.mints == s.mints && s'.heldMint == s.heldMint && s'.mintJobs == s.mintJobs && s'.supply == s.supply
  }

  lemma RecordWrites(cfg: Config, s: State, s': State)
    requires CanRecord(cfg, s) && s' == FairStep(cfg, s, RecordDeposit)
    ensures Wrote(s, s', RowAt(s), DepositRow(cfg, s))
  {
  }

  // ---- the mint worker (direct_eoa) ----------------------------------------

  /** One row with another status or mint hash. */
  function Relabel(ds: seq<Deposit>, id: nat, d: Deposit): (ds': seq<Deposit>)
    requires id < |ds| && d == ds[id].(status := d.status, mintTx := d.mintTx) && (d.Open() <==> ds[id].Open())
    ensures DepositsRelabelled(ds, ds')
  {
    ds[id := d]
  }

  function MintStep(s: State, e: MintEvent): (s': State)
    ensures SameWithdrawalSide(s, s') && SameScan(s, s') && s'.fairBlocks == s.fairBlocks
    ensures s'.received == s.received && s'.supply == s.supply && s'.mintJobs == s.mintJobs
    ensures DepositsRelabelled(s.deposits, s'.deposits)
  {
    match e
    case ClaimMint(id) =>
      if id < |s.deposits| && (s.deposits[id].status.Confirmed? || s.deposits[id].status.Minting?)
         && s.deposits[id].mintTx.None?
      then s.(deposits := Relabel(s.deposits, id, s.deposits[id].(status := DepositStatus.Minting)))
      else s
    case BroadcastMint(job) =>
      if job in s.mintJobs && job.depositId < |s.deposits| && s.deposits[job.depositId].status.Minting?
         && s.deposits[job.depositId].mintTx.None? && s.heldMint.None?
      then s.(mints := s.mints + [MintTx(job.depositId, job.to, job.wei, Pending, false)],
              heldMint := Some(|s.mints|))
      else s
    case FileMint =>
      if s.heldMint.Some? && s.heldMint.value < |s.mints| && s.mints[s.heldMint.value].row < |s.deposits| then
        var row := s.mints[s.heldMint.value].row;
        s.(deposits := Relabel(s.deposits, row, s.deposits[row].(mintTx := s.heldMint)), heldMint := None)
      else s
    case SettleMint(id) =>
      if id < |s.deposits| && s.deposits[id].status.Minting? && s.deposits[id].mintTx.Some?
         && s.deposits[id].mintTx.value < |s.mints| && !s.mints[s.deposits[id].mintTx.value].outcome.Pending?
      then
        var minted := s.mints[s.deposits[id].mintTx.value].outcome.Success?;
        s.(deposits := Relabel(s.deposits, id, s.deposits[id].(
             status := if minted then DepositStatus.Minted else DepositStatus.Failed)),
           stale := s.stale || (minted && s.fair.supply.Some? && s.fair.inFlight.None?))
      else s
    case DropMint =>
      if s.heldMint.Some? && s.heldMint.value < |s.mints| then
        s.(mints := s.mints[s.heldMint.value := s.mints[s.heldMint.value].(lost := true)], heldMint := None)
      else s
  }

  // ---- the burn scanner ----------------------------------------------------

  /** The burn scanner stands at a log. */
  predicate AtLog(s: State) {
    && s.base.scan.Some?
    && var scan := s.base.scan.value;
       !scan.cut && scan.next < |scan.found| && scan.found[scan.next] < |s.logs|
  }

  function TheLog(s: State): BurnLog
    requires AtLog(s)
  {
    s.logs[s.base.scan.value.found[s.base.scan.value.next]]
  }

  /** The withdrawal row written for a burn: rejected rows keep the gross amount. */
  function WithdrawalRow(cfg: Config, s: State, valid: bool): Withdrawal
    requires AtLog(s)
  {
    var burn := TheLog(s);
    var gross := burn.wei / SATS_TO_WEI;
    var accept := valid && s.base.daily.Some? && s.base.daily.value.sats + gross <= cfg.withdrawalCapSats;
    Withdrawal(burn.key, burn.from, burn.destination,
      if accept then ApplyFee(gross, cfg.feeBps) else gross,
      if accept then WithdrawalStatus.Confirmed else WithdrawalStatus.Failed,
      None, s.now)
  }

  predicate CanRecordBurn(s: State, valid: bool) {
    && AtLog(s) && TheLog(s).decodable && !BurnRecorded(s.withdrawals, TheLog(s).key)
    && (valid ==> s.base.daily.Some? && s.base.daily.value.from == TheLog(s).from)
  }

  function ReleaseJobOf(withdrawals: seq<Withdrawal>, id: nat): ReleaseJob
    requires id < |withdrawals|
  {
    ReleaseJob(id, withdrawals[id].destination, withdrawals[id].amountSats)
  }

  /** The decodable logs of a window, from one position on, that have no row. */
  function Unrecorded(s: State, found: seq<nat>, next: nat): set<nat> {
    set i | i in found && Lost(s, found, next, i)
  }

  predicate Lost(s: State, found: seq<nat>, next: nat, i: nat) {
    && (exists k :: next <= k < |found| && found[k] == i)
    && i < |s.logs| && s.logs[i].decodable && !BurnRecorded(s.withdrawals, s.logs[i].key)
  }

  /** The loop over the window's logs has come to its end or was broken off. */
  predicate WindowEnded(s: State) {
    s.base.scan.Some? && (s.base.scan.value.cut || s.base.scan.value.next >= |s.base.scan.value.found|)
  }

  function BaseStep(cfg: Config, s: State, e: BaseEvent): (s': State)
    ensures SameDepositSide(s, s')
    ensures s'.logs == s.logs && s'.baseTip == s.baseTip && s'.sends == s.sends && s'.heldSend == s.heldSend
    ensures !(e.RecordBurn? && CanRecordBurn(s, e.valid)) ==> s'.withdrawals == s.withdrawals
    ensures !(e.AdvanceBaseCursor? && WindowEnded(s)) ==> s'.baseCursor == s.baseCursor && s'.missed == s.missed
  {
    match e
    case BeginWindow(to) =>
      if s.base.scan.None? && s.baseCursor < to <= s.baseCursor + MAX_LOG_RANGE
        && to + cfg.baseConfirmations <= s.baseTip then
        s.(base := BaseMemory(Some(BaseScan(to, LogsIn(s.logs, s.baseCursor + 1, to), 0, false)), None))
      else s
    case ReadWithdrawalDaily =>
      if AtLog(s) then
        var from := TheLog(s).from;
        s.(base := s.base.(daily := Some(DailyRead(from, s.now, WithdrawalDailySats(s.withdrawals, from, s.now)))))
      else s
    case RecordBurn(valid) =>
      if CanRecordBurn(s, valid) then
        s.(withdrawals := s.withdrawals + [WithdrawalRow(cfg, s, valid)], base := s.base.(daily := None))
      else s
    case NextLog =>
      if AtLog(s) && (!TheLog(s).decodable || BurnRecorded(s.withdrawals, TheLog(s).key)) then
        s.(base := BaseMemory(Some(s.base.scan.value.(next := s.base.scan.value.next + 1)), None))
      else s
    case BreakLoop =>
      if s.aborted && AtLog(s) then s.(base := BaseMemory(Some(s.base.scan.value.(cut := true)), None)) else s
    case AdvanceBaseCursor =>
      if WindowEnded(s) then
        s.(baseCursor := s.base.scan.value.to, base := NO_BASE_MEMORY,
           missed := s.missed + Unrecorded(s, s.base.scan.value.found, s.base.scan.value.next))
      else s
    case DropBaseScan => s.(base := NO_BASE_MEMORY)
    case EnqueueRelease(id) =>
      if id < |s.withdrawals| then
        s.(releaseJobs := s.releaseJobs + {ReleaseJobOf(s.withdrawals, id)})
      else s
    case RestartBase => s.(base := NO_BASE_MEMORY, aborted := false)
  }

  // ---- the release worker --------------------------------------------------

  function ReleaseStep(s: State, e: ReleaseEvent): (s': State)
    ensures SameDepositSide(s, s')
    ensures s'.logs == s.logs && s'.baseTip == s.baseTip && s'.baseCursor == s.baseCursor
    ensures s'.base == s.base && s'.missed == s.missed && s'.aborted == s.aborted && s'.releaseJobs == s.releaseJobs
    ensures WithdrawalsRelabelled(s.withdrawals, s'.withdrawals)
  {
    match e
    case ClaimRelease(id) =>
      if id < |s.withdrawals| && s.withdrawals[id].Unsent() then
        s.(withdrawals := s.withdrawals[id := s.withdrawals[id].(status := WithdrawalStatus.Signing)])
      else s
    case SendFair(job) =>
      if job in s.releaseJobs && job.withdrawalId < |s.withdrawals| && s.withdrawals[job.withdrawalId].status.Signing?
         && s.withdrawals[job.withdrawalId].fairTx.None? && s.heldSend.None?
      then s.(sends := s.sends + [Send(job.withdrawalId, job.destination, job.sats, false)],
              heldSend := Some(|s.sends|))
      else s
    case FileSend =>
      if s.heldSend.Some? && s.heldSend.value < |s.sends| && s.sends[s.heldSend.value].row < |s.withdrawals| then
        var row := s.sends[s.heldSend.value].row;
        s.(withdrawals := s.withdrawals[row := s.withdrawals[row].(fairTx := s.heldSend)], heldSend := None)
      else s
    case MarkBroadcast(id) =>
      if id < |s.withdrawals| && s.withdrawals[id].status.Signing? && s.withdrawals[id].fairTx.Some? then
        s.(withdrawals := s.withdrawals[id := s.withdrawals[id].(status := WithdrawalStatus.Broadcast)])
      else s
    case FailRelease(id) =>
      if id < |s.withdrawals| && s.withdrawals[id].Unsent() && s.heldSend.None? then
        s.(withdrawals := s.withdrawals[id := s.withdrawals[id].(status := WithdrawalStatus.Failed)])
      else s
    case DropSend =>
      if s.heldSend.Some? && s.heldSend.value < |s.sends| then
        s.(sends := s.sends[s.heldSend.value := s.sends[s.heldSend.value].(lost := true)], heldSend := None)
      else s
  }

  // ---- runs ----------------------------------------------------------------

  function Step(cfg: Config, s: State, e: Event): State {
    match e
    case Outside(o) => OutsideStep(s, o)
    case FairWatcher(f) => FairStep(cfg, s, f)
    case MintWorker(m) => MintStep(s, m)
    case BaseWatcher(b) => BaseStep(cfg, s, b)
    case ReleaseWorker(r) => ReleaseStep(s, r)
  }

  /** The state after a list of events, in order. */
  function Run(cfg: Config, s: State, events: seq<Event>): State {
    if events == [] then s
    else Step(cfg, Run(cfg, s, events[..|events| - 1]), events[|events| - 1])
  }
}
