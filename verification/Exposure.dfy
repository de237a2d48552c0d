/** WFAIR that exists or may still come into existence: the supply, and the
    mints that were confirmed but not executed. */
module Exposure {
  import opened Wrappers
  import opened Rows
  import opened Sums
  import opened Protocol
  import opened MintLedger

  /** Outcome of the mint a row is accounted for with. */
  predicate CurrentIs(s: State, r: nat, outcome: TxOutcome)
    requires r < |s.deposits|
  {
    var c := CurrentMint(s, r);
    c.Some? && c.value < |s.mints| && s.mints[c.value].outcome == outcome
  }

  /** The row's mint was confirmed and has not executed, as success or revert. */
  function UnexecutedWeight(s: State, r: nat): nat
    requires r < |s.deposits|
  {
    var d := s.deposits[r];
    if (d.status.Confirmed? || d.status.Minting?) && !CurrentIs(s, r, Success) && !CurrentIs(s, r, Reverted)
    then d.amountWei else 0
  }

  /** The row is in flight and its mint did not revert. */
  function PossibleWeight(s: State, r: nat): nat
    requires r < |s.deposits|
  {
    if s.deposits[r].InFlight() && !CurrentIs(s, r, Reverted) then s.deposits[r].amountWei else 0
  }

  function UnexecutedWeights(s: State): seq<nat> {
    seq(|s.deposits|, r requires 0 <= r < |s.deposits| => UnexecutedWeight(s, r))
  }

  function PossibleWeights(s: State): seq<nat> {
    seq(|s.deposits|, r requires 0 <= r < |s.deposits| => PossibleWeight(s, r))
  }

  function LostWeights(mints: seq<MintTx>): seq<nat> {
    seq(|mints|, i requires 0 <= i < |mints| => if mints[i].lost then mints[i].wei else 0)
  }

  function LostPendingWeights(mints: seq<MintTx>): seq<nat> {
    seq(|mints|, i requires 0 <= i < |mints| => if mints[i].lost && mints[i].outcome.Pending? then mints[i].wei else 0)
  }

  function UnexecutedWei(s: State): nat { Sum(UnexecutedWeights(s)) }

  function PossibleWei(s: State): nat { Sum(PossibleWeights(s)) }

  /** Total of the mints whose hash a crash made the worker lose. */
  function LostMintWei(s: State): nat { Sum(LostWeights(s.mints)) }

  function LostPendingWei(s: State): nat { Sum(LostPendingWeights(s.mints)) }

  /** Confirmed mints still to execute, net of what lost broadcasts may repeat. */
  function Owed(s: State): int { UnexecutedWei(s) + LostPendingWei(s) - LostMintWei(s) }

  function MintSide(s: State): int { s.supply + Owed(s) }

  /** Only the fields the sums read. */
  predicate SameMints(s: State, s': State) {
    s'.deposits == s.deposits && s'.mints == s.mints && s'.heldMint == s.heldMint
  }

  lemma SameSums(s: State, s': State)
    requires SameMints(s, s')
    ensures Owed(s') == Owed(s) && PossibleWei(s') == PossibleWei(s)
  {
    assert UnexecutedWeights(s') == UnexecutedWeights(s);
    assert PossibleWeights(s') == PossibleWeights(s);
  }

  predicate Executes(s: State, s': State, tx: nat, success: bool)
    requires tx < |s.mints|
  {
    && s'.deposits == s.deposits && s'.heldMint == s.heldMint
    && s'.mints == s.mints[tx := s.mints[tx].(outcome := if success then Success else Reverted)]
    && s'.supply == if success then s.supply + s.mints[tx].wei else s.supply
  }

  /** Rows other than the mint's own do not notice that it executed. */
  lemma ExecuteOtherRow(s: State, s': State, tx: nat, success: bool, k: nat)
    requires MintInv(s) && tx < |s.mints| && s.mints[tx].outcome.Pending? && Executes(s, s', tx, success)
    requires k < |s.deposits| && k != s.mints[tx].row
    ensures UnexecutedWeight(s', k) == UnexecutedWeight(s, k)
    ensures PossibleWeight(s', k) == PossibleWeight(s, k)
  {
    assert DepositOk(s.deposits[k], s.mints, k);
    assert CurrentMint(s', k) == CurrentMint(s, k) != Some(tx);
  }

  /** Its own row does, unless the mint was lost. */
  lemma ExecuteOwnRow(s: State, s': State, tx: nat, success: bool)
    requires MintInv(s) && tx < |s.mints| && s.mints[tx].outcome.Pending? && Executes(s, s', tx, success)
    ensures s.mints[tx].row < |s.deposits|
    ensures var r := s.mints[tx].row; var wei := if s.mints[tx].lost then 0 else s.mints[tx].wei;
      && UnexecutedWeight(s', r) + wei == UnexecutedWeight(s, r)
      && PossibleWeight(s', r) + (if success then 0 else wei) == PossibleWeight(s, r)
  {
    var r := s.mints[tx].row;
    assert MintOk(s.deposits, s.mints[tx], tx, s.heldMint);
    assert DepositOk(s.deposits[r], s.mints, r);
    assert CurrentMint(s', r) == CurrentMint(s, r);
    assert s.mints[tx].lost <==> CurrentMint(s, r) != Some(tx);
  }

  lemma ExecuteMoves(s: State, s': State, tx: nat, success: bool)
    requires MintInv(s) && tx < |s.mints| && s.mints[tx].outcome.Pending? && Executes(s, s', tx, success)
    ensures MintSide(s') <= MintSide(s) && Owed(s') <= Owed(s)
    ensures MintSide(s') - MintSide(s) <= PossibleWei(s') - PossibleWei(s)
  {
    ExecuteOwnRow(s, s', tx, success);
    var r := s.mints[tx].row;
    forall k | 0 <= k < |s.deposits| && k != r
      ensures UnexecutedWeights(s')[k] == UnexecutedWeights(s)[k]
      ensures PossibleWeights(s')[k] == PossibleWeights(s)[k]
    {
      ExecuteOtherRow(s, s', tx, success, k);
    }
    SumChange(UnexecutedWeights(s), UnexecutedWeights(s'), r);
    SumChange(PossibleWeights(s), PossibleWeights(s'), r);
    SumChange(LostPendingWeights(s.mints), LostPendingWeights(s'.mints), tx);
    assert LostWeights(s'.mints) == LostWeights(s.mints);
  }

  /** A broadcast that left a row without a current mint puts it in hand. */
  lemma BroadcastMoves(s: State, s': State, m: MintTx)
    requires MintInv(s) && s.heldMint.None?
    requires m.outcome.Pending? && !m.lost
    requires s'.deposits == s.deposits && s'.mints == s.mints + [m] && s'.heldMint == Some(|s.mints|)
    ensures Owed(s') == Owed(s) && PossibleWei(s') == PossibleWei(s)
  {
    forall k | 0 <= k < |s.deposits|
      ensures UnexecutedWeights(s')[k] == UnexecutedWeights(s)[k] && PossibleWeights(s')[k] == PossibleWeights(s)[k]
    {
      assert DepositOk(s.deposits[k], s.mints, k);
    }
    assert UnexecutedWeights(s') == UnexecutedWeights(s);
    assert PossibleWeights(s') == PossibleWeights(s);
    SumGrow(LostWeights(s.mints), LostWeights(s'.mints));
    SumGrow(LostPendingWeights(s.mints), LostPendingWeights(s'.mints));
  }

  /** The hash moves from the worker's hands to the row. */
  lemma FileMoves(s: State, s': State)
    requires MintInv(s) && s.heldMint.Some?
    requires var r := s.mints[s.heldMint.value].row;
      s'.deposits == s.deposits[r := s.deposits[r].(mintTx := s.heldMint)]
    requires s'.mints == s.mints && s'.heldMint.None?
    ensures Owed(s') == Owed(s) && PossibleWei(s') == PossibleWei(s)
  {
    forall k | 0 <= k < |s.deposits|
      ensures UnexecutedWeights(s')[k] == UnexecutedWeights(s)[k] && PossibleWeights(s')[k] == PossibleWeights(s)[k]
    {
      assert CurrentMint(s', k) == CurrentMint(s, k);
    }
    assert UnexecutedWeights(s') == UnexecutedWeights(s);
    assert PossibleWeights(s') == PossibleWeights(s);
  }

  predicate Drops(s: State, s': State) {
    && s.heldMint.Some? && s.heldMint.value < |s.mints|
    && s'.deposits == s.deposits && s'.heldMint.None?
    && s'.mints == s.mints[s.heldMint.value := s.mints[s.heldMint.value].(lost := true)]
  }

  /** Rows other than the mint's own do not notice that its hash was lost. */
  lemma DropOtherRow(s: State, s': State, k: nat)
    requires MintInv(s) && Drops(s, s') && k < |s.deposits| && k != s.mints[s.heldMint.value].row
    ensures UnexecutedWeight(s', k) == UnexecutedWeight(s, k)
    ensures PossibleWeight(s', k) == PossibleWeight(s, k)
  {
    assert DepositOk(s.deposits[k], s.mints, k);
    assert CurrentMint(s', k) == CurrentMint(s, k) == s.deposits[k].mintTx;
  }

  /** Its own row has no mint again. */
  lemma DropOwnRow(s: State, s': State)
    requires MintInv(s) && Drops(s, s')
    ensures s.mints[s.heldMint.value].row < |s.deposits|
    ensures var m := s.mints[s.heldMint.value];
      && UnexecutedWeight(s', m.row) == m.wei
      && UnexecutedWeight(s, m.row) == (if m.outcome.Pending? then m.wei else 0)
      && PossibleWeight(s', m.row) >= PossibleWeight(s, m.row)
  {
    var tx := s.heldMint.value;
    assert MintOk(s.deposits, s.mints[tx], tx, s.heldMint);
    assert CurrentMint(s', s.mints[tx].row).None? && CurrentMint(s, s.mints[tx].row) == Some(tx);
  }

  /** The loss is booked, and so is what it may still cost. */
  lemma DropBooksTheLoss(s: State, s': State)
    requires MintInv(s) && Drops(s, s')
    ensures var m := s.mints[s.heldMint.value];
      && LostMintWei(s') == LostMintWei(s) + m.wei
      && LostPendingWei(s') == LostPendingWei(s) + (if m.outcome.Pending? then m.wei else 0)
  {
    var tx := s.heldMint.value;
    assert MintOk(s.deposits, s.mints[tx], tx, s.heldMint);
    SumChange(LostWeights(s.mints), LostWeights(s'.mints), tx);
    SumChange(LostPendingWeights(s.mints), LostPendingWeights(s'.mints), tx);
  }

  /** A lost hash: the row is owed again, and the loss is on the books. */
  lemma DropMoves(s: State, s': State)
    requires MintInv(s) && Drops(s, s')
    ensures Owed(s') == Owed(s) && PossibleWei(s') >= PossibleWei(s)
  {
    DropOwnRow(s, s');
    DropBooksTheLoss(s, s');
    var r := s.mints[s.heldMint.value].row;
    forall k | 0 <= k < |s.deposits| && k != r
      ensures UnexecutedWeights(s')[k] == UnexecutedWeights(s)[k]
      ensures PossibleWeights(s')[k] == PossibleWeights(s)[k]
    {
      DropOtherRow(s, s', k);
    }
    SumChange(UnexecutedWeights(s), UnexecutedWeights(s'), r);
    SumChange(PossibleWeights(s), PossibleWeights(s'), r);
  }

  /** Claiming and settling: the row's status changes, nothing becomes owed. */
  lemma StatusMoves(s: State, s': State, id: nat, status: DepositStatus)
    requires MintInv(s) && id < |s.deposits|
    requires s'.deposits == s.deposits[id := s.deposits[id].(status := status)]
    requires s'.mints == s.mints && s'.heldMint == s.heldMint
    requires status.Minting? || CurrentIs(s, id, Success) || CurrentIs(s, id, Reverted)
    requires status.Minting? ==> s.deposits[id].status.Confirmed? || s.deposits[id].status.Minting?
    requires s.deposits[id].status.Confirmed? || s.deposits[id].status.Minting?
    requires CurrentIs(s, id, Success) && !status.Minting? ==> status.Minted?
    requires CurrentIs(s, id, Reverted) && !status.Minting? ==> status == DepositStatus.Failed
    ensures Owed(s') == Owed(s)
    ensures !status.Minted? ==> PossibleWei(s') == PossibleWei(s)
  {
    forall k | 0 <= k < |s.deposits|
      ensures UnexecutedWeights(s')[k] == UnexecutedWeights(s)[k]
      ensures !status.Minted? ==> PossibleWeights(s')[k] == PossibleWeights(s)[k]
    {
      assert CurrentMint(s', k) == CurrentMint(s, k);
    }
    assert UnexecutedWeights(s') == UnexecutedWeights(s);
    assert !status.Minted? ==> PossibleWeights(s') == PossibleWeights(s);
  }

  predicate FreshRow(row: Deposit) {
    row.mintTx.None? && (row.status.Confirmed? || row.status.Failed? || (row.status.Awaiting? && row.amountWei == 0))
  }

  function OwedFor(row: Deposit): nat {
    if row.status.Confirmed? then row.amountWei else 0
  }

  lemma FreshRowWeight(s: State, s': State, at: nat)
    requires MintInv(s) && s'.mints == s.mints && s'.heldMint == s.heldMint
    requires at < |s'.deposits| && FreshRow(s'.deposits[at])
    requires at < |s.deposits| ==> s.deposits[at].Open()
    ensures UnexecutedWeight(s', at) == PossibleWeight(s', at) == OwedFor(s'.deposits[at])
  {
    assert s.heldMint.Some? ==> s.mints[s.heldMint.value].row != at;
    assert CurrentMint(s', at).None?;
  }

  /** A row written into an open slot, which was owed nothing. */
  lemma SlotMoves(s: State, s': State, at: nat, row: Deposit)
    requires MintInv(s) && at < |s.deposits| && s.deposits[at].Open() && FreshRow(row)
    requires s'.deposits == s.deposits[at := row]
    requires s'.mints == s.mints && s'.heldMint == s.heldMint
    ensures Owed(s') == Owed(s) + OwedFor(row)
    ensures PossibleWei(s') == PossibleWei(s) + OwedFor(row)
  {
    assert DepositOk(s.deposits[at], s.mints, at);
    FreshRowWeight(s, s', at);
    forall k | 0 <= k < |s.deposits| && k != at
      ensures UnexecutedWeights(s')[k] == UnexecutedWeights(s)[k] && PossibleWeights(s')[k] == PossibleWeights(s)[k]
    {
      assert CurrentMint(s', k) == CurrentMint(s, k);
    }
    SumChange(UnexecutedWeights(s), UnexecutedWeights(s'), at);
    SumChange(PossibleWeights(s), PossibleWeights(s'), at);
  }

  /** A row added to the table. */
  lemma NewRowMoves(s: State, s': State, row: Deposit)
    requires MintInv(s) && FreshRow(row)
    requires s'.deposits == s.deposits + [row]
    requires s'.mints == s.mints && s'.heldMint == s.heldMint
    ensures Owed(s') == Owed(s) + OwedFor(row)
    ensures PossibleWei(s') == PossibleWei(s) + OwedFor(row)
  {
    FreshRowWeight(s, s', |s.deposits|);
    forall k | 0 <= k < |s.deposits|
      ensures UnexecutedWeights(s')[k] == UnexecutedWeights(s)[k] && PossibleWeights(s')[k] == PossibleWeights(s)[k]
    {
      assert CurrentMint(s', k) == CurrentMint(s, k);
    }
    SumGrow(UnexecutedWeights(s), UnexecutedWeights(s'));
    SumGrow(PossibleWeights(s), PossibleWeights(s'));
  }

  lemma WriteMoves(s: State, s': State, at: nat, row: Deposit)
    requires MintInv(s) && Wrote(s, s', at, row)
    ensures Owed(s') == Owed(s) + OwedFor(row)
    ensures PossibleWei(s') == PossibleWei(s) + OwedFor(row)
  {
    if at < |s.deposits| { SlotMoves(s, s', at, row); } else { NewRowMoves(s, s', row); }
  }

  // ---- every event ---------------------------------------------------------

  /** What a deposit event adds to the mints owed. */
  function NewlyOwed(cfg: Config, s: State, e: Event): nat {
    if e.FairWatcher? && e.fair.RecordDeposit? && CanRecord(cfg, s) then OwedFor(DepositRow(cfg, s)) else 0
  }

  /** The event settles a successful mint. */
  predicate Settles(s: State, e: Event) {
    e.MintWorker? && e.mint.SettleMint? && e.mint.id < |s.deposits| && CurrentIs(s, e.mint.id, Success)
  }

  predicate Moves(s: State, s': State, owed: nat, settles: bool) {
    && MintSide(s') <= MintSide(s) + owed
    && Owed(s') <= Owed(s) + owed
    && (!settles ==> MintSide(s') - MintSide(s) <= PossibleWei(s') - PossibleWei(s))
  }

  /** No mint is executed and no row added. */
  predicate Quiet(s: State, e: OutsideEvent) {
    && !(e.ExecuteMint? && e.tx < |s.mints| && s.mints[e.tx].outcome.Pending?
    && (e.success ==> Takes(s.mints[e.tx].to)))
    && !(e.CreateIntent? && e.index in s.pendingIntents)
  }

  lemma QuietKeepsMints(s: State, e: OutsideEvent, s': State)
    requires Quiet(s, e) && s' == OutsideStep(s, e)
    ensures SameMints(s, s') && s'.supply <= s.supply
  {
  }

  lemma OutsideMoves(cfg: Config, s: State, e: OutsideEvent)
    requires MintInv(s)
    ensures Moves(s, OutsideStep(s, e), 0, false)
  {
    var s' := OutsideStep(s, e);
    if Quiet(s, e) {
      QuietKeepsMints(s, e, s');
      SameSums(s, s');
    } else {
      match e
      case ExecuteMint(tx, success) => ExecuteMoves(s, s', tx, success);
      case CreateIntent(index, baseAddress) => NewRowMoves(s, s', IntentRow(index, baseAddress, s.now));
    }
  }

  lemma MintWorkerMoves(s: State, e: MintEvent)
    requires MintInv(s)
    ensures Moves(s, MintStep(s, e), 0, Settles(s, MintWorker(e)))
  {
    var s' := MintStep(s, e);
    if s' == s {
      SameSums(s, s');
    } else {
      match e
      case ClaimMint(id) => StatusMoves(s, s', id, DepositStatus.Minting);
      case SettleMint(id) => StatusMoves(s, s', id, s'.deposits[id].status);
      case BroadcastMint(job) => BroadcastMoves(s, s', s'.mints[|s.mints|]);
      case FileMint => FileMoves(s, s');
      case DropMint => DropMoves(s, s');
    }
  }

  lemma FairMoves(cfg: Config, s: State, s': State, e: FairEvent)
    requires MintInv(s) && s' == FairStep(cfg, s, e) && s'.supply == s.supply
    requires s'.mints == s.mints && s'.heldMint == s.heldMint
    ensures Moves(s, s', NewlyOwed(cfg, s, FairWatcher(e)), false)
  {
    if e.RecordDeposit? && CanRecord(cfg, s) {
      RecordWrites(cfg, s, s');
      WriteMoves(s, s', RowAt(s), DepositRow(cfg, s));
    } else {
      SameSums(s, s');
    }
  }

  /** Supply and owed mints together grow only when a deposit is confirmed, and
      by exactly that deposit's amount; no event makes more owed than that. */
  lemma EventMoves(cfg: Config, s: State, e: Event)
    requires MintInv(s)
    ensures Moves(s, Step(cfg, s, e), NewlyOwed(cfg, s, e), Settles(s, e))
  {
    match e
    case Outside(o) => OutsideMoves(cfg, s, o);
    case FairWatcher(f) => FairMoves(cfg, s, FairStep(cfg, s, f), f);
    case MintWorker(m) => MintWorkerMoves(s, m);
    case BaseWatcher(b) => SameSums(s, BaseStep(cfg, s, b));
    case ReleaseWorker(r) => SameSums(s, ReleaseStep(s, r));
  }
}
