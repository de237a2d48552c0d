/** The peg over whole runs: what the bridge took in always covers the WFAIR in
    existence and everything it still owes in either direction. */
module Peg {
  import opened Wrappers
  import opened Money
  import opened Rows
  import opened Sums
  import opened Protocol
  import opened MintLedger
  import opened ReleaseLedger
  import opened Exposure

  // ---- the withdrawal side of the balance ----------------------------------

  /** The release was accepted and no send is on file or in hand for it. */
  function UnsentWeight(s: State, r: nat): nat
    requires r < |s.withdrawals|
  {
    if s.withdrawals[r].Unsent() && CurrentSend(s, r).None? then s.withdrawals[r].amountSats else 0
  }

  function UnsentWeights(s: State): seq<nat> {
    seq(|s.withdrawals|, r requires 0 <= r < |s.withdrawals| => UnsentWeight(s, r))
  }

  function SentWeights(sends: seq<Send>): seq<nat> {
    seq(|sends|, i requires 0 <= i < |sends| => sends[i].sats)
  }

  function LostSendWeights(sends: seq<Send>): seq<nat> {
    seq(|sends|, i requires 0 <= i < |sends| => if sends[i].lost then sends[i].sats else 0)
  }

  function UnrecordedWeights(logs: seq<BurnLog>, withdrawals: seq<Withdrawal>): seq<nat> {
    seq(|logs|, i requires 0 <= i < |logs| => if BurnRecorded(withdrawals, logs[i].key) then 0 else logs[i].wei)
  }

  /** FAIR that left custody. */
  function ReleasedSats(s: State): nat { Sum(SentWeights(s.sends)) }

  /** Accepted releases still to send. */
  function UnsentSats(s: State): nat { Sum(UnsentWeights(s)) }

  /** FAIR sent with a txid the worker lost, which a retry sends again. */
  function LostSendSats(s: State): nat { Sum(LostSendWeights(s.sends)) }

  /** Burns on chain that have no withdrawal row yet. */
  function UnrecordedBurnWei(s: State): nat { Sum(UnrecordedWeights(s.logs, s.withdrawals)) }

  function ReleaseSide(s: State): int { ReleasedSats(s) + UnsentSats(s) - LostSendSats(s) }

  function WithdrawalSide(s: State): int { SATS_TO_WEI * ReleaseSide(s) + UnrecordedBurnWei(s) }

  predicate SameReleases(s: State, s': State) {
    s'.withdrawals == s.withdrawals && s'.sends == s.sends && s'.heldSend == s.heldSend
  }

  lemma SameReleaseSums(s: State, s': State)
    requires SameReleases(s, s')
    ensures ReleaseSide(s') == ReleaseSide(s)
  {
    assert UnsentWeights(s') == UnsentWeights(s);
  }

  /** Sent: what was owed has left custody. */
  lemma SendMoves(s: State, s': State, x: Send)
    requires ReleaseInv(s) && s.heldSend.None? && x.row < |s.withdrawals| && !x.lost
    requires s.withdrawals[x.row].Unsent() && x.sats == s.withdrawals[x.row].amountSats
    requires s'.withdrawals == s.withdrawals && s'.sends == s.sends + [x] && s'.heldSend == Some(|s.sends|)
    ensures ReleaseSide(s') == ReleaseSide(s)
  {
    forall k | 0 <= k < |s.withdrawals| && k != x.row
      ensures UnsentWeights(s')[k] == UnsentWeights(s)[k]
    {
      assert CurrentSend(s', k) == CurrentSend(s, k);
    }
    assert CurrentSend(s, x.row).None? && CurrentSend(s', x.row).Some?;
    SumChange(UnsentWeights(s), UnsentWeights(s'), x.row);
    SumGrow(SentWeights(s.sends), SentWeights(s'.sends));
    SumGrow(LostSendWeights(s.sends), LostSendWeights(s'.sends));
  }

  /** The txid moves from the worker's hands to the row. */
  lemma FileSendMoves(s: State, s': State)
    requires ReleaseInv(s) && s.heldSend.Some?
    requires var r := s.sends[s.heldSend.value].row;
      s'.withdrawals == s.withdrawals[r := s.withdrawals[r].(fairTx := s.heldSend)]
    requires s'.sends == s.sends && s'.heldSend.None?
    ensures ReleaseSide(s') == ReleaseSide(s)
  {
    forall k | 0 <= k < |s.withdrawals|
      ensures UnsentWeights(s')[k] == UnsentWeights(s)[k]
    {
      assert CurrentSend(s', k) == CurrentSend(s, k);
    }
    assert UnsentWeights(s') == UnsentWeights(s);
  }

  /** A lost txid: the release is owed again, and the loss is on the books. */
  lemma DropSendMoves(s: State, s': State)
    requires ReleaseInv(s) && s.heldSend.Some?
    requires s'.withdrawals == s.withdrawals && s'.heldSend.None?
    requires s'.sends == s.sends[s.heldSend.value := s.sends[s.heldSend.value].(lost := true)]
    ensures ReleaseSide(s') == ReleaseSide(s)
  {
    var x := s.heldSend.value;
    var r := s.sends[x].row;
    assert SendOk(s.withdrawals, s.sends[x], x, s.heldSend);
    forall k | 0 <= k < |s.withdrawals| && k != r
      ensures UnsentWeights(s')[k] == UnsentWeights(s)[k]
    {
      assert CurrentSend(s', k) == CurrentSend(s, k);
    }
    SumChange(UnsentWeights(s), UnsentWeights(s'), r);
    assert SentWeights(s'.sends) == SentWeights(s.sends);
    SumChange(LostSendWeights(s.sends), LostSendWeights(s'.sends), x);
  }

  /** Claimed, broadcast or failed: nothing new is owed. */
  lemma RelabelMoves(s: State, s': State, id: nat, status: WithdrawalStatus)
    requires ReleaseInv(s) && id < |s.withdrawals|
    requires s'.withdrawals == s.withdrawals[id := s.withdrawals[id].(status := status)]
    requires s'.sends == s.sends && s'.heldSend == s.heldSend
    requires s.withdrawals[id].status.Confirmed? || s.withdrawals[id].status.Signing?
    ensures ReleaseSide(s') <= ReleaseSide(s)
  {
    forall k | 0 <= k < |s.withdrawals|
      ensures UnsentWeights(s')[k] <= UnsentWeights(s)[k]
    {
      assert CurrentSend(s', k) == CurrentSend(s, k);
    }
    SumLe(UnsentWeights(s'), UnsentWeights(s));
  }

  lemma ReleaseWorkerMoves(s: State, e: ReleaseEvent)
    requires ReleaseInv(s)
    ensures ReleaseSide(ReleaseStep(s, e)) <= ReleaseSide(s)
  {
    var s' := ReleaseStep(s, e);
    if s' != s {
      match e
      case ClaimRelease(id) => RelabelMoves(s, s', id, WithdrawalStatus.Signing);
      case MarkBroadcast(id) => RelabelMoves(s, s', id, WithdrawalStatus.Broadcast);
      case FailRelease(id) => RelabelMoves(s, s', id, WithdrawalStatus.Failed);
      case SendFair(job) => SendMoves(s, s', s'.sends[|s.sends|]);
      case FileSend => FileSendMoves(s, s');
      case DropSend => DropSendMoves(s, s');
    }
  }

  /** The rows keep their keys, so the same burns are unrecorded. */
  lemma SameKeys(logs: seq<BurnLog>, ws: seq<Withdrawal>, ws': seq<Withdrawal>)
    requires |ws| == |ws'| && forall i :: 0 <= i < |ws| ==> ws'[i].key == ws[i].key
    ensures UnrecordedWeights(logs, ws') == UnrecordedWeights(logs, ws)
  {
    forall i | 0 <= i < |logs|
      ensures BurnRecorded(ws', logs[i].key) <==> BurnRecorded(ws, logs[i].key)
    {
      if BurnRecorded(ws, logs[i].key) {
        var k :| 0 <= k < |ws| && ws[k].key == logs[i].key;
        assert ws'[k].key == logs[i].key;
      }
    }
  }

  /** Recording a burn: at most its own worth of release is owed instead. */
  lemma RecordBurnMoves(s: State, s': State, log: nat, w: Withdrawal)
    requires ReleaseInv(s) && log < |s.logs|
    requires w.key == s.logs[log].key && !BurnRecorded(s.withdrawals, w.key)
    requires w.fairTx.None? && (w.status.Failed? || SATS_TO_WEI * w.amountSats <= s.logs[log].wei)
    requires s'.withdrawals == s.withdrawals + [w] && s'.logs == s.logs
    requires s'.sends == s.sends && s'.heldSend == s.heldSend
    ensures WithdrawalSide(s') <= WithdrawalSide(s)
  {
    forall i | 0 <= i < |s.logs|
      ensures UnrecordedWeights(s.logs, s'.withdrawals)[i] <= UnrecordedWeights(s.logs, s.withdrawals)[i]
    {
      if BurnRecorded(s.withdrawals, s.logs[i].key) {
        var k :| 0 <= k < |s.withdrawals| && s.withdrawals[k].key == s.logs[i].key;
        assert s'.withdrawals[k].key == s.logs[i].key;
      }
    }
    assert s'.withdrawals[|s.withdrawals|].key == s.logs[log].key;
    SumDrop(UnrecordedWeights(s.logs, s.withdrawals), UnrecordedWeights(s.logs, s'.withdrawals), log);
    forall k | 0 <= k < |s.withdrawals|
      ensures UnsentWeights(s')[k] == UnsentWeights(s)[k]
    {
      assert CurrentSend(s', k) == CurrentSend(s, k);
    }
    SumGrow(UnsentWeights(s), UnsentWeights(s'));
  }

  lemma NetBelowBurn(cfg: Config, wei: nat)
    ensures SATS_TO_WEI * ApplyFee(wei / SATS_TO_WEI, cfg.feeBps) <= wei
  {
    var gross := wei / SATS_TO_WEI;
    var net := ApplyFee(gross, cfg.feeBps);
    assert SATS_TO_WEI * gross <= wei;
    assert SATS_TO_WEI * net <= SATS_TO_WEI * gross;
  }

  lemma RecordMoves(cfg: Config, s: State, s': State, e: BaseEvent)
    requires ReleaseInv(s) && s' == BaseStep(cfg, s, e) && e.RecordBurn? && CanRecordBurn(s, e.valid)
    ensures WithdrawalSide(s') <= WithdrawalSide(s)
  {
    NetBelowBurn(cfg, TheLog(s).wei);
    RecordBurnMoves(s, s', s.base.scan.value.found[s.base.scan.value.next], WithdrawalRow(cfg, s, e.valid));
  }

  lemma ScanKeepsReleases(cfg: Config, s: State, s': State, e: BaseEvent)
    requires s' == BaseStep(cfg, s, e) && !(e.RecordBurn? && CanRecordBurn(s, e.valid))
    ensures SameReleases(s, s') && s'.logs == s.logs
  {
  }

  lemma BaseWatcherMoves(cfg: Config, s: State, s': State, e: BaseEvent)
    requires ReleaseInv(s) && s' == BaseStep(cfg, s, e)
    ensures WithdrawalSide(s') <= WithdrawalSide(s)
  {
    if e.RecordBurn? && CanRecordBurn(s, e.valid) {
      RecordMoves(cfg, s, s', e);
    } else {
      ScanKeepsReleases(cfg, s, s', e);
      SameReleaseSums(s, s');
    }
  }

  // ---- both sides together -------------------------------------------------

  /** By how much what was taken in exceeds everything owed, in wei. */
  function Slack(s: State): int {
    SATS_TO_WEI * s.received - MintSide(s) - WithdrawalSide(s)
  }

  /** A burn moves its amount from the supply to the burns not yet recorded. */
  lemma BurnKeepsTotal(s: State, e: OutsideEvent, s': State)
    requires s' == OutsideStep(s, e) && e.BridgeBurn? && s' != s
    ensures s'.supply + UnrecordedBurnWei(s') <= s.supply + UnrecordedBurnWei(s) && SameMints(s, s')
  {
    SumGrow(UnrecordedWeights(s.logs, s.withdrawals), UnrecordedWeights(s'.logs, s.withdrawals));
  }

  lemma NoBurnKeepsLogs(s: State, e: OutsideEvent, s': State)
    requires s' == OutsideStep(s, e) && (!e.BridgeBurn? || s' == s)
    ensures s'.logs == s.logs
  {
  }

  lemma OutsideKeepsSlack(cfg: Config, s: State, s': State, e: OutsideEvent)
    requires MintInv(s) && s' == OutsideStep(s, e)
    ensures Slack(s') >= Slack(s)
  {
    SameReleaseSums(s, s');
    if e.BridgeBurn? && s' != s {
      BurnKeepsTotal(s, e, s');
      SameSums(s, s');
    } else {
      OutsideMoves(cfg, s, e);
      NoBurnKeepsLogs(s, e, s');
    }
  }

  /** An accepted deposit brings in at least what is owed for it. */
  lemma NetBelowReceived(cfg: Config, s: State)
    requires CanRecord(cfg, s)
    ensures OwedFor(DepositRow(cfg, s)) <= SATS_TO_WEI * DepositRow(cfg, s).amountSats
  {
  }

  lemma FairReceives(cfg: Config, s: State, s': State, e: FairEvent)
    requires s' == FairStep(cfg, s, e)
    ensures SATS_TO_WEI * s'.received >= SATS_TO_WEI * s.received + NewlyOwed(cfg, s, FairWatcher(e))
  {
    if e.RecordDeposit? && CanRecord(cfg, s) {
      NetBelowReceived(cfg, s);
      assert s'.received == s.received + DepositRow(cfg, s).amountSats;
    }
  }

  lemma FairKeepsSlack(cfg: Config, s: State, s': State, e: FairEvent)
    requires MintInv(s) && s' == FairStep(cfg, s, e) && SameReleases(s, s') && s'.logs == s.logs
    requires s'.supply == s.supply && s'.mints == s.mints && s'.heldMint == s.heldMint
    ensures Slack(s') >= Slack(s)
  {
    FairMoves(cfg, s, s', e);
    FairReceives(cfg, s, s', e);
    SameReleaseSums(s, s');
  }

  lemma FairWatcherKeepsSlack(cfg: Config, s: State, s': State, e: FairEvent)
    requires MintInv(s) && s' == FairStep(cfg, s, e)
    ensures Slack(s') >= Slack(s)
  {
    FairKeepsSlack(cfg, s, s', e);
  }

  lemma MintWorkerKeepsSlack(s: State, s': State, e: MintEvent)
    requires MintInv(s) && s' == MintStep(s, e)
    ensures Slack(s') >= Slack(s)
  {
    MintWorkerMoves(s, e);
    SameReleaseSums(s, s');
  }

  lemma BaseWatcherKeepsSlack(cfg: Config, s: State, s': State, e: BaseEvent)
    requires ReleaseInv(s) && s' == BaseStep(cfg, s, e)
    ensures Slack(s') >= Slack(s)
  {
    SameSums(s, s');
    BaseWatcherMoves(cfg, s, s', e);
  }

  lemma ReleaseWorkerKeepsSlack(s: State, s': State, e: ReleaseEvent)
    requires ReleaseInv(s) && s' == ReleaseStep(s, e)
    ensures Slack(s') >= Slack(s)
  {
    SameSums(s, s');
    ReleaseWorkerMoves(s, e);
    SameKeys(s.logs, s.withdrawals, s'.withdrawals);
  }

  /** No event narrows the margin: a lost send or mint is paid for by the loss
      it is booked as. */
  lemma SlackStep(cfg: Config, s: State, e: Event)
    requires MintInv(s) && ReleaseInv(s)
    ensures Slack(Step(cfg, s, e)) >= Slack(s)
  {
    var s' := Step(cfg, s, e);
    match e
    case Outside(o) => OutsideKeepsSlack(cfg, s, s', o);
    case FairWatcher(f) => FairWatcherKeepsSlack(cfg, s, s', f);
    case MintWorker(m) => MintWorkerKeepsSlack(s, s', m);
    case BaseWatcher(b) => BaseWatcherKeepsSlack(cfg, s, s', b);
    case ReleaseWorker(r) => ReleaseWorkerKeepsSlack(s, s', r);
  }

  // ---- the reserves snapshot -----------------------------------------------

  datatype Snapshot = Snapshot(custodySats: int, supplySats: nat, deltaSats: int, pegHealthy: bool)

  /** `captureSnapshot`. */
  function CaptureSnapshot(custodySats: int, supplyWei: nat): Snapshot {
    var supplySats := supplyWei / SATS_TO_WEI;
    var deltaSats := custodySats - supplySats;
    Snapshot(custodySats, supplySats, deltaSats, deltaSats >= 0)
  }

  /** The snapshot is unhealthy exactly when the supply has more whole sats than are in
      custody, and its delta is by how many. */
  lemma UnhealthyIff(custodySats: int, supplyWei: nat)
    ensures !CaptureSnapshot(custodySats, supplyWei).pegHealthy <==> supplyWei >= (custodySats + 1) * 10_000_000_000
    ensures var snapshot := CaptureSnapshot(custodySats, supplyWei); var owed := snapshot.supplySats;
      && snapshot.custodySats == custodySats && snapshot.deltaSats == custodySats - owed
      && owed * 10_000_000_000 <= supplyWei < (owed + 1) * 10_000_000_000
  {
    var sats := supplyWei / SATS_TO_WEI;
    assert supplyWei == sats * SATS_TO_WEI + supplyWei % SATS_TO_WEI;
    if custodySats < sats {
      assert (custodySats + 1) * SATS_TO_WEI <= sats * SATS_TO_WEI;
    } else {
      assert (custodySats + 1) * SATS_TO_WEI >= sats * SATS_TO_WEI + SATS_TO_WEI;
    }
  }

  /** FAIR received for recorded deposits less FAIR released. */
  function CustodySats(s: State): int { s.received - ReleasedSats(s) }

  /** A margin that is not negative, losses included, makes the snapshot healthy
      by as much as the losses leave. */
  lemma SlackMeansHealthy(s: State)
    requires Slack(s) >= 0
    ensures SATS_TO_WEI * (CustodySats(s) + LostSendSats(s)) + LostMintWei(s)
      >= s.supply + UnexecutedWei(s) + LostPendingWei(s) + UnrecordedBurnWei(s) + SATS_TO_WEI * UnsentSats(s)
    ensures LostSendSats(s) == 0 && LostMintWei(s) == 0 ==> CaptureSnapshot(CustodySats(s), s.supply).pegHealthy
  {
  }
}
