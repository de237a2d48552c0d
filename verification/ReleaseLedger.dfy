/** What ties a withdrawal row to the FairCoin sends made for it. */
module ReleaseLedger {
  import opened Wrappers
  import opened Rows
  import opened Sums
  import opened Protocol

  predicate WithdrawalOk(w: Withdrawal, sends: seq<Send>, r: nat) {
    && !w.status.Detected?
    && (w.fairTx.Some? ==> w.fairTx.value < |sends| && sends[w.fairTx.value].row == r)
    && (w.status.Broadcast? || w.status.Final? ==> w.fairTx.Some?)
    && (w.status.Confirmed? || w.status.Failed? ==> w.fairTx.None?)
  }

  /** A send pays its own row's destination the row's amount, and its txid is
      in exactly one place: on the row, in the worker's hands, or lost. */
  predicate SendOk(withdrawals: seq<Withdrawal>, x: Send, i: nat, held: Option<nat>) {
    && x.row < |withdrawals|
    && x.sats == withdrawals[x.row].amountSats
    && x.destination == withdrawals[x.row].destination
    && !withdrawals[x.row].status.Confirmed?
    && (x.lost <==> withdrawals[x.row].fairTx != Some(i) && held != Some(i))
  }

  predicate HeldSendOk(withdrawals: seq<Withdrawal>, sends: seq<Send>, held: Option<nat>) {
    held.Some? ==>
      && held.value < |sends|
      && sends[held.value].row < |withdrawals|
      && withdrawals[sends[held.value].row].status.Signing?
      && withdrawals[sends[held.value].row].fairTx.None?
  }

  predicate ReleaseJobOk(withdrawals: seq<Withdrawal>, job: ReleaseJob) {
    job.withdrawalId < |withdrawals| && job == ReleaseJobOf(withdrawals, job.withdrawalId)
  }

  predicate ReleaseInv(s: State) {
    && (forall r :: 0 <= r < |s.withdrawals| ==> WithdrawalOk(s.withdrawals[r], s.sends, r))
    && (forall i :: 0 <= i < |s.sends| ==> SendOk(s.withdrawals, s.sends[i], i, s.heldSend))
    && HeldSendOk(s.withdrawals, s.sends, s.heldSend)
    && (forall job :: job in s.releaseJobs ==> ReleaseJobOk(s.withdrawals, job))
  }

  lemma RelabelKeepsReleaseInv(s: State, s': State, id: nat, status: WithdrawalStatus)
    requires ReleaseInv(s) && id < |s.withdrawals| && !status.Detected? && !status.Confirmed?
    requires s'.withdrawals == s.withdrawals[id := s.withdrawals[id].(status := status)]
    requires s'.sends == s.sends && s'.heldSend == s.heldSend && s'.releaseJobs == s.releaseJobs
    requires status.Broadcast? || status.Final? <==> s.withdrawals[id].fairTx.Some?
    requires s.heldSend.Some? && s.heldSend.value < |s.sends| && s.sends[s.heldSend.value].row == id ==> status.Signing?
    ensures ReleaseInv(s')
  {
    forall r | 0 <= r < |s'.withdrawals| ensures WithdrawalOk(s'.withdrawals[r], s'.sends, r) {
      assert WithdrawalOk(s.withdrawals[r], s.sends, r);
    }
    forall i | 0 <= i < |s'.sends| ensures SendOk(s'.withdrawals, s'.sends[i], i, s'.heldSend) {
      assert SendOk(s.withdrawals, s.sends[i], i, s.heldSend);
    }
    forall job | job in s'.releaseJobs
      ensures ReleaseJobOk(s'.withdrawals, job)
    {
      assert ReleaseJobOk(s.withdrawals, job);
    }
  }

  lemma ClaimKeepsReleaseInv(s: State, s': State, e: ReleaseEvent)
    requires ReleaseInv(s) && (e.ClaimRelease? || e.MarkBroadcast? || e.FailRelease?) && s' == ReleaseStep(s, e)
    ensures ReleaseInv(s')
  {
    if s' != s {
      match e
      case ClaimRelease(id) => RelabelKeepsReleaseInv(s, s', id, WithdrawalStatus.Signing);
      case MarkBroadcast(id) => RelabelKeepsReleaseInv(s, s', id, WithdrawalStatus.Broadcast);
      case FailRelease(id) => RelabelKeepsReleaseInv(s, s', id, WithdrawalStatus.Failed);
    }
  }

  lemma SendKeepsReleaseInv(s: State, e: ReleaseEvent)
    requires ReleaseInv(s) && e.SendFair?
    ensures ReleaseInv(ReleaseStep(s, e))
  {
  }

  lemma FileKeepsReleaseInv(s: State, e: ReleaseEvent)
    requires ReleaseInv(s) && (e.FileSend? || e.DropSend?)
    ensures ReleaseInv(ReleaseStep(s, e))
  {
  }

  lemma BaseKeepsReleaseInv(cfg: Config, s: State, e: BaseEvent)
    requires ReleaseInv(s)
    ensures ReleaseInv(BaseStep(cfg, s, e))
  {
  }

  lemma OthersKeepReleaseInv(cfg: Config, s: State, o: OutsideEvent, f: FairEvent, m: MintEvent)
    requires ReleaseInv(s)
    ensures ReleaseInv(OutsideStep(s, o)) && ReleaseInv(FairStep(cfg, s, f)) && ReleaseInv(MintStep(s, m))
  {
  }

  lemma ReleaseInvStep(cfg: Config, s: State, e: Event)
    requires ReleaseInv(s)
    ensures ReleaseInv(Step(cfg, s, e))
  {
    match e
    case Outside(o) => OthersKeepReleaseInv(cfg, s, o, DropFairScan, DropMint);
    case FairWatcher(f) => OthersKeepReleaseInv(cfg, s, MineBase, f, DropMint);
    case MintWorker(m) => OthersKeepReleaseInv(cfg, s, MineBase, DropFairScan, m);
    case BaseWatcher(b) => BaseKeepsReleaseInv(cfg, s, b);
    case ReleaseWorker(r) =>
      if r.SendFair? { SendKeepsReleaseInv(s, r); }
      else if r.FileSend? || r.DropSend? { FileKeepsReleaseInv(s, r); }
      else { ClaimKeepsReleaseInv(s, ReleaseStep(s, r), r); }
  }

  // ---- accounting ----------------------------------------------------------

  function SendFlags(sends: seq<Send>, r: nat): seq<nat> {
    seq(|sends|, i requires 0 <= i < |sends| => if sends[i].row == r then 1 else 0)
  }

  function LostFlags(sends: seq<Send>, r: nat): seq<nat> {
    seq(|sends|, i requires 0 <= i < |sends| => if sends[i].row == r && sends[i].lost then 1 else 0)
  }

  function SendCount(sends: seq<Send>, r: nat): nat { Sum(SendFlags(sends, r)) }

  function LostSends(sends: seq<Send>, r: nat): nat { Sum(LostFlags(sends, r)) }

  /** The one send of a row that is still accounted for. */
  function CurrentSend(s: State, r: nat): Option<nat>
    requires r < |s.withdrawals|
  {
    if s.withdrawals[r].fairTx.Some? then s.withdrawals[r].fairTx
    else if s.heldSend.Some? && s.heldSend.value < |s.sends| && s.sends[s.heldSend.value].row == r then s.heldSend
    else None
  }

  /** Every send for a withdrawal is on file, in the worker's hands, or lost. */
  lemma SendAccounting(s: State, r: nat)
    requires ReleaseInv(s) && r < |s.withdrawals|
    ensures SendCount(s.sends, r) == LostSends(s.sends, r) + (if CurrentSend(s, r).Some? then 1 else 0)
  {
    forall i | 0 <= i < |s.sends|
      ensures SendFlags(s.sends, r)[i]
           == LostFlags(s.sends, r)[i] + (if CurrentSend(s, r) == Some(i) then 1 else 0)
    {
      assert SendOk(s.withdrawals, s.sends[i], i, s.heldSend);
    }
    assert WithdrawalOk(s.withdrawals[r], s.sends, r);
    SumKept(SendFlags(s.sends, r), LostFlags(s.sends, r), CurrentSend(s, r));
  }

  /** What no event may do to a withdrawal row. */
  predicate WithdrawalKept(w: Withdrawal, w': Withdrawal) {
    && (w.fairTx.Some? ==> w'.fairTx == w.fairTx)
    && (w.status.Failed? ==> w' == w)
    && w' == w.(status := w'.status, fairTx := w'.fairTx)
  }

  predicate WithdrawalsKept(withdrawals: seq<Withdrawal>, withdrawals': seq<Withdrawal>) {
    |withdrawals| <= |withdrawals'|
    && forall r :: 0 <= r < |withdrawals| ==> WithdrawalKept(withdrawals[r], withdrawals'[r])
  }

  lemma ReleaseWorkerKeepsWithdrawals(s: State, e: ReleaseEvent)
    requires ReleaseInv(s)
    ensures WithdrawalsKept(s.withdrawals, ReleaseStep(s, e).withdrawals)
  {
  }

  lemma BaseKeepsWithdrawals(cfg: Config, s: State, e: BaseEvent)
    ensures WithdrawalsKept(s.withdrawals, BaseStep(cfg, s, e).withdrawals)
  {
  }

  lemma OthersKeepWithdrawals(cfg: Config, s: State, e: Event)
    requires !e.ReleaseWorker?
    ensures WithdrawalsKept(s.withdrawals, Step(cfg, s, e).withdrawals)
  {
    match e
    case Outside(o) => assert OutsideStep(s, o).withdrawals == s.withdrawals;
    case FairWatcher(f) => assert SameWithdrawalSide(s, FairStep(cfg, s, f));
    case MintWorker(m) => assert SameWithdrawalSide(s, MintStep(s, m));
    case BaseWatcher(b) => BaseKeepsWithdrawals(cfg, s, b);
  }

  /** `fairTxid` is written once; FAILED is terminal; the burn's own columns never change. */
  lemma ReleaseColumnsWriteOnce(cfg: Config, s: State, e: Event)
    requires ReleaseInv(s)
    ensures WithdrawalsKept(s.withdrawals, Step(cfg, s, e).withdrawals)
  {
    if e.ReleaseWorker? { ReleaseWorkerKeepsWithdrawals(s, e.release); } else { OthersKeepWithdrawals(cfg, s, e); }
  }

  /** Nothing was ever sent for the row. */
  predicate NeverSent(sends: seq<Send>, r: nat) {
    forall x :: 0 <= x < |sends| ==> sends[x].row != r
  }

  lemma FailedIsNotSent(s: State, s': State, e: ReleaseEvent, r: nat)
    requires s' == ReleaseStep(s, e) && r < |s.withdrawals| && s.withdrawals[r].status.Failed? && NeverSent(s.sends, r)
    ensures NeverSent(s'.sends, r)
  {
  }

  /** A FAILED row that nothing was sent for stays so. */
  lemma FailedStaysUnsent(cfg: Config, s: State, e: Event, r: nat)
    requires ReleaseInv(s) && r < |s.withdrawals| && s.withdrawals[r].status.Failed? && NeverSent(s.sends, r)
    ensures var s' := Step(cfg, s, e);
      r < |s'.withdrawals| && s'.withdrawals[r] == s.withdrawals[r] && NeverSent(s'.sends, r)
  {
    ReleaseColumnsWriteOnce(cfg, s, e);
    assert WithdrawalKept(s.withdrawals[r], Step(cfg, s, e).withdrawals[r]);
    match e
    case Outside(o) => assert OutsideStep(s, o).sends == s.sends;
    case FairWatcher(f) => assert SameWithdrawalSide(s, FairStep(cfg, s, f));
    case MintWorker(m) => assert SameWithdrawalSide(s, MintStep(s, m));
    case BaseWatcher(b) => assert BaseStep(cfg, s, b).sends == s.sends;
    case ReleaseWorker(w) => FailedIsNotSent(s, ReleaseStep(s, w), w, r);
  }
}
