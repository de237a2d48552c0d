/** What ties a deposit row to the mint transactions broadcast for it. */
module MintLedger {
  import opened Wrappers
  import opened Rows
  import opened Sums
  import opened Protocol

  predicate DepositOk(d: Deposit, mints: seq<MintTx>, r: nat) {
    && (d.Open() ==> d.outpoint.None? && d.amountWei == 0)
    && (d.Open() || d.status.Confirmed? ==> d.mintTx.None?)
    && (d.mintTx.Some? ==> d.mintTx.value < |mints| && mints[d.mintTx.value].row == r)
    && (d.status.Minted? ==> d.mintTx.Some? && mints[d.mintTx.value].outcome.Success?)
    && (d.status.Failed? && d.mintTx.Some? ==> mints[d.mintTx.value].outcome.Reverted?)
  }

  /** A mint pays its own row's recipient the row's amount, and its hash is in
      exactly one place: on the row, in the worker's hands, or lost. */
  predicate MintOk(deposits: seq<Deposit>, m: MintTx, i: nat, held: Option<nat>) {
    && m.row < |deposits|
    && m.wei == deposits[m.row].amountWei
    && m.to == deposits[m.row].baseAddress
    && (deposits[m.row].status.Minting? || deposits[m.row].status.Minted? || deposits[m.row].status.Failed?)
    && (deposits[m.row].status.Failed? ==> deposits[m.row].mintTx.Some?)
    && (m.lost <==> deposits[m.row].mintTx != Some(i) && held != Some(i))
  }

  predicate HeldMintOk(deposits: seq<Deposit>, mints: seq<MintTx>, held: Option<nat>) {
    held.Some? ==>
      && held.value < |mints|
      && mints[held.value].row < |deposits|
      && deposits[mints[held.value].row].status.Minting?
      && deposits[mints[held.value].row].mintTx.None?
  }

  predicate MintJobOk(deposits: seq<Deposit>, job: MintJob) {
    && job.depositId < |deposits|
    && !deposits[job.depositId].Open()
    && job == MintJobOf(deposits, job.depositId)
  }

  predicate MintInv(s: State) {
    && (forall r :: 0 <= r < |s.deposits| ==> DepositOk(s.deposits[r], s.mints, r))
    && (forall i :: 0 <= i < |s.mints| ==> MintOk(s.deposits, s.mints[i], i, s.heldMint))
    && HeldMintOk(s.deposits, s.mints, s.heldMint)
    && (forall job :: job in s.mintJobs ==> MintJobOk(s.deposits, job))
  }

  lemma WriteKeepsMintInv(s: State, s': State, at: nat, row: Deposit)
    requires MintInv(s) && Wrote(s, s', at, row)
    ensures MintInv(s')
  {
    forall r | 0 <= r < |s'.deposits|
      ensures DepositOk(s'.deposits[r], s'.mints, r)
    {
      assert r != at ==> s'.deposits[r] == s.deposits[r] && DepositOk(s.deposits[r], s.mints, r);
    }
    forall i | 0 <= i < |s'.mints|
      ensures MintOk(s'.deposits, s'.mints[i], i, s'.heldMint)
    {
      assert MintOk(s.deposits, s.mints[i], i, s.heldMint) && s.mints[i].row != at;
    }
    forall job | job in s'.mintJobs ensures MintJobOk(s'.deposits, job) { assert MintJobOk(s.deposits, job); }
  }

  lemma EnqueueQueuesTheRow(cfg: Config, s: State, s': State, id: nat)
    requires s' == FairStep(cfg, s, EnqueueMint(id))
    ensures forall job :: job in s'.mintJobs && job !in s.mintJobs ==> MintJobOk(s.deposits, job)
  {
  }

  lemma ReadsKeepMintInv(cfg: Config, s: State, s': State, e: FairEvent)
    requires MintInv(s) && s' == FairStep(cfg, s, e) && !(e.RecordDeposit? && CanRecord(cfg, s))
    requires s'.mints == s.mints && s'.heldMint == s.heldMint
    ensures MintInv(s')
  {
    if e.EnqueueMint? { EnqueueQueuesTheRow(cfg, s, s', e.id); }
    forall job | job in s'.mintJobs
      ensures MintJobOk(s'.deposits, job)
    {
      assert job in s.mintJobs ==> MintJobOk(s.deposits, job);
    }
  }

  /** One row's status changed, and everything said of its mints still holds. */
  lemma StatusKeepsMintInv(s: State, s': State, id: nat, status: DepositStatus)
    requires MintInv(s) && id < |s.deposits|
    requires s'.deposits == s.deposits[id := s.deposits[id].(status := status)]
    requires s'.mints == s.mints && s'.heldMint == s.heldMint && s'.mintJobs == s.mintJobs
    requires DepositOk(s'.deposits[id], s.mints, id) && !s.deposits[id].Open()
    requires status.Minting? || ((status.Minted? || status.Failed?) && s.deposits[id].mintTx.Some?)
    ensures MintInv(s')
  {
    forall r | 0 <= r < |s'.deposits|
      ensures DepositOk(s'.deposits[r], s'.mints, r)
    {
      assert DepositOk(s.deposits[r], s.mints, r);
    }
    forall i | 0 <= i < |s'.mints|
      ensures MintOk(s'.deposits, s'.mints[i], i, s'.heldMint)
    {
      assert MintOk(s.deposits, s.mints[i], i, s.heldMint);
    }
    forall job | job in s'.mintJobs
      ensures MintJobOk(s'.deposits, job)
    {
      assert MintJobOk(s.deposits, job);
    }
  }

  lemma ClaimKeepsMintInv(s: State, s': State, e: MintEvent)
    requires MintInv(s) && (e.ClaimMint? || e.SettleMint?) && s' == MintStep(s, e)
    ensures MintInv(s')
  {
    if e.id < |s.deposits| {
      assert DepositOk(s.deposits[e.id], s.mints, e.id);
      if s'.deposits != s.deposits { StatusKeepsMintInv(s, s', e.id, s'.deposits[e.id].status); }
    }
  }

  lemma BroadcastKeepsMintInv(s: State, e: MintEvent)
    requires MintInv(s) && e.BroadcastMint?
    ensures MintInv(MintStep(s, e))
  {
  }

  lemma FileKeepsMintInv(s: State, e: MintEvent)
    requires MintInv(s) && (e.FileMint? || e.DropMint?)
    ensures MintInv(MintStep(s, e))
  {
  }

  /** Execution settles no row, and new rows are intents. */
  lemma MiningKeepsMintInv(s: State, s': State)
    requires MintInv(s) && MintsMined(s, s') && s'.heldMint == s.heldMint && s'.mintJobs == s.mintJobs
    ensures MintInv(s')
  {
    forall r | 0 <= r < |s'.deposits|
      ensures DepositOk(s'.deposits[r], s'.mints, r)
    {
      if r < |s.deposits| {
        assert DepositOk(s.deposits[r], s.mints, r);
        if s.deposits[r].mintTx.Some? {
          assert SameMint(s.mints[s.deposits[r].mintTx.value], s'.mints[s.deposits[r].mintTx.value]);
        }
      }
    }
    forall i | 0 <= i < |s'.mints|
      ensures MintOk(s'.deposits, s'.mints[i], i, s'.heldMint)
    {
      assert MintOk(s.deposits, s.mints[i], i, s.heldMint) && SameMint(s.mints[i], s'.mints[i]);
    }
    if s.heldMint.Some? { assert SameMint(s.mints[s.heldMint.value], s'.mints[s.heldMint.value]); }
    forall job | job in s'.mintJobs ensures MintJobOk(s'.deposits, job) { assert MintJobOk(s.deposits, job); }
  }

  lemma OutsideKeepsMintInv(s: State, e: OutsideEvent)
    requires MintInv(s)
    ensures MintInv(OutsideStep(s, e))
  {
    OutsideOnlyMines(s, e, OutsideStep(s, e));
    MiningKeepsMintInv(s, OutsideStep(s, e));
  }

  lemma OthersKeepMintInv(cfg: Config, s: State, b: BaseEvent, r: ReleaseEvent)
    requires MintInv(s)
    ensures MintInv(BaseStep(cfg, s, b)) && MintInv(ReleaseStep(s, r))
  {
  }

  lemma MintInvStep(cfg: Config, s: State, e: Event)
    requires MintInv(s)
    ensures MintInv(Step(cfg, s, e))
  {
    match e
    case Outside(o) => OutsideKeepsMintInv(s, o);
    case FairWatcher(f) =>
      if f.RecordDeposit? && CanRecord(cfg, s) {
        RecordWrites(cfg, s, Step(cfg, s, e));
        WriteKeepsMintInv(s, Step(cfg, s, e), RowAt(s), DepositRow(cfg, s));
      } else {
        ReadsKeepMintInv(cfg, s, Step(cfg, s, e), f);
      }
    case MintWorker(m) =>
      if m.BroadcastMint? { BroadcastKeepsMintInv(s, m); }
      else if m.FileMint? || m.DropMint? { FileKeepsMintInv(s, m); }
      else { ClaimKeepsMintInv(s, Step(cfg, s, e), m); }
    case BaseWatcher(b) => OthersKeepMintInv(cfg, s, b, DropSend);
    case ReleaseWorker(r) => OthersKeepMintInv(cfg, s, DropBaseScan, r);
  }

  // ---- accounting ----------------------------------------------------------

  function BroadcastFlags(mints: seq<MintTx>, r: nat): seq<nat> {
    seq(|mints|, i requires 0 <= i < |mints| => if mints[i].row == r then 1 else 0)
  }

  function LostFlags(mints: seq<MintTx>, r: nat): seq<nat> {
    seq(|mints|, i requires 0 <= i < |mints| => if mints[i].row == r && mints[i].lost then 1 else 0)
  }

  function Broadcasts(mints: seq<MintTx>, r: nat): nat { Sum(BroadcastFlags(mints, r)) }

  function LostMints(mints: seq<MintTx>, r: nat): nat { Sum(LostFlags(mints, r)) }

  /** The one mint of a row that is still accounted for: on file, or in the
      worker's hands between the broadcast and the write. */
  function CurrentMint(s: State, r: nat): Option<nat>
    requires r < |s.deposits|
  {
    if s.deposits[r].mintTx.Some? then s.deposits[r].mintTx
    else if s.heldMint.Some? && s.heldMint.value < |s.mints| && s.mints[s.heldMint.value].row == r then s.heldMint
    else None
  }

  /** Every broadcast for a deposit is on file, in the worker's hands, or lost. */
  lemma MintAccounting(s: State, r: nat)
    requires MintInv(s) && r < |s.deposits|
    ensures Broadcasts(s.mints, r) == LostMints(s.mints, r) + (if CurrentMint(s, r).Some? then 1 else 0)
  {
    forall i | 0 <= i < |s.mints|
      ensures BroadcastFlags(s.mints, r)[i]
           == LostFlags(s.mints, r)[i] + (if CurrentMint(s, r) == Some(i) then 1 else 0)
    {
      assert MintOk(s.deposits, s.mints[i], i, s.heldMint);
    }
    assert DepositOk(s.deposits[r], s.mints, r);
    SumKept(BroadcastFlags(s.mints, r), LostFlags(s.mints, r), CurrentMint(s, r));
  }

  /** What no event may do to a deposit row. */
  predicate DepositKept(d: Deposit, d': Deposit) {
    && (d.mintTx.Some? ==> d'.mintTx == d.mintTx)
    && (d.status.Minted? || d.status.Failed? ==> d' == d)
    && (!d.Open() ==> !d'.Open() && d' == d.(status := d'.status, mintTx := d'.mintTx))
  }

  predicate DepositsKept(deposits: seq<Deposit>, deposits': seq<Deposit>) {
    |deposits| <= |deposits'| && forall r :: 0 <= r < |deposits| ==> DepositKept(deposits[r], deposits'[r])
  }

  lemma MintWorkerKeepsDeposits(s: State, e: MintEvent)
    requires MintInv(s)
    ensures DepositsKept(s.deposits, MintStep(s, e).deposits)
  {
    if e.SettleMint? && e.id < |s.deposits| { assert DepositOk(s.deposits[e.id], s.mints, e.id); }
  }

  lemma WriteKeepsDeposits(s: State, s': State, at: nat, row: Deposit)
    requires MintInv(s) && Wrote(s, s', at, row)
    ensures DepositsKept(s.deposits, s'.deposits)
  {
    if at < |s.deposits| { assert DepositOk(s.deposits[at], s.mints, at); }
  }

  lemma FairWatcherKeepsDeposits(cfg: Config, s: State, s': State, e: FairEvent)
    requires MintInv(s) && s' == FairStep(cfg, s, e)
    ensures DepositsKept(s.deposits, s'.deposits)
  {
    if e.RecordDeposit? && CanRecord(cfg, s) {
      RecordWrites(cfg, s, s');
      WriteKeepsDeposits(s, s', RowAt(s), DepositRow(cfg, s));
    }
  }

  lemma OthersKeepDeposits(cfg: Config, s: State, e: Event)
    requires !e.MintWorker? && !e.FairWatcher?
    ensures DepositsKept(s.deposits, Step(cfg, s, e).deposits)
  {
  }

  /** The mint hash is written once; MINTED and FAILED rows never change; a row
      that left its intent slot keeps its recipient, outpoint and amounts. */
  lemma MintColumnsWriteOnce(cfg: Config, s: State, e: Event)
    requires MintInv(s)
    ensures DepositsKept(s.deposits, Step(cfg, s, e).deposits)
  {
    match e
    case MintWorker(m) => MintWorkerKeepsDeposits(s, m);
    case FairWatcher(f) => FairWatcherKeepsDeposits(cfg, s, Step(cfg, s, e), f);
    case _ => OthersKeepDeposits(cfg, s, e);
  }
}
