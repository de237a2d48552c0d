/** What a worker may rely on between two of its own atomic operations, while
    any events of the other actors and of the outside world happen. */
module Interference {
  import opened Rows
  import opened Protocol
  import opened MintLedger

  datatype Actor = Fair | Mint | Base | Release | World

  function ActorOf(e: Event): Actor {
    match e
    case Outside(_) => World
    case FairWatcher(_) => Fair
    case MintWorker(_) => Mint
    case BaseWatcher(_) => Base
    case ReleaseWorker(_) => Release
  }

  /** The deposit scanner owns the cursor, its memory, the queueing of mints
      and the open slots; others add intent rows and relabel claimed rows. */
  predicate FairRelies(s: State, s': State) {
    && s.fairBlocks <= s'.fairBlocks && s'.fairCursor == s.fairCursor && s'.scanned == s.scanned
    && s'.fair == s.fair
    && s'.mintJobs == s.mintJobs && s'.received == s.received && s.addressCache <= s'.addressCache
    && |s.deposits| <= |s'.deposits|
    && (forall i :: 0 <= i < |s.deposits| ==> SameDeposit(s.deposits[i], s'.deposits[i]))
    && (forall i :: |s.deposits| <= i < |s'.deposits| ==> s'.deposits[i].outpoint.None?)
  }

  predicate SameDeposit(d: Deposit, d': Deposit) {
    && d' == d.(status := d'.status, mintTx := d'.mintTx)
    && (d.Open() ==> d' == d)
    && (d'.Open() ==> d.Open())
  }

  /** The mint worker owns the rows that left their slot and the mints it made;
      the chain executes them. */
  predicate MintRelies(s: State, s': State) {
    && s'.heldMint == s.heldMint && s.mintJobs <= s'.mintJobs
    && |s'.mints| == |s.mints|
    && (forall i :: 0 <= i < |s.mints| ==> SameMint(s.mints[i], s'.mints[i]))
    && |s.deposits| <= |s'.deposits|
    && (forall i :: 0 <= i < |s.deposits| && !s.deposits[i].Open() ==> s'.deposits[i] == s.deposits[i])
  }

  /** The burn scanner owns the cursor, its window, its reading and the creation of
      withdrawal rows; the abort flag, once up, stays up. */
  predicate BaseRelies(s: State, s': State) {
    && s.logs <= s'.logs && s.baseTip <= s'.baseTip && s'.baseCursor == s.baseCursor && s.now <= s'.now
    && (forall i :: |s.logs| <= i < |s'.logs| ==> s'.logs[i].block > s.baseTip)
    && s'.base == s.base && s'.missed == s.missed && (s.aborted ==> s'.aborted) && s'.releaseJobs == s.releaseJobs
    && WithdrawalsRelabelled(s.withdrawals, s'.withdrawals)
  }

  /** The release worker owns the rows there are and the sends. */
  predicate ReleaseRelies(s: State, s': State) {
    && s.withdrawals <= s'.withdrawals && s'.sends == s.sends && s'.heldSend == s.heldSend
    && s.releaseJobs <= s'.releaseJobs
  }

  predicate Relies(self: Actor, s: State, s': State) {
    match self
    case Fair => FairRelies(s, s')
    case Mint => MintRelies(s, s')
    case Base => BaseRelies(s, s')
    case Release => ReleaseRelies(s, s')
    case World => true
  }

  lemma ReliesIsTransitive(self: Actor, s: State, t: State, u: State)
    requires Relies(self, s, t) && Relies(self, t, u)
    ensures Relies(self, s, u)
  {
    match self
    case Fair =>
      forall i | 0 <= i < |s.deposits|
        ensures SameDeposit(s.deposits[i], u.deposits[i])
      {
        assert SameDeposit(s.deposits[i], t.deposits[i]) && SameDeposit(t.deposits[i], u.deposits[i]);
      }
    case Mint =>
      forall i | 0 <= i < |s.mints|
        ensures SameMint(s.mints[i], u.mints[i])
      {
        assert SameMint(s.mints[i], t.mints[i]) && SameMint(t.mints[i], u.mints[i]);
      }
    case _ =>
  }

  lemma OutsideRespectsFair(s: State, e: OutsideEvent, s': State)
    requires s' == OutsideStep(s, e)
    ensures FairRelies(s, s')
  {
    OutsideOnlyMines(s, e, s');
  }

  lemma OutsideRespectsMint(s: State, e: OutsideEvent, s': State)
    requires s' == OutsideStep(s, e)
    ensures MintRelies(s, s')
  {
    OutsideOnlyMines(s, e, s');
  }

  lemma OutsideRespectsBase(s: State, e: OutsideEvent, s': State)
    requires s' == OutsideStep(s, e)
    ensures BaseRelies(s, s')
  {
  }

  lemma OthersRespectFair(cfg: Config, s: State, e: Event)
    requires MintInv(s) && ActorOf(e) != Fair
    ensures FairRelies(s, Step(cfg, s, e))
  {
    match e
    case Outside(o) => OutsideRespectsFair(s, o, OutsideStep(s, o));
    case MintWorker(m) => MintWorkerRespectsSlots(s, m);
    case BaseWatcher(b) => assert SameDepositSide(s, BaseStep(cfg, s, b));
    case ReleaseWorker(r) => assert SameDepositSide(s, ReleaseStep(s, r));
  }

  lemma MintWorkerRespectsSlots(s: State, e: MintEvent)
    requires MintInv(s)
    ensures FairRelies(s, MintStep(s, e))
  {
  }

  lemma WriteRespectsMint(s: State, s': State, at: nat, row: Deposit)
    requires Wrote(s, s', at, row)
    ensures MintRelies(s, s')
  {
  }

  lemma FairQueues(cfg: Config, s: State, s': State, e: FairEvent)
    requires s' == FairStep(cfg, s, e)
    ensures s.mintJobs <= s'.mintJobs
  {
    if e.EnqueueMint? { EnqueueAdds(cfg, s, s', e.id); }
  }

  lemma EnqueueAdds(cfg: Config, s: State, s': State, id: nat)
    requires s' == FairStep(cfg, s, EnqueueMint(id))
    ensures s.mintJobs <= s'.mintJobs
  {
  }

  lemma FairRespectsMint(cfg: Config, s: State, s': State, e: FairEvent)
    requires s' == FairStep(cfg, s, e) && s'.mints == s.mints && s'.heldMint == s.heldMint
    ensures MintRelies(s, s')
  {
    if e.RecordDeposit? && CanRecord(cfg, s) {
      RecordWrites(cfg, s, s');
      WriteRespectsMint(s, s', RowAt(s), DepositRow(cfg, s));
    } else {
      FairQueues(cfg, s, s', e);
    }
  }

  lemma OthersRespectMint(cfg: Config, s: State, e: Event)
    requires ActorOf(e) != Mint
    ensures MintRelies(s, Step(cfg, s, e))
  {
    match e
    case Outside(o) => OutsideRespectsMint(s, o, OutsideStep(s, o));
    case FairWatcher(f) => FairRespectsMint(cfg, s, FairStep(cfg, s, f), f);
    case BaseWatcher(b) => assert SameDepositSide(s, BaseStep(cfg, s, b));
    case ReleaseWorker(r) => assert SameDepositSide(s, ReleaseStep(s, r));
  }

  lemma OthersRespectBase(cfg: Config, s: State, e: Event)
    requires ActorOf(e) != Base
    ensures BaseRelies(s, Step(cfg, s, e))
  {
    match e
    case Outside(o) => OutsideRespectsBase(s, o, OutsideStep(s, o));
    case FairWatcher(f) => assert SameWithdrawalSide(s, FairStep(cfg, s, f));
    case MintWorker(m) => assert SameWithdrawalSide(s, MintStep(s, m));
    case ReleaseWorker(r) => assert SameDepositSide(s, ReleaseStep(s, r));
  }

  lemma BaseRespectsRelease(cfg: Config, s: State, e: BaseEvent, s': State)
    requires s' == BaseStep(cfg, s, e)
    ensures ReleaseRelies(s, s')
  {
  }

  lemma OthersRespectRelease(cfg: Config, s: State, e: Event)
    requires ActorOf(e) != Release
    ensures ReleaseRelies(s, Step(cfg, s, e))
  {
    match e
    case Outside(o) => assert OutsideStep(s, o).withdrawals == s.withdrawals;
    case FairWatcher(f) => assert SameWithdrawalSide(s, FairStep(cfg, s, f));
    case MintWorker(m) => assert SameWithdrawalSide(s, MintStep(s, m));
    case BaseWatcher(b) => BaseRespectsRelease(cfg, s, b, BaseStep(cfg, s, b));
  }

  /** No other actor does what a worker relies on not being done. */
  lemma OthersRespect(cfg: Config, self: Actor, s: State, e: Event)
    requires MintInv(s) && ActorOf(e) != self
    ensures Relies(self, s, Step(cfg, s, e))
  {
    match self
    case Fair => OthersRespectFair(cfg, s, e);
    case Mint => OthersRespectMint(cfg, s, e);
    case Base => OthersRespectBase(cfg, s, e);
    case Release => OthersRespectRelease(cfg, s, e);
    case World =>
  }
}
