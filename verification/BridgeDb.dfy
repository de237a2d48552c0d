/** The database, the chains and the processes' memory as one mutable store.
    Each method of `Bridge` is one atomic operation of the service and is one
    event of the protocol; `Others` is whatever happens between two of them. */
module BridgeDb {
  import opened Wrappers
  import opened Rows
  import opened Protocol
  import opened MintLedger
  import opened ReleaseLedger
  import opened Runs
  import opened Interference
  import opened Environment

  method AnyEvent() returns (e: Event) { e := *; }

  /** The states are those the run of the events passes through. */
  predicate Passes(cfg: Config, start: State, events: seq<Event>, past: seq<State>) {
    && |past| == |events| + 1 && past[0] == start
    && forall n :: 0 <= n < |events| ==> LeadsOn(cfg, events, past, n)
  }

  predicate LeadsOn(cfg: Config, events: seq<Event>, past: seq<State>, n: nat)
    requires n < |events| && n + 1 < |past|
  {
    past[n + 1] == Step(cfg, past[n], events[n])
  }

  lemma PassesOn(cfg: Config, start: State, events: seq<Event>, past: seq<State>, e: Event, s: State)
    requires Passes(cfg, start, events, past) && s == Step(cfg, past[|events|], e)
    ensures Passes(cfg, start, events + [e], past + [s])
  {
    forall n | 0 <= n < |events|
      ensures LeadsOn(cfg, events + [e], past + [s], n)
    {
      assert LeadsOn(cfg, events, past, n);
    }
  }

  /** The last of them is where the run leads. */
  lemma {:induction false} PassesTo(cfg: Config, start: State, events: seq<Event>, past: seq<State>)
    requires Passes(cfg, start, events, past)
    ensures past[|events|] == Run(cfg, start, events)
  {
    if events != [] {
      var n := |events| - 1;
      PassesBefore(cfg, start, events, past);
      PassesTo(cfg, start, events[..n], past[..n + 1]);
      assert LeadsOn(cfg, events, past, n);
    }
  }

  lemma PassesBefore(cfg: Config, start: State, events: seq<Event>, past: seq<State>)
    requires Passes(cfg, start, events, past) && events != []
    ensures Passes(cfg, start, events[..|events| - 1], past[..|events|])
  {
    var es, ps := events[..|events| - 1], past[..|events|];
    forall n | 0 <= n < |es|
      ensures LeadsOn(cfg, es, ps, n)
    {
      assert LeadsOn(cfg, events, past, n);
    }
  }

  lemma WindowBegins(cfg: Config, s: State, to: nat)
    requires s.base.scan.None? && s.baseCursor < to <= s.baseCursor + MAX_LOG_RANGE
      && to + cfg.baseConfirmations <= s.baseTip
    ensures Step(cfg, s, BaseWatcher(BeginWindow(to)))
      == s.(base := BaseMemory(Some(BaseScan(to, LogsIn(s.logs, s.baseCursor + 1, to), 0, false)), None))
  {
  }

  lemma DepositIsWritten(cfg: Config, s: State, row: Deposit, s': State)
    requires CanRecord(cfg, s) && row == DepositRow(cfg, s)
    requires s' == s.(
      deposits := DepositsWith(s, row), received := s.received + row.amountSats,
      hazard := s.hazard || (row.status.Confirmed? && s.stale), fair := Standing(s.fair.scan), stale := false)
    ensures FairStep(cfg, s, RecordDeposit) == s'
  {
  }

  lemma MintIsSettled(s: State, id: nat, success: bool, s': State)
    requires id < |s.deposits| && s.deposits[id].status.Minting? && s.deposits[id].mintTx.Some?
    requires s.deposits[id].mintTx.value < |s.mints|
    requires s.mints[s.deposits[id].mintTx.value].outcome == (if success then Success else Reverted)
    requires s' == s.(
      deposits :=
        s.deposits[id := s.deposits[id].(status := if success then DepositStatus.Minted else DepositStatus.Failed)],
      stale := s.stale || (success && s.fair.supply.Some? && s.fair.inFlight.None?))
    ensures MintStep(s, MintEvent.SettleMint(id)) == s'
  {
  }

  lemma MintIsClaimed(s: State, id: nat, s': State)
    requires id < |s.deposits| && s.deposits[id].mintTx.None?
    requires s.deposits[id].status.Confirmed? || s.deposits[id].status.Minting?
    requires s' == s.(deposits := s.deposits[id := s.deposits[id].(status := DepositStatus.Minting)])
    ensures MintStep(s, MintEvent.ClaimMint(id)) == s'
  {
  }

  lemma MintIsNotClaimed(s: State, id: nat)
    requires id < |s.deposits| && s.deposits[id].mintTx.None? ==>
      !s.deposits[id].status.Confirmed? && !s.deposits[id].status.Minting?
    ensures MintStep(s, MintEvent.ClaimMint(id)) == s
  {
  }

  class Bridge {
    const cfg: Config
    ghost const start: State
    ghost const fairStart: nat
    ghost const baseStart: nat
    ghost var events: seq<Event>
    ghost var past: seq<State>
    var world: State

    /** The store is where a run of the protocol has led. */
    ghost predicate Valid()
      reads this
    {
      Traced(world)
    }

    /** The run of these events leads from a bridge that had not started to the
        state, through these others. */
    ghost predicate Traced(s: State)
      reads this`events, this`past
    {
      && NotStarted(start, fairStart, baseStart)
      && Passes(cfg, start, events, past) && past[|events|] == s
    }

    /** Each state passed through leads to the next by one event. */
    lemma PastSteps(n: nat)
      requires Valid() && n < |events|
      ensures |past| == |events| + 1 && past[n + 1] == Step(cfg, past[n], events[n])
    {
      assert LeadsOn(cfg, events, past, n);
    }

    /** So it satisfies every invariant of the protocol. */
    lemma ValidMeansInv()
      requires Valid()
      ensures Inv(cfg, world, fairStart, baseStart)
    {
      NotStartedIsConsistent(cfg, start, fairStart, baseStart);
      PassesTo(cfg, start, events, past);
      InvRun(cfg, start, events, fairStart, baseStart);
    }

    /** What the invariants say about a queued mint and its row. */
    lemma MintJobFacts(job: MintJob)
      requires Valid() && job in world.mintJobs
      ensures MintJobOk(world.deposits, job)
      ensures DepositOk(world.deposits[job.depositId], world.mints, job.depositId)
    {
      ValidMeansInv();
    }

    /** What the invariants say about a queued release and its row. */
    lemma ReleaseJobFacts(job: ReleaseJob)
      requires Valid() && job in world.releaseJobs
      ensures ReleaseJobOk(world.withdrawals, job)
      ensures WithdrawalOk(world.withdrawals[job.withdrawalId], world.sends, job.withdrawalId)
    {
      ValidMeansInv();
    }

    /** Open slots have no outpoint yet. */
    lemma SlotFacts()
      requires Valid()
      ensures forall i :: 0 <= i < |world.deposits| && world.deposits[i].Open() ==> world.deposits[i].outpoint.None?
    {
      ValidMeansInv();
      forall i | 0 <= i < |world.deposits| && world.deposits[i].Open()
        ensures world.deposits[i].outpoint.None?
      {
        assert DepositOk(world.deposits[i], world.mints, i);
      }
    }

    constructor (cfg: Config, s: State, ghost fairStart: nat, ghost baseStart: nat)
      requires NotStarted(s, fairStart, baseStart)
      ensures Valid() && world == s && this.cfg == cfg && events == []
    {
      this.cfg, world, start, this.fairStart, this.baseStart, events, past := cfg, s, s, fairStart, baseStart, [], [s];
    }

    /** Enters the operation just performed into the run. */
    ghost method Note(before: State, e: Event)
      requires Traced(before) && world == Step(cfg, before, e)
      modifies this`events, this`past
      ensures Valid() && events == old(events) + [e] && past == old(past) + [world]
    {
      PassesOn(cfg, start, events, past, e, world);
      events, past := events + [e], past + [world];
    }

    /** Any event, performed by whoever performs it. */
    method Happen(e: Event)
      requires Valid()
      modifies this
      ensures Valid() && old(past) <= past && world == Step(cfg, old(world), e)
    {
      ghost var before := world;
      world := Step(cfg, world, e);
      Note(before, e);
    }

    /** An event of anyone but the caller, if that is who performs it. */
    method Other(self: Actor, e: Event)
      requires Valid()
      modifies this
      ensures Valid() && old(past) <= past && Relies(self, old(world), world)
    {
      if ActorOf(e) != self {
        ValidMeansInv();
        OthersRespect(cfg, self, world, e);
        Happen(e);
      }
    }

    /** Any number of events of anyone but the caller. */
    method Others(self: Actor)
      requires Valid()
      modifies this
      ensures Valid() && old(past) <= past && Relies(self, old(world), world)
    {
      var n := AnyCount();
      while n > 0
        invariant Valid() && old(past) <= past && Relies(self, old(world), world)
      {
        var e := AnyEvent();
        ghost var before := world;
        Other(self, e);
        ReliesIsTransitive(self, old(world), before, world);
        n := n - 1;
      }
    }

    // ---- the release worker's operations -----------------------------------

    /** `claimRelease`: flips CONFIRMED or SIGNING with no txid to SIGNING. */
    method ClaimRelease(id: nat) returns (claimed: Option<Withdrawal>)
      requires Valid()
      modifies this
      ensures Valid() && old(past) <= past
      ensures claimed.Some? <==> id < |old(world).withdrawals| && old(world).withdrawals[id].Unsent()
      ensures claimed.Some? ==>
        && claimed.value == old(world).withdrawals[id].(status := WithdrawalStatus.Signing)
        && world == old(world).(withdrawals := old(world).withdrawals[id := claimed.value])
      ensures claimed.None? ==> world == old(world)
    {
      ghost var before := world;
      var rows := world.withdrawals;
      claimed := None;
      if id < |rows| && rows[id].Unsent() {
        claimed := Some(rows[id].(status := WithdrawalStatus.Signing));
        world := world.(withdrawals := rows[id := claimed.value]);
      }
      Note(before, ReleaseWorker(ReleaseEvent.ClaimRelease(id)));
    }

    /** `sendtoaddress`, when it takes effect. */
    method SendToAddress(job: ReleaseJob) returns (txid: nat)
      requires Valid() && job in world.releaseJobs && world.heldSend.None?
      requires job.withdrawalId < |world.withdrawals| && world.withdrawals[job.withdrawalId].status.Signing?
      requires world.withdrawals[job.withdrawalId].fairTx.None?
      modifies this
      ensures Valid() && old(past) <= past && txid == |old(world).sends|
      ensures world == old(world).(
        sends := old(world).sends + [Send(job.withdrawalId, job.destination, job.sats, false)], heldSend := Some(txid))
    {
      ghost var before := world;
      txid := |world.sends|;
      world := world.(
        sends := world.sends + [Send(job.withdrawalId, job.destination, job.sats, false)], heldSend := Some(txid));
      Note(before, ReleaseWorker(SendFair(job)));
    }

    /** The worker forgets a txid it had not written down. */
    method LoseFairTxid()
      requires Valid() && world.heldSend.Some? && world.heldSend.value < |world.sends|
      modifies this
      ensures Valid() && old(past) <= past
      ensures var x := old(world).heldSend.value;
        world == old(world).(sends := old(world).sends[x := old(world).sends[x].(lost := true)], heldSend := None)
    {
      ghost var before := world;
      var x := world.heldSend.value;
      world := world.(sends := world.sends[x := world.sends[x].(lost := true)], heldSend := None);
      Note(before, ReleaseWorker(DropSend));
    }

    /** `$set: { fairTxid }`. */
    method PersistFairTxid(id: nat, txid: nat)
      requires Valid() && world.heldSend == Some(txid) && txid < |world.sends| && world.sends[txid].row == id
      requires id < |world.withdrawals|
      modifies this
      ensures Valid() && old(past) <= past
      ensures world == old(world).(
        withdrawals := old(world).withdrawals[id := old(world).withdrawals[id].(fairTx := Some(txid))],
        heldSend := None)
    {
      ghost var before := world;
      var rows := world.withdrawals;
      world := world.(withdrawals := rows[id := rows[id].(fairTx := Some(txid))], heldSend := None);
      Note(before, ReleaseWorker(FileSend));
    }

    /** `$set: { status: "BROADCAST" }`. */
    method MarkBroadcast(id: nat)
      requires Valid() && id < |world.withdrawals|
      requires world.withdrawals[id].status.Signing? && world.withdrawals[id].fairTx.Some?
      modifies this
      ensures Valid() && old(past) <= past
      ensures world == old(world).(
        withdrawals := old(world).withdrawals[id := old(world).withdrawals[id].(status := WithdrawalStatus.Broadcast)])
    {
      ghost var before := world;
      var rows := world.withdrawals;
      world := world.(withdrawals := rows[id := rows[id].(status := WithdrawalStatus.Broadcast)]);
      Note(before, ReleaseWorker(ReleaseEvent.MarkBroadcast(id)));
    }

    /** `$set: { status: "FAILED" }` for an invalid destination. */
    method FailRelease(id: nat)
      requires Valid() && id < |world.withdrawals| && world.withdrawals[id].Unsent() && world.heldSend.None?
      modifies this
      ensures Valid() && old(past) <= past
      ensures world == old(world).(
        withdrawals := old(world).withdrawals[id := old(world).withdrawals[id].(status := WithdrawalStatus.Failed)])
    {
      ghost var before := world;
      var rows := world.withdrawals;
      world := world.(withdrawals := rows[id := rows[id].(status := WithdrawalStatus.Failed)]);
      Note(before, ReleaseWorker(ReleaseEvent.FailRelease(id)));
    }

    // ---- the mint worker's operations --------------------------------------

    /** `claimMint`. */
    method ClaimMint(id: nat) returns (claimed: Option<Deposit>)
      requires Valid()
      modifies this
      ensures Valid() && old(past) <= past
      ensures claimed.Some? <==>
        id < |old(world).deposits| && old(world).deposits[id].mintTx.None?
        && (old(world).deposits[id].status.Confirmed? || old(world).deposits[id].status.Minting?)
      ensures claimed.Some? ==>
        && claimed.value == old(world).deposits[id].(status := DepositStatus.Minting)
        && world == old(world).(deposits := old(world).deposits[id := claimed.value])
      ensures claimed.None? ==> world == old(world)
    {
      var rows := world.deposits;
      if id < |rows| && (rows[id].status.Confirmed? || rows[id].status.Minting?) && rows[id].mintTx.None? {
        MarkMinting(id);
        claimed := Some(world.deposits[id]);
      } else {
        MintIsNotClaimed(world, id);
        Note(world, MintWorker(MintEvent.ClaimMint(id)));
        claimed := None;
      }
    }

    /** The update of a row that matches. */
    method MarkMinting(id: nat)
      requires Valid() && id < |world.deposits| && world.deposits[id].mintTx.None?
      requires world.deposits[id].status.Confirmed? || world.deposits[id].status.Minting?
      modifies this
      ensures Valid() && old(past) <= past
      ensures world == old(world).(
        deposits := old(world).deposits[id := old(world).deposits[id].(status := DepositStatus.Minting)])
    {
      ghost var before := world;
      world := world.(deposits := world.deposits[id := world.deposits[id].(status := DepositStatus.Minting)]);
      MintIsClaimed(before, id, world);
      Note(before, MintWorker(MintEvent.ClaimMint(id)));
    }

    /** `writeContract(mintForDeposit)`, when it takes effect. */
    method WriteContract(job: MintJob) returns (hash: nat)
      requires Valid() && job in world.mintJobs && world.heldMint.None?
      requires job.depositId < |world.deposits| && world.deposits[job.depositId].status.Minting?
      requires world.deposits[job.depositId].mintTx.None?
      modifies this
      ensures Valid() && old(past) <= past && hash == |old(world).mints|
      ensures world == old(world).(
        mints := old(world).mints + [MintTx(job.depositId, job.to, job.wei, Pending, false)], heldMint := Some(hash))
    {
      ghost var before := world;
      hash := |world.mints|;
      world := world.(
        mints := world.mints + [MintTx(job.depositId, job.to, job.wei, Pending, false)], heldMint := Some(hash));
      Note(before, MintWorker(BroadcastMint(job)));
    }

    /** The worker forgets a hash it had not written down. */
    method LoseMintHash()
      requires Valid() && world.heldMint.Some? && world.heldMint.value < |world.mints|
      modifies this
      ensures Valid() && old(past) <= past
      ensures var x := old(world).heldMint.value;
        world == old(world).(mints := old(world).mints[x := old(world).mints[x].(lost := true)], heldMint := None)
    {
      ghost var before := world;
      var x := world.heldMint.value;
      world := world.(mints := world.mints[x := world.mints[x].(lost := true)], heldMint := None);
      Note(before, MintWorker(DropMint));
    }

    /** `$set: { baseMintTxHash }`. */
    method PersistMintHash(id: nat, hash: nat)
      requires Valid() && world.heldMint == Some(hash) && hash < |world.mints| && world.mints[hash].row == id
      requires id < |world.deposits|
      modifies this
      ensures Valid() && old(past) <= past
      ensures world == old(world).(
        deposits := old(world).deposits[id := old(world).deposits[id].(mintTx := Some(hash))], heldMint := None)
    {
      ghost var before := world;
      var rows := world.deposits;
      world := world.(deposits := rows[id := rows[id].(mintTx := Some(hash))], heldMint := None);
      Note(before, MintWorker(FileMint));
    }

    /** `$set: { status: "MINTED" | "FAILED" }` once the receipt is in. */
    method SettleMint(id: nat, success: bool)
      requires Valid() && id < |world.deposits| && world.deposits[id].status.Minting?
      requires world.deposits[id].mintTx.Some? && world.deposits[id].mintTx.value < |world.mints|
      requires world.mints[world.deposits[id].mintTx.value].outcome == (if success then Success else Reverted)
      modifies this
      ensures Valid() && old(past) <= past
      ensures world == old(world).(
        deposits := old(world).deposits[id := old(world).deposits[id].(
          status := if success then DepositStatus.Minted else DepositStatus.Failed)],
        stale := old(world).stale || (success && old(world).fair.supply.Some? && old(world).fair.inFlight.None?))
    {
      ghost var before := world;
      var rows := world.deposits;
      world := world.(
        deposits := rows[id := rows[id].(status := if success then DepositStatus.Minted else DepositStatus.Failed)],
        stale := world.stale || (success && world.fair.supply.Some? && world.fair.inFlight.None?));
      MintIsSettled(before, id, success, world);
      Note(before, MintWorker(MintEvent.SettleMint(id)));
    }

    // ---- the burn scanner's operations -------------------------------------

    /** `getLogs` for the next window. */
    method GetLogs(to: nat) returns (found: seq<nat>)
      requires Valid() && world.base.scan.None? && world.baseCursor < to <= world.baseCursor + MAX_LOG_RANGE
      requires to + cfg.baseConfirmations <= world.baseTip
      modifies this
      ensures Valid() && old(past) <= past && found == LogsIn(old(world).logs, old(world).baseCursor + 1, to)
      ensures world == old(world).(base := BaseMemory(Some(BaseScan(to, found, 0, false)), None))
    {
      WindowBegins(cfg, world, to);
      Happen(BaseWatcher(BeginWindow(to)));
      found := world.base.scan.value.found;
    }

    /** `sumDailyWithdrawalSatsForAddress`, for the sender of the log at hand. */
    method ReadWithdrawalDaily() returns (sats: nat)
      requires Valid() && AtLog(world)
      modifies this
      ensures Valid() && old(past) <= past
      ensures sats == WithdrawalDailySats(old(world).withdrawals, TheLog(old(world)).from, old(world).now)
      ensures world
        == old(world).(base :=
          old(world).base.(daily := Some(DailyRead(TheLog(old(world)).from, old(world).now, sats))))
    {
      ghost var before := world;
      var from := TheLog(world).from;
      sats := WithdrawalDailySats(world.withdrawals, from, world.now);
      world := world.(base := world.base.(daily := Some(DailyRead(from, world.now, sats))));
      Note(before, BaseWatcher(BaseEvent.ReadWithdrawalDaily));
    }

    /** `Withdrawal.create`. */
    method CreateWithdrawal(valid: bool, row: Withdrawal) returns (id: nat)
      requires Valid() && CanRecordBurn(world, valid) && row == WithdrawalRow(cfg, world, valid)
      modifies this
      ensures Valid() && old(past) <= past && id == |old(world).withdrawals|
      ensures world
        == old(world).(withdrawals := old(world).withdrawals + [row], base := old(world).base.(daily := None))
    {
      ghost var before := world;
      id := |world.withdrawals|;
      world := world.(withdrawals := world.withdrawals + [row], base := world.base.(daily := None));
      Note(before, BaseWatcher(RecordBurn(valid)));
    }

    /** The loop goes on to the next log: this one is done. */
    method NextLog()
      requires Valid() && AtLog(world)
      requires TheLog(world).decodable ==> BurnRecorded(world.withdrawals, TheLog(world).key)
      modifies this
      ensures Valid() && old(past) <= past
      ensures world == old(world).(
        base := BaseMemory(Some(old(world).base.scan.value.(next := old(world).base.scan.value.next + 1)), None))
    {
      ghost var before := world;
      world := world.(base := BaseMemory(Some(world.base.scan.value.(next := world.base.scan.value.next + 1)), None));
      Note(before, BaseWatcher(BaseEvent.NextLog));
    }

    /** `if (signal.aborted) break`. */
    method BreakLoop()
      requires Valid() && AtLog(world) && world.aborted
      modifies this
      ensures Valid() && old(past) <= past
      ensures world == old(world).(base := BaseMemory(Some(old(world).base.scan.value.(cut := true)), None))
    {
      ghost var before := world;
      world := world.(base := BaseMemory(Some(world.base.scan.value.(cut := true)), None));
      Note(before, BaseWatcher(BaseEvent.BreakLoop));
    }

    /** `EventCursor.updateOne`, after the loop over the window's logs, whether it
        came to its end or was broken off. */
    method WriteBaseCursor()
      requires Valid() && WindowEnded(world)
      modifies this
      ensures Valid() && old(past) <= past
      ensures var scan := old(world).base.scan.value; world == old(world).(
        baseCursor := scan.to, base := NO_BASE_MEMORY,
        missed := old(world).missed + Unrecorded(old(world), scan.found, scan.next))
    {
      ghost var before := world;
      var scan := world.base.scan.value;
      world := world.(
        baseCursor := scan.to, base := NO_BASE_MEMORY,
        missed := world.missed + Unrecorded(world, scan.found, scan.next));
      Note(before, BaseWatcher(AdvanceBaseCursor));
    }

    /** The pass over the windows ends with an error. */
    method DropBaseScan()
      requires Valid()
      modifies this
      ensures Valid() && old(past) <= past && world == old(world).(base := NO_BASE_MEMORY)
    {
      ghost var before := world;
      world := world.(base := NO_BASE_MEMORY);
      Note(before, BaseWatcher(BaseEvent.DropBaseScan));
    }

    /** `queue.add("release", …)`. */
    method EnqueueRelease(id: nat)
      requires Valid() && id < |world.withdrawals|
      modifies this
      ensures Valid() && old(past) <= past
      ensures world == old(world).(
        releaseJobs := old(world).releaseJobs + {ReleaseJobOf(old(world).withdrawals, id)})
    {
      ghost var before := world;
      world := world.(releaseJobs := world.releaseJobs + {ReleaseJobOf(world.withdrawals, id)});
      Note(before, BaseWatcher(BaseEvent.EnqueueRelease(id)));
    }

    // ---- the deposit scanner's operations ----------------------------------

    /** `getBlockAtHeight` for the block after the cursor. */
    method GetBlock()
      requires Valid() && ScanMoves(cfg, world, BeginBlock)
      modifies this
      ensures Valid() && old(past) <= past
      ensures world == old(world).(fair := Standing(Some(FairScan(old(world).addressCache, 0, 0))), stale := false)
    {
      ghost var before := world;
      world := world.(fair := Standing(Some(FairScan(world.addressCache, 0, 0))), stale := false);
      Note(before, FairWatcher(FairEvent.BeginBlock));
    }

    /** `findOne` for the open slot at the address paid. */
    method ReadSlot() returns (slot: Lookup)
      requires Valid() && AtVout(world) && Pays(TheVout(world), world.addressCache) && world.fair.slot.Unread?
      modifies this
      ensures Valid() && old(past) <= past && slot == FindSlot(old(world).deposits, TheVout(old(world)).address.value)
      ensures world == old(world).(fair := old(world).fair.(slot := slot))
    {
      ghost var before := world;
      slot := FindSlot(world.deposits, TheVout(world).address.value);
      world := world.(fair := world.fair.(slot := slot));
      Note(before, FairWatcher(FairEvent.ReadSlot));
    }

    /** The slot, or `findOne` for the earliest row at the address. */
    method ReadOrigin() returns (origin: Lookup)
      requires Valid() && AtVout(world) && Pays(TheVout(world), world.addressCache)
      requires !world.fair.slot.Unread? && world.fair.origin.Unread?
      modifies this
      ensures Valid() && old(past) <= past
      ensures origin == if old(world).fair.slot.Row? then old(world).fair.slot
        else FindEarliest(old(world).deposits, TheVout(old(world)).address.value)
      ensures world == old(world).(fair := old(world).fair.(origin := origin))
    {
      ghost var before := world;
      origin := if world.fair.slot.Row? then world.fair.slot
        else FindEarliest(world.deposits, TheVout(world).address.value);
      world := world.(fair := world.fair.(origin := origin));
      Note(before, FairWatcher(FairEvent.ReadOrigin));
    }

    /** `sumDailyDepositSatsForAddress`, for the recipient of the origin row. */
    method ReadDepositDaily() returns (sats: nat)
      requires Valid() && world.fair.origin.Row? && world.fair.origin.id < |world.deposits|
      modifies this
      ensures Valid() && old(past) <= past
      ensures sats == DepositDailySats(
        old(world).deposits, old(world).deposits[old(world).fair.origin.id].baseAddress, old(world).now)
      ensures world == old(world).(fair := old(world).fair.(daily := Some(sats)))
    {
      ghost var before := world;
      sats := DepositDailySats(world.deposits, world.deposits[world.fair.origin.id].baseAddress, world.now);
      world := world.(fair := world.fair.(daily := Some(sats)));
      Note(before, FairWatcher(FairEvent.ReadDepositDaily));
    }

    /** `readWfairTotalSupply`. */
    method ReadSupply() returns (wei: nat)
      requires Valid() && world.fair.supply.None?
      modifies this
      ensures Valid() && old(past) <= past && wei == old(world).supply
      ensures world == old(world).(fair := old(world).fair.(supply := Some(wei)))
    {
      ghost var before := world;
      wei := world.supply;
      world := world.(fair := world.fair.(supply := Some(wei)));
      Note(before, FairWatcher(FairEvent.ReadSupply));
    }

    /** `sumInFlightWei`. */
    method ReadInFlight() returns (wei: nat)
      requires Valid() && world.fair.inFlight.None?
      modifies this
      ensures Valid() && old(past) <= past && wei == InFlightWei(old(world).deposits)
      ensures world == old(world).(fair := old(world).fair.(inFlight := Some(wei)))
    {
      ghost var before := world;
      wei := InFlightWei(world.deposits);
      world := world.(fair := world.fair.(inFlight := Some(wei)));
      Note(before, FairWatcher(FairEvent.ReadInFlight));
    }

    /** `Deposit.create` when there is no slot, else the update of the slot. */
    method WriteDeposit(row: Deposit) returns (id: nat)
      requires Valid() && CanRecord(cfg, world) && row == DepositRow(cfg, world)
      modifies this
      ensures Valid() && old(past) <= past && id == RowAt(old(world))
      ensures world == old(world).(
        deposits := DepositsWith(old(world), row), received := old(world).received + row.amountSats,
        hazard := old(world).hazard || (row.status.Confirmed? && old(world).stale),
        fair := Standing(old(world).fair.scan), stale := false)
    {
      ghost var before := world;
      id := RowAt(world);
      world := world.(
        deposits := DepositsWith(world, row), received := world.received + row.amountSats,
        hazard := world.hazard || (row.status.Confirmed? && world.stale),
        fair := Standing(world.fair.scan), stale := false);
      DepositIsWritten(cfg, before, row, world);
      Note(before, FairWatcher(RecordDeposit));
    }

    /** The loops go on to the next vout, the next transaction, or out of the
        block with an error. */
    method MoveScan(e: FairEvent)
      requires Valid() && (e.NextVout? || e.NextTx? || e.DropFairScan?) && ScanMoves(cfg, world, e)
      modifies this
      ensures Valid() && old(past) <= past
      ensures world == old(world).(fair := Standing(ScanAfter(old(world), e)), stale := false)
    {
      ghost var before := world;
      world := world.(fair := Standing(ScanAfter(world, e)), stale := false);
      Note(before, FairWatcher(e));
    }

    /** `EventCursor.updateOne`, once the loops have come to the end of the block. */
    method WriteFairCursor()
      requires Valid() && BlockDone(world)
      modifies this
      ensures Valid() && old(past) <= past
      ensures var h := old(world).fairCursor + 1; world == old(world).(
        fairCursor := h, scanned := old(world).scanned[h := old(world).fair.scan.value.known], fair := NO_FAIR_MEMORY,
        stale := false)
    {
      ghost var before := world;
      var h := world.fairCursor + 1;
      world := world.(
        fairCursor := h, scanned := world.scanned[h := world.fair.scan.value.known], fair := NO_FAIR_MEMORY,
        stale := false);
      Note(before, FairWatcher(AdvanceFairCursor));
    }

    /** `queue.add("mint", …)`. */
    method EnqueueMint(id: nat)
      requires Valid() && id < |world.deposits| && !world.deposits[id].Open()
      modifies this
      ensures Valid() && old(past) <= past
      ensures world == old(world).(mintJobs := old(world).mintJobs + {MintJobOf(old(world).deposits, id)})
    {
      ghost var before := world;
      world := world.(mintJobs := world.mintJobs + {MintJobOf(world.deposits, id)});
      Note(before, FairWatcher(FairEvent.EnqueueMint(id)));
    }
  }
}
