/** What holds after every run: any number of events of the five actors and the
    outside world, in any order, with workers losing their memory at any point. */
module Runs {
  import opened Wrappers
  import opened Money
  import opened Rows
  import opened Sums
  import opened Protocol
  import M = MintLedger
  import R = ReleaseLedger
  import opened RollingCap
  import opened BurnScan
  import D = DepositScan
  import C = DepositCursor
  import Recipient
  import opened Exposure
  import opened Peg
  import opened TvlCap

  ghost predicate Inv(cfg: Config, s: State, fairStart: nat, baseStart: nat) {
    && M.MintInv(s)
    && R.ReleaseInv(s)
    && CapInv(cfg, s)
    && BurnInv(cfg, s, baseStart)
    && D.DepositRowsInv(cfg, s)
    && C.CursorInv(cfg, s, fairStart)
    && Recipient.RecipientInv(s)
    && Recipient.MintsTaken(s.mints)
  }

  lemma InvStep(cfg: Config, s: State, e: Event, fairStart: nat, baseStart: nat)
    requires Inv(cfg, s, fairStart, baseStart)
    ensures Inv(cfg, Step(cfg, s, e), fairStart, baseStart)
  {
    M.MintInvStep(cfg, s, e);
    R.ReleaseInvStep(cfg, s, e);
    CapInvStep(cfg, s, e);
    BurnInvStep(cfg, s, e, baseStart);
    D.RowsInvStep(cfg, s, e);
    C.CursorInvStep(cfg, s, e, fairStart);
    Recipient.RecipientInvStep(cfg, s, e);
    Recipient.MintsTakenStep(cfg, s, e);
  }

  lemma {:induction false} InvRun(cfg: Config, s: State, events: seq<Event>, fairStart: nat, baseStart: nat)
    requires Inv(cfg, s, fairStart, baseStart)
    ensures Inv(cfg, Run(cfg, s, events), fairStart, baseStart)
  {
    if events != [] {
      var before := events[..|events| - 1];
      InvRun(cfg, s, before, fairStart, baseStart);
      InvStep(cfg, Run(cfg, s, before), events[|events| - 1], fairStart, baseStart);
    }
  }

  lemma {:induction false} SlackRun(cfg: Config, s: State, events: seq<Event>, fairStart: nat, baseStart: nat)
    requires Inv(cfg, s, fairStart, baseStart)
    ensures Slack(Run(cfg, s, events)) >= Slack(s)
  {
    if events != [] {
      var before := events[..|events| - 1];
      SlackRun(cfg, s, before, fairStart, baseStart);
      InvRun(cfg, s, before, fairStart, baseStart);
      SlackStep(cfg, Run(cfg, s, before), events[|events| - 1]);
    }
  }

  /** Peg conservation. If custody covered everything owed at the start, it does
      after every run, up to what lost sends and mints cost; with none lost the
      reserves snapshot stays healthy. */
  lemma PegHolds(cfg: Config, s: State, events: seq<Event>, fairStart: nat, baseStart: nat)
    requires Inv(cfg, s, fairStart, baseStart) && Slack(s) >= 0
    ensures var t := Run(cfg, s, events);
      && SATS_TO_WEI * (t.received - ReleasedSats(t)) + SATS_TO_WEI * LostSendSats(t) + LostMintWei(t)
           >= t.supply + UnexecutedWei(t) + LostPendingWei(t) + UnrecordedBurnWei(t) + SATS_TO_WEI * UnsentSats(t)
      && (LostSendSats(t) == 0 && LostMintWei(t) == 0 ==> CaptureSnapshot(CustodySats(t), t.supply).pegHealthy)
  {
    SlackRun(cfg, s, events, fairStart, baseStart);
    SlackMeansHealthy(Run(cfg, s, events));
  }

  /** A bridge that has not started: nothing minted, received, burned or recorded. */
  predicate NotStarted(s: State, fairStart: nat, baseStart: nat) {
    && s.sends == [] && s.supply == 0 && s.mints == [] && s.logs == [] && s.received == 0
    && s.deposits == [] && s.withdrawals == [] && s.mintJobs == {} && s.releaseJobs == {}
    && s.fairCursor == fairStart && s.baseCursor == baseStart <= s.baseTip
    && s.pendingIntents == {} && s.addressCache == {} && s.heldMint.None? && s.heldSend.None?
    && s.fair == NO_FAIR_MEMORY && s.base == NO_BASE_MEMORY && !s.aborted
    && s.intents == map[] && s.missed == {} && !s.stale && !s.hazard
  }

  /** It meets what the theorems below ask of the first state. */
  lemma NotStartedIsConsistent(cfg: Config, s: State, fairStart: nat, baseStart: nat)
    requires NotStarted(s, fairStart, baseStart)
    ensures Inv(cfg, s, fairStart, baseStart) && Slack(s) == 0 && NothingLost(s) && NoReadings(s)
  {
    SumZero(UnexecutedWeights(s));
    SumZero(LostPendingWeights(s.mints));
  }

  // ---- nothing is lost without a crash in the window -----------------------

  predicate NothingLost(s: State) {
    && (forall i :: 0 <= i < |s.mints| ==> !s.mints[i].lost)
    && (forall i :: 0 <= i < |s.sends| ==> !s.sends[i].lost)
  }

  /** A worker died between a call that took effect and the write after it. */
  predicate DropsInWindow(s: State, e: Event) {
    || (e == MintWorker(DropMint) && s.heldMint.Some?)
    || (e == ReleaseWorker(DropSend) && s.heldSend.Some?)
  }

  predicate NoDropInWindow(cfg: Config, s: State, events: seq<Event>) {
    forall k :: 0 <= k < |events| ==> !DropsInWindow(Run(cfg, s, events[..k]), events[k])
  }

  lemma OutsideLosesNothing(s: State, e: OutsideEvent, s': State)
    requires NothingLost(s) && s' == OutsideStep(s, e)
    ensures NothingLost(s')
  {
    OutsideOnlyMines(s, e, s');
    assert forall i :: 0 <= i < |s.mints| ==> SameMint(s.mints[i], s'.mints[i]);
  }

  lemma WorkersLoseNothing(s: State, m: MintEvent, r: ReleaseEvent)
    requires NothingLost(s)
    ensures (m.DropMint? && s.heldMint.Some?) || NothingLost(MintStep(s, m))
    ensures (r.DropSend? && s.heldSend.Some?) || NothingLost(ReleaseStep(s, r))
  {
  }

  lemma NothingLostStep(cfg: Config, s: State, e: Event)
    requires NothingLost(s) && !DropsInWindow(s, e)
    ensures NothingLost(Step(cfg, s, e))
  {
    match e
    case Outside(o) => OutsideLosesNothing(s, o, OutsideStep(s, o));
    case FairWatcher(f) => assert SameWithdrawalSide(s, FairStep(cfg, s, f));
    case MintWorker(m) => WorkersLoseNothing(s, m, MarkBroadcast(0));
    case BaseWatcher(b) => assert SameDepositSide(s, BaseStep(cfg, s, b));
    case ReleaseWorker(r) => WorkersLoseNothing(s, ClaimMint(0), r);
  }

  lemma NoDropEarlier(cfg: Config, s: State, events: seq<Event>)
    requires events != [] && NoDropInWindow(cfg, s, events)
    ensures NoDropInWindow(cfg, s, events[..|events| - 1])
    ensures !DropsInWindow(Run(cfg, s, events[..|events| - 1]), events[|events| - 1])
  {
    var n := |events| - 1;
    forall k | 0 <= k < n
      ensures !DropsInWindow(Run(cfg, s, events[..n][..k]), events[..n][k])
    {
      assert events[..n][..k] == events[..k];
    }
  }

  lemma {:induction false} NothingLostRun(cfg: Config, s: State, events: seq<Event>)
    requires NothingLost(s) && NoDropInWindow(cfg, s, events)
    ensures NothingLost(Run(cfg, s, events))
  {
    if events != [] {
      var n := |events| - 1;
      NoDropEarlier(cfg, s, events);
      NothingLostRun(cfg, s, events[..n]);
      NothingLostStep(cfg, Run(cfg, s, events[..n]), events[n]);
    }
  }

  /** Crashes anywhere but between a send and the write of its txid keep the peg. */
  lemma PegHoldsOutsideTheWindow(cfg: Config, s: State, events: seq<Event>, fairStart: nat, baseStart: nat)
    requires Inv(cfg, s, fairStart, baseStart) && Slack(s) >= 0
    requires NothingLost(s) && NoDropInWindow(cfg, s, events)
    ensures var t := Run(cfg, s, events);
      CaptureSnapshot(CustodySats(t), t.supply).pegHealthy
  {
    var t := Run(cfg, s, events);
    NothingLostRun(cfg, s, events);
    SumZero(LostWeights(t.mints));
    SumZero(LostSendWeights(t.sends));
    PegHolds(cfg, s, events, fairStart, baseStart);
  }

  // ---- send accounting -----------------------------------------------------

  /** For each withdrawal, the sends that took effect are the one on file (or in
      the worker's hands) and the lost ones; for each deposit, the mints
      broadcast are too. */
  lemma SendsAreAccountedFor(cfg: Config, s: State, events: seq<Event>, r: nat, fairStart: nat, baseStart: nat)
    requires Inv(cfg, s, fairStart, baseStart)
    ensures var t := Run(cfg, s, events);
      && (r < |t.withdrawals| ==>
            R.SendCount(t.sends, r) == R.LostSends(t.sends, r) + (if R.CurrentSend(t, r).Some? then 1 else 0))
      && (r < |t.deposits| ==>
            M.Broadcasts(t.mints, r) == M.LostMints(t.mints, r) + (if M.CurrentMint(t, r).Some? then 1 else 0))
  {
    var t := Run(cfg, s, events);
    InvRun(cfg, s, events, fairStart, baseStart);
    if r < |t.withdrawals| { R.SendAccounting(t, r); }
    if r < |t.deposits| { M.MintAccounting(t, r); }
  }

  /** With no crash in the window nothing is ever sent or minted twice. */
  lemma NothingSentTwice(cfg: Config, s: State, events: seq<Event>, r: nat, fairStart: nat, baseStart: nat)
    requires Inv(cfg, s, fairStart, baseStart) && NothingLost(s) && NoDropInWindow(cfg, s, events)
    ensures var t := Run(cfg, s, events);
      && (r < |t.withdrawals| ==> R.SendCount(t.sends, r) <= 1)
      && (r < |t.deposits| ==> M.Broadcasts(t.mints, r) <= 1)
  {
    var t := Run(cfg, s, events);
    NothingLostRun(cfg, s, events);
    SendsAreAccountedFor(cfg, s, events, r, fairStart, baseStart);
    SumZero(R.LostFlags(t.sends, r));
    SumZero(M.LostFlags(t.mints, r));
  }

  /** Over a whole run: txids and mint hashes are written once, FAILED and MINTED
      rows never change, and a burn's or deposit's own columns stay. */
  lemma {:induction false} ColumnsStay(cfg: Config, s: State, events: seq<Event>, fairStart: nat, baseStart: nat)
    requires Inv(cfg, s, fairStart, baseStart)
    ensures R.WithdrawalsKept(s.withdrawals, Run(cfg, s, events).withdrawals)
    ensures M.DepositsKept(s.deposits, Run(cfg, s, events).deposits)
  {
    if events != [] {
      var n := |events| - 1;
      var t := Run(cfg, s, events[..n]);
      var u := Step(cfg, t, events[n]);
      ColumnsStay(cfg, s, events[..n], fairStart, baseStart);
      InvRun(cfg, s, events[..n], fairStart, baseStart);
      R.ReleaseColumnsWriteOnce(cfg, t, events[n]);
      M.MintColumnsWriteOnce(cfg, t, events[n]);
      KeptIsTransitive(s, t, u);
    }
  }

  lemma KeptIsTransitive(s: State, t: State, u: State)
    requires R.WithdrawalsKept(s.withdrawals, t.withdrawals) && R.WithdrawalsKept(t.withdrawals, u.withdrawals)
    requires M.DepositsKept(s.deposits, t.deposits) && M.DepositsKept(t.deposits, u.deposits)
    requires M.MintInv(t)
    ensures R.WithdrawalsKept(s.withdrawals, u.withdrawals) && M.DepositsKept(s.deposits, u.deposits)
  {
    forall r | 0 <= r < |s.deposits|
      ensures M.DepositKept(s.deposits[r], u.deposits[r])
    {
      assert M.DepositKept(s.deposits[r], t.deposits[r]) && M.DepositKept(t.deposits[r], u.deposits[r]);
    }
    forall r | 0 <= r < |s.withdrawals|
      ensures R.WithdrawalKept(s.withdrawals[r], u.withdrawals[r])
    {
      assert R.WithdrawalKept(s.withdrawals[r], t.withdrawals[r])
        && R.WithdrawalKept(t.withdrawals[r], u.withdrawals[r]);
    }
  }

  // ---- caps ----------------------------------------------------------------

  /** Whatever the address, the instant and the run, the live releases created in
      the 24 hours before the instant stay under the cap. */
  lemma WithdrawalCapHolds(cfg: Config, s: State, events: seq<Event>, from: string, t: int, fairStart: nat,
    baseStart: nat)
    requires Inv(cfg, s, fairStart, baseStart)
    ensures WindowSats(Run(cfg, s, events).withdrawals, from, t) <= cfg.withdrawalCapSats
    ensures DayUnderCap(cfg.withdrawalCapSats, Run(cfg, s, events).withdrawals, from, t)
  {
    InvRun(cfg, s, events, fairStart, baseStart);
    EveryWindowUnderCap(cfg.withdrawalCapSats, Run(cfg, s, events).withdrawals, from, t);
    LiveRowsUnderCap(cfg.withdrawalCapSats, Run(cfg, s, events).withdrawals, from, t);
  }

  lemma {:induction false} TvlRun(cfg: Config, s: State, events: seq<Event>, bound: nat, fairStart: nat, baseStart: nat)
    requires Inv(cfg, s, fairStart, baseStart) && TvlInv(s, bound) && cfg.maxTvlWei <= bound
    ensures TvlInv(Run(cfg, s, events), bound)
  {
    if events != [] {
      var before := events[..|events| - 1];
      TvlRun(cfg, s, before, bound, fairStart, baseStart);
      InvRun(cfg, s, before, fairStart, baseStart);
      TvlInvStep(cfg, Run(cfg, s, before), events[|events| - 1], bound);
    }
  }

  /** The scanner holds no readings. */
  predicate NoReadings(s: State) {
    s.fair.supply.None? && s.fair.inFlight.None? && !s.stale && !s.hazard
  }

  /** The TVL cap, unless some deposit was confirmed on a supply reading that was
      followed by the settlement of a mint and only then by the in-flight reading. */
  lemma TvlCapHolds(cfg: Config, s: State, events: seq<Event>, fairStart: nat, baseStart: nat)
    requires Inv(cfg, s, fairStart, baseStart) && NoReadings(s)
    ensures var t := Run(cfg, s, events);
      !t.hazard ==>
        t.supply + UnexecutedWei(t) + LostPendingWei(t)
          <= (if MintSide(s) <= cfg.maxTvlWei then cfg.maxTvlWei else MintSide(s)) + LostMintWei(t)
  {
    TvlRun(cfg, s, events, if MintSide(s) <= cfg.maxTvlWei then cfg.maxTvlWei else MintSide(s), fairStart, baseStart);
  }

  /** Taking the in-flight reading first is enough for the cap to hold. */
  lemma TvlCapHoldsFlightFirst(cfg: Config, s: State, events: seq<Event>, fairStart: nat, baseStart: nat)
    requires Inv(cfg, s, fairStart, baseStart) && NoReadings(s) && ReadsInFlightFirst(cfg, s, events)
    ensures var t := Run(cfg, s, events);
      t.supply + UnexecutedWei(t) + LostPendingWei(t)
        <= (if MintSide(s) <= cfg.maxTvlWei then cfg.maxTvlWei else MintSide(s)) + LostMintWei(t)
  {
    FlightFirstIsSafe(cfg, s, events);
    TvlCapHolds(cfg, s, events, fairStart, baseStart);
  }

  // ---- scanning ------------------------------------------------------------

  lemma {:induction false} KnownInTimeRun(cfg: Config, s: State, events: seq<Event>, a: FairAddress, h: nat,
                                          fairStart: nat, baseStart: nat)
    requires Inv(cfg, s, fairStart, baseStart) && C.KnownInTime(s, a, h)
    ensures C.KnownInTime(Run(cfg, s, events), a, h)
  {
    if events != [] {
      var before := events[..|events| - 1];
      KnownInTimeRun(cfg, s, before, a, h, fairStart, baseStart);
      InvRun(cfg, s, before, fairStart, baseStart);
      C.KnownInTimeStep(cfg, Run(cfg, s, before), events[|events| - 1], a, h);
    }
  }

  /** If a row stands at an address before the scan of a block begins, then once
      the cursor is past the block every vout of it that pays the address has
      exactly one row. */
  lemma DepositsAreRecordedOnce(cfg: Config, s: State, events: seq<Event>, a: FairAddress,
                                h: nat, t: nat, v: nat, fairStart: nat, baseStart: nat)
    requires Inv(cfg, s, fairStart, baseStart) && RowStands(s.deposits, a)
    requires s.fairCursor + 1 < h || (s.fairCursor + 1 == h && s.fair.scan.None?)
    requires var u := Run(cfg, s, events);
      && h <= u.fairCursor && h < |u.fairBlocks| && t < |u.fairBlocks[h]| && v < |u.fairBlocks[h][t].vouts|
      && u.fairBlocks[h][t].vouts[v].address == Some(a)
    ensures var u := Run(cfg, s, events);
      C.RecordedExactlyOnce(u.deposits, Outpoint(u.fairBlocks[h][t].txid, u.fairBlocks[h][t].vouts[v].n))
  {
    KnownInTimeRun(cfg, s, events, a, h, fairStart, baseStart);
    InvRun(cfg, s, events, fairStart, baseStart);
    C.KnownInTimeIsRecorded(cfg, Run(cfg, s, events), fairStart, a, h, t, v);
  }

  /** After every run, a decodable burn behind the cursor has exactly one row,
      unless the cursor was written past it after a break; then it has none. */
  lemma BurnsAreRecordedOnceIff(cfg: Config, s: State, events: seq<Event>, i: nat, fairStart: nat, baseStart: nat)
    requires Inv(cfg, s, fairStart, baseStart) && Passed(Run(cfg, s, events), baseStart, i)
    ensures var t := Run(cfg, s, events);
      && (RecordedExactlyOnce(t.withdrawals, t.logs[i].key) <==> i !in t.missed)
      && (i in t.missed ==> !BurnRecorded(t.withdrawals, t.logs[i].key))
  {
    InvRun(cfg, s, events, fairStart, baseStart);
    PassedBurnsHaveOneRowIff(cfg, Run(cfg, s, events), baseStart, i);
  }

  /** Some event of the run wrote the cursor after the abort flag had gone up
      before a log of the window and a decodable log from there on had no row. */
  predicate WritesAfterABreak(cfg: Config, s: State, events: seq<Event>) {
    exists k :: 0 <= k < |events| && MissesAt(cfg, s, events, k)
  }

  predicate MissesAt(cfg: Config, s: State, events: seq<Event>, k: nat)
    requires k < |events|
  {
    events[k] == BaseWatcher(AdvanceBaseCursor) && CutBeforeABurn(Run(cfg, s, events[..k]))
  }

  /** A run misses a burn exactly when it has such a write. */
  lemma {:induction false} RunMissesIff(cfg: Config, s: State, events: seq<Event>, fairStart: nat, baseStart: nat)
    requires Inv(cfg, s, fairStart, baseStart)
    ensures s.missed <= Run(cfg, s, events).missed
    ensures Run(cfg, s, events).missed != s.missed <==> WritesAfterABreak(cfg, s, events)
  {
    if events != [] {
      var n := |events| - 1;
      RunMissesIff(cfg, s, events[..n], fairStart, baseStart);
      RunStepMissesIff(cfg, s, events, fairStart, baseStart);
      LastOrEarlier(cfg, s, events);
      GrowsIff(s.missed, Run(cfg, s, events[..n]).missed, Run(cfg, s, events).missed,
        WritesAfterABreak(cfg, s, events[..n]), MissesAt(cfg, s, events, n));
    }
  }

  lemma GrowsIff(first: set<nat>, middle: set<nat>, last: set<nat>, earlier: bool, later: bool)
    requires first <= middle <= last && (middle != first <==> earlier) && (last != middle <==> later)
    ensures first <= last && (last != first <==> earlier || later)
  {
  }

  lemma RunStepMissesIff(cfg: Config, s: State, events: seq<Event>, fairStart: nat, baseStart: nat)
    requires Inv(cfg, s, fairStart, baseStart) && events != []
    ensures var n := |events| - 1; var t, u := Run(cfg, s, events[..n]), Run(cfg, s, events);
      t.missed <= u.missed && (u.missed != t.missed <==> MissesAt(cfg, s, events, n))
  {
    var n := |events| - 1;
    InvRun(cfg, s, events[..n], fairStart, baseStart);
    EventMissesIff(cfg, Run(cfg, s, events[..n]), events[n], baseStart);
  }

  lemma LastOrEarlier(cfg: Config, s: State, events: seq<Event>)
    requires events != []
    ensures var n := |events| - 1;
      WritesAfterABreak(cfg, s, events) <==> WritesAfterABreak(cfg, s, events[..n]) || MissesAt(cfg, s, events, n)
  {
    var n := |events| - 1;
    forall k | 0 <= k < n
      ensures MissesAt(cfg, s, events[..n], k) <==> MissesAt(cfg, s, events, k)
    {
      assert events[..n][..k] == events[..k];
    }
  }

  /** A flag that never goes up breaks no loop, so no burn is missed. */
  predicate NeverAborts(events: seq<Event>) {
    forall k :: 0 <= k < |events| ==> events[k] != Outside(Abort)
  }

  predicate NotBroken(s: State) {
    !s.aborted && (s.base.scan.Some? ==> !s.base.scan.value.cut)
  }

  lemma ScannerBreaksNothing(cfg: Config, s: State, s': State, e: BaseEvent)
    requires NotBroken(s) && s' == BaseStep(cfg, s, e)
    ensures NotBroken(s')
  {
  }

  lemma NotBrokenStep(cfg: Config, s: State, e: Event)
    requires NotBroken(s) && e != Outside(Abort)
    ensures NotBroken(Step(cfg, s, e))
  {
    match e
    case Outside(o) => OutsideAborts(s, OutsideStep(s, o), o);
    case BaseWatcher(b) => ScannerBreaksNothing(cfg, s, BaseStep(cfg, s, b), b);
    case FairWatcher(f) => assert SameWithdrawalSide(s, FairStep(cfg, s, f));
    case MintWorker(m) => assert SameWithdrawalSide(s, MintStep(s, m));
    case ReleaseWorker(r) => assert ReleaseStep(s, r).base == s.base && ReleaseStep(s, r).aborted == s.aborted;
  }

  lemma OutsideAborts(s: State, s': State, e: OutsideEvent)
    requires s' == OutsideStep(s, e) && !e.Abort?
    ensures s'.aborted == s.aborted
  {
  }

  lemma {:induction false} NotBrokenRun(cfg: Config, s: State, events: seq<Event>)
    requires NotBroken(s) && NeverAborts(events)
    ensures NotBroken(Run(cfg, s, events))
  {
    if events != [] {
      var n := |events| - 1;
      NotBrokenRun(cfg, s, events[..n]);
      NotBrokenStep(cfg, Run(cfg, s, events[..n]), events[n]);
    }
  }

  lemma NoAbortMissesNothing(cfg: Config, s: State, events: seq<Event>, fairStart: nat, baseStart: nat)
    requires Inv(cfg, s, fairStart, baseStart) && NotBroken(s) && NeverAborts(events)
    ensures Run(cfg, s, events).missed == s.missed
  {
    RunMissesIff(cfg, s, events, fairStart, baseStart);
    forall k | 0 <= k < |events|
      ensures !MissesAt(cfg, s, events, k)
    {
      NotBrokenRun(cfg, s, events[..k]);
    }
  }

  // ---- rejected burns ----------------------------------------------------------

  lemma {:induction false} FailedRun(cfg: Config, s: State, events: seq<Event>, r: nat, fairStart: nat, baseStart: nat)
    requires Inv(cfg, s, fairStart, baseStart)
    requires r < |s.withdrawals| && s.withdrawals[r].status.Failed? && R.NeverSent(s.sends, r)
    ensures var t := Run(cfg, s, events);
      r < |t.withdrawals| && t.withdrawals[r] == s.withdrawals[r] && R.NeverSent(t.sends, r)
  {
    if events != [] {
      var before := events[..|events| - 1];
      FailedRun(cfg, s, before, r, fairStart, baseStart);
      InvRun(cfg, s, before, fairStart, baseStart);
      R.FailedStaysUnsent(cfg, Run(cfg, s, before), events[|events| - 1], r);
    }
  }

  lemma RowIsAdded(cfg: Config, s: State, valid: bool)
    requires CanRecordBurn(s, valid)
    ensures var u := Step(cfg, s, BaseWatcher(RecordBurn(valid)));
      u.withdrawals == s.withdrawals + [WithdrawalRow(cfg, s, valid)] && u.sends == s.sends
  {
  }

  /** A burn that was rejected when it was recorded, be it for a validation that
      failed, is never paid: its row stays FAILED and nothing is ever sent for it. */
  lemma RejectedIsNeverPaid(cfg: Config, s: State, valid: bool, later: seq<Event>, fairStart: nat, baseStart: nat)
    requires Inv(cfg, s, fairStart, baseStart)
    requires CanRecordBurn(s, valid) && WithdrawalRow(cfg, s, valid).status.Failed?
    ensures var t := Run(cfg, Step(cfg, s, BaseWatcher(RecordBurn(valid))), later); var r := |s.withdrawals|;
      && r < |t.withdrawals| && t.withdrawals[r] == WithdrawalRow(cfg, s, valid)
      && (forall x :: 0 <= x < |t.sends| ==> t.sends[x].row != r)
  {
    InvStep(cfg, s, BaseWatcher(RecordBurn(valid)), fairStart, baseStart);
    RowIsAdded(cfg, s, valid);
    forall x | 0 <= x < |s.sends| ensures s.sends[x].row < |s.withdrawals| {
      assert R.SendOk(s.withdrawals, s.sends[x], x, s.heldSend);
    }
    FailedRun(cfg, Step(cfg, s, BaseWatcher(RecordBurn(valid))), later, |s.withdrawals|, fairStart, baseStart);
  }

  // ---- confirmation depth ----------------------------------------------------

  /** The payment of an outpoint lies under enough confirmations. */
  predicate PaidDeep(cfg: Config, blocks: seq<FairBlock>, d: Deposit) {
    && d.outpoint.Some? && d.height + cfg.fairConfirmations < |blocks|
    && exists t, v :: 0 <= t < |blocks[d.height]| && 0 <= v < |blocks[d.height][t].vouts|
         && D.IsVoutOf(blocks[d.height][t], blocks[d.height][t].vouts[v], d)
  }

  /** No mint is broadcast for a payment, and nothing is sent for a burn, that is
      not on its chain under the configured number of blocks. */
  lemma OnlyDeepEventsArePaid(cfg: Config, s: State, events: seq<Event>, fairStart: nat, baseStart: nat)
    requires Inv(cfg, s, fairStart, baseStart)
    ensures var t := Run(cfg, s, events);
      && (forall x :: 0 <= x < |t.mints| ==>
            t.mints[x].row < |t.deposits| && PaidDeep(cfg, t.fairBlocks, t.deposits[t.mints[x].row]))
      && (forall x :: 0 <= x < |t.sends| ==>
            t.sends[x].row < |t.withdrawals| && HasLog(cfg, t.logs, t.baseTip, t.withdrawals[t.sends[x].row]))
  {
    var t := Run(cfg, s, events);
    InvRun(cfg, s, events, fairStart, baseStart);
    forall x | 0 <= x < |t.mints|
      ensures t.mints[x].row < |t.deposits| && PaidDeep(cfg, t.fairBlocks, t.deposits[t.mints[x].row])
    {
      assert M.MintOk(t.deposits, t.mints[x], x, t.heldMint);
      assert D.OnChain(cfg, t.fairBlocks, t.deposits[t.mints[x].row]);
    }
    assert forall x :: 0 <= x < |t.sends| ==> R.SendOk(t.withdrawals, t.sends[x], x, t.heldSend);
  }

  // ---- recipients ------------------------------------------------------------

  /** After every run, a mint for a payment to an address pays the intent
      registered there exactly when it fills the intent's own slot or no payment
      came in before the intent; without an intent it pays the zero address. */
  lemma MintsPayTheIntentIff(cfg: Config, s: State, events: seq<Event>, x: nat, fairStart: nat, baseStart: nat)
    requires Inv(cfg, s, fairStart, baseStart) && x < |Run(cfg, s, events).mints|
    ensures var t := Run(cfg, s, events); var row := t.mints[x].row;
      && row < |t.deposits| && t.deposits[row].fairAddress.Derived?
      && var k := t.deposits[row].fairAddress.index;
         && (k in t.intents && t.intents[k].baseAddress != ZERO_ADDRESS ==>
               (t.mints[x].to == t.intents[k].baseAddress
                <==> row == t.intents[k].row || !Recipient.Preceded(t, k)))
         && (k !in t.intents ==> t.mints[x].to == ZERO_ADDRESS)
  {
    InvRun(cfg, s, events, fairStart, baseStart);
    Recipient.MintPaysTheIntentIff(cfg, Run(cfg, s, events), x);
  }

  lemma {:induction false} AcceptedRun(cfg: Config, s: State, events: seq<Event>, r: nat, fairStart: nat,
    baseStart: nat)
    requires Inv(cfg, s, fairStart, baseStart) && r < |s.deposits| && Recipient.IsAccepted(s.deposits[r])
    ensures var t := Run(cfg, s, events);
      && r < |t.deposits| && Recipient.IsAccepted(t.deposits[r])
      && t.deposits[r].baseAddress == s.deposits[r].baseAddress
  {
    if events != [] {
      var before := events[..|events| - 1];
      AcceptedRun(cfg, s, before, r, fairStart, baseStart);
      InvRun(cfg, s, before, fairStart, baseStart);
      Recipient.AcceptedStays(cfg, Run(cfg, s, before), events[|events| - 1], r);
    }
  }

  /** A payment accepted for the zero address stays accepted and is never paid,
      whatever happens: no mint for it ever succeeds. */
  lemma ZeroAddressIsNeverPaid(cfg: Config, s: State, events: seq<Event>, r: nat, fairStart: nat, baseStart: nat)
    requires Inv(cfg, s, fairStart, baseStart)
    requires r < |s.deposits| && Recipient.IsAccepted(s.deposits[r]) && s.deposits[r].baseAddress == ZERO_ADDRESS
    ensures var t := Run(cfg, s, events);
      && r < |t.deposits| && Recipient.IsAccepted(t.deposits[r]) && !t.deposits[r].status.Minted?
      && (forall x :: 0 <= x < |t.mints| && t.mints[x].row == r ==> !t.mints[x].outcome.Success?)
  {
    AcceptedRun(cfg, s, events, r, fairStart, baseStart);
    InvRun(cfg, s, events, fairStart, baseStart);
    Recipient.ZeroIsNeverPaid(Run(cfg, s, events), r);
  }
}
