/** The abort flag and the burns it can cost: the loop over a window's logs stops
    when the flag goes up, and the cursor is written past the window all the same. */
module BurnLoss {
  import opened Wrappers
  import opened Rows
  import opened Protocol
  import opened MintLedger
  import opened Recipient
  import opened BurnScan
  import opened Runs
  import opened Scenario

  const KEY: BurnKey := BurnKey("0xburn", 0)

  /** All that was minted is burned, and confirmed. */
  lemma BurnItAll(cfg: Config, before: seq<Event>, t: State) returns (events: seq<Event>, u: State)
    requires Path(cfg, Genesis(), before, t) && t.supply > 0 && t.logs == []
    ensures Path(cfg, Genesis(), events, u)
    ensures u == t.(supply := 0, logs := [BurnLog(KEY, t.baseTip + 1, "0xa", t.supply, "f", true)],
      baseTip := t.baseTip + 1 + cfg.baseConfirmations)
  {
    var burn := Outside(BridgeBurn(KEY, "0xa", t.supply, "f", true));
    var v := t.(supply := 0, logs := [BurnLog(KEY, t.baseTip + 1, "0xa", t.supply, "f", true)]);
    AllIsBurned(t, v);
    Go(cfg, Genesis(), before, t, burn, v);
    events, u := MineBaseBlocks(cfg, Genesis(), before + [burn], v, 1 + cfg.baseConfirmations);
  }

  lemma AllIsBurned(t: State, v: State)
    requires t.supply > 0 && t.logs == []
    requires v == t.(supply := 0, logs := [BurnLog(KEY, t.baseTip + 1, "0xa", t.supply, "f", true)])
    ensures OutsideStep(t, BridgeBurn(KEY, "0xa", t.supply, "f", true)) == v
  {
  }

  lemma FetchTheWindow(cfg: Config, t: State)
    requires t.base == NO_BASE_MEMORY && |t.logs| == 1 && t.logs[0].block == t.baseCursor + 1
    requires t.baseCursor + 1 + cfg.baseConfirmations <= t.baseTip
    ensures BaseStep(cfg, t, BeginWindow(t.baseCursor + 1))
      == t.(base := BaseMemory(Some(BaseScan(t.baseCursor + 1, [0], 0, false)), None))
  {
    OneLogIn(t.logs, t.baseCursor + 1);
  }

  lemma OneLogIn(logs: seq<BurnLog>, block: nat)
    requires |logs| == 1 && logs[0].block == block
    ensures LogsIn(logs, block, block) == [0]
  {
    var found := LogsIn(logs, block, block);
    assert 0 in found;
    assert forall k :: 0 <= k < |found| ==> found[k] in found;
  }

  lemma Break(cfg: Config, v: State)
    requires v.aborted && |v.logs| == 1 && v.base == BaseMemory(Some(BaseScan(v.baseCursor + 1, [0], 0, false)), None)
    ensures BaseStep(cfg, v, BreakLoop) == v.(base := BaseMemory(Some(BaseScan(v.baseCursor + 1, [0], 0, true)), None))
  {
  }

  /** The scanner fetches the window of the burn, and the flag goes up. */
  lemma FetchThenAbort(cfg: Config, before: seq<Event>, t: State) returns (events: seq<Event>, u: State)
    requires Path(cfg, Genesis(), before, t) && t.base == NO_BASE_MEMORY && |t.logs| == 1
    requires t.logs[0].block == t.baseCursor + 1 && t.baseCursor + 1 + cfg.baseConfirmations <= t.baseTip
    ensures Path(cfg, Genesis(), events, u)
    ensures u == t.(base := BaseMemory(Some(BaseScan(t.baseCursor + 1, [0], 0, false)), None), aborted := true)
  {
    var v;
    events, v := FetchIt(cfg, before, t);
    events, u := RaiseTheFlag(cfg, events, v);
  }

  lemma FetchIt(cfg: Config, before: seq<Event>, t: State) returns (events: seq<Event>, u: State)
    requires Path(cfg, Genesis(), before, t) && t.base == NO_BASE_MEMORY && |t.logs| == 1
    requires t.logs[0].block == t.baseCursor + 1 && t.baseCursor + 1 + cfg.baseConfirmations <= t.baseTip
    ensures Path(cfg, Genesis(), events, u)
    ensures u == t.(base := BaseMemory(Some(BaseScan(t.baseCursor + 1, [0], 0, false)), None))
  {
    var begin := BaseWatcher(BeginWindow(t.baseCursor + 1));
    FetchTheWindow(cfg, t);
    u := t.(base := BaseMemory(Some(BaseScan(t.baseCursor + 1, [0], 0, false)), None));
    assert Step(cfg, t, begin) == BaseStep(cfg, t, BeginWindow(t.baseCursor + 1));
    Go(cfg, Genesis(), before, t, begin, u);
    events := before + [begin];
  }

  lemma RaiseTheFlag(cfg: Config, before: seq<Event>, t: State) returns (events: seq<Event>, u: State)
    requires Path(cfg, Genesis(), before, t)
    ensures Path(cfg, Genesis(), events, u) && u == t.(aborted := true)
  {
    u := t.(aborted := true);
    assert OutsideStep(t, Abort) == u;
    Go(cfg, Genesis(), before, t, Outside(Abort), u);
    events := before + [Outside(Abort)];
  }

  /** The loop over the logs is broken off, and the cursor is written. */
  lemma BreakOff(cfg: Config, before: seq<Event>, t: State) returns (events: seq<Event>, u: State)
    requires Path(cfg, Genesis(), before, t) && t.base == NO_BASE_MEMORY && t.withdrawals == [] && t.missed == {}
    requires |t.logs| == 1 && t.logs[0].block == t.baseCursor + 1 && t.logs[0].decodable
    requires t.baseCursor + 1 + cfg.baseConfirmations <= t.baseTip
    ensures Path(cfg, Genesis(), events, u)
    ensures u.baseCursor == t.baseCursor + 1 && u.missed == {0} && u.logs == t.logs && u.withdrawals == []
  {
    var w;
    events, w := FetchThenAbort(cfg, before, t);
    events, u := BreakAndWrite(cfg, events, w);
  }

  lemma BreakAndWrite(cfg: Config, before: seq<Event>, t: State) returns (events: seq<Event>, u: State)
    requires Path(cfg, Genesis(), before, t) && t.aborted && t.withdrawals == [] && t.missed == {}
    requires |t.logs| == 1 && t.logs[0].decodable
    requires t.base == BaseMemory(Some(BaseScan(t.baseCursor + 1, [0], 0, false)), None)
    ensures Path(cfg, Genesis(), events, u)
    ensures u.baseCursor == t.baseCursor + 1 && u.missed == {0} && u.logs == t.logs && u.withdrawals == []
  {
    var x;
    events, x := BreakIt(cfg, before, t);
    u := WriteTheCursor(cfg, Genesis(), events, x);
    events := events + [BaseWatcher(AdvanceBaseCursor)];
  }

  lemma BreakIt(cfg: Config, before: seq<Event>, t: State) returns (events: seq<Event>, u: State)
    requires Path(cfg, Genesis(), before, t) && t.aborted && |t.logs| == 1
    requires t.base == BaseMemory(Some(BaseScan(t.baseCursor + 1, [0], 0, false)), None)
    ensures Path(cfg, Genesis(), events, u)
    ensures u == t.(base := BaseMemory(Some(BaseScan(t.baseCursor + 1, [0], 0, true)), None))
  {
    Break(cfg, t);
    u := t.(base := BaseMemory(Some(BaseScan(t.baseCursor + 1, [0], 0, true)), None));
    Go(cfg, Genesis(), before, t, BaseWatcher(BreakLoop), u);
    events := before + [BaseWatcher(BreakLoop)];
  }

  lemma WriteTheCursor(cfg: Config, g: State, events: seq<Event>, x: State) returns (u: State)
    requires Path(cfg, g, events, x) && x.base.scan == Some(BaseScan(x.baseCursor + 1, [0], 0, true))
      && x.withdrawals == []
    requires |x.logs| == 1 && x.logs[0].decodable && x.missed == {}
    ensures Path(cfg, g, events + [BaseWatcher(AdvanceBaseCursor)], u)
    ensures u.baseCursor == x.baseCursor + 1 && u.missed == {0} && u.logs == x.logs && u.withdrawals == []
  {
    u := BaseStep(cfg, x, AdvanceBaseCursor);
    Go(cfg, g, events, x, BaseWatcher(AdvanceBaseCursor), u);
    assert [0][0] == 0 && Lost(x, [0], 0, 0);
    assert Unrecorded(x, [0], 0) == {0};
  }

  /** A run from the start that burns WFAIR and never pays for it. */
  lemma BurnCanBeLost(cfg: Config, sats: nat) returns (events: seq<Event>)
    requires Fits(cfg, sats) && NetWei(cfg, sats) > 0
    ensures var t := Run(cfg, Genesis(), events);
      t.missed == {0} && Passed(t, 0, 0) && t.logs[0].wei == NetWei(cfg, sats) && t.withdrawals == []
  {
    var t;
    events, t := ReachLevel(cfg, sats, 1, 1);
    events, t := BurnItAll(cfg, events, t);
    events, t := BreakOff(cfg, events, t);
  }

  /** A missed burn stays missed, whatever happens afterwards: no event ever gives
      it a row, so it is never released. */
  lemma MissedForGood(cfg: Config, s: State, events: seq<Event>, i: nat, fairStart: nat, baseStart: nat)
    requires Inv(cfg, s, fairStart, baseStart) && i in s.missed
    ensures var t := Run(cfg, s, events);
      i in t.missed && i < |t.logs| && t.logs[i].decodable && !BurnRecorded(t.withdrawals, t.logs[i].key)
  {
    RunMissesIff(cfg, s, events, fairStart, baseStart);
    InvRun(cfg, s, events, fairStart, baseStart);
    assert Passed(Run(cfg, s, events), baseStart, i);
  }

  /** No run of the bridge misses a burn, the flag being free to go up or not. */
  ghost predicate NeverMisses(cfg: Config, flagMayGoUp: bool) {
    forall s: State, events: seq<Event>, fairStart: nat, baseStart: nat ::
      NotStarted(s, fairStart, baseStart) && Allowed(flagMayGoUp, events) ==> Run(cfg, s, events).missed == {}
  }

  predicate Allowed(flagMayGoUp: bool, events: seq<Event>) {
    flagMayGoUp || NeverAborts(events)
  }

  // ---- a bridge that takes no deposit --------------------------------------------

  /** Nothing was accepted that is worth anything, nothing minted, nothing burned. */
  predicate Worthless(s: State) {
    && s.supply == 0 && s.logs == []
    && forall r :: 0 <= r < |s.deposits| && IsAccepted(s.deposits[r]) ==> s.deposits[r].amountWei == 0
  }

  lemma MintsAreWorthless(s: State, x: nat)
    requires MintInv(s) && Worthless(s) && x < |s.mints|
    ensures s.mints[x].wei == 0
  {
    assert MintOk(s.deposits, s.mints[x], x, s.heldMint);
  }

  lemma OutsideStaysWorthless(s: State, s': State, e: OutsideEvent)
    requires MintInv(s) && Worthless(s) && s' == OutsideStep(s, e)
    ensures Worthless(s')
  {
    OutsideOnlyMines(s, e, s');
    if e.ExecuteMint? && e.tx < |s.mints| { MintsAreWorthless(s, e.tx); }
  }

  lemma RecordStaysWorthless(cfg: Config, s: State, s': State)
    requires Worthless(s) && !TakesDeposits(cfg) && CanRecord(cfg, s) && s' == FairStep(cfg, s, RecordDeposit)
    ensures Worthless(s')
  {
    RecordWrites(cfg, s, s');
    if DepositRow(cfg, s).status.Confirmed? { assert Fits(cfg, TheVout(s).sats); }
  }

  lemma FairStaysWorthless(cfg: Config, s: State, s': State, e: FairEvent)
    requires Worthless(s) && !TakesDeposits(cfg) && s' == FairStep(cfg, s, e)
    ensures Worthless(s')
  {
    if e.RecordDeposit? && CanRecord(cfg, s) { RecordStaysWorthless(cfg, s, s'); }
  }

  lemma MintStaysWorthless(s: State, s': State, e: MintEvent)
    requires MintInv(s) && Worthless(s) && s' == MintStep(s, e)
    ensures Worthless(s')
  {
    forall r | 0 <= r < |s'.deposits| && IsAccepted(s'.deposits[r])
      ensures IsAccepted(s.deposits[r])
    {
      assert DepositOk(s.deposits[r], s.mints, r);
    }
  }

  lemma {:induction false} StaysWorthless(cfg: Config, s: State, events: seq<Event>, fairStart: nat, baseStart: nat)
    requires NotStarted(s, fairStart, baseStart) && !TakesDeposits(cfg)
    ensures Worthless(Run(cfg, s, events))
  {
    if events != [] {
      var n := |events| - 1;
      var t := Run(cfg, s, events[..n]);
      StaysWorthless(cfg, s, events[..n], fairStart, baseStart);
      NotStartedIsConsistent(cfg, s, fairStart, baseStart);
      InvRun(cfg, s, events[..n], fairStart, baseStart);
      WorthlessStep(cfg, t, events[n], Step(cfg, t, events[n]));
    }
  }

  lemma WorthlessStep(cfg: Config, s: State, e: Event, s': State)
    requires MintInv(s) && Worthless(s) && !TakesDeposits(cfg) && s' == Step(cfg, s, e)
    ensures Worthless(s')
  {
    match e
    case Outside(o) => OutsideStaysWorthless(s, s', o);
    case FairWatcher(f) => FairStaysWorthless(cfg, s, s', f);
    case MintWorker(m) => MintStaysWorthless(s, s', m);
    case BaseWatcher(b) => assert SameDepositSide(s, s');
    case ReleaseWorker(r) => assert SameDepositSide(s, s');
  }

  lemma NoLogNoMiss(cfg: Config, s: State, events: seq<Event>, fairStart: nat, baseStart: nat)
    requires NotStarted(s, fairStart, baseStart) && !TakesDeposits(cfg)
    ensures Run(cfg, s, events).missed == {}
  {
    var t := Run(cfg, s, events);
    StaysWorthless(cfg, s, events, fairStart, baseStart);
    NotStartedIsConsistent(cfg, s, fairStart, baseStart);
    InvRun(cfg, s, events, fairStart, baseStart);
    if i :| i in t.missed {
      MissedForGood(cfg, t, [], i, fairStart, baseStart);
    }
  }

  /** A bridge keeps every burn in every run exactly when the flag never goes up,
      or no deposit can be accepted, so that nothing is there to burn. */
  lemma NeverMissesIff(cfg: Config, flagMayGoUp: bool)
    ensures NeverMisses(cfg, flagMayGoUp) <==> !flagMayGoUp || !TakesDeposits(cfg)
  {
    if flagMayGoUp && TakesDeposits(cfg) {
      var sats: nat :| Fits(cfg, sats) && NetWei(cfg, sats) > 0;
      var events := BurnCanBeLost(cfg, sats);
      assert NotStarted(Genesis(), 0, 0) && Allowed(flagMayGoUp, events);
      assert Run(cfg, Genesis(), events).missed != {};
    } else {
      forall s: State, events: seq<Event>, fairStart: nat, baseStart: nat
        | NotStarted(s, fairStart, baseStart) && Allowed(flagMayGoUp, events)
        ensures Run(cfg, s, events).missed == {}
      {
        if TakesDeposits(cfg) {
          NotStartedIsConsistent(cfg, s, fairStart, baseStart);
          NoAbortMissesNothing(cfg, s, events, fairStart, baseStart);
        } else {
          NoLogNoMiss(cfg, s, events, fairStart, baseStart);
        }
      }
    }
  }
}
