/** Burns behind the cursor: each has exactly one withdrawal row, but for those
    the cursor was written past after the abort flag ended the loop over the
    logs of their window. */
module BurnScan {
  import opened Money
  import opened Rows
  import opened Protocol

  /** The row was written for this log, with the amount its outcome calls for.
      A row that failed after it was accepted keeps its net amount. */
  predicate RowOfLog(cfg: Config, w: Withdrawal, log: BurnLog) {
    && w.key == log.key && w.from == log.from && w.destination == log.destination
    && log.decodable
    && (w.amountSats == ApplyFee(log.wei / SATS_TO_WEI, cfg.feeBps)
        || (w.status.Failed? && w.amountSats == log.wei / SATS_TO_WEI))
  }

  /** The row's burn is on chain, under enough confirmations. */
  predicate HasLog(cfg: Config, logs: seq<BurnLog>, tip: nat, w: Withdrawal) {
    exists i :: 0 <= i < |logs| && RowOfLog(cfg, w, logs[i]) && logs[i].block + cfg.baseConfirmations <= tip
  }

  /** The chain's logs and the rows written for them. */
  predicate BurnRowsInv(cfg: Config, s: State) {
    && (forall i :: 0 <= i < |s.logs| ==> s.logs[i].block <= s.baseTip + 1)
    && (forall i, j :: 0 <= i < j < |s.logs| ==> s.logs[i].key != s.logs[j].key)
    && (forall i, j :: 0 <= i < j < |s.withdrawals| ==> s.withdrawals[i].key != s.withdrawals[j].key)
    && (forall i :: 0 <= i < |s.withdrawals| ==> HasLog(cfg, s.logs, s.baseTip, s.withdrawals[i]))
  }

  predicate HasRow(s: State, i: nat)
    requires i < |s.logs|
  {
    BurnRecorded(s.withdrawals, s.logs[i].key)
  }

  /** The window being scanned: its logs, and the rows of those already done. */
  ghost predicate WindowOk(cfg: Config, s: State) {
    s.base.scan.Some? ==>
      var scan := s.base.scan.value;
      && s.baseCursor < scan.to && scan.to + cfg.baseConfirmations <= s.baseTip
      && (forall i: nat :: i in scan.found <==> i < |s.logs| && s.baseCursor < s.logs[i].block <= scan.to)
      && (forall k :: 0 <= k < scan.next && k < |scan.found| ==> Written(s, scan.found[k]))
  }

  /** The log is not decodable, or it has its row. */
  predicate Written(s: State, i: nat) {
    i < |s.logs| && (s.logs[i].decodable ==> HasRow(s, i))
  }

  /** A decodable burn that the cursor has passed. */
  predicate Passed(s: State, start: nat, i: nat) {
    i < |s.logs| && start < s.logs[i].block <= s.baseCursor && s.logs[i].decodable
  }

  ghost predicate BurnCursorInv(cfg: Config, s: State, start: nat) {
    && start <= s.baseCursor <= s.baseTip
    && WindowOk(cfg, s)
    && (forall i :: i in s.missed ==> Passed(s, start, i))
    && (forall i: nat :: Passed(s, start, i) ==> (HasRow(s, i) <==> i !in s.missed))
  }

  ghost predicate BurnInv(cfg: Config, s: State, start: nat) {
    BurnRowsInv(cfg, s) && BurnCursorInv(cfg, s, start)
  }

  // ---- the chain grows and rows are relabelled --------------------------------

  /** The chain grew and the rows kept their burn columns: no status revived. */
  predicate Grown(s: State, s': State) {
    && s.logs <= s'.logs && s.baseTip <= s'.baseTip && s'.baseCursor == s.baseCursor
    && s'.missed == s.missed && s'.base == s.base
    && |s'.withdrawals| == |s.withdrawals|
    && forall i :: 0 <= i < |s.withdrawals| ==>
         && s'.withdrawals[i]
           == s.withdrawals[i].(status := s'.withdrawals[i].status, fairTx := s'.withdrawals[i].fairTx)
         && (s.withdrawals[i].status.Failed? ==> s'.withdrawals[i].status.Failed?)
  }

  lemma GrowthKeepsRows(cfg: Config, s: State, s': State)
    requires Grown(s, s')
    requires forall i :: 0 <= i < |s.withdrawals| ==> HasLog(cfg, s.logs, s.baseTip, s.withdrawals[i])
    ensures forall i :: 0 <= i < |s'.withdrawals| ==> HasLog(cfg, s'.logs, s'.baseTip, s'.withdrawals[i])
  {
    forall i | 0 <= i < |s'.withdrawals|
      ensures HasLog(cfg, s'.logs, s'.baseTip, s'.withdrawals[i])
    {
      assert HasLog(cfg, s.logs, s.baseTip, s.withdrawals[i]);
      var k :| 0 <= k < |s.logs| && RowOfLog(cfg, s.withdrawals[i], s.logs[k])
        && s.logs[k].block + cfg.baseConfirmations <= s.baseTip;
      assert RowOfLog(cfg, s'.withdrawals[i], s'.logs[k]);
    }
  }

  predicate NewLogsOk(logs: seq<BurnLog>, logs': seq<BurnLog>, tip: nat, tip': nat) {
    && (forall i :: 0 <= i < |logs'| ==> logs'[i].block <= tip' + 1)
    && (forall i, j :: 0 <= i < j < |logs'| ==> logs'[i].key != logs'[j].key)
    && (forall i :: |logs| <= i < |logs'| ==> logs'[i].block > tip)
  }

  /** The same rows have the same keys. */
  lemma RowsOfLogsStay(ws: seq<Withdrawal>, ws': seq<Withdrawal>, key: BurnKey)
    requires |ws| == |ws'| && forall i :: 0 <= i < |ws| ==> ws'[i].key == ws[i].key
    ensures BurnRecorded(ws', key) <==> BurnRecorded(ws, key)
  {
    if BurnRecorded(ws, key) {
      var k :| 0 <= k < |ws| && ws[k].key == key;
      assert ws'[k].key == key;
    }
  }

  lemma GrowthKeepsBurnInv(cfg: Config, s: State, s': State, start: nat)
    requires BurnInv(cfg, s, start) && Grown(s, s')
    requires NewLogsOk(s.logs, s'.logs, s.baseTip, s'.baseTip)
    ensures BurnInv(cfg, s', start)
  {
    GrowthKeepsRows(cfg, s, s');
    forall key ensures BurnRecorded(s'.withdrawals, key) <==> BurnRecorded(s.withdrawals, key) {
      RowsOfLogsStay(s.withdrawals, s'.withdrawals, key);
    }
    assert forall i :: 0 <= i < |s.logs| ==> s'.logs[i] == s.logs[i];
    GrowthKeepsWindow(cfg, s, s');
    forall i: nat | Passed(s', start, i)
      ensures HasRow(s', i) <==> i !in s'.missed
    {
      assert Passed(s, start, i);
    }
  }

  lemma GrowthKeepsWindow(cfg: Config, s: State, s': State)
    requires WindowOk(cfg, s) && Grown(s, s') && NewLogsOk(s.logs, s'.logs, s.baseTip, s'.baseTip)
    requires forall key :: BurnRecorded(s'.withdrawals, key) <==> BurnRecorded(s.withdrawals, key)
    ensures WindowOk(cfg, s')
  {
    if s.base.scan.Some? {
      var scan := s.base.scan.value;
      assert forall i: nat :: i in scan.found ==> i < |s.logs| && s'.logs[i] == s.logs[i];
      forall k | 0 <= k < scan.next && k < |scan.found|
        ensures Written(s', scan.found[k])
      {
        assert Written(s, scan.found[k]);
      }
    }
  }

  lemma NewBurnsAreAhead(cfg: Config, s: State, e: OutsideEvent)
    requires BurnRowsInv(cfg, s)
    ensures NewLogsOk(s.logs, OutsideStep(s, e).logs, s.baseTip, OutsideStep(s, e).baseTip)
  {
  }

  lemma ReleaseGrows(s: State, e: ReleaseEvent)
    ensures Grown(s, ReleaseStep(s, e))
  {
  }

  // ---- the scanner -------------------------------------------------------------

  lemma RowFitsLog(cfg: Config, s: State, valid: bool)
    requires CanRecordBurn(s, valid)
    ensures RowOfLog(cfg, WithdrawalRow(cfg, s, valid), TheLog(s))
  {
  }

  lemma RecordKeepsRows(cfg: Config, s: State, s': State, log: nat, w: Withdrawal)
    requires BurnRowsInv(cfg, s) && s'.logs == s.logs && s'.baseTip == s.baseTip
      && s'.withdrawals == s.withdrawals + [w]
    requires log < |s.logs| && RowOfLog(cfg, w, s.logs[log]) && !BurnRecorded(s.withdrawals, w.key)
    requires s.logs[log].block + cfg.baseConfirmations <= s.baseTip
    ensures BurnRowsInv(cfg, s')
  {
    assert HasLog(cfg, s.logs, s.baseTip, w);
    assert forall i :: 0 <= i < |s.withdrawals| ==> s.withdrawals[i].key != w.key;
  }

  /** A new row is for its own burn and for no other. */
  lemma OnlyTheLogIsRecorded(s: State, s': State, log: nat, w: Withdrawal, i: nat)
    requires s'.logs == s.logs && s'.withdrawals == s.withdrawals + [w]
    requires log < |s.logs| && w.key == s.logs[log].key && i < |s.logs|
    requires forall i, j :: 0 <= i < j < |s.logs| ==> s.logs[i].key != s.logs[j].key
    ensures HasRow(s', i) <==> HasRow(s, i) || i == log
  {
    assert s'.withdrawals[|s.withdrawals|].key == s.logs[log].key;
    if HasRow(s, i) {
      var k :| 0 <= k < |s.withdrawals| && s.withdrawals[k].key == s.logs[i].key;
      assert s'.withdrawals[k].key == s.logs[i].key;
    }
  }

  lemma RecordKeepsBurnInv(cfg: Config, s: State, s': State, valid: bool, start: nat)
    requires BurnInv(cfg, s, start) && CanRecordBurn(s, valid) && s' == BaseStep(cfg, s, RecordBurn(valid))
    ensures BurnInv(cfg, s', start)
  {
    var log := s.base.scan.value.found[s.base.scan.value.next];
    var w := WithdrawalRow(cfg, s, valid);
    RowFitsLog(cfg, s, valid);
    assert log in s.base.scan.value.found;
    RecordKeepsRows(cfg, s, s', log, w);
    forall i: nat | i < |s.logs| ensures HasRow(s', i) <==> HasRow(s, i) || i == log {
      OnlyTheLogIsRecorded(s, s', log, w, i);
    }
    assert forall i: nat :: Passed(s', start, i) <==> Passed(s, start, i);
    assert s'.base.scan == s.base.scan;
    var scan := s.base.scan.value;
    forall k | 0 <= k < scan.next && k < |scan.found|
      ensures Written(s', scan.found[k])
    {
      assert Written(s, scan.found[k]);
    }
  }

  /** Rows and cursor stay; the scanner may stand elsewhere. */
  lemma StillKeepsBurnInv(cfg: Config, s: State, s': State, start: nat)
    requires BurnInv(cfg, s, start) && WindowOk(cfg, s')
    requires s'.logs == s.logs && s'.baseTip == s.baseTip && s'.withdrawals == s.withdrawals
    requires s'.baseCursor == s.baseCursor && s'.missed == s.missed
    ensures BurnInv(cfg, s', start)
  {
    assert forall i: nat :: Passed(s', start, i) <==> Passed(s, start, i);
  }

  /** Another log, or the loop is broken off. */
  lemma NextKeepsWindow(cfg: Config, s: State, s': State, e: BaseEvent)
    requires WindowOk(cfg, s) && s' == BaseStep(cfg, s, e) && (e.NextLog? || e.BreakLoop?)
    ensures WindowOk(cfg, s')
  {
    if s'.base.scan.Some? {
      var scan, scan' := s.base.scan.value, s'.base.scan.value;
      assert scan'.found == scan.found && scan'.to == scan.to;
      forall k | 0 <= k < scan'.next && k < |scan'.found| ensures Written(s', scan'.found[k]) {
        assert k < scan.next ==> Written(s, scan.found[k]);
      }
    }
  }

  /** Another window, none, or the same. */
  lemma MoveKeepsWindow(cfg: Config, s: State, s': State, e: BaseEvent)
    requires WindowOk(cfg, s) && s' == BaseStep(cfg, s, e)
    requires !e.NextLog? && !e.BreakLoop? && !e.RecordBurn? && !e.AdvanceBaseCursor?
    ensures WindowOk(cfg, s')
  {
    match e
    case BeginWindow(_) => BeginKeepsWindow(cfg, s, s', e);
    case ReadWithdrawalDaily => SameWindow(cfg, s, s');
    case EnqueueRelease(_) => SameWindow(cfg, s, s');
    case _ =>
  }

  lemma SameWindow(cfg: Config, s: State, s': State)
    requires WindowOk(cfg, s) && s'.base.scan == s.base.scan && s'.logs == s.logs && s'.baseTip == s.baseTip
    requires s'.withdrawals == s.withdrawals && s'.baseCursor == s.baseCursor
    ensures WindowOk(cfg, s')
  {
    if s.base.scan.Some? {
      var scan := s.base.scan.value;
      forall k | 0 <= k < scan.next && k < |scan.found|
        ensures Written(s', scan.found[k])
      {
        assert Written(s, scan.found[k]);
      }
    }
  }

  lemma BeginKeepsWindow(cfg: Config, s: State, s': State, e: BaseEvent)
    requires WindowOk(cfg, s) && e.BeginWindow? && s' == BaseStep(cfg, s, e)
    ensures WindowOk(cfg, s')
  {
    if s' == s { SameWindow(cfg, s, s'); }
  }

  /** The cursor write: what has no row and is behind it now is missed. */
  lemma AdvanceKeepsBurnInv(cfg: Config, s: State, s': State, start: nat)
    requires BurnInv(cfg, s, start) && WindowEnded(s) && s' == BaseStep(cfg, s, AdvanceBaseCursor)
    ensures BurnInv(cfg, s', start)
  {
    var scan := s.base.scan.value;
    forall i: nat | Passed(s', start, i)
      ensures HasRow(s', i) <==> i !in s'.missed
    {
      if s.logs[i].block <= s.baseCursor {
        assert Passed(s, start, i);
        assert i !in scan.found;
      } else {
        AheadIsRecordedOrLost(cfg, s, i);
      }
    }
    forall i | i in s'.missed
      ensures Passed(s', start, i)
    {
      if i in s.missed { assert Passed(s, start, i); } else { assert i in scan.found; }
    }
  }

  /** A decodable log of the window has its row, or is lost by the cursor write. */
  lemma AheadIsRecordedOrLost(cfg: Config, s: State, i: nat)
    requires WindowOk(cfg, s) && s.base.scan.Some? && i in s.base.scan.value.found && s.logs[i].decodable
    ensures i in Unrecorded(s, s.base.scan.value.found, s.base.scan.value.next) <==> !HasRow(s, i)
  {
    var scan := s.base.scan.value;
    var k :| 0 <= k < |scan.found| && scan.found[k] == i;
    if !HasRow(s, i) {
      assert k >= scan.next;
      assert Lost(s, scan.found, scan.next, i);
    }
  }

  lemma BaseKeepsBurnInv(cfg: Config, s: State, s': State, e: BaseEvent, start: nat)
    requires BurnInv(cfg, s, start) && s' == BaseStep(cfg, s, e)
    ensures BurnInv(cfg, s', start)
  {
    if e.RecordBurn? {
      if CanRecordBurn(s, e.valid) { RecordKeepsBurnInv(cfg, s, s', e.valid, start); }
    } else if e.AdvanceBaseCursor? {
      if WindowEnded(s) { AdvanceKeepsBurnInv(cfg, s, s', start); }
    } else {
      if e.NextLog? || e.BreakLoop? { NextKeepsWindow(cfg, s, s', e); } else { MoveKeepsWindow(cfg, s, s', e); }
      StillKeepsBurnInv(cfg, s, s', start);
    }
  }

  lemma BurnInvStep(cfg: Config, s: State, e: Event, start: nat)
    requires BurnInv(cfg, s, start)
    ensures BurnInv(cfg, Step(cfg, s, e), start)
  {
    var s' := Step(cfg, s, e);
    match e
    case Outside(o) =>
      NewBurnsAreAhead(cfg, s, o);
      GrowthKeepsBurnInv(cfg, s, s', start);
    case ReleaseWorker(r) =>
      ReleaseGrows(s, r);
      GrowthKeepsBurnInv(cfg, s, s', start);
    case BaseWatcher(b) => BaseKeepsBurnInv(cfg, s, s', b, start);
    case FairWatcher(f) => GrowthKeepsBurnInv(cfg, s, s', start);
    case MintWorker(m) => GrowthKeepsBurnInv(cfg, s, s', start);
  }

  predicate RecordedExactlyOnce(ws: seq<Withdrawal>, key: BurnKey) {
    exists i :: 0 <= i < |ws| && ws[i].key == key && forall j :: 0 <= j < |ws| && ws[j].key == key ==> j == i
  }

  /** A decodable burn in (start, cursor] has one row and no more, unless it was
      missed; then it has none. */
  lemma PassedBurnsHaveOneRowIff(cfg: Config, s: State, start: nat, i: nat)
    requires BurnInv(cfg, s, start) && Passed(s, start, i)
    ensures RecordedExactlyOnce(s.withdrawals, s.logs[i].key) <==> i !in s.missed
    ensures i in s.missed ==> !BurnRecorded(s.withdrawals, s.logs[i].key)
  {
    if HasRow(s, i) {
      var k :| 0 <= k < |s.withdrawals| && s.withdrawals[k].key == s.logs[i].key;
      assert forall j :: 0 <= j < |s.withdrawals| && s.withdrawals[j].key == s.logs[i].key ==> j == k;
    }
  }

  // ---- when a burn is missed ---------------------------------------------------

  /** The abort flag went up before log `next` of the window, and some decodable
      log from there on has no row. */
  predicate CutBeforeABurn(s: State) {
    && s.base.scan.Some? && s.base.scan.value.cut
    && exists k :: s.base.scan.value.next <= k < |s.base.scan.value.found| && Unwritten(s, s.base.scan.value.found[k])
  }

  predicate Unwritten(s: State, i: nat) {
    i < |s.logs| && s.logs[i].decodable && !BurnRecorded(s.withdrawals, s.logs[i].key)
  }

  /** An event makes the cursor pass a burn without a row exactly when it is the
      write after such a break. */
  lemma EventMissesIff(cfg: Config, s: State, e: Event, start: nat)
    requires BurnInv(cfg, s, start)
    ensures s.missed <= Step(cfg, s, e).missed
    ensures Step(cfg, s, e).missed != s.missed <==> e == BaseWatcher(AdvanceBaseCursor) && CutBeforeABurn(s)
  {
    var s' := Step(cfg, s, e);
    if e == BaseWatcher(AdvanceBaseCursor) && WindowEnded(s) {
      WriteMissesIff(cfg, s, s', start);
    } else {
      OthersMissNothing(cfg, s, e);
    }
  }

  lemma OthersMissNothing(cfg: Config, s: State, e: Event)
    requires !(e == BaseWatcher(AdvanceBaseCursor) && WindowEnded(s))
    ensures Step(cfg, s, e).missed == s.missed
  {
    match e
    case Outside(o) =>
    case FairWatcher(f) => assert SameWithdrawalSide(s, FairStep(cfg, s, f));
    case MintWorker(m) => assert SameWithdrawalSide(s, MintStep(s, m));
    case BaseWatcher(b) =>
    case ReleaseWorker(r) =>
  }

  lemma WriteMissesIff(cfg: Config, s: State, s': State, start: nat)
    requires BurnInv(cfg, s, start) && WindowEnded(s) && s' == BaseStep(cfg, s, AdvanceBaseCursor)
    ensures s.missed <= s'.missed && (s'.missed != s.missed <==> CutBeforeABurn(s))
  {
    var scan := s.base.scan.value;
    var lost := Unrecorded(s, scan.found, scan.next);
    if CutBeforeABurn(s) {
      var k :| scan.next <= k < |scan.found| && Unwritten(s, scan.found[k]);
      assert Lost(s, scan.found, scan.next, scan.found[k]);
      assert scan.found[k] in scan.found;
      assert scan.found[k] in lost;
      assert scan.found[k] !in s.missed;
    } else {
      assert forall i :: i in lost ==> Lost(s, scan.found, scan.next, i);
      assert lost == {};
    }
  }
}
