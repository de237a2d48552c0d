/** One pass of the burn scanner: the windows, the cursor and the abort flag,
    which other parts of the process may raise at any moment. */
module BurnTick {
  import opened Wrappers
  import opened Rows
  import opened Protocol
  import opened BurnScan
  import opened Interference
  import opened BridgeDb
  import opened Environment
  import opened BurnWatcher
  import opened LogWindows

  datatype WindowEnd = Scanned | CutShort | Died

  /** The cursor and what was missed are as they were; the chain only grew. */
  predicate Carries(s: State, s': State) {
    && s.logs <= s'.logs && s.baseTip <= s'.baseTip && s'.baseCursor == s.baseCursor && s'.missed == s.missed
    && (s.aborted ==> s'.aborted)
  }

  /** Other actors run while the scanner holds no reading. */
  method Wait(db: Bridge)
    requires db.Valid()
    modifies db
    ensures db.Valid() && Carries(old(db.world), db.world) && db.world.base == old(db.world).base
  {
    db.Others(Base);
  }

  predicate MovedOn(s: State, s': State) {
    s.base.scan.Some? && s'.base == BaseMemory(Some(s.base.scan.value.(next := s.base.scan.value.next + 1)), None)
  }

  lemma StillAt(s: State, u: State)
    requires AtLog(s) && u.base.scan == s.base.scan && s.logs <= u.logs
    ensures AtLog(u) && TheLog(u) == TheLog(s)
  {
  }

  /** `processLog`; an error is thrown out of the loop. */
  method TryLog(db: Bridge, env: Env) returns (ok: bool)
    requires db.Valid() && AtLog(db.world)
    modifies db, env
    ensures db.Valid() && Carries(old(db.world), db.world)
    ensures ok ==> AtLog(db.world) && db.world.base.scan == old(db.world).base.scan
    ensures ok ==> (TheLog(db.world).decodable ==> BurnRecorded(db.world.withdrawals, TheLog(db.world).key))
    ensures !ok ==> db.world.base == NO_BASE_MEMORY
    ensures old(env.setbacks) <= env.setbacks && (!ok ==> env.setbacks > old(env.setbacks))
  {
    ghost var s := db.world;
    var outcome := ProcessLog(db, env);
    if outcome.Crashed? {
      db.DropBaseScan();
      return false;
    }
    StillAt(s, db.world);
    return true;
  }

  /** The log at hand, and on to the next one. */
  method ScanLog(db: Bridge, env: Env) returns (ok: bool)
    requires db.Valid() && AtLog(db.world)
    modifies db, env
    ensures db.Valid() && Carries(old(db.world), db.world)
    ensures ok ==> MovedOn(old(db.world), db.world)
    ensures !ok ==> db.world.base == NO_BASE_MEMORY
    ensures old(env.setbacks) <= env.setbacks && (!ok ==> env.setbacks > old(env.setbacks))
  {
    ok := TryLog(db, env);
    if ok { db.NextLog(); }
  }

  /** The scanner is in the loop over the logs of a window. */
  ghost predicate InWindow(db: Bridge, to: nat, found: seq<nat>, k: nat)
    reads db
  {
    && db.Valid() && db.world.base == BaseMemory(Some(BaseScan(to, found, k, false)), None)
    && Positions(found, db.world.logs)
  }

  predicate Positions(found: seq<nat>, logs: seq<BurnLog>) {
    forall k :: 0 <= k < |found| ==> found[k] < |logs|
  }

  lemma LogsArePositions(logs: seq<BurnLog>, from: nat, to: nat)
    ensures Positions(LogsIn(logs, from, to), logs)
  {
    var found := LogsIn(logs, from, to);
    forall k | 0 <= k < |found| ensures found[k] < |logs| { assert found[k] in found; }
  }

  /** One turn of the loop: broken off if the flag is up, else the next log. */
  method OneLog(db: Bridge, env: Env, to: nat, found: seq<nat>, k: nat) returns (end: WindowEnd)
    requires InWindow(db, to, found, k) && k < |found|
    modifies db, env
    ensures db.Valid() && Carries(old(db.world), db.world)
    ensures end.Scanned? ==> InWindow(db, to, found, k + 1)
    ensures end.CutShort? ==> db.world.aborted && db.world.base == BaseMemory(Some(BaseScan(to, found, k, true)), None)
    ensures end.Died? ==> db.world.base == NO_BASE_MEMORY
    ensures old(env.setbacks) <= env.setbacks && (end.Died? ==> env.setbacks > old(env.setbacks))
  {
    Wait(db);
    if db.world.aborted {
      db.BreakLoop();
      return CutShort;
    }
    var ok := ScanLog(db, env);
    return if ok then Scanned else Died;
  }

  method FetchLogs(db: Bridge, to: nat) returns (found: seq<nat>)
    requires db.Valid() && db.world.base == NO_BASE_MEMORY
    requires db.world.baseCursor < to <= db.world.baseCursor + MAX_LOG_RANGE
      && to + db.cfg.baseConfirmations <= db.world.baseTip
    modifies db
    ensures InWindow(db, to, found, 0) && Carries(old(db.world), db.world)
  {
    LogsArePositions(db.world.logs, db.world.baseCursor + 1, to);
    found := db.GetLogs(to);
  }

  /** The loop over the logs. */
  method ScanLogs(db: Bridge, env: Env, to: nat, found: seq<nat>) returns (end: WindowEnd)
    requires InWindow(db, to, found, 0)
    modifies db, env
    ensures db.Valid() && Carries(old(db.world), db.world)
    ensures end.Died? ==> db.world.base == NO_BASE_MEMORY
    ensures end.Scanned? ==> InWindow(db, to, found, |found|)
    ensures end.CutShort? ==>
      db.world.aborted && exists k :: db.world.base == BaseMemory(Some(BaseScan(to, found, k, true)), None)
    ensures old(env.setbacks) <= env.setbacks && (end.Died? ==> env.setbacks > old(env.setbacks))
  {
    var k := 0;
    while k < |found|
      invariant 0 <= k <= |found| && InWindow(db, to, found, k) && Carries(old(db.world), db.world)
      invariant old(env.setbacks) <= env.setbacks
    {
      end := OneLog(db, env, to, found, k);
      if !end.Scanned? { return; }
      k := k + 1;
    }
    return Scanned;
  }

  /** The logs of one window. The loop is broken off only when the flag is up; an
      error ends the scan without a cursor write. */
  method ScanWindow(db: Bridge, env: Env, to: nat) returns (end: WindowEnd)
    requires db.Valid() && db.world.base == NO_BASE_MEMORY
    requires db.world.baseCursor < to <= db.world.baseCursor + MAX_LOG_RANGE
      && to + db.cfg.baseConfirmations <= db.world.baseTip
    modifies db, env
    ensures db.Valid() && Carries(old(db.world), db.world)
    ensures end.Died? ==> db.world.base == NO_BASE_MEMORY
    ensures !end.Died? ==> WindowEnded(db.world) && db.world.base.scan.value.to == to
    ensures end.Scanned? ==> db.world.base.scan.value.next >= |db.world.base.scan.value.found|
    ensures end.CutShort? ==> db.world.aborted
    ensures old(env.setbacks) <= env.setbacks && (end.Died? ==> env.setbacks > old(env.setbacks))
  {
    var dies := env.Dies();
    if dies { return Died; }
    var found := FetchLogs(db, to);
    end := ScanLogs(db, env, to, found);
  }

  /** One turn of the window loop: the scan, then the cursor, written whether or
      not the scan was cut short. */
  method OneWindow(db: Bridge, env: Env, to: nat) returns (end: WindowEnd)
    requires db.Valid() && db.world.base == NO_BASE_MEMORY
    requires db.world.baseCursor < to <= db.world.baseCursor + MAX_LOG_RANGE
      && to + db.cfg.baseConfirmations <= db.world.baseTip
    modifies db, env
    ensures db.Valid() && db.world.base == NO_BASE_MEMORY && Scans(old(db.world), db.world)
    ensures db.world.baseCursor == if end.Died? then old(db.world).baseCursor else to
    ensures !end.CutShort? ==> db.world.missed == old(db.world).missed
    ensures end.CutShort? ==> db.world.aborted
    ensures old(env.setbacks) <= env.setbacks && (end.Died? ==> env.setbacks > old(env.setbacks))
  {
    Wait(db);
    end := ScanWindow(db, env, to);
    if end.Died? { return; }
    Wait(db);
    var dies := env.Dies();
    if dies {
      db.DropBaseScan();
      return Died;
    }
    ghost var s := db.world;
    db.WriteBaseCursor();
    if !end.CutShort? { NothingLeftOver(s, s.base.scan.value.found, s.base.scan.value.next); }
  }

  lemma NothingLeftOver(s: State, found: seq<nat>, next: nat)
    requires next >= |found|
    ensures Unrecorded(s, found, next) == {}
  {
    assert forall i :: i in Unrecorded(s, found, next) ==> Lost(s, found, next, i);
  }

  /** The scan goes on; what was missed stays missed. */
  predicate Scans(s: State, s': State) {
    && s.logs <= s'.logs && s.baseTip <= s'.baseTip && s.baseCursor <= s'.baseCursor && s.missed <= s'.missed
    && (s.aborted ==> s'.aborted)
  }

  /** The window loop, from the cursor to the confirmed tip. */
  method ScanWindows(db: Bridge, env: Env, safeTip: nat) returns (end: TickEnd, windows: seq<Window>)
    requires db.Valid() && db.world.base == NO_BASE_MEMORY
    requires db.world.baseCursor < safeTip && safeTip + db.cfg.baseConfirmations <= db.world.baseTip
    modifies db, env
    ensures db.Valid() && db.world.base == NO_BASE_MEMORY && Scans(old(db.world), db.world)
    ensures Tiles(windows, old(db.world).baseCursor, db.world.baseCursor) && db.world.baseCursor <= safeTip
    ensures end.Completed? ==> db.world.baseCursor == safeTip
    ensures end.Aborted? ==> db.world.aborted
    ensures !end.Aborted? ==> db.world.missed == old(db.world).missed
    ensures old(env.setbacks) <= env.setbacks && (end.TickThrew? ==> env.setbacks > old(env.setbacks))
  {
    windows := [];
    ghost var last := db.world.baseCursor;
    var windowFrom := db.world.baseCursor + 1;
    var aborted := db.world.aborted;
    while windowFrom <= safeTip && !aborted
      invariant last < windowFrom <= safeTip + 1
      invariant db.Valid() && db.world.base == NO_BASE_MEMORY && Scans(old(db.world), db.world)
      invariant db.world.baseCursor == windowFrom - 1 && Tiles(windows, last, windowFrom - 1)
      invariant !aborted ==> db.world.missed == old(db.world).missed
      invariant aborted ==> db.world.aborted
      invariant old(env.setbacks) <= env.setbacks
    {
      var windowEnd := windowFrom + MAX_LOG_RANGE - 1;
      var windowTo := if windowEnd > safeTip then safeTip else windowEnd;
      var scan := OneWindow(db, env, windowTo);
      if scan.Died? { return TickThrew, windows; }
      TilesExtend(windows, last, windowFrom, windowTo);
      windows := windows + [Window(windowFrom, windowTo)];
      windowFrom := windowTo + 1;
      aborted := db.world.aborted;
    }
    end := if aborted then Aborted else Completed;
  }

  /** The cursor and the tip are read, and the windows between them scanned. */
  method Pass(db: Bridge, env: Env) returns (end: TickEnd, windows: seq<Window>)
    requires db.Valid() && db.world.base == NO_BASE_MEMORY
    modifies db, env
    ensures db.Valid() && db.world.base == NO_BASE_MEMORY && Scans(old(db.world), db.world)
    ensures Tiles(windows, old(db.world).baseCursor, db.world.baseCursor)
    ensures windows != [] ==> db.world.baseCursor + db.cfg.baseConfirmations <= db.world.baseTip
    ensures end.Completed? ==> old(db.world).baseTip <= db.world.baseCursor + db.cfg.baseConfirmations
    ensures end.Aborted? ==> db.world.aborted
    ensures !end.Aborted? ==> db.world.missed == old(db.world).missed
    ensures old(env.setbacks) <= env.setbacks && (end.TickThrew? ==> env.setbacks > old(env.setbacks))
  {
    windows := [];
    var dies := env.Dies();
    if dies { return TickThrew, windows; }
    var tip := db.world.baseTip;
    Wait(db);
    if tip <= db.world.baseCursor + db.cfg.baseConfirmations { return Completed, windows; }
    end, windows := ScanWindows(db, env, tip - db.cfg.baseConfirmations);
  }

  /** One pass of the loop in `startBaseWatcher`. Behind the cursor a decodable burn
      has its row or is among the missed, and none is added to those unless the
      flag went up; a pass fails only after a setback. */
  method Tick(db: Bridge, env: Env) returns (end: TickEnd, windows: seq<Window>)
    requires db.Valid() && db.world.base == NO_BASE_MEMORY
    modifies db, env
    ensures db.Valid() && db.world.base == NO_BASE_MEMORY && Scans(old(db.world), db.world)
    ensures Tiles(windows, old(db.world).baseCursor, db.world.baseCursor)
    ensures windows != [] ==> db.world.baseCursor + db.cfg.baseConfirmations <= db.world.baseTip
    ensures end.Completed? ==> old(db.world).baseTip <= db.world.baseCursor + db.cfg.baseConfirmations
    ensures end.Aborted? ==> db.world.aborted
    ensures !end.Aborted? ==> db.world.missed == old(db.world).missed
    ensures PassedOk(db.world, old(db.world).baseCursor)
    ensures old(env.setbacks) <= env.setbacks && (end.TickThrew? ==> env.setbacks > old(env.setbacks))
  {
    CursorIsAhead(db);
    end, windows := Pass(db, env);
    PassedSince(db, old(db.world).baseCursor);
  }

  /** Every decodable burn that was passed since has its row, or was missed. */
  ghost predicate PassedOk(s: State, last: nat) {
    forall i: nat :: Passed(s, last, i) ==> (HasRow(s, i) <==> i !in s.missed)
  }

  lemma CursorIsAhead(db: Bridge)
    requires db.Valid()
    ensures db.baseStart <= db.world.baseCursor
  {
    db.ValidMeansInv();
  }

  lemma PassedSince(db: Bridge, last: nat)
    requires db.Valid() && db.baseStart <= last
    ensures PassedOk(db.world, last)
  {
    db.ValidMeansInv();
    assert forall i: nat :: Passed(db.world, last, i) ==> Passed(db.world, db.baseStart, i);
  }
}
