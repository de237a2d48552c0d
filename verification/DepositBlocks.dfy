/** One block and one pass of the deposit scanner: the loops over transactions,
    vouts and heights, and the cursor. */
module DepositBlocks {
  import opened Wrappers
  import opened Rows
  import opened Protocol
  import opened DepositCursor
  import opened Interference
  import opened BridgeDb
  import opened Environment
  import opened DepositWatcher
  import opened DepositTick

  /** The scan gave an outpoint a row, or queued a mint, only if the block had a
      payment without a row. */
  predicate QuietIfDone(s: State, s': State, height: nat)
    requires height < |s.fairBlocks|
  {
    || (Outpoints(s'.deposits) == Outpoints(s.deposits) && s'.mintJobs == s.mintJobs)
    || !BlockRecorded(s.fairBlocks[height], s'.addressCache, s.deposits)
  }

  /** The scan of the block after the cursor, begun in state `s`, has come this far. */
  ghost predicate Reached(db: Bridge, s: State, t: nat, v: nat)
    reads db
  {
    && db.Valid() && s.fairCursor + 1 < |s.fairBlocks| && ScanCarries(s, db.world)
    && db.world.fair == Standing(Some(FairScan(s.addressCache, t, v)))
    && QuietIfDone(s, db.world, s.fairCursor + 1)
  }

  /** One vout further, seen from the start of the block. */
  lemma QuietOn(cfg: Config, s: State, u: State, w: State)
    requires s.fairCursor + 1 < |s.fairBlocks| && ScanCarries(s, u) && QuietIfDone(s, u, s.fairCursor + 1)
    requires ActsOnlyOnNew(u, w) && ScanCarries(u, w)
    ensures ScanCarries(s, w) && QuietIfDone(s, w, s.fairCursor + 1)
  {
    ScanCarriesOn(s, u, w);
    var block := s.fairBlocks[s.fairCursor + 1];
    assert u.fairBlocks[s.fairCursor + 1] == block;
    if DepositRecorded(s.deposits, TheKey(u)) { RecordStays(s.deposits, u.deposits, TheKey(u)); }
  }

  /** One vout, and on to the next. */
  method ScanVout(db: Bridge, env: Env, t: nat, v: nat, ghost s: State) returns (ok: bool)
    requires Reached(db, s, t, v) && AtVout(db.world)
    modifies db, env
    ensures old(db.past) <= db.past && ScanCarries(s, db.world)
    ensures ok ==> Reached(db, s, t, v + 1)
    ensures !ok ==> db.Valid() && db.world.fair == NO_FAIR_MEMORY && QuietIfDone(s, db.world, s.fairCursor + 1)
    ensures old(env.setbacks) <= env.setbacks && (!ok ==> env.setbacks > old(env.setbacks))
  {
    ghost var u := db.world;
    var r, m, at := ProcessVout(db, env);
    QuietOn(db.cfg, s, u, db.world);
    if r.Crashed? {
      db.MoveScan(DropFairScan);
      return false;
    }
    VoutIsDone(u, db.world, r);
    db.MoveScan(NextVout);
    return true;
  }

  lemma VoutIsDone(u: State, w: State, r: VoutOutcome)
    requires AtVout(u) && ScanCarries(u, w) && w.fair.scan == u.fair.scan
    requires r.Foreign? ==> w == u && !Pays(TheVout(u), u.addressCache)
    requires r.Foreign? || DepositRecorded(w.deposits, TheKey(u))
    ensures AtVout(w) && (!Pays(TheVout(w), w.addressCache) || DepositRecorded(w.deposits, TheKey(w)))
  {
  }

  /** The vouts of one transaction. */
  method ScanTx(db: Bridge, env: Env, t: nat, ghost s: State) returns (ok: bool)
    requires Reached(db, s, t, 0) && t < |s.fairBlocks[s.fairCursor + 1]|
    modifies db, env
    ensures old(db.past) <= db.past && ScanCarries(s, db.world)
    ensures ok ==> Reached(db, s, t + 1, 0)
    ensures !ok ==> db.Valid() && db.world.fair == NO_FAIR_MEMORY && QuietIfDone(s, db.world, s.fairCursor + 1)
    ensures old(env.setbacks) <= env.setbacks && (!ok ==> env.setbacks > old(env.setbacks))
  {
    var n := |db.world.fairBlocks[db.world.fairCursor + 1][t].vouts|;
    var v := 0;
    while v < n
      invariant 0 <= v <= n == |s.fairBlocks[s.fairCursor + 1][t].vouts|
      invariant Reached(db, s, t, v) && old(db.past) <= db.past && old(env.setbacks) <= env.setbacks
    {
      ok := ScanVout(db, env, t, v, s);
      if !ok { return; }
      v := v + 1;
    }
    db.MoveScan(NextTx);
    return true;
  }

  /** `processBlock` for the block after the cursor. A scan that comes to the end of
      the block leaves a row for every payment to an address known at its start; a
      scan of a block that has them all already, to its end or not, gives no
      outpoint a row and queues nothing. Only a setback stops it. */
  method ProcessBlock(db: Bridge, env: Env) returns (completed: bool)
    requires db.Valid() && db.world.fair == NO_FAIR_MEMORY && ScanMoves(db.cfg, db.world, BeginBlock)
    modifies db, env
    ensures db.Valid() && old(db.past) <= db.past && ScanCarries(old(db.world), db.world)
    ensures var s, h := old(db.world), old(db.world).fairCursor + 1;
      && (completed ==>
            && BlockDone(db.world) && db.world.fair == Standing(Some(FairScan(s.addressCache, |s.fairBlocks[h]|, 0)))
            && BlockRecorded(s.fairBlocks[h], s.addressCache, db.world.deposits))
      && (BlockRecorded(s.fairBlocks[h], db.world.addressCache, s.deposits) ==>
            Outpoints(db.world.deposits) == Outpoints(s.deposits) && db.world.mintJobs == s.mintJobs)
    ensures !completed ==> db.world.fair == NO_FAIR_MEMORY
    ensures old(env.setbacks) <= env.setbacks && (!completed ==> env.setbacks > old(env.setbacks))
  {
    ghost var s := db.world;
    var dies := env.Dies();
    if dies { return false; }
    db.GetBlock();
    completed := ScanTxs(db, env, s);
    if completed { EndOfBlock(db, s); }
  }

  /** The loop over the block's transactions. */
  method ScanTxs(db: Bridge, env: Env, ghost s: State) returns (ok: bool)
    requires Reached(db, s, 0, 0)
    modifies db, env
    ensures old(db.past) <= db.past && ScanCarries(s, db.world)
    ensures ok ==> Reached(db, s, |s.fairBlocks[s.fairCursor + 1]|, 0)
    ensures !ok ==> db.Valid() && db.world.fair == NO_FAIR_MEMORY && QuietIfDone(s, db.world, s.fairCursor + 1)
    ensures old(env.setbacks) <= env.setbacks && (!ok ==> env.setbacks > old(env.setbacks))
  {
    var n := |db.world.fairBlocks[db.world.fairCursor + 1]|;
    var t := 0;
    while t < n
      invariant 0 <= t <= n == |s.fairBlocks[s.fairCursor + 1]|
      invariant Reached(db, s, t, 0) && old(db.past) <= db.past && old(env.setbacks) <= env.setbacks
    {
      ok := ScanTx(db, env, t, s);
      if !ok { return; }
      t := t + 1;
    }
    return true;
  }

  /** At the end of the block its payments have rows: the invariant of the scan. */
  lemma EndOfBlock(db: Bridge, s: State)
    requires s.fairCursor + 1 < |s.fairBlocks| && Reached(db, s, |s.fairBlocks[s.fairCursor + 1]|, 0)
    ensures BlockDone(db.world)
    ensures BlockRecorded(s.fairBlocks[s.fairCursor + 1], s.addressCache, db.world.deposits)
  {
    db.ValidMeansInv();
    assert ScanOk(db.cfg, db.world);
  }

  // ---- orphans -------------------------------------------------------------

  const ORPHAN_LIMIT := 50

  predicate Orphan(d: Deposit, cutoff: int) {
    d.status.Confirmed? && d.createdAt < cutoff && d.outpoint.Some?
  }

  /** `Deposit.find({ status: CONFIRMED, … }).limit(50)`. */
  function FindOrphans(deposits: seq<Deposit>, cutoff: int, n: nat): (found: seq<nat>)
    requires n <= |deposits|
    ensures |found| <= 50
    ensures forall i :: i in found ==>
      i < n && deposits[i].status.Confirmed? && deposits[i].createdAt < cutoff && deposits[i].outpoint.Some?
    ensures |found| < 50 ==> forall i ::
      0 <= i < n && deposits[i].status.Confirmed? && deposits[i].createdAt < cutoff && deposits[i].outpoint.Some?
      ==> i in found
  {
    if n == 0 then []
    else
      var found := FindOrphans(deposits, cutoff, n - 1);
      if |found| < ORPHAN_LIMIT && Orphan(deposits[n - 1], cutoff) then found + [n - 1] else found
  }

  predicate Queued(ds: seq<Deposit>, jobs: set<MintJob>, i: nat) {
    i < |ds| && MintJobOf(ds, i) in jobs
  }

  /** The scanner's own operations moved nothing but the queue. */
  predicate OnlyQueued(s: State, s': State) {
    && ScanCarries(s, s') && s'.fair == s.fair && s.mintJobs <= s'.mintJobs
    && Outpoints(s'.deposits) == Outpoints(s.deposits)
    && |s.deposits| <= |s'.deposits|
    && forall i :: 0 <= i < |s.deposits| ==> SameDeposit(s.deposits[i], s'.deposits[i])
  }

  lemma OnlyQueuedThen(s: State, u: State, w: State)
    requires OnlyQueued(s, u) && FairRelies(u, w)
    ensures OnlyQueued(s, w)
  {
    ReliesCarries(u, w, Outpoint("", 0));
    ScanCarriesOn(s, u, w);
    forall i | 0 <= i < |s.deposits|
      ensures SameDeposit(s.deposits[i], w.deposits[i])
    {
      assert SameDeposit(s.deposits[i], u.deposits[i]) && SameDeposit(u.deposits[i], w.deposits[i]);
    }
  }

  /** Queues one orphan again: the job it was given before. */
  method QueueAgain(db: Bridge, env: Env, i: nat, ghost s: State) returns (queued: bool)
    requires db.Valid() && OnlyQueued(s, db.world) && i < |s.deposits| && !s.deposits[i].Open()
    modifies db, env
    ensures db.Valid() && old(db.past) <= db.past && OnlyQueued(s, db.world)
      && old(db.world).mintJobs <= db.world.mintJobs
    ensures queued ==> Queued(s.deposits, db.world.mintJobs, i)
    ensures env.setbacks == old(env.setbacks) + (if queued then 0 else 1)
  {
    ghost var u := db.world;
    db.Others(Fair);
    OnlyQueuedThen(s, u, db.world);
    var dies := env.Dies();
    if dies { return false; }
    assert SameDeposit(s.deposits[i], db.world.deposits[i]) && SameDeposit(u.deposits[i], db.world.deposits[i]);
    db.EnqueueMint(i);
    return true;
  }

  /** `reconcileOrphanDeposits`: a confirmed deposit whose job was lost with a
      crash is queued again, the same job as before. */
  method ReconcileOrphans(db: Bridge, env: Env, cutoff: int) returns (completed: bool)
    requires db.Valid()
    modifies db, env
    ensures db.Valid() && old(db.past) <= db.past && OnlyQueued(old(db.world), db.world)
    ensures completed ==> forall i :: i in FindOrphans(old(db.world).deposits, cutoff, |old(db.world).deposits|) ==>
      Queued(old(db.world).deposits, db.world.mintJobs, i)
    ensures old(env.setbacks) <= env.setbacks && (!completed ==> env.setbacks > old(env.setbacks))
  {
    ghost var s := db.world;
    var found := FindOrphans(db.world.deposits, cutoff, |db.world.deposits|);
    var k := 0;
    while k < |found|
      invariant 0 <= k <= |found|
      invariant db.Valid() && old(db.past) <= db.past && OnlyQueued(s, db.world)
      invariant forall j :: 0 <= j < k ==> Queued(s.deposits, db.world.mintJobs, found[j])
      invariant old(env.setbacks) <= env.setbacks
    {
      assert found[k] in found;
      var queued := QueueAgain(db, env, found[k], s);
      if !queued { return false; }
      k := k + 1;
    }
    return true;
  }


  // ---- one pass --------------------------------------------------------------

  /** Every block of these heights was passed knowing at least these addresses. */
  predicate PassedKnowing(s: State, last: nat, known: set<FairAddress>) {
    forall h :: last < h <= s.fairCursor ==> h in s.scanned && known <= s.scanned[h]
  }

  /** What a pass leaves behind at any moment. */
  ghost predicate PassOk(db: Bridge, last: nat, known: set<FairAddress>, tip: int)
    reads db
  {
    && db.Valid() && db.world.fair == NO_FAIR_MEMORY && last <= db.world.fairCursor && tip < |db.world.fairBlocks|
    && (last < db.world.fairCursor ==> db.world.fairCursor + db.cfg.fairConfirmations <= tip)
    && known <= db.world.addressCache && PassedKnowing(db.world, last, known)
  }

  /** One height of the loop: the block, then the cursor. */
  method OneHeight(db: Bridge, env: Env, ghost last: nat, ghost known: set<FairAddress>, ghost tip: int)
    returns (completed: bool)
    requires PassOk(db, last, known, tip) && db.world.fairCursor + 1 + db.cfg.fairConfirmations <= tip
    modifies db, env
    ensures PassOk(db, last, known, tip) && old(db.world).mintJobs <= db.world.mintJobs
    ensures db.world.fairCursor == old(db.world).fairCursor + (if completed then 1 else 0)
    ensures old(env.setbacks) <= env.setbacks && (!completed ==> env.setbacks > old(env.setbacks))
  {
    completed := ProcessBlock(db, env);
    if !completed { return; }
    Wait(db);
    var dies := env.Dies();
    if dies {
      db.MoveScan(DropFairScan);
      return false;
    }
    db.WriteFairCursor();
  }

  /** Other actors run between the end of the block and the cursor write. */
  method Wait(db: Bridge)
    requires db.Valid()
    modifies db
    ensures db.Valid() && ScanCarries(old(db.world), db.world) && db.world.fair == old(db.world).fair
    ensures BlockDone(old(db.world)) ==> BlockDone(db.world)
  {
    db.Others(Fair);
    ReliesCarries(old(db.world), db.world, Outpoint("", 0));
  }

  /** The block at a height has a row for every payment to these addresses. */
  predicate RecordedAt(s: State, h: nat, known: set<FairAddress>) {
    h < |s.fairBlocks| && BlockRecorded(s.fairBlocks[h], known, s.deposits)
  }

  /** Every block passed since has. */
  predicate PassedRecorded(s: State, last: nat, known: set<FairAddress>) {
    forall h :: last < h <= s.fairCursor ==> RecordedAt(s, h, known)
  }

  /** Recorded for some addresses is recorded for fewer. */
  lemma RecordedForFewer(block: FairBlock, more: set<FairAddress>, known: set<FairAddress>, ds: seq<Deposit>)
    requires BlockRecorded(block, more, ds) && known <= more
    ensures BlockRecorded(block, known, ds)
  {
    forall t, v | 0 <= t < |block| && 0 <= v < |block[t].vouts| && Pays(block[t].vouts[v], known)
      ensures DepositRecorded(ds, Outpoint(block[t].txid, block[t].vouts[v].n))
    {
      assert Pays(block[t].vouts[v], more);
    }
  }

  lemma PassedMeansRecorded(cfg: Config, s: State, start: nat, last: nat, known: set<FairAddress>)
    requires CursorInv(cfg, s, start) && start <= last && PassedKnowing(s, last, known)
    ensures PassedRecorded(s, last, known)
  {
    forall h | last < h <= s.fairCursor
      ensures RecordedAt(s, h, known)
    {
      assert ScannedBlock(cfg, s, h);
      RecordedForFewer(s.fairBlocks[h], s.scanned[h], known, s.deposits);
    }
  }

  lemma PassedSince(db: Bridge, last: nat, known: set<FairAddress>)
    requires db.Valid() && db.fairStart <= last && PassedKnowing(db.world, last, known)
    ensures PassedRecorded(db.world, last, known)
  {
    db.ValidMeansInv();
    PassedMeansRecorded(db.cfg, db.world, db.fairStart, last, known);
  }

  lemma CursorIsAhead(db: Bridge)
    requires db.Valid()
    ensures db.fairStart <= db.world.fairCursor
  {
    db.ValidMeansInv();
  }

  /** Every orphan found in `s` has its job again. */
  predicate OrphansQueued(s: State, s': State, cutoff: int) {
    forall i :: i in FindOrphans(s.deposits, cutoff, |s.deposits|) ==> Queued(s.deposits, s'.mintJobs, i)
  }

  lemma QueuedStays(s: State, jobs: set<MintJob>, s': State, cutoff: int)
    requires jobs <= s'.mintJobs
    requires forall i :: i in FindOrphans(s.deposits, cutoff, |s.deposits|) ==> Queued(s.deposits, jobs, i)
    ensures OrphansQueued(s, s', cutoff)
  {
    forall i | i in FindOrphans(s.deposits, cutoff, |s.deposits|) ensures Queued(s.deposits, s'.mintJobs, i) {
      assert Queued(s.deposits, jobs, i);
    }
  }

  /** The orphans, the tip, and the heights between the cursor and the confirmed
      tip. The flag is read between blocks only. */
  method Pass(db: Bridge, env: Env, cutoff: int) returns (end: TickEnd, tip: int)
    requires db.Valid() && db.world.fair == NO_FAIR_MEMORY
    modifies db, env
    ensures PassOk(db, old(db.world).fairCursor, old(db.world).addressCache, tip)
    ensures end.Completed? ==> tip <= db.world.fairCursor + db.cfg.fairConfirmations
    ensures !end.TickThrew? ==> tip >= |old(db.world).fairBlocks| - 1
    ensures end.Aborted? ==> db.world.aborted
    ensures !end.TickThrew? ==> OrphansQueued(old(db.world), db.world, cutoff)
    ensures old(env.setbacks) <= env.setbacks && (end.TickThrew? ==> env.setbacks > old(env.setbacks))
  {
    ghost var s := db.world;
    var reconciled := ReconcileOrphans(db, env, cutoff);
    tip := |db.world.fairBlocks| - 1;
    if !reconciled { return TickThrew, tip; }
    Wait(db);
    var last := db.world.fairCursor;
    var safeTip := tip - db.cfg.fairConfirmations;
    var h := last + 1;
    while h <= safeTip
      invariant h == db.world.fairCursor + 1 && (h == last + 1 || h <= safeTip + 1)
      invariant PassOk(db, last, s.addressCache, tip) && old(env.setbacks) <= env.setbacks
      invariant OrphansQueued(s, db.world, cutoff)
    {
      if db.world.aborted { return Aborted, tip; }
      ghost var jobs := db.world.mintJobs;
      var completed := OneHeight(db, env, last, s.addressCache, tip);
      QueuedStays(s, jobs, db.world, cutoff);
      if !completed { return TickThrew, tip; }
      h := h + 1;
    }
    return Completed, tip;
  }

  /** One pass of the loop in `startFairWatcher`. The cursor only advances, never
      past the confirmation depth of the tip read, and a completed pass reaches it;
      every payment in a block it passed to an address known when the pass began has
      its row, and the orphans found have their jobs again; a pass fails only after a
      setback. */
  method Tick(db: Bridge, env: Env, cutoff: int) returns (end: TickEnd, tip: int)
    requires db.Valid() && db.world.fair == NO_FAIR_MEMORY
    modifies db, env
    ensures db.Valid() && db.world.fair == NO_FAIR_MEMORY && old(db.world).fairCursor <= db.world.fairCursor
    ensures old(db.world).fairCursor < db.world.fairCursor ==> db.world.fairCursor + db.cfg.fairConfirmations <= tip
    ensures tip < |db.world.fairBlocks|
    ensures PassedRecorded(db.world, old(db.world).fairCursor, old(db.world).addressCache)
    ensures end.Completed? ==> tip <= db.world.fairCursor + db.cfg.fairConfirmations
    ensures !end.TickThrew? ==> tip >= |old(db.world).fairBlocks| - 1
    ensures end.Aborted? ==> db.world.aborted
    ensures !end.TickThrew? ==> OrphansQueued(old(db.world), db.world, cutoff)
    ensures old(env.setbacks) <= env.setbacks && (end.TickThrew? ==> env.setbacks > old(env.setbacks))
  {
    CursorIsAhead(db);
    end, tip := Pass(db, env, cutoff);
    PassedSince(db, old(db.world).fairCursor, old(db.world).addressCache);
  }
}
