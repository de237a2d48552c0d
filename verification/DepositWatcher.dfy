/** The deposit scanner at one vout: what it holds, what it saw, what it writes. */
module DepositWatcher {
  import opened Wrappers
  import opened Money
  import opened Rows
  import opened Protocol
  import opened DepositScan
  import opened Interference
  import opened BridgeDb

  /** What became of one vout. */
  datatype VoutOutcome =
    | Foreign
    | AlreadyThere
    | Unsolicited
    | Dust
    | OverDaily
    | OverTvl
    | Accepted
    | Crashed

  function Outpoints(deposits: seq<Deposit>): set<Outpoint> {
    set i | 0 <= i < |deposits| && deposits[i].outpoint.Some? :: deposits[i].outpoint.value
  }

  // ---- what a scan carries on ----------------------------------------------

  predicate ScanCarries(s: State, s': State) {
    && s.fairBlocks <= s'.fairBlocks && s'.fairCursor == s.fairCursor && s'.scanned == s.scanned
    && s.addressCache <= s'.addressCache && s.mintJobs <= s'.mintJobs
    && OutpointsStay(s.deposits, s'.deposits) && OwnersStay(s.deposits, s'.deposits)
  }

  lemma ScanCarriesOn(s: State, t: State, u: State)
    requires ScanCarries(s, t) && ScanCarries(t, u)
    ensures ScanCarries(s, u)
  {
    assert forall i :: 0 <= i < |s.deposits| && s.deposits[i].outpoint.Some? ==>
      t.deposits[i].outpoint == s.deposits[i].outpoint;
    assert forall i :: 0 <= i < |s.deposits| ==>
      SameOwner(s.deposits[i], t.deposits[i]) && SameOwner(t.deposits[i], u.deposits[i]);
  }

  lemma ReliesCarries(s: State, t: State, key: Outpoint)
    requires FairRelies(s, t)
    ensures ScanCarries(s, t)
    ensures DepositRecorded(s.deposits, key) <==> DepositRecorded(t.deposits, key)
    ensures Outpoints(t.deposits) == Outpoints(s.deposits)
  {
    forall i | 0 <= i < |s.deposits|
      ensures t.deposits[i].outpoint == s.deposits[i].outpoint && SameOwner(s.deposits[i], t.deposits[i])
    {
      assert SameDeposit(s.deposits[i], t.deposits[i]);
    }
    if DepositRecorded(s.deposits, key) {
      var i :| 0 <= i < |s.deposits| && s.deposits[i].outpoint == Some(key);
      assert t.deposits[i].outpoint == Some(key);
    }
  }

  // ---- what the scanner's memory says about the states passed through --------------

  /** Which of the states passed through each reading was taken in. */
  datatype Sight = Sight(slotAt: nat, originAt: nat, dailyAt: nat, supplyAt: nat, inFlightAt: nat)

  const NOTHING_SEEN := Sight(0, 0, 0, 0, 0)

  /** Each reading held is what the world said in a state passed through since. */
  predicate Remembers(past: seq<State>, since: nat, at: Sight, a: FairAddress, deposits: seq<Deposit>, m: FairMemory) {
    && (!m.slot.Unread? ==> since <= at.slotAt < |past| && m.slot == FindSlot(past[at.slotAt].deposits, a))
    && (!m.origin.Unread? && !m.slot.Row? ==>
          since <= at.originAt < |past| && m.origin == FindEarliest(past[at.originAt].deposits, a))
    && (!m.origin.Unread? && m.slot.Row? ==> m.origin == m.slot)
    && (m.origin.Row? ==> m.origin.id < |deposits|)
    && (m.daily.Some? ==>
          && m.origin.Row? && since <= at.dailyAt < |past|
          && m.daily.value == DepositDailySats(
               past[at.dailyAt].deposits, deposits[m.origin.id].baseAddress, past[at.dailyAt].now))
    && (m.supply.Some? ==> since <= at.supplyAt < |past| && m.supply.value == past[at.supplyAt].supply)
    && (m.inFlight.Some? ==>
          since <= at.inFlightAt < |past| && m.inFlight.value == InFlightWei(past[at.inFlightAt].deposits))
  }

  lemma RemembersOn(p: seq<State>, p': seq<State>, since: nat, at: Sight, a: FairAddress,
                    ds: seq<Deposit>, ds': seq<Deposit>, m: FairMemory)
    requires Remembers(p, since, at, a, ds, m) && p <= p' && OwnersStay(ds, ds')
    ensures Remembers(p', since, at, a, ds', m)
  {
    assert forall n :: 0 <= n < |p| ==> p'[n] == p[n];
    if m.origin.Row? { assert SameOwner(ds[m.origin.id], ds'[m.origin.id]); }
  }

  // ---- standing at a vout ------------------------------------------------------------

  /** The slot and the earliest row found at an address are still that. */
  predicate Found(ds: seq<Deposit>, a: FairAddress, m: FairMemory) {
    && (m.slot.Row? ==> IsSlot(ds, a, m.slot.id) && (m.origin.Unread? || m.origin == m.slot))
    && (m.slot.Nobody? && m.origin.Row? ==> IsEarliest(ds, a, m.origin.id))
    && (m.slot.Unread? ==> m.origin.Unread?)
  }

  lemma FoundStays(s: State, t: State, a: FairAddress, m: FairMemory)
    requires FairRelies(s, t) && Found(s.deposits, a, m)
    ensures Found(t.deposits, a, m)
  {
    forall i | 0 <= i < |s.deposits|
      ensures t.deposits[i].fairAddress == s.deposits[i].fairAddress
    {
      assert SameDeposit(s.deposits[i], t.deposits[i]);
    }
  }

  /** The scanner has stood since `s` at this vout, which pays a known address. */
  ghost predicate AtKnownVout(db: Bridge, s: State, since: nat, at: Sight)
    reads db
  {
    db.Valid() && since < |db.past| && StandsAt(s, db.world) && Recalls(s, db.world, db.past, since, at)
  }

  /** And the vout has no row. */
  ghost predicate AtNewVout(db: Bridge, s: State, since: nat, at: Sight)
    reads db
  {
    AtKnownVout(db, s, since, at) && !DepositRecorded(s.deposits, TheKey(s))
  }

  predicate StandsAt(s: State, u: State) {
    && AtVout(s) && AtVout(u)
    && TheVout(u) == TheVout(s) && TheKey(u) == TheKey(s) && u.fair.scan == s.fair.scan
    && ScanCarries(s, u) && Outpoints(u.deposits) == Outpoints(s.deposits) && u.mintJobs == s.mintJobs
    && Pays(TheVout(s), s.addressCache)
    && (DepositRecorded(u.deposits, TheKey(s)) <==> DepositRecorded(s.deposits, TheKey(s)))
  }

  predicate Recalls(s: State, u: State, past: seq<State>, since: nat, at: Sight)
    requires AtVout(s) && Pays(TheVout(s), s.addressCache)
  {
    var a := TheVout(s).address.value;
    Found(u.deposits, a, u.fair) && Remembers(past, since, at, a, u.deposits, u.fair)
  }

  lemma StandsOn(s: State, t: State, u: State)
    requires StandsAt(s, t) && FairRelies(t, u)
    ensures StandsAt(s, u)
  {
    ReliesCarries(t, u, TheKey(s));
    ScanCarriesOn(s, t, u);
  }

  lemma RecallsOn(s: State, t: State, u: State, p: seq<State>, p': seq<State>, since: nat, at: Sight)
    requires AtVout(s) && Pays(TheVout(s), s.addressCache)
    requires Recalls(s, t, p, since, at) && FairRelies(t, u) && p <= p'
    ensures Recalls(s, u, p', since, at)
  {
    FoundStays(t, u, TheVout(s).address.value, t.fair);
    ReliesCarries(t, u, TheKey(s));
    RemembersOn(p, p', since, at, TheVout(s).address.value, t.deposits, u.deposits, t.fair);
  }

  /** Other actors run while the scanner stands there. */
  method Pause(db: Bridge, ghost s: State, ghost since: nat, ghost at: Sight)
    requires AtKnownVout(db, s, since, at)
    modifies db
    ensures AtKnownVout(db, s, since, at) && old(db.past) <= db.past && db.world.fair == old(db.world).fair
  {
    db.Others(Fair);
    StandsOn(s, old(db.world), db.world);
    RecallsOn(s, old(db.world), db.world, old(db.past), db.past, since, at);
  }

  // ---- the row -----------------------------------------------------------------------

  /** The row a vout was given: its own outpoint and sats, the recipient and index
      of the origin row, FAILED with the gross amount or accepted with the net one. */
  predicate RowGiven(cfg: Config, ds: seq<Deposit>, id: nat, key: Outpoint, vout: Vout, origin: Lookup,
                     accepted: bool)
  {
    && id < |ds|
    && var d := ds[id];
       && d.outpoint == Some(key) && vout.address == Some(d.fairAddress) && d.amountSats == vout.sats && !d.Open()
       && (accepted ==> d.amountWei == ApplyFee(vout.sats * SATS_TO_WEI, cfg.feeBps))
       && (!accepted ==> d.status.Failed? && d.amountWei == vout.sats * SATS_TO_WEI)
       && (origin.Row? ==>
             origin.id < |ds| && d.baseAddress == ds[origin.id].baseAddress && d.hdIndex == ds[origin.id].hdIndex)
       && (origin.Nobody? ==> d.baseAddress == ZERO_ADDRESS && d.hdIndex == -1)
  }

  lemma RowIsGiven(cfg: Config, s: State, ds: seq<Deposit>, accepted: bool)
    requires CanRecord(cfg, s) && DepositRow(cfg, s).status.Confirmed? == accepted
    requires ds == DepositsWith(s, DepositRow(cfg, s))
    ensures RowGiven(cfg, ds, RowAt(s), TheKey(s), TheVout(s), s.fair.origin, accepted)
    ensures DepositRecorded(ds, TheKey(s))
  {
    assert ds[RowAt(s)] == DepositRow(cfg, s);
  }

  /** The columns of the row, from the vout, the readings and the verdict. */
  method ComposeRow(db: Bridge, accepted: bool) returns (row: Deposit)
    requires CanRecord(db.cfg, db.world) && DepositRow(db.cfg, db.world).status.Confirmed? == accepted
    ensures row == DepositRow(db.cfg, db.world)
  {
    var vout := TheVout(db.world);
    var slot, origin := db.world.fair.slot, db.world.fair.origin;
    var gross := vout.sats * SATS_TO_WEI;
    row := Deposit(
      if origin.Row? then db.world.deposits[origin.id].baseAddress else ZERO_ADDRESS,
      vout.address.value,
      if origin.Row? then db.world.deposits[origin.id].hdIndex else -1,
      if accepted then DepositStatus.Confirmed else DepositStatus.Failed,
      Some(TheKey(db.world)),
      db.world.fairCursor + 1, vout.sats,
      if accepted then ApplyFee(gross, db.cfg.feeBps) else gross,
      None,
      if slot.Row? then db.world.deposits[slot.id].createdAt else db.world.now);
  }

  /** `persistTerminalDeposit`, or the confirmation of a slot or a fresh row. */
  method Persist(db: Bridge, ghost s: State, ghost since: nat, ghost at: Sight, accepted: bool) returns (id: nat)
    requires AtNewVout(db, s, since, at) && CanRecord(db.cfg, db.world)
    requires DepositRow(db.cfg, db.world).status.Confirmed? == accepted
    modifies db
    ensures db.Valid() && old(db.past) <= db.past && ScanCarries(s, db.world) && db.world.mintJobs == s.mintJobs
    ensures db.world.fair == Standing(s.fair.scan) && OwnersStay(old(db.world).deposits, db.world.deposits)
    ensures old(db.world).fair.slot.Row? ==> id == old(db.world).fair.slot.id
    ensures RowGiven(db.cfg, db.world.deposits, id, TheKey(s), TheVout(s), old(db.world).fair.origin, accepted)
    ensures DepositRecorded(db.world.deposits, TheKey(s))
  {
    var row := ComposeRow(db, accepted);
    ghost var t := db.world;
    WriteCarries(db, row);
    id := db.WriteDeposit(row);
    ScanCarriesOn(s, t, db.world);
    RowIsGiven(db.cfg, t, db.world.deposits, accepted);
  }

  /** Writing the row of a vout moves no outpoint and no owner. */
  lemma WriteCarries(db: Bridge, row: Deposit)
    requires db.Valid() && CanRecord(db.cfg, db.world) && row == DepositRow(db.cfg, db.world)
    ensures var ds, ds' := db.world.deposits, DepositsWith(db.world, row);
      OutpointsStay(ds, ds') && OwnersStay(ds, ds')
  {
    db.SlotFacts();
    var at := RowAt(db.world);
    if at < |db.world.deposits| { assert SameOwner(db.world.deposits[at], row); }
  }
}
