/** The deposit scanner's work on one vout: the lookups, the checks in order, the
    row, and the job of an accepted deposit. */
module DepositTick {
  import opened Wrappers
  import opened Money
  import opened Rows
  import opened Protocol
  import opened DepositScan
  import opened Totals
  import opened Interference
  import opened BridgeDb
  import opened Environment
  import opened DepositWatcher

  // ---- the promise -----------------------------------------------------------------

  predicate Acts(r: VoutOutcome) {
    !r.Foreign? && !r.AlreadyThere? && !r.Crashed?
  }

  /** The vout has its row: in the slot if one was found. */
  predicate Given(cfg: Config, ds: seq<Deposit>, m: FairMemory, key: Outpoint, vout: Vout, accepted: bool) {
    exists id :: 0 <= id < |ds| && RowGiven(cfg, ds, id, key, vout, m.origin, accepted)
      && (m.slot.Row? ==> id == m.slot.id)
  }

  /** A mint of that amount is queued for the row of that outpoint. */
  predicate QueuedFor(s: State, key: Outpoint, wei: nat) {
    exists job :: job in s.mintJobs && job.wei == wei
      && job.depositId < |s.deposits| && s.deposits[job.depositId].outpoint == Some(key)
      && job.to == s.deposits[job.depositId].baseAddress
  }

  predicate UnderDaily(cfg: Config, m: FairMemory, sats: nat) {
    m.origin.Row? && sats >= cfg.minDepositSats && m.daily.Some? && m.daily.value + sats <= cfg.depositCapSats
  }

  /** The branches of `processBlock` in order, each with the readings that lead to
      it and the row it leaves. */
  predicate OutcomeOk(cfg: Config, m: FairMemory, s': State, key: Outpoint, vout: Vout, r: VoutOutcome) {
    var net := ApplyFee(vout.sats * SATS_TO_WEI, cfg.feeBps);
    && Given(cfg, s'.deposits, m, key, vout, r.Accepted?)
    && match r
       case Unsolicited => m.origin.Nobody?
       case Dust => m.origin.Row? && vout.sats < cfg.minDepositSats
       case OverDaily =>
         && m.origin.Row? && vout.sats >= cfg.minDepositSats
         && m.daily.Some? && m.daily.value + vout.sats > cfg.depositCapSats
       case OverTvl =>
         && UnderDaily(cfg, m, vout.sats) && m.supply.Some? && m.inFlight.Some?
         && m.supply.value + m.inFlight.value + net > cfg.maxTvlWei
       case Accepted =>
         && UnderDaily(cfg, m, vout.sats) && m.supply.Some? && m.inFlight.Some?
         && m.supply.value + m.inFlight.value + net <= cfg.maxTvlWei
         && QueuedFor(s', key, net)
       case _ => true
  }

  /** What the outcome says of the caps, by the rows of the states the readings were
      taken in: the recipient's day, and the supply with what was in flight. */
  ghost predicate CapsTold(cfg: Config, past: seq<State>, at: Sight, to: string, sats: nat, r: VoutOutcome) {
    var net := ApplyFee(sats * SATS_TO_WEI, cfg.feeBps);
    && (r.OverDaily? || r.OverTvl? || r.Accepted? ==>
          && at.dailyAt < |past|
          && (r.OverDaily? <==>
                DepositsPass(past[at.dailyAt].deposits, to, past[at.dailyAt].now, sats, cfg.depositCapSats)))
    && (r.OverTvl? || r.Accepted? ==>
          && at.supplyAt < |past| && at.inFlightAt < |past|
          && (r.OverTvl? <==>
                InFlightPasses(past[at.inFlightAt].deposits, past[at.supplyAt].supply, net, cfg.maxTvlWei)))
  }

  lemma OutcomeTells(cfg: Config, past: seq<State>, since: nat, at: Sight, a: FairAddress, m: FairMemory,
                     s': State, key: Outpoint, vout: Vout, r: VoutOutcome)
    requires Remembers(past, since, at, a, s'.deposits, m) && OutcomeOk(cfg, m, s', key, vout, r) && m.origin.Row?
    ensures CapsTold(cfg, past, at, s'.deposits[m.origin.id].baseAddress, vout.sats, r)
  {
    var net := ApplyFee(vout.sats * SATS_TO_WEI, cfg.feeBps);
    if m.daily.Some? {
      var t := past[at.dailyAt];
      DepositsPassIff(t.deposits, s'.deposits[m.origin.id].baseAddress, t.now, vout.sats, cfg.depositCapSats);
    }
    if m.supply.Some? && m.inFlight.Some? {
      InFlightPassesIff(past[at.inFlightAt].deposits, past[at.supplyAt].supply, net, cfg.maxTvlWei);
    }
  }

  /** The caps an outcome that acts tells of. */
  ghost predicate Told(cfg: Config, s: State, s': State, past: seq<State>, at: Sight, m: FairMemory, r: VoutOutcome)
    requires AtVout(s)
  {
    Acts(r) && m.origin.Row? ==>
      && m.origin.id < |s'.deposits|
      && CapsTold(cfg, past, at, s'.deposits[m.origin.id].baseAddress, TheVout(s).sats, r)
  }

  lemma VoutTells(cfg: Config, s: State, s': State, past: seq<State>, since: nat, at: Sight, m: FairMemory,
                  r: VoutOutcome)
    requires AtVout(s) && VoutDone(cfg, s, s', past, since, at, m, r)
    ensures Told(cfg, s, s', past, at, m, r)
  {
    if Acts(r) && m.origin.Row? {
      OutcomeTells(cfg, past, since, at, TheVout(s).address.value, m, s', TheKey(s), TheVout(s), r);
    }
  }

  /** An outpoint got a row, or a mint was queued, only for a vout that had no
      row. */
  predicate ActsOnlyOnNew(s: State, s': State) {
    AtVout(s) &&
    ((Outpoints(s'.deposits) == Outpoints(s.deposits) && s'.mintJobs == s.mintJobs)
     || (!DepositRecorded(s.deposits, TheKey(s)) && Pays(TheVout(s), s.addressCache)))
  }

  /** What a vout's processing promises, whichever branch it took. `m` is what the
      scanner had read when it decided. */
  predicate VoutDone(cfg: Config, s: State, s': State, past: seq<State>, since: nat, at: Sight,
                     m: FairMemory, r: VoutOutcome) {
    && ScanCarries(s, s') && ActsOnlyOnNew(s, s')
    && var key, vout := TheKey(s), TheVout(s);
       && (r.Foreign? ==> s' == s && !Pays(vout, s.addressCache))
       && (r.AlreadyThere? ==> DepositRecorded(s.deposits, key))
       && (Acts(r) ==>
             && Pays(vout, s.addressCache) && !DepositRecorded(s.deposits, key)
             && Remembers(past, since, at, vout.address.value, s'.deposits, m) && OutcomeOk(cfg, m, s', key, vout, r))
       && (!r.Crashed? && !r.Foreign? ==> DepositRecorded(s'.deposits, key))
  }

  // ---- the readings ----------------------------------------------------------------

  lemma SlotRecalled(s: State, t: State, u: State, p: seq<State>, p': seq<State>, since: nat, at: Sight)
    requires AtVout(s) && Pays(TheVout(s), s.addressCache) && Recalls(s, t, p, since, at)
      && t.fair == Standing(t.fair.scan)
    requires since < |p| && p[|p| - 1] == t && p <= p'
    requires u == t.(fair := t.fair.(slot := FindSlot(t.deposits, TheVout(s).address.value)))
    ensures Recalls(s, u, p', since, at.(slotAt := |p| - 1))
  {
    assert p'[|p| - 1] == t;
  }

  lemma OriginRecalled(s: State, t: State, u: State, p: seq<State>, p': seq<State>, since: nat, at: Sight)
    requires AtVout(s) && Pays(TheVout(s), s.addressCache) && Recalls(s, t, p, since, at)
    requires !t.fair.slot.Unread? && t.fair == Standing(t.fair.scan).(slot := t.fair.slot)
    requires since < |p| && p[|p| - 1] == t && p <= p'
    requires u == t.(fair := t.fair.(origin :=
      if t.fair.slot.Row? then t.fair.slot else FindEarliest(t.deposits, TheVout(s).address.value)))
    ensures Recalls(s, u, p', since, at.(originAt := |p| - 1))
  {
    assert p'[|p| - 1] == t && (at.slotAt < |p| ==> p'[at.slotAt] == p[at.slotAt]);
  }

  /** The daily total, the supply or the in-flight total was read in the last state. */
  lemma TotalsRecalled(s: State, t: State, u: State, p: seq<State>, p': seq<State>, since: nat, at: Sight, at': Sight)
    requires AtVout(s) && Pays(TheVout(s), s.addressCache) && Recalls(s, t, p, since, at)
    requires since < |p| && p[|p| - 1] == t && p <= p'
    requires u == t.(fair := u.fair)
    requires
      || (at' == at.(supplyAt := |p| - 1) && u.fair == t.fair.(supply := Some(t.supply)))
      || (at' == at.(inFlightAt := |p| - 1) && u.fair == t.fair.(inFlight := Some(InFlightWei(t.deposits))))
      || (at' == at.(dailyAt := |p| - 1) && t.fair.origin.Row? && t.fair.origin.id < |t.deposits|
          && u.fair == t.fair.(daily :=
               Some(DepositDailySats(t.deposits, t.deposits[t.fair.origin.id].baseAddress, t.now))))
    ensures Recalls(s, u, p', since, at')
  {
    assert p'[|p| - 1] == t;
    assert OwnersStay(t.deposits, t.deposits);
    RemembersOn(p, p', since, at, TheVout(s).address.value, t.deposits, t.deposits, t.fair);
  }

  /** A reading moves nothing but the memory. */
  lemma ReadingStands(s: State, t: State, u: State)
    requires StandsAt(s, t) && u == t.(fair := u.fair) && u.fair.scan == t.fair.scan
    ensures StandsAt(s, u)
  {
  }

  method SlotReading(db: Bridge, ghost s: State, ghost since: nat, ghost at: Sight) returns (ghost at': Sight)
    requires AtKnownVout(db, s, since, at) && db.world.fair == Standing(s.fair.scan)
    modifies db
    ensures AtKnownVout(db, s, since, at') && old(db.past) <= db.past
    ensures !db.world.fair.slot.Unread? && db.world.fair == Standing(s.fair.scan).(slot := db.world.fair.slot)
  {
    ghost var t, p := db.world, db.past;
    var _ := db.ReadSlot();
    ReadingStands(s, t, db.world);
    SlotRecalled(s, t, db.world, p, db.past, since, at);
    at' := at.(slotAt := |p| - 1);
  }

  method OriginReading(db: Bridge, ghost s: State, ghost since: nat, ghost at: Sight) returns (ghost at': Sight)
    requires AtKnownVout(db, s, since, at) && !db.world.fair.slot.Unread?
    requires db.world.fair == Standing(s.fair.scan).(slot := db.world.fair.slot)
    modifies db
    ensures AtKnownVout(db, s, since, at') && old(db.past) <= db.past
    ensures !db.world.fair.origin.Unread? && db.world.fair == old(db.world).fair.(origin := db.world.fair.origin)
  {
    ghost var t, p := db.world, db.past;
    var _ := db.ReadOrigin();
    ReadingStands(s, t, db.world);
    OriginRecalled(s, t, db.world, p, db.past, since, at);
    at' := at.(originAt := |p| - 1);
  }

  method OriginThenOthers(db: Bridge, ghost s: State, ghost since: nat, ghost at: Sight) returns (ghost at': Sight)
    requires AtKnownVout(db, s, since, at) && !db.world.fair.slot.Unread?
    requires db.world.fair == Standing(s.fair.scan).(slot := db.world.fair.slot)
    modifies db
    ensures AtKnownVout(db, s, since, at') && old(db.past) <= db.past
    ensures !db.world.fair.origin.Unread? && db.world.fair == old(db.world).fair.(origin := db.world.fair.origin)
  {
    at' := OriginReading(db, s, since, at);
    Pause(db, s, since, at');
  }

  /** `matchVout`: the slot, then the earliest row. */
  method LookUp(db: Bridge, ghost s: State, ghost since: nat, ghost at: Sight) returns (ghost at': Sight)
    requires AtKnownVout(db, s, since, at) && db.world.fair == Standing(s.fair.scan)
    modifies db
    ensures AtKnownVout(db, s, since, at') && old(db.past) <= db.past
    ensures !db.world.fair.slot.Unread? && !db.world.fair.origin.Unread?
    ensures db.world.fair.daily.None? && db.world.fair.supply.None? && db.world.fair.inFlight.None?
  {
    at' := SlotReading(db, s, since, at);
    Pause(db, s, since, at');
    at' := OriginThenOthers(db, s, since, at');
  }

  method DailyReading(db: Bridge, ghost s: State, ghost since: nat, ghost at: Sight) returns (ghost at': Sight)
    requires AtKnownVout(db, s, since, at) && db.world.fair.origin.Row?
    modifies db
    ensures AtKnownVout(db, s, since, at') && old(db.past) <= db.past
    ensures db.world.fair.daily.Some? && db.world.fair == old(db.world).fair.(daily := db.world.fair.daily)
  {
    ghost var t, p := db.world, db.past;
    var _ := db.ReadDepositDaily();
    at' := at.(dailyAt := |p| - 1);
    ReadingStands(s, t, db.world);
    TotalsRecalled(s, t, db.world, p, db.past, since, at, at');
  }

  /** `sumDailyDepositSatsForAddress`, and the other actors after it. */
  method ReadDaily(db: Bridge, ghost s: State, ghost since: nat, ghost at: Sight) returns (ghost at': Sight)
    requires AtKnownVout(db, s, since, at) && db.world.fair.origin.Row?
    modifies db
    ensures AtKnownVout(db, s, since, at') && old(db.past) <= db.past
    ensures db.world.fair.daily.Some? && db.world.fair == old(db.world).fair.(daily := db.world.fair.daily)
  {
    at' := DailyReading(db, s, since, at);
    Pause(db, s, since, at');
  }

  method SupplyReading(db: Bridge, ghost s: State, ghost since: nat, ghost at: Sight) returns (ghost at': Sight)
    requires AtKnownVout(db, s, since, at) && db.world.fair.supply.None?
    modifies db
    ensures AtKnownVout(db, s, since, at') && old(db.past) <= db.past
    ensures db.world.fair.supply.Some? && db.world.fair == old(db.world).fair.(supply := db.world.fair.supply)
  {
    ghost var t, p := db.world, db.past;
    var _ := db.ReadSupply();
    at' := at.(supplyAt := |p| - 1);
    ReadingStands(s, t, db.world);
    TotalsRecalled(s, t, db.world, p, db.past, since, at, at');
  }

  method InFlightReading(db: Bridge, ghost s: State, ghost since: nat, ghost at: Sight) returns (ghost at': Sight)
    requires AtKnownVout(db, s, since, at) && db.world.fair.inFlight.None?
    modifies db
    ensures AtKnownVout(db, s, since, at') && old(db.past) <= db.past
    ensures db.world.fair.inFlight.Some? && db.world.fair == old(db.world).fair.(inFlight := db.world.fair.inFlight)
  {
    ghost var t, p := db.world, db.past;
    var _ := db.ReadInFlight();
    at' := at.(inFlightAt := |p| - 1);
    ReadingStands(s, t, db.world);
    TotalsRecalled(s, t, db.world, p, db.past, since, at, at');
  }

  method SupplyThenFlight(db: Bridge, ghost s: State, ghost since: nat, ghost at: Sight) returns (ghost at': Sight)
    requires AtKnownVout(db, s, since, at) && db.world.fair.supply.None? && db.world.fair.inFlight.None?
    modifies db
    ensures AtKnownVout(db, s, since, at') && old(db.past) <= db.past
    ensures BothRead(old(db.world).fair, db.world.fair)
  {
    at' := SupplyReading(db, s, since, at);
    Pause(db, s, since, at');
    at' := InFlightReading(db, s, since, at');
  }

  method FlightThenSupply(db: Bridge, ghost s: State, ghost since: nat, ghost at: Sight) returns (ghost at': Sight)
    requires AtKnownVout(db, s, since, at) && db.world.fair.supply.None? && db.world.fair.inFlight.None?
    modifies db
    ensures AtKnownVout(db, s, since, at') && old(db.past) <= db.past
    ensures BothRead(old(db.world).fair, db.world.fair)
  {
    at' := InFlightReading(db, s, since, at);
    Pause(db, s, since, at');
    at' := SupplyReading(db, s, since, at');
  }

  predicate BothRead(m: FairMemory, m': FairMemory) {
    m'.supply.Some? && m'.inFlight.Some? && m' == m.(supply := m'.supply, inFlight := m'.inFlight)
  }

  /** The TVL readings: two concurrent calls, so in either order, with anything
      in between. */
  method ReadTvl(db: Bridge, ghost s: State, ghost since: nat, ghost at: Sight) returns (ghost at': Sight)
    requires AtKnownVout(db, s, since, at) && db.world.fair.supply.None? && db.world.fair.inFlight.None?
    modifies db
    ensures AtKnownVout(db, s, since, at') && old(db.past) <= db.past
    ensures BothRead(old(db.world).fair, db.world.fair)
  {
    var order := AnyReply();
    if order == Yes {
      at' := SupplyThenFlight(db, s, since, at);
    } else {
      at' := FlightThenSupply(db, s, since, at);
    }
    Pause(db, s, since, at');
  }

  // ---- the row and the job -----------------------------------------------------------

  function Verdicted(cfg: Config, m: FairMemory, sats: nat): Verdict {
    Judge(cfg, m.origin.Row?, sats, m.daily, m.supply, m.inFlight)
  }

  /** The scanner has looked up the slot and the origin of a new vout. */
  ghost predicate Matched(db: Bridge, s: State, since: nat, at: Sight)
    reads db
  {
    AtNewVout(db, s, since, at) && !db.world.fair.slot.Unread? && !db.world.fair.origin.Unread?
  }

  lemma MayRecord(db: Bridge, s: State, since: nat, at: Sight)
    requires Matched(db, s, since, at) && !Verdicted(db.cfg, db.world.fair, TheVout(s).sats).NotRead?
    ensures CanRecord(db.cfg, db.world)
    ensures DepositRow(db.cfg, db.world).status.Confirmed? == Verdicted(db.cfg, db.world.fair, TheVout(s).sats).Accept?
  {
  }

  /** The row was given, and what was read is remembered. */
  ghost predicate Written(db: Bridge, s: State, since: nat, at: Sight, m: FairMemory, accepted: bool)
    reads db
  {
    && AtVout(s) && Pays(TheVout(s), s.addressCache)
    && db.Valid() && ScanCarries(s, db.world) && db.world.fair == Standing(s.fair.scan)
    && Given(db.cfg, db.world.deposits, m, TheKey(s), TheVout(s), accepted)
    && DepositRecorded(db.world.deposits, TheKey(s))
    && Remembers(db.past, since, at, TheVout(s).address.value, db.world.deposits, m)
  }

  /** The rejection of a vout. */
  method Refuse(db: Bridge, ghost s: State, ghost since: nat, ghost at: Sight)
    requires Matched(db, s, since, at) && Verdicted(db.cfg, db.world.fair, TheVout(s).sats).Reject?
    modifies db
    ensures Written(db, s, since, at, old(db.world).fair, false) && old(db.past) <= db.past
  {
    ghost var t, p := db.world, db.past;
    MayRecord(db, s, since, at);
    var id := Persist(db, s, since, at, false);
    RemembersOn(p, db.past, since, at, TheVout(s).address.value, t.deposits, db.world.deposits, t.fair);
  }

  /** A row that was given is still that row when others have run. */
  lemma GivenStays(cfg: Config, t: State, u: State, id: nat, key: Outpoint, vout: Vout, origin: Lookup)
    requires FairRelies(t, u) && RowGiven(cfg, t.deposits, id, key, vout, origin, true)
    ensures RowGiven(cfg, u.deposits, id, key, vout, origin, true)
    ensures MintJobOf(u.deposits, id).wei == ApplyFee(vout.sats * SATS_TO_WEI, cfg.feeBps)
  {
    assert SameDeposit(t.deposits[id], u.deposits[id]);
    if origin.Row? { assert SameDeposit(t.deposits[origin.id], u.deposits[origin.id]); }
  }

  method WaitWritten(db: Bridge, ghost s: State, ghost since: nat, ghost at: Sight, ghost m: FairMemory, ghost id: nat)
    requires Written(db, s, since, at, m, true) && (m.slot.Row? ==> id == m.slot.id)
    requires RowGiven(db.cfg, db.world.deposits, id, TheKey(s), TheVout(s), m.origin, true)
    modifies db
    ensures Written(db, s, since, at, m, true) && old(db.past) <= db.past
    ensures RowGiven(db.cfg, db.world.deposits, id, TheKey(s), TheVout(s), m.origin, true)
  {
    ghost var u, p := db.world, db.past;
    db.Others(Fair);
    ReliesCarries(u, db.world, TheKey(s));
    ScanCarriesOn(s, u, db.world);
    GivenStays(db.cfg, u, db.world, id, TheKey(s), TheVout(s), m.origin);
    RemembersOn(p, db.past, since, at, TheVout(s).address.value, u.deposits, db.world.deposits, m);
  }

  method Queue(db: Bridge, env: Env, ghost s: State, ghost since: nat, ghost at: Sight, ghost m: FairMemory, id: nat)
    returns (queued: bool)
    requires Written(db, s, since, at, m, true) && (m.slot.Row? ==> id == m.slot.id)
    requires RowGiven(db.cfg, db.world.deposits, id, TheKey(s), TheVout(s), m.origin, true)
    modifies db, env
    ensures Written(db, s, since, at, m, true) && old(db.past) <= db.past
    ensures queued ==> QueuedFor(db.world, TheKey(s), ApplyFee(TheVout(s).sats * SATS_TO_WEI, db.cfg.feeBps))
    ensures env.setbacks == old(env.setbacks) + (if queued then 0 else 1)
  {
    WaitWritten(db, s, since, at, m, id);
    var dies := env.Dies();
    if dies { return false; }
    ghost var p := db.past;
    db.EnqueueMint(id);
    assert OwnersStay(db.world.deposits, db.world.deposits);
    RemembersOn(p, db.past, since, at, TheVout(s).address.value, db.world.deposits, db.world.deposits, m);
    assert MintJobOf(db.world.deposits, id) in db.world.mintJobs;
    queued := true;
  }

  /** The confirmation of a vout, then the job; the process may die in between. */
  method Accept(db: Bridge, env: Env, ghost s: State, ghost since: nat, ghost at: Sight) returns (queued: bool)
    requires Matched(db, s, since, at) && Verdicted(db.cfg, db.world.fair, TheVout(s).sats).Accept?
    modifies db, env
    ensures Written(db, s, since, at, old(db.world).fair, true) && old(db.past) <= db.past
    ensures queued ==> QueuedFor(db.world, TheKey(s), ApplyFee(TheVout(s).sats * SATS_TO_WEI, db.cfg.feeBps))
    ensures env.setbacks == old(env.setbacks) + (if queued then 0 else 1)
  {
    ghost var m, p, t := db.world.fair, db.past, db.world;
    MayRecord(db, s, since, at);
    var id := Persist(db, s, since, at, true);
    RemembersOn(p, db.past, since, at, TheVout(s).address.value, t.deposits, db.world.deposits, m);
    queued := Queue(db, env, s, since, at, m, id);
  }

  // ---- the checks --------------------------------------------------------------------

  /** What each of the methods below ensures: the vout is done, and the scan stands
      where it stood; only a setback can crash it. */
  ghost predicate Done(db: Bridge, s: State, since: nat, at: Sight, m: FairMemory, r: VoutOutcome)
    reads db
  {
    && db.Valid() && AtVout(s) && Pays(TheVout(s), s.addressCache) && db.world.fair.scan == s.fair.scan
    && VoutDone(db.cfg, s, db.world, db.past, since, at, m, r)
  }

  /** The scan stopped before it wrote anything. */
  lemma StoppedDone(db: Bridge, s: State, since: nat, at: Sight)
    requires AtKnownVout(db, s, since, at)
    ensures Done(db, s, since, at, db.world.fair, Crashed)
    ensures DepositRecorded(s.deposits, TheKey(s)) ==> Done(db, s, since, at, db.world.fair, AlreadyThere)
  {
  }

  /** The TVL check, for a vout that passed the others. */
  method DecideTvl(db: Bridge, env: Env, ghost s: State, ghost since: nat, ghost at: Sight)
    returns (r: VoutOutcome, ghost m: FairMemory)
    requires Matched(db, s, since, at) && UnderDaily(db.cfg, db.world.fair, TheVout(s).sats)
    requires db.world.fair.supply.Some? && db.world.fair.inFlight.Some?
    modifies db, env
    ensures Done(db, s, since, at, m, r) && old(db.past) <= db.past && (r.OverTvl? || r.Accepted? || r.Crashed?)
    ensures old(env.setbacks) <= env.setbacks && (r.Crashed? ==> env.setbacks > old(env.setbacks))
  {
    m := db.world.fair;
    var net := ApplyFee(TheVout(db.world).sats * SATS_TO_WEI, db.cfg.feeBps);
    if db.world.fair.supply.value + db.world.fair.inFlight.value + net > db.cfg.maxTvlWei {
      Refuse(db, s, since, at);
      r := OverTvl;
    } else {
      var queued := Accept(db, env, s, since, at);
      r := if queued then Accepted else Crashed;
    }
  }

  /** The daily cap, for a vout that is not dust. */
  method DecideDaily(db: Bridge, env: Env, ghost s: State, ghost since: nat, ghost at: Sight)
    returns (r: VoutOutcome, ghost m: FairMemory, ghost at': Sight)
    requires Matched(db, s, since, at) && db.world.fair.origin.Row? && TheVout(s).sats >= db.cfg.minDepositSats
    requires db.world.fair.daily.Some? && db.world.fair.supply.None? && db.world.fair.inFlight.None?
    modifies db, env
    ensures Done(db, s, since, at', m, r) && old(db.past) <= db.past && (Acts(r) ==> m.origin.Row?)
    ensures old(env.setbacks) <= env.setbacks && (r.Crashed? ==> env.setbacks > old(env.setbacks))
    ensures !r.AlreadyThere? && !r.Foreign?
  {
    m, at' := db.world.fair, at;
    if db.world.fair.daily.value + TheVout(db.world).sats > db.cfg.depositCapSats {
      Refuse(db, s, since, at);
      r := OverDaily;
      return;
    }
    at' := ReadTvl(db, s, since, at);
    var dies := env.Dies();
    if dies {
      StoppedDone(db, s, since, at');
      return Crashed, db.world.fair, at';
    }
    r, m := DecideTvl(db, env, s, since, at');
  }

  /** The checks of a vout without a row, in the order of the source. */
  method DecideVout(db: Bridge, env: Env, ghost s: State, ghost since: nat, ghost at: Sight)
    returns (r: VoutOutcome, ghost m: FairMemory, ghost at': Sight)
    requires Matched(db, s, since, at)
    requires db.world.fair.daily.None? && db.world.fair.supply.None? && db.world.fair.inFlight.None?
    modifies db, env
    ensures Done(db, s, since, at', m, r) && old(db.past) <= db.past
    ensures Told(db.cfg, s, db.world, db.past, at', m, r)
    ensures old(env.setbacks) <= env.setbacks && (r.Crashed? ==> env.setbacks > old(env.setbacks))
    ensures !r.AlreadyThere? && !r.Foreign?
  {
    m, at' := db.world.fair, at;
    if db.world.fair.origin.Nobody? {
      Refuse(db, s, since, at);
      r := Unsolicited;
      return;
    }
    if TheVout(db.world).sats < db.cfg.minDepositSats {
      Refuse(db, s, since, at);
      r := Dust;
      return;
    }
    r, m, at' := ReadAndDecide(db, env, s, since, at);
    VoutTells(db.cfg, s, db.world, db.past, since, at', m, r);
  }

  method ReadAndDecide(db: Bridge, env: Env, ghost s: State, ghost since: nat, ghost at: Sight)
    returns (r: VoutOutcome, ghost m: FairMemory, ghost at': Sight)
    requires Matched(db, s, since, at) && db.world.fair.origin.Row? && TheVout(s).sats >= db.cfg.minDepositSats
    requires db.world.fair.daily.None? && db.world.fair.supply.None? && db.world.fair.inFlight.None?
    modifies db, env
    ensures Done(db, s, since, at', m, r) && old(db.past) <= db.past && (Acts(r) ==> m.origin.Row?)
    ensures old(env.setbacks) <= env.setbacks && (r.Crashed? ==> env.setbacks > old(env.setbacks))
    ensures !r.AlreadyThere? && !r.Foreign?
  {
    at' := ReadDaily(db, s, since, at);
    var dies := env.Dies();
    if dies {
      StoppedDone(db, s, since, at');
      return Crashed, db.world.fair, at';
    }
    r, m, at' := DecideDaily(db, env, s, since, at');
  }

  /** A vout that pays a known address. */
  method ProcessKnown(db: Bridge, env: Env, ghost s: State, ghost since: nat)
    returns (r: VoutOutcome, ghost m: FairMemory, ghost at: Sight)
    requires AtKnownVout(db, s, since, NOTHING_SEEN) && db.world.fair == Standing(s.fair.scan)
    modifies db, env
    ensures Done(db, s, since, at, m, r) && old(db.past) <= db.past && !r.Foreign?
    ensures old(env.setbacks) <= env.setbacks && (r.Crashed? ==> env.setbacks > old(env.setbacks))
  {
    at := LookUp(db, s, since, NOTHING_SEEN);
    var dies := env.Dies();
    if dies {
      StoppedDone(db, s, since, at);
      return Crashed, db.world.fair, at;
    }
    if DepositRecorded(db.world.deposits, TheKey(db.world)) {
      StoppedDone(db, s, since, at);
      return AlreadyThere, db.world.fair, at;
    }
    r, m, at := DecideVout(db, env, s, since, at);
  }

  /** `matchVout` and the checks that follow, for the vout the scanner stands at.
      It is refused as unsolicited exactly when no row stood at its address as the
      origin was looked up; every other outcome is what the readings taken since
      the start call for, and the row inherits the origin's recipient. */
  method ProcessVout(db: Bridge, env: Env) returns (r: VoutOutcome, ghost m: FairMemory, ghost at: Sight)
    requires db.Valid() && AtVout(db.world) && db.world.fair == Standing(db.world.fair.scan)
    modifies db, env
    ensures db.Valid() && old(db.past) <= db.past && db.world.fair.scan == old(db.world).fair.scan
    ensures VoutDone(db.cfg, old(db.world), db.world, db.past, |old(db.past)| - 1, at, m, r)
    ensures Told(db.cfg, old(db.world), db.world, db.past, at, m, r)
    ensures r.Unsolicited? ==> !RowStands(old(db.world).deposits, TheVout(old(db.world)).address.value)
    ensures old(env.setbacks) <= env.setbacks && (r.Crashed? ==> env.setbacks > old(env.setbacks))
  {
    ghost var s, since := db.world, |db.past| - 1;
    m, at := db.world.fair, NOTHING_SEEN;
    var vout := TheVout(db.world);
    if vout.address.None? || vout.address.value !in db.world.addressCache {
      r := VoutOutcome.Foreign;
      return;
    }
    StartsAt(db);
    r, m, at := ProcessKnown(db, env, s, since);
    VoutTells(db.cfg, s, db.world, db.past, since, at, m, r);
    if r.Unsolicited? { UnsolicitedMeansNoRow(db, s, since, at, m); }
  }

  lemma UnsolicitedMeansNoRow(db: Bridge, s: State, since: nat, at: Sight, m: FairMemory)
    requires Done(db, s, since, at, m, Unsolicited) && since < |db.past| && db.past[since] == s
    ensures !RowStands(s.deposits, TheVout(s).address.value)
  {
    NobodyStoodBefore(db, since, at.originAt, TheVout(s).address.value);
  }

  /** The scanner has just come to the vout. */
  lemma StartsAt(db: Bridge)
    requires db.Valid() && AtVout(db.world) && db.world.fair == Standing(db.world.fair.scan)
    requires Pays(TheVout(db.world), db.world.addressCache)
    ensures AtKnownVout(db, db.world, |db.past| - 1, NOTHING_SEEN)
  {
  }

  /** Rows never leave, so where nobody stood later, nobody stood before. */
  lemma NobodyStoodBefore(db: Bridge, since: nat, n: nat, a: FairAddress)
    requires db.Valid() && since <= n < |db.past| && FindEarliest(db.past[n].deposits, a).Nobody?
    ensures !RowStands(db.past[since].deposits, a)
  {
    RowsStay(db, since, n);
    forall i | 0 <= i < |db.past[since].deposits|
      ensures db.past[since].deposits[i].fairAddress != a
    {
      assert SameOwner(db.past[since].deposits[i], db.past[n].deposits[i]);
    }
  }

  lemma RowsStayOnce(db: Bridge, n: nat)
    requires db.Valid() && n + 1 < |db.past|
    ensures OwnersStay(db.past[n].deposits, db.past[n + 1].deposits)
  {
    db.PastSteps(n);
    OwnersStayStep(db.cfg, db.past[n], db.past[n + 1], db.events[n]);
  }

  lemma {:induction false} RowsStay(db: Bridge, i: nat, n: nat)
    requires db.Valid() && i <= n < |db.past|
    ensures OwnersStay(db.past[i].deposits, db.past[n].deposits)
    decreases n
  {
    if i < n {
      RowsStay(db, i, n - 1);
      RowsStayOnce(db, n - 1);
      OwnersChain(db.past[i].deposits, db.past[n - 1].deposits, db.past[n].deposits);
    }
  }

  lemma OwnersChain(ds: seq<Deposit>, ds': seq<Deposit>, ds'': seq<Deposit>)
    requires OwnersStay(ds, ds') && OwnersStay(ds', ds'')
    ensures OwnersStay(ds, ds'')
  {
    assert forall i :: 0 <= i < |ds| ==> SameOwner(ds[i], ds'[i]) && SameOwner(ds'[i], ds''[i]);
  }
}
