/** The burn scanner's work on one log: the checks in order, one row per burn. */
module BurnWatcher {
  import opened Wrappers
  import opened Money
  import opened Rows
  import opened Protocol
  import opened Totals
  import opened Interference
  import opened BridgeDb
  import opened Environment

  /** What became of one log. `daily` is the total the cap was checked against;
      Unvalidated, the node did not answer and the burn was rejected for that. */
  datatype LogOutcome =
    | Ignored
    | AlreadyThere
    | InvalidAddress
    | Unvalidated
    | OverCap(daily: nat)
    | Accepted(daily: nat)
    | Crashed

  // ---- while the scanner stands at a log ---------------------------------------

  /** The scanner stands where it stood, and the rows there are were relabelled
      at most. */
  predicate Stands(s: State, u: State) {
    && s.logs <= u.logs && s.baseTip <= u.baseTip && u.baseCursor == s.baseCursor && u.missed == s.missed
    && (s.aborted ==> u.aborted) && u.base.scan == s.base.scan && s.now <= u.now
    && (forall i :: |s.logs| <= i < |u.logs| ==> u.logs[i].block > s.baseTip)
    && WithdrawalsRelabelled(s.withdrawals, u.withdrawals)
  }

  lemma StandsOn(s: State, t: State, u: State)
    requires Stands(s, t) && (Stands(t, u) || BaseRelies(t, u))
    ensures Stands(s, u)
  {
  }

  lemma SameKeysSameBurns(ws: seq<Withdrawal>, ws': seq<Withdrawal>, key: BurnKey)
    requires |ws| == |ws'| && forall i :: 0 <= i < |ws| ==> ws'[i].key == ws[i].key
    ensures BurnRecorded(ws, key) <==> BurnRecorded(ws', key)
  {
    if BurnRecorded(ws, key) {
      var i :| 0 <= i < |ws| && ws[i].key == key;
      assert ws'[i].key == key;
    }
  }

  /** The log at hand has no row, and the scanner has stood there since `s`. */
  ghost predicate AtNewLog(db: Bridge, s: State)
    reads db
  {
    && db.Valid() && AtLog(s) && Stands(s, db.world)
    && TheLog(s).decodable && !BurnRecorded(s.withdrawals, TheLog(s).key)
  }

  lemma StillNew(s: State, u: State)
    requires AtLog(s) && Stands(s, u)
    ensures AtLog(u) && TheLog(u) == TheLog(s)
    ensures BurnRecorded(u.withdrawals, TheLog(s).key) <==> BurnRecorded(s.withdrawals, TheLog(s).key)
  {
    SameKeysSameBurns(s.withdrawals, u.withdrawals, TheLog(s).key);
  }

  /** Other actors run. */
  method Pause(db: Bridge, ghost s: State)
    requires AtNewLog(db, s)
    modifies db
    ensures AtNewLog(db, s) && old(db.past) <= db.past && db.world.base == old(db.world).base
  {
    ghost var t := db.world;
    db.Others(Base);
    StandsOn(s, t, db.world);
  }

  // ---- what a log's processing promises ------------------------------------------

  /** Rows keep their burns while a log is processed; at most one row is added. */
  predicate RowsKept(s: State, s': State) {
    && |s.withdrawals| <= |s'.withdrawals| <= |s.withdrawals| + 1
    && (forall i :: 0 <= i < |s.withdrawals| ==> s'.withdrawals[i].key == s.withdrawals[i].key)
    && s.logs <= s'.logs && s.baseTip <= s'.baseTip && s'.baseCursor == s.baseCursor && s'.missed == s.missed
    && (s.aborted ==> s'.aborted)
  }

  /** The row added for a log, with the columns its outcome calls for. */
  predicate AddedRow(cfg: Config, s: State, s': State, log: BurnLog, accepted: bool) {
    && |s'.withdrawals| == |s.withdrawals| + 1
    && !BurnRecorded(s.withdrawals, log.key)
    && var w := s'.withdrawals[|s.withdrawals|]; var gross := log.wei / SATS_TO_WEI;
       && w.key == log.key && w.from == log.from && w.destination == log.destination
       && w.amountSats == (if accepted then ApplyFee(gross, cfg.feeBps) else gross)
       && (!accepted ==> w.status.Failed?)
  }

  /** That was the sender's daily total at some point of the processing. */
  predicate DailyWas(past: seq<State>, since: nat, from: string, daily: nat) {
    exists n :: since <= n < |past| && WithdrawalDailySats(past[n].withdrawals, from, past[n].now) == daily
  }

  /** What the outcome of a log says, the node calling its destination valid or not. */
  predicate OutcomeOk(cfg: Config, s: State, s': State, past: seq<State>, since: nat, log: BurnLog, valid: bool,
                      r: LogOutcome)
  {
    var gross := log.wei / SATS_TO_WEI;
    match r
    case Ignored => !log.decodable && |s'.withdrawals| == |s.withdrawals|
    case AlreadyThere => log.decodable && BurnRecorded(s.withdrawals, log.key) && |s'.withdrawals| == |s.withdrawals|
    case InvalidAddress => log.decodable && !valid && AddedRow(cfg, s, s', log, false)
    case Unvalidated => log.decodable && AddedRow(cfg, s, s', log, false)
    case OverCap(daily) =>
      && log.decodable && valid && DailyWas(past, since, log.from, daily)
      && daily + gross > cfg.withdrawalCapSats && AddedRow(cfg, s, s', log, false)
    case Accepted(daily) =>
      && log.decodable && valid && DailyWas(past, since, log.from, daily)
      && daily + gross <= cfg.withdrawalCapSats && AddedRow(cfg, s, s', log, true)
      && ReleaseJobOf(s'.withdrawals, |s.withdrawals|) in s'.releaseJobs
    case Crashed => true
  }

  /** In a state passed through, the sender's own rows of the day did, or did not, add
      up with the burn to more than the cap. */
  ghost predicate CapWas(past: seq<State>, since: nat, log: BurnLog, cap: nat, passed: bool) {
    exists n :: since <= n < |past| &&
      (passed <==> WithdrawalsPass(past[n].withdrawals, log.from, past[n].now, log.wei / SATS_TO_WEI, cap))
  }

  /** The cap by those rows: over it exactly when they passed it. */
  ghost predicate CapTold(cfg: Config, past: seq<State>, since: nat, log: BurnLog, r: LogOutcome) {
    && (r.OverCap? ==> CapWas(past, since, log, cfg.withdrawalCapSats, true))
    && (r.Accepted? ==> CapWas(past, since, log, cfg.withdrawalCapSats, false))
  }

  lemma OutcomeTells(cfg: Config, s: State, s': State, past: seq<State>, since: nat, log: BurnLog, valid: bool,
                     r: LogOutcome)
    requires OutcomeOk(cfg, s, s', past, since, log, valid, r)
    ensures CapTold(cfg, past, since, log, r)
  {
    var gross := log.wei / SATS_TO_WEI;
    if r.OverCap? || r.Accepted? {
      var n :| since <= n < |past| && WithdrawalDailySats(past[n].withdrawals, log.from, past[n].now) == r.daily;
      WithdrawalsPassIff(past[n].withdrawals, log.from, past[n].now, gross, cfg.withdrawalCapSats);
    }
  }

  /** A sender without a row of the day in any state passed through, and within the
      cap by the burn alone, is never over it, whatever others withdrew. */
  lemma FirstIsNotOver(cfg: Config, past: seq<State>, since: nat, log: BurnLog, r: LogOutcome)
    requires CapTold(cfg, past, since, log, r) && log.wei / SATS_TO_WEI <= cfg.withdrawalCapSats
    requires forall n :: since <= n < |past| ==> NothingToday(past[n].withdrawals, log.from, past[n].now)
    ensures !r.OverCap?
  {
    if r.OverCap? {
      var n :| since <= n < |past| && WithdrawalsPass(past[n].withdrawals, log.from, past[n].now,
        log.wei / SATS_TO_WEI, cfg.withdrawalCapSats);
      FirstOfTheDay(past[n].withdrawals, log.from, past[n].now, log.wei / SATS_TO_WEI, cfg.withdrawalCapSats);
    }
  }

  // ---- the steps -------------------------------------------------------------------

  /** `Withdrawal.create`, for an accepted or a rejected burn. */
  method WriteRow(db: Bridge, ghost s: State, valid: bool, accepted: bool) returns (id: nat)
    requires AtNewLog(db, s)
    requires valid ==> db.world.base.daily.Some? && db.world.base.daily.value.from == TheLog(s).from
    requires accepted <==>
      valid && db.world.base.daily.value.sats + TheLog(s).wei / SATS_TO_WEI <= db.cfg.withdrawalCapSats
    modifies db
    ensures db.Valid() && old(db.past) <= db.past && RowsKept(s, db.world) && db.world.base.scan == s.base.scan
    ensures AddedRow(db.cfg, s, db.world, TheLog(s), accepted) && BurnRecorded(db.world.withdrawals, TheLog(s).key)
    ensures id == |s.withdrawals|
  {
    StillNew(s, db.world);
    var log := TheLog(db.world);
    var gross := log.wei / SATS_TO_WEI;
    var row := Withdrawal(log.key, log.from, log.destination,
      if accepted then ApplyFee(gross, db.cfg.feeBps) else gross,
      if accepted then WithdrawalStatus.Confirmed else WithdrawalStatus.Failed,
      None, db.world.now);
    id := db.CreateWithdrawal(valid, row);
    assert db.world.withdrawals[id] == row;
  }

  /** A row written and then only relabelled is still the row written. */
  lemma AddedRowStays(cfg: Config, s: State, t: State, u: State, log: BurnLog)
    requires RowsKept(s, t) && AddedRow(cfg, s, t, log, true) && BaseRelies(t, u)
    ensures RowsKept(s, u) && AddedRow(cfg, s, u, log, true) && BurnRecorded(u.withdrawals, log.key)
  {
    assert u.withdrawals[|s.withdrawals|].key == log.key;
  }

  /** The row of an accepted burn, then its job; the process may die in between. */
  method AcceptLog(db: Bridge, env: Env, ghost s: State) returns (queued: bool)
    requires AtNewLog(db, s)
    requires db.world.base.daily.Some? && db.world.base.daily.value.from == TheLog(s).from
    requires db.world.base.daily.value.sats + TheLog(s).wei / SATS_TO_WEI <= db.cfg.withdrawalCapSats
    modifies db, env
    ensures db.Valid() && old(db.past) <= db.past && RowsKept(s, db.world) && db.world.base.scan == s.base.scan
    ensures AddedRow(db.cfg, s, db.world, TheLog(s), true) && BurnRecorded(db.world.withdrawals, TheLog(s).key)
    ensures queued ==> ReleaseJobOf(db.world.withdrawals, |s.withdrawals|) in db.world.releaseJobs
    ensures old(env.setbacks) <= env.setbacks && (!queued ==> env.setbacks > old(env.setbacks))
  {
    var id := WriteRow(db, s, true, true);
    ghost var t := db.world;
    db.Others(Base);
    AddedRowStays(db.cfg, s, t, db.world, TheLog(s));
    var dies := env.Dies();
    if dies { return false; }
    db.EnqueueRelease(id);
    queued := true;
  }

  /** The daily reading, and the other actors after it. */
  method ReadDaily(db: Bridge, ghost s: State, ghost since: nat) returns (daily: nat)
    requires AtNewLog(db, s) && since < |db.past|
    modifies db
    ensures AtNewLog(db, s) && old(db.past) <= db.past && DailyWas(db.past, since, TheLog(s).from, daily)
    ensures db.world.base.daily.Some? && db.world.base.daily.value.from == TheLog(s).from
    ensures db.world.base.daily.value.sats == daily
  {
    StillNew(s, db.world);
    ghost var n := |db.past| - 1;
    assert db.past[n] == db.world;
    daily := db.ReadWithdrawalDaily();
    Pause(db, s);
    assert WithdrawalDailySats(db.past[n].withdrawals, TheLog(s).from, db.past[n].now) == daily;
  }

  /** The cap and the row of a burn to a valid destination. */
  method RecordValid(db: Bridge, env: Env, ghost s: State, ghost since: nat, daily: nat) returns (r: LogOutcome)
    requires AtNewLog(db, s) && since < |db.past| && DailyWas(db.past, since, TheLog(s).from, daily)
    requires db.world.base.daily.Some? && db.world.base.daily.value.from == TheLog(s).from
    requires db.world.base.daily.value.sats == daily && env.isValid(TheLog(s).destination)
    modifies db, env
    ensures db.Valid() && old(db.past) <= db.past && RowsKept(s, db.world) && db.world.base.scan == s.base.scan
    ensures OutcomeOk(db.cfg, s, db.world, db.past, since, TheLog(s), env.isValid(TheLog(s).destination), r)
    ensures CapTold(db.cfg, db.past, since, TheLog(s), r)
    ensures r.OverCap? || r.Accepted? || r.Crashed?
    ensures BurnRecorded(db.world.withdrawals, TheLog(s).key)
    ensures old(env.setbacks) <= env.setbacks && (r.Crashed? ==> env.setbacks > old(env.setbacks))
  {
    ghost var p := db.past;
    StillNew(s, db.world);
    if daily + TheLog(db.world).wei / SATS_TO_WEI > db.cfg.withdrawalCapSats {
      var _ := WriteRow(db, s, true, false);
      r := OverCap(daily);
    } else {
      var queued := AcceptLog(db, env, s);
      r := if queued then Accepted(daily) else Crashed;
    }
    DailyWasStays(p, db.past, since, TheLog(s).from, daily);
    OutcomeTells(db.cfg, s, db.world, db.past, since, TheLog(s), true, r);
  }

  lemma DailyWasStays(p: seq<State>, p': seq<State>, since: nat, from: string, daily: nat)
    requires p <= p' && DailyWas(p, since, from, daily)
    ensures DailyWas(p', since, from, daily)
  {
    var n :| since <= n < |p| && WithdrawalDailySats(p[n].withdrawals, from, p[n].now) == daily;
    assert p'[n] == p[n];
  }

  /** The row of a burn whose destination was not found valid. */
  method RejectLog(db: Bridge, env: Env, ghost s: State, ghost since: nat, noAnswer: bool) returns (r: LogOutcome)
    requires AtNewLog(db, s) && (noAnswer || !env.isValid(TheLog(s).destination))
    modifies db
    ensures db.Valid() && old(db.past) <= db.past && RowsKept(s, db.world) && db.world.base.scan == s.base.scan
    ensures OutcomeOk(db.cfg, s, db.world, db.past, since, TheLog(s), env.isValid(TheLog(s).destination), r)
    ensures r == (if noAnswer then Unvalidated else InvalidAddress)
    ensures BurnRecorded(db.world.withdrawals, TheLog(s).key)
  {
    var _ := WriteRow(db, s, false, false);
    r := if noAnswer then Unvalidated else InvalidAddress;
  }

  /** The daily total of the sender of a burn to a valid destination, then its row. */
  method CheckCap(db: Bridge, env: Env, ghost s: State, ghost since: nat) returns (r: LogOutcome)
    requires AtNewLog(db, s) && since < |db.past| && env.isValid(TheLog(s).destination)
    modifies db, env
    ensures db.Valid() && old(db.past) <= db.past && RowsKept(s, db.world)
    ensures OutcomeOk(db.cfg, s, db.world, db.past, since, TheLog(s), env.isValid(TheLog(s).destination), r)
    ensures CapTold(db.cfg, db.past, since, TheLog(s), r)
    ensures r.OverCap? || r.Accepted? || r.Crashed?
    ensures !r.Crashed? ==> db.world.base.scan == s.base.scan && BurnRecorded(db.world.withdrawals, TheLog(s).key)
    ensures old(env.setbacks) <= env.setbacks && (r.Crashed? ==> env.setbacks > old(env.setbacks))
  {
    var daily := ReadDaily(db, s, since);
    var dies := env.Dies();
    if dies { return Crashed; }
    r := RecordValid(db, env, s, since, daily);
  }

  /** A burn without a row gets one: rejected, or accepted and queued. */
  method RecordLog(db: Bridge, env: Env, ghost s: State, ghost since: nat) returns (r: LogOutcome)
    requires AtNewLog(db, s) && since < |db.past|
    modifies db, env
    ensures db.Valid() && old(db.past) <= db.past && RowsKept(s, db.world)
    ensures OutcomeOk(db.cfg, s, db.world, db.past, since, TheLog(s), env.isValid(TheLog(s).destination), r)
    ensures CapTold(db.cfg, db.past, since, TheLog(s), r)
    ensures !r.Ignored? && !r.AlreadyThere?
    ensures !r.Crashed? ==> db.world.base.scan == s.base.scan && BurnRecorded(db.world.withdrawals, TheLog(s).key)
    ensures old(env.setbacks) <= env.setbacks
    ensures r.Crashed? || r.Unvalidated? ==> env.setbacks > old(env.setbacks)
  {
    StillNew(s, db.world);
    var answer := env.ValidateAddress(TheLog(db.world).destination);
    Pause(db, s);
    if answer == Some(true) {
      r := CheckCap(db, env, s, since);
    } else {
      r := RejectLog(db, env, s, since, answer.None?);
    }
  }

  /** `processLog`, for the log the scanner stands at. A decodable log that did
      not crash the scanner has a row now, and only a setback crashes it. A burn to a
      destination the node calls valid is rejected exactly when the node did not
      answer, a setback, or the sender's own rows of the day passed the cap with it. */
  method ProcessLog(db: Bridge, env: Env) returns (r: LogOutcome)
    requires db.Valid() && AtLog(db.world)
    modifies db, env
    ensures db.Valid() && old(db.past) <= db.past && RowsKept(old(db.world), db.world)
    ensures OutcomeOk(db.cfg, old(db.world), db.world, db.past, |old(db.past)| - 1, TheLog(old(db.world)),
      env.isValid(TheLog(old(db.world)).destination), r)
    ensures CapTold(db.cfg, db.past, |old(db.past)| - 1, TheLog(old(db.world)), r)
    ensures !r.Crashed? ==> db.world.base.scan == old(db.world).base.scan
    ensures !r.Crashed? && TheLog(old(db.world)).decodable ==>
      BurnRecorded(db.world.withdrawals, TheLog(old(db.world)).key)
    ensures old(env.setbacks) <= env.setbacks
    ensures r.Crashed? || r.Unvalidated? ==> env.setbacks > old(env.setbacks)
  {
    var log := TheLog(db.world);
    if !log.decodable { return Ignored; }
    var dies := env.Dies();
    if dies { return Crashed; }
    if BurnRecorded(db.world.withdrawals, log.key) { return AlreadyThere; }
    r := RecordLog(db, env, db.world, |db.past| - 1);
  }
}
