/** A payment can be scanned after its address was allocated and before the
    intent's row was created. It is refused, and every later payment to the address
    but the one that fills the intent's slot is credited to nobody: accepted for the
    zero address, to which the token mints nothing. */
module IntentRace {
  import opened Wrappers
  import opened Money
  import opened Rows
  import opened Sums
  import opened Protocol
  import M = MintLedger
  import opened DepositScan
  import opened Recipient
  import opened Runs
  import opened Scenario

  /** The scanner has come to a payment to a known address that has no row. */
  predicate Arrives(s: State) {
    && AtVout(s) && Pays(TheVout(s), s.addressCache) && s.fair == Standing(s.fair.scan)
    && !DepositRecorded(s.deposits, TheKey(s))
  }

  function Lookups(): seq<Event> {
    [FairWatcher(ReadSlot), FairWatcher(ReadOrigin)]
  }

  lemma RunOfTwo(cfg: Config, s: State, e: Event, f: Event)
    ensures Run(cfg, s, [e, f]) == Step(cfg, Step(cfg, s, e), f)
  {
    assert [e, f][..1] == [e] && [e][..0] == [];
    assert Run(cfg, s, []) == s && Run(cfg, s, [e]) == Step(cfg, s, e);
  }

  /** The state once the slot and the origin have been looked up. */
  function Seen(s: State): State
    requires Arrives(s)
  {
    var a, slot := TheVout(s).address.value, FindSlot(s.deposits, TheVout(s).address.value);
    s.(fair := s.fair.(slot := slot, origin := if slot.Row? then slot else FindEarliest(s.deposits, a)))
  }

  lemma SlotStep(cfg: Config, s: State)
    requires Arrives(s)
    ensures FairStep(cfg, s, ReadSlot) == s.(fair := s.fair.(slot := FindSlot(s.deposits, TheVout(s).address.value)))
  {
  }

  lemma OriginStep(cfg: Config, s: State, t: State)
    requires Arrives(s) && t == s.(fair := s.fair.(slot := FindSlot(s.deposits, TheVout(s).address.value)))
    ensures FairStep(cfg, t, ReadOrigin) == Seen(s)
  {
  }

  lemma LookedUp(cfg: Config, s: State)
    requires Arrives(s)
    ensures Run(cfg, s, Lookups()) == Seen(s)
  {
    RunOfTwo(cfg, s, Lookups()[0], Lookups()[1]);
    SlotStep(cfg, s);
    OriginStep(cfg, s, FairStep(cfg, s, ReadSlot));
  }

  lemma NobodySeenIff(s: State)
    requires Arrives(s)
    ensures Seen(s).fair.origin.Nobody? <==> !RowStands(s.deposits, TheVout(s).address.value)
  {
    var a := TheVout(s).address.value;
    var slot := FindSlot(s.deposits, a);
    if slot.Row? {
      assert s.deposits[slot.id].fairAddress == a;
    } else if FindEarliest(s.deposits, a).Row? {
      assert s.deposits[FindEarliest(s.deposits, a).id].fairAddress == a;
    }
  }

  lemma NobodySeenIsRefused(cfg: Config, s: State)
    requires Arrives(s) && Seen(s).fair.origin.Nobody?
    ensures CanRecord(cfg, Seen(s)) && Refused(DepositRow(cfg, Seen(s)))
  {
  }

  /** The lookups find no one exactly when no row stands at the address; then the
      payment is refused without any further reading, whatever its amount. */
  lemma RefusedIff(cfg: Config, s: State)
    requires Arrives(s)
    ensures var t := Run(cfg, s, Lookups());
      && (t.fair.origin.Nobody? <==> !RowStands(s.deposits, TheVout(s).address.value))
      && (t.fair.origin.Nobody? ==> CanRecord(cfg, t) && Refused(DepositRow(cfg, t)))
  {
    LookedUp(cfg, s);
    NobodySeenIff(s);
    if Seen(s).fair.origin.Nobody? { NobodySeenIsRefused(cfg, s); }
  }

  /** The lookups, the row of the payment, and then the row of the intent. */
  function AfterRefusal(cfg: Config, s: State, k: nat, baseAddress: string): State {
    Run(cfg, Run(cfg, s, Lookups()), [FairWatcher(RecordDeposit), Outside(CreateIntent(k, baseAddress))])
  }

  /** The payment comes in between allocation and row: the intent is preceded. */
  lemma PaymentBeforeIntentIsRefused(cfg: Config, s: State, k: nat, baseAddress: string)
    requires Arrives(s) && k in s.pendingIntents && TheVout(s).address == Some(Derived(k))
    requires !RowStands(s.deposits, Derived(k))
    ensures Skipped(s, AfterRefusal(cfg, s, k, baseAddress), k, baseAddress)
  {
    LookedUp(cfg, s);
    NobodySeenIff(s);
    NobodySeenIsRefused(cfg, s);
    var t := Seen(s);
    RunOfTwo(cfg, t, FairWatcher(RecordDeposit), Outside(CreateIntent(k, baseAddress)));
    RowIsAppended(cfg, t, FairStep(cfg, t, RecordDeposit));
    IntentIsWritten(cfg, s, FairStep(cfg, t, RecordDeposit), k, baseAddress);
  }

  /** The payment has a refused row, the intent a row after it, and nothing is queued. */
  predicate Skipped(s: State, u: State, k: nat, baseAddress: string)
    requires AtVout(s)
  {
    && |u.deposits| == |s.deposits| + 2 && u.deposits[..|s.deposits|] == s.deposits
    && Refused(u.deposits[|s.deposits|]) && u.deposits[|s.deposits|].outpoint == Some(TheKey(s))
    && u.deposits[|s.deposits| + 1] == IntentRow(k, baseAddress, s.now)
    && k in u.intents && u.intents[k] == Intent(baseAddress, |s.deposits| + 1) && Preceded(u, k)
    && u.mintJobs == s.mintJobs
  }

  lemma IntentIsWritten(cfg: Config, s: State, v: State, k: nat, baseAddress: string)
    requires AtVout(s) && k in s.pendingIntents && v.pendingIntents == s.pendingIntents && v.now == s.now
    requires v.mintJobs == s.mintJobs && |v.deposits| == |s.deposits| + 1 && v.deposits[..|s.deposits|] == s.deposits
    requires Refused(v.deposits[|s.deposits|]) && v.deposits[|s.deposits|].outpoint == Some(TheKey(s))
    requires v.deposits[|s.deposits|].fairAddress == Derived(k)
    ensures Skipped(s, OutsideStep(v, CreateIntent(k, baseAddress)), k, baseAddress)
  {
    var u := OutsideStep(v, CreateIntent(k, baseAddress));
    assert u.deposits[..|s.deposits|] == v.deposits[..|s.deposits|];
    assert u.deposits[|s.deposits|] == v.deposits[|s.deposits|];
    assert Preceded(u, k);
  }

  lemma RowIsAppended(cfg: Config, t: State, v: State)
    requires CanRecord(cfg, t) && t.fair.slot.Nobody? && v == FairStep(cfg, t, RecordDeposit)
    ensures v.deposits == t.deposits + [DepositRow(cfg, t)] && v.now == t.now && v.mintJobs == t.mintJobs
    ensures v.pendingIntents == t.pendingIntents && v.intents == t.intents
  {
  }

  lemma IntentStaysStep(cfg: Config, s: State, e: Event, k: nat)
    requires RecipientInv(s) && k in s.intents
    ensures k in Step(cfg, s, e).intents && Step(cfg, s, e).intents[k] == s.intents[k]
  {
    match e
    case Outside(o) => if o.CreateIntent? { assert IntentOk(s, k); }
    case FairWatcher(f) => assert FairStep(cfg, s, f).intents == s.intents;
    case MintWorker(m) => assert SameScan(s, MintStep(s, m));
    case BaseWatcher(b) => assert SameDepositSide(s, BaseStep(cfg, s, b));
    case ReleaseWorker(r) => assert SameDepositSide(s, ReleaseStep(s, r));
  }

  /** A preceded intent stays preceded. */
  lemma {:induction false} PrecededForGood(cfg: Config, s: State, events: seq<Event>, k: nat, fairStart: nat,
    baseStart: nat)
    requires Inv(cfg, s, fairStart, baseStart) && k in s.intents && Preceded(s, k)
    ensures var t := Run(cfg, s, events); k in t.intents && t.intents[k] == s.intents[k] && Preceded(t, k)
  {
    if events != [] {
      var n := |events| - 1;
      PrecededForGood(cfg, s, events[..n], k, fairStart, baseStart);
      InvRun(cfg, s, events[..n], fairStart, baseStart);
      PrecededStep(cfg, Run(cfg, s, events[..n]), events[n], k);
    }
  }

  lemma PrecededStep(cfg: Config, s: State, e: Event, k: nat)
    requires RecipientInv(s) && k in s.intents && Preceded(s, k)
    ensures var s' := Step(cfg, s, e); k in s'.intents && s'.intents[k] == s.intents[k] && Preceded(s', k)
  {
    IntentStaysStep(cfg, s, e, k);
    OwnersStayStep(cfg, s, Step(cfg, s, e), e);
    assert IntentOk(s, k);
    PrecededStays(s, Step(cfg, s, e), k);
  }

  /** So from then on every mint for that address but the slot's own pays the zero
      address, whatever happens. */
  lemma ReusePaysNobody(cfg: Config, s: State, events: seq<Event>, k: nat, x: nat, fairStart: nat, baseStart: nat)
    requires Inv(cfg, s, fairStart, baseStart) && k in s.intents && Preceded(s, k)
    requires var t := Run(cfg, s, events);
      && x < |t.mints| && t.mints[x].row < |t.deposits|
      && t.deposits[t.mints[x].row].fairAddress == Derived(k) && t.mints[x].row != s.intents[k].row
    ensures Run(cfg, s, events).mints[x].to == ZERO_ADDRESS && !Run(cfg, s, events).mints[x].outcome.Success?
  {
    PrecededForGood(cfg, s, events, k, fairStart, baseStart);
    InvRun(cfg, s, events, fairStart, baseStart);
    MintPaysCredit(cfg, Run(cfg, s, events), x);
  }

  // ---- a run from the start ----------------------------------------------------

  /** A transaction that pays the first address twice. */
  function PaidTwice(sats: nat): FairBlock {
    var to := Some(Derived(0));
    [FairTx("x", [Vout(0, to, sats), Vout(1, to, sats)])]
  }

  /** The scanner has taken up the block of these payments, to an address that was
      allocated and has no row yet. */
  predicate AtTheRace(s: State, sats: nat) {
    && |s.fairBlocks| >= 2 && s.fairBlocks[1] == PaidTwice(sats)
    && s == Genesis().(
         nextIndex := 1, pendingIntents := {0}, addressCache := {Derived(0)}, fairBlocks := s.fairBlocks,
         fair := Standing(Some(FairScan({Derived(0)}, 0, 0))))
  }

  lemma AllocateIt(cfg: Config) returns (events: seq<Event>, t: State)
    ensures Path(cfg, Genesis(), events, t)
    ensures t == Genesis().(nextIndex := 1, pendingIntents := {0}, addressCache := {Derived(0)})
  {
    t := OutsideStep(Genesis(), Allocate);
    Go(cfg, Genesis(), [], Genesis(), Outside(Allocate), t);
    events := [] + [Outside(Allocate)];
  }

  /** Allocation, the payments, their confirmations, and the scan begins. */
  lemma ReachTheRace(cfg: Config, sats: nat) returns (events: seq<Event>, s: State)
    ensures Path(cfg, Genesis(), events, s) && AtTheRace(s, sats) && Arrives(s)
    ensures TheVout(s).address == Some(Derived(0)) && TheVout(s).sats == sats && !RowStands(s.deposits, Derived(0))
  {
    var g, t := Genesis(), Genesis();
    events, t := AllocateIt(cfg);
    events, t := Mine(cfg, g, events, t, []);
    events, t := Mine(cfg, g, events, t, PaidTwice(sats));
    events, t := MineEmpty(cfg, g, events, t, cfg.fairConfirmations);
    s := FairStep(cfg, t, BeginBlock);
    Go(cfg, g, events, t, FairWatcher(BeginBlock), s);
    events := events + [FairWatcher(BeginBlock)];
  }

  /** From the start, a payment can come in between the allocation of its address
      and the row of its intent. */
  lemma IntentCanBePreceded(cfg: Config, sats: nat, baseAddress: string) returns (events: seq<Event>)
    ensures var s := Run(cfg, Genesis(), events);
      && Arrives(s) && TheVout(s).address == Some(Derived(0)) && TheVout(s).sats == sats
      && Skipped(s, AfterRefusal(cfg, s, 0, baseAddress), 0, baseAddress)
  {
    var s;
    events, s := ReachTheRace(cfg, sats);
    PaymentBeforeIntentIsRefused(cfg, s, 0, baseAddress);
  }

  // ---- and a payment accepted for nobody -----------------------------------------

  function RefusedRow(sats: nat): Deposit {
    Deposit(ZERO_ADDRESS, Derived(0), -1, DepositStatus.Failed, Some(Outpoint("x", 0)), 1, sats, sats * SATS_TO_WEI,
      None, 0)
  }

  function NobodysRow(cfg: Config, sats: nat): Deposit {
    Deposit(ZERO_ADDRESS, Derived(0), -1, DepositStatus.Confirmed, Some(Outpoint("x", 1)), 1, sats, NetWei(cfg, sats),
      None, 0)
  }

  /** The first payment was refused. */
  function AfterFirst(s: State, sats: nat): State {
    s.(deposits := [RefusedRow(sats)], received := sats, fair := Standing(s.fair.scan))
  }

  /** And the scanner stands at the second. */
  function Second(s: State, sats: nat): State {
    s.(deposits := [RefusedRow(sats)], received := sats, fair := Standing(Some(FairScan({Derived(0)}, 0, 1))))
  }

  lemma RefuseTheFirst(cfg: Config, s: State, sats: nat, t: State)
    requires AtTheRace(s, sats) && Arrives(s) && t == Seen(s)
    ensures FairStep(cfg, t, RecordDeposit) == AfterFirst(s, sats)
  {
    assert CanRecord(cfg, t) && DepositRow(cfg, t) == RefusedRow(sats);
  }

  lemma LookItUp(cfg: Config, before: seq<Event>, s: State) returns (events: seq<Event>, u: State)
    requires Path(cfg, Genesis(), before, s) && Arrives(s)
    ensures Path(cfg, Genesis(), events, u) && u == Seen(s)
  {
    var a := s.(fair := s.fair.(slot := FindSlot(s.deposits, TheVout(s).address.value)));
    SlotStep(cfg, s);
    OriginStep(cfg, s, a);
    Go(cfg, Genesis(), before, s, FairWatcher(ReadSlot), a);
    events := before + [FairWatcher(ReadSlot)];
    u := Seen(s);
    Go(cfg, Genesis(), events, a, FairWatcher(ReadOrigin), u);
    events := events + [FairWatcher(ReadOrigin)];
  }

  lemma PastTheFirst(cfg: Config, before: seq<Event>, s: State, sats: nat) returns (events: seq<Event>, u: State)
    requires Path(cfg, Genesis(), before, s) && AtTheRace(s, sats) && Arrives(s)
    ensures Path(cfg, Genesis(), events, u) && u == Second(s, sats)
  {
    var g, t, c := Genesis(), s, AfterFirst(s, sats);
    events, t := LookItUp(cfg, before, s);
    RefuseTheFirst(cfg, s, sats, t);
    Go(cfg, g, events, t, FairWatcher(RecordDeposit), c);
    events := events + [FairWatcher(RecordDeposit)];
    u := Second(s, sats);
    ToTheSecond(cfg, s, sats);
    Go(cfg, g, events, c, FairWatcher(NextVout), u);
    events := events + [FairWatcher(NextVout)];
  }

  lemma ToTheSecond(cfg: Config, s: State, sats: nat)
    requires AtTheRace(s, sats)
    ensures FairStep(cfg, AfterFirst(s, sats), NextVout) == Second(s, sats)
  {
    assert [RefusedRow(sats)][0].outpoint == Some(Outpoint("x", 0));
  }

  /** The second payment finds the refused row, and nothing to count. */
  lemma SecondFinds(s: State, sats: nat)
    requires AtTheRace(s, sats)
    ensures Arrives(Second(s, sats)) && FindSlot([RefusedRow(sats)], Derived(0)) == Nobody
    ensures Seen(Second(s, sats)).fair.origin == Row(0)
    ensures DepositDailySats([RefusedRow(sats)], ZERO_ADDRESS, 0) == 0 && InFlightWei([RefusedRow(sats)]) == 0
  {
    assert FindEarliest([RefusedRow(sats)], Derived(0)) == Row(0);
    SumZero(DepositDailyWeights([RefusedRow(sats)], ZERO_ADDRESS, 0 - DAY_MS));
    SumZero(InFlightWeights([RefusedRow(sats)]));
  }

  /** All readings taken, the second payment about to be recorded. */
  function Judged(s: State, sats: nat): State {
    Second(s, sats).(fair := FairMemory(Some(FairScan({Derived(0)}, 0, 1)), Nobody, Row(0), Some(0), Some(0), Some(0)))
  }

  lemma JudgeTheSecond(cfg: Config, before: seq<Event>, s: State, sats: nat, t: State)
    returns (events: seq<Event>, u: State)
    requires AtTheRace(s, sats) && t == Second(s, sats) && Path(cfg, Genesis(), before, t)
    ensures Path(cfg, Genesis(), events, u) && u == Judged(s, sats)
  {
    SecondFinds(s, sats);
    events, u := LookItUp(cfg, before, t);
    events, u := ReadTheTotals(cfg, events, s, sats, u);
  }

  lemma ReadTheTotals(cfg: Config, before: seq<Event>, s: State, sats: nat, t: State)
    returns (events: seq<Event>, u: State)
    requires AtTheRace(s, sats) && Path(cfg, Genesis(), before, t)
    requires t
      == Second(s, sats).(fair := FairMemory(Some(FairScan({Derived(0)}, 0, 1)), Nobody, Row(0), None, None, None))
    ensures Path(cfg, Genesis(), events, u) && u == Judged(s, sats)
  {
    var g := Genesis();
    SecondFinds(s, sats);
    var rd, su, fl := FairWatcher(ReadDepositDaily), FairWatcher(ReadSupply), FairWatcher(ReadInFlight);
    var a := t.(fair := t.fair.(daily := Some(0)));
    Go(cfg, g, before, t, rd, a);
    var b := a.(fair := a.fair.(supply := Some(0)));
    Go(cfg, g, before + [rd], a, su, b);
    u := b.(fair := b.fair.(inFlight := Some(0)));
    Go(cfg, g, before + [rd] + [su], b, fl, u);
    events := before + [rd] + [su] + [fl];
  }

  lemma SecondIsAccepted(cfg: Config, s: State, sats: nat, t: State)
    requires AtTheRace(s, sats) && Fits(cfg, sats) && t == Judged(s, sats)
    ensures CanRecord(cfg, t) && DepositRow(cfg, t) == NobodysRow(cfg, sats)
  {
    assert !DepositRecorded([RefusedRow(sats)], Outpoint("x", 1));
  }

  /** A run from the start in which a payment of an amount that passes all checks
      is accepted for the zero address, though its address has an intent. */
  lemma AcceptedForNobody(cfg: Config, sats: nat, baseAddress: string) returns (events: seq<Event>)
    requires Fits(cfg, sats)
    ensures var t := Run(cfg, Genesis(), events);
      && t.deposits == [RefusedRow(sats), NobodysRow(cfg, sats), IntentRow(0, baseAddress, 0)]
      && t.intents == map[0 := Intent(baseAddress, 2)] && Preceded(t, 0)
  {
    var s, t, u, w;
    events, s := ReachTheRace(cfg, sats);
    events, t := PastTheFirst(cfg, events, s, sats);
    events, u := JudgeTheSecond(cfg, events, s, sats, t);
    events, w := AcceptTheSecond(cfg, events, s, sats, u);
    events := ThenTheIntent(cfg, events, w, baseAddress);
  }

  lemma AcceptTheSecond(cfg: Config, before: seq<Event>, s: State, sats: nat, t: State)
    returns (events: seq<Event>, u: State)
    requires AtTheRace(s, sats) && Fits(cfg, sats) && t == Judged(s, sats) && Path(cfg, Genesis(), before, t)
    ensures Path(cfg, Genesis(), events, u) && u.deposits == [RefusedRow(sats), NobodysRow(cfg, sats)]
    ensures u.pendingIntents == {0} && u.intents == map[] && u.now == 0
  {
    SecondIsAccepted(cfg, s, sats, t);
    u := FairStep(cfg, t, RecordDeposit);
    RowIsAppended(cfg, t, u);
    Go(cfg, Genesis(), before, t, FairWatcher(RecordDeposit), u);
    events := before + [FairWatcher(RecordDeposit)];
  }

  lemma ThenTheIntent(cfg: Config, before: seq<Event>, t: State, baseAddress: string) returns (events: seq<Event>)
    requires Path(cfg, Genesis(), before, t) && t.pendingIntents == {0} && t.intents == map[] && t.now == 0
    requires |t.deposits| == 2 && t.deposits[0].fairAddress == Derived(0)
    ensures var u := Run(cfg, Genesis(), events);
      && u.deposits == t.deposits + [IntentRow(0, baseAddress, 0)]
      && u.intents == map[0 := Intent(baseAddress, 2)] && Preceded(u, 0)
  {
    var u := OutsideStep(t, CreateIntent(0, baseAddress));
    Go(cfg, Genesis(), before, t, Outside(CreateIntent(0, baseAddress)), u);
    events := before + [Outside(CreateIntent(0, baseAddress))];
    assert u.deposits[0].fairAddress == Derived(0);
  }

  /** The second row: accepted, for the payment of these sats, and no mint for it
      has succeeded. */
  predicate Unpaid(t: State, sats: nat) {
    && |t.deposits| > 1 && t.deposits[1].fairAddress == Derived(0) && t.deposits[1].amountSats == sats
    && IsAccepted(t.deposits[1]) && !t.deposits[1].status.Minted?
    && forall x :: 0 <= x < |t.mints| && t.mints[x].row == 1 ==> !t.mints[x].outcome.Success?
  }

  /** And never paid, whatever happens afterwards. */
  lemma NeverPaid(cfg: Config, sats: nat, baseAddress: string) returns (events: seq<Event>)
    requires Fits(cfg, sats)
    ensures var s := Run(cfg, Genesis(), events);
      && 0 in s.intents && s.intents[0].baseAddress == baseAddress
      && forall later: seq<Event> :: Unpaid(Run(cfg, s, later), sats)
  {
    events := AcceptedForNobody(cfg, sats, baseAddress);
    NotStartedIsConsistent(cfg, Genesis(), 0, 0);
    InvRun(cfg, Genesis(), events, 0, 0);
    forall later: seq<Event>
      ensures Unpaid(Run(cfg, Run(cfg, Genesis(), events), later), sats)
    {
      StaysUnpaid(cfg, Run(cfg, Genesis(), events), later, sats);
    }
  }

  lemma StaysUnpaid(cfg: Config, s: State, later: seq<Event>, sats: nat)
    requires Inv(cfg, s, 0, 0) && |s.deposits| > 1 && s.deposits[1] == NobodysRow(cfg, sats)
    ensures Unpaid(Run(cfg, s, later), sats)
  {
    ZeroAddressIsNeverPaid(cfg, s, later, 1, 0, 0);
    ColumnsStay(cfg, s, later, 0, 0);
    assert M.DepositKept(s.deposits[1], Run(cfg, s, later).deposits[1]);
  }
}
