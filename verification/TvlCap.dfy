/** The TVL cap. The scanner reads the supply and the in-flight total with two
    concurrent calls, so the mint worker may settle a mint between them. */
module TvlCap {
  import opened Wrappers
  import opened Rows
  import opened Sums
  import opened Protocol
  import opened MintLedger
  import opened Exposure

  /** What the scanner's readings still say about the state, as long as no mint
      settled between a supply reading and the in-flight reading after it. */
  predicate ReadsOk(s: State) {
    && (s.fair.supply.None? && s.fair.inFlight.Some? ==> Owed(s) <= s.fair.inFlight.value)
    && (s.fair.supply.Some? && s.fair.inFlight.None? && !s.stale ==>
      MintSide(s) <= s.fair.supply.value + PossibleWei(s))
    && (s.fair.supply.Some? && s.fair.inFlight.Some? && !s.stale ==>
          MintSide(s) <= s.fair.supply.value + s.fair.inFlight.value)
  }

  predicate TvlInv(s: State, bound: nat) {
    ReadsOk(s) && (!s.hazard ==> MintSide(s) <= bound)
  }

  /** `sumInFlightWei` covers every mint that may still execute. */
  lemma InFlightCovers(s: State)
    ensures Owed(s) <= PossibleWei(s) <= InFlightWei(s.deposits)
  {
    SumLe(UnexecutedWeights(s), PossibleWeights(s));
    SumLe(PossibleWeights(s), InFlightWeights(s.deposits));
    SumLe(LostPendingWeights(s.mints), LostWeights(s.mints));
  }

  lemma SupplyIsRead(cfg: Config, s: State, s': State)
    requires s' == FairStep(cfg, s, ReadSupply)
    ensures s'.hazard == s.hazard && s'.stale == s.stale && s'.fair.inFlight == s.fair.inFlight
    ensures s'.fair.supply == if s.fair.supply.None? then Some(s.supply) else s.fair.supply
  {
  }

  lemma InFlightIsRead(cfg: Config, s: State, s': State)
    requires s' == FairStep(cfg, s, ReadInFlight)
    ensures s'.hazard == s.hazard && s'.stale == s.stale && s'.fair.supply == s.fair.supply
    ensures s'.fair.inFlight == if s.fair.inFlight.None? then Some(InFlightWei(s.deposits)) else s.fair.inFlight
  {
  }

  /** Both readings stay, or both are forgotten. */
  lemma ReadingsStay(cfg: Config, s: State, s': State, e: FairEvent)
    requires s' == FairStep(cfg, s, e) && !(e.RecordDeposit? && CanRecord(cfg, s)) && !e.ReadSupply? && !e.ReadInFlight?
    ensures s'.hazard == s.hazard
    ensures || (s'.fair.supply == s.fair.supply && s'.fair.inFlight == s.fair.inFlight && s'.stale == s.stale)
            || (s'.fair.supply.None? && s'.fair.inFlight.None?)
  {
  }

  lemma ReadingKeepsTvlInv(cfg: Config, s: State, s': State, e: FairEvent, bound: nat)
    requires MintInv(s) && TvlInv(s, bound) && s' == FairStep(cfg, s, e) && !(e.RecordDeposit? && CanRecord(cfg, s))
    requires SameMints(s, s') && s'.supply == s.supply
    ensures TvlInv(s', bound)
  {
    SameSums(s, s');
    InFlightCovers(s);
    if e.ReadSupply? {
      SupplyIsRead(cfg, s, s');
    } else if e.ReadInFlight? {
      InFlightIsRead(cfg, s, s');
    } else {
      ReadingsStay(cfg, s, s', e);
    }
  }

  lemma RecordKeepsTvlInv(cfg: Config, s: State, s': State, e: FairEvent, bound: nat)
    requires MintInv(s) && TvlInv(s, bound) && cfg.maxTvlWei <= bound
    requires s' == FairStep(cfg, s, e) && e.RecordDeposit? && CanRecord(cfg, s)
    ensures TvlInv(s', bound)
  {
    FairMoves(cfg, s, s', e);
  }

  lemma OtherKeepsTvlInv(s: State, s': State, settles: bool, bound: nat)
    requires TvlInv(s, bound) && Moves(s, s', 0, settles)
    requires s'.fair.supply == s.fair.supply && s'.fair.inFlight == s.fair.inFlight && s'.hazard == s.hazard
    requires s'.stale <==> s.stale || (settles && s.fair.supply.Some? && s.fair.inFlight.None?)
    ensures TvlInv(s', bound)
  {
  }

  /** Only a settlement can make a supply reading stale. */
  lemma SettlingMarksStale(s: State, s': State, e: MintEvent)
    requires MintInv(s) && s' == MintStep(s, e) && e.SettleMint?
    ensures var settles := s' != s && Settles(s, MintWorker(e));
      s'.stale <==> s.stale || (settles && s.fair.supply.Some? && s.fair.inFlight.None?)
  {
    if e.id < |s.deposits| { assert DepositOk(s.deposits[e.id], s.mints, e.id); }
  }

  lemma MintWorkerKeepsHazard(s: State, s': State, e: MintEvent)
    requires s' == MintStep(s, e)
    ensures s'.hazard == s.hazard && (!e.SettleMint? ==> s'.stale == s.stale)
  {
  }

  lemma MintWorkerMarksStale(s: State, s': State, e: MintEvent)
    requires MintInv(s) && s' == MintStep(s, e) && s'.fair == s.fair
    ensures var settles := s' != s && Settles(s, MintWorker(e));
      && s'.hazard == s.hazard
      && (s'.stale <==> s.stale || (settles && s.fair.supply.Some? && s.fair.inFlight.None?))
      && Moves(s, s', 0, settles)
  {
    MintWorkerMoves(s, e);
    MintWorkerKeepsHazard(s, s', e);
    if e.SettleMint? { SettlingMarksStale(s, s', e); }
  }

  lemma FairKeepsTvlInv(cfg: Config, s: State, s': State, e: FairEvent, bound: nat)
    requires MintInv(s) && TvlInv(s, bound) && cfg.maxTvlWei <= bound && s' == FairStep(cfg, s, e)
    ensures TvlInv(s', bound)
  {
    if e.RecordDeposit? && CanRecord(cfg, s) {
      RecordKeepsTvlInv(cfg, s, s', e, bound);
    } else {
      ReadingKeepsTvlInv(cfg, s, s', e, bound);
    }
  }

  /** The withdrawal side reads and writes none of it. */
  lemma ElsewhereKeepsTvlInv(s: State, s': State, bound: nat)
    requires TvlInv(s, bound) && SameDepositSide(s, s')
    ensures TvlInv(s', bound)
  {
    SameSums(s, s');
    OtherKeepsTvlInv(s, s', false, bound);
  }

  /** Outside one kind of interleaving, supply and owed mints never pass the cap
      (or the amount the run started with) by more than the lost broadcasts. */
  lemma TvlInvStep(cfg: Config, s: State, e: Event, bound: nat)
    requires MintInv(s) && TvlInv(s, bound) && cfg.maxTvlWei <= bound
    ensures TvlInv(Step(cfg, s, e), bound)
  {
    match e
    case Outside(o) =>
      OutsideMoves(cfg, s, o);
      OtherKeepsTvlInv(s, OutsideStep(s, o), false, bound);
    case FairWatcher(f) => FairKeepsTvlInv(cfg, s, FairStep(cfg, s, f), f, bound);
    case MintWorker(m) =>
      MintWorkerMarksStale(s, MintStep(s, m), m);
      OtherKeepsTvlInv(s, MintStep(s, m), MintStep(s, m) != s && Settles(s, e), bound);
    case BaseWatcher(b) => ElsewhereKeepsTvlInv(s, BaseStep(cfg, s, b), bound);
    case ReleaseWorker(r) => ElsewhereKeepsTvlInv(s, ReleaseStep(s, r), bound);
  }

  // ---- the order of the readings -------------------------------------------------

  /** In this run the readings are taken with the in-flight total first. */
  predicate ReadsInFlightFirst(cfg: Config, s: State, events: seq<Event>) {
    forall k :: 0 <= k < |events| && events[k] == FairWatcher(ReadSupply) ==>
      Run(cfg, s, events[..k]).fair.inFlight.Some?
  }

  /** In this run the readings are taken with the supply first. */
  predicate ReadsSupplyFirst(cfg: Config, s: State, events: seq<Event>) {
    forall k :: 0 <= k < |events| && events[k] == FairWatcher(ReadInFlight) ==>
      Run(cfg, s, events[..k]).fair.supply.Some?
  }

  predicate FlightFirstInv(s: State) {
    (s.fair.supply.Some? ==> s.fair.inFlight.Some?) && !s.stale && !s.hazard
  }

  lemma FlightFirstReads(cfg: Config, s: State, s': State, e: FairEvent)
    requires FlightFirstInv(s) && s' == FairStep(cfg, s, e) && (e.ReadSupply? ==> s.fair.inFlight.Some?)
    ensures FlightFirstInv(s')
  {
    if e.RecordDeposit? && CanRecord(cfg, s) {
      assert s'.fair == Standing(s.fair.scan) && !s'.hazard;
    } else {
      if e.ReadSupply? {
        SupplyIsRead(cfg, s, s');
      } else if e.ReadInFlight? {
        InFlightIsRead(cfg, s, s');
      } else {
        ReadingsStay(cfg, s, s', e);
      }
      ReadingsAreFresh(cfg, s, s', e);
    }
  }

  lemma ReadingsAreFresh(cfg: Config, s: State, s': State, e: FairEvent)
    requires !s.stale && s' == FairStep(cfg, s, e)
    ensures !s'.stale
  {
  }

  lemma FlightFirstSettles(s: State, s': State, e: MintEvent)
    requires FlightFirstInv(s) && s' == MintStep(s, e) && s'.fair == s.fair
    ensures FlightFirstInv(s')
  {
  }

  lemma FlightFirstStep(cfg: Config, s: State, e: Event)
    requires FlightFirstInv(s)
    requires e == FairWatcher(ReadSupply) ==> s.fair.inFlight.Some?
    ensures FlightFirstInv(Step(cfg, s, e))
  {
    match e
    case Outside(o) =>
    case FairWatcher(f) => FlightFirstReads(cfg, s, FairStep(cfg, s, f), f);
    case MintWorker(m) => FlightFirstSettles(s, MintStep(s, m), m);
    case BaseWatcher(b) => assert SameDepositSide(s, BaseStep(cfg, s, b));
    case ReleaseWorker(r) => assert SameDepositSide(s, ReleaseStep(s, r));
  }

  /** Reading the in-flight total before the supply rules the hazard out. */
  lemma {:induction false} FlightFirstIsSafe(cfg: Config, s: State, events: seq<Event>)
    requires FlightFirstInv(s) && ReadsInFlightFirst(cfg, s, events)
    ensures FlightFirstInv(Run(cfg, s, events))
  {
    if events != [] {
      var n := |events| - 1;
      forall k | 0 <= k < n && events[..n][k] == FairWatcher(ReadSupply)
        ensures Run(cfg, s, events[..n][..k]).fair.inFlight.Some?
      {
        assert events[..n][..k] == events[..k];
      }
      FlightFirstIsSafe(cfg, s, events[..n]);
      FlightFirstStep(cfg, Run(cfg, s, events[..n]), events[n]);
    }
  }
}
