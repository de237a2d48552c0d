/** Who is credited: a mint pays the Base address of the intent registered at the
    FairCoin address that was paid, unless a payment came in before the intent's
    row was there; that payment's row then lends its zero address to every later
    payment but the one that fills the intent's own slot. */
module Recipient {
  import opened Rows
  import opened Protocol
  import opened MintLedger
  import opened DepositScan

  /** A row stood at the address before the row of its intent. */
  predicate Preceded(s: State, k: nat)
    requires k in s.intents
  {
    exists j :: 0 <= j < s.intents[k].row && j < |s.deposits| && s.deposits[j].fairAddress == Derived(k)
  }

  /** The Base address a row is to pay. */
  function Credit(s: State, i: nat): string
    requires i < |s.deposits|
  {
    match s.deposits[i].fairAddress
    case Foreign(_) => ZERO_ADDRESS
    case Derived(k) =>
      if k in s.intents && (i == s.intents[k].row || !Preceded(s, k)) then s.intents[k].baseAddress else ZERO_ADDRESS
  }

  /** The row of an unsolicited payment. */
  predicate Refused(d: Deposit) {
    d.baseAddress == ZERO_ADDRESS && d.status.Failed? && d.mintTx.None?
  }

  predicate Owned(s: State, i: nat)
    requires i < |s.deposits|
  {
    s.deposits[i].baseAddress == Credit(s, i) || Refused(s.deposits[i])
  }

  predicate IntentOk(s: State, k: nat)
    requires k in s.intents
  {
    var n := s.intents[k];
    && k < s.nextIndex && k !in s.pendingIntents
    && n.row < |s.deposits| && s.deposits[n.row].fairAddress == Derived(k)
    && s.deposits[n.row].baseAddress == n.baseAddress
  }

  predicate RecipientInv(s: State) {
    && (forall k :: k in s.pendingIntents ==> k < s.nextIndex)
    && (forall k :: k in s.intents ==> IntentOk(s, k))
    && (forall i :: 0 <= i < |s.deposits| ==> Owned(s, i))
    && (forall a :: a in s.addressCache ==> a.Derived?)
  }

  /** Rows that were there keep their credit while no intent comes or goes. */
  lemma CreditStays(s: State, s': State, i: nat)
    requires OwnersStay(s.deposits, s'.deposits) && s'.intents == s.intents && i < |s.deposits|
    requires forall k :: k in s.intents ==> IntentOk(s, k)
    ensures Credit(s', i) == Credit(s, i)
  {
    assert SameOwner(s.deposits[i], s'.deposits[i]);
    if s.deposits[i].fairAddress.Derived? && s.deposits[i].fairAddress.index in s.intents {
      PrecededStays(s, s', s.deposits[i].fairAddress.index);
    }
  }

  lemma PrecededStays(s: State, s': State, k: nat)
    requires OwnersStay(s.deposits, s'.deposits) && k in s.intents && IntentOk(s, k)
    requires k in s'.intents && s'.intents[k] == s.intents[k]
    ensures Preceded(s', k) <==> Preceded(s, k)
  {
    forall j | 0 <= j < s.intents[k].row
      ensures s'.deposits[j].fairAddress == s.deposits[j].fairAddress
    {
      assert SameOwner(s.deposits[j], s'.deposits[j]);
    }
  }

  lemma IntentsStay(s: State, s': State)
    requires OwnersStay(s.deposits, s'.deposits) && s'.intents == s.intents && s.nextIndex <= s'.nextIndex
    requires forall k :: k in s'.pendingIntents ==> k in s.pendingIntents || k >= s.nextIndex
    requires forall k :: k in s.intents ==> IntentOk(s, k)
    ensures forall k :: k in s'.intents ==> IntentOk(s', k)
  {
    forall k | k in s'.intents
      ensures IntentOk(s', k)
    {
      assert IntentOk(s, k);
      assert SameOwner(s.deposits[s.intents[k].row], s'.deposits[s.intents[k].row]);
    }
  }

  /** Refused rows stayed refused, and no row changed hands. */
  lemma RowsStayOwned(s: State, s': State)
    requires RecipientInv(s) && OwnersStay(s.deposits, s'.deposits) && s'.intents == s.intents
    requires forall i :: 0 <= i < |s.deposits| && Refused(s.deposits[i]) ==> Refused(s'.deposits[i])
    ensures forall i :: 0 <= i < |s.deposits| ==> Owned(s', i)
  {
    forall i | 0 <= i < |s.deposits|
      ensures Owned(s', i)
    {
      assert Owned(s, i) && SameOwner(s.deposits[i], s'.deposits[i]);
      CreditStays(s, s', i);
    }
  }

  /** Nothing but statuses and hashes moved. */
  lemma QuietKeepsRecipients(s: State, s': State)
    requires RecipientInv(s) && OwnersStay(s.deposits, s'.deposits) && |s'.deposits| == |s.deposits|
    requires forall i :: 0 <= i < |s.deposits| && Refused(s.deposits[i]) ==> Refused(s'.deposits[i])
    requires s'.intents == s.intents && s.nextIndex <= s'.nextIndex
    requires forall k :: k in s'.pendingIntents ==> k < s'.nextIndex && (k in s.pendingIntents || k >= s.nextIndex)
    requires forall a :: a in s'.addressCache ==> a.Derived?
    ensures RecipientInv(s')
  {
    IntentsStay(s, s');
    RowsStayOwned(s, s');
  }

  // ---- the deposit scanner ---------------------------------------------------

  /** A row that inherits from the earliest row at its address gets what that
      row would be credited to. */
  lemma InheritedIsOwned(s: State, s': State, o: nat, row: Deposit)
    requires RecipientInv(s) && s'.intents == s.intents && s'.deposits == s.deposits + [row]
    requires row.fairAddress.Derived? && IsEarliest(s.deposits, row.fairAddress, o)
    requires row.baseAddress == s.deposits[o].baseAddress
    ensures Owned(s', |s.deposits|)
  {
    var k := row.fairAddress.index;
    assert Owned(s, o);
    assert OwnersStay(s.deposits, s'.deposits);
    if k in s.intents {
      assert IntentOk(s, k);
      PrecededStays(s, s', k);
      if !Preceded(s, k) {
        assert o <= s.intents[k].row;
        assert o >= s.intents[k].row;
      } else {
        assert o < s.intents[k].row;
      }
    }
  }

  lemma WriteKeepsRefused(s: State, s': State, at: nat, row: Deposit)
    requires Wrote(s, s', at, row)
    ensures forall i :: 0 <= i < |s.deposits| && Refused(s.deposits[i]) ==> Refused(s'.deposits[i])
  {
  }

  lemma RecordKeepsRecipients(cfg: Config, s: State, s': State)
    requires RecipientInv(s) && CanRecord(cfg, s) && s' == FairStep(cfg, s, RecordDeposit)
    requires s'.intents == s.intents && s'.nextIndex == s.nextIndex
    requires s'.pendingIntents == s.pendingIntents && s'.addressCache == s.addressCache
    ensures RecipientInv(s')
  {
    RecordWrites(cfg, s, s');
    RecordKeepsOwners(cfg, s, s');
    WriteKeepsRefused(s, s', RowAt(s), DepositRow(cfg, s));
    IntentsStay(s, s');
    RowsStayOwned(s, s');
    if RowAt(s) == |s.deposits| { AppendedIsOwned(cfg, s, s', DepositRow(cfg, s)); }
  }

  lemma AppendedIsOwned(cfg: Config, s: State, s': State, row: Deposit)
    requires RecipientInv(s) && CanRecord(cfg, s) && RowAt(s) == |s.deposits|
    requires row == DepositRow(cfg, s) && s'.deposits == s.deposits + [row] && s'.intents == s.intents
    ensures Owned(s', |s.deposits|)
  {
    if s.fair.origin.Row? {
      assert row.fairAddress in s.addressCache;
      InheritedIsOwned(s, s', s.fair.origin.id, row);
    } else {
      assert Refused(row);
    }
  }

  lemma FairKeepsRecipients(cfg: Config, s: State, s': State, e: FairEvent)
    requires RecipientInv(s) && DepositRowsInv(cfg, s) && s' == FairStep(cfg, s, e)
    ensures RecipientInv(s')
  {
    if e.RecordDeposit? && CanRecord(cfg, s) {
      RecordKeepsRecipients(cfg, s, s');
    } else if e.Reload? {
      ReloadKeepsDerived(cfg, s, s');
      QuietKeepsRecipients(s, s');
    } else {
      QuietKeepsRecipients(s, s');
    }
  }

  lemma ReloadKeepsDerived(cfg: Config, s: State, s': State)
    requires RecipientInv(s) && DepositRowsInv(cfg, s) && s' == FairStep(cfg, s, Reload)
    ensures s'.pendingIntents == {} && s'.deposits == s.deposits
    ensures forall a :: a in s'.addressCache ==> a.Derived?
  {
  }

  // ---- the intent endpoint ---------------------------------------------------

  /** A new intent takes nothing from the rows already at its address. */
  lemma OldRowsStayOwned(s: State, s': State, k: nat, baseAddress: string, i: nat)
    requires RecipientInv(s) && s.deposits <= s'.deposits && i < |s.deposits| && k !in s.intents
    requires s'.intents == s.intents[k := Intent(baseAddress, |s.deposits|)]
    ensures Owned(s', i)
  {
    assert Owned(s, i) && s'.deposits[i] == s.deposits[i];
    assert OwnersStay(s.deposits, s'.deposits);
    if s.deposits[i].fairAddress.Derived? {
      var j := s.deposits[i].fairAddress.index;
      if j == k {
        assert s'.deposits[i].fairAddress == Derived(k);
        assert Preceded(s', k);
      } else if j in s.intents {
        PrecededStays(s, s', j);
      }
    }
  }

  lemma IntentKeepsRecipients(s: State, s': State, k: nat, baseAddress: string)
    requires RecipientInv(s) && k in s.pendingIntents && s' == OutsideStep(s, CreateIntent(k, baseAddress))
    ensures RecipientInv(s')
  {
    assert k !in s.intents;
    forall i | 0 <= i < |s.deposits|
      ensures Owned(s', i)
    {
      OldRowsStayOwned(s, s', k, baseAddress, i);
    }
    assert s'.deposits[|s.deposits|] == IntentRow(k, baseAddress, s.now);
    forall j | j in s'.intents
      ensures IntentOk(s', j)
    {
      assert j != k ==> IntentOk(s, j);
    }
  }

  lemma OutsideKeepsRecipients(s: State, s': State, e: OutsideEvent)
    requires RecipientInv(s) && s' == OutsideStep(s, e)
    ensures RecipientInv(s')
  {
    if e.CreateIntent? {
      if e.index in s.pendingIntents { IntentKeepsRecipients(s, s', e.index, e.baseAddress); }
    } else {
      EndpointKeepsRows(s, s', e);
      QuietKeepsRecipients(s, s');
    }
  }

  lemma EndpointKeepsRows(s: State, s': State, e: OutsideEvent)
    requires RecipientInv(s) && s' == OutsideStep(s, e) && !e.CreateIntent?
    ensures forall k :: k in s'.pendingIntents ==> k < s'.nextIndex && (k in s.pendingIntents || k >= s.nextIndex)
    ensures forall a :: a in s'.addressCache ==> a.Derived?
  {
  }

  lemma MintKeepsRecipients(s: State, s': State, e: MintEvent)
    requires RecipientInv(s) && MintInv(s) && s' == MintStep(s, e)
    ensures RecipientInv(s')
  {
    MintWorkerKeepsDeposits(s, e);
    forall i | 0 <= i < |s.deposits| && Refused(s.deposits[i])
      ensures Refused(s'.deposits[i])
    {
      assert DepositKept(s.deposits[i], s'.deposits[i]);
    }
    assert SameScan(s, s');
    QuietKeepsRecipients(s, s');
  }

  lemma RecipientInvStep(cfg: Config, s: State, e: Event)
    requires RecipientInv(s) && MintInv(s) && DepositRowsInv(cfg, s)
    ensures RecipientInv(Step(cfg, s, e))
  {
    var s' := Step(cfg, s, e);
    match e
    case Outside(o) => OutsideKeepsRecipients(s, s', o);
    case FairWatcher(f) => FairKeepsRecipients(cfg, s, s', f);
    case MintWorker(m) => MintKeepsRecipients(s, s', m);
    case BaseWatcher(b) => QuietKeepsRecipients(s, s');
    case ReleaseWorker(r) => QuietKeepsRecipients(s, s');
  }

  lemma MintPaysCredit(cfg: Config, s: State, x: nat)
    requires RecipientInv(s) && MintInv(s) && x < |s.mints|
    ensures s.mints[x].row < |s.deposits| && s.mints[x].to == Credit(s, s.mints[x].row)
  {
    assert MintOk(s.deposits, s.mints[x], x, s.heldMint);
    assert Owned(s, s.mints[x].row);
  }

  /** Every mint is for a payment to an allocated address, and it pays that
      address's intent exactly when it fills the intent's own slot or no payment
      came in before the intent. */
  lemma MintPaysTheIntentIff(cfg: Config, s: State, x: nat)
    requires RecipientInv(s) && MintInv(s) && DepositRowsInv(cfg, s) && x < |s.mints|
    ensures s.mints[x].row < |s.deposits| && s.deposits[s.mints[x].row].fairAddress.Derived?
    ensures var row := s.mints[x].row; var k := s.deposits[row].fairAddress.index;
      k in s.intents && s.intents[k].baseAddress != ZERO_ADDRESS ==>
        (s.mints[x].to == s.intents[k].baseAddress <==> row == s.intents[k].row || !Preceded(s, k))
    ensures var k := s.deposits[s.mints[x].row].fairAddress.index;
      k !in s.intents ==> s.mints[x].to == ZERO_ADDRESS
  {
    MintPaysCredit(cfg, s, x);
    assert s.deposits[s.mints[x].row].fairAddress in s.addressCache;
  }

  // ---- the zero address ------------------------------------------------------

  /** No mint to the zero address has succeeded. */
  predicate MintsTaken(mints: seq<MintTx>) {
    forall x :: 0 <= x < |mints| && mints[x].outcome.Success? ==> Takes(mints[x].to)
  }

  lemma MintsTakenStep(cfg: Config, s: State, e: Event)
    requires MintsTaken(s.mints)
    ensures MintsTaken(Step(cfg, s, e).mints)
  {
    match e
    case Outside(o) => ExecutedAreTaken(s, OutsideStep(s, o), o);
    case MintWorker(m) => BroadcastsArePending(s, MintStep(s, m), m);
    case FairWatcher(f) => assert FairStep(cfg, s, f).mints == s.mints;
    case BaseWatcher(b) => assert SameDepositSide(s, BaseStep(cfg, s, b));
    case ReleaseWorker(r) => assert SameDepositSide(s, ReleaseStep(s, r));
  }

  lemma ExecutedAreTaken(s: State, s': State, e: OutsideEvent)
    requires MintsTaken(s.mints) && s' == OutsideStep(s, e)
    ensures MintsTaken(s'.mints)
  {
    if !e.ExecuteMint? { OutsideOnlyMines(s, e, s'); }
    forall x | 0 <= x < |s'.mints| && s'.mints[x].outcome.Success? && !e.ExecuteMint?
      ensures Takes(s'.mints[x].to)
    {
      assert SameMint(s.mints[x], s'.mints[x]);
    }
  }

  lemma BroadcastsArePending(s: State, s': State, e: MintEvent)
    requires MintsTaken(s.mints) && s' == MintStep(s, e)
    ensures MintsTaken(s'.mints)
  {
  }

  /** The payment was accepted: its mint is to come, was executed, or reverted. */
  predicate IsAccepted(d: Deposit) {
    d.status.Confirmed? || d.status.Minting? || d.status.Minted? || (d.status.Failed? && d.mintTx.Some?)
  }

  lemma AcceptedStays(cfg: Config, s: State, e: Event, r: nat)
    requires MintInv(s) && r < |s.deposits| && IsAccepted(s.deposits[r])
    ensures var s' := Step(cfg, s, e);
      r < |s'.deposits| && IsAccepted(s'.deposits[r]) && s'.deposits[r].baseAddress == s.deposits[r].baseAddress
  {
    MintColumnsWriteOnce(cfg, s, e);
    assert DepositKept(s.deposits[r], Step(cfg, s, e).deposits[r]);
    match e
    case MintWorker(m) => SettlingKeepsAccepted(s, MintStep(s, m), m, r);
    case FairWatcher(f) => WritingKeepsAccepted(cfg, s, FairStep(cfg, s, f), f, r);
    case _ => assert s.deposits <= Step(cfg, s, e).deposits;
  }

  lemma SettlingKeepsAccepted(s: State, s': State, e: MintEvent, r: nat)
    requires s' == MintStep(s, e) && r < |s.deposits| && IsAccepted(s.deposits[r])
    ensures IsAccepted(s'.deposits[r])
  {
  }

  lemma WritingKeepsAccepted(cfg: Config, s: State, s': State, e: FairEvent, r: nat)
    requires s' == FairStep(cfg, s, e) && r < |s.deposits| && IsAccepted(s.deposits[r])
    ensures r < |s'.deposits| && s'.deposits[r] == s.deposits[r]
  {
    if e.RecordDeposit? && CanRecord(cfg, s) { RecordWrites(cfg, s, s'); }
  }

  /** The token takes no mint to the zero address, so no such row is MINTED. */
  lemma ZeroIsNeverPaid(s: State, r: nat)
    requires MintInv(s) && MintsTaken(s.mints) && r < |s.deposits| && s.deposits[r].baseAddress == ZERO_ADDRESS
    ensures !s.deposits[r].status.Minted?
    ensures forall x :: 0 <= x < |s.mints| && s.mints[x].row == r ==> !s.mints[x].outcome.Success?
  {
    assert DepositOk(s.deposits[r], s.mints, r);
    forall x | 0 <= x < |s.mints| && s.mints[x].row == r
      ensures !s.mints[x].outcome.Success?
    {
      assert MintOk(s.deposits, s.mints[x], x, s.heldMint);
    }
  }
}
