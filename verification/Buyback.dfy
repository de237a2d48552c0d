/** The buyback worker: one swap and three burns, resumed by the next tick from
    wherever the last one failed. Ticks do not overlap. */
module Buyback {
  import opened Wrappers
  import opened Money
  import opened BuybackSplit

  datatype Status = Pending | Swapping | Burning | TreasurySending | MasternodeSending | Complete | Failed

  /** The columns of a cycle. The four hashes (swap, burn, treasury, masternode)
      and the three amounts (burn, treasury, masternode) are in the order of the
      pipeline; a hash is the index of its transaction on the chain. */
  datatype Cycle = Cycle(
    status: Status,
    usdc: nat,
    hashes: seq<Option<nat>>,
    acquired: Option<nat>,
    amounts: seq<Option<nat>>)
  {
    predicate Open() { !status.Complete? && !status.Failed? }
  }

  /** A broadcast of step `step` of a cycle, and how its receipt will turn out. */
  datatype Tx = Tx(cycle: nat, step: nat, amount: nat, success: bool)

  datatype SplitConfig = SplitConfig(burnBps: nat, treasuryBps: nat, masternodeBps: nat, threshold: nat)
  {
    predicate Ok() { burnBps + treasuryBps + masternodeBps == BPS_DENOM }
  }

  /** The status of a cycle whose step `k` is being carried out. */
  function StatusOf(k: nat): Status
    requires k < 4
  {
    if k == 0 then Swapping else if k == 1 then Burning else if k == 2 then TreasurySending else MasternodeSending
  }

  /** The share that step `k` burns, of an acquired total. */
  function ShareOf(cfg: SplitConfig, acquired: nat, k: nat): nat
    requires cfg.Ok() && 1 <= k < 4
  {
    BurnExcess(acquired, cfg.burnBps, cfg.treasuryBps, cfg.masternodeBps);
    var shares := SplitByBps(acquired, cfg.treasuryBps, cfg.masternodeBps).value;
    if k == 1 then shares.burn else if k == 2 then shares.treasury else shares.masternode
  }

  /** The amount is a floored share of the total. */
  predicate IsFloorOf(amount: nat, total: nat, bps: nat) {
    amount * BPS_DENOM <= total * bps < (amount + 1) * BPS_DENOM
  }

  /** The three amounts, in the order of the pipeline: what the two others leave of
      the total is burned, the treasury and the masternodes get their floored shares. */
  predicate SplitInOrder(cfg: SplitConfig, total: nat, burn: nat, treasury: nat, masternode: nat) {
    && IsFloorOf(treasury, total, cfg.treasuryBps) && IsFloorOf(masternode, total, cfg.masternodeBps)
    && burn + treasury + masternode == total
  }

  lemma SharesInOrder(cfg: SplitConfig, acquired: nat)
    requires cfg.Ok()
    ensures SplitInOrder(cfg, acquired, ShareOf(cfg, acquired, 1), ShareOf(cfg, acquired, 2), ShareOf(cfg, acquired, 3))
  {
    BurnExcess(acquired, cfg.burnBps, cfg.treasuryBps, cfg.masternodeBps);
  }

  /** The share of step `k` of a total, by its bounds. */
  ghost predicate IsShare(cfg: SplitConfig, total: nat, k: nat, amount: nat) {
    && (k == 1 ==> exists treasury: nat, masternode: nat :: SplitInOrder(cfg, total, amount, treasury, masternode))
    && (k == 2 ==> IsFloorOf(amount, total, cfg.treasuryBps))
    && (k == 3 ==> IsFloorOf(amount, total, cfg.masternodeBps))
  }

  lemma ShareIsShare(cfg: SplitConfig, acquired: nat, k: nat)
    requires cfg.Ok() && 1 <= k < 4
    ensures IsShare(cfg, acquired, k, ShareOf(cfg, acquired, k))
  {
    SharesInOrder(cfg, acquired);
  }

  // ---- what a row says -----------------------------------------------------

  /** The hash of step `k` is on file, and is a broadcast of that step. */
  predicate OnFile(c: Cycle, i: nat, txs: seq<Tx>, k: nat) {
    && k < |c.hashes| && c.hashes[k].Some?
    && c.hashes[k].value < |txs| && txs[c.hashes[k].value].cycle == i && txs[c.hashes[k].value].step == k
  }

  predicate Succeeded(c: Cycle, i: nat, txs: seq<Tx>, k: nat) {
    OnFile(c, i, txs, k) && txs[c.hashes[k].value].success
  }

  predicate Reverted(c: Cycle, i: nat, txs: seq<Tx>, k: nat) {
    OnFile(c, i, txs, k) && !txs[c.hashes[k].value].success
  }

  /** The amount of burn `k` is on file: the step's share of the stored total,
      and what its transaction burned. */
  predicate AmountOk(cfg: SplitConfig, c: Cycle, txs: seq<Tx>, k: nat) {
    && cfg.Ok() && 1 <= k < 4 && |c.hashes| == 4 && |c.amounts| == 3
    && c.acquired.Some?
    && c.amounts[k - 1] == Some(ShareOf(cfg, c.acquired.value, k))
    && (c.hashes[k].Some? ==>
          c.hashes[k].value < |txs| && txs[c.hashes[k].value].amount == ShareOf(cfg, c.acquired.value, k))
  }

  /** Steps before `k` have succeeded, steps after `k` have not begun. */
  predicate AtStep(cfg: SplitConfig, c: Cycle, i: nat, txs: seq<Tx>, k: nat) {
    && k < 4 && |c.hashes| == 4 && |c.amounts| == 3
    && (forall j :: 0 <= j < k ==> Succeeded(c, i, txs, j))
    && (c.hashes[k].Some? ==> OnFile(c, i, txs, k))
    && (forall j :: k < j < 4 ==> c.hashes[j].None?)
    && (forall j :: 1 <= j <= k ==> AmountOk(cfg, c, txs, j))
    && (forall j :: k <= j < 3 ==> c.amounts[j].None?)
    && (c.acquired.Some? ==> Succeeded(c, i, txs, 0))
    && SwapsItAll(c, txs)
  }

  /** The swap on file is of all the USDC of the cycle. */
  predicate SwapsItAll(c: Cycle, txs: seq<Tx>)
    requires |c.hashes| == 4
  {
    c.hashes[0].Some? ==> c.hashes[0].value < |txs| && txs[c.hashes[0].value].amount == c.usdc
  }

  /** What the status of a row implies: where in the pipeline it stands. */
  predicate CycleOk(cfg: SplitConfig, c: Cycle, i: nat, txs: seq<Tx>) {
    match c.status
    case Pending => AtStep(cfg, c, i, txs, 0) && c.hashes[0].None?
    case Swapping => AtStep(cfg, c, i, txs, 0)
    case Burning => AtStep(cfg, c, i, txs, 1)
    case TreasurySending => AtStep(cfg, c, i, txs, 2)
    case MasternodeSending => AtStep(cfg, c, i, txs, 3)
    case Complete => AtStep(cfg, c, i, txs, 3) && Succeeded(c, i, txs, 3)
    case Failed => exists k :: 0 <= k < 4 && AtStep(cfg, c, i, txs, k) && FailedAt(c, i, txs, k)
  }

  /** The step reverted, or the swap succeeded and brought nothing. */
  predicate FailedAt(c: Cycle, i: nat, txs: seq<Tx>, k: nat) {
    Reverted(c, i, txs, k) || (k == 0 && Succeeded(c, i, txs, 0) && c.acquired.None?)
  }

  lemma LongerChainKeepsStep(cfg: SplitConfig, c: Cycle, i: nat, txs: seq<Tx>, txs': seq<Tx>, k: nat)
    requires AtStep(cfg, c, i, txs, k) && txs <= txs'
    ensures AtStep(cfg, c, i, txs', k)
    ensures FailedAt(c, i, txs, k) ==> FailedAt(c, i, txs', k)
  {
    forall j | 0 <= j < k ensures Succeeded(c, i, txs', j) { assert Succeeded(c, i, txs, j); }
    forall j | 1 <= j <= k ensures AmountOk(cfg, c, txs', j) { assert AmountOk(cfg, c, txs, j); }
  }

  /** The step a row stands at. */
  lemma WhereItStands(cfg: SplitConfig, c: Cycle, i: nat, txs: seq<Tx>) returns (k: nat)
    requires CycleOk(cfg, c, i, txs)
    ensures AtStep(cfg, c, i, txs, k)
    ensures c.Open() && !c.status.Pending? ==> c.status == StatusOf(k)
    ensures c.status.Failed? ==> FailedAt(c, i, txs, k)
    ensures c.status.Complete? ==> k == 3
    ensures c.status.Pending? ==> k == 0
  {
    match c.status
    case Pending => k := 0;
    case Swapping => k := 0;
    case Burning => k := 1;
    case TreasurySending => k := 2;
    case MasternodeSending => k := 3;
    case Complete => k := 3;
    case Failed => k :| 0 <= k < 4 && AtStep(cfg, c, i, txs, k) && FailedAt(c, i, txs, k);
  }

  lemma LongerChainKeepsCycle(cfg: SplitConfig, c: Cycle, i: nat, txs: seq<Tx>, txs': seq<Tx>)
    requires CycleOk(cfg, c, i, txs) && txs <= txs'
    ensures CycleOk(cfg, c, i, txs')
  {
    var k := WhereItStands(cfg, c, i, txs);
    LongerChainKeepsStep(cfg, c, i, txs, txs', k);
  }

  // ---- consequences of a row's state ---------------------------------------

  /** A later step has a hash only if every earlier step succeeded and the total
      is on file. */
  lemma HashesInOrder(cfg: SplitConfig, c: Cycle, i: nat, txs: seq<Tx>, j: nat, k: nat)
    requires CycleOk(cfg, c, i, txs) && j < k < 4 && |c.hashes| == 4 && c.hashes[k].Some?
    ensures Succeeded(c, i, txs, j) && c.acquired.Some?
  {
    var at := WhereItStands(cfg, c, i, txs);
    assert AmountOk(cfg, c, txs, k);
  }

  /** The step succeeded, and its transaction took this amount. */
  predicate Took(c: Cycle, i: nat, txs: seq<Tx>, k: nat, amount: nat) {
    Succeeded(c, i, txs, k) && txs[c.hashes[k].value].amount == amount
  }

  /** COMPLETE means four successful receipts, and three stored amounts, each
      what its transaction burned: the floored shares of the treasury and of the
      masternodes, and what they leave of the stored total, to the wei. */
  lemma CompleteIsPaid(cfg: SplitConfig, c: Cycle, i: nat, txs: seq<Tx>)
    requires CycleOk(cfg, c, i, txs) && c.status.Complete?
    ensures Took(c, i, txs, 0, c.usdc) && c.acquired.Some?
    ensures exists burn: nat, treasury: nat, masternode: nat ::
      && SplitInOrder(cfg, c.acquired.value, burn, treasury, masternode)
      && c.amounts == [Some(burn), Some(treasury), Some(masternode)]
      && Took(c, i, txs, 1, burn) && Took(c, i, txs, 2, treasury) && Took(c, i, txs, 3, masternode)
  {
    assert AmountOk(cfg, c, txs, 1) && AmountOk(cfg, c, txs, 2) && AmountOk(cfg, c, txs, 3);
    assert forall k :: 0 <= k < 4 ==> Succeeded(c, i, txs, k);
    var total := c.acquired.value;
    SharesInOrder(cfg, total);
    var burn, treasury, masternode := ShareOf(cfg, total, 1), ShareOf(cfg, total, 2), ShareOf(cfg, total, 3);
    assert c.amounts == [Some(burn), Some(treasury), Some(masternode)];
  }

  /** What a status says of the steps before it, in the order of the pipeline. */
  lemma StatusNamesTheStep(cfg: SplitConfig, c: Cycle, i: nat, txs: seq<Tx>)
    requires CycleOk(cfg, c, i, txs)
    ensures |c.hashes| == 4
    ensures c.status.Pending? ==> c.hashes == [None, None, None, None]
    ensures c.status.Swapping? ==> c.hashes[1..] == [None, None, None]
    ensures c.status.Burning? ==> Succeeded(c, i, txs, 0) && c.hashes[2..] == [None, None]
    ensures c.status.TreasurySending? ==>
      Succeeded(c, i, txs, 0) && Succeeded(c, i, txs, 1) && c.hashes[3].None?
    ensures c.status.MasternodeSending? ==> forall k :: 0 <= k < 3 ==> Succeeded(c, i, txs, k)
  {
    var at := WhereItStands(cfg, c, i, txs);
  }

  // ---- counting broadcasts -------------------------------------------------

  function Broadcasts(txs: seq<Tx>, i: nat, k: nat): (n: nat) {
    if txs == [] then 0
    else
      var last := txs[|txs| - 1];
      Broadcasts(txs[..|txs| - 1], i, k) + (if last.cycle == i && last.step == k then 1 else 0)
  }

  lemma BroadcastsAppend(txs: seq<Tx>, tx: Tx, i: nat, k: nat)
    ensures Broadcasts(txs + [tx], i, k) == Broadcasts(txs, i, k) + (if tx.cycle == i && tx.step == k then 1 else 0)
  {
    assert (txs + [tx])[..|txs|] == txs;
  }

  lemma {:induction false} NoneYet(txs: seq<Tx>, i: nat, k: nat)
    requires forall t :: 0 <= t < |txs| ==> txs[t].cycle < i
    ensures Broadcasts(txs, i, k) == 0
  {
    if txs != [] { NoneYet(txs[..|txs| - 1], i, k); }
  }

  /** Broadcasts of a step are the one on file and those whose hash was lost. */
  predicate Accounted(cs: seq<Cycle>, txs: seq<Tx>, lost: multiset<(nat, nat)>, i: nat, k: nat)
    requires i < |cs|
  {
    |cs[i].hashes| == 4 && k < 4 &&
    Broadcasts(txs, i, k) == (if cs[i].hashes[k].Some? then 1 else 0) + lost[(i, k)]
  }

  // ---- what never changes --------------------------------------------------

  predicate Kept(a: Option<nat>, b: Option<nat>) { a.Some? ==> b == a }

  /** Columns are written once; a COMPLETE or FAILED row does not change. */
  predicate RowKept(c: Cycle, c': Cycle) {
    && c'.usdc == c.usdc && |c'.hashes| == |c.hashes| && |c'.amounts| == |c.amounts|
    && (forall k :: 0 <= k < |c.hashes| ==> Kept(c.hashes[k], c'.hashes[k]))
    && (forall k :: 0 <= k < |c.amounts| ==> Kept(c.amounts[k], c'.amounts[k]))
    && Kept(c.acquired, c'.acquired)
    && (!c.Open() ==> c' == c)
  }

  predicate Later(cs: seq<Cycle>, cs': seq<Cycle>) {
    |cs| <= |cs'| && forall i :: 0 <= i < |cs| ==> RowKept(cs[i], cs'[i])
  }

  lemma LaterStill(a: seq<Cycle>, b: seq<Cycle>, c: seq<Cycle>)
    requires Later(a, b) && Later(b, c)
    ensures Later(a, c)
  {
    forall i | 0 <= i < |a|
      ensures RowKept(a[i], c[i])
    {
      assert RowKept(a[i], b[i]) && RowKept(b[i], c[i]);
      assert forall k :: 0 <= k < |a[i].hashes| ==>
        Kept(a[i].hashes[k], b[i].hashes[k]) && Kept(b[i].hashes[k], c[i].hashes[k]);
      assert forall k :: 0 <= k < |a[i].amounts| ==>
        Kept(a[i].amounts[k], b[i].amounts[k]) && Kept(b[i].amounts[k], c[i].amounts[k]);
    }
  }

  /** A step whose hash is on file is not broadcast again. */
  predicate NeverAgain(cs: seq<Cycle>, txs: seq<Tx>, txs': seq<Tx>) {
    && txs <= txs'
    && forall t :: |txs| <= t < |txs'| ==> NotOnFile(cs, txs'[t])
  }

  predicate NotOnFile(cs: seq<Cycle>, tx: Tx) {
    tx.cycle < |cs| && tx.step < |cs[tx.cycle].hashes| ==> cs[tx.cycle].hashes[tx.step].None?
  }

  predicate Moves(cs: seq<Cycle>, txs: seq<Tx>, cs': seq<Cycle>, txs': seq<Tx>) {
    Later(cs, cs') && NeverAgain(cs, txs, txs')
  }

  lemma MovesOn(a: seq<Cycle>, txsA: seq<Tx>, b: seq<Cycle>, txsB: seq<Tx>, c: seq<Cycle>, txsC: seq<Tx>)
    requires Moves(a, txsA, b, txsB) && Moves(b, txsB, c, txsC)
    ensures Moves(a, txsA, c, txsC)
  {
    LaterStill(a, b, c);
    forall t | |txsA| <= t < |txsC|
      ensures NotOnFile(a, txsC[t])
    {
      if t < |txsB| {
        assert txsC[t] == txsB[t];
      } else if txsC[t].cycle < |a| && txsC[t].step < |a[txsC[t].cycle].hashes| {
        assert RowKept(a[txsC[t].cycle], b[txsC[t].cycle]) && NotOnFile(b, txsC[t]);
      }
    }
  }

  // ---- the transitions of a row --------------------------------------------

  /** Where a row stands is said by its columns, not by its status. */
  lemma Relabelled(cfg: SplitConfig, c: Cycle, i: nat, txs: seq<Tx>, k: nat, status: Status)
    requires AtStep(cfg, c, i, txs, k)
    ensures AtStep(cfg, c.(status := status), i, txs, k)
  {
    var c' := c.(status := status);
    forall j | 0 <= j < k ensures Succeeded(c', i, txs, j) { assert Succeeded(c, i, txs, j); }
    forall j | 1 <= j <= k ensures AmountOk(cfg, c', txs, j) { assert AmountOk(cfg, c, txs, j); }
  }

  function Started(cfg: SplitConfig, c: Cycle, k: nat, amount: nat): Cycle
    requires k < 4 && |c.amounts| == 3
  {
    c.(status := StatusOf(k), amounts := if k == 0 then c.amounts else c.amounts[k - 1 := Some(amount)])
  }

  /** Step `k` is entered from the step before, or again after a crash. */
  lemma StartsStep(cfg: SplitConfig, c: Cycle, i: nat, txs: seq<Tx>, k: nat, amount: nat)
    requires cfg.Ok() && CycleOk(cfg, c, i, txs) && c.Open() && k < 4 && |c.hashes| == 4 && |c.amounts| == 3
    requires c.hashes[k].None? && forall j :: 0 <= j < k ==> Succeeded(c, i, txs, j)
    requires k > 0 ==> c.acquired.Some? && amount == ShareOf(cfg, c.acquired.value, k)
    ensures AtStep(cfg, Started(cfg, c, k, amount), i, txs, k) && CycleOk(cfg, Started(cfg, c, k, amount), i, txs)
    ensures RowKept(c, Started(cfg, c, k, amount))
  {
    var at := WhereItStands(cfg, c, i, txs);
    var c' := Started(cfg, c, k, amount);
    assert at > k ==> Succeeded(c, i, txs, k);
    assert k > at + 1 ==> Succeeded(c, i, txs, at + 1);
    assert k == at && k > 0 ==> AmountOk(cfg, c, txs, k);
    forall j | 0 <= j < k ensures Succeeded(c', i, txs, j) { assert Succeeded(c, i, txs, j); }
    forall j | 1 <= j <= k ensures AmountOk(cfg, c', txs, j) { if j <= at { assert AmountOk(cfg, c, txs, j); } }
  }

  function Filed(c: Cycle, k: nat, hash: nat): Cycle
    requires k < |c.hashes|
  {
    c.(hashes := c.hashes[k := Some(hash)])
  }

  lemma FilesHash(cfg: SplitConfig, c: Cycle, i: nat, txs: seq<Tx>, k: nat, tx: Tx)
    requires AtStep(cfg, c, i, txs, k) && c.hashes[k].None? && c.status == StatusOf(k)
    requires tx.cycle == i && tx.step == k
    requires if k > 0 then c.amounts[k - 1] == Some(tx.amount) else tx.amount == c.usdc
    ensures AtStep(cfg, Filed(c, k, |txs|), i, txs + [tx], k) && CycleOk(cfg, Filed(c, k, |txs|), i, txs + [tx])
    ensures RowKept(c, Filed(c, k, |txs|))
  {
    LongerChainKeepsStep(cfg, c, i, txs, txs + [tx], k);
    var c' := Filed(c, k, |txs|);
    forall j | 0 <= j < k ensures Succeeded(c', i, txs + [tx], j) { assert Succeeded(c, i, txs + [tx], j); }
    forall j | 1 <= j <= k ensures AmountOk(cfg, c', txs + [tx], j) { assert AmountOk(cfg, c, txs + [tx], j); }
  }
}
