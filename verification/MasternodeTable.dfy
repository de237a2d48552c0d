/** The masternode cycles, the sends made for them, and what ties them together. */
module MasternodeTable {
  import opened Wrappers
  import opened Sums
  import opened MasternodePayouts

  datatype CycleStatus = Pending | PayingOut | Complete | Failed | Skipped

  datatype Cycle = Cycle(triggeredAt: nat, pool: nat, per: nat, payouts: seq<Payout>, status: CycleStatus)
  {
    predicate InFlight() { status.Pending? || status.PayingOut? }
  }

  /** A `sendtoaddress` that took effect, for a payout of a cycle. */
  datatype Send = Send(cycle: nat, index: nat, address: string, amount: nat)

  datatype Config = Config(feeSats: nat, intervalMs: nat, minBalanceSats: nat)

  type Site = (nat, nat)

  function Sites(sends: seq<Send>): seq<Site> {
    seq(|sends|, t requires 0 <= t < |sends| => (sends[t].cycle, sends[t].index))
  }

  /** How often a payout was sent. */
  function SentTimes(sends: seq<Send>, i: nat, k: nat): nat {
    multiset(Sites(sends))[(i, k)]
  }

  lemma SentTimesAppend(sends: seq<Send>, send: Send, i: nat, k: nat)
    ensures SentTimes(sends + [send], i, k) ==
      SentTimes(sends, i, k) + (if send.cycle == i && send.index == k then 1 else 0)
  {
    assert Sites(sends + [send]) == Sites(sends) + [(send.cycle, send.index)];
  }

  // ---- rows ----------------------------------------------------------------

  predicate PayoutOk(p: Payout, per: nat, i: nat, k: nat, sends: seq<Send>) {
    && p.Ok() && p.amount == per
    && (p.txid.Some? ==> p.txid.value < |sends| && sends[p.txid.value] == Send(i, k, p.address, per))
  }

  predicate CycleOk(cfg: Config, c: Cycle, i: nat, sends: seq<Send>) {
    && (forall k :: 0 <= k < |c.payouts| ==> PayoutOk(c.payouts[k], c.per, i, k, sends))
    && (c.payouts != [] ==> Funded(cfg, c))
    && (c.status.Complete? && Distinct(c.payouts) ==> Right(c.payouts, AsComplete))
    && (c.status.Failed? && Distinct(c.payouts) ==> Right(c.payouts, AsFailed))
  }

  predicate Funded(cfg: Config, c: Cycle) {
    var n := |c.payouts|;
    n * c.per + n * cfg.feeSats <= c.pool < n * c.per + n * cfg.feeSats + n
  }

  /** Sends of a payout are the one on file and those whose txid was lost. */
  predicate Accounted(cs: seq<Cycle>, sends: seq<Send>, lost: multiset<Site>, i: nat, k: nat) {
    && i < |cs| && k < |cs[i].payouts|
    && SentTimes(sends, i, k) == (if cs[i].payouts[k].txid.Some? then 1 else 0) + lost[(i, k)]
  }

  predicate SendOk(cs: seq<Cycle>, send: Send) {
    && send.cycle < |cs| && send.index < |cs[send.cycle].payouts|
    && send.amount == cs[send.cycle].per
  }

  /** Any two rows were triggered more than an interval apart. */
  predicate Spaced(cfg: Config, cs: seq<Cycle>) {
    forall i, j :: 0 <= i < j < |cs| ==> cs[i].triggeredAt + cfg.intervalMs < cs[j].triggeredAt
  }

  predicate TableOk(cfg: Config, now: nat, cs: seq<Cycle>, sends: seq<Send>, lost: multiset<Site>) {
    && (forall i :: 0 <= i < |cs| ==> CycleOk(cfg, cs[i], i, sends))
    && (forall i, k :: 0 <= i < |cs| && 0 <= k < |cs[i].payouts| ==> Accounted(cs, sends, lost, i, k))
    && (forall t :: 0 <= t < |sends| ==> SendOk(cs, sends[t]))
    && (forall p :: p in lost ==> p.0 < |cs|)
    && (forall i :: 0 <= i < |cs| - 1 ==> !cs[i].InFlight())
    && (forall i :: 0 <= i < |cs| ==> cs[i].triggeredAt <= now)
    && Spaced(cfg, cs)
  }

  /** At most one row is in flight. */
  lemma SingleFlight(cfg: Config, now: nat, cs: seq<Cycle>, sends: seq<Send>, lost: multiset<Site>, i: nat, j: nat)
    requires TableOk(cfg, now, cs, sends, lost) && i < |cs| && j < |cs|
    requires cs[i].status.Pending? || cs[i].status.PayingOut?
    requires cs[j].status.Pending? || cs[j].status.PayingOut?
    ensures i == j
  {
  }

  /** Any two rows were triggered more than an interval apart, and rows further apart
      in the table that many times more. */
  lemma {:induction false} Cadence(cfg: Config, now: nat, cs: seq<Cycle>, sends: seq<Send>, lost: multiset<Site>,
                                   i: nat, j: nat)
    requires TableOk(cfg, now, cs, sends, lost) && i <= j < |cs|
    ensures cs[i].triggeredAt + (j - i) * (cfg.intervalMs + 1) <= cs[j].triggeredAt <= now
  {
    if i < j {
      Cadence(cfg, now, cs, sends, lost, i, j - 1);
      assert cs[j - 1].triggeredAt + cfg.intervalMs < cs[j].triggeredAt;
      OneMore(j - 1 - i, cfg.intervalMs + 1);
    }
  }

  lemma OneMore(n: nat, d: nat)
    ensures (n + 1) * d == n * d + d
  {
  }

  // ---- what was sent for a cycle -------------------------------------------

  function SentSats(sends: seq<Send>, i: nat): nat {
    if sends == [] then 0
    else
      var last := sends[|sends| - 1];
      SentSats(sends[..|sends| - 1], i) + (if last.cycle == i then last.amount else 0)
  }

  function SendsFor(sends: seq<Send>, i: nat): nat {
    if sends == [] then 0
    else SendsFor(sends[..|sends| - 1], i) + (if sends[|sends| - 1].cycle == i then 1 else 0)
  }

  function TimesEach(sends: seq<Send>, i: nat, n: nat): seq<nat> {
    seq(n, k requires 0 <= k < n => SentTimes(sends, i, k))
  }

  function OnFileEach(payouts: seq<Payout>): seq<nat> {
    seq(|payouts|, k requires 0 <= k < |payouts| => if payouts[k].txid.Some? then 1 else 0)
  }

  function LostEach(lost: multiset<Site>, i: nat, n: nat): seq<nat> {
    seq(n, k requires 0 <= k < n => lost[(i, k)])
  }

  lemma {:induction false} SendsForIsTimes(sends: seq<Send>, i: nat, n: nat)
    requires forall t :: 0 <= t < |sends| && sends[t].cycle == i ==> sends[t].index < n
    ensures SendsFor(sends, i) == Sum(TimesEach(sends, i, n))
  {
    if sends == [] {
      assert Sites(sends) == [];
      SumZero(TimesEach(sends, i, n));
    } else {
      var front, last := sends[..|sends| - 1], sends[|sends| - 1];
      SendsForIsTimes(front, i, n);
      assert sends == front + [last];
      forall k | 0 <= k < n
        ensures TimesEach(sends, i, n)[k]
          == TimesEach(front, i, n)[k] + (if last.cycle == i && last.index == k then 1 else 0)
      {
        SentTimesAppend(front, last, i, k);
      }
      if last.cycle == i {
        SumChange(TimesEach(front, i, n), TimesEach(sends, i, n), last.index);
      } else {
        assert TimesEach(sends, i, n) == TimesEach(front, i, n);
      }
    }
  }

  lemma {:induction false} SentIsPerSend(sends: seq<Send>, i: nat, per: nat)
    requires forall t :: 0 <= t < |sends| && sends[t].cycle == i ==> sends[t].amount == per
    ensures SentSats(sends, i) == per * SendsFor(sends, i)
  {
    if sends != [] {
      SentIsPerSend(sends[..|sends| - 1], i, per);
      var before, after := SendsFor(sends[..|sends| - 1], i), SendsFor(sends, i);
      assert after == before + 1 ==> per * after == per * before + per;
    }
  }

  /** The sends of a cycle, in any reachable state: one for every txid on file and
      one for every send whose txid was lost. */
  lemma SendsForCycle(cs: seq<Cycle>, sends: seq<Send>, lost: multiset<Site>, i: nat)
    requires i < |cs| && forall t :: 0 <= t < |sends| ==> SendOk(cs, sends[t])
    requires forall k :: 0 <= k < |cs[i].payouts| ==> Accounted(cs, sends, lost, i, k)
    ensures SendsFor(sends, i) == Sum(OnFileEach(cs[i].payouts)) + Sum(LostEach(lost, i, |cs[i].payouts|))
    ensures Sum(OnFileEach(cs[i].payouts)) <= |cs[i].payouts|
    ensures SentSats(sends, i) == cs[i].per * SendsFor(sends, i)
  {
    var n := |cs[i].payouts|;
    forall t | 0 <= t < |sends| && sends[t].cycle == i
      ensures sends[t].index < n && sends[t].amount == cs[i].per
    {
      assert SendOk(cs, sends[t]);
    }
    SentIsPerSend(sends, i, cs[i].per);
    SendsForIsTimes(sends, i, n);
    forall k | 0 <= k < n
      ensures TimesEach(sends, i, n)[k] == OnFileEach(cs[i].payouts)[k] + LostEach(lost, i, n)[k]
    {
      assert Accounted(cs, sends, lost, i, k);
    }
    SumPlus(OnFileEach(cs[i].payouts), LostEach(lost, i, n), TimesEach(sends, i, n));
    SumOfFlags(OnFileEach(cs[i].payouts));
  }

  lemma Fits(n: nat, per: nat, fee: nat, pool: nat, k: nat, extra: nat)
    requires n * per + n * fee <= pool && k <= n + extra
    ensures per * k + n * fee <= pool + per * extra
  {
    assert per * k <= per * (n + extra) == n * per + per * extra;
  }

  /** So a cycle never sends more than its pool less the fee reserve, and a share
      for every txid it lost. */
  lemma NeverOverspends(cfg: Config, now: nat, cs: seq<Cycle>, sends: seq<Send>, lost: multiset<Site>, i: nat)
    requires TableOk(cfg, now, cs, sends, lost) && i < |cs| && cs[i].payouts != []
    ensures var n := |cs[i].payouts|;
      SentSats(sends, i) + n * cfg.feeSats <= cs[i].pool + cs[i].per * Sum(LostEach(lost, i, n))
  {
    var n := |cs[i].payouts|;
    SendsForCycle(cs, sends, lost, i);
    assert CycleOk(cfg, cs[i], i, sends);
    Fits(n, cs[i].per, cfg.feeSats, cs[i].pool, SendsFor(sends, i), Sum(LostEach(lost, i, n)));
  }

  // ---- what never changes --------------------------------------------------

  predicate PayoutKept(p: Payout, p': Payout) {
    p' == p.(status := p'.status, txid := p'.txid) && (p.txid.Some? ==> p'.txid == p.txid)
  }

  /** A txid is written once; a row that is not in flight does not change, and no
      row becomes a skip row. */
  predicate RowKept(c: Cycle, c': Cycle) {
    && c' == c.(payouts := c'.payouts, status := c'.status) && |c'.payouts| == |c.payouts|
    && (forall k :: 0 <= k < |c.payouts| ==> PayoutKept(c.payouts[k], c'.payouts[k]))
    && (!c.InFlight() ==> c' == c) && (c'.status.Skipped? ==> c.status.Skipped?)
  }

  /** A payout with a txid on file is not sent again. */
  predicate NotOnFile(cs: seq<Cycle>, send: Send) {
    send.cycle < |cs| && send.index < |cs[send.cycle].payouts| ==> cs[send.cycle].payouts[send.index].txid.None?
  }

  predicate Moves(cs: seq<Cycle>, sends: seq<Send>, cs': seq<Cycle>, sends': seq<Send>) {
    && |cs| <= |cs'| && (forall i :: 0 <= i < |cs| ==> RowKept(cs[i], cs'[i]))
    && sends <= sends' && (forall t :: |sends| <= t < |sends'| ==> NotOnFile(cs, sends'[t]))
  }

  lemma MovesOn(a: seq<Cycle>, sendsA: seq<Send>, b: seq<Cycle>, sendsB: seq<Send>, c: seq<Cycle>, sendsC: seq<Send>)
    requires Moves(a, sendsA, b, sendsB) && Moves(b, sendsB, c, sendsC)
    ensures Moves(a, sendsA, c, sendsC)
  {
    forall i | 0 <= i < |a|
      ensures RowKept(a[i], c[i])
    {
      assert RowKept(a[i], b[i]) && RowKept(b[i], c[i]);
      forall k | 0 <= k < |a[i].payouts|
        ensures PayoutKept(a[i].payouts[k], c[i].payouts[k])
      {
        assert PayoutKept(a[i].payouts[k], b[i].payouts[k]) && PayoutKept(b[i].payouts[k], c[i].payouts[k]);
      }
    }
    forall t | |sendsA| <= t < |sendsC|
      ensures NotOnFile(a, sendsC[t])
    {
      if t < |sendsB| {
        assert sendsC[t] == sendsB[t];
      } else {
        var send := sendsC[t];
        assert NotOnFile(b, send);
        if send.cycle < |a| && send.index < |a[send.cycle].payouts| {
          assert RowKept(a[send.cycle], b[send.cycle]);
          assert PayoutKept(a[send.cycle].payouts[send.index], b[send.cycle].payouts[send.index]);
        }
      }
    }
  }

  // ---- the writes of a pass ------------------------------------------------

  function WithPayout(c: Cycle, k: nat, p: Payout): Cycle
    requires k < |c.payouts|
  {
    c.(payouts := c.payouts[k := p])
  }

  lemma RowWithPayout(cfg: Config, c: Cycle, i: nat, sends: seq<Send>, k: nat, p: Payout)
    requires CycleOk(cfg, c, i, sends) && c.status.PayingOut? && k < |c.payouts|
    requires PayoutOk(p, c.per, i, k, sends)
    ensures CycleOk(cfg, WithPayout(c, k, p), i, sends)
  {
    var c' := WithPayout(c, k, p);
    assert Funded(cfg, c) && |c'.payouts| == |c.payouts|;
    forall m | 0 <= m < |c'.payouts|
      ensures PayoutOk(c'.payouts[m], c'.per, i, m, sends)
    {
      assert PayoutOk(c.payouts[m], c.per, i, m, sends);
    }
  }

  /** A payout is rewritten, in a table that is in order but for that payout. */
  lemma RewriteKeepsTable(cfg: Config, now: nat, cs: seq<Cycle>, sends: seq<Send>, lost: multiset<Site>, i: nat,
    k: nat, p: Payout)
    requires i < |cs| && k < |cs[i].payouts| && cs[i].status.PayingOut?
    requires forall j :: 0 <= j < |cs| ==> CycleOk(cfg, cs[j], j, sends)
    requires forall j, m :: 0 <= j < |cs| && 0 <= m < |cs[j].payouts| && (j != i || m != k) ==>
      Accounted(cs, sends, lost, j, m)
    requires forall t :: 0 <= t < |sends| ==> SendOk(cs, sends[t])
    requires forall s :: s in lost ==> s.0 < |cs|
    requires forall j :: 0 <= j < |cs| - 1 ==> !cs[j].InFlight()
    requires forall j :: 0 <= j < |cs| ==> cs[j].triggeredAt <= now
    requires Spaced(cfg, cs)
    requires PayoutOk(p, cs[i].per, i, k, sends)
    requires SentTimes(sends, i, k) == (if p.txid.Some? then 1 else 0) + lost[(i, k)]
    ensures TableOk(cfg, now, cs[i := WithPayout(cs[i], k, p)], sends, lost)
  {
    var cs' := cs[i := WithPayout(cs[i], k, p)];
    RowWithPayout(cfg, cs[i], i, sends, k, p);
    forall j, m | 0 <= j < |cs'| && 0 <= m < |cs'[j].payouts|
      ensures Accounted(cs', sends, lost, j, m)
    {
      assert j != i || m != k ==> Accounted(cs, sends, lost, j, m);
    }
    forall t | 0 <= t < |sends| ensures SendOk(cs', sends[t]) { assert SendOk(cs, sends[t]); }
  }

  /** A payout's status is written. */
  lemma MarkKeepsTable(cfg: Config, now: nat, cs: seq<Cycle>, sends: seq<Send>, lost: multiset<Site>, i: nat, k: nat,
    p: Payout)
    requires TableOk(cfg, now, cs, sends, lost) && i < |cs| && k < |cs[i].payouts| && cs[i].status.PayingOut?
    requires p.Ok() && p == cs[i].payouts[k].(status := p.status)
    ensures var cs' := cs[i := WithPayout(cs[i], k, p)];
      TableOk(cfg, now, cs', sends, lost) && Moves(cs, sends, cs', sends)
  {
    assert CycleOk(cfg, cs[i], i, sends) && PayoutOk(cs[i].payouts[k], cs[i].per, i, k, sends);
    assert Accounted(cs, sends, lost, i, k);
    RewriteKeepsTable(cfg, now, cs, sends, lost, i, k, p);
  }

  lemma LongerChainKeepsRows(cfg: Config, cs: seq<Cycle>, sends: seq<Send>, send: Send)
    requires forall i :: 0 <= i < |cs| ==> CycleOk(cfg, cs[i], i, sends)
    ensures forall i :: 0 <= i < |cs| ==> CycleOk(cfg, cs[i], i, sends + [send])
  {
    forall i | 0 <= i < |cs|
      ensures CycleOk(cfg, cs[i], i, sends + [send])
    {
      assert CycleOk(cfg, cs[i], i, sends);
      forall k | 0 <= k < |cs[i].payouts|
        ensures PayoutOk(cs[i].payouts[k], cs[i].per, i, k, sends + [send])
      {
        assert PayoutOk(cs[i].payouts[k], cs[i].per, i, k, sends);
      }
    }
  }

  /** A payout was sent and its txid lost. */
  lemma LosingKeepsTable(cfg: Config, now: nat, cs: seq<Cycle>, sends: seq<Send>, lost: multiset<Site>, i: nat, k: nat)
    requires TableOk(cfg, now, cs, sends, lost) && i < |cs| && k < |cs[i].payouts| && cs[i].payouts[k].txid.None?
    ensures var sends' := sends + [Send(i, k, cs[i].payouts[k].address, cs[i].payouts[k].amount)];
      TableOk(cfg, now, cs, sends', lost + multiset{(i, k)}) && Moves(cs, sends, cs, sends')
  {
    var p := cs[i].payouts[k];
    var send := Send(i, k, p.address, p.amount);
    LongerChainKeepsRows(cfg, cs, sends, send);
    assert CycleOk(cfg, cs[i], i, sends) && PayoutOk(p, cs[i].per, i, k, sends);
    forall j, m | 0 <= j < |cs| && 0 <= m < |cs[j].payouts|
      ensures Accounted(cs, sends + [send], lost + multiset{(i, k)}, j, m)
    {
      assert Accounted(cs, sends, lost, j, m);
      SentTimesAppend(sends, send, j, m);
    }
  }

  /** The other payouts do not notice a send. */
  lemma SendCountsElsewhere(cs: seq<Cycle>, sends: seq<Send>, lost: multiset<Site>, send: Send, j: nat, m: nat)
    requires Accounted(cs, sends, lost, j, m) && (j != send.cycle || m != send.index)
    ensures Accounted(cs, sends + [send], lost, j, m)
  {
    SentTimesAppend(sends, send, j, m);
  }

  /** A payout was sent and its txid written. */
  lemma FilingKeepsTable(cfg: Config, now: nat, cs: seq<Cycle>, sends: seq<Send>, lost: multiset<Site>, i: nat, k: nat)
    requires TableOk(cfg, now, cs, sends, lost) && i < |cs| && k < |cs[i].payouts| && cs[i].status.PayingOut?
    requires cs[i].payouts[k].txid.None?
    ensures var p := cs[i].payouts[k]; var sends' := sends + [Send(i, k, p.address, p.amount)];
      var cs' := cs[i := WithPayout(cs[i], k, p.(txid := Some(|sends|)))];
      TableOk(cfg, now, cs', sends', lost) && Moves(cs, sends, cs', sends')
  {
    var p := cs[i].payouts[k];
    var send := Send(i, k, p.address, p.amount);
    assert CycleOk(cfg, cs[i], i, sends) && PayoutOk(p, cs[i].per, i, k, sends);
    LongerChainKeepsRows(cfg, cs, sends, send);
    forall j, m | 0 <= j < |cs| && 0 <= m < |cs[j].payouts| && (j != i || m != k)
      ensures Accounted(cs, sends + [send], lost, j, m)
    {
      SendCountsElsewhere(cs, sends, lost, send, j, m);
    }
    assert SentTimes(sends + [send], i, k) == 1 + lost[(i, k)] by {
      assert Accounted(cs, sends, lost, i, k);
      SentTimesAppend(sends, send, i, k);
    }
    RewriteKeepsTable(cfg, now, cs, sends + [send], lost, i, k, p.(txid := Some(|sends|)));
  }

  /** A row's status is written: PAYING_OUT when claimed, the verdict at the end. */
  lemma StatusKeepsTable(cfg: Config, now: nat, cs: seq<Cycle>, sends: seq<Send>, lost: multiset<Site>, i: nat,
    status: CycleStatus)
    requires TableOk(cfg, now, cs, sends, lost) && i < |cs| && cs[i].InFlight() && !status.Pending? && !status.Skipped?
    requires status.Complete? && Distinct(cs[i].payouts) ==> Right(cs[i].payouts, AsComplete)
    requires status.Failed? && Distinct(cs[i].payouts) ==> Right(cs[i].payouts, AsFailed)
    ensures var cs' := cs[i := cs[i].(status := status)];
      TableOk(cfg, now, cs', sends, lost) && Moves(cs, sends, cs', sends)
  {
    var cs' := cs[i := cs[i].(status := status)];
    assert CycleOk(cfg, cs[i], i, sends) && CycleOk(cfg, cs'[i], i, sends);
    forall j, m | 0 <= j < |cs'| && 0 <= m < |cs'[j].payouts|
      ensures Accounted(cs', sends, lost, j, m)
    {
      assert Accounted(cs, sends, lost, j, m);
    }
    forall t | 0 <= t < |sends| ensures SendOk(cs', sends[t]) { assert SendOk(cs, sends[t]); }
  }

  /** A row is created, past the cadence gate. */
  lemma CreatingKeepsTable(cfg: Config, now: nat, cs: seq<Cycle>, sends: seq<Send>, lost: multiset<Site>, c: Cycle)
    requires TableOk(cfg, now, cs, sends, lost) && c.triggeredAt <= now
    requires forall i :: 0 <= i < |cs| ==> !cs[i].InFlight() && cs[i].triggeredAt + cfg.intervalMs < c.triggeredAt
    requires CycleOk(cfg, c, |cs|, sends) && forall k :: 0 <= k < |c.payouts| ==> c.payouts[k].txid.None?
    ensures TableOk(cfg, now, cs + [c], sends, lost) && Moves(cs, sends, cs + [c], sends)
  {
    var cs' := cs + [c];
    forall i, k | 0 <= i < |cs'| && 0 <= k < |cs'[i].payouts|
      ensures Accounted(cs', sends, lost, i, k)
    {
      if i < |cs| {
        assert Accounted(cs, sends, lost, i, k);
      } else {
        forall t | 0 <= t < |sends| ensures Sites(sends)[t] != (i, k) { assert SendOk(cs, sends[t]); }
        assert (i, k) !in lost && (i, k) !in Sites(sends);
      }
    }
    forall t | 0 <= t < |sends| ensures SendOk(cs', sends[t]) { assert SendOk(cs, sends[t]); }
  }
}
