/** The per-address withdrawal cap, checked once when a row is created, bounds
    the releases of every 24-hour window. */
module RollingCap {
  import opened Money
  import opened Rows
  import opened Sums
  import opened Protocol
  import opened Totals

  /** Rows in order of creation; each live row fitted under the cap together
      with the live rows of the 24 hours before it. */
  predicate CapRows(cap: nat, ws: seq<Withdrawal>) {
    && (forall i, j :: 0 <= i < j < |ws| ==> ws[i].createdAt <= ws[j].createdAt)
    && (forall k :: 0 <= k < |ws| && ws[k].CountsToday() ==> FitsUnderCap(cap, ws, k))
  }

  predicate FitsUnderCap(cap: nat, ws: seq<Withdrawal>, k: nat)
    requires k < |ws|
  {
    WithdrawalDailySats(ws[..k + 1], ws[k].from, ws[k].createdAt) <= cap
  }

  predicate CapInv(cfg: Config, s: State) {
    && CapRows(cfg.withdrawalCapSats, s.withdrawals)
    && (forall i :: 0 <= i < |s.withdrawals| ==> s.withdrawals[i].createdAt <= s.now)
    && (s.base.daily.Some? ==>
          && s.base.daily.value.at <= s.now
          && WithdrawalDailySats(s.withdrawals, s.base.daily.value.from, s.base.daily.value.at)
               <= s.base.daily.value.sats)
  }

  lemma RelabellingLowersDaily(ws: seq<Withdrawal>, ws': seq<Withdrawal>, from: string, at: nat)
    requires WithdrawalsRelabelled(ws, ws')
    ensures WithdrawalDailySats(ws', from, at) <= WithdrawalDailySats(ws, from, at)
  {
    SumLe(WithdrawalDailyWeights(ws', from, at - DAY_MS), WithdrawalDailyWeights(ws, from, at - DAY_MS));
  }

  lemma RelabellingKeepsCapRows(cap: nat, ws: seq<Withdrawal>, ws': seq<Withdrawal>)
    requires CapRows(cap, ws) && WithdrawalsRelabelled(ws, ws')
    ensures CapRows(cap, ws')
  {
    forall k | 0 <= k < |ws'| && ws'[k].CountsToday()
      ensures FitsUnderCap(cap, ws', k)
    {
      assert FitsUnderCap(cap, ws, k);
      RelabellingLowersDaily(ws[..k + 1], ws'[..k + 1], ws[k].from, ws[k].createdAt);
    }
  }

  /** The new row fits, if the day before it leaves room. */
  lemma LastFits(cap: nat, ws: seq<Withdrawal>, w: Withdrawal)
    requires WithdrawalDailySats(ws, w.from, w.createdAt) + w.amountSats <= cap
    ensures FitsUnderCap(cap, ws + [w], |ws|)
  {
    var ws' := ws + [w];
    assert ws'[..|ws| + 1] == ws';
    SumGrow(WithdrawalDailyWeights(ws, w.from, w.createdAt - DAY_MS),
            WithdrawalDailyWeights(ws', w.from, w.createdAt - DAY_MS));
  }

  lemma AppendKeepsCapRows(cap: nat, ws: seq<Withdrawal>, w: Withdrawal)
    requires CapRows(cap, ws)
    requires forall i :: 0 <= i < |ws| ==> ws[i].createdAt <= w.createdAt
    requires w.CountsToday() ==> WithdrawalDailySats(ws, w.from, w.createdAt) + w.amountSats <= cap
    ensures CapRows(cap, ws + [w])
  {
    var ws' := ws + [w];
    forall k | 0 <= k < |ws'| && ws'[k].CountsToday()
      ensures FitsUnderCap(cap, ws', k)
    {
      if k < |ws| {
        assert FitsUnderCap(cap, ws, k);
        assert ws'[..k + 1] == ws[..k + 1];
      } else {
        LastFits(cap, ws, w);
      }
    }
  }

  /** A later reading of the same rows is not larger. */
  lemma LaterDailyIsSmaller(ws: seq<Withdrawal>, from: string, at: nat, later: nat)
    requires at <= later
    ensures WithdrawalDailySats(ws, from, later) <= WithdrawalDailySats(ws, from, at)
  {
    SumLe(WithdrawalDailyWeights(ws, from, later - DAY_MS), WithdrawalDailyWeights(ws, from, at - DAY_MS));
  }

  lemma RecordKeepsCapInv(cfg: Config, s: State, e: BaseEvent)
    requires CapInv(cfg, s) && e.RecordBurn?
    ensures CapInv(cfg, BaseStep(cfg, s, e))
  {
    if CanRecordBurn(s, e.valid) {
      var w := WithdrawalRow(cfg, s, e.valid);
      if w.CountsToday() {
        LaterDailyIsSmaller(s.withdrawals, w.from, s.base.daily.value.at, s.now);
      }
      AppendKeepsCapRows(cfg.withdrawalCapSats, s.withdrawals, w);
    }
  }

  lemma RelabellingKeepsCapInv(cfg: Config, s: State, s': State)
    requires CapInv(cfg, s)
    requires WithdrawalsRelabelled(s.withdrawals, s'.withdrawals)
    requires s'.base.daily == s.base.daily && s.now <= s'.now
    ensures CapInv(cfg, s')
  {
    RelabellingKeepsCapRows(cfg.withdrawalCapSats, s.withdrawals, s'.withdrawals);
    if s.base.daily.Some? {
      RelabellingLowersDaily(s.withdrawals, s'.withdrawals, s.base.daily.value.from, s.base.daily.value.at);
    }
  }

  lemma ReadsKeepCapInv(cfg: Config, s: State, e: BaseEvent)
    requires CapInv(cfg, s) && !e.RecordBurn?
    ensures CapInv(cfg, BaseStep(cfg, s, e))
  {
  }

  lemma CapInvStep(cfg: Config, s: State, e: Event)
    requires CapInv(cfg, s)
    ensures CapInv(cfg, Step(cfg, s, e))
  {
    match e
    case Outside(o) => RelabellingKeepsCapInv(cfg, s, OutsideStep(s, o));
    case FairWatcher(f) => RelabellingKeepsCapInv(cfg, s, FairStep(cfg, s, f));
    case MintWorker(m) => RelabellingKeepsCapInv(cfg, s, MintStep(s, m));
    case BaseWatcher(b) => if b.RecordBurn? { RecordKeepsCapInv(cfg, s, b); } else { ReadsKeepCapInv(cfg, s, b); }
    case ReleaseWorker(r) => RelabellingKeepsCapInv(cfg, s, ReleaseStep(s, r));
  }

  // ---- the rolling claim ---------------------------------------------------

  function WindowWeights(ws: seq<Withdrawal>, from: string, t: int): seq<nat> {
    seq(|ws|, i requires 0 <= i < |ws| =>
      if ws[i].from == from && t - DAY_MS <= ws[i].createdAt <= t && ws[i].CountsToday() then ws[i].amountSats else 0)
  }

  /** Release sats of an address's live withdrawals created in [t - 24h, t]. */
  function WindowSats(ws: seq<Withdrawal>, from: string, t: int): nat {
    Sum(WindowWeights(ws, from, t))
  }

  /** Whatever the address and the instant, the window stays under the cap. */
  lemma {:induction false} EveryWindowUnderCap(cap: nat, ws: seq<Withdrawal>, from: string, t: int)
    requires CapRows(cap, ws)
    ensures WindowSats(ws, from, t) <= cap
  {
    if ws != [] {
      var n := |ws| - 1;
      var last := ws[n];
      if last.from == from && t - DAY_MS <= last.createdAt <= t && last.CountsToday() {
        assert FitsUnderCap(cap, ws, n) && ws[..n + 1] == ws;
        SumLe(WindowWeights(ws, from, t), WithdrawalDailyWeights(ws, from, last.createdAt - DAY_MS));
      } else {
        forall k | 0 <= k < n && ws[k].CountsToday()
          ensures FitsUnderCap(cap, ws[..n], k)
        {
          assert FitsUnderCap(cap, ws, k) && ws[..n][..k + 1] == ws[..k + 1];
        }
        EveryWindowUnderCap(cap, ws[..n], from, t);
        SumGrow(WindowWeights(ws[..n], from, t), WindowWeights(ws, from, t));
      }
    }
  }

  /** Rows of an address created in [t - 24h, t], CONFIRMED, SIGNING, BROADCAST or
      FINAL. */
  predicate LiveIn(ws: seq<Withdrawal>, rows: set<nat>, from: string, t: int) {
    forall i :: i in rows ==>
      && i < |ws| && ws[i].from == from && t - 24 * 60 * 60 * 1000 <= ws[i].createdAt <= t
      && (ws[i].status.Confirmed? || ws[i].status.Signing? || ws[i].status.Broadcast? || ws[i].status.Final?)
  }

  /** However such rows are picked, they stay under the cap. */
  ghost predicate DayUnderCap(cap: nat, ws: seq<Withdrawal>, from: string, t: int) {
    forall rows: set<nat> :: LiveIn(ws, rows, from, t) ==> Sum(Picked(WithdrawalSats(ws), rows)) <= cap
  }

  lemma LiveRowsUnderCap(cap: nat, ws: seq<Withdrawal>, from: string, t: int)
    requires CapRows(cap, ws)
    ensures DayUnderCap(cap, ws, from, t)
  {
    EveryWindowUnderCap(cap, ws, from, t);
    forall rows: set<nat> | LiveIn(ws, rows, from, t)
      ensures Sum(Picked(WithdrawalSats(ws), rows)) <= cap
    {
      SumLe(Picked(WithdrawalSats(ws), rows), WindowWeights(ws, from, t));
    }
  }
}
