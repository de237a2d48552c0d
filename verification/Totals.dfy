/** What the totals are that the scanners check against a cap: a total and an amount
    pass the cap exactly when some rows, named by their own columns, add up with the
    amount to more than it. */
module Totals {
  import opened Money
  import opened Rows
  import opened Sums
  import opened Protocol

  /** The entries at these positions. */
  function Picked(ws: seq<nat>, rows: set<nat>): (vs: seq<nat>)
    ensures |vs| == |ws|
  {
    seq(|ws|, i requires 0 <= i < |ws| => if i in rows then ws[i] else 0)
  }

  /** A total of weights that are zero elsewhere is the largest of its parts. */
  lemma TotalIsLargest(ws: seq<nat>, weights: seq<nat>, rows: set<nat>)
    requires |ws| == |weights|
    requires forall i :: 0 <= i < |ws| ==> weights[i] == if i in rows then ws[i] else 0
    ensures Sum(weights) == Sum(Picked(ws, rows))
    ensures forall part: set<nat> :: part <= rows ==> Sum(Picked(ws, part)) <= Sum(weights)
  {
    assert weights == Picked(ws, rows);
    forall part: set<nat> | part <= rows
      ensures Sum(Picked(ws, part)) <= Sum(weights)
    {
      SumLe(Picked(ws, part), weights);
    }
  }

  // ---- deposits ----------------------------------------------------------------

  function DepositSats(deposits: seq<Deposit>): seq<nat> {
    seq(|deposits|, i requires 0 <= i < |deposits| => deposits[i].amountSats)
  }

  /** Rows of this recipient from the 24 hours before, CONFIRMED, MINTING or MINTED. */
  predicate DepositsOfDay(deposits: seq<Deposit>, rows: set<nat>, baseAddress: string, now: nat) {
    forall i :: i in rows ==>
      && i < |deposits| && deposits[i].baseAddress == baseAddress
      && deposits[i].createdAt >= now - 24 * 60 * 60 * 1000
      && (deposits[i].status.Confirmed? || deposits[i].status.Minting? || deposits[i].status.Minted?)
  }

  /** Such rows add up with the payment to more than the cap. */
  ghost predicate DepositsPass(deposits: seq<Deposit>, baseAddress: string, now: nat, sats: nat, cap: nat) {
    exists rows: set<nat> ::
      DepositsOfDay(deposits, rows, baseAddress, now) && Sum(Picked(DepositSats(deposits), rows)) + sats > cap
  }

  lemma DepositsPassIff(deposits: seq<Deposit>, baseAddress: string, now: nat, sats: nat, cap: nat)
    ensures DepositDailySats(deposits, baseAddress, now) + sats > cap
      <==> DepositsPass(deposits, baseAddress, now, sats, cap)
  {
    var weights := DepositDailyWeights(deposits, baseAddress, now - DAY_MS);
    var live := set i | 0 <= i < |deposits|
      && deposits[i].baseAddress == baseAddress && deposits[i].createdAt >= now - DAY_MS && deposits[i].CountsToday();
    TotalIsLargest(DepositSats(deposits), weights, live);
    assert DepositsOfDay(deposits, live, baseAddress, now);
    forall rows: set<nat> | DepositsOfDay(deposits, rows, baseAddress, now)
      ensures rows <= live
    {
    }
  }

  // ---- withdrawals -------------------------------------------------------------

  function WithdrawalSats(withdrawals: seq<Withdrawal>): seq<nat> {
    seq(|withdrawals|, i requires 0 <= i < |withdrawals| => withdrawals[i].amountSats)
  }

  /** Rows of this sender from the 24 hours before, CONFIRMED, SIGNING, BROADCAST or
      FINAL. */
  predicate WithdrawalsOfDay(withdrawals: seq<Withdrawal>, rows: set<nat>, from: string, now: nat) {
    forall i :: i in rows ==>
      && i < |withdrawals| && withdrawals[i].from == from
      && withdrawals[i].createdAt >= now - 24 * 60 * 60 * 1000
      && (withdrawals[i].status.Confirmed? || withdrawals[i].status.Signing?
          || withdrawals[i].status.Broadcast? || withdrawals[i].status.Final?)
  }

  ghost predicate WithdrawalsPass(withdrawals: seq<Withdrawal>, from: string, now: nat, sats: nat, cap: nat) {
    exists rows: set<nat> ::
      WithdrawalsOfDay(withdrawals, rows, from, now) && Sum(Picked(WithdrawalSats(withdrawals), rows)) + sats > cap
  }

  lemma WithdrawalsPassIff(withdrawals: seq<Withdrawal>, from: string, now: nat, sats: nat, cap: nat)
    ensures WithdrawalDailySats(withdrawals, from, now) + sats > cap
      <==> WithdrawalsPass(withdrawals, from, now, sats, cap)
  {
    var weights := WithdrawalDailyWeights(withdrawals, from, now - DAY_MS);
    var live := set i | 0 <= i < |withdrawals|
      && withdrawals[i].from == from && withdrawals[i].createdAt >= now - DAY_MS && withdrawals[i].CountsToday();
    TotalIsLargest(WithdrawalSats(withdrawals), weights, live);
    assert WithdrawalsOfDay(withdrawals, live, from, now);
    forall rows: set<nat> | WithdrawalsOfDay(withdrawals, rows, from, now)
      ensures rows <= live
    {
    }
  }

  /** The sender has no such row. */
  predicate NothingToday(withdrawals: seq<Withdrawal>, from: string, now: nat) {
    forall i :: 0 <= i < |withdrawals| ==> !WithdrawalsOfDay(withdrawals, {i}, from, now)
  }

  /** What others withdrew does not count: a sender without rows of the day passes
      the cap only with a burn that passes it alone. */
  lemma FirstOfTheDay(withdrawals: seq<Withdrawal>, from: string, now: nat, sats: nat, cap: nat)
    requires NothingToday(withdrawals, from, now)
    ensures WithdrawalsPass(withdrawals, from, now, sats, cap) <==> sats > cap
  {
    forall rows: set<nat> | WithdrawalsOfDay(withdrawals, rows, from, now)
      ensures Sum(Picked(WithdrawalSats(withdrawals), rows)) == 0
    {
      if i :| i in rows { assert WithdrawalsOfDay(withdrawals, {i}, from, now); }
      SumZero(Picked(WithdrawalSats(withdrawals), rows));
    }
    assert WithdrawalsOfDay(withdrawals, {}, from, now);
  }

  // ---- the TVL -------------------------------------------------------------------

  function DepositWei(deposits: seq<Deposit>): seq<nat> {
    seq(|deposits|, i requires 0 <= i < |deposits| => deposits[i].amountWei)
  }

  /** Rows that are DETECTED, CONFIRMED or MINTING. */
  predicate DepositsInFlight(deposits: seq<Deposit>, rows: set<nat>) {
    forall i :: i in rows ==>
      && i < |deposits|
      && (deposits[i].status.Detected? || deposits[i].status.Confirmed? || deposits[i].status.Minting?)
  }

  /** The supply, such rows and the mint add up to more than the cap. */
  ghost predicate InFlightPasses(deposits: seq<Deposit>, supply: nat, wei: nat, cap: nat) {
    exists rows: set<nat> ::
      DepositsInFlight(deposits, rows) && supply + Sum(Picked(DepositWei(deposits), rows)) + wei > cap
  }

  lemma InFlightPassesIff(deposits: seq<Deposit>, supply: nat, wei: nat, cap: nat)
    ensures supply + InFlightWei(deposits) + wei > cap <==> InFlightPasses(deposits, supply, wei, cap)
  {
    var weights := InFlightWeights(deposits);
    var live := set i | 0 <= i < |deposits| && deposits[i].InFlight();
    TotalIsLargest(DepositWei(deposits), weights, live);
    assert DepositsInFlight(deposits, live);
    forall rows: set<nat> | DepositsInFlight(deposits, rows)
      ensures rows <= live
    {
    }
  }
}
