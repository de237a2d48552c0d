/** A masternode cycle's payouts: their amounts, one pass over them, and the
    verdict the pass ends with. */
module MasternodePayouts {
  import opened Wrappers

  datatype Outpoint = Outpoint(txhash: string, index: nat)

  datatype Masternode = Masternode(outpoint: Outpoint, address: string, status: string)
  {
    predicate Eligible() { status == "ENABLED" }
  }

  datatype PayoutStatus = Pending | Broadcast | Confirmed | Failed

  /** A txid is the index of the send it names. */
  datatype Payout = Payout(
    outpoint: Outpoint, address: string, amount: nat, status: PayoutStatus, txid: Option<nat>)
  {
    predicate Paid() { txid.Some? && (status.Broadcast? || status.Confirmed?) }
    predicate Final() { !status.Pending? }
    predicate Ok() { status.Broadcast? || status.Confirmed? ==> txid.Some? }
  }

  // ---- amounts -------------------------------------------------------------

  /** `computePerMasternodeSats`. */
  function PerMasternodeSats(pool: nat, count: nat, feeSats: nat): (per: nat) {
    if count == 0 then 0
    else if pool <= feeSats * count then 0
    else (pool - feeSats * count) / count
  }

  /** Whenever something is paid, the payouts and their fee reserve fit into the
      pool and leave less than one sat per masternode; nothing is paid exactly
      when the pool cannot give everyone a sat. */
  lemma PayoutsAreFunded(pool: nat, count: nat, feeSats: nat)
    ensures var per := PerMasternodeSats(pool, count, feeSats);
      && (per > 0 ==> count * per + count * feeSats <= pool < count * per + count * feeSats + count)
      && (per == 0 <==> count == 0 || pool < count * (feeSats + 1))
  {
    assert feeSats * count == count * feeSats;
    assert count * (feeSats + 1) == count * feeSats + count;
    if count > 0 && pool > feeSats * count {
      var left := pool - feeSats * count;
      DivisionBounds(left, count);
    }
  }

  lemma DivisionBounds(n: nat, d: nat)
    requires d > 0
    ensures d * (n / d) <= n < d * (n / d) + d
    ensures n / d == 0 <==> n < d
  {
  }

  /** `mnList.filter(isEligible)`. */
  function EligibleOf(list: seq<Masternode>): (eligible: seq<Masternode>)
    ensures forall mn :: mn in eligible <==> mn in list && mn.status == "ENABLED"
  {
    if list == [] then []
    else
      var last := list[|list| - 1];
      EligibleOf(list[..|list| - 1]) + (if last.Eligible() then [last] else [])
  }

  /** Each listed masternode as often as it is listed. */
  lemma {:induction false} EligibleAsOften(list: seq<Masternode>, mn: Masternode)
    ensures multiset(EligibleOf(list))[mn] == if mn.status == "ENABLED" then multiset(list)[mn] else 0
  {
    if list != [] {
      var n := |list| - 1;
      EligibleAsOften(list[..n], mn);
      assert list == list[..n] + [list[n]];
    }
  }

  lemma Regrouped<T>(a: seq<T>, b: seq<T>, c: seq<T>, bc: seq<T>)
    requires bc == b + c
    ensures a + bc == (a + b) + c
  {
  }

  lemma EligibleOfLast(list: seq<Masternode>, front: seq<Masternode>, last: Masternode)
    requires list == front + [last]
    ensures EligibleOf(list) == EligibleOf(front) + (if last.Eligible() then [last] else [])
  {
    assert list[..|list| - 1] == front;
  }

  /** And in the order of the list. */
  lemma {:induction false} EligibleInOrder(front: seq<Masternode>, rest: seq<Masternode>)
    ensures EligibleOf(front + rest) == EligibleOf(front) + EligibleOf(rest)
  {
    if rest == [] {
      assert front + rest == front;
    } else {
      var rest', last := rest[..|rest| - 1], [rest[|rest| - 1]];
      EligibleInOrder(front, rest');
      Regrouped(front, rest', last, rest);
      EligibleOfLast(front + rest, front + rest', last[0]);
      EligibleOfLast(rest, rest', last[0]);
      var more := if last[0].Eligible() then last else [];
      Regrouped(EligibleOf(front), EligibleOf(rest'), more, EligibleOf(rest));
    }
  }

  predicate ListedOnce(list: seq<Masternode>) {
    forall i, j :: 0 <= i < j < |list| ==> list[i].outpoint != list[j].outpoint
  }

  /** `outpointKey` and `buildPayouts`. */
  function BuildPayouts(masternodes: seq<Masternode>, per: nat): (payouts: seq<Payout>) {
    seq(|masternodes|, i requires 0 <= i < |masternodes| =>
      Payout(masternodes[i].outpoint, masternodes[i].address, per, Pending, None))
  }

  // ---- one pass ------------------------------------------------------------

  /** What the node and the database answered for one payout. */
  datatype Answer =
    | Found                // the txid on file is known to the node
    | Missing              // it is not
    | Sent(txid: nat)      // sent, txid and status written
    | SentUnmarked(txid: nat)  // sent, txid written, the status write failed
    | SentLost             // sent, but the txid could not be written
    | Rejected             // not sent

  predicate Skipped(p: Payout, skip: set<Outpoint>) {
    p.Paid() || (p.txid.None? && p.outpoint in skip)
  }

  /** The answers a payout can get. */
  predicate Possible(p: Payout, skip: set<Outpoint>, r: Answer) {
    Skipped(p, skip) || (p.txid.Some? <==> r.Found? || r.Missing?)
  }

  /** One iteration of the loop in `executeCycle`. */
  function Settle(p: Payout, skip: set<Outpoint>, r: Answer): Payout {
    if Skipped(p, skip) then p
    else match r
      case Found => p.(status := Broadcast)
      case Missing => p.(status := Failed)
      case Sent(txid) => p.(status := Broadcast, txid := Some(txid))
      case SentUnmarked(txid) => p.(status := Failed, txid := Some(txid))
      case SentLost => p.(status := Failed)
      case Rejected => p.(status := Failed)
  }

  /** The iteration raised the pass's own `anyFailed` flag. */
  predicate RaisesFlag(p: Payout, skip: set<Outpoint>, r: Answer) {
    !Skipped(p, skip) && !r.Found? && !r.Sent?
  }

  /** `alreadyBroadcastOutpoints`, of the payouts as loaded. */
  function SkipOf(payouts: seq<Payout>): set<Outpoint> {
    set i | 0 <= i < |payouts| && payouts[i].Paid() :: payouts[i].outpoint
  }

  function Pass(payouts: seq<Payout>, replies: seq<Answer>): seq<Payout>
    requires |replies| == |payouts|
  {
    seq(|payouts|, i requires 0 <= i < |payouts| => Settle(payouts[i], SkipOf(payouts), replies[i]))
  }

  predicate AnyFailed(payouts: seq<Payout>, replies: seq<Answer>)
    requires |replies| == |payouts|
  {
    exists i :: 0 <= i < |payouts| && RaisesFlag(payouts[i], SkipOf(payouts), replies[i])
  }

  predicate AllPossible(payouts: seq<Payout>, replies: seq<Answer>) {
    |replies| == |payouts| && forall i :: 0 <= i < |payouts| ==> Possible(payouts[i], SkipOf(payouts), replies[i])
  }

  datatype Verdict = Open | AsComplete | AsFailed

  /** The status the pass finalises the cycle with, if it does: it does not exactly
      while a payout is PENDING. */
  function VerdictOf(payouts: seq<Payout>, anyFailed: bool): (v: Verdict)
    ensures v.Open? <==> exists i :: 0 <= i < |payouts| && payouts[i].status.Pending?
    ensures v.AsFailed? ==> anyFailed
    ensures v.AsComplete? ==> !anyFailed
  {
    if exists i :: 0 <= i < |payouts| && !payouts[i].Final() then Open
    else if anyFailed then AsFailed else AsComplete
  }

  /** What a finished cycle is said to mean: COMPLETE, every payout has a txid;
      FAILED, some payout failed. */
  predicate Right(payouts: seq<Payout>, v: Verdict) {
    match v
    case Open => false
    case AsComplete =>
      forall i :: 0 <= i < |payouts| ==>
        payouts[i].txid.Some? && (payouts[i].status.Broadcast? || payouts[i].status.Confirmed?)
    case AsFailed => exists i :: 0 <= i < |payouts| && payouts[i].status.Failed?
  }

  /** A payout of the outpoint has a txid and is BROADCAST or CONFIRMED. */
  predicate PaidAt(payouts: seq<Payout>, outpoint: Outpoint) {
    exists j :: 0 <= j < |payouts| && payouts[j].outpoint == outpoint && payouts[j].txid.Some?
      && (payouts[j].status.Broadcast? || payouts[j].status.Confirmed?)
  }

  lemma SkipsWhatIsPaid(payouts: seq<Payout>, outpoint: Outpoint)
    ensures outpoint in SkipOf(payouts) <==> PaidAt(payouts, outpoint)
  {
  }

  /** No payout without a txid shares its outpoint with a paid one. */
  predicate Clean(payouts: seq<Payout>) {
    forall i :: 0 <= i < |payouts| && payouts[i].txid.None? ==> !PaidAt(payouts, payouts[i].outpoint)
  }

  predicate Distinct(payouts: seq<Payout>) {
    forall i, j :: 0 <= i < j < |payouts| ==> payouts[i].outpoint != payouts[j].outpoint
  }

  predicate AllOk(payouts: seq<Payout>) {
    forall i :: 0 <= i < |payouts| ==> payouts[i].Ok()
  }

  /** A list without repeated outpoints gives payouts without repeated outpoints. */
  lemma {:induction false} EligibleListedOnce(list: seq<Masternode>)
    requires ListedOnce(list)
    ensures ListedOnce(EligibleOf(list)) && |EligibleOf(list)| <= |list|
  {
    if list != [] {
      var front := list[..|list| - 1];
      EligibleListedOnce(front);
      assert forall mn :: mn in EligibleOf(front) ==> mn in front && mn.outpoint != list[|list| - 1].outpoint;
    }
  }

  lemma PayoutsListedOnce(list: seq<Masternode>, per: nat)
    requires ListedOnce(list)
    ensures Distinct(BuildPayouts(EligibleOf(list), per)) && Clean(BuildPayouts(EligibleOf(list), per))
  {
    EligibleListedOnce(list);
    DistinctIsClean(BuildPayouts(EligibleOf(list), per));
  }

  lemma DistinctIsClean(payouts: seq<Payout>)
    requires Distinct(payouts)
    ensures Clean(payouts)
  {
  }

  /** A flag local to one pass is enough: whatever was failed in earlier passes is
      either settled or failed again by this one. */
  lemma CleanPassIsRight(payouts: seq<Payout>, replies: seq<Answer>)
    requires AllOk(payouts) && Clean(payouts) && AllPossible(payouts, replies)
    ensures Right(Pass(payouts, replies), VerdictOf(Pass(payouts, replies), AnyFailed(payouts, replies)))
  {
    var after := Pass(payouts, replies);
    var skip := SkipOf(payouts);
    forall i | 0 <= i < |payouts|
      ensures after[i].Paid() || after[i].status.Failed?
      ensures after[i].status.Failed? <==> RaisesFlag(payouts[i], skip, replies[i])
    {
      assert Possible(payouts[i], skip, replies[i]);
    }
    if AnyFailed(payouts, replies) {
      var i :| 0 <= i < |payouts| && RaisesFlag(payouts[i], skip, replies[i]);
      assert after[i].status.Failed?;
    }
  }

  /** The luckiest node: everything that can be found or sent is. */
  function Lucky(payouts: seq<Payout>): (replies: seq<Answer>)
    ensures |replies| == |payouts|
  {
    seq(|payouts|, i requires 0 <= i < |payouts| => if payouts[i].txid.Some? then Found else Sent(0))
  }

  /** A payout that shares its outpoint with a paid one is passed over: left
      PENDING it keeps the cycle open, left FAILED it lets it end as COMPLETE. */
  lemma SharedOutpointGoesWrong(payouts: seq<Payout>, i: nat)
    requires AllOk(payouts) && i < |payouts| && payouts[i].txid.None? && payouts[i].outpoint in SkipOf(payouts)
    ensures AllPossible(payouts, Lucky(payouts)) && !AnyFailed(payouts, Lucky(payouts))
    ensures !Right(Pass(payouts, Lucky(payouts)), VerdictOf(Pass(payouts, Lucky(payouts)), false))
  {
    var after := Pass(payouts, Lucky(payouts));
    assert Skipped(payouts[i], SkipOf(payouts)) && after[i] == payouts[i] && payouts[i].Ok();
    assert !after[i].Paid();
  }

  /** A pass that reaches its end gives the right verdict, whatever the node
      answers, exactly when no unsent payout shares its outpoint with a paid one. */
  lemma PassIsRightIff(payouts: seq<Payout>)
    requires AllOk(payouts)
    ensures Clean(payouts) <==>
      forall replies | AllPossible(payouts, replies) ::
        Right(Pass(payouts, replies), VerdictOf(Pass(payouts, replies), AnyFailed(payouts, replies)))
  {
    if Clean(payouts) {
      forall replies | AllPossible(payouts, replies)
        ensures Right(Pass(payouts, replies), VerdictOf(Pass(payouts, replies), AnyFailed(payouts, replies)))
      {
        CleanPassIsRight(payouts, replies);
      }
    } else {
      var i :| 0 <= i < |payouts| && payouts[i].txid.None? && payouts[i].outpoint in SkipOf(payouts);
      SharedOutpointGoesWrong(payouts, i);
    }
  }

  /** For one outpoint listed twice: the second payout failed, or was not reached,
      before the process died; the next pass ends the cycle as COMPLETE, or can
      never end it. */
  lemma TwiceListedOutpoint(o: Outpoint, address: string)
    ensures var paid := Payout(o, address, 1, Broadcast, Some(0));
      var failed := [paid, Payout(o, address, 1, PayoutStatus.Failed, None)];
      var pending := [paid, Payout(o, address, 1, Pending, None)];
      && AllOk(failed) && AllOk(pending)
      && VerdictOf(Pass(failed, Lucky(failed)), AnyFailed(failed, Lucky(failed))) == AsComplete
      && Pass(failed, Lucky(failed))[1].status.Failed?
      && forall replies | |replies| == 2 :: Pass(pending, replies) == pending && VerdictOf(pending, false) == Open
  {
    var paid := Payout(o, address, 1, Broadcast, Some(0));
    var failed := [paid, Payout(o, address, 1, PayoutStatus.Failed, None)];
    var pending := [paid, Payout(o, address, 1, Pending, None)];
    assert failed[0].Paid() && pending[0].Paid();
    SharedOutpointGoesWrong(failed, 1);
    SharedOutpointGoesWrong(pending, 1);
    assert Pass(failed, Lucky(failed)) == failed;
    forall replies | |replies| == 2
      ensures Pass(pending, replies) == pending
    {
    }
    assert !pending[1].Final();
  }
}
