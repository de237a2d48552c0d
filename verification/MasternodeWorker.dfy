/** The masternode reward worker's code over its table and the FairCoin node. Any
    call may fail and the process may die between any two; the next tick starts
    from the table. Ticks do not overlap. */
module MasternodeWorker {
  import opened Wrappers
  import opened Environment
  import opened MasternodePayouts
  import opened MasternodeTable

  datatype CycleEnd = Idle | SkippedCycle | Passed | Interrupted

  method AnyList() returns (list: seq<Masternode>) { list := *; }

  class Worker {
    const cfg: Config
    var now: nat
    var cycles: seq<Cycle>
    var sends: seq<Send>
    ghost var lost: multiset<Site>

    ghost predicate Valid()
      reads this
    {
      TableOk(cfg, now, cycles, sends, lost)
    }

    constructor (cfg: Config, now: nat)
      ensures Valid() && this.cfg == cfg && cycles == [] && sends == []
    {
      this.cfg, this.now, cycles, sends, lost := cfg, now, [], [], multiset{};
    }

    /** The row a pass works on, and a payout of it. */
    ghost predicate At(i: nat, k: nat)
      reads this
    {
      Valid() && i < |cycles| && k < |cycles[i].payouts| && cycles[i].status.PayingOut?
    }

    method Elapse(ms: nat)
      requires Valid()
      modifies this`now
      ensures Valid() && now == old(now) + ms
    {
      now := now + ms;
    }

    // ---- one payout --------------------------------------------------------

    /** The send of a payout. */
    function SendOf(c: Cycle, i: nat, k: nat): Send
      requires k < |c.payouts|
    {
      Send(i, k, c.payouts[k].address, c.payouts[k].amount)
    }

    /** `markPayoutBroadcast`, `markPayoutFailed`. */
    method Mark(i: nat, k: nat, status: PayoutStatus)
      requires At(i, k) && (status.Broadcast? || status.Failed?)
      requires status.Broadcast? ==> cycles[i].payouts[k].txid.Some?
      modifies this`cycles
      ensures At(i, k) && Moves(old(cycles), sends, cycles, sends)
      ensures cycles == old(cycles)[i := WithPayout(old(cycles)[i], k, old(cycles)[i].payouts[k].(status := status))]
    {
      var p := cycles[i].payouts[k].(status := status);
      MarkKeepsTable(cfg, now, cycles, sends, lost, i, k, p);
      cycles := cycles[i := WithPayout(cycles[i], k, p)];
    }

    /** `broadcastPayout`, then `persistPayoutTxid`. */
    method SendAndPersist(env: Env, i: nat, k: nat) returns (r: Answer)
      requires At(i, k) && cycles[i].payouts[k].txid.None?
      modifies this`cycles, this`sends, this`lost, env
      ensures At(i, k) && Moves(old(cycles), old(sends), cycles, sends)
      ensures r.Rejected? || r.SentLost? || r == Sent(|old(sends)|)
      ensures sends == old(sends) + if r.Rejected? then [] else [SendOf(old(cycles)[i], i, k)]
      ensures lost == old(lost) + if r.SentLost? then multiset{(i, k)} else multiset{}
      ensures env.setbacks == old(env.setbacks) + (if r.Sent? then 0 else 1)
      ensures cycles == if r.Sent? then
        old(cycles)[i := WithPayout(old(cycles)[i], k, old(cycles)[i].payouts[k].(txid := Some(r.txid)))]
          else old(cycles)
    {
      var p := cycles[i].payouts[k];
      var reply := env.Ask();
      if reply != Yes { return Rejected; }
      FilingKeepsTable(cfg, now, cycles, sends, lost, i, k);
      LosingKeepsTable(cfg, now, cycles, sends, lost, i, k);
      var txid := |sends|;
      sends := sends + [Send(i, k, p.address, p.amount)];
      var dies := env.Dies();
      if dies {
        lost := lost + multiset{(i, k)};
        return SentLost;
      }
      cycles := cycles[i := WithPayout(cycles[i], k, p.(txid := Some(txid)))];
      r := Sent(txid);
    }

    /** The row of a pass that began with these payouts, at payout `k`. */
    ghost predicate Reached(i: nat, k: nat, c: Cycle, replies: seq<Answer>)
      reads this
    {
      && Valid() && i < |cycles| && cycles[i].status.PayingOut? && cycles[i] == c.(payouts := cycles[i].payouts)
      && |cycles[i].payouts| == |c.payouts| && k == |replies| <= |c.payouts|
      && AllOk(c.payouts)
      && (forall j :: 0 <= j < k ==>
            && Possible(c.payouts[j], SkipOf(c.payouts), replies[j])
            && cycles[i].payouts[j] == Settle(c.payouts[j], SkipOf(c.payouts), replies[j]))
      && (forall j :: k <= j < |c.payouts| ==> cycles[i].payouts[j] == c.payouts[j])
    }

    lemma StartsOk(i: nat)
      requires Valid() && i < |cycles|
      ensures AllOk(cycles[i].payouts)
    {
      assert CycleOk(cfg, cycles[i], i, sends);
      assert forall k :: 0 <= k < |cycles[i].payouts| ==> PayoutOk(cycles[i].payouts[k], cycles[i].per, i, k, sends);
    }

    /** A payout with a txid on file: looked up, never sent. Without a setback it is
        found. */
    method Reconcile(env: Env, i: nat, k: nat) returns (reply: Option<Answer>)
      requires At(i, k) && cycles[i].payouts[k].txid.Some?
      modifies this`cycles, env
      ensures At(i, k) && Moves(old(cycles), sends, cycles, sends)
      ensures reply.None? ==> cycles == old(cycles)
      ensures old(env.setbacks) <= env.setbacks && (reply != Some(Found) ==> env.setbacks > old(env.setbacks))
      ensures var p := old(cycles)[i].payouts[k];
        p.status.Broadcast? || p.status.Confirmed? ==> reply == Some(Found) && cycles == old(cycles)
      ensures var p := old(cycles)[i].payouts[k];
        reply.Some? ==>
          && Possible(p, {}, reply.value)
          && cycles == old(cycles)[i := WithPayout(old(cycles)[i], k, Settle(p, {}, reply.value))]
      ensures reply == Some(Found) ==>
        cycles[i].payouts[k].status.Broadcast? || cycles[i].payouts[k].status.Confirmed?
      ensures reply == Some(Missing) ==> cycles[i].payouts[k].status.Failed? && env.said == No
      ensures reply == Some(Found) ==> env.setbacks == old(env.setbacks)
      ensures var p := old(cycles)[i].payouts[k];
        !p.Paid() && env.said == No && env.setbacks == old(env.setbacks) + 1 ==> reply == Some(Missing)
    {
      var p := cycles[i].payouts[k];
      if p.Paid() {
        assert cycles[i] == WithPayout(cycles[i], k, p);
        return Some(Found);
      }
      var answer := env.Ask();
      if answer == Error { return None; }
      var known := answer == Yes;
      var dies := env.Dies();
      if dies { return None; }
      Mark(i, k, if known then Broadcast else PayoutStatus.Failed);
      reply := Some(if known then Found else Missing);
    }

    /** The status after a send, or after its failure: a failed write of
        BROADCAST is caught and the payout marked FAILED. */
    method MarkSent(env: Env, i: nat, k: nat, r: Answer, ghost p: Payout) returns (reply: Answer)
      requires At(i, k) && p.txid.None? && !p.Paid()
      requires r.Sent? || r.Rejected? || r.SentLost?
      requires cycles[i].payouts[k] == if r.Sent? then p.(txid := Some(r.txid)) else p
      modifies this`cycles, env
      ensures if r.Sent? then reply == r || reply == SentUnmarked(r.txid) else reply == r
      ensures env.setbacks == old(env.setbacks) + (if reply.SentUnmarked? then 1 else 0)
      ensures At(i, k) && Moves(old(cycles), sends, cycles, sends)
      ensures Possible(p, {}, reply) && cycles == old(cycles)[i := WithPayout(old(cycles)[i], k, Settle(p, {}, reply))]
    {
      reply := r;
      if r.Sent? {
        var fails := env.Dies();
        if fails { reply := SentUnmarked(r.txid); }
      }
      Mark(i, k, if reply.Sent? then Broadcast else PayoutStatus.Failed);
    }

    /** A payout without a txid: sent once; what fails after that marks it FAILED.
        Nothing is sent only when the node did not take it, and a txid is lost only
        when it could not be written; each is a setback. */
    method SendPayout(env: Env, i: nat, k: nat) returns (reply: Option<Answer>)
      requires At(i, k) && cycles[i].payouts[k].txid.None?
      modifies this`cycles, this`sends, this`lost, env
      ensures At(i, k) && Moves(old(cycles), old(sends), cycles, sends) && |sends| <= |old(sends)| + 1
      ensures |cycles| == |old(cycles)|
      ensures old(env.setbacks) <= env.setbacks
      ensures env.setbacks == old(env.setbacks) ==>
        && reply == Some(Sent(|old(sends)|)) && lost == old(lost)
        && sends == old(sends) + [SendOf(old(cycles)[i], i, k)]
      ensures reply.Some? && reply.value.Rejected? ==> sends == old(sends)
      ensures cycles[i] == WithPayout(old(cycles)[i], k, cycles[i].payouts[k])
      ensures var p := old(cycles)[i].payouts[k];
        reply.Some? ==> Possible(p, {}, reply.value) && cycles[i].payouts[k] == Settle(p, {}, reply.value)
    {
      ghost var p := cycles[i].payouts[k];
      var r := SendAndPersist(env, i, k);
      var dies := env.Dies();
      if dies {
        assert WithPayout(old(cycles)[i], k, cycles[i].payouts[k]) == cycles[i];
        return None;
      }
      ghost var cs, ss := cycles, sends;
      var marked := MarkSent(env, i, k, r, p);
      MovesOn(old(cycles), old(sends), cs, ss, cycles, sends);
      reply := Some(marked);
    }

    /** One iteration of the loop; `None` is a throw out of it. */
    method Iterate(env: Env, i: nat, k: nat, skip: set<Outpoint>, ghost c: Cycle, ghost replies: seq<Answer>)
      returns (reply: Option<Answer>)
      requires Reached(i, k, c, replies) && k < |c.payouts| && skip == SkipOf(c.payouts)
      modifies this`cycles, this`sends, this`lost, env
      ensures Valid() && Moves(old(cycles), old(sends), cycles, sends) && |cycles| == |old(cycles)|
      ensures old(env.setbacks) <= env.setbacks && (reply.None? ==> env.setbacks > old(env.setbacks))
      ensures reply.Some? ==> Reached(i, k + 1, c, replies + [reply.value])
      ensures reply.Some? && RaisesFlag(c.payouts[k], skip, reply.value) ==> env.setbacks > old(env.setbacks)
      ensures env.setbacks == old(env.setbacks) ==> lost == old(lost)
    {
      var p := cycles[i].payouts[k];
      if p.txid.Some? {
        reply := Reconcile(env, i, k);
      } else if p.outpoint in skip {
        reply := Some(Found);
      } else {
        reply := SendPayout(env, i, k);
      }
    }

    /** `executeCycle`. If the pass reaches its end, the payouts are what the pass
        specified makes of the answers `replies`, and the row ends with the
        verdict the pass comes to. Without a setback it reaches its end, every payout
        has a txid but for those passed over, and none was lost. */
    method ExecuteCycle(env: Env, i: nat) returns (finished: bool, ghost replies: seq<Answer>)
      requires Valid() && i < |cycles| && cycles[i].status.PayingOut?
      modifies this`cycles, this`sends, this`lost, env
      ensures Valid() && Moves(old(cycles), old(sends), cycles, sends) && |cycles| == |old(cycles)|
      ensures old(env.setbacks) <= env.setbacks && (!finished ==> env.setbacks > old(env.setbacks))
      ensures finished ==> Executed(old(cycles)[i], cycles[i], replies)
      ensures env.setbacks == old(env.setbacks) ==>
        !AnyFailed(old(cycles)[i].payouts, replies) && PaidOut(old(cycles)[i].payouts, cycles[i].payouts)
          && lost == old(lost)
    {
      ghost var c := cycles[i];
      var skip := SkipOf(cycles[i].payouts);
      var anyFailed := false;
      replies := [];
      StartsOk(i);
      var k := 0;
      while k < |cycles[i].payouts|
        invariant Reached(i, k, c, replies) && |cycles| == |old(cycles)|
        invariant Moves(old(cycles), old(sends), cycles, sends) && old(env.setbacks) <= env.setbacks
        invariant anyFailed <==> exists j :: 0 <= j < k && RaisesFlag(c.payouts[j], skip, replies[j])
        invariant anyFailed ==> env.setbacks > old(env.setbacks)
        invariant env.setbacks == old(env.setbacks) ==> lost == old(lost)
        decreases |c.payouts| - k
      {
        ghost var cs, ss := cycles, sends;
        var p := cycles[i].payouts[k];
        var reply := Iterate(env, i, k, skip, c, replies);
        MovesOn(old(cycles), old(sends), cs, ss, cycles, sends);
        if reply.None? { return false, replies; }
        FlagRaised(c.payouts, skip, replies, reply.value);
        anyFailed := anyFailed || RaisesFlag(p, skip, reply.value);
        replies := replies + [reply.value];
        k := k + 1;
      }
      ghost var cs, ss := cycles, sends;
      finished := Finalise(env, i, anyFailed, c, replies);
      if env.setbacks == old(env.setbacks) { AllPaidOut(c.payouts, replies); }
      MovesOn(old(cycles), old(sends), cs, ss, cycles, sends);
    }

    /** The end of `executeCycle`: the verdict is written. */
    method Finalise(env: Env, i: nat, anyFailed: bool, ghost c: Cycle, ghost replies: seq<Answer>)
      returns (finished: bool)
      requires Reached(i, |c.payouts|, c, replies)
      requires anyFailed <==> AnyFailed(c.payouts, replies)
      modifies this`cycles, this`sends, this`lost, env
      ensures Valid() && Moves(old(cycles), old(sends), cycles, sends) && |cycles| == |old(cycles)|
      ensures old(env.setbacks) <= env.setbacks && (!finished ==> env.setbacks > old(env.setbacks))
      ensures finished ==> Executed(c, cycles[i], replies)
      ensures lost == old(lost)
    {
      assert cycles[i].payouts == Pass(c.payouts, replies);
      var dies := env.Dies();
      if dies { return false; }
      var v := VerdictOf(cycles[i].payouts, anyFailed);
      if !v.Open? {
        ghost var row := cycles[i];
        if Distinct(row.payouts) { FinalVerdictIsRight(c, row, replies); }
        var status := if v.AsComplete? then Complete else CycleStatus.Failed;
        StatusKeepsTable(cfg, now, cycles, sends, lost, i, status);
        cycles := cycles[i := cycles[i].(status := status)];
      }
      finished := true;
    }

    // ---- one tick ----------------------------------------------------------

    /** `claimResumableCycle`. */
    method ClaimResumable() returns (claimed: Option<nat>)
      requires Valid()
      modifies this`cycles
      ensures Valid() && Moves(old(cycles), sends, cycles, sends) && |cycles| == |old(cycles)|
      ensures claimed.Some? ==>
        && old(cycles) != [] && claimed.value == |cycles| - 1 && LastRow(old(cycles)).InFlight()
        && cycles == old(cycles)[claimed.value := LastRow(old(cycles)).(status := PayingOut)]
      ensures claimed.None? ==> cycles == old(cycles)
      ensures claimed.None? <==> NoneInFlight(old(cycles))
    {
      var n := |cycles|;
      if n == 0 || !cycles[n - 1].InFlight() { return None; }
      StatusKeepsTable(cfg, now, cycles, sends, lost, n - 1, PayingOut);
      cycles := cycles[n - 1 := cycles[n - 1].(status := PayingOut)];
      claimed := Some(n - 1);
    }

    /** `MasternodeRewardCycle.create`, of a skip row or of a payout cycle. */
    method Create(pool: nat, per: nat, payouts: seq<Payout>, cutoff: int)
      requires Valid() && cutoff <= now - cfg.intervalMs
      requires forall i :: 0 <= i < |cycles| ==> !cycles[i].InFlight() && cycles[i].triggeredAt < cutoff
      requires forall k :: 0 <= k < |payouts| ==>
        payouts[k].txid.None? && payouts[k].status.Pending? && payouts[k].amount == per
      requires payouts != [] ==> per > 0 && per == PerMasternodeSats(pool, |payouts|, cfg.feeSats)
      modifies this`cycles
      ensures Valid() && Moves(old(cycles), sends, cycles, sends)
      ensures cycles
        == old(cycles) + [Cycle(now, pool, per, payouts, if payouts == [] then CycleStatus.Skipped else PayingOut)]
    {
      var c := Cycle(now, pool, per, payouts, if payouts == [] then CycleStatus.Skipped else PayingOut);
      PayoutsAreFunded(pool, |payouts|, cfg.feeSats);
      CreatingKeepsTable(cfg, now, cycles, sends, lost, c);
      cycles := cycles + [c];
    }

    predicate AllPaid(c: Cycle) {
      forall k :: 0 <= k < |c.payouts| ==>
        c.payouts[k].txid.Some? && (c.payouts[k].status.Broadcast? || c.payouts[k].status.Confirmed?)
    }

    function LastRow(cs: seq<Cycle>): Cycle
      requires cs != []
    {
      cs[|cs| - 1]
    }

    predicate NoneInFlight(cs: seq<Cycle>) {
      forall i :: 0 <= i < |cs| ==> !cs[i].status.Pending? && !cs[i].status.PayingOut?
    }

    /** Some row was triggered at or after the cutoff. */
    predicate Recent(cs: seq<Cycle>, cutoff: int) {
      exists i :: 0 <= i < |cs| && cs[i].triggeredAt >= cutoff
    }

    /** A pass over the row that was in flight came to its end. */
    ghost predicate PassedOver(c: Cycle, c': Cycle) {
      exists replies :: Executed(c.(status := PayingOut), c', replies)
    }

    /** What a row in flight has become when nothing went wrong: paid out, and, over
        distinct outpoints, COMPLETE. */
    predicate Resumed(c: Cycle, c': Cycle) {
      PaidOut(c.payouts, c'.payouts) && (Distinct(c.payouts) ==> c'.status.Complete?)
    }

    /** What a new row has become when nothing went wrong. */
    predicate Served(c: Cycle) {
      AllPaid(c) && (c.status.Skipped? || c.status.Complete?)
    }

    /** The row a payout cycle begins with. */
    function NewRow(at: nat, pool: nat, list: seq<Masternode>): Cycle {
      var eligible := EligibleOf(list);
      var per := PerMasternodeSats(pool, |eligible|, cfg.feeSats);
      Cycle(at, pool, per, BuildPayouts(eligible, per), PayingOut)
    }

    lemma ResumedWell(c: Cycle, c': Cycle, replies: seq<Answer>)
      requires Executed(c, c', replies) && !AnyFailed(c.payouts, replies) && AllOk(c.payouts) && c.InFlight()
      ensures Resumed(c, c')
    {
      AllPaidOut(c.payouts, replies);
      if Distinct(c.payouts) { DistinctIsClean(c.payouts); }
      assert forall k :: 0 <= k < |c'.payouts| && c'.payouts[k].Paid() ==> c'.payouts[k].Final();
    }

    /** `runMasternodeRewardTick`, with the pool and the list the node reports. A
        tick resumes the cycle in flight, or does nothing within an interval of
        any earlier row, or adds one row: a skip, or a cycle paying every eligible
        masternode its share. It has passed only after a pass over the row came to
        its end; without a setback a row in flight is paid out, and a new one served. */
    method RunTick(env: Env, pool: nat, list: seq<Masternode>) returns (end: CycleEnd)
      requires Valid()
      modifies this, env
      ensures Valid() && Moves(old(cycles), old(sends), cycles, sends)
      ensures |cycles| <= |old(cycles)| + 1
      ensures |cycles| > |old(cycles)| ==> Fresh(LastRow(cycles), pool, list)
      ensures end.SkippedCycle? ==> |cycles| > |old(cycles)| && LastRow(cycles).status.Skipped?
      ensures end.Idle? || end.SkippedCycle? ==> sends == old(sends)
      ensures end.Idle? ==> cycles == old(cycles) && NoneInFlight(cycles) && Recent(cycles, old(now) - cfg.intervalMs)
      ensures NoneInFlight(old(cycles)) && Recent(old(cycles), old(now) - cfg.intervalMs) ==>
        end.Idle? || end.Interrupted?
      ensures old(env.setbacks) <= env.setbacks && (end.Interrupted? ==> env.setbacks > old(env.setbacks))
      ensures end.Idle? || end.SkippedCycle? ==> NoneInFlight(old(cycles))
      ensures |cycles| > |old(cycles)| ==> NoneInFlight(old(cycles))
      ensures NoneInFlight(old(cycles)) && end.Passed? ==>
        && |cycles| > |old(cycles)|
        && PassedOver(NewRow(LastRow(cycles).triggeredAt, pool, list), LastRow(cycles))
      ensures !NoneInFlight(old(cycles)) && end.Passed? ==> PassedOver(LastRow(old(cycles)), LastRow(cycles))
      ensures !NoneInFlight(old(cycles)) && env.setbacks == old(env.setbacks) ==>
        end.Passed? && Resumed(LastRow(old(cycles)), LastRow(cycles))
      ensures |cycles| > |old(cycles)| && env.setbacks == old(env.setbacks) ==> Served(LastRow(cycles))
      ensures now >= old(now)
      ensures NoneInFlight(old(cycles)) && env.setbacks == old(env.setbacks) ==>
        Recent(cycles, old(now) - cfg.intervalMs)
    {
      var dies := env.Dies();
      if dies { return Interrupted; }
      var resumed := ResumeInFlight(env);
      if resumed.Some? { return resumed.value; }
      end := NewTick(env, pool, list);
    }

    /** The row in flight, if any, is claimed and passed over. */
    method ResumeInFlight(env: Env) returns (end: Option<CycleEnd>)
      requires Valid()
      modifies this`cycles, this`sends, this`lost, env
      ensures Valid() && Moves(old(cycles), old(sends), cycles, sends) && |cycles| == |old(cycles)|
      ensures old(env.setbacks) <= env.setbacks
      ensures end.None? <==> NoneInFlight(old(cycles))
      ensures end.None? ==>
        cycles == old(cycles) && sends == old(sends) && env.setbacks == old(env.setbacks)
      ensures end.Some? ==> cycles != [] && (end.value.Passed? || end.value.Interrupted?)
      ensures end.Some? && end.value.Interrupted? ==> env.setbacks > old(env.setbacks)
      ensures end.Some? && end.value.Passed? ==> PassedOver(LastRow(old(cycles)), LastRow(cycles))
      ensures end.Some? && env.setbacks == old(env.setbacks) ==> Resumed(LastRow(old(cycles)), LastRow(cycles))
    {
      var claimed := ClaimResumable();
      if claimed.None? { return None; }
      ghost var cs, ss, row := cycles, sends, cycles[claimed.value];
      var passed := Resume(env, claimed.value);
      MovesOn(old(cycles), ss, cs, ss, cycles, sends);
      assert LastRow(cycles) == cycles[claimed.value];
      ClaimedIsTheSame(LastRow(old(cycles)), row, LastRow(cycles));
      end := Some(passed);
    }

    lemma ClaimedIsTheSame(c: Cycle, claimed: Cycle, c': Cycle)
      requires claimed == c.(status := PayingOut)
      ensures PassedOver(claimed, c') ==> PassedOver(c, c')
      ensures Resumed(claimed, c') ==> Resumed(c, c')
    {
    }

    /** The tick with no row in flight: the cadence gate, and a new row past it. */
    method NewTick(env: Env, pool: nat, list: seq<Masternode>) returns (end: CycleEnd)
      requires Valid() && NoneInFlight(cycles)
      modifies this, env
      ensures Valid() && Moves(old(cycles), old(sends), cycles, sends) && |cycles| <= |old(cycles)| + 1
      ensures |cycles| > |old(cycles)| ==> Fresh(LastRow(cycles), pool, list)
      ensures end.SkippedCycle? ==> |cycles| > |old(cycles)| && LastRow(cycles).status.Skipped?
      ensures end.Idle? || end.SkippedCycle? ==> sends == old(sends)
      ensures end.Idle? ==> cycles == old(cycles)
      ensures end.Idle? ==> Recent(old(cycles), old(now) - cfg.intervalMs)
      ensures Recent(old(cycles), old(now) - cfg.intervalMs) ==> end.Idle?
      ensures old(env.setbacks) <= env.setbacks && (end.Interrupted? ==> env.setbacks > old(env.setbacks))
      ensures end.Passed? ==>
        && |cycles| > |old(cycles)|
        && PassedOver(NewRow(LastRow(cycles).triggeredAt, pool, list), LastRow(cycles))
      ensures |cycles| > |old(cycles)| && env.setbacks == old(env.setbacks) ==> Served(LastRow(cycles))
      ensures now >= old(now) && (env.setbacks == old(env.setbacks) ==> Recent(cycles, old(now) - cfg.intervalMs))
    {
      var cutoff := now - cfg.intervalMs;
      if Recent(cycles, cutoff) { return Idle; }
      var ms := AnyCount();
      Elapse(ms);
      var dies := env.Dies();
      if dies { return Interrupted; }
      end := StartCycle(env, pool, list, cutoff);
    }

    /** The pass over a cycle, as it was claimed or as it was created. */
    method Resume(env: Env, i: nat) returns (end: CycleEnd)
      requires Valid() && i < |cycles| && cycles[i].status.PayingOut?
      modifies this`cycles, this`sends, this`lost, env
      ensures Valid() && Moves(old(cycles), old(sends), cycles, sends) && |cycles| == |old(cycles)|
      ensures old(env.setbacks) <= env.setbacks && (end.Interrupted? ==> env.setbacks > old(env.setbacks))
      ensures end.Passed? || end.Interrupted?
      ensures end.Passed? ==> PassedOver(old(cycles)[i], cycles[i])
      ensures env.setbacks == old(env.setbacks) ==> Resumed(old(cycles)[i], cycles[i])
    {
      ghost var c := cycles[i];
      StartsOk(i);
      var finished, replies := ExecuteCycle(env, i);
      if finished { assert Executed(c.(status := PayingOut), cycles[i], replies); }
      if env.setbacks == old(env.setbacks) { ResumedWell(c, cycles[i], replies); }
      end := if finished then Passed else Interrupted;
    }

    /** The part of the tick past the cadence gate. */
    method StartCycle(env: Env, pool: nat, list: seq<Masternode>, cutoff: int) returns (end: CycleEnd)
      requires Valid() && cutoff <= now - cfg.intervalMs
      requires forall i :: 0 <= i < |cycles| ==> !cycles[i].InFlight() && cycles[i].triggeredAt < cutoff
      modifies this`cycles, this`sends, this`lost, env
      ensures Valid() && Moves(old(cycles), old(sends), cycles, sends) && |cycles| == |old(cycles)| + 1
      ensures Fresh(cycles[|old(cycles)|], pool, list)
      ensures LastRow(cycles).triggeredAt == old(now)
      ensures old(env.setbacks) <= env.setbacks && (end.Interrupted? ==> env.setbacks > old(env.setbacks))
      ensures !end.Idle? && (end.SkippedCycle? ==> cycles[|old(cycles)|].status.Skipped? && sends == old(sends))
      ensures end.Passed? ==> PassedOver(NewRow(LastRow(cycles).triggeredAt, pool, list), LastRow(cycles))
      ensures env.setbacks == old(env.setbacks) ==> Served(LastRow(cycles))
    {
      var eligible := EligibleOf(list);
      var per := PerMasternodeSats(pool, |eligible|, cfg.feeSats);
      if pool < cfg.minBalanceSats || |eligible| == 0 || per == 0 {
        Create(pool, 0, [], cutoff);
        return SkippedCycle;
      }
      end := PayEligible(env, pool, list, per, cutoff);
    }

    /** The first pass over a new row. */
    method FirstPass(env: Env, i: nat, ghost pool: nat, ghost list: seq<Masternode>) returns (end: CycleEnd)
      requires Valid() && i == |cycles| - 1 && EligibleOf(list) != [] && pool >= cfg.minBalanceSats
      requires cycles[i] == NewRow(cycles[i].triggeredAt, pool, list) && cycles[i].per > 0
      modifies this`cycles, this`sends, this`lost, env
      ensures Valid() && Moves(old(cycles), old(sends), cycles, sends) && |cycles| == |old(cycles)|
      ensures Fresh(cycles[i], pool, list) && cycles[i].triggeredAt == old(cycles)[i].triggeredAt
      ensures old(env.setbacks) <= env.setbacks && (end.Interrupted? ==> env.setbacks > old(env.setbacks))
      ensures end.Passed? || end.Interrupted?
      ensures end.Passed? ==> PassedOver(old(cycles)[i], cycles[i])
      ensures env.setbacks == old(env.setbacks) ==> Served(cycles[i])
    {
      ghost var c := cycles[i];
      assert Fresh(c, pool, list);
      var dies := env.Dies();
      if dies { return Interrupted; }
      end := Resume(env, i);
      FreshStays(c, cycles[i], pool, list);
      if env.setbacks == old(env.setbacks) { NewRowIsServed(c, cycles[i]); }
    }

    /** The payout cycle: the row, then its first pass. */
    method PayEligible(env: Env, pool: nat, list: seq<Masternode>, per: nat, cutoff: int) returns (end: CycleEnd)
      requires Valid() && cutoff <= now - cfg.intervalMs
      requires forall i :: 0 <= i < |cycles| ==> !cycles[i].InFlight() && cycles[i].triggeredAt < cutoff
      requires EligibleOf(list) != [] && pool >= cfg.minBalanceSats
      requires per == PerMasternodeSats(pool, |EligibleOf(list)|, cfg.feeSats) && per > 0
      modifies this`cycles, this`sends, this`lost, env
      ensures Valid() && Moves(old(cycles), old(sends), cycles, sends) && |cycles| == |old(cycles)| + 1
      ensures Fresh(cycles[|old(cycles)|], pool, list)
      ensures LastRow(cycles).triggeredAt == old(now)
      ensures old(env.setbacks) <= env.setbacks && (end.Interrupted? ==> env.setbacks > old(env.setbacks))
      ensures end.Passed? || end.Interrupted?
      ensures end.Passed? ==> PassedOver(NewRow(LastRow(cycles).triggeredAt, pool, list), LastRow(cycles))
      ensures env.setbacks == old(env.setbacks) ==> Served(LastRow(cycles))
    {
      Create(pool, per, BuildPayouts(EligibleOf(list), per), cutoff);
      ghost var cs := cycles;
      end := FirstPass(env, |cycles| - 1, pool, list);
      MovesOn(old(cycles), old(sends), cs, old(sends), cycles, sends);
    }

    /** Why a row was created: a skip for one of the three reasons, or a payout
        for each eligible masternode, in order, of the same funded amount. */
    predicate Fresh(c: Cycle, pool: nat, list: seq<Masternode>)
    {
      var eligible := EligibleOf(list);
      var per := PerMasternodeSats(pool, |eligible|, cfg.feeSats);
      && c.pool == pool
      && (c.status.Skipped? <==> pool < cfg.minBalanceSats || |eligible| == 0 || per == 0)
      && (c.status.Skipped? ==> c.payouts == [])
      && (!c.status.Skipped? ==>
            && c.per == per && |c.payouts| == |eligible|
            && forall k :: 0 <= k < |eligible| ==> PaysMasternode(c.payouts[k], eligible[k], per))
    }

    predicate PaysMasternode(p: Payout, mn: Masternode, per: nat) {
      p.outpoint == mn.outpoint && p.address == mn.address && p.amount == per
    }

    /** Nothing of a new row is passed over, so it ends. */
    lemma NewRowIsServed(c: Cycle, c': Cycle)
      requires Resumed(c, c') && forall k :: 0 <= k < |c.payouts| ==> c.payouts[k].txid.None?
      requires exists replies :: Executed(c, c', replies)
      ensures Served(c')
    {
      assert SkipOf(c.payouts) == {};
      var replies :| Executed(c, c', replies);
    }

    lemma FreshStays(c: Cycle, c': Cycle, pool: nat, list: seq<Masternode>)
      requires Fresh(c, pool, list) && RowKept(c, c') && c.InFlight()
      ensures Fresh(c', pool, list)
    {
      assert forall k :: 0 <= k < |c.payouts| ==> PayoutKept(c.payouts[k], c'.payouts[k]);
    }

    function Total(ms: seq<nat>): nat {
      if ms == [] then 0 else Total(ms[..|ms| - 1]) + ms[|ms| - 1]
    }

    /** Any number of ticks, one after the other, after these pauses and with these
        reports of the node. */
    method RunTicks(env: Env, ms: seq<nat>, pools: seq<nat>, lists: seq<seq<Masternode>>)
      requires Valid() && |ms| == |pools| == |lists|
      modifies this, env
      ensures Valid() && Moves(old(cycles), old(sends), cycles, sends)
      ensures Spaced(cfg, cycles) && forall i :: 0 <= i < |cycles| - 1 ==> !cycles[i].InFlight()
      ensures old(env.setbacks) <= env.setbacks
      ensures env.setbacks == old(env.setbacks) ==> Smooth(old(cycles), cycles, |ms|)
      ensures env.setbacks == old(env.setbacks) && ms != [] && NoneInFlight(old(cycles)) ==>
        Recent(cycles, old(now) + Total(ms) - cfg.intervalMs)
    {
      ghost var a, sendsA, at, before := cycles, sends, now, env.setbacks;
      for k := 0 to |ms|
        invariant Going(a, sendsA, at, ms, k, env.setbacks == before) && before <= env.setbacks
      {
        OneTick(env, ms, pools[k], lists[k], k, a, sendsA, at, before);
      }
      assert ms[..|ms|] == ms;
    }

    /** How far the ticks have come. */
    ghost predicate Going(a: seq<Cycle>, sendsA: seq<Send>, at: nat, ms: seq<nat>, k: nat, smoothly: bool)
      requires k <= |ms|
      reads this
    {
      && Valid() && Moves(a, sendsA, cycles, sends) && now >= at + Total(ms[..k])
      && (k == 0 ==> cycles == a)
      && (smoothly ==> Smooth(a, cycles, k))
      && (smoothly && NoneInFlight(a) ==> NoneInFlight(cycles))
      && (smoothly && NoneInFlight(a) && k > 0 ==> Recent(cycles, at + Total(ms[..k]) - cfg.intervalMs))
    }

    /** One of the ticks. */
    method OneTick(env: Env, ms: seq<nat>, pool: nat, list: seq<Masternode>, k: nat,
                   ghost a: seq<Cycle>, ghost sendsA: seq<Send>, ghost at: nat, ghost before: nat)
      requires k < |ms| && Going(a, sendsA, at, ms, k, env.setbacks == before) && before <= env.setbacks
      modifies this, env
      ensures Going(a, sendsA, at, ms, k + 1, env.setbacks == before) && before <= env.setbacks
    {
      ghost var cs, ss := cycles, sends;
      Elapse(ms[k]);
      assert ms[..k + 1][..k] == ms[..k];
      var end := RunTick(env, pool, list);
      if env.setbacks == before {
        SmoothOn(a, cs, ss, cycles, sends, k);
        if NoneInFlight(a) { StillNoneInFlight(cs, ss, cycles, sends); }
      }
      MovesOn(a, sendsA, cs, ss, cycles, sends);
    }

    lemma StillNoneInFlight(b: seq<Cycle>, sendsB: seq<Send>, c: seq<Cycle>, sendsC: seq<Send>)
      requires NoneInFlight(b) && Moves(b, sendsB, c, sendsC) && |c| <= |b| + 1
      requires |c| > |b| ==> Served(LastRow(c))
      ensures NoneInFlight(c)
    {
      forall i | 0 <= i < |c|
        ensures !c[i].InFlight()
      {
        if i < |b| { assert RowKept(b[i], c[i]); }
      }
    }

    /** What any number of ticks without a setback make of the rows: one that was in
        flight, over distinct outpoints, is paid out and COMPLETE after the first, and
        every new row is served. */
    predicate Smooth(cs: seq<Cycle>, cs': seq<Cycle>, n: nat) {
      && |cs| <= |cs'|
      && (n > 0 && cs != [] && LastRow(cs).InFlight() && Distinct(LastRow(cs).payouts) ==>
            Resumed(LastRow(cs), cs'[|cs| - 1]))
      && (forall i :: |cs| <= i < |cs'| ==> Served(cs'[i]))
    }

    lemma SmoothOn(a: seq<Cycle>, b: seq<Cycle>, sendsB: seq<Send>, c: seq<Cycle>, sendsC: seq<Send>, n: nat)
      requires Smooth(a, b, n) && Moves(b, sendsB, c, sendsC) && |c| <= |b| + 1 && (n == 0 ==> b == a)
      requires |c| > |b| ==> Served(LastRow(c))
      requires b != [] && LastRow(b).InFlight() ==> |c| == |b| && Resumed(LastRow(b), LastRow(c))
      ensures Smooth(a, c, n + 1)
    {
      forall i | |a| <= i < |c|
        ensures Served(c[i])
      {
        if i < |b| { assert RowKept(b[i], c[i]); }
      }
      if n > 0 && a != [] { assert RowKept(b[|a| - 1], c[|a| - 1]); }
    }
  }

  /** What a pass that reached its end did to the row `c`. */
  ghost predicate Executed(c: Cycle, c': Cycle, replies: seq<Answer>) {
    && AllPossible(c.payouts, replies) && c'.payouts == Pass(c.payouts, replies)
    && c'.status == (match VerdictOf(c'.payouts, AnyFailed(c.payouts, replies))
         case Open => c.status
         case AsComplete => Complete
         case AsFailed => CycleStatus.Failed)
  }

  /** Every payout has its txid, but for one without a txid that shares its outpoint
      with a paid one. */
  predicate PaidOut(payouts: seq<Payout>, payouts': seq<Payout>) {
    && |payouts'| == |payouts|
    && forall k :: 0 <= k < |payouts| && (payouts[k].txid.Some? || !PaidAt(payouts, payouts[k].outpoint)) ==>
         payouts'[k].txid.Some? && (payouts'[k].status.Broadcast? || payouts'[k].status.Confirmed?)
  }

  lemma AllPaidOut(payouts: seq<Payout>, replies: seq<Answer>)
    requires AllOk(payouts) && AllPossible(payouts, replies) && !AnyFailed(payouts, replies)
    ensures PaidOut(payouts, Pass(payouts, replies))
  {
    forall k | 0 <= k < |payouts| && (payouts[k].txid.Some? || !PaidAt(payouts, payouts[k].outpoint))
      ensures Pass(payouts, replies)[k].txid.Some?
      ensures Pass(payouts, replies)[k].status.Broadcast? || Pass(payouts, replies)[k].status.Confirmed?
    {
      SkipsWhatIsPaid(payouts, payouts[k].outpoint);
      assert Possible(payouts[k], SkipOf(payouts), replies[k]) && payouts[k].Ok();
      assert !RaisesFlag(payouts[k], SkipOf(payouts), replies[k]);
    }
  }

  lemma FlagRaised(payouts: seq<Payout>, skip: set<Outpoint>, replies: seq<Answer>, reply: Answer)
    requires |replies| < |payouts|
    ensures (exists j :: 0 <= j < |replies| + 1 && RaisesFlag(payouts[j], skip, (replies + [reply])[j])) <==>
      (exists j :: 0 <= j < |replies| && RaisesFlag(payouts[j], skip, replies[j]))
        || RaisesFlag(payouts[|replies|], skip, reply)
  {
    var more := replies + [reply];
    forall j | 0 <= j < |replies| ensures more[j] == replies[j] {}
    if RaisesFlag(payouts[|replies|], skip, reply) { assert RaisesFlag(payouts[|replies|], skip, more[|replies|]); }
    if j :| 0 <= j < |replies| && RaisesFlag(payouts[j], skip, replies[j]) {
      assert RaisesFlag(payouts[j], skip, more[j]);
    }
  }

  /** A pass changes no outpoint, so over a row with distinct outpoints it began
      clean, and its verdict is right. */
  lemma FinalVerdictIsRight(c: Cycle, row: Cycle, replies: seq<Answer>)
    requires AllPossible(c.payouts, replies) && row.payouts == Pass(c.payouts, replies)
    requires AllOk(c.payouts) && Distinct(row.payouts)
    ensures Right(row.payouts, VerdictOf(row.payouts, AnyFailed(c.payouts, replies)))
  {
    forall i, j | 0 <= i < j < |c.payouts|
      ensures c.payouts[i].outpoint != c.payouts[j].outpoint
    {
      assert row.payouts[i].outpoint != row.payouts[j].outpoint;
    }
    DistinctIsClean(c.payouts);
    CleanPassIsRight(c.payouts, replies);
  }
}
