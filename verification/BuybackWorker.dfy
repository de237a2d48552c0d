/** The buyback worker's code over its table and the chain. Any call may fail and
    the process may die between any two; the next tick starts from the table. */
module BuybackWorker {
  import opened Wrappers
  import opened Environment
  import opened Buyback

  datatype Receipt = Success | Revert | NoAnswer
  datatype CycleEnd = NothingToDo | Finished | Interrupted

  /** Every row is in a state of the pipeline, every broadcast is accounted for,
      and only the last row can be open. */
  predicate TableOk(cfg: SplitConfig, cs: seq<Cycle>, txs: seq<Tx>, lost: multiset<(nat, nat)>) {
    && cfg.Ok()
    && (forall i :: 0 <= i < |cs| ==> CycleOk(cfg, cs[i], i, txs))
    && (forall i, k :: 0 <= i < |cs| && 0 <= k < 4 ==> Accounted(cs, txs, lost, i, k))
    && (forall t :: 0 <= t < |txs| ==> txs[t].cycle < |cs|)
    && (forall p :: p in lost ==> p.0 < |cs|)
    && (forall i :: 0 <= i < |cs| - 1 ==> !cs[i].Open())
  }

  /** A row's new columns, with its hashes as they were. */
  lemma UpdateKeepsTable(cfg: SplitConfig, cs: seq<Cycle>, txs: seq<Tx>, lost: multiset<(nat, nat)>, i: nat, c: Cycle)
    requires TableOk(cfg, cs, txs, lost) && i == |cs| - 1 && CycleOk(cfg, c, i, txs)
    requires c.hashes == cs[i].hashes && RowKept(cs[i], c)
    ensures TableOk(cfg, cs[i := c], txs, lost) && Moves(cs, txs, cs[i := c], txs)
  {
    var cs' := cs[i := c];
    forall j, k | 0 <= j < |cs| && 0 <= k < 4
      ensures Accounted(cs', txs, lost, j, k)
    {
      assert Accounted(cs, txs, lost, j, k);
    }
  }

  lemma BroadcastKeepsOthers(cfg: SplitConfig, cs: seq<Cycle>, txs: seq<Tx>, lost: multiset<(nat, nat)>, tx: Tx)
    requires TableOk(cfg, cs, txs, lost) && tx.cycle < |cs|
    ensures forall i :: 0 <= i < |cs| ==> CycleOk(cfg, cs[i], i, txs + [tx])
    ensures forall i, k :: 0 <= i < |cs| && 0 <= k < 4 && (i != tx.cycle || k != tx.step) ==>
      Accounted(cs, txs + [tx], lost, i, k)
    ensures forall t :: 0 <= t < |txs + [tx]| ==> (txs + [tx])[t].cycle < |cs|
  {
    forall i | 0 <= i < |cs|
      ensures CycleOk(cfg, cs[i], i, txs + [tx])
    {
      LongerChainKeepsCycle(cfg, cs[i], i, txs, txs + [tx]);
    }
    forall i, k | 0 <= i < |cs| && 0 <= k < 4 && (i != tx.cycle || k != tx.step)
      ensures Accounted(cs, txs + [tx], lost, i, k)
    {
      assert Accounted(cs, txs, lost, i, k);
      BroadcastsAppend(txs, tx, i, k);
    }
  }

  lemma OneMoreLost(lost: multiset<(nat, nat)>, p: (nat, nat), q: (nat, nat))
    ensures (lost + multiset{p})[q] == lost[q] + (if p == q then 1 else 0)
  {
  }

  lemma LossIsAccounted(cs: seq<Cycle>, txs: seq<Tx>, lost: multiset<(nat, nat)>, tx: Tx, i: nat, k: nat)
    requires i < |cs| && Accounted(cs, txs, lost, i, k)
    ensures Accounted(cs, txs + [tx], lost + multiset{(tx.cycle, tx.step)}, i, k)
  {
    BroadcastsAppend(txs, tx, i, k);
    OneMoreLost(lost, (tx.cycle, tx.step), (i, k));
  }

  /** A broadcast whose hash was lost. */
  lemma LosingKeepsTable(cfg: SplitConfig, cs: seq<Cycle>, txs: seq<Tx>, lost: multiset<(nat, nat)>, tx: Tx)
    requires TableOk(cfg, cs, txs, lost) && tx.cycle < |cs| && tx.step < 4
    requires |cs[tx.cycle].hashes| == 4 && cs[tx.cycle].hashes[tx.step].None?
    ensures TableOk(cfg, cs, txs + [tx], lost + multiset{(tx.cycle, tx.step)})
    ensures Moves(cs, txs, cs, txs + [tx])
  {
    BroadcastKeepsOthers(cfg, cs, txs, lost, tx);
    var lost' := lost + multiset{(tx.cycle, tx.step)};
    forall i, k | 0 <= i < |cs| && 0 <= k < 4
      ensures Accounted(cs, txs + [tx], lost', i, k)
    {
      LossIsAccounted(cs, txs, lost, tx, i, k);
    }
    forall p | p in lost'
      ensures p.0 < |cs|
    {
      assert p in lost || p == (tx.cycle, tx.step);
    }
  }

  /** A broadcast whose hash was written. */
  lemma FilingKeepsTable(cfg: SplitConfig, cs: seq<Cycle>, txs: seq<Tx>, lost: multiset<(nat, nat)>, i: nat, k: nat,
    tx: Tx)
    requires TableOk(cfg, cs, txs, lost) && i == |cs| - 1
    requires AtStep(cfg, cs[i], i, txs, k) && cs[i].hashes[k].None? && cs[i].status == StatusOf(k)
    requires tx.cycle == i && tx.step == k
    requires if k > 0 then cs[i].amounts[k - 1] == Some(tx.amount) else tx.amount == cs[i].usdc
    ensures var c := Filed(cs[i], k, |txs|);
      TableOk(cfg, cs[i := c], txs + [tx], lost) && Moves(cs, txs, cs[i := c], txs + [tx])
      && AtStep(cfg, c, i, txs + [tx], k)
  {
    BroadcastKeepsOthers(cfg, cs, txs, lost, tx);
    FilesHash(cfg, cs[i], i, txs, k, tx);
    var cs' := cs[i := Filed(cs[i], k, |txs|)];
    forall j, m | 0 <= j < |cs| && 0 <= m < 4
      ensures Accounted(cs', txs + [tx], lost, j, m)
    {
      assert Accounted(cs, txs, lost, j, m);
      BroadcastsAppend(txs, tx, j, m);
    }
  }

  /** A new row at the end of a table without open rows. */
  lemma CreatingKeepsTable(cfg: SplitConfig, cs: seq<Cycle>, txs: seq<Tx>, lost: multiset<(nat, nat)>, c: Cycle)
    requires TableOk(cfg, cs, txs, lost) && forall i :: 0 <= i < |cs| ==> !cs[i].Open()
    requires c.status.Pending? && CycleOk(cfg, c, |cs|, txs)
    ensures TableOk(cfg, cs + [c], txs, lost) && Moves(cs, txs, cs + [c], txs)
  {
    forall i, k | 0 <= i < |cs + [c]| && 0 <= k < 4
      ensures Accounted(cs + [c], txs, lost, i, k)
    {
      if i < |cs| {
        assert Accounted(cs, txs, lost, i, k);
      } else {
        NoneYet(txs, i, k);
        assert (i, k) !in lost;
      }
    }
  }

  /** A row that stands at `at` has its steps up to `k` on file, if `k` is. */
  lemma SucceededUpTo(cfg: SplitConfig, c: Cycle, i: nat, txs: seq<Tx>, at: nat, k: nat)
    requires AtStep(cfg, c, i, txs, at) && k < 4 && c.hashes[k].Some?
    ensures forall j :: 0 <= j < k ==> Succeeded(c, i, txs, j)
    ensures OnFile(c, i, txs, k)
  {
    if k < at { assert Succeeded(c, i, txs, k); }
  }

  class Worker {
    const cfg: SplitConfig
    var cycles: seq<Cycle>
    var txs: seq<Tx>
    ghost var lost: multiset<(nat, nat)>

    ghost predicate Valid()
      reads this
    {
      TableOk(cfg, cycles, txs, lost)
    }

    constructor (cfg: SplitConfig)
      requires cfg.Ok()
      ensures Valid() && this.cfg == cfg && cycles == [] && txs == []
    {
      this.cfg, cycles, txs, lost := cfg, [], [], multiset{};
    }

    /** The open row the tick works on. */
    ghost predicate At(i: nat)
      reads this
    {
      Valid() && i == |cycles| - 1 && cycles[i].Open()
    }

    /** No broadcast on file for the row has reverted. */
    predicate NoRevert(c: Cycle, chain: seq<Tx>) {
      forall k :: 0 <= k < |c.hashes| && c.hashes[k].Some? && c.hashes[k].value < |chain| ==>
        chain[c.hashes[k].value].success
    }

    /** Nor for the open row, which is the one a pass works on. */
    predicate LastRunsOn(cs: seq<Cycle>, chain: seq<Tx>) {
      cs != [] && cs[|cs| - 1].Open() ==> NoRevert(cs[|cs| - 1], chain)
    }

    /** The last row is one that was open, or a new one. */
    predicate WorkedOn(cs: seq<Cycle>, cs': seq<Cycle>) {
      cs' != [] && |cs| <= |cs'| && (|cs'| == |cs| ==> OpenAt(cs))
    }

    /** The last row is open; no other can be. */
    predicate OpenAt(cs: seq<Cycle>) {
      cs != [] && cs[|cs| - 1].Open()
    }

    lemma FilingKeepsNoRevert(c: Cycle, i: nat, chain: seq<Tx>, k: nat, tx: Tx)
      requires AtStep(cfg, c, i, chain, k) && c.hashes[k].None? && NoRevert(c, chain) && tx.success
      ensures NoRevert(Filed(c, k, |chain|), chain + [tx])
    {
      forall j | 0 <= j < k
        ensures c.hashes[j].Some? && c.hashes[j].value < |chain|
      {
        assert Succeeded(c, i, chain, j);
      }
    }

    /** `BuybackCycle.updateOne`. */
    method Write(i: nat, c: Cycle)
      requires At(i) && CycleOk(cfg, c, i, txs) && c.hashes == cycles[i].hashes && RowKept(cycles[i], c)
      modifies this`cycles
      ensures Valid() && cycles == old(cycles)[i := c] && Moves(old(cycles), txs, cycles, txs)
    {
      UpdateKeepsTable(cfg, cycles, txs, lost, i, c);
      cycles := cycles[i := c];
    }

    /** What may be broadcast for step `k` of the open row. */
    ghost predicate MayBroadcast(i: nat, k: nat, amount: nat)
      reads this
    {
      && At(i) && AtStep(cfg, cycles[i], i, txs, k) && cycles[i].hashes[k].None? && cycles[i].status == StatusOf(k)
      && (if k > 0 then cycles[i].amounts[k - 1] == Some(amount) else amount == cycles[i].usdc)
    }

    /** The process dies between the broadcast and the write of its hash. */
    method BroadcastAndLose(i: nat, k: nat, tx: Tx)
      requires MayBroadcast(i, k, tx.amount) && tx.cycle == i && tx.step == k
      modifies this`txs, this`lost
      ensures At(i) && Moves(cycles, old(txs), cycles, txs) && txs == old(txs) + [tx]
    {
      LosingKeepsTable(cfg, cycles, txs, lost, tx);
      txs := txs + [tx];
      lost := lost + multiset{(i, k)};
    }

    /** The broadcast, then its hash. */
    method BroadcastAndFile(i: nat, k: nat, tx: Tx)
      requires MayBroadcast(i, k, tx.amount) && tx.cycle == i && tx.step == k
      modifies this`txs, this`cycles
      ensures At(i) && Moves(old(cycles), old(txs), cycles, txs) && txs == old(txs) + [tx]
      ensures cycles == old(cycles)[i := Filed(old(cycles)[i], k, |old(txs)|)] && AtStep(cfg, cycles[i], i, txs, k)
      ensures tx.success && NoRevert(old(cycles)[i], old(txs)) ==> NoRevert(cycles[i], txs)
    {
      FilingKeepsTable(cfg, cycles, txs, lost, i, k, tx);
      if tx.success && NoRevert(cycles[i], txs) { FilingKeepsNoRevert(cycles[i], i, txs, k, tx); }
      var hash := |txs|;
      txs := txs + [tx];
      cycles := cycles[i := Filed(cycles[i], k, hash)];
    }

    /** `writeContract`, then the write of its hash; a transaction that will revert is
        a setback. */
    method Broadcast(env: Env, i: nat, k: nat, amount: nat) returns (ok: bool)
      requires MayBroadcast(i, k, amount)
      modifies this, env
      ensures At(i) && Moves(old(cycles), old(txs), cycles, txs) && |txs| <= |old(txs)| + 1
      ensures ok ==>
        && cycles == old(cycles)[i := Filed(old(cycles)[i], k, |old(txs)|)] && AtStep(cfg, cycles[i], i, txs, k)
      ensures !ok ==> cycles == old(cycles)
      ensures old(env.setbacks) <= env.setbacks && (!ok ==> env.setbacks > old(env.setbacks))
      ensures env.setbacks == old(env.setbacks) && NoRevert(old(cycles)[i], old(txs)) ==> NoRevert(cycles[i], txs)
    {
      var dies := env.Dies();
      if dies { return false; }
      var reply := env.Ask();
      var tx := Tx(i, k, amount, reply == Yes);
      dies := env.Dies();
      if dies {
        BroadcastAndLose(i, k, tx);
      } else {
        BroadcastAndFile(i, k, tx);
      }
      ok := !dies;
    }

    /** `waitForTransactionReceipt`. */
    method Await(env: Env, i: nat, k: nat) returns (r: Receipt)
      requires i < |cycles| && OnFile(cycles[i], i, txs, k)
      modifies env
      ensures r.Success? ==> Succeeded(cycles[i], i, txs, k)
      ensures r.Revert? ==> Reverted(cycles[i], i, txs, k)
      ensures old(env.setbacks) <= env.setbacks && (r.NoAnswer? ==> env.setbacks > old(env.setbacks))
    {
      var dies := env.Dies();
      if dies { return NoAnswer; }
      return if txs[cycles[i].hashes[k].value].success then Success else Revert;
    }

    /** `markFailed`; the process may die first. */
    method MarkFailed(env: Env, i: nat, k: nat)
      requires At(i) && AtStep(cfg, cycles[i], i, txs, k) && FailedAt(cycles[i], i, txs, k)
      modifies this`cycles, env
      ensures Valid() && Moves(old(cycles), txs, cycles, txs) && i == |cycles| - 1
      ensures old(env.setbacks) <= env.setbacks
      ensures cycles[i] == old(cycles)[i].(status := Failed)
        || (cycles == old(cycles) && env.setbacks > old(env.setbacks))
    {
      var dies := env.Dies();
      if !dies {
        var c := cycles[i].(status := Failed);
        Relabelled(cfg, cycles[i], i, txs, k, Failed);
        assert FailedAt(c, i, txs, k);
        Write(i, c);
      }
    }

    /** `runSwapStep`: `None` is a throw. The total it returns is the one on file. */
    method RunSwapStep(env: Env, i: nat, realised: nat) returns (acquired: Option<nat>)
      requires At(i)
      modifies this, env
      ensures Valid() && Moves(old(cycles), old(txs), cycles, txs) && i == |cycles| - 1
      ensures acquired.Some? ==>
        At(i) && Succeeded(cycles[i], i, txs, 0) && cycles[i].acquired == acquired
      ensures old(env.setbacks) <= env.setbacks
      ensures acquired.None? ==> env.setbacks > old(env.setbacks) || cycles[i].status.Failed?
      ensures realised > 0 || old(cycles)[i].hashes[0].Some? ==>
        env.setbacks == old(env.setbacks) && NoRevert(old(cycles)[i], old(txs)) ==>
          acquired.Some? && NoRevert(cycles[i], txs)
    {
      ghost var cs, chain := cycles, txs;
      ghost var at := Standing(i);
      var resumed := cycles[i].hashes[0].Some?;
      if !resumed {
        var started := StartSwap(env, i);
        if !started { return None; }
      } else {
        SucceededUpTo(cfg, cycles[i], i, txs, at, 0);
      }
      ghost var cs1, chain1 := cycles, txs;
      acquired := FinishSwap(env, i, resumed, realised);
      MovesOn(cs, chain, cs1, chain1, cycles, txs);
    }

    /** The receipt of the swap, and the total it brought: a total on file is kept;
        otherwise what the chain says (resumed, the balance now; else what it has grown
        by since before the swap), and a fresh swap that brought nothing ends the cycle
        as FAILED. */
    method FinishSwap(env: Env, i: nat, resumed: bool, realised: nat) returns (acquired: Option<nat>)
      requires At(i) && OnFile(cycles[i], i, txs, 0)
      modifies this, env
      ensures Valid() && Moves(old(cycles), old(txs), cycles, txs) && i == |cycles| - 1
      ensures acquired.Some? ==>
        At(i) && Succeeded(cycles[i], i, txs, 0) && cycles[i].acquired == acquired
      ensures acquired.Some? ==>
        if old(cycles)[i].acquired.Some? then acquired == old(cycles)[i].acquired
        else acquired == Some(realised) && (resumed || realised > 0)
      ensures old(env.setbacks) <= env.setbacks
      ensures acquired.None? ==>
        env.setbacks > old(env.setbacks)
        || (cycles[i].status.Failed? && FailedAt(cycles[i], i, txs, 0))
      ensures env.setbacks == old(env.setbacks) && NoRevert(old(cycles)[i], old(txs)) && (realised > 0 || resumed) ==>
        acquired.Some? && NoRevert(cycles[i], txs)
    {
      var ok := Settle(env, i, 0);
      if !ok { return None; }
      if cycles[i].acquired.Some? { return cycles[i].acquired; }
      ghost var at := Standing(i);
      assert at > 0 ==> AmountOk(cfg, cycles[i], txs, 1);
      var dies := env.Dies();
      if dies { return None; }
      if !resumed && realised == 0 {
        MarkFailed(env, i, 0);
        return None;
      }
      Write(i, cycles[i].(acquired := Some(realised)));
      acquired := Some(realised);
    }

    /** Waits for the receipt of step `k`; a revert ends the cycle as FAILED. */
    method Settle(env: Env, i: nat, k: nat) returns (ok: bool)
      requires At(i) && OnFile(cycles[i], i, txs, k)
      modifies this, env
      ensures Valid() && Moves(old(cycles), old(txs), cycles, txs) && i == |cycles| - 1
      ensures txs == old(txs)
      ensures ok ==> cycles == old(cycles) && Succeeded(cycles[i], i, txs, k)
      ensures old(env.setbacks) <= env.setbacks
      ensures !ok ==> env.setbacks > old(env.setbacks) || (cycles[i].status.Failed? && Reverted(cycles[i], i, txs, k))
      ensures env.setbacks == old(env.setbacks) && NoRevert(old(cycles)[i], txs) ==> ok
    {
      var receipt := Await(env, i, k);
      if receipt.Revert? {
        ghost var at := Standing(i);
        assert at > k ==> Succeeded(cycles[i], i, txs, k);
        MarkFailed(env, i, k);
      }
      ok := receipt.Success?;
    }

    /** The fresh path up to the write of the swap's hash. */
    method StartSwap(env: Env, i: nat) returns (ok: bool)
      requires At(i) && |cycles[i].hashes| == 4 && cycles[i].hashes[0].None?
      modifies this, env
      ensures Valid() && Moves(old(cycles), old(txs), cycles, txs) && i == |cycles| - 1
      ensures ok ==> At(i) && OnFile(cycles[i], i, txs, 0) && cycles[i].acquired.None?
      ensures old(env.setbacks) <= env.setbacks && (!ok ==> env.setbacks > old(env.setbacks))
      ensures env.setbacks == old(env.setbacks) && NoRevert(old(cycles)[i], old(txs)) ==> NoRevert(cycles[i], txs)
    {
      ghost var cs, chain := cycles, txs;
      var usdc := cycles[i].usdc;
      ghost var at := Standing(i);
      StartsStep(cfg, cycles[i], i, txs, 0, usdc);
      Write(i, Started(cfg, cycles[i], 0, usdc));
      ghost var cs1, chain1 := cycles, txs;
      ok := Broadcast(env, i, 0, usdc);
      MovesOn(cs, chain, cs1, chain1, cycles, txs);
    }

    /** The step the row stands at. */
    ghost method Standing(i: nat) returns (k: nat)
      requires At(i)
      ensures AtStep(cfg, cycles[i], i, txs, k)
      ensures !cycles[i].status.Pending? ==> cycles[i].status == StatusOf(k)
    {
      k := WhereItStands(cfg, cycles[i], i, txs);
    }

    /** The amount and status of a burn, its broadcast, its hash. */
    method StartBurn(env: Env, i: nat, k: nat, amount: nat) returns (ok: bool)
      requires At(i) && 1 <= k < 4 && forall j :: 0 <= j < k ==> Succeeded(cycles[i], i, txs, j)
      requires |cycles[i].hashes| == 4 && |cycles[i].amounts| == 3 && cycles[i].hashes[k].None?
      requires cycles[i].acquired.Some? && amount == ShareOf(cfg, cycles[i].acquired.value, k)
      modifies this, env
      ensures At(i) && Moves(old(cycles), old(txs), cycles, txs) && cycles[i].acquired == old(cycles)[i].acquired
      ensures ok ==> AtStep(cfg, cycles[i], i, txs, k) && OnFile(cycles[i], i, txs, k)
      ensures old(env.setbacks) <= env.setbacks && (!ok ==> env.setbacks > old(env.setbacks))
      ensures env.setbacks == old(env.setbacks) && NoRevert(old(cycles)[i], old(txs)) ==> NoRevert(cycles[i], txs)
    {
      ghost var cs, chain := cycles, txs;
      StartsStep(cfg, cycles[i], i, txs, k, amount);
      Write(i, Started(cfg, cycles[i], k, amount));
      ghost var cs1, chain1 := cycles, txs;
      ok := Broadcast(env, i, k, amount);
      MovesOn(cs, chain, cs1, chain1, cycles, txs);
    }

    /** The step burned its share of the stored total. */
    ghost predicate BurnedShare(c: Cycle, i: nat, k: nat)
      reads this`txs
    {
      && Succeeded(c, i, txs, k) && c.acquired.Some?
      && IsShare(cfg, c.acquired.value, k, txs[c.hashes[k].value].amount)
    }

    lemma StepBurnedItsShare(i: nat, k: nat)
      requires At(i) && 1 <= k < 4 && Succeeded(cycles[i], i, txs, k) && cycles[i].acquired.Some?
      ensures BurnedShare(cycles[i], i, k)
    {
      var at := WhereItStands(cfg, cycles[i], i, txs);
      assert AmountOk(cfg, cycles[i], txs, k);
      ShareIsShare(cfg, cycles[i].acquired.value, k);
    }

    lemma SharesStay(c: Cycle, c': Cycle, i: nat)
      requires c' == c.(status := c'.status) && BurnedShare(c, i, 1) && BurnedShare(c, i, 2) && BurnedShare(c, i, 3)
      ensures forall k :: 1 <= k < 4 ==> BurnedShare(c', i, k)
    {
    }

    /** `runBurnStep`: with a hash on file, only the receipt. */
    method RunBurnStep(env: Env, i: nat, k: nat, amount: nat) returns (ok: bool)
      requires At(i) && 1 <= k < 4 && forall j :: 0 <= j < k ==> Succeeded(cycles[i], i, txs, j)
      requires cycles[i].acquired.Some? && amount == ShareOf(cfg, cycles[i].acquired.value, k)
      modifies this, env
      ensures Valid() && Moves(old(cycles), old(txs), cycles, txs) && i == |cycles| - 1
      ensures ok ==> At(i) && cycles[i].acquired == old(cycles)[i].acquired
      ensures ok ==> forall j :: 0 <= j <= k ==> Succeeded(cycles[i], i, txs, j)
      ensures ok ==> BurnedShare(cycles[i], i, k)
      ensures old(env.setbacks) <= env.setbacks
      ensures !ok ==> env.setbacks > old(env.setbacks) || (cycles[i].status.Failed? && Reverted(cycles[i], i, txs, k))
      ensures env.setbacks == old(env.setbacks) && NoRevert(old(cycles)[i], old(txs)) ==> ok && NoRevert(cycles[i], txs)
    {
      ghost var cs, chain := cycles, txs;
      ghost var at := Standing(i);
      if cycles[i].hashes[k].None? {
        ok := StartBurn(env, i, k, amount);
        if !ok { return; }
        at := k;
      }
      SucceededUpTo(cfg, cycles[i], i, txs, at, k);
      ghost var cs2, chain2 := cycles, txs;
      ok := Settle(env, i, k);
      if ok { StepBurnedItsShare(i, k); }
      MovesOn(cs, chain, cs2, chain2, cycles, txs);
    }

    /** COMPLETE, once every step succeeded. */
    method MarkComplete(i: nat)
      requires At(i) && forall j :: 0 <= j < 4 ==> Succeeded(cycles[i], i, txs, j)
      modifies this`cycles
      ensures Valid() && Moves(old(cycles), txs, cycles, txs) && i == |cycles| - 1
      ensures cycles[i] == old(cycles)[i].(status := Complete)
    {
      ghost var at := Standing(i);
      assert at == 3 by { assert Succeeded(cycles[i], i, txs, 3); }
      Relabelled(cfg, cycles[i], i, txs, at, Complete);
      var c := cycles[i].(status := Complete);
      assert Succeeded(c, i, txs, 3) by { assert Succeeded(cycles[i], i, txs, 3); }
      Write(i, c);
    }

    /** The three burns in order, then COMPLETE. */
    method RunBurns(env: Env, i: nat) returns (ok: bool)
      requires At(i) && Succeeded(cycles[i], i, txs, 0) && cycles[i].acquired.Some?
      modifies this, env
      ensures Valid() && Moves(old(cycles), old(txs), cycles, txs) && i == |cycles| - 1
      ensures ok ==> cycles[i].status.Complete? && forall k :: 1 <= k < 4 ==> BurnedShare(cycles[i], i, k)
      ensures old(env.setbacks) <= env.setbacks
      ensures !ok ==> env.setbacks > old(env.setbacks) || cycles[i].status.Failed?
      ensures env.setbacks == old(env.setbacks) && NoRevert(old(cycles)[i], old(txs)) ==> ok
    {
      ghost var cs, chain := cycles, txs;
      var acquired := cycles[i].acquired.value;
      var k := 1;
      while k < 4
        invariant 1 <= k <= 4 && At(i) && Moves(cs, chain, cycles, txs)
        invariant cycles[i].acquired == Some(acquired) && old(env.setbacks) <= env.setbacks
        invariant forall j :: 0 <= j < k ==> Succeeded(cycles[i], i, txs, j)
        invariant env.setbacks == old(env.setbacks) && NoRevert(old(cycles)[i], old(txs)) ==> NoRevert(cycles[i], txs)
      {
        ghost var cs1, chain1 := cycles, txs;
        ok := RunBurnStep(env, i, k, ShareOf(cfg, acquired, k));
        MovesOn(cs, chain, cs1, chain1, cycles, txs);
        if !ok { return; }
        k := k + 1;
      }
      var dies := env.Dies();
      if dies { return false; }
      ghost var cs2, chain2, c := cycles, txs, cycles[i];
      StepBurnedItsShare(i, 1);
      StepBurnedItsShare(i, 2);
      StepBurnedItsShare(i, 3);
      MarkComplete(i);
      SharesStay(c, cycles[i], i);
      MovesOn(cs, chain, cs2, chain2, cycles, txs);
      ok := true;
    }

    /** `claimOrLoadInFlightCycle`. */
    method ClaimOrLoad(usdc: nat) returns (claimed: Option<nat>)
      requires Valid()
      modifies this`cycles
      ensures Valid() && Moves(old(cycles), txs, cycles, txs)
      ensures claimed.Some? ==> At(claimed.value)
      ensures claimed.None? <==> usdc < cfg.threshold && !OpenAt(old(cycles))
      ensures |cycles| > |old(cycles)| <==> claimed.Some? && claimed.value == |old(cycles)|
      ensures |cycles| > |old(cycles)| ==> cycles[|old(cycles)|].usdc == usdc
      ensures claimed.Some? ==>
        WorkedOn(old(cycles), cycles) && |cycles| == |old(cycles)| + (if OpenAt(old(cycles)) then 0 else 1)
      ensures LastRunsOn(old(cycles), txs) ==> LastRunsOn(cycles, txs)
      ensures claimed.None? || claimed.value < |old(cycles)| ==> cycles == old(cycles)
    {
      var n := |cycles|;
      if n > 0 && cycles[n - 1].Open() { return Some(n - 1); }
      if usdc < cfg.threshold { return None; }
      var c := Cycle(Pending, usdc, [None, None, None, None], None, [None, None, None]);
      CreatingKeepsTable(cfg, cycles, txs, lost, c);
      cycles := cycles + [c];
      claimed := Some(n);
    }

    /** The swap and the burns of the open cycle. */
    method RunSteps(env: Env, i: nat, realised: nat) returns (ok: bool)
      requires At(i)
      modifies this, env
      ensures Valid() && Moves(old(cycles), old(txs), cycles, txs) && i == |cycles| - 1 == |old(cycles)| - 1
      ensures ok ==> cycles[i].status.Complete?
      ensures old(env.setbacks) <= env.setbacks
      ensures !ok ==> env.setbacks > old(env.setbacks) || cycles[i].status.Failed?
      ensures env.setbacks == old(env.setbacks) && LastRunsOn(old(cycles), old(txs)) && realised > 0 ==> ok
    {
      var acquired := RunSwapStep(env, i, realised);
      if acquired.None? { return false; }
      ghost var cs, chain := cycles, txs;
      ok := RunBurns(env, i);
      MovesOn(old(cycles), old(txs), cs, chain, cycles, txs);
    }

    /** `runOneCycle`. Whatever fails in it, the table stays in order, at most one
        cycle is open, columns are written once, ended cycles stay as they are and
        a step with a hash on file is not broadcast again. A pass is cut short only by
        a setback, or by a step that failed the cycle: a swap that brought nothing, or a
        broadcast that reverted. */
    method RunOneCycle(env: Env, usdc: nat, realised: nat) returns (end: CycleEnd)
      requires Valid()
      modifies this, env
      ensures Valid() && Moves(old(cycles), old(txs), cycles, txs) && |cycles| <= |old(cycles)| + 1
      ensures old(env.setbacks) <= env.setbacks
      ensures end.Finished? ==> WorkedOn(old(cycles), cycles) && cycles[|cycles| - 1].status.Complete?
      ensures end.Finished? ==> OpenAt(old(cycles)) || usdc >= cfg.threshold
      ensures |cycles| > |old(cycles)| ==> cycles[|old(cycles)|].usdc == usdc
      ensures end.NothingToDo? ==> cycles == old(cycles) && txs == old(txs)
      ensures end.NothingToDo? ==> usdc < cfg.threshold && !OpenAt(cycles)
      ensures end.Interrupted? ==>
        || env.setbacks > old(env.setbacks)
        || (WorkedOn(old(cycles), cycles) && cycles[|cycles| - 1].status.Failed?)
      ensures end.Finished? ==> |cycles| == |old(cycles)| + (if OpenAt(old(cycles)) then 0 else 1)
      ensures env.setbacks == old(env.setbacks) && LastRunsOn(old(cycles), old(txs)) && realised > 0 ==>
        !end.Interrupted?
    {
      var dies := env.Dies();
      if dies { return Interrupted; }
      var claimed := ClaimOrLoad(usdc);
      if claimed.None? { return NothingToDo; }
      ghost var cs1, chain1 := cycles, txs;
      var ok := RunSteps(env, claimed.value, realised);
      MovesOn(old(cycles), old(txs), cs1, chain1, cycles, txs);
      end := if ok then Finished else Interrupted;
    }

    /** The rows that ticks with these balances add when nothing goes wrong: none for
        one that finds a row open, or a balance below the threshold. */
    function Added(usdc: seq<nat>, open: bool): nat {
      if usdc == [] then 0
      else
        var n := |usdc| - 1;
        Added(usdc[..n], open) + (if (n == 0 && open) || usdc[n] < cfg.threshold then 0 else 1)
    }

    lemma AddedOn(usdc: seq<nat>, k: nat, open: bool)
      requires k < |usdc|
      ensures Added(usdc[..k + 1], open)
        == Added(usdc[..k], open) + (if (k == 0 && open) || usdc[k] < cfg.threshold then 0 else 1)
    {
      assert usdc[..k + 1][..k] == usdc[..k];
    }

    /** Any number of ticks, one after the other, each with the balance it finds and
        what a swap of it brings. Without a setback, and if no open row has reverted and
        every swap brings something, each row they work on is COMPLETE, and there is a
        new one for every balance that reached the threshold. */
    method RunTicks(env: Env, usdc: seq<nat>, realised: seq<nat>)
      requires Valid() && |usdc| == |realised|
      modifies this, env
      ensures Valid() && Moves(old(cycles), old(txs), cycles, txs) && |cycles| <= |old(cycles)| + |usdc|
      ensures forall i :: 0 <= i < |cycles| - 1 ==> !cycles[i].Open()
      ensures old(env.setbacks) <= env.setbacks
      ensures env.setbacks == old(env.setbacks) && LastRunsOn(old(cycles), old(txs)) && AllBring(realised) ==>
        Smooth(old(cycles), cycles, usdc)
    {
      ghost var a, chain, before := cycles, txs, env.setbacks;
      for k := 0 to |usdc|
        invariant Going(a, chain, usdc, k, env.setbacks == before && LastRunsOn(a, chain) && AllBring(realised))
        invariant before <= env.setbacks
      {
        OneTick(env, usdc, realised, k, a, chain, before);
      }
      assert usdc[..|usdc|] == usdc;
    }

    /** How far the ticks have come. */
    ghost predicate Going(a: seq<Cycle>, chain: seq<Tx>, usdc: seq<nat>, k: nat, smoothly: bool)
      requires k <= |usdc|
      reads this
    {
      && Valid() && Moves(a, chain, cycles, txs) && |cycles| <= |a| + k
      && (k == 0 ==> cycles == a && txs == chain)
      && (smoothly ==> Smooth(a, cycles, usdc[..k]) && LastRunsOn(cycles, txs) && (k > 0 ==> !OpenAt(cycles)))
    }

    /** One of the ticks. */
    method OneTick(env: Env, usdc: seq<nat>, realised: seq<nat>, k: nat,
                   ghost a: seq<Cycle>, ghost chain: seq<Tx>, ghost before: nat)
      requires k < |usdc| == |realised| && before <= env.setbacks
      requires Going(a, chain, usdc, k, env.setbacks == before && LastRunsOn(a, chain) && AllBring(realised))
      modifies this, env
      ensures before <= env.setbacks
      ensures Going(a, chain, usdc, k + 1, env.setbacks == before && LastRunsOn(a, chain) && AllBring(realised))
    {
      ghost var cs, chain1 := cycles, txs;
      var end := RunOneCycle(env, usdc[k], realised[k]);
      if env.setbacks == before && LastRunsOn(a, chain) && AllBring(realised) {
        SmoothOn(a, cs, chain1, cycles, txs, usdc, k);
      }
      MovesOn(a, chain, cs, chain1, cycles, txs);
    }

    predicate AllBring(realised: seq<nat>) {
      forall k :: 0 <= k < |realised| ==> realised[k] > 0
    }

    /** The row that was open and all new rows are COMPLETE. */
    predicate Smooth(cs: seq<Cycle>, cs': seq<Cycle>, usdc: seq<nat>) {
      && |cs'| == |cs| + Added(usdc, OpenAt(cs))
      && (forall i :: |cs| <= i < |cs'| ==> cs'[i].status.Complete?)
      && (usdc != [] && OpenAt(cs) ==> cs'[|cs| - 1].status.Complete?)
    }

    lemma SmoothOn(a: seq<Cycle>, b: seq<Cycle>, chainB: seq<Tx>, c: seq<Cycle>, chainC: seq<Tx>, usdc: seq<nat>,
      k: nat)
      requires k < |usdc| && Smooth(a, b, usdc[..k]) && Moves(b, chainB, c, chainC)
      requires if k == 0 then b == a else !OpenAt(b)
      requires OpenAt(b) ==> |c| == |b| && c[|b| - 1].status.Complete?
      requires !OpenAt(b) && usdc[k] < cfg.threshold ==> c == b
      requires !OpenAt(b) && usdc[k] >= cfg.threshold ==> |c| == |b| + 1 && c[|b|].status.Complete?
      ensures Smooth(a, c, usdc[..k + 1]) && !OpenAt(c)
    {
      AddedOn(usdc, k, OpenAt(a));
      forall i | |a| <= i < |c|
        ensures c[i].status.Complete?
      {
        if i < |b| { assert RowKept(b[i], c[i]); }
      }
      if a != [] { assert RowKept(b[|a| - 1], c[|a| - 1]); }
    }
  }
}
