/** The split of a buyback's WFAIR into a burn, a treasury and a masternode
    share. */
module BuybackSplit {
  import opened Wrappers
  import opened Money

  datatype Shares = Shares(burn: nat, treasury: nat, masternode: nat)

  /** `splitByBps`: `None` is the thrown error. */
  function SplitByBps(total: nat, treasuryBps: nat, masternodeBps: nat): (r: Option<Shares>)
    ensures r.Some? ==> r.value.burn + r.value.treasury + r.value.masternode == total
    ensures r.Some? ==> r.value.treasury * BPS_DENOM <= total * treasuryBps < (r.value.treasury + 1) * BPS_DENOM
    ensures r.Some? ==> r.value.masternode * BPS_DENOM <= total * masternodeBps < (r.value.masternode + 1) * BPS_DENOM
  {
    var treasury := total * treasuryBps / BPS_DENOM;
    var masternode := total * masternodeBps / BPS_DENOM;
    if total < treasury + masternode then None
    else Some(Shares(total - treasury - masternode, treasury, masternode))
  }

  /** The split works for every total exactly when the two floored shares do not
      ask for more than the whole. */
  lemma SplitsEveryTotalIff(treasuryBps: nat, masternodeBps: nat)
    ensures (forall total :: SplitByBps(total, treasuryBps, masternodeBps).Some?)
      <==> treasuryBps + masternodeBps <= BPS_DENOM
  {
    if treasuryBps + masternodeBps <= BPS_DENOM {
      forall total: nat
        ensures SplitByBps(total, treasuryBps, masternodeBps).Some?
      {
        SharesFit(total, treasuryBps, masternodeBps);
      }
    } else {
      assert SplitByBps(BPS_DENOM, treasuryBps, masternodeBps).None?;
    }
  }

  lemma SharesFit(total: nat, treasuryBps: nat, masternodeBps: nat)
    requires treasuryBps + masternodeBps <= BPS_DENOM
    ensures total * treasuryBps / BPS_DENOM + total * masternodeBps / BPS_DENOM <= total
  {
    assert total * treasuryBps + total * masternodeBps == total * (treasuryBps + masternodeBps);
    assert total * (treasuryBps + masternodeBps) <= total * BPS_DENOM;
  }

  /** The burn share takes what the two floors leave: its own floor and 0, 1 or 2
      wei more, and each of the three happens. */
  lemma BurnExcess(total: nat, burnBps: nat, treasuryBps: nat, masternodeBps: nat)
    requires burnBps + treasuryBps + masternodeBps == BPS_DENOM
    ensures SplitByBps(total, treasuryBps, masternodeBps).Some?
    ensures var burn := SplitByBps(total, treasuryBps, masternodeBps).value.burn;
      total * burnBps / BPS_DENOM <= burn <= total * burnBps / BPS_DENOM + 2
  {
    SharesFit(total, treasuryBps, masternodeBps);
    assert total * burnBps + total * treasuryBps + total * masternodeBps == total * BPS_DENOM by {
      assert total * (burnBps + treasuryBps + masternodeBps)
        == total * burnBps + total * treasuryBps + total * masternodeBps;
    }
  }

  lemma EveryExcessHappens()
    ensures SplitByBps(10_000, 3_000, 3_000).value.burn == 10_000 * 4_000 / BPS_DENOM
    ensures SplitByBps(1, 3_000, 0).value.burn == 1 * 7_000 / BPS_DENOM + 1
    ensures SplitByBps(2, 3_333, 3_333).value.burn == 2 * 3_334 / BPS_DENOM + 2
  {
  }
}
