/** What is left of a deposit that is minted, burned and released. */
module RoundTrip {
  import opened Money

  /** Sats released for burning all the WFAIR minted for a deposit. */
  function Back(sats: nat, feeBps: Bps): nat {
    ApplyFee(ApplyFee(sats * SATS_TO_WEI, feeBps) / SATS_TO_WEI, feeBps)
  }

  lemma FeeBounds(amount: nat, feeBps: Bps)
    ensures ApplyFee(amount, feeBps) * BPS_DENOM <= amount * (BPS_DENOM - feeBps)
    ensures amount * (BPS_DENOM - feeBps) < (ApplyFee(amount, feeBps) + 1) * BPS_DENOM
  {
  }

  lemma Scaled(a: nat, b: nat, k: nat)
    requires a <= b
    ensures a * k <= b * k
  {
  }

  /** The burned amount in whole sats. */
  lemma GrossBounds(sats: nat, feeBps: Bps)
    ensures var gross := ApplyFee(sats * SATS_TO_WEI, feeBps) / SATS_TO_WEI;
      gross * BPS_DENOM <= sats * (BPS_DENOM - feeBps) <= (gross + 1) * BPS_DENOM
  {
    FeeBounds(sats * SATS_TO_WEI, feeBps);
    var k := BPS_DENOM - feeBps;
    assert sats * SATS_TO_WEI * k == sats * k * SATS_TO_WEI;
  }

  /** One more fee on an amount between two bounds. */
  lemma SecondFee(gross: nat, kept: nat, k: nat, r: nat)
    requires gross * BPS_DENOM <= kept <= (gross + 1) * BPS_DENOM && k <= BPS_DENOM
    requires r * BPS_DENOM <= gross * k < (r + 1) * BPS_DENOM
    ensures r * BPS_DENOM * BPS_DENOM <= kept * k < (r + 2) * BPS_DENOM * BPS_DENOM
  {
    Scaled(gross * BPS_DENOM, kept, k);
    Scaled(kept, (gross + 1) * BPS_DENOM, k);
    assert gross * BPS_DENOM * k == gross * k * BPS_DENOM;
    assert (gross + 1) * BPS_DENOM * k == gross * k * BPS_DENOM + BPS_DENOM * k;
  }

  /** Both fees are taken and at most two sats are lost to the roundings: with g the
      share left by the fee, the release lies in (sats * g^2 - 2, sats * g^2]. */
  lemma TwoFeesTwoSats(sats: nat, feeBps: Bps)
    ensures var k := BPS_DENOM - feeBps; var r := Back(sats, feeBps);
      r * BPS_DENOM * BPS_DENOM <= sats * k * k < (r + 2) * BPS_DENOM * BPS_DENOM
  {
    var k := BPS_DENOM - feeBps;
    var gross := ApplyFee(sats * SATS_TO_WEI, feeBps) / SATS_TO_WEI;
    GrossBounds(sats, feeBps);
    FeeBounds(gross, feeBps);
    SecondFee(gross, sats * k, k, Back(sats, feeBps));
  }
}
