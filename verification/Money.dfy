/** Units and fee arithmetic shared by both directions of the bridge. */
module Money {
  const SATS_TO_WEI: nat := 10_000_000_000
  const BPS_DENOM: nat := 10_000
  const DAY_MS: nat := 86_400_000

  type Bps = n: nat | n <= 10_000

  /** What is left of an amount after the bridge fee, rounded down. */
  function ApplyFee(amount: nat, feeBps: Bps): (net: nat)
    ensures net <= amount
  {
    amount * (BPS_DENOM - feeBps) / BPS_DENOM
  }
}
