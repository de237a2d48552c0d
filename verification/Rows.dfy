/** Configuration, database rows, chain records and queue jobs. */
module Rows {
  import opened Wrappers
  import opened Money

  datatype Config = Config(
    feeBps: Bps,
    minDepositSats: nat,
    depositCapSats: nat,
    withdrawalCapSats: nat,
    maxTvlWei: nat,
    fairConfirmations: nat,
    baseConfirmations: nat)

  // ---- FairCoin chain ------------------------------------------------------

  /** HD derivation is injective: one address per index. */
  datatype FairAddress = Derived(index: nat) | Foreign(text: string)
  datatype Outpoint = Outpoint(txid: string, vout: nat)
  datatype Vout = Vout(n: nat, address: Option<FairAddress>, sats: nat)
  datatype FairTx = FairTx(txid: string, vouts: seq<Vout>)
  type FairBlock = seq<FairTx>

  /** A `sendtoaddress` call that took effect. `lost` is set when the worker
      lost the returned txid before writing it to the row. */
  datatype Send = Send(row: nat, destination: string, sats: nat, lost: bool)

  // ---- Base chain ----------------------------------------------------------

  datatype TxOutcome = Pending | Success | Reverted

  /** A broadcast `mintForDeposit`. `lost` as for `Send`. */
  datatype MintTx = MintTx(row: nat, to: string, wei: nat, outcome: TxOutcome, lost: bool)

  datatype BurnKey = BurnKey(txHash: string, logIndex: nat)

  /** `decodable` is false for a log without identifiers or with foreign data. */
  datatype BurnLog = BurnLog(
    key: BurnKey, block: nat, from: string, wei: nat, destination: string, decodable: bool)

  // ---- Database rows -------------------------------------------------------

  datatype DepositStatus = Awaiting | Detected | Confirmed | Minting | Minted | Failed

  datatype Deposit = Deposit(
    baseAddress: string,
    fairAddress: FairAddress,
    hdIndex: int,
    status: DepositStatus,
    outpoint: Option<Outpoint>,
    height: nat,
    amountSats: nat,
    amountWei: nat,
    mintTx: Option<nat>,
    createdAt: nat)
  {
    /** The intent slot is still open. */
    predicate Open() { status.Awaiting? || status.Detected? }
    predicate InFlight() { status.Detected? || status.Confirmed? || status.Minting? }
    predicate CountsToday() { status.Confirmed? || status.Minting? || status.Minted? }
  }

  datatype WithdrawalStatus = Detected | Confirmed | Signing | Broadcast | Final | Failed

  datatype Withdrawal = Withdrawal(
    key: BurnKey,
    from: string,
    destination: string,
    amountSats: nat,
    status: WithdrawalStatus,
    fairTx: Option<nat>,
    createdAt: nat)
  {
    predicate CountsToday() {
      status.Confirmed? || status.Signing? || status.Broadcast? || status.Final?
    }
    predicate Unsent() { (status.Confirmed? || status.Signing?) && fairTx.None? }
  }

  // ---- Queue jobs ----------------------------------------------------------

  datatype MintJob = MintJob(depositId: nat, to: string, wei: nat)
  datatype ReleaseJob = ReleaseJob(withdrawalId: nat, destination: string, sats: nat)
}
