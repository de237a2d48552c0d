# The FairCoin–Base bridge: a verified model

The bridge turns FairCoin deposits into WFAIR on Base and WFAIR burns into
FairCoin payments. Its service is a set of workers that share a database: two
chain scanners turn events into rows, and signers turn each row into a payment
that cannot be taken back. The project models those workers over the database,
the two chain ledgers and the job queues, and proves what holds in every run,
with a crash or a failed call possible between any two operations.

`dafny verify dfyconfig.toml` checks everything.

## How the model is built

- **Protocol.** `Protocol.State` holds the database tables, both chain ledgers,
  the queues and the workers' memory: where each scanner stands and what it has
  read there. Every database operation and every chain call is one event; an event
  whose guard does not hold changes nothing. `Run` applies any list of events, so
  interleavings, crashes (`DropMint`, `DropSend`, `DropFairScan`, `DropBaseScan`),
  restarts (`Reload`, `RestartBase`), the abort flag and repeated jobs are all
  covered by statements over `Run`. Some fields are history that no worker reads:
  which addresses a block was scanned with, the intents registered, the burns
  missed. `Runs` collects the theorems about whole runs; a bridge that has not
  started meets what they ask of the first state (`Runs.NotStartedIsConsistent`).
- **Counterexamples.** Where a property fails, `Scenario` builds a run event by
  event from a bridge that has not started, for any configuration in which a
  deposit can be accepted; `TvlRace` and `BurnLoss` end it and give the exact
  condition.
- **Code.** `BridgeDb.Bridge` is the same store as a mutable object, with the run it
  is in and the states it passed through. Each of its methods is one atomic
  operation and is proved to be one event of the protocol. The scanners and signers
  (`DepositWatcher`, `DepositTick`, `DepositBlocks`, `BurnWatcher`, `BurnTick`,
  `MintSigner`, `ReleaseSigner`) are written against it in the shape of the source,
  with `Others` between any two operations: any number of events of the other
  actors. `Interference` proves what a worker may rely on meanwhile. The store's
  `Valid()` says it is where a run has led, so every theorem about runs holds of it
  whatever the code did.
- **Setbacks.** `Environment.Env` decides which calls fail and when the process dies,
  and counts it, so a contract can say that a worker gave up only for such a reason,
  and what is done when there is none. It also holds what the FairCoin node says of an
  address when it answers, and what a service last answered.
- **Totals.** The sums that are checked against a cap are functions over the tables;
  `Totals` says what they are by the columns of the rows, and the scanners' contracts
  speak of those rows.
- **Lost sends.** A payment whose identifier was not written before a crash or an
  error is booked as `lost`; bounds are stated in terms of it.
- **The other pipelines** have their own tables: `Buyback*`, `Masternode*`,
  `Buy*` (buy orders), `SafeMint`; `AddressBook` shows the protocol's address events
  in the code of the HD wallet. The pure or concurrent pieces are `ConcurrentMap`,
  `DecimalAmounts` (over `Digits`), `FloatSats`, `AddressBytes` and `RoundTrip`.
- **Helpers.** The atomic operations of `BridgeDb.Bridge` and `BuyWorker.OrderBook`
  have no row below: each states the field it writes and that the store is still in
  a run. What they add up to is stated by the workers.

Assumed throughout: one job at a time per queue and no overlapping ticks of one
worker (`SafeMint` shows what happens otherwise), a constant configuration, a
monotone clock, a node whose answer about an address does not change, and a stable
chain behind the confirmation depth. HD derivation is injective (an address is its
index). A hash or txid is modelled as the index of the transaction on its chain. The
token inherits `_mint` from OpenZeppelin's ERC20, which is not part of this model; it
is taken to revert for the zero address.

## Where the code and its own documentation disagree

The model follows the code.

- The TVL check reads the supply and the in-flight total concurrently
  (`fair-watcher.ts:313-316`). If the supply is read first, a mint settles, and the
  in-flight total is read last, the mint is counted by neither and the cap can be
  passed. `TvlRace.CapHoldsIff`: the cap holds in every run of a given reading order
  exactly when the in-flight total is read first, or nothing can be deposited.
- After the abort flag breaks the loop over a window's logs
  (`base-watcher.ts:298`) the cursor is still written past the whole window
  (line 301), and a burn there is never released: `BurnLoss.BurnCanBeLost` and
  `MissedForGood`. `Runs.RunMissesIff` is the exact condition on a run, and
  `BurnLoss.NeverMissesIff` the one on the flag.
- A deposit address whose row does not exist yet is called unreachable
  (`fair-watcher.ts:242-244`), but an address is known from its allocation on,
  before its row: `IntentRace.PaymentBeforeIntentIsRefused`. The refused payment's
  row then is the earliest at its address and lends its zero address to every later
  payment but the one that fills the intent's slot: `IntentRace.ReusePaysNobody`, with
  `Runs.MintsPayTheIntentIff` for exactly which mints pay whom. Such a payment is
  accepted, and the token mints nothing to the zero address: `IntentRace.NeverPaid`
  from the start of the bridge, `Runs.ZeroAddressIsNeverPaid` in general.
- A burn's destination is to be validated before it is released
  (`base-watcher.ts:133-136`), and a call that fails counts as an invalid address: a
  burn to a valid destination gets a FAILED row if the node does not answer.
  `BurnWatcher.ProcessLog` says exactly when a burn is rejected, and
  `Runs.RejectedIsNeverPaid` that it stays so. The release worker asks again and
  retries if the call fails (`signer/fair.ts:166`): `ReleaseSigner.SignRelease`.
- `claimMint` is described as the mutex between two workers (`base.ts:65-68`). Its
  filter also matches a row that is being minted already:
  `SafeMint.TwoWorkersProposeTwice`, with `SafeMint.ProposedOnceIff` for when it
  does no harm.
- A masternode payout that failed can end in a COMPLETE cycle, or a cycle can
  stay open for good, when an outpoint is listed twice, which the code does not
  rule out: `MasternodePayouts.TwiceListedOutpoint`. `PassIsRightIff` is the exact
  condition on a loaded cycle, and distinct outpoints meet it.
- A rejected task does not cancel the pool (`rpc/fair.ts:115`): the other
  coroutines go on to the end, as `ConcurrentMap.AllStarted` states.
- A buy order's burn hash is said to be stored before the burn is broadcast
  (`signer/fair.ts:254-255`); it is stored after (`signer/buy.ts:330-341`).
  An order whose payment account turns out empty is given up after it was claimed
  (`signer/buy.ts:220-224`) and stays SWAPPING: `BuyWorker.ProcessBuy`.
  DELIVERED is not the end of an order: `BuyRuns.DeliveredCanBeLost`, with
  `BuyRuns.DeliveredStaysIff` for exactly when it lasts.

## Model

| member | source | states |
|---|---|---|
| Runs.PegHolds | services/bridge/src/workers/reserves-snapshot.ts:25-37 | Peg conservation: after every interleaved run, what was received and not released covers the supply, accepted deposits still to be minted, burns not yet recorded and releases still to be sent, up to what lost sends and mints cost; with none lost the snapshot is healthy |
| Runs.PegHoldsOutsideTheWindow | services/bridge/src/signer/base.ts:145-153 | Crashes anywhere but between a call that took effect and the write of its identifier keep the snapshot healthy |
| Peg.SlackStep | services/bridge/src/workers/fair-watcher.ts:199-431 | No event of any actor narrows the margin between custody and everything owed |
| Peg.SlackMeansHealthy | services/bridge/src/workers/reserves-snapshot.ts:35-37 | A margin that is not negative, with nothing lost, makes `deltaSats` not negative |
| Peg.UnhealthyIff | services/bridge/src/workers/reserves-snapshot.ts:35-37 | A snapshot is unhealthy exactly when the supply has more whole sats than are in custody; its delta is by how many |
| Exposure.EventMoves | services/bridge/src/signer/base.ts:103-156 | Supply plus mints owed moves only by what an accepted deposit adds, whatever the event |
| Runs.InvRun | services/bridge/src/signer/base.ts:270-341 | All invariants of the ledgers, the scans, the caps and the recipients hold after every run |
| MintLedger.MintInvStep | services/bridge/src/signer/base.ts:70-156 | A mint pays its row's recipient the row's amount and its hash is in exactly one place: on the row, in hand, or lost; MINTED rows have a successful hash, FAILED ones that were minted for a reverted one |
| ReleaseLedger.ReleaseInvStep | services/bridge/src/signer/fair.ts:32-130 | A send pays its row's destination the row's amount; BROADCAST implies a txid, CONFIRMED and FAILED imply none |
| Runs.SendsAreAccountedFor | services/bridge/src/signer/fair.ts:109-130 | For each withdrawal, sends that took effect are the one on file or in hand plus the lost ones; likewise mints per deposit |
| Runs.NothingSentTwice | services/bridge/src/signer/fair.ts:66-68 | With no crash in the window no row is paid twice, in any run |
| Runs.ColumnsStay | services/bridge/src/signer/fair.ts:70-130 | Txids and mint hashes are written once; FAILED and MINTED rows never change |
| Runs.WithdrawalCapHolds | services/bridge/src/workers/base-watcher.ts:156-188 | For every address and every instant the live releases created in the 24 hours before it stay under the cap, any set of rows named by sender, time and status, though the code checks only at creation |
| RollingCap.EveryWindowUnderCap | services/bridge/src/workers/base-watcher.ts:63-84 | The totals checked at creation bound every 24-hour window |
| RollingCap.CapInvStep | services/bridge/src/workers/base-watcher.ts:156-188 | Every live row fits under the cap together with the day before it, and stays so while rows are relabelled and the clock moves |
| Runs.TvlCapHolds | services/bridge/src/workers/fair-watcher.ts:312-339 | Supply plus accepted unexecuted mints never exceeds the cap or where it started, unless a mint settled between a supply reading and a later in-flight reading a deposit was confirmed on |
| TvlRace.CapHoldsIff | services/bridge/src/workers/fair-watcher.ts:312-339 | For every configuration: the cap holds in every run from the start of the bridge that takes the two readings in a given order (and loses no broadcast) exactly when the in-flight total is read first, or no deposit can be accepted at all; the code leaves the order open |
| TvlCap.TvlInvStep | services/bridge/src/workers/fair-watcher.ts:67-81 | The readings bound supply plus owed mints, and no event takes that sum past the cap, unless a mint settled between the two readings |
| TvlRace.PassTheCap | services/bridge/src/workers/fair-watcher.ts:313-316 | A run from the start of the bridge, with nothing lost and the supply read first, that accepts as many equal deposits as the cap has room for and one more |
| TvlRace.DefaultsCanPass | services/bridge/src/config.ts:66-71 | So the policy the service comes with, a cap of 1000 FAIR, does not hold in every run |
| Scenario.ReachLevel | services/bridge/src/workers/fair-watcher.ts:199-431 | From the start, any number of deposits the cap has room for can be accepted and minted one after the other |
| Runs.BurnsAreRecordedOnceIff | services/bridge/src/workers/base-watcher.ts:107-123 | After every run a decodable burn between the first cursor and the cursor has exactly one withdrawal row, unless the cursor was written past it after a break; then it has none |
| Runs.RunMissesIff | services/bridge/src/workers/base-watcher.ts:297-305 | A run makes the cursor pass a burn without a row exactly when some cursor write in it follows a break before a log of the window from which on a decodable log had no row |
| BurnScan.EventMissesIff | services/bridge/src/workers/base-watcher.ts:297-305 | The same of a single event of any actor |
| BurnLoss.NeverMissesIff | services/bridge/src/workers/base-watcher.ts:284-305 | Every burn behind the cursor has its row in every run exactly when the abort flag never goes up, or no deposit can be accepted so that nothing is there to burn |
| BurnLoss.BurnCanBeLost | services/bridge/src/workers/base-watcher.ts:297-305 | A run from the start of the bridge that burns all that was minted and leaves the burn behind the cursor without a row |
| BurnLoss.MissedForGood | services/bridge/src/workers/base-watcher.ts:265-308 | A burn that was passed so never gets a row, whatever happens afterwards, a restart included |
| Runs.DepositsAreRecordedOnce | services/bridge/src/workers/fair-watcher.ts:199-431 | If a row stands at an address before the scan of a block begins, then after every run whose cursor is past the block, each vout of it that pays the address has exactly one deposit row |
| DepositCursor.CursorInvStep | services/bridge/src/workers/fair-watcher.ts:207-214 | Up to the scanner's position, every payment to an address cached as the block was taken up has a row, and so has every one in the blocks behind the cursor, which lie under the configured confirmations |
| Runs.RejectedIsNeverPaid | services/bridge/src/workers/base-watcher.ts:133-174 | A burn rejected when it was recorded, be it for a validation that failed, stays FAILED in every run and nothing is ever sent for it |
| Runs.OnlyDeepEventsArePaid | services/bridge/src/workers/fair-watcher.ts:489-491 | After every run, every mint is for a payment and every send for a burn that lies on its chain under the configured number of blocks |
| Runs.MintsPayTheIntentIff | services/bridge/src/workers/fair-watcher.ts:232-239 | After every run, a mint for a payment pays the (non-zero) Base address of the intent registered at the paid address exactly when it fills the intent's own slot or no payment to the address came in before the intent; without an intent it pays the zero address |
| Recipient.RecipientInvStep | services/bridge/src/workers/fair-watcher.ts:127-145 | Each row's recipient is what the intents and the order of the rows at its address call for, or it is a refused row |
| BurnScan.BurnInvStep | services/bridge/src/workers/base-watcher.ts:107-212 | Rows match their burns' sender, destination and amount, one row per burn, each burn confirmed; behind the cursor a burn has a row or was missed, and within the window being scanned every log done has its row |
| DepositScan.RowsInvStep | services/bridge/src/workers/fair-watcher.ts:119-197 | Rows say what their vout says, which is confirmed; outpoints are distinct; one open slot an address; the cache has every row's address |
| IntentRace.RefusedIff | services/bridge/src/workers/fair-watcher.ts:241-264 | A payment is refused without a recipient exactly when no row stood at its address as it was looked up, whatever its amount |
| IntentRace.PaymentBeforeIntentIsRefused | services/bridge/src/workers/fair-watcher.ts:241-264 | That happens to a payment scanned between the allocation of its address and the intent's row |
| IntentRace.IntentCanBePreceded | services/bridge/src/workers/fair-watcher.ts:241-264 | From the start of the bridge, for any configuration and amount: the address is allocated, paid, the block confirmed and its scan begun before the row of the intent is there |
| IntentRace.AcceptedForNobody | services/bridge/src/workers/fair-watcher.ts:232-239 | From the start, a second payment before the intent's row finds the refused row, passes every check and is accepted for the zero address, though the address has an intent in the end |
| IntentRace.NeverPaid | contracts/src/WFAIR.sol:83-90 | And whatever happens then, it stays accepted and no mint for it succeeds |
| Runs.ZeroAddressIsNeverPaid | contracts/src/WFAIR.sol:83-90 | In every run a payment accepted for the zero address stays accepted, is never MINTED, and no mint for it succeeds |
| IntentRace.ReusePaysNobody | services/bridge/src/workers/fair-watcher.ts:232-239 | From then on every mint for that address but the slot's own is to the zero address and does not succeed, in every run |
| Interference.OthersRespect | services/bridge/src/workers/orchestrator.ts:64-68 | No event of another actor does what a worker relies on not being done |
| BridgeDb.Bridge.ValidMeansInv | services/bridge/src/signer/base.ts:270-341 | Whatever the workers did, the store is where a run from the start of the bridge has led and satisfies every invariant |
| BridgeDb.Bridge.Others | services/bridge/src/workers/orchestrator.ts:64-104 | Any number of events of the other actors lead to a state of the protocol that the worker's assumptions describe |
| ReleaseSigner.SignRelease | services/bridge/src/signer/fair.ts:132-249 | A withdrawal with a txid is never sent again, one without is sent at most once by a job, for its own amount and destination, and not at all to a destination the node calls invalid; done means BROADCAST, and for a txid on file that the node said it knows it; skipped exactly when already broadcast; a row is failed only for an invalid destination, and a job given up leaves it FAILED; any wallet mode but that of the node changes nothing; a throw means a call failed or the process died |
| ReleaseSigner.BroadcastSend | services/bridge/src/signer/fair.ts:109-130 | Send, txid, status, in that order, with a crash possible between any two and nothing else to stop it |
| ReleaseSigner.ReconcileSend | services/bridge/src/signer/fair.ts:74-107 | A txid on file is only looked up: nothing is sent, and done means the node said it knows it |
| MintSigner.SignMint | services/bridge/src/signer/base.ts:270-341 | A deposit with a hash is never minted again, one without at most once by a job; done means the hash on file succeeded and the row is MINTED; a throw means a setback, a reverted mint whose row is FAILED, or a mint still to be executed |
| MintSigner.BroadcastDirectEoa | services/bridge/src/signer/base.ts:145-153 | Broadcast, then the write of the hash |
| MintSigner.FinalizeDirectEoa | services/bridge/src/signer/base.ts:103-126 | The row ends as its receipt says; without a setback it is an error only if the mint reverted, and then the row is FAILED, or is still to be executed |
| BurnWatcher.ProcessLog | services/bridge/src/workers/base-watcher.ts:107-212 | Which of the branches is taken and what row it leaves; a burn is over the cap only if rows of its own sender from the 24 hours before, CONFIRMED, SIGNING, BROADCAST or FINAL in a state passed through, add up with it to more than the cap, and accepted only if they do not; a decodable burn has a row unless a setback crashed the scanner; one to a valid destination is rejected exactly when the node did not answer or the sender was over the cap |
| BurnWatcher.RecordLog | services/bridge/src/workers/base-watcher.ts:133-201 | The rejected or accepted row of a burn, the cap told by the rows of its own sender; an invalid destination is what the node says, and a call that failed, a setback, has an outcome of its own |
| BurnWatcher.AcceptLog | services/bridge/src/workers/base-watcher.ts:176-201 | The row with the amount after fees, then its job |
| BurnWatcher.FirstIsNotOver | services/bridge/src/workers/base-watcher.ts:156-174 | Whatever others withdrew: a burn within the cap by itself, of a sender without a live row of the day, is not over it |
| Totals.WithdrawalsPassIff | services/bridge/src/workers/base-watcher.ts:63-84 | The daily total and an amount pass the cap exactly when some rows of that sender, created in the 24 hours before, CONFIRMED, SIGNING, BROADCAST or FINAL, add up with the amount to more |
| Totals.FirstOfTheDay | services/bridge/src/workers/base-watcher.ts:63-84 | A sender without such a row passes the cap exactly with an amount that passes it alone |
| BurnTick.Tick | services/bridge/src/workers/base-watcher.ts:264-308 | Windows tile the blocks behind the cursor, never passing the confirmed tip; a completed pass reaches it; every decodable burn passed has its row or is among the missed, none of which are added unless the abort flag is up; a pass fails only after a setback |
| BurnTick.OneWindow | services/bridge/src/workers/base-watcher.ts:288-307 | The cursor is written to the window's end even after a break; without one nothing is missed; an error leaves the cursor where it was |
| BurnTick.ScanWindow | services/bridge/src/workers/base-watcher.ts:291-300 | The loop over the logs comes to its end, is broken off with the abort flag up, or ends in an error after a setback |
| LogWindows.TilesCoverOnce | services/bridge/src/workers/base-watcher.ts:284-290 | Every block of the range lies in exactly one window, and no window has more than ten |
| Protocol.LogsIn | services/bridge/src/workers/base-watcher.ts:291-296 | The logs of a window, each of them and no other, in the order of the chain |
| Protocol.FindSlot | services/bridge/src/workers/fair-watcher.ts:127-132 | An open slot at the address, or none exists |
| Protocol.FindEarliest | services/bridge/src/workers/fair-watcher.ts:133-139 | The earliest row at the address, or none exists |
| DepositWatcher.Persist | services/bridge/src/workers/fair-watcher.ts:155-197 | The row written for a vout, into the slot if there is one: its outpoint and sats, the recipient and index of the origin row, FAILED with the gross amount or accepted with the net one |
| DepositTick.ProcessVout | services/bridge/src/workers/fair-watcher.ts:207-429 | Which branch a vout takes: unsolicited exactly when no row stood at the address in the state it was looked up in; over the daily cap, or within it, as rows of the recipient from the 24 hours before the reading, CONFIRMED, MINTING or MINTED, add up with the payment; over the TVL, or within it, as the supply and the rows that are DETECTED, CONFIRMED or MINTING do with the mint; the row it leaves and its recipient; the mint queued on acceptance; rows and queue move only for a vout without a row; only a setback crashes it |
| DepositTick.DecideVout | services/bridge/src/workers/fair-watcher.ts:238-404 | The checks in order: origin, dust, daily cap, TVL cap, each told by the rows it is about |
| Totals.DepositsPassIff | services/bridge/src/workers/fair-watcher.ts:83-104 | The daily total and an amount pass the cap exactly when some rows of that recipient, created in the 24 hours before, CONFIRMED, MINTING or MINTED, add up with the amount to more |
| Totals.InFlightPassesIff | services/bridge/src/workers/fair-watcher.ts:67-81 | The supply, the in-flight total and an amount pass the cap exactly when the supply, some rows that are DETECTED, CONFIRMED or MINTING, and the amount add up to more |
| DepositTick.ReadTvl | services/bridge/src/workers/fair-watcher.ts:312-316 | The two readings in either order with anything in between |
| DepositTick.Accept | services/bridge/src/workers/fair-watcher.ts:341-416 | The confirmed row, then its job with the row's recipient and the amount after fees |
| DepositBlocks.ProcessBlock | services/bridge/src/workers/fair-watcher.ts:199-431 | A scan that comes to the end of the block leaves a row for every payment to an address known at its start; a scan of a finished block gives no outpoint a row and queues nothing; only a setback stops it |
| DepositBlocks.Tick | services/bridge/src/workers/fair-watcher.ts:479-503 | The cursor only advances, never past the confirmation depth of the tip, reaches it in a completed pass; every payment in a block it passed to an address known as the pass began has its row, and the orphans found have their jobs again; a pass fails only after a setback |
| DepositBlocks.FindOrphans | services/bridge/src/workers/fair-watcher.ts:437-446 | At most fifty rows that are CONFIRMED, have an outpoint and are older than the cutoff, and all of them when there are fewer |
| DepositBlocks.ReconcileOrphans | services/bridge/src/workers/fair-watcher.ts:437-473 | Every orphan found is queued again with the job it had |
| AddressBook.AddressBook.Allocate | services/bridge/src/hd/derive.ts:50-71 | An index never handed out before, in the cache before it is returned; a crash in between only wastes the index; either way what the protocol's events say |
| AddressBook.AddressBook.GetKnownDepositAddressSet | services/bridge/src/hd/derive.ts:73-86 | The loaded set has every row's address, including rows created while it was loading: it is the set the protocol's scanner knows |
| AddressBook.AddressBook.Restart | services/bridge/src/hd/derive.ts:73-74 | A restart forgets the cache and nothing persisted |
| SafeMint.ProposedOnceIff | services/bridge/src/signer/base.ts:195-268 | With crashes anywhere a deposit gets at most one Safe proposal in every run exactly when the queue has at most one worker or the Safe's nonce never moves |
| SafeMint.SafeInvRun | services/bridge/src/signer/base.ts:237-244 | Every proposal's hash is on file at its row, no row has two, a row with a hash has left CONFIRMED, and a hash on file never changes |
| SafeMint.TwoWorkersProposeTwice | services/bridge/src/signer/base.ts:65-81 | Two workers that claim the same row both propose, with two hashes when the Safe executes a transaction between their preparations |
| SafeMint.Store.SignMint | services/bridge/src/signer/base.ts:270-341 | A row with a hash is only looked up; one without gets at most one proposal; given up exactly when FAILED; skipped exactly when MINTED, or when the row had been settled by the time of its claim; done means the proposal of the hash on file exists, a fresh one if there was none; a throw means a setback, or a hash on file that was never proposed |
| SafeMint.Store.StoreAndPropose | services/bridge/src/signer/base.ts:225-267 | Hash first, then the proposal |
| BuybackSplit.SplitByBps | services/bridge/src/workers/buyback-worker.ts:110-126 | The shares add up to the total; treasury and masternode are the floors of their shares |
| BuybackSplit.SplitsEveryTotalIff | services/bridge/src/workers/buyback-worker.ts:119-124 | The error is never thrown exactly when the two floored shares do not exceed the whole |
| BuybackSplit.BurnExcess | services/bridge/src/workers/buyback-worker.ts:105-118 | With shares of 10000 the burn share exceeds its own floor by 0, 1 or 2 wei |
| BuybackSplit.EveryExcessHappens | services/bridge/src/workers/buyback-worker.ts:105-118 | Each of the three excesses occurs |
| Buyback.HashesInOrder | services/bridge/src/workers/buyback-worker.ts:541-589 | A step has a hash only after every earlier step succeeded and the total is on file |
| Buyback.CompleteIsPaid | services/bridge/src/workers/buyback-worker.ts:582-594 | COMPLETE means four successful receipts: the swap took all the USDC, and of the stored total the treasury step burned the floor of its share, the masternode step the floor of its own and the burn step what they leave, each as stored |
| Buyback.StatusNamesTheStep | services/bridge/src/workers/buyback-worker.ts:553-577 | Each status stands for its own step: the steps before it succeeded and those after it have no hash |
| BuybackWorker.Worker.RunOneCycle | services/bridge/src/workers/buyback-worker.ts:499-647 | Whatever fails, the table stays in order, at most one cycle is open, columns are written once, ended cycles do not change and a step with a hash is not broadcast again; there is nothing to do exactly when no cycle is open and the balance is below the threshold; it finishes only a cycle it worked on, COMPLETE; it is cut short only by a setback or a step that failed that cycle; with no setback, no reverted broadcast on file and a swap that brings something it comes to its end |
| BuybackWorker.Worker.RunTicks | services/bridge/src/workers/buyback-worker.ts:679-688 | The same over any number of ticks; only the last cycle can be open; with no setback, no revert and swaps that bring something, every cycle worked on is COMPLETE and there is a new one for every balance that reached the threshold |
| BuybackWorker.Worker.ClaimOrLoad | services/bridge/src/workers/buyback-worker.ts:161-196 | The open cycle if there is one; a new one for the whole balance exactly when none is open and the threshold is met |
| BuybackWorker.Worker.RunSwapStep | services/bridge/src/workers/buyback-worker.ts:288-384 | The total returned is the one on file, after a successful swap |
| BuybackWorker.Worker.FinishSwap | services/bridge/src/workers/buyback-worker.ts:300-366 | A total on file is kept; else the one the swap brought is stored; a fresh swap that brought nothing, or a reverted one, ends the cycle as FAILED, or a setback came before that; a resumed one goes on with whatever is there |
| BuybackWorker.Worker.RunBurnStep | services/bridge/src/workers/buyback-worker.ts:405-470 | One burn of the share of the stored total, by the bounds of that share, or only the receipt when a hash is on file |
| BuybackWorker.Worker.RunBurns | services/bridge/src/workers/buyback-worker.ts:553-594 | The three burns in order, each of its own share of the stored total, then COMPLETE |
| BuybackWorker.Worker.Broadcast | services/bridge/src/workers/buyback-worker.ts:444-449 | Broadcasts of a step are the one on file and the lost ones; the hash goes to the step that was broadcast, and is lost, or its transaction reverts, only with a setback |
| BuybackWorker.Worker.Settle | services/bridge/src/workers/buyback-worker.ts:451-458 | Without a setback the receipt decides: success changes nothing, a revert ends the cycle as FAILED |
| MasternodePayouts.PayoutsAreFunded | services/bridge/src/workers/masternode-reward-worker.ts:123-134 | Payouts and their fee reserve fit into the pool and leave less than one sat a masternode; nothing is paid exactly when the pool cannot give everyone a sat |
| MasternodePayouts.EligibleOf | services/bridge/src/workers/masternode-reward-worker.ts:496 | Exactly the listed masternodes whose status is ENABLED |
| MasternodePayouts.EligibleAsOften | services/bridge/src/workers/masternode-reward-worker.ts:496 | Each of them as often as it is listed |
| MasternodePayouts.EligibleInOrder | services/bridge/src/workers/masternode-reward-worker.ts:496 | And in the order of the list |
| MasternodePayouts.PayoutsListedOnce | services/bridge/src/workers/masternode-reward-worker.ts:221-233 | A list without repeated outpoints gives payouts without repeated outpoints |
| MasternodePayouts.CleanPassIsRight | services/bridge/src/workers/masternode-reward-worker.ts:240-341 | A flag local to one pass is enough: the verdict is COMPLETE exactly when every payout has a txid and is BROADCAST or CONFIRMED, and FAILED exactly when some payout failed |
| MasternodePayouts.PassIsRightIff | services/bridge/src/workers/masternode-reward-worker.ts:140-151 | Every pass over a loaded cycle gives the right verdict exactly when no payout without a txid shares its outpoint with one that has a txid and is BROADCAST or CONFIRMED |
| MasternodePayouts.VerdictOf | services/bridge/src/workers/masternode-reward-worker.ts:318-331 | The cycle stays open exactly while a payout is PENDING, whatever failed |
| MasternodePayouts.SharedOutpointGoesWrong | services/bridge/src/workers/masternode-reward-worker.ts:274-278 | A shared outpoint makes the pass give no verdict or the wrong one |
| MasternodePayouts.TwiceListedOutpoint | services/bridge/src/workers/masternode-reward-worker.ts:318-331 | A concrete cycle that ends COMPLETE with a failed payout, and one that can never end |
| MasternodeTable.SendsForCycle | services/bridge/src/workers/masternode-reward-worker.ts:280-287 | The sends of a cycle are one for every txid on file and one for every txid lost |
| MasternodeTable.NeverOverspends | services/bridge/src/workers/masternode-reward-worker.ts:123-134 | In every reachable state a cycle has sent at most its pool less the fee reserve, and a share for every txid lost |
| MasternodeTable.SingleFlight | services/bridge/src/workers/masternode-reward-worker.ts:165-171 | At most one row is PENDING or PAYING_OUT |
| MasternodeTable.Cadence | services/bridge/src/workers/masternode-reward-worker.ts:178-186 | In every reachable state any two rows were triggered more than an interval apart, and rows further apart in the table that many times more |
| MasternodeWorker.Worker.ExecuteCycle | services/bridge/src/workers/masternode-reward-worker.ts:240-363 | A pass that reaches its end has made of the payouts what the specified pass makes of the answers, and written the verdict; a payout with a txid is never sent again; with no setback it reaches its end, no payout fails, no txid is lost, and every payout has its txid but for one that shares its outpoint with a paid one |
| MasternodeWorker.Worker.Reconcile | services/bridge/src/workers/masternode-reward-worker.ts:248-272 | A txid on file is looked up and the node believed: BROADCAST if it knows it, FAILED if and only if it says it does not and the process lives to write that, a throw if it does not answer; found unless there is a setback; a payout that is BROADCAST or CONFIRMED stays as it is |
| MasternodeWorker.Worker.SendPayout | services/bridge/src/workers/masternode-reward-worker.ts:280-315 | With no setback exactly one send of the payout's amount to its address, its txid and status written; what fails marks the payout FAILED, a rejected send sends nothing, and each failure is a setback |
| MasternodeWorker.Worker.Finalise | services/bridge/src/workers/masternode-reward-worker.ts:318-342 | The verdict of the pass, right whenever the outpoints are distinct |
| MasternodeWorker.Worker.RunTick | services/bridge/src/workers/masternode-reward-worker.ts:457-559 | A row in flight is resumed: the tick has passed only after a pass over it came to its end, and without a setback every payout of it is paid, over distinct outpoints it is COMPLETE; idle or a skip only when none is in flight; with none, and if not interrupted, idle exactly when some row is younger than an interval; else one row is added, a skip for one of the reasons or a funded payout to every eligible masternode, all paid and COMPLETE unless there is a setback; interrupted only by a setback |
| MasternodeWorker.Worker.RunTicks | services/bridge/src/workers/masternode-reward-worker.ts:457-559 | The same over any number of ticks after any pauses; rows stay spaced and only the last can be in flight; without a setback the row that was in flight is paid out and ended by the first tick, every new row is served, and if none was in flight some row is younger than an interval after the last tick |
| MasternodeWorker.Worker.ClaimResumable | services/bridge/src/workers/masternode-reward-worker.ts:165-171 | The last row if it is PENDING or PAYING_OUT, claimed; none exactly when no row is |
| MasternodeWorker.FinalVerdictIsRight | services/bridge/src/workers/masternode-reward-worker.ts:318-342 | Over distinct outpoints the verdict is right after any number of crashed passes |
| BuyOrders.OrdersInvStep | services/bridge/src/signer/buy.ts:183-210 | An order's columns agree with its status and the chain, whichever actor writes; hashes and the release id are written once |
| BuyRuns.ExpiredIsFinal | services/bridge/src/workers/buy-watcher.ts:58-73 | EXPIRED is final and excludes payment detection, hashes and a release id |
| BuyRuns.BurnMeansSwapped | services/bridge/src/signer/buy.ts:197-210 | A burn hash implies a swap hash whose transaction succeeded |
| BuyRuns.ReleaseIdIsTheWithdrawals | services/bridge/src/signer/fair.ts:257-284 | The release id never changes; the order's burn has exactly one withdrawal, and the release id is its FairCoin txid |
| BuyRuns.DeliveredStaysIff | services/bridge/src/signer/buy.ts:355-358 | A linked order is DELIVERED at the end of a run exactly when it was and DELIVERING was not written in between |
| BuyRuns.DeliveredCanBeLost | services/bridge/src/signer/buy.ts:338-358 | A run in which DELIVERED is written back to DELIVERING, after which no run delivers the order |
| BuyRuns.NeverLinked | services/bridge/src/signer/fair.ts:230-241 | An order not linked when its release's one attempt was spent is never DELIVERED |
| BuyRuns.LinkedIff | services/bridge/src/signer/fair.ts:257-284 | The one attempt reaches the order of the burn exactly while it is BURNING or DELIVERING, and makes it DELIVERED with the txid of the release |
| BuyRuns.BroadcastsAreAccountedFor | services/bridge/src/signer/buy.ts:259-266 | Of two broadcasts for the same step of an order the hash of one was lost |
| BuyWorker.BroadcastAndPersist | services/bridge/src/signer/buy.ts:328-341 | One broadcast for a step without a hash, then the write of its hash |
| BuyWorker.AwaitReceipt | services/bridge/src/signer/buy.ts:298-318 | The receipt of the hash on file decides: success, or the order is FAILED for the revert; without a setback it is an error otherwise only while the transaction is still to be executed |
| BuyWorker.SwapPhase | services/bridge/src/signer/buy.ts:411-443 | At most one swap, none with a hash on file; success means a successful receipt; an account without USDC or gas leaves a claimed order without a broadcast |
| BuyWorker.BurnPhase | services/bridge/src/signer/buy.ts:445-468 | At most one burn, none with a hash on file; success means a successful receipt |
| BuyWorker.ProcessBuy | services/bridge/src/signer/buy.ts:394-486 | Skipped exactly when past its burn with a fitting key; given up only when the key does not fit, the order is FAILED, or it needs a swap its account cannot pay, and then nothing was broadcast and such an order is left SWAPPING without a hash; otherwise at most one swap then one burn, each only without a hash; done means both receipts and DELIVERING; a throw means a setback, a revert that failed the order, or a transaction still to be executed |
| BuyWatcher.ExpireStaleOrders | services/bridge/src/workers/buy-watcher.ts:58-73 | Exactly the orders that await payment past their time become EXPIRED |
| BuyWatcher.FindAwaiting | services/bridge/src/workers/buy-watcher.ts:76-83 | At most fifty orders, each AWAITING_PAYMENT and not past its time, and all of them when there are fewer |
| BuyWatcher.DetectAwaitingOrders | services/bridge/src/workers/buy-watcher.ts:75-148 | Who leaves AWAITING_PAYMENT was found in time, was paid and has its job queued, but for one order when the process dies right after its claim; a completed pass has taken every paid order found; only a setback ends it early or strands that order |
| ConcurrentMap.SequentialIff | services/bridge/src/rpc/fair.ts:117-143 | Every interleaving that is fulfilled gives the sequential map exactly when the limit is positive or there is nothing to do |
| ConcurrentMap.PoolIsBounded | services/bridge/src/rpc/fair.ts:122-141 | In every interleaving each index is started at most once, at most min(limit, n) tasks are in flight, and the pool rests after at most three steps an item |
| ConcurrentMap.BoundIsReached | services/bridge/src/rpc/fair.ts:122-141 | Over defined items some interleaving has min(limit, n) tasks in flight |
| ConcurrentMap.AllStarted | services/bridge/src/rpc/fair.ts:112-115 | A pool at rest with one coroutine that returned has started every item exactly once, rejections or not |
| ConcurrentMap.FulfilledIsSequential | services/bridge/src/rpc/fair.ts:141-142 | A fulfilled pool has every result in input order |
| ConcurrentMap.StepsShrink | services/bridge/src/rpc/fair.ts:130-137 | Every step of a coroutine takes some of the work left |
| ConcurrentMap.MapWithConcurrency | services/bridge/src/rpc/fair.ts:117-143 | Terminates under any scheduler; over defined items it is rejected exactly when some task rejects and otherwise gives the sequential map; results are right where present |
| ConcurrentMap.GetBlockWithTxs | services/bridge/src/rpc/fair.ts:167-194 | Fails exactly when the fetch of some txid does; otherwise the decoded transactions come in the order of the block's txids |
| DecimalAmounts.FormatThenParse | services/bridge/src/api/buy.ts:322-333 | What the printer prints matches the accepted pattern and parses back to the value, for any number of decimals |
| DecimalAmounts.ParseThenFormat | services/bridge/src/api/buy.ts:73-81 | Printing a parsed accepted string gives it without redundant zeros at either end |
| DecimalAmounts.SameAmountIff | services/bridge/src/api/buy.ts:41-44 | Two accepted strings are the same amount exactly when they differ only in redundant zeros |
| DecimalAmounts.SplitDot | services/bridge/src/api/buy.ts:74-76 | The parts around the first dot, or the whole string when there is none |
| Digits.PrintThenRead | services/bridge/src/api/buy.ts:330 | Printing a number and reading it back is the identity |
| Digits.ReadThenPrint | services/bridge/src/api/buy.ts:77-79 | Reading digits and printing drops the redundant leading zeros and nothing else |
| RoundTrip.TwoFeesTwoSats | services/bridge/src/workers/base-watcher.ts:40-42 | A deposit that is minted, burned and released comes back less two fees and at most two sats |
| AddressBytes.FairAddressToBytes | services/bridge/src/lib/fair-address-bytes.ts:10-15 | The hex digits of the address's bytes, in order |
| AddressBytes.DecodesIff | services/bridge/src/workers/base-watcher.ts:44-47 | The scanner reads back the address burned to without the whitespace at its ends, so the address itself exactly when it has none there |
| AddressBytes.TrimDropsTheEnds | services/bridge/src/workers/base-watcher.ts:46 | What is trimmed is whitespace, and all of it at either end |
| FloatSats.SatsRoundTrip | services/bridge/src/workers/masternode-reward-worker.ts:52-66 | Sats survive the conversion to floating-point FAIR and back, for every rounding within the standard error and every amount up to 1.5e15 sats (above 2^50) |
| FloatSats.ReportedAmountIsExact | services/bridge/src/workers/fair-watcher.ts:37-39 | An amount reported by the node as a rounded decimal is taken as exactly its sats |

## Left out

- FairCoin network fees, the seed mint, admin mints, masternode payouts and wallet change: the custody of the peg theorem is fed by recorded deposits and releases only.
- WFAIR's per-holder balances, roles and the pause switch: the contract is modelled by its total supply and its events; a paused contract is a mint that reverts or is not executed.
- The deposit-side daily cap over rolling time: it filters on the intent's creation time, so the argument for withdrawals does not carry over; the model keeps the check as it is.
- The withdrawal orphan reconciler and repeated delivery by the queues: jobs may be queued again for any row at any time and run any number of times; a run is not bounded to fifty rows a pass.
- Branches for a row that vanished between two reads, or for a second worker that claimed it: with one job per queue and no deletion they cannot be reached, so the methods leave them out.
- Buyback: USDC balances, quotes, slippage and approvals are not modelled; a realised amount is any number, a receipt any outcome. A zero share would revert and keep its cycle open.
- Masternode pool: the figure is what the node reports, per cycle; nothing is claimed across cycles.
- Buy orders: approvals and gas top-ups; whether a key fits, an account has USDC and its gas can be paid are inputs of a job, and balances are what the chain answers in a pass. Only orders paid in USDC on Base move.
- Buyback and masternode counts of broadcasts treat a lost hash as known to be lost at the crash; the operator's manual recovery is not modelled.
- Floating point: bounds are for amounts up to 1.5e15 sats; overflow, underflow and the exactness of integers below 2^53 are taken from the standard.
- Safe transactions: the hash is taken to be injective in the payment and the Safe's nonce.
- Decimal amounts: the parser is modelled on strings the API's pattern accepts; other strings never reach it.
- Deep chain reorganisations, RPC parsing of numbers, address checksums and characters outside ASCII, the HTTP routes, alerts, logging, rate limits and start-up code.
- Liveness: nothing is claimed about when a job runs, only about what it leaves.
