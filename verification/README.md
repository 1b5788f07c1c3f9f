# State services: money movement and offline sync

A verification model, in Dafny, of the parts of the repository where a mistake loses money or records:
the two-phase transfer client with its saga and month-end sweep, the statutory split engine with its
linked-chain ledger, the edge device's sync protocol, the idempotency middleware and outbox relay, and
a few self-contained algorithms (component labelling, rank AUC, hash chains, point in polygon, shoelace
area and bounding boxes).

Every operation that works by changing state is a method over a class with the source's fields (or an
in-place array), proved to do what a function of the old state says; the results below are then proved
about those functions, over every input, every interleaving or every run.

| files | model |
|---|---|
| `TransferLedger`, `TransferLedgerCreate`, `TransferLedgerLaws`, `TransferLedgerInvariants`, `SagaNames` | `ledger/fundsflow/tigerbeetle_flows.py` |
| `Saga`, `SagaCoordinator`, `SagaRecovery`, `SagaForesight`, `SagaProgress`, `SagaRecourse`, `SagaWitnesses` | `ledger/fundsflow/saga.py` |
| `EomSweep`, `EomAccounting`, `EomReport` | `ledger/fundsflow/eom_sweep.py` over the split engine |
| `SplitEngine`, `LinkedLedger`, `LinkedLedgerLaws`, `LinkedLedgerIsolation`, `LinkedLedgerReports`, `SplitIds`, `SplitChain`, `SplitChainLaws`, `SplitPayouts` | `ledger/splits` |
| `EdgeSync`, `EdgeProtocol`, `EdgeEngine`, `EdgeDrain`, `EdgeIntake`, `EdgePublish`, `EdgePoison` | `edge/edge-daemon` |
| `Idempotency`, `IdempotencyProtocol`, `IdempotencyLaws`, `IdempotencySequence` | `ledger/fundsflow/idempotency.py` |
| `OutboxRelay`, `OutboxRelayLaws`, `OutboxHistory` | `ledger/fundsflow/outbox.py` |
| `FloodFill`, `RankAuc`, `HashChain`, `AuditLog`, `PointInPolygon`, `PolygonTriangles`, `Geometry` | one algorithm each |
| `Sums` | sums over maps and small sequence facts |

## How the world is modelled

- **Hashes and ids.** SHA-256 is collision free and never yields zero, so an id is represented by the
  text that is hashed, and a request hash by the payload. The hash chain takes its hash as a parameter,
  with collision freedom and "never genesis" as hypotheses of the theorems that need them. An Ed25519
  signature verifies exactly when the named key signed exactly these fields.
- **Crashes (saga, sweep).** A process performs durable operations: client calls, outbox writes, store
  saves. Each one uses up a tick (in the sweep, one unit of budget); when they run out the process is dead
  at that very point, so every gap between an action and its save is a crash point. A tick also says what
  fails there and what other users of the ledger did just before. Stores copy what they save.
  "Net of other users" is stated with a history variable that no code writes: the ledger as it would be
  had this saga never called it. Two more history variables note a post that raised on a chain already
  posted (`stray`) and reversal legs applied by a call that then raised (`torn`).
- **Networks, buses, clocks.** Oracles say what becomes of each attempt. In the sync protocol both message
  pools only grow: a message never delivered is lost, one delivered twice is repeated.
- **Interleaving (idempotency).** One atomic step for each store or cache operation of each caller; the
  clock only advances. A claim opens a window that ends at the claim's expiry; an execution may outlive
  it. The theorems assume that a call that stores or releases after its own window finds the key nobody
  else's, which `LateWriteHarmlessIff` shows to be exactly what is needed.
- **Integers.** Amounts and totals of the Go ledger are 64-bit words that wrap around; Python integers are
  unbounded. Go panics are an outcome.

## Where code and documentation differ

The model follows the code. The members named in each item give the run that shows the difference, the exact
condition under which the documented claim holds, or both.

- `create_transfers` documents that a failed chain is rolled back as a whole. The roll-back deletes every record
  the call touched that is marked PENDING, so a failed chain that names an old hold deletes that hold, and a
  direct leg before the refused one keeps its effect and loses its record. The call is atomic exactly when
  neither happens (`FailedCreateAtomicIff`, `FailedChainDropsStoredHold`, `DirectChainIsNotAtomic`).
- A direct transfer keeps the default state PENDING, so post, void and roll-back take it for a hold
  (`CreateHoldsExactIff`, `SettleHoldsExactIff`, `PostingADirectTransferSettlesTwice`).
- COMPENSATED does not always mean "undone": a post that raises on a chain it had already posted is never
  reversed, and a reversal torn by a failure and a crash is applied twice (`CompensatedNetsToZeroIff`,
  `StrayPostLeavesChainPaid`, `TornReversalPaysTwice`). What rules either out beforehand is in `NoStrayPost`,
  `OneLegSagaNetsToZero` and `NeverFails`.
- A reversal is documented to move a committed chain's money back to its source. A chain that passes money through an account can
  commit and yet be refused its refund, for want of money in that account (`PassThroughReversalIff`,
  `AnyReversalCommitsIff`); settlement chains never do that.
- `muldivFloor` says its bounds are guaranteed. They are for instant legs; a month-end percentage is bounded
  only when the pack was validated, and otherwise the division can panic (`ComputeSplit`, `ValidPackSplits`).
- The sweep is documented to leave clearing at zero. It does when every month-end rule earned at least one kobo
  over the month; a rule that earned nothing, or a pack without month-end rules, makes it refuse and leave
  clearing as it is (`SweepClosesMonth`, `SmallMonthIsRefused`). Stopped between sending the remainder and recording
  the run, it is completed by a run whose report says that nothing remained (`InterruptedReportUnderstates`).
- The linked ledger stages the whole batch before it decides which chains fail, so credit staged by a
  failing chain funds other transfers and an account can be overdrawn. No batch does this unless some
  transfer debits what an earlier transfer of another chain with several members credits, and every such
  batch does it in some state, if its chains credit no account they debit (`RunStaysHealthy`, `NeverOverdrawsIff`, `SpendingOverdraws`, `BorrowedCreditOverdraws`).
- The ledger's ids are documented as unique. They are checked against earlier batches only, so two transfers
  with one id in one batch both apply; a batch with distinct ids never does this (`AppliesOnceIff`,
  `OneIdPaysTwice`).
- An idempotent execution that outlives its window stores or releases under a claim that may no longer be its
  own. That is harmless exactly when the key is nobody else's by then (`LateWriteHarmlessIff`,
  `LateReleaseExecutesTwice`, `LateStoreExecutesTwice`).
- `sync_once` remarks that a poison record never blocks the queue, because each record is acknowledged on its
  own. The gateway's gap rule contradicts it: a record gets through only if the sequence before it has been
  accepted, so while one record stays unaccepted every later one of its device is rejected and the device's
  outbox stands still (`RejectedIff`, `UnacceptedBlocks`, `AcceptedIffInOrder`, `PoisonBlocksForever`,
  `ForgedRecordBlocks`). Records an honest device signed are never rejected (`NothingHonestIsRejected`).
- `SubmitChainIdempotent` compares ids only: a chain whose ids all exist is reported as committed even if
  its amounts differ from what was committed under them (`SubmissionSucceedsIff` says exactly that).
- `point_in_polygon` says a point on an edge counts as inside. It does exactly when the polygon lies to the
  right of the point (`EdgePointTakesRightSide`); on a rectangle the right and upper edges are outside
  (`RectangleIsHalfOpen`).

## Model

| member | source | states |
|---|---|---|
| TransferLedger.InMemoryTBClient.CreateTransfers | ledger/fundsflow/tigerbeetle_flows.py:99-137 | the in-place create, with its replay, refusal and roll-back branches, moves transfers, balances and hold totals exactly as the function all create laws are about |
| TransferLedger.InMemoryTBClient.RollBack | ledger/fundsflow/tigerbeetle_flows.py:128-136 | the except-branch: every touched record still PENDING is deleted and its amount taken off the hold total, direct transfers included |
| TransferLedger.InMemoryTBClient.PostPendingTransfers | ledger/fundsflow/tigerbeetle_flows.py:139-157 | refuses the whole call on an unknown or voided id before touching anything, otherwise posts every PENDING one once |
| TransferLedger.InMemoryTBClient.VoidPendingTransfers | ledger/fundsflow/tigerbeetle_flows.py:159-173 | refuses the whole call on an unknown or posted id, otherwise voids every PENDING one once |
| TransferLedger.InMemoryTBClient.Apply | ledger/fundsflow/tigerbeetle_flows.py:91-93 | debit then credit, also when both are one account |
| TransferLedger.BuildHoldChain | ledger/fundsflow/tigerbeetle_flows.py:200-225 | one pending transfer a leg, ids from key and leg name, all but the last linked |
| TransferLedger.BuildReversalChain | ledger/fundsflow/tigerbeetle_flows.py:228-263 | refuses an empty chain or a non-positive leg, otherwise one direct transfer a leg with the accounts swapped and reversal ids |
| TransferLedgerLaws.CreateFresh | ledger/fundsflow/tigerbeetle_flows.py:99-137 | for unseen distinct new records: success stores the chain with its whole effect; failure restores the records, while direct legs applied before the refusal keep their effect on balances and are subtracted from hold totals they never entered |
| TransferLedgerCreate.CreateTouchesAccepted | ledger/fundsflow/tigerbeetle_flows.py:99-137 | for any chain, stored, repeated, reserving or direct legs alike: the create succeeds exactly when no leg is refused, a leg being refused when it is new and is failed on purpose, not positive, or not covered after what the new legs before it move and reserve; in any case it touches one record a leg up to the first refused one |
| TransferLedgerInvariants.FailedCreateAtomicIff | ledger/fundsflow/tigerbeetle_flows.py:74-137 | the documented all-or-nothing roll-back, exactly: a failed create leaves all records, balances and hold totals as they were if and only if, before the leg it refuses, every leg not stored yet is pending and no leg names a record stored as PENDING |
| TransferLedgerInvariants.FailedChainDropsStoredHold | ledger/fundsflow/tigerbeetle_flows.py:105-135 | a concrete chain of two holds whose failure deletes a hold that was stored before the call and releases its amount |
| TransferLedgerLaws.DirectChainIsNotAtomic | ledger/fundsflow/tigerbeetle_flows.py:128-136 | a concrete two-leg direct chain whose failure leaves money moved, its record gone and a negative hold total |
| TransferLedgerLaws.CreateReplay | ledger/fundsflow/tigerbeetle_flows.py:105-108 | creating a chain all of whose ids exist returns the stored records, succeeds whatever leg is set to fail, and changes nothing |
| TransferLedgerLaws.PostChain | ledger/fundsflow/tigerbeetle_flows.py:139-157 | posting a stored pending chain settles every leg once and releases exactly what it reserved |
| TransferLedgerLaws.PostReplay | ledger/fundsflow/tigerbeetle_flows.py:157 | posting an already posted chain changes nothing |
| TransferLedgerLaws.VoidChain | ledger/fundsflow/tigerbeetle_flows.py:159-173 | voiding a stored pending chain releases exactly what it reserved and moves no balance |
| TransferLedgerLaws.PostOutcome | ledger/fundsflow/tigerbeetle_flows.py:139-157 | a post that succeeds leaves every listed id POSTED and no other record different; one that fails leaves the ledger unchanged; it fails exactly when it is made to, or when an id is unknown or voided |
| TransferLedgerLaws.VoidOutcome | ledger/fundsflow/tigerbeetle_flows.py:159-173 | a void that succeeds leaves every listed id VOIDED and no other record different; one that fails leaves the ledger unchanged; it fails exactly when an id is unknown or posted |
| TransferLedgerLaws.SettledForGood | ledger/fundsflow/tigerbeetle_flows.py:139-173 | a chain once posted can no longer be voided, a chain once voided can no longer be posted, and either refusal changes nothing |
| TransferLedgerLaws.VoidedChainCannotBePosted | ledger/fundsflow/tigerbeetle_flows.py:147-148 | a stored pending chain that has been voided as a whole is refused by every later post, which leaves the ledger as the void left it |
| TransferLedgerLaws.HoldChainPays | ledger/fundsflow/tigerbeetle_flows.py:200-225 | posting a hold chain brings every account exactly the legs that name it as destination and takes their sum from the source |
| TransferLedgerLaws.HoldChainOkIff | ledger/fundsflow/tigerbeetle_flows.py:109-119 | a fresh hold chain out of one account is accepted if and only if every amount is positive, no leg is set to fail and the balance less existing holds covers the sum |
| TransferLedgerLaws.ReversalCancels | ledger/fundsflow/tigerbeetle_flows.py:228-263 | the hold chain's legs and the reversal chain's legs cancel on every account |
| TransferLedgerInvariants.CreateHoldsExactIff | ledger/fundsflow/tigerbeetle_flows.py:82-137 | after a create the running hold totals equal the scan over outstanding holds if and only if no leg is refused or no leg before the refused one names a direct transfer still marked PENDING |
| TransferLedgerInvariants.LastLegMaySettle | ledger/fundsflow/tigerbeetle_flows.py:99-137 | that condition holds, whatever the ledger, for every chain that reserves in all legs but the last and names no stored direct transfer before it: hold chains and single direct legs among them |
| TransferLedgerInvariants.SettleHoldsExactIff | ledger/fundsflow/tigerbeetle_flows.py:139-173 | posting and voiding keep running totals equal to the scan if and only if they do nothing or no id names a direct transfer |
| TransferLedgerInvariants.RunKeepsInvariant | ledger/fundsflow/tigerbeetle_flows.py:82-173 | over every run in which chains are new records, holds, direct legs or a mix, no new direct leg is drawn on an account that carries a hold by then, and no direct transfer is posted, voided or named before a refused leg: running totals equal the scan and 0 <= holds <= balance on every account, so posting never overdraws |
| TransferLedgerInvariants.HoldRunKeepsInvariant | ledger/fundsflow/tigerbeetle_flows.py:82-173 | while every transfer is created as a hold nothing else is assumed: the same holds after every run of deposits, creates that succeed or fail, posts and voids, in any order and with any ids |
| TransferLedgerInvariants.RunConserves | ledger/fundsflow/tigerbeetle_flows.py:91-173 | over every run whatsoever, torn roll-backs included, the balances sum to what was deposited |
| TransferLedgerInvariants.PostingADirectTransferSettlesTwice | ledger/fundsflow/tigerbeetle_flows.py:68-157 | a direct transfer keeps the default state PENDING, so posting its id settles it a second time |
| SagaCoordinators.SagaCoordinator.constructor | ledger/fundsflow/saga.py:326-347 | begin saves the INIT record and nothing else |
| SagaCoordinators.SagaCoordinator.SaveRecord | ledger/fundsflow/saga.py:90-95 | a save survives unless the process is already dead; it copies the record |
| SagaCoordinators.SagaCoordinator.RunAction | ledger/fundsflow/saga.py:191-292 | the four actions against the client in place equal the action function, failures included |
| SagaCoordinators.SagaCoordinator.RunCompensation | ledger/fundsflow/saga.py:204-275 | the four compensations in place equal the compensation function; hold voids only legs still pending |
| SagaCoordinators.SagaCoordinator.ExecuteSteps | ledger/fundsflow/saga.py:349-367 | the forward loop, dying at any operation, leaves what the specification leaves |
| SagaCoordinators.SagaCoordinator.CompensateSteps | ledger/fundsflow/saga.py:369-388 | the reverse walk, its failure branch and its saves, likewise |
| SagaCoordinators.SagaCoordinator.RecoverUnfinished | ledger/fundsflow/saga.py:416-435 | recovery resumes forward or continues compensating according to the saved state |
| SagaRecovery.DistinctNamesSuffice | ledger/fundsflow/saga.py:191-275 | distinct leg names without the separator, none of them payout, make all ids of one saga distinct |
| SagaNames.ChainsAreWhole | ledger/fundsflow/tigerbeetle_flows.py:200-263 | hold and reversal chains are linked up to the closing leg, reserve or settle as a whole and name each leg after the plan's |
| SagaNames.OtherKeysOtherIds | ledger/fundsflow/tigerbeetle_flows.py:30-46 | sagas under different keys that hold no separator share no transfer id, whatever their legs are called |
| SagaNames.BarInKeyCollides | ledger/fundsflow/tigerbeetle_flows.py:30-46 | two sagas, one key holding a separator, of which one's reversal has the id of the other's hold |
| SagaRecovery.CompletedMeansOnce | ledger/fundsflow/saga.py:349-434 | for every placement of crashes, failures and other users' activity over any number of lives: COMPLETED implies each leg and the payout took effect exactly once on every account, none of the saga's holds is outstanding, and the event was published |
| SagaProgress.PublishRaisesEvents | ledger/fundsflow/saga.py:277-292 | the event is published exactly when its write is not made to fail, and no other action publishes anything |
| SagaProgress.StateNamesStep | ledger/fundsflow/saga.py:349-367 | in every run the saved state names the last completed step until the saga ends or compensates |
| SagaProgress.NextOkIff | ledger/fundsflow/saga.py:191-292 | at any point of a forward run, with no leg made to fail: the hold succeeds if and only if it was made before or the source covers every leg, the post exactly unless it is made to raise, the payout if and only if it was made before or its account covers it, the publication exactly unless it is made to raise |
| SagaProgress.CalmSagaCompletes | ledger/fundsflow/saga.py:349-367 | a covered saga in which nothing is made to fail, with others who only add money, ends COMPLETED in one life of twice as many operations as it has steps and one more, with one event, the sum of the legs taken from the source and every destination and the payee paid exactly theirs |
| SagaProgress.CrashesDoNotStopIt | ledger/fundsflow/saga.py:416-435 | any number of crashes anywhere never keep such a saga from COMPLETED once one life is long enough |
| SagaRecourse.NeverFails | ledger/fundsflow/saga.py:369-388 | on a ledger where no account is short, with others who only add money and no leg made to fail, no saga ends FAILED: crashes anywhere, posts and publications that raise, a source or a payer of the payout that cannot be charged all end COMPLETED or COMPENSATED within a life of thirteen operations, and no reversal is torn |
| SagaRecovery.CompensatedResidue | ledger/fundsflow/saga.py:369-388 | exactly what a COMPENSATED saga has left on every balance and hold total: the legs of torn reversals, and the whole chain after a stray post failure |
| SagaRecovery.CompensatedNetsToZeroIff | ledger/fundsflow/saga.py:369-388 | COMPENSATED means net zero on every account with no hold of the saga outstanding if and only if no reversal raised after applying some legs and no post raised on a chain already posted, unless all legs of that chain pay the payer itself |
| SagaForesight.NoStrayPost | ledger/fundsflow/saga.py:349-435 | told beforehand: if no post is made to fail after the first life, no post raises on a chain already posted, whatever fails in the first life and wherever any life is cut short |
| SagaForesight.OneLegSagaNetsToZero | ledger/fundsflow/saga.py:349-435 | a saga of at most one leg whose later lives can post nets to zero on every account whenever it ends COMPENSATED, for every placement of crashes and other failures |
| SagaRecovery.RecoveryTerminates | ledger/fundsflow/saga.py:416-435 | a life that is not cut short before thirteen operations reaches a terminal state |
| SagaWitnesses.StrayPostLeavesChainPaid | ledger/fundsflow/saga.py:349-388 | a post whose save is lost and whose retry raises ends COMPENSATED with the chain still paid |
| SagaWitnesses.TornReversalPaysTwice | ledger/fundsflow/saga.py:349-388 | a run from begin in three lives: the second dies after a half-applied reversal, before saving FAILED, the third reverses the applied leg again and ends COMPENSATED |
| EomSweep.EomSweeper.RunEomSweep | ledger/fundsflow/eom_sweep.py:47-130 | the sweep against the client in place, dying after any client call or before the store write, equals its specification |
| EomSweep.RestartedSweepIsTheSame | ledger/fundsflow/eom_sweep.py:47-130 | stopped after any operation any number of times and started again, the sweep ends with the very ledger of one uninterrupted sweep, clearing at zero |
| EomReport.SweepReports | ledger/fundsflow/eom_sweep.py:47-130 | however often it is stopped, the run that ends the sweep succeeds and reports the legs' total; the remainder it reports is what went to the fund or zero, and exactly what went there when nothing was stopped |
| EomReport.InterruptedReportUnderstates | ledger/fundsflow/eom_sweep.py:84-127 | stopped right after the remainder was sent, the sweep is completed by a run that reports a remainder of zero though the fund has it |
| EomAccounting.MonthBalances | ledger/splits/split.go:86-111 | after N payments split under a 100% pack the accumulated month-end legs never exceed what was left in clearing and fall short of it by at most N times the number of month-end rules |
| EomAccounting.SweepClosesMonth | ledger/fundsflow/eom_sweep.py:65-130 | from such a clearing account the sweep ends completed with clearing at exactly zero if and only if there is a month-end rule and each one earned at least one kobo over the month, restarts included; the revenue fund then gets the legs that pay it, as a leg may, or pay clearing itself, and at most N times the number of month-end legs in kobo on top; in every other month each run is refused and no run changes the books |
| EomAccounting.SmallMonthIsRefused | ledger/fundsflow/eom_sweep.py:70-73 | a valid pack and one payment of 1000 kobo whose month-end legs are 99 and 0: the sweep is refused and clearing keeps its 100 |
| SplitEngine.MulDivFloorExactIff | ledger/splits/split.go:42-52 | the 128-bit multiply and divide returns the true quotient if and only if it fits 64 bits; otherwise it panics |
| SplitEngine.PartitionRules | ledger/splits/split.go:57-67 | rules by timing in gazetted order, or an error if any rule has none |
| SplitEngine.SplitPool | ledger/splits/split.go:86-102 | every instant leg but the last is its floor, the last takes the rest of the pool, and the wrapping subtraction never wraps |
| SplitEngine.MonthEndLegs | ledger/splits/split.go:103-109 | each month-end leg is its floor; panics exactly when some quotient does not fit |
| SplitEngine.ComputeSplit | ledger/splits/split.go:56-112 | rejects exactly the inputs the engine refuses, panics exactly when a month-end quotient does not fit, and otherwise returns the promised plan |
| SplitEngine.ValidatePack | ledger/splits/policy.go:171-201 | accepts exactly the rule lists that allocate 100.00% with at least one instant basis point |
| SplitEngine.ValidPackSplits | ledger/splits/split.go:42-112 | a validated pack is always split: no rejection, no panic |
| SplitEngine.SharesRound | ledger/splits/split.go:86-102 | flooring each share loses less than one kobo a rule against the share of the sum |
| SplitEngine.PlanConserves | ledger/splits/split.go:86-111 | instant legs plus remainder equal gross exactly; the last leg is at least its own floor and exceeds it by at most n-1 kobo |
| SplitEngine.PlanUnique | ledger/splits/split.go:56-112 | there is only one such plan for an amount and a rule list |
| SplitEngine.RemainderCoversMonthEnd | ledger/splits/split.go:103-111 | under a validated pack month-end legs sum to at most the remainder, with a gap of at most their count |
| LinkedLedger.InMemoryLedger.CreateAccount | ledger/splits/fake.go:51-57 | registers once; re-creating is a no-op |
| LinkedLedger.InMemoryLedger.ValidateTransfer | ledger/splits/fake.go:117-142 | the validation switch in source order, with 64-bit wrap-around in the overdraft test |
| LinkedLedger.InMemoryLedger.StageBatch | ledger/splits/fake.go:111-147 | each transfer's code is its validation against what its predecessors staged, and an open last chain is marked |
| LinkedLedger.InMemoryLedger.CascadeFailures | ledger/splits/fake.go:148-172 | the final code of a transfer is its own, or linked_event_failed exactly when some member of its chain failed |
| LinkedLedger.InMemoryLedger.CreateTransfers | ledger/splits/fake.go:97-194 | the batch leaves the state the specification commits, reports exactly the failures, and logs the batch |
| LinkedLedgerLaws.ChainsCommitWhole | ledger/splits/fake.go:149-172 | for any batch of any mix of chains, two members of one chain both apply or both do not |
| LinkedLedgerLaws.OpenChainNeverApplies | ledger/splits/fake.go:143-146 | no member of a chain the batch leaves open applies |
| LinkedLedgerLaws.SingleChainAllOrNothing | ledger/splits/fake.go:97-194 | a single-chain batch applies wholly and reports nothing, or changes nothing |
| LinkedLedgerLaws.PostedAfter | ledger/splits/fake.go:174-193 | every applied transfer and nothing else shows in each account's posted totals |
| LinkedLedgerReports.BatchTotals | ledger/splits/fake.go:174-193 | for any batch, pending transfers and others alike, each account's posted and pending totals grow by exactly the applied transfers of their kind, wrapping at 64 bits, and no account appears or disappears |
| LinkedLedgerReports.ReportIsExact | ledger/splits/fake.go:103-180 | each reported entry names a transfer by its place in the batch and the first reason, in the order of the validation switch, that holds of it in the state: open chain, zero id or amount, same accounts, id on record, unknown account, more than its account's balance with what counts before it, or a chain mate refused on its own account |
| LinkedLedgerReports.CodeIsFirstReason | ledger/splits/fake.go:111-172 | every transfer of every batch is applied exactly when none of these reasons holds of it |
| LinkedLedgerReports.FailuresList | ledger/splits/fake.go:174-180 | the report lists every transfer that was not accepted once, in batch order, and no other |
| LinkedLedgerReports.ReportedIffNotApplied | ledger/splits/fake.go:174-193 | a transfer under an unused id of its own is reported if and only if the ledger does not record it afterwards |
| LinkedLedgerIsolation.NeverOverdrawsIff | ledger/splits/fake.go:111-194 | no-overdraft decided on the batch alone: a well-formed settling batch in which no chain credits an account it debits keeps every healthy state healthy if and only if no transfer debits what an earlier transfer of another chain with several members credits |
| LinkedLedgerIsolation.SpendingOverdraws | ledger/splits/fake.go:111-194 | for each batch that breaks that condition on an account the spending chain does not credit, a healthy state in which the batch leaves the account with more debits than credits |
| LinkedLedgerIsolation.RunStaysHealthy | ledger/splits/fake.go:97-194 | over every run of settling batches, each any mix of chains that spends from no other chain of its batch, no account's debits ever exceed its credits |
| LinkedLedgerIsolation.SingleChainIsolated | ledger/splits/fake.go:97-194 | a batch that is one chain spends from no other |
| LinkedLedgerLaws.BorrowedCreditOverdraws | ledger/splits/fake.go:111-142 | two chains in one batch: credit staged by the failing one funds the other and overdraws an account |
| LinkedLedgerIsolation.AppliesOnceIff | ledger/splits/fake.go:126-129 | a well-formed batch applies each id at most once in every state if and only if its own ids are distinct |
| LinkedLedgerIsolation.OneIdPaysTwice | ledger/splits/fake.go:126-193 | two transfers with one id in one batch both move their amount, under a single record |
| SplitIds.Itoa | ledger/splits/deterministic.go:50-62 | stays inside its 20-byte buffer and yields the decimal text (empty for negative numbers) |
| SplitIds.ParseInvertsDecimal | ledger/splits/deterministic.go:50-62 | decimal parsing inverts it, so different indices have different texts |
| SplitIds.LegIdsDistinct | ledger/splits/deterministic.go:39-47 | over all keys and indices: leg ids and reversal ids each name their key and index, and no leg id is a reversal id |
| SplitIds.DecodeInvertsBuild | ledger/splits/account_id.go:61-97 | building succeeds exactly for 80-bit entities and decoding gives the parts back, though the entity straddles both limbs |
| SplitIds.BuildInvertsDecode | ledger/splits/account_id.go:61-97 | building inverts decoding for every 128-bit id |
| SplitIds.LayoutIsPositional | ledger/splits/account_id.go:49-75 | tenant, MDA, class and the lowest 16 entity bits are the base-2^16 digits of the low word, the rest of the entity is the high word |
| SplitChain.IdSource.NewId | ledger/splits/types.go:50-54 | process-unique ids from a counter |
| SplitChain.BuildAtomicChain | ledger/splits/chain.go:72-109 | one transfer an instant leg out of clearing, deterministic ids under a key, minted ones otherwise, all but the last linked; the error cases in source order |
| SplitChain.AppendChainLeg | ledger/splits/chain.go:136-143 | marks the caller's own closing leg linked in place and closes the chain with the new leg |
| SplitChain.ExecuteAtomicSplit | ledger/splits/chain.go:115-131 | returns the chain exactly when the whole of it committed, and otherwise leaves the ledger as it was |
| SplitChain.SubmitChainIdempotent | ledger/splits/chain.go:149-170 | succeeds exactly when every reported failure is exists |
| SplitChain.SettleGross | ledger/splits/chain.go:174-184 | under any rules: refused exactly when the engine rejects them, panics exactly when a month-end share does not fit 64 bits, settled means the plan is the promised one and its whole chain committed, refused later only for what the ledger reports about the chain of that plan or for an entity over 80 bits, and nothing but a settlement changes the ledger |
| SplitChain.ValidPackNeverPanics | ledger/splits/chain.go:174-184 | under a validated pack settlement rejects only amounts of 2^63 kobo or more and never panics |
| SplitChain.BuildReversalChain | ledger/splits/reversal.go:21-44 | the mirror of the originals filled leg by leg, with reversal ids; refuses an empty chain or an empty key |
| SplitChain.ExecuteReversalChain | ledger/splits/reversal.go:49-58 | builds and submits the reversal as one idempotent chain |
| SplitChainLaws.SingleChainCommitsIff | ledger/splits/fake.go:97-194 | any single chain, also one that passes money through an account, commits if and only if every leg is well formed and unused and its account can pay it out of its balance and what the legs before it bring and take; otherwise nothing changes |
| SplitChainLaws.ChainCommitsIff | ledger/splits/fake.go:97-194 | a chain in which no account both pays and is paid commits if and only if every leg is well formed and unused and each paying account's balance covers the sum of its legs; otherwise nothing changes |
| SplitChainLaws.CommittedEffect | ledger/splits/fake.go:174-193 | any settling batch that commits whole moves exactly its transfers on every account and records exactly its ids |
| SplitChainLaws.AnyReversalCommitsIff | ledger/splits/reversal.go:21-58 | at any later time the reversal of any chain commits if and only if, leg by leg in the original order, the credited account can pay the leg back |
| SplitChainLaws.PassThroughReversalIff | ledger/splits/reversal.go:21-58 | the refund of a committed chain that passes an amount on through an account commits right after it if and only if that account held the amount beforehand, so a committed chain can be irreversible |
| SplitChainLaws.PassingCommitsIff | ledger/splits/fake.go:97-194 | such a chain itself commits whenever its first account can pay |
| SplitChainLaws.ReversalCommitsIff | ledger/splits/reversal.go:21-58 | without pass-through: at any later time the reversal commits if and only if every account the chain credited still holds what the chain brought it |
| SplitChainLaws.ReversalRestores | ledger/splits/reversal.go:21-58 | settling then reversing with nothing in between always commits and restores every account's balance |
| SplitChainLaws.SubmissionSucceedsIff | ledger/splits/chain.go:149-170 | an idempotent submission succeeds in exactly two cases: the chain commits now, or every leg is refused as existing and nothing changes |
| SplitChainLaws.ReplayChangesNothing | ledger/splits/chain.go:149-170 | whatever batches came in between, resubmitting any batch that committed whole, single chain or not, succeeds and changes nothing |
| SplitChainLaws.ClassesDiffer | ledger/splits/account_id.go:61-75 | under one tenant, MDA and entity, accounts are equal exactly when their classes are |
| SplitChainLaws.ChainShape | ledger/splits/chain.go:72-109 | a built chain is one linked chain out of clearing for the sum of its legs, and has no pass-through account exactly when no leg pays the clearing class |
| SplitPayouts.LegPaysItsRule | ledger/splits/chain.go:80-106 | decoding a built leg's accounts gives clearing and the class of that leg's own rule in the bill's tenant, MDA and entity; the amount is the leg's own |
| SplitPayouts.ChainPaysClasses | ledger/splits/chain.go:80-106 | for every class, what the chain credits to its account is the sum of the legs whose rule names that class |
| SplitPayouts.ChainIdsDistinct | ledger/splits/chain.go:92-95 | no id occurs twice in a chain; under a key a retry builds the very same chain, without one it takes new ids |
| SplitPayouts.SettledBill | ledger/splits/chain.go:72-131 | a settled bill raises the balance of every class's account by exactly that class's legs, and clearing pays for all of them |
| SplitPayouts.SettledBillElsewhere | ledger/splits/chain.go:72-131 | no account but clearing and the legs' beneficiaries changes |
| SplitPayouts.BeneficiaryGetsShare | ledger/splits/chain.go:174-184 | from gross to beneficiary: the account of an instant rule that alone pays its class rises by the rule's floored share of the gross, that of the closing rule by at most n-1 kobo more |
| SplitPayouts.InGazettedOrder | ledger/splits/split.go:57-67 | the rules of one timing are a subsequence of the gazetted rules that leaves none of them out, so the closing leg is the last gazetted instant rule's |
| SplitPayouts.ReversalInvolutes | ledger/splits/reversal.go:21-44 | reversing a reversal gives the original legs back in every field but the id |
| SplitPayouts.ExtensionAdds | ledger/splits/chain.go:136-143 | an appended leg adds its own amount between its own accounts, under its own id, and leaves every other total and id alone |
| SplitPayouts.GenuineAre | ledger/splits/chain.go:160-167 | a refused submission carries exactly the reported failures other than exists, in batch order |
| SplitChainLaws.SettlementLaw | ledger/splits/chain.go:72-170 | settlement and refund together: when the chain commits, that the refund restores every balance, and that either can be submitted again, before or after the other, without effect |
| SplitChainLaws.SettledClearing | ledger/splits/chain.go:174-184 | a committed settlement takes gross less remainder from clearing, and the remainder covers every month-end leg |
| SplitChainLaws.ExtendedShape | ledger/splits/chain.go:136-143 | a leg appended between accounts on the right sides keeps the chain single and free of pass-through, so the laws above apply to it |
| EdgeSync.Outbox.Add | edge/edge-daemon/edge_daemon/outbox.py:67-117 | refuses exactly when pending records reach capacity; otherwise allocates the next sequence, signs and inserts, or changes nothing |
| EdgeSync.Outbox.Mark | edge/edge-daemon/edge_daemon/outbox.py:165-172 | marks exactly the listed sequences, one statement each |
| EdgeIntake.TakenInIff | edge/edge-daemon/edge_daemon/outbox.py:67-117 | at any moment of any run a record is refused if and only if at least capacity rows are unsynced; otherwise the table gains exactly one row, pending and properly signed, numbered one above the last |
| EdgeIntake.DrainMakesRoom | edge/edge-daemon/edge_daemon/outbox.py:73-82 | after a drain the device takes the next record in under any positive capacity |
| EdgeIntake.TakenInIsDelivered | edge/edge-daemon/edge_daemon/sync.py:166-174 | a record taken in at any moment of any run is at the gateway, as it was taken in, after one sync_all that reaches it with room for all pending records |
| EdgeSync.GatewayState.HandleOne | edge/edge-daemon/edge_daemon/gateway.py:43-75 | signature, duplicate, order and acceptance branches in source order |
| EdgeSync.GatewayState.HandleBatch | edge/edge-daemon/edge_daemon/gateway.py:37-41 | one ack a record, state threaded through the batch |
| EdgeProtocol.PendingNumbered | edge/edge-daemon/edge_daemon/outbox.py:121-131 | the pending query returns, in sequence order, the records right after the synced ones |
| EdgeProtocol.GatewayAgrees | edge/edge-daemon/edge_daemon/gateway.py:43-75 | in every run of any number of devices over a network that loses, repeats and delays batches and replies: accepted sequences are exactly 1 to the high-water mark with the outbox's content, outbox sequences are 1,2,3,..., and every synced record is accepted |
| EdgeProtocol.NothingHonestIsRejected | edge/edge-daemon/edge_daemon/gateway.py:61-67 | in every run no record of any batch ever sent would be rejected, delivered now for the first or any later time: the out-of-order branches are unreachable |
| EdgeProtocol.RecordsArePermanent | edge/edge-daemon/edge_daemon/outbox.py:67-172 | along every run no outbox record changes or disappears, no sequence is reused, and synced stays synced |
| EdgeEngine.SyncEngine.PushBatch | edge/edge-daemon/edge_daemon/sync.py:128-142 | the retry loop: attempts until a reply or until the retries are used up, whatever the network does to each |
| EdgeIntake.PushAttempts | edge/edge-daemon/edge_daemon/sync.py:128-142 | a push succeeds exactly if one of its max_retries+1 attempts is delivered, stops at the first that is, and otherwise makes all of them |
| EdgeIntake.PublishesDue | edge/edge-daemon/edge_daemon/sync.py:149-159 | what a publication adds to the bus is a first part of the messages due, one for each acknowledged record of a mapped kind in order, and all of them when it succeeds |
| EdgeEngine.SyncEngine.PublishAcked | edge/edge-daemon/edge_daemon/sync.py:149-159 | acknowledged records of a mapped kind are published in order up to the first failure |
| EdgeEngine.SyncEngine.RunSyncOnce | edge/edge-daemon/edge_daemon/sync.py:121-164 | push, publish, then mark, with every failure branch |
| EdgeEngine.SyncEngine.RunSyncAll | edge/edge-daemon/edge_daemon/sync.py:166-174 | the drain loop, its early stop and its propagated failures |
| EdgeDrain.SyncOnceRefines | edge/edge-daemon/edge_daemon/sync.py:121-164 | whatever network and bus do, one sync_once is a run of the protocol that moves no other device's outbox, so it inherits the protocol's safety |
| EdgeDrain.CutShortRefines | edge/edge-daemon/edge_daemon/sync.py:121-164 | so is a sync that dies anywhere among its marks |
| EdgeDrain.SyncOnceProgress | edge/edge-daemon/edge_daemon/sync.py:121-164 | after any history, a sync_once that returns takes exactly min(batch size, pending) off the pending count; one that raises takes nothing |
| EdgeIntake.SyncOnceEnds | edge/edge-daemon/edge_daemon/sync.py:121-164 | after any history a sync_once with nothing to send returns zero at once, and otherwise raises for the gateway exactly if none of its attempts is delivered and for the bus only if the bus fails |
| EdgeIntake.SyncAllIsExact | edge/edge-daemon/edge_daemon/sync.py:166-174 | after any history a sync_all that returns has taken and reports min(pending, max_batches times batch_size) records, and one that raises leaves some pending |
| EdgeDrain.OneSyncAllDrains | edge/edge-daemon/edge_daemon/sync.py:166-174 | after any history, with an attempt that gets through in every retry window, one sync_all empties an outbox of at most max_batches times batch_size pending records and returns their number |
| EdgeDrain.WithinCapacity | edge/edge-daemon/edge_daemon/outbox.py:73-82 | no event takes a device above the capacity it enqueues under |
| EdgeDrain.DefaultsAlwaysDrain | edge/edge-daemon/edge_daemon/sync.py:166-174 | at the default capacity, batch size and batch count one sync_all always drains |
| EdgePublish.SyncOncePublishesFirst | edge/edge-daemon/edge_daemon/sync.py:143-163 | with a bus, one sync_once never marks a record of a mapped kind that is not on its channel, however network and bus fail |
| EdgePublish.SyncedIsPublished | edge/edge-daemon/edge_daemon/sync.py:121-174 | from the empty outbox, over every history of enqueues, syncs that return or raise, drains, restarts of the engine and deaths at any point, also between two single-row marks, among any other devices and a network that loses, repeats and delays: every synced record of a mapped kind is on its channel |
| EdgePublish.DrainIsSyncAll | edge/edge-daemon/edge_daemon/sync.py:166-174 | the drain of those histories is the engine's sync_all |
| EdgePoison.RejectedIff | edge/edge-daemon/edge_daemon/gateway.py:43-75 | after any stream of records whatsoever the next one is rejected if and only if its signature fails, its sequence is not positive, or the sequence before it is not accepted |
| EdgePoison.AnswerMeans | edge/edge-daemon/edge_daemon/gateway.py:43-75 | accepted means the record was new and is now held, duplicate that it is properly signed and its sequence was held before; unless it is accepted the gateway stays as it was |
| EdgePoison.AcceptedOnce | edge/edge-daemon/edge_daemon/gateway.py:43-75 | whatever is sent, however often, each sequence of each device is answered with accepted at most once |
| EdgePoison.UnacceptedBlocks | edge/edge-daemon/edge_daemon/gateway.py:61-67 | while sequence n of a device stays unaccepted, every record of a later sequence of that device is rejected each time it is sent and none is accepted |
| EdgePoison.AcceptedIffInOrder | edge/edge-daemon/edge_daemon/gateway.py:43-75 | exactly what gets through: after any stream a new sequence of a device is accepted if and only if the stream contains, in this order, properly signed records of every sequence from the device's high-water mark up to it |
| EdgePoison.PoisonBlocksForever | edge/edge-daemon/edge_daemon/sync.py:160-163 | while the first pending record of a device does not verify, no record from it on is ever accepted or marked, over every history of enqueues, syncs, drains and other devices' traffic, whatever network and bus do |
| EdgePoison.ForgedRecordBlocks | edge/edge-daemon/edge_daemon/sync.py:160-163 | a record with a bad signature and a good one behind it: with every message delivered a sync returns zero and the good record stays pending |
| Idempotency.InMemoryIdempotencyStore.Get | ledger/fundsflow/idempotency.py:81-87 | expired entries are absent and are deleted by the read |
| Idempotency.InMemoryIdempotencyStore.Claim | ledger/fundsflow/idempotency.py:93-102 | stores the claim exactly when no live entry exists, else returns the live one |
| Idempotency.IdempotencyMiddleware.LocalGet | ledger/fundsflow/idempotency.py:199-211 | the cache's reading, with the same expiry |
| Idempotency.IdempotencyMiddleware.LocalStore | ledger/fundsflow/idempotency.py:213-217 | a full cache forgets everything before it stores |
| Idempotency.IdempotencyMiddleware.RunExecute | ledger/fundsflow/idempotency.py:223-277 | execute against store, cache and clock in place equals its specification, failing and replaying branches included |
| IdempotencyLaws.OneExecutionPerWindow | ledger/fundsflow/idempotency.py:223-277 | over all interleavings of callers in processes with their own caches, restarts included, in which nobody writes late over a key that is somebody else's: successful executions of one key have disjoint windows, however long an execution takes |
| IdempotencyLaws.ResponsesAreExecutions | ledger/fundsflow/idempotency.py:237-277 | every response returned anywhere is that of an execution of the same key with the same payload |
| IdempotencyLaws.OpenWindowDecides | ledger/fundsflow/idempotency.py:237-262 | while the window of a finished execution is open nobody starts another: a different payload conflicts, the same payload is in progress or gets that response |
| IdempotencyLaws.LiveClaimDecides | ledger/fundsflow/idempotency.py:237-262 | while another call still executes under a live claim, no cache answers, a different payload conflicts and the same payload is in progress: nobody starts a second execution |
| IdempotencyLaws.CachedIsUncached | ledger/fundsflow/idempotency.py:187-211 | a live local record is the store's record, so a cached answer is the answer the claim would give |
| IdempotencyLaws.SoloIsExecute | ledger/fundsflow/idempotency.py:223-277 | the interleaved steps of one call, uninterrupted, are execute |
| IdempotencySequence.SequenceIsReference | ledger/fundsflow/idempotency.py:223-277 | over every sequence of calls by any processes with restarts and waits between them, store and bounded caches answer as a plain log of successful executions would: a fresh key executes, a replay in the window gets the first response without executing, another payload conflicts, an expired or failed execution is as if it had never been |
| IdempotencySequence.CachesStayBounded | ledger/fundsflow/idempotency.py:213-217 | no local cache ever holds more than its maximum |
| IdempotencySequence.RetryExecutes | ledger/fundsflow/idempotency.py:263-268 | whatever store and cache hold, a call right after one whose fn raised runs its own fn |
| IdempotencyLaws.ReleaseFreesKey | ledger/fundsflow/idempotency.py:263-268 | among concurrent calls, once a failed call has released its claim the next claim on the key is granted |
| IdempotencyLaws.LateWriteHarmlessIff | ledger/fundsflow/idempotency.py:263-277 | a store or release after its own window keeps the invariant all these laws rest on if and only if the key is nobody else's by then, neither under another live claim nor in the open window of an execution; it leaves the key free to be claimed |
| IdempotencyLaws.LateReleaseExecutesTwice | ledger/fundsflow/idempotency.py:263-268 | a failing execution that outlives its window deletes somebody else's claim and two executions overlap |
| IdempotencyLaws.LateStoreExecutesTwice | ledger/fundsflow/idempotency.py:269-277 | a successful one that stores its expired response over somebody else's claim does the same |
| OutboxRelay.InMemoryOutboxStore.UnackedRows | ledger/fundsflow/outbox.py:140-145 | the unpublished, not dead rows in commit order |
| OutboxRelay.InMemoryOutboxTransaction.CommitAll | ledger/fundsflow/outbox.py:161-172 | domain rows and numbered events become visible together or not at all; a second commit is refused |
| OutboxRelay.OutboxRelay.PublishOne | ledger/fundsflow/outbox.py:257-269 | one attempt: acknowledged on success, dead-lettered after the last attempt, else left |
| OutboxRelay.OutboxRelay.DeadLetterRow | ledger/fundsflow/outbox.py:316-334 | the row is dead whether or not the alert gets through |
| OutboxRelay.OutboxRelay.RunPublishPending | ledger/fundsflow/outbox.py:271-276 | one scan, one publish a row |
| OutboxRelay.OutboxRelay.RunPublishPendingBatched | ledger/fundsflow/outbox.py:278-307 | one batch call a chunk, falling back to single rows when it fails |
| OutboxRelayLaws.BatchedIsOneByOne | ledger/fundsflow/outbox.py:278-314 | for every chunk size the batched flush leaves the rows, the bus log and the count of the one-by-one flush, when the bus decides on the event alone and takes a batch exactly if it would take each event |
| OutboxRelayLaws.RunKeepsOutbox | ledger/fundsflow/outbox.py:140-334 | over every run of commits, crashed commits and scans, on a bus that may deliver and then raise: rows partition into pending, published and dead, attempts never exceed the maximum, each event is on the bus at least once if published and at most twice an attempt, exactly once or not at all when a raising call leaves nothing, and commit numbers strictly increase |
| OutboxRelayLaws.MaxScansSettle | ledger/fundsflow/outbox.py:257-334 | however the bus behaves, a row committed before max_attempts scans is published or dead after them |
| OutboxHistory.RunCommitsTogether | ledger/fundsflow/outbox.py:161-230 | over every run of commits, crashed commits and scans: the domain records are those at the start and then those of exactly the transactions that did not crash, in order, and so are the events, each under the next number; no scan loses, changes or reorders any |
| OutboxHistory.ScanDecides | ledger/fundsflow/outbox.py:257-314 | one scan of either kind publishes each pending row exactly if the bus takes its event and kills it exactly if that was its last attempt, so a poisoned event cannot block its chunk mates |
| OutboxHistory.VerdictDecides | ledger/fundsflow/outbox.py:257-334 | over every run: an event the bus takes is published by the first scan after its commit, one it refuses never is and its row is dead from the scan of its last attempt on |
| OutboxHistory.RunAnnouncesDead | ledger/fundsflow/outbox.py:316-334 | when alerts get through, over every run a dead-letter message for each dead row is on the bus |
| OutboxHistory.ScanCounts | ledger/fundsflow/outbox.py:271-314 | the number a scan of either kind returns is the number of rows it has published |
| OutboxHistory.RunPublishesOnlyRows | ledger/fundsflow/outbox.py:140-334 | over every run nothing comes onto the bus but events of committed rows and letters of dead ones |
| OutboxHistory.MessagesCarryRows | ledger/fundsflow/outbox.py:252-334 | an event carries its row's topic, id, payload and idempotency key, by which consumers dedupe; a letter carries id, topic, key and attempts |
| OutboxRelayLaws.BatchWriteIsWrites | ledger/fundsflow/outbox.py:202-230 | one transaction for many entries leaves the tables of one transaction an entry |
| FloodFill.PushNeighbours | geospatial/local/ndvi_change_detection.py:94-97 | marks and pushes exactly the unvisited true neighbours, in bounds |
| FloodFill.Fill | geospatial/local/ndvi_change_detection.py:88-98 | terminates with exactly the pixels a 4-neighbour path inside the mask reaches from the seed, each once |
| FloodFill.LabelComponents | geospatial/local/ndvi_change_detection.py:74-99 | for any mask: whole components, no two the same, covering every true pixel |
| FloodFill.SameComponentIffConnected | geospatial/local/ndvi_change_detection.py:74-99 | two true pixels are in one component if and only if a 4-neighbour path of true pixels joins them |
| FloodFill.SizesSumToTrues | geospatial/local/ndvi_change_detection.py:74-99 | component sizes sum to the number of true pixels |
| FloodFill.DetectDisturbances | geospatial/local/ndvi_change_detection.py:143-146 | a true pixel is in a reported component if and only if its whole connected patch reaches the minimum area |
| RankAuc.Ranks | ml/training/train.py:84-86 | filled in place through the sort order, each entry is its 1-based sorted position |
| RankAuc.RankSumCountsPairs | ml/training/train.py:82-91 | up to every sorted position, twice the positives' rank sum is n(n+1) plus twice the number of pairs in which the positive sorts later |
| RankAuc.Auc | ml/training/train.py:82-91 | NaN exactly when a class is missing; otherwise the number of (negative, positive) pairs in which the positive sorts later, divided by n_pos times n_neg, for any order that sorts the scores |
| RankAuc.ScoreInUnitInterval | ml/training/train.py:91 | the score lies in [0, 1] |
| RankAuc.LaterIsHigher | ml/training/train.py:82-91 | with distinct scores those pairs are exactly the pairs with a strictly higher positive score |
| HashChain.VerifyEventChain | services/_shared/hashchain.py:51-78 | the verification loop reports what the specification reports, missing fields included |
| HashChain.CleanIff | services/_shared/hashchain.py:51-78 | it reports nothing if and only if every record links to its predecessor, the first to genesis, and carries the hash of its own payload and link |
| HashChain.AppendKeepsClean | services/_shared/hashchain.py:39-48 | appending the next record keeps a clean chain clean |
| HashChain.SameHeadSameChain | services/_shared/hashchain.py:51-78 | under a collision-free hash that never yields genesis, two clean chains ending in one hash are equal record for record |
| HashChain.OverwriteIsReported | services/_shared/hashchain.py:51-78 | one record of a clean chain overwritten by any other: a broken link is reported there exactly if its link changed, a mismatch exactly if its hash is not the recomputed one, a broken link at the next record exactly if its hash changed, and nothing else |
| HashChain.PayloadTampering | services/_shared/hashchain.py:51-78 | a changed payload is reported as one mismatch at its own record; with the hash recomputed, as one broken link at the next record, so only the last record can be replaced unnoticed |
| HashChain.RemovalIsReported | services/_shared/hashchain.py:51-78 | a record removed from a clean chain is reported as one broken link where it was, unless it was the last |
| AuditLog.MetadataStore.AppendChainedLocked | services/control-plane/app/domain.py:302-318 | one event: next sequence number, linked to its own chain's head, hashed, appended to the global log |
| AuditLog.MetadataStore.AppendLocked | services/control-plane/app/domain.py:293-300 | a chain's first event is preceded by its genesis event |
| AuditLog.EveryChainIsClean | services/control-plane/app/domain.py:289-317 | however appends interleave, each tenant's sublist of the global log is a clean chain with exactly one genesis event, first, and sequence numbers strictly increase |
| AuditLog.LogKeepsEntries | services/control-plane/app/domain.py:293-318 | nothing appended is lost, changed or reordered, and nothing is added but genesis events: type, tenant, actor, detail and time of every entry stand in the log |
| AuditLog.TenantEventsAreChain | services/control-plane/app/domain.py:289-291 | a tenant's events are its chain, for every tenant id other than the name of the global chain |
| AuditLog.HeadsDetermineLog | services/control-plane/app/domain.py:289-317 | two logs with increasing sequence numbers whose chains are clean and end in the same hashes are the same log, event for event |
| PointInPolygon.PointInRing | services/mod-border-transit/app/domain.py:308-330 | the toggling loop computes the parity of crossing edges |
| PointInPolygon.FlipCrosses | services/mod-border-transit/app/domain.py:323-327 | an edge crosses the ray whichever way it is drawn |
| PointInPolygon.RotationKeepsInside | services/mod-border-transit/app/domain.py:308-330 | the answer does not depend on the start vertex |
| PointInPolygon.ReversalKeepsInside | services/mod-border-transit/app/domain.py:308-330 | nor on the direction of the ring |
| PointInPolygon.OutsideBoxIsOutside | services/mod-border-transit/app/domain.py:308-330 | no point outside the bounding box of the vertices is inside, for any polygon |
| PointInPolygon.EdgePointTakesRightSide | services/mod-border-transit/app/domain.py:308-330 | for any ring and any point: the answer is that of the points just right of it, and the points just left of it are decided the other way exactly when an odd number of edges pass through it, so an edge point is inside exactly when the polygon lies to its right |
| PointInPolygon.RectangleIsHalfOpen | services/mod-border-transit/app/domain.py:308-330 | on an axis-aligned rectangle in any rotation and direction the answer is half-open membership, so left and lower edges are inside and right and upper ones are not |
| PointInPolygon.ChordSplitsInside | services/mod-border-transit/app/domain.py:308-330 | cutting a ring along a chord, a point is inside the whole exactly when it is inside one part and not both |
| PolygonTriangles.CrossesIffSide | services/mod-border-transit/app/domain.py:323-327 | an edge, however it slants, is crossed exactly when the point is level with it and on its left if it runs up, on its right if it runs down |
| PolygonTriangles.TriangleIsHalfOpen | services/mod-border-transit/app/domain.py:308-330 | on every counter-clockwise triangle the answer is membership: left of all three edges, where points on an edge belong to the triangle to its right, or above a level edge; a flat triangle has no points |
| PolygonTriangles.TriangleHasItsInterior | services/mod-border-transit/app/domain.py:308-330 | on every triangle drawn either way, points strictly inside are inside and points strictly outside are not |
| Geometry.ComputeRingArea | geospatial/geometry-rs/src/lib.rs:337-346 | the windowed loop computes half the cross-product sum |
| Geometry.PolygonArea | geospatial/geometry-rs/src/lib.rs:349-360 | the exterior's absolute area less the holes', never negative |
| Geometry.TranslationKeepsArea | geospatial/geometry-rs/src/lib.rs:337-346 | the area of a closed ring is unchanged by translation |
| Geometry.StartKeepsArea | geospatial/geometry-rs/src/lib.rs:337-346 | and by the choice of start vertex |
| Geometry.ReversalNegatesArea | geospatial/geometry-rs/src/lib.rs:335-346 | and negated by reversal |
| Geometry.BoxArea | geospatial/geometry-rs/src/lib.rs:335-346 | a counter-clockwise rectangle has its width times height |
| Geometry.TriangleArea | geospatial/geometry-rs/src/lib.rs:335-346 | a triangle has half the cross product of two of its sides, whichever way it slants |
| Geometry.ChordDividesArea | geospatial/geometry-rs/src/lib.rs:335-346 | cutting a ring along any chord divides its signed area |
| Geometry.AreaIsFan | geospatial/geometry-rs/src/lib.rs:335-346 | the area of any closed ring is the sum of the signed triangles that fan out from its first vertex |
| Geometry.FromRings | geospatial/geometry-rs/src/lib.rs:49-76 | the least box that contains every point, with its sides in order, none exactly when there is no point |
| Geometry.IntersectIffSharedPoint | geospatial/geometry-rs/src/lib.rs:90-92 | two boxes intersect if and only if they share a point |

## Left out

- HTTP surfaces, auth, Postgres, Redis, Kafka, TigerBeetle and S3 adapters, environment-based selection: I/O and libraries that cannot be seen.
- Cryptography, JSON text and the bounded memo of transfer ids: represented as described above.
- Wall clock, jitter and backoff delays, log lines, metrics, test hooks other than the failure injection points.
- Float percentages in `ledger/fundsflow/invariants.py` and float parsing in `policy.go`: the basis-point integers carry the conservation claim exactly. Sums of basis points are unbounded in the model, so the wrap-around of a 64-bit sum of about 2^32 rules is not shown.
- TransferLedger.InMemoryTBClient.CreateTransfers: does not model that the stored record is the caller's own `Transfer` object, nor the list of create calls kept for inspection.
- `reverse_chain` with an explicit original chain: the saga never passes one.
- SagaRecovery.CompletedMeansOnce: several sagas over one ledger appear to each other as other users; the store's index by idempotency key, the event announcing a failed saga and step descriptors given as JSON are not modelled.
- EomReport.SweepReports: the report's totals; its list of transfer ids, time and status text are not modelled.
- EomAccounting.SweepClosesMonth: the fund is another account than clearing, and clearing carries no hold when the sweep begins; a fund that is the clearing account itself cannot be closed to zero unless nothing remains.
- LinkedLedgerIsolation.RunStaysHealthy: for transfers without the pending flag, as two-phase pending transfers of the Go ledger are never posted by this code.
- LinkedLedgerIsolation.NeverOverdrawsIff: the direction "only if" needs batches that can be healthy at all, with volumes below 2^63, and chains that credit no account they debit; a chain that also credits the account it spends can make up for what it borrowed.
- SplitChain.BuildAtomicChain: the time component of a minted id is not modelled, only its uniqueness; nil clients and nil plans are left out.
- SplitChainLaws.ReversalCommitsIff: for chains in which no account both pays and is paid, as every settlement chain is; `AnyReversalCommitsIff` covers the others.
- EdgeSync.Outbox.Add: a device writes only its own rows, so the table is one device's; SQLite is a list of rows with atomic statements.
- EdgeProtocol.GatewayAgrees: senders are honest devices; records that do not verify are the subject of `EdgePoison`.
- EdgePoison.PoisonBlocksForever: nobody else sends records in the device's name; `UnacceptedBlocks` covers any stream.
- OutboxRelayLaws.RunKeepsOutbox: a crash between publishing and acknowledging is not a step of these runs; the in-memory rows die with the process. `sorted` by sequence number is the identity on rows in commit order, whose numbers strictly increase.
- OutboxRelayLaws.BatchedIsOneByOne: for a bus on which a refused batch leaves nothing, as the recording bus does; otherwise the batched flush can publish an event once more than the one-by-one flush, which `RunKeepsOutbox` bounds.
- RankAuc.Auc: exact arithmetic, no NaN scores; the sort itself is numpy's.
- AuditLog.MetadataStore.AppendLocked: event ids are functions of the sequence number and are not repeated in the model; tenants, policy packs and the archive sink are left out.
- PointInPolygon.PointInRing: exact arithmetic in place of floating point; the same for areas and boxes.
- NDVI values, activity heuristics, centroids, WKT lexing, model training, CRUD services and lifecycle tables: easy members or floating point only.
