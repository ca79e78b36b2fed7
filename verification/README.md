# Energy delivery and payment accounting, verified

A Dafny model of the durable, crash-tolerant core of the energy bot: it sells packages of energy units for USDT or TRX,
spends units on delegations of TRON energy to customers, and takes the delegated energy back later. The model proves
safety over whole runs, conservation of units and exactly-once effects, and the correctness of the algorithms below them.

Run `dafny verify dfyconfig.toml` here to check everything.

## The parts

- **Delegation protocol.** `Chain` is the TRON chain with forks, solidification and expirations. `Attempts` and
  `EnergyOrders` are the rows and what each transaction does to one of them; `AttemptJournal` is the journal and the signer
  as they run, statement by statement. `DelegationProtocol` is the whole system as a state machine: any number of
  operations, each at any await, crashes anywhere, sign requests that commit after their caller has gone, blocks and
  clock ticks in any order. `DelegationSafety` holds its invariant, `DelegationTheorems` its promises: at most one
  delegation per order is ever on the chain, only what one attempt was bound to is ever signed or sent.
  `DelegationSerial` adds what holds when one operation runs per order (a released order is never delivered), and
  `OrderMutex` shows that the service provides that. `DelegationRelease` says exactly when a failed or released order can
  still be delivered without it, over all continuations, and `DelegationRace` is a run in which that happens.
  `DelegationStuck` is about deliveries that stay open although they succeeded. `DelegationAmount` is the least sufficient
  delegation. `DelegationHistory`, `DelegationTimes`, `DelegationIds` and `DelegationReports` say what the columns of a row
  mean in terms of the events of the run, and `DelegationProgress` that every order can be delivered.
- **Reclaim protocol.** `ReclaimProtocol`, `ReclaimSafety` and `ReclaimTheorems` repeat the pattern on finished
  delegations; `ReclaimJournal` has the transactions as they run. The last theorem is conservation on the chain.
  `DelegationHandover` joins the two protocols: every finished delegation is a source of the second.
- **Accounting.** `Tables` has one map per table, with unique indexes and 32-bit counts. `EnergyUsage` and
  `PaymentLifecycle` say what each database transaction does, `PurchasePayment` and `PaymentPlan` are the pure decisions,
  and `Database` runs the transactions statement by statement. `Accounting` is the state machine of all of them;
  `PaymentInvariants`, `LedgerInvariants` and `AccountingSafety` are its invariants, `AccountingTheorems` its promises.
  `PaymentEvidence` and `AccountingHistory` say which events the rows rest on, and what evidence does.
  `ReturnOverflow` is a run that ends in a refused report. `ServiceAgreement` shows that the protocol and the accounting
  treat an energy order alike. `Sums` has sums over maps.
- **Algorithms.** `AmountAllocator` (unique payment amounts under concurrent inserts), `Base58`, `StableJson` with
  `StableJsonTheorems` (the canonical text the signers digest), `KeysetPaging`, `RecoveryScheduler`, `Reconciliation`
  (scanning for payments before letting an order expire), over `Sorting` and `Prelude`.

Where several parts of the code meet, the model finds these points worth knowing:

- `signed -> completed` is not an allowed transition. After a crash between an accepted broadcast and its recording, a
  completion seen while the row is still signed is refused and the caller throws; the order stays open, delivered, until
  some answer about the transaction is processing or unknown (`DelegationStuck.DeliveredButOpen`).
- "Released means never delivered" rests on the per-order mutex of one process. Two processes can release an order whose
  delegation then succeeds (`DelegationRace.UnserialisedReleaseCanDeliver`), because a capacity failure does not look at
  the state of the attempt. It is followed by a delivery exactly when the attempt has a transaction that the chain can
  still take as a success, and a node has it or an operation may still send it
  (`DelegationRelease.CapacityFailureIsDeliveredIff`); an attempt still created never lands.
- Giving units back can exceed a 32-bit count: the transaction then aborts and the order stays dispatching. When exactly is
  in `AccountingTheorems.DeliveryAnswersExactly`, a run that does it in `ReturnOverflow.FailedDeliveryCanOverflow`.
- Planning a payment a second time after a lost insert never applies anything: only another order's row can have won
  (`AccountingTheorems.ObservationsThrowForWidthAlone`).

Times, random ids, network answers, signing and the clock are inputs of the model: every theorem holds for all of them.

## Model

| member | source | states |
|---|---|---|
| Chain.AdvanceEvolves | src/adapters/tron/tron-delegation-http-transport.ts:525-617 | no block, solidification or reorganisation revives a transaction that is absent past its expiration, or changes a finalised outcome |
| Chain.DeadForEver | src/adapters/tron/tron-delegation-http-transport.ts:525-617 | a transaction once absent at a solidified time past its expiration is in no later state of the chain, over every sequence of forks and blocks |
| AttemptJournal.Journal.GetOrCreateCurrentAttempt | src/adapters/database/postgres-energy-provider-attempt-journal.ts:142-188 | a new attempt is appended only behind an expired one (or as the first); otherwise the latest row is returned and nothing changes |
| AttemptJournal.Journal.BindDelegation | src/adapters/database/postgres-energy-provider-attempt-journal.ts:190-248 | the binding is written once, only into a created, unclaimed row, and no other row changes |
| AttemptJournal.Journal.ClaimAttemptTransaction | src/adapters/database/postgres-energy-provider-attempt-journal.ts:250-311 | the transaction identity is written once, with the delivery's provider order id, under the unique index on txid; the same identity again changes nothing, another one is refused |
| AttemptJournal.Journal.RecordAttemptState | src/adapters/database/postgres-energy-provider-attempt-journal.ts:313-412 | an allowed transition updates that row alone, with the columns of the modelled update, whose times DelegationTimes ties to the recordings; any other report changes nothing |
| AttemptJournal.Journal.Sign | src/adapters/signer/postgres-tron-delegation-signer.ts:285-406 | at most one transaction is ever stored for a row, it equals the row's binding, and the unique index gains exactly that entry |
| DelegationAmount.LeastSufficient | src/adapters/energy/tron-own-pool-energy-provider.ts:25-53 | of all balances of at least one TRX, exactly those from the result on yield the target energy, rounded down |
| DelegationAmount.ResultIsTight | src/adapters/energy/tron-own-pool-energy-provider.ts:25-53 | the yield at the result meets the target and, above one TRX, the yield at one sun less does not |
| DelegationSafety.RecordOk | src/adapters/database/postgres-energy-provider-attempt-journal.ts:313-412 | a status update keeps a row sound when the chain shows what the status claims: write-once columns, terminal states and times included |
| DelegationSafety.PerformOk | src/adapters/energy/tron-own-pool-energy-provider.ts:528-868 | every step of creating, advancing, starting, reconciling, broadcasting and finding a delivery keeps the order, its attempts and the next program counter sound |
| DelegationSafety.SignCommitOk | src/adapters/signer/postgres-tron-delegation-signer.ts:285-406 | a sign request that commits at any later time, even after its caller is gone, keeps the whole state sound |
| DelegationSafety.HandleOk | src/application/energy/energy-usage-service.ts:288-375 | every event of the machine (steps, crashes, late commits, chain events, ticks) keeps the invariant and only lets orders and attempts evolve forwards |
| DelegationSafety.RunOk | src/application/energy/energy-usage-service.ts:249-375 | the invariant holds in every state of every run of any number of concurrent operations |
| DelegationTheorems.OnlyBoundTransactionsAreSent | src/adapters/energy/tron-own-pool-energy-provider.ts:675-767 | whatever reaches a node is the transaction signed for and claimed by one attempt, from the pool's owner to the order's own recipient, of the bound balance |
| DelegationHistory.BalancesAreMeasured | src/adapters/energy/tron-own-pool-energy-provider.ts:675-735 | over every run, each balance an attempt is bound to was measured for its order: some operation on the order read a network snapshot on which this balance, and no smaller one above one TRX, yields the order's energy |
| DelegationHistory.SentBalancesAreMeasured | src/adapters/energy/tron-own-pool-energy-provider.ts:675-767 | over every run, so was the balance of every transaction handed to a node, for the order it was signed for |
| DelegationHistory.FailuresHaveReasons | src/adapters/energy/tron-own-pool-energy-provider.ts:716-730 | over every run, an attempt has failed only with its transaction finally reverted, or after an operation on it was told that less can be delegated than a balance measured for the order |
| DelegationTimes.TimesAreOfRecordings | src/adapters/database/postgres-energy-provider-attempt-journal.ts:374-392 | over every run, an attempt's acceptance and finality time are each the wall time of the first step that recorded the acceptance of its broadcast, or its completion, and missing exactly when none did |
| DelegationTimes.EligibilityIs | src/adapters/database/postgres-energy-provider-attempt-journal.ts:380-392 | a completed attempt may be taken back from one hour after that first acceptance on, or after the first recording of its completion if there was none, never before the latter |
| DelegationIds.DeliveryNamesLatestClaim | src/adapters/database/postgres-energy-provider-attempt-journal.ts:279-305 | over every run, a delivery's provider order id is the transaction claimed by the latest attempt that has claimed one |
| DelegationReports.DeliveryTellsWhatWasRecorded | src/adapters/energy/tron-own-pool-energy-provider.ts:838-868 | over every run, a delivery is accepted only after some attempt's acceptance was recorded, and names a transaction while accepted, processing or completed |
| DelegationProgress.EveryOrderCanComplete | src/application/energy/energy-usage-service.ts:288-375 | for every order, recipient and network snapshot there is a run from the empty state that completes the order with the least balance the snapshot calls for |
| DelegationProgress.EveryOrderIsApt | src/adapters/energy/tron-own-pool-energy-provider.ts:25-53 | the least balance such a run delegates exists for every order and snapshot |
| DelegationTheorems.SignsExactly | src/adapters/signer/postgres-tron-delegation-signer.ts:285-406 | a transaction is newly signed exactly by the commit of a request for a created, unsigned attempt whose binding it equals, from the pool, of at least one TRX, before it expires |
| DelegationTheorems.AtMostOneLands | src/adapters/energy/tron-own-pool-energy-provider.ts:627-827 | in every run, at most one delegation of an order is on the chain |
| DelegationTheorems.CompletedMeansDeliveredOnce | src/application/energy/energy-usage-service.ts:288-375 | a completed order has exactly one delegation on the chain, finalised, successful and to its recipient |
| DelegationTheorems.RowsAreWriteOnce | src/adapters/database/postgres-energy-provider-attempt-journal.ts:190-412 | binding, signed transaction, claimed identity and terminal status of a row never change in any continuation of a run |
| DelegationTheorems.OneSignaturePerAttempt | src/adapters/signer/postgres-tron-delegation-signer.ts:285-406 | over every interleaving of sign calls an attempt key has at most one signed transaction for ever |
| DelegationTheorems.DeadInEveryRun | src/adapters/energy/tron-own-pool-energy-provider.ts:769-827 | a transaction whose absence was proved is on the chain in no continuation |
| DelegationTheorems.ReplacedAttemptsAreDead | src/adapters/database/postgres-energy-provider-attempt-journal.ts:142-188 | attempt n + 1 exists only when attempts 1 to n are expired with transactions that can never be included again |
| DelegationTheorems.ClaimsNeverClash | src/db/schema.ts:581 | in every run the unique index on txid is never in the way: what is signed for one attempt is claimed by no other |
| DelegationTheorems.ProviderOrderIdsNeverClash | src/db/schema.ts:524-527 | in every run two orders never carry one provider order id, so that unique index is never in the way either |
| DelegationStuck.SignedCompletionIsReached | src/adapters/energy/tron-own-pool-energy-provider.ts:838-868 | a run in which the broadcast is accepted, every operation crashes before recording it, and the transaction is finalised as a success while the row is still signed |
| DelegationStuck.CompletionIsRefused | src/adapters/database/postgres-energy-provider-attempt-journal.ts:114-135 | in every reachable state, recording a seen completion on a signed row throws and changes no row, order or other table |
| DelegationStuck.StuckUntilToldOtherwise | src/adapters/database/postgres-energy-provider-attempt-journal.ts:114-135 | from such a state, in every continuation in which no operation on the order is answered processing or unknown, the order stays dispatching with its row signed though its delegation is final |
| DelegationStuck.ToldOtherwise | src/adapters/energy/tron-own-pool-energy-provider.ts:769-827 | recording an answer takes the row out of signed exactly when the answer is processing or unknown |
| DelegationStuck.DeliveredButOpen | src/adapters/energy/tron-own-pool-energy-provider.ts:769-827 | a run from the start after which the order is delivered on the chain but open in all those continuations |
| DelegationSerial.RunSerialOk | src/application/energy/energy-usage-service.ts:422-441 | with one operation per order the stronger invariant holds in every run: a failed attempt has no transaction or one that reverted |
| DelegationSerial.ReleasedMeansNeverDelivered | src/application/energy/energy-usage-service.ts:288-375 | with one operation per order, a released order has no successful delegation on the chain now or in any continuation |
| DelegationSerial.ReleasedStays | src/adapters/database/postgres-energy-usage-repository.ts:759-858 | a released order stays released in every continuation |
| DelegationRace.UnserialisedReleaseCanDeliver | src/adapters/database/postgres-energy-provider-attempt-journal.ts:114-135 | without serialisation it fails: a concrete run of two operations in which a released order's delegation is finalised as successful |
| DelegationRelease.FailedIsDeliveredIff | src/adapters/energy/tron-own-pool-energy-provider.ts:716-730 | with any number of operations: an order whose attempt has failed is delivered in some continuation if and only if the attempt has a transaction that the chain can still take as a success and that a node has or some operation may still send |
| DelegationRelease.ReleasedIsDeliveredIff | src/adapters/database/postgres-energy-usage-repository.ts:764-858 | the same for every released order of every run: exactly when some continuation delivers it |
| DelegationRelease.CapacityFailureIsDeliveredIff | src/adapters/energy/tron-own-pool-energy-provider.ts:716-730 | the same condition, read before a capacity failure is recorded on an open attempt, says exactly whether some continuation after it delivers |
| DelegationRelease.CreatedNeverLands | src/adapters/energy/tron-own-pool-energy-provider.ts:716-730 | a capacity failure of an attempt that is still created is followed by a delivery in no continuation, serialised or not |
| ServiceAgreement.DispatchAgrees | src/adapters/database/postgres-energy-usage-repository.ts:533-635 | startDispatch does the same to an order in the protocol model and in the accounting model |
| ServiceAgreement.ApplyAgrees | src/adapters/database/postgres-energy-usage-repository.ts:637-889 | every answer of applyDelivery is a step of the protocol with the same effect on the order and its delivery; an overflow or a taken provider order id is its failed step, since on an overflow the protocol left to itself would release an order the database keeps dispatching |
| ReclaimJournal.Journal.GetOrCreateCurrentAttempt | src/adapters/database/postgres-energy-reclaim-attempt-journal.ts:130-202 | a reclaim row is added only for an eligible finished delegation and only behind an expired one |
| ReclaimJournal.Journal.ClaimTransaction | src/adapters/database/postgres-energy-reclaim-attempt-journal.ts:232-263 | the identity is written once and only when it is the durably signed transaction |
| ReclaimJournal.Journal.RecordState | src/adapters/database/postgres-energy-reclaim-attempt-journal.ts:265-308 | terminal outcomes need their chain evidence, expiry needs solidified absence, and terminal rows never change |
| ReclaimJournal.Journal.Sign | src/adapters/signer/postgres-tron-reclaim-signer.ts:258-402 | one signature per row, for exactly the owner, receiver and balance that were delegated, not before eligibility |
| ReclaimSafety.PerformOk | src/application/energy/energy-reclaim-service.ts:63-143 | every step of reconcile and observe keeps the source and its reclaim rows sound |
| ReclaimSafety.SignCommitOk | src/adapters/signer/postgres-tron-reclaim-signer.ts:258-402 | a late sign commit keeps the whole reclaim state sound |
| ReclaimSafety.HandleOk | src/application/energy/energy-reclaim-service.ts:46-143 | every event keeps the reclaim invariant |
| ReclaimSafety.RunOk | src/application/energy/energy-reclaim-service.ts:46-143 | the reclaim invariant holds in every state of every run |
| ReclaimTheorems.AtMostOneReclaimLands | src/adapters/database/postgres-energy-reclaim-attempt-journal.ts:130-309 | in every run at most one undelegation of a source delegation is on the chain |
| ReclaimTheorems.ReclaimsWhatWasDelegated | src/adapters/signer/postgres-tron-reclaim-signer.ts:308-348 | every undelegation on the chain undoes one finalised delegation: same owner, same receiver, same balance |
| DelegationHandover.CompletedRowsAreTakenUp | src/adapters/database/postgres-energy-provider-attempt-journal.ts:364-392 | every completed attempt row of a reachable delegation state, its times included, meets all that the reclaim protocol asks of a source, so the two protocols compose |
| ReclaimTheorems.NoEarlyReclaim | src/adapters/database/postgres-energy-provider-attempt-journal.ts:374-392 | nothing is signed before one hour after the acceptance time its source carries, or after its finality time when it carries none |
| DelegationHandover.ReclaimedAnHourLater | src/adapters/signer/postgres-tron-reclaim-signer.ts:258-402 | over every run of either protocol, in wall time of the events: no undelegation is signed sooner than an hour after the step that first recorded the delegation's acceptance, or its completion when there was no such step |
| ReclaimTheorems.SignsExactly | src/adapters/signer/postgres-tron-reclaim-signer.ts:258-402 | a reclaim is newly signed exactly by the commit of a request for a created, unsigned attempt on a finished, due delegation, for its exact owner, receiver and balance, before the transaction expires |
| ReclaimTheorems.AttemptsAreDue | src/adapters/database/postgres-energy-reclaim-attempt-journal.ts:156-176 | over every run a delegation has reclaim attempts only when it is due |
| ReclaimTheorems.ClaimsNeverClash | src/db/schema.ts:692 | in every run the unique index on the txid of reclaims is never in the way of a claim |
| ReclaimTheorems.OutstandingNeverNegative | src/adapters/signer/postgres-tron-reclaim-signer.ts:308-401 | in every reachable state, delegated minus taken back is never negative for any receiver |
| PurchasePayment.ContractIsSound | src/core/payments/purchase-order-payment.ts:167-286 | a contract is built exactly for quotes that pass the stated checks; its snapshot holds the package and the quote field by field, texts trimmed, always validates, and expects just that payment |
| PurchasePayment.TrimIs | src/core/payments/purchase-order-payment.ts:52-60 | trimming takes away the white space at both ends and nothing else |
| PurchasePayment.RefusalsAreExact | src/core/payments/purchase-order-payment.ts:167-286 | each reason for refusing a contract, exactly when it is given |
| PurchasePayment.ValidMeans | src/core/payments/purchase-order-payment.ts:70-146 | a persisted snapshot validates exactly when it could be what an order was placed with |
| PurchasePayment.AttributionIsTotal | src/core/payments/purchase-order-payment.ts:147-165 | attribution of a valid USDT snapshot fails for negative offsets only, changes the amount alone and can be undone |
| PaymentPlan.HappyPathTransitions | src/core/payments/payment-evidence-lifecycle.ts:163-198 | the loop returns the stretch of the happy path to the target, or nothing when some step of it is not allowed |
| PaymentPlan.MergeIsJoin | src/core/payments/payment-evidence-lifecycle.ts:85-139 | merging is the maximum of the two statuses; it conflicts exactly for two different verdicts, and a verdict stays |
| PaymentPlan.PlanIsLegal | src/core/payments/payment-evidence-lifecycle.ts:261-341 | a plan for an open order is never refused, follows the transition table, and ends at the maximum of order and row status with paid for confirmed and failed for rejected |
| PaymentPlan.TerminalOrdersStay | src/core/payments/payment-evidence-lifecycle.ts:224-259 | evidence never moves a finished order; exactly which evidence, together with what the row already says, conflicts with the order and which with the row |
| PaymentInvariants.WrittenIsJoin | src/adapters/database/postgres-payment-lifecycle-repository.ts:439-523 | writing one payment row and moving its order keeps the order's status the join of its rows |
| PaymentInvariants.NoneConfirmed | src/db/schema.ts:255-259 | the unique index on confirmed payments is never in the way of an open order |
| PaymentInvariants.BeginOk | src/adapters/database/postgres-payment-lifecycle-repository.ts:186-310 | applyObservation up to its insert keeps the payment invariant |
| PaymentInvariants.FinishCases | src/adapters/database/postgres-payment-lifecycle-repository.ts:314-436 | the insert applies its plan, throws for a figure too wide for its column, or meets another order's row for the same txid and conflicts; nothing else can happen |
| PaymentEvidence.EvaluateMeans | src/core/payments/payment-observation.ts:120-244 | what an observation is found to be, by its fields: confirming, rejecting, settled without a verdict, not settled |
| PaymentEvidence.RowsRestOnObservations | src/adapters/database/postgres-payment-lifecycle-repository.ts:186-523 | over every run, every column of every payment row comes from an observation of that payment for its order |
| PaymentEvidence.ConfirmedOnlyOnEvidence | src/core/payments/payment-observation.ts:192-244 | over every run, a payment is confirmed only if the run observed it for its order solidified, from a solidified source, executed, with the confirmations asked for and of the order's asset, token, address and amount |
| PaymentEvidence.RejectedOnlyOnEvidence | src/core/payments/payment-observation.ts:192-244 | over every run, a payment is rejected only if the run observed it failed, as authoritatively |
| PaymentEvidence.PaidOnlyOnEvidence | src/core/payments/payment-evidence-lifecycle.ts:261-341 | over every run, no order is paid or credited without such a confirming observation |
| PaymentEvidence.EvidenceDecides | src/adapters/database/postgres-payment-lifecycle-repository.ts:186-523 | in every reachable state, observing evidence for an open order leaves it paid, failed, confirming or detected exactly as the fields of the evidence say, and unchanged exactly when the evidence is not one it takes |
| PaymentEvidence.EvidenceIsStored | src/adapters/database/postgres-payment-lifecycle-repository.ts:316-336 | and the row of evidence taken holds exactly what was observed on top of what it held, confirmations never falling |
| PaymentEvidence.ConfirmedWhen | src/adapters/database/postgres-payment-lifecycle-repository.ts:467-472 | a payment carries the time of the event that confirmed it |
| LedgerInvariants.HeldIsReserved | src/adapters/database/postgres-energy-usage-repository.ts:705-721 | the reserved count of a user covers every order that is reserved or dispatching |
| LedgerInvariants.ReserveOk | src/adapters/database/postgres-energy-usage-repository.ts:338-531 | a reservation keeps the accounting invariant and throws only for a colliding id or a count past 32 bits |
| AccountingHistory.ReserveAnswers | src/adapters/database/postgres-energy-usage-repository.ts:338-531 | every answer of reserve by fields, exactly when it is given (denied, conflict, option unavailable, insufficient with both figures, replay, new, exception), and every field a reservation writes |
| AccountingHistory.OrdersWereReserved | src/adapters/database/postgres-energy-usage-repository.ts:476-490 | over every run, each energy order was reserved by one event with its user, key, option and recipient, with the energy and cost the options table held at that event |
| LedgerInvariants.StartDispatchOk | src/adapters/database/postgres-energy-usage-repository.ts:533-635 | starting a dispatch keeps the invariant and throws exactly for a missing order or another provider |
| AccountingHistory.DispatchAnswers | src/adapters/database/postgres-energy-usage-repository.ts:533-635 | every answer of startDispatch exactly when it is given, and all that it writes: the order on its way to that provider with nothing reported |
| AccountingHistory.DeliveriesWereDispatched | src/adapters/database/postgres-energy-usage-repository.ts:533-635 | over every run, each delivery is of the provider its order was dispatched to |
| LedgerInvariants.ApplyDeliveryOk | src/adapters/database/postgres-energy-usage-repository.ts:637-889 | every report keeps the invariant, and each answer is given exactly under its condition: unknown order, other provider, changed identity, conflicting outcome, provider order id taken by another delivery, count past 32 bits; no other error occurs |
| AccountingSafety.MergeIsHigher | src/adapters/database/postgres-energy-usage-repository.ts:79-96 | merging a report into an open delivery is the maximum under pending < unknown < accepted < processing |
| AccountingSafety.ReportJoins | src/adapters/database/postgres-energy-usage-repository.ts:860-888 | an applied report leaves the delivery at the join of all reports so far |
| AccountingSafety.OneConfirmed | src/adapters/database/postgres-package-credit-repository.ts:108-147 | a paid or credited order has exactly one confirmed payment |
| AccountingSafety.CreditAnswers | src/adapters/database/postgres-package-credit-repository.ts:71-315 | on sound tables crediting answers credited, not found, not ready or overflow, with the one confirmed payment |
| AccountingSafety.OnboardOk | src/adapters/database/postgres-telegram-repositories.ts:34-69 | onboarding a user keeps every invariant: the new balance is the sum of no rows |
| AccountingSafety.HandleOk | src/db/schema.ts:391-500 | every transaction of the accounting machine keeps all invariants of the tables |
| AccountingSafety.RunOk | src/db/schema.ts:391-500 | the invariants hold in every state of every run |
| AccountingTheorems.UnitsConserved | src/adapters/database/postgres-energy-usage-repository.ts:453-513 | for each user available + reserved + cost of completed orders equals the credited counts, reserved equals the cost of orders on their way, and both balances are the sums of their ledger rows |
| AccountingTheorems.DeliveryAnswersExactly | src/adapters/database/postgres-energy-usage-repository.ts:637-858 | in every reachable state, the exact condition of every answer of applyDelivery; missing units, missing balance, taken ledger keys and regressing deliveries never, an overflow exactly when an accepted failure would return units past 32 bits |
| AccountingTheorems.ProviderOrdersDiffer | src/db/schema.ts:524-527 | in every reachable state no two deliveries of a provider carry one provider order id |
| ReturnOverflow.FailedDeliveryCanOverflow | src/adapters/database/postgres-energy-usage-repository.ts:810-836 | a run from the empty tables after which a failed delivery overflows the count: the report is refused and the order stays dispatching |
| AccountingTheorems.DispatchNeverThrows | src/adapters/database/postgres-energy-usage-repository.ts:533-573 | startDispatch throws exactly for an unknown order or another provider |
| AccountingTheorems.DeliveryIsJoin | src/adapters/database/postgres-energy-usage-repository.ts:533-889 | a delivery row exists exactly when the order has left reserved, is terminal exactly when the order is, and otherwise is the join of all reports |
| AccountingTheorems.JoinIsHighest | src/adapters/database/postgres-energy-usage-repository.ts:79-96 | the join is a report made (or pending) and at least every report made |
| AccountingTheorems.OrderStatusIsJoin | src/core/payments/payment-evidence-lifecycle.ts:85-341 | each order status exactly by its payment rows: none when waiting or expired, the highest row when detected or confirming, one single verdict when paid, credited or failed |
| AccountingTheorems.ObservationsThrowForWidthAlone | src/adapters/database/postgres-payment-lifecycle-repository.ts:230-437 | in every reachable state an observation meets no impossible state or index violation, and throws exactly when a figure it is to write is wider than its column; a lost insert is another order's row |
| AccountingTheorems.OrdersFollowTheMachine | src/core/orders/state-machine.ts:14-26 | every transaction moves every purchase order along a legal path of the transition table, terms and owner unchanged |
| AccountingTheorems.CreditsAreOneToOne | src/adapters/database/postgres-package-credit-repository.ts:49-66 | credited orders and purchase_credit rows correspond one to one, each naming the order's one confirmed payment of exactly the quoted amount, shared with no other row |
| AccountingTheorems.CreditNeverConflicts | src/adapters/database/postgres-package-credit-repository.ts:71-315 | crediting never conflicts, changes the tables only when it creates the credit, and succeeds exactly for paid orders within 32 bits and for credited ones |
| Database.Store.Reserve | src/adapters/database/postgres-energy-usage-repository.ts:338-531 | the statements of reserve have exactly the effect and answer of the accounting model, rollback included |
| Database.Store.StartDispatch | src/adapters/database/postgres-energy-usage-repository.ts:533-635 | the statements of startDispatch have exactly the modelled effect on the orders and nothing else |
| Database.Store.ApplyDelivery | src/adapters/database/postgres-energy-usage-repository.ts:637-889 | the statements of applyDelivery leave the modelled tables or, on any error, the tables they found |
| Database.Store.ApplyLockedPlan | src/adapters/database/postgres-payment-lifecycle-repository.ts:439-523 | the row update and the loop over transitions reach the plan's end state, or leave the tables as they were |
| Database.Store.Observe | src/adapters/database/postgres-payment-lifecycle-repository.ts:186-310 | applyObservation up to its insert either ends with the modelled tables and answer or carries the modelled plan on, tables unchanged |
| Database.Store.InsertObservation | src/adapters/database/postgres-payment-lifecycle-repository.ts:314-436 | the insert, its conflict path and the second planning have exactly the modelled effect |
| Database.Store.ExpireWaiting | src/adapters/database/postgres-usdt-payment-reconciliation-order-repository.ts:128-181 | an order expires exactly when it is waiting and its quote has expired by the given time |
| AccountingHistory.ExpiredWhenDue | src/adapters/database/postgres-usdt-payment-reconciliation-order-repository.ts:128-181 | over every run, a purchase has expired only by an expiry at a time its quote did not outlast, while it was waiting |
| AccountingHistory.DueExpires | src/adapters/database/postgres-usdt-payment-reconciliation-order-repository.ts:128-181 | and such an expiry does expire it |
| AccountingHistory.PurchasesWerePlaced | src/adapters/database/postgres-purchase-order-repository.ts:198-260 | over every run, each purchase has the user and terms it was placed with |
| Database.Store.CreditPaidOrder | src/adapters/database/postgres-package-credit-repository.ts:71-315 | the statements of creditPaidOrder have exactly the modelled effect and answer |
| Base58.ConvertBack | src/adapters/tron/node-tron-address-codec.ts:20-88 | changing the base there and back is the identity on digit strings, leading zeros included |
| Base58.Encode | src/adapters/tron/node-tron-address-codec.ts:20-46 | the encoding loops produce the text of the base 58 digits with a 1 for each leading zero byte |
| Base58.Decode | src/adapters/tron/node-tron-address-codec.ts:48-88 | the decoding loops accept exactly non-empty texts over the alphabet and produce the bytes of their number with their leading zeros |
| Base58.DecodeEncode | src/adapters/tron/node-tron-address-codec.ts:20-88 | decode undoes encode on every non-empty byte string; the empty one encodes to the text decode refuses |
| Base58.EncodeDecode | src/adapters/tron/node-tron-address-codec.ts:20-88 | encode undoes decode on every accepted text |
| Base58.CanonicalTestNeverRejects | src/adapters/tron/node-tron-address-codec.ts:94-111 | an address is accepted exactly for 25 bytes, prefix and checksum; the canonical comparison rejects nothing |
| Base58.PayloadsAreDistinguished | src/adapters/tron/node-tron-address-codec.ts:90-92 | different payloads have different texts |
| Base58.ToBase58CheckIsIdempotent | src/adapters/tron/node-tron-address-codec.ts:113-132 | whatever the codec returns it accepts and returns unchanged |
| Base58.HexAddresses | src/adapters/tron/node-tron-address-codec.ts:113-132 | every 41-prefixed hexadecimal address is accepted, and two get one text exactly when equal up to case |
| Base58.HexAddressMeans | src/adapters/tron/node-tron-address-codec.ts:113-132 | the text made of a hexadecimal address decodes to bytes that print as that address in lower case, and their checksum |
| Base58.EncodingIsTheNumber | src/adapters/tron/node-tron-address-codec.ts:20-46 | the text writes in base 58, by letter values, the number the bytes write in base 256, after one 1 for each leading zero byte |
| AmountAllocator.FirstFree | src/adapters/database/postgres-purchase-order-repository.ts:357-372 | the scan of the sorted amounts returns the least free amount from the base on |
| AmountAllocator.PurchaseOrders.CreateOrGet | src/adapters/database/postgres-purchase-order-repository.ts:157-424 | under any commits of others: the order made holds the least amount of its range free on its route, unavailable means the whole range is in use, replays return the order, and it throws exactly for input it does not accept |
| AmountAllocator.PurchaseOrders.Allocate | src/adapters/database/postgres-purchase-order-repository.ts:324-424 | the retry loop terminates: each lost insert raises the least amount still possible |
| AmountAllocator.PurchaseOrders.Turn | src/adapters/database/postgres-purchase-order-repository.ts:325-422 | one turn answers, or shows that its candidate and every smaller amount of the range are in use |
| AmountAllocator.AmountsAreNeverReused | src/db/schema.ts:164-170 | an amount once given on a route stays with its order for ever |
| AmountAllocator.ReplayFindsTheOrder | src/adapters/database/postgres-purchase-order-repository.ts:84-125 | the same input finds the order made for it, whatever was committed since |
| AmountAllocator.ReplayAnswersExactly | src/adapters/database/postgres-purchase-order-repository.ts:84-125 | a call under a used key finds the order exactly for the same user, package and terms (whenever they expire), whatever was committed since; for anything else it is a conflict |
| AmountAllocator.InUseMeans | src/adapters/database/postgres-purchase-order-repository.ts:325-372 | an amount is in use exactly when an order of any status has it on the same token and address |
| StableJsonTheorems.QuoteUnique | src/adapters/signer/postgres-tron-delegation-signer.ts:72-74 | quoted strings can be read back from the front of any text, escapes and surrogates included |
| StableJsonTheorems.DecimalUnique | src/adapters/signer/postgres-tron-delegation-signer.ts:75-79 | decimal integers can be read back in front of any delimiter |
| StableJsonTheorems.QuotesReadBack | src/adapters/signer/postgres-tron-delegation-signer.ts:72-74 | a reader of JSON strings (section 7 of RFC 8259) gets every quoted string back |
| StableJsonTheorems.DecimalReadsBack | src/adapters/signer/postgres-tron-delegation-signer.ts:75-79 | integers are printed in decimal without leading zeros |
| StableJsonTheorems.Reads | src/adapters/signer/postgres-tron-delegation-signer.ts:68-96 | the printed text of a value determines the value up to property order, and where it ends |
| StableJsonTheorems.CanonicalForm | src/adapters/signer/postgres-tron-delegation-signer.ts:68-96 | two accepted values print alike if and only if they are equal up to the order of object properties |
| StableJsonTheorems.FaultIffNotAccepted | src/adapters/signer/postgres-tron-delegation-signer.ts:68-96 | stableJson throws exactly for values that hold a non-finite number or a value that is not JSON |
| StableJsonTheorems.StableJsonIsCanonical | src/adapters/signer/postgres-tron-delegation-signer.ts:98-100 | the digest input is defined exactly on accepted values and equal exactly for equal transactions |
| KeysetPaging.NextPage | src/adapters/database/postgres-energy-usage-repository.ts:195-295 | the page after a cursor is the next window of the descending list, with its cursors |
| KeysetPaging.PreviousPage | src/adapters/database/postgres-purchase-order-status-repository.ts:193-310 | the page before a cursor is the window that ends there, with its cursors |
| KeysetPaging.WalkIsEverything | src/adapters/database/postgres-energy-usage-repository.ts:184-295 | following next cursors shows every owned order exactly once in descending (createdAt, id) order, for any set and any limit |
| KeysetPaging.PreviousUndoesNext | src/adapters/database/postgres-purchase-order-status-repository.ts:193-310 | previous after next returns the same page with the same cursors, from the first page or any cursor of an owned order |
| RecoveryScheduler.RecoveryService.RunOnce | src/application/energy/energy-delivery-recovery-service.ts:13-31 | a run visits the batch after the cursor, or the first batch when there is none, executes what has a provider, survives every failure and leaves the cursor at the last order visited |
| RecoveryScheduler.RunIsNearer | src/application/energy/energy-delivery-recovery-service.ts:13-31 | each run visits a given pending order or comes one batch nearer to it, whatever leaves the table meanwhile |
| RecoveryScheduler.RecoveryIsFair | src/adapters/database/postgres-energy-usage-repository.ts:114-140 | of n pending orders every one that stays is visited within ceil(n / m) + 1 runs of m, from any cursor |
| RecoveryScheduler.BatchesIsCeiling | src/application/energy/energy-delivery-recovery-service.ts:13-31 | the number of batches is the ceiling of n / m |
| RecoveryScheduler.VisitedIsExecuted | src/application/energy/energy-delivery-recovery-service.ts:19-30 | a visited order is executed exactly when its provider can resume it |
| OrderMutex.OneBodyPerOrder | src/application/energy/energy-usage-service.ts:422-441 | over every interleaving at most one body runs per order, and the map holds an id exactly while one does |
| OrderMutex.NoLostWakeUp | src/application/energy/energy-usage-service.ts:422-441 | a waiting call can go on, or the body it waits for still runs and wakes it by finishing |
| OrderMutex.StartsOnlyWhenFree | src/application/energy/energy-usage-service.ts:422-441 | a body starts only while none runs on its order and ends only by finishing, which is what the serialised protocol model assumes |
| OrderMutex.FreeOrderIsTaken | src/application/energy/energy-usage-service.ts:422-441 | when no body runs, a waiter that goes on runs next |
| Reconciliation.Service.RunOnce | src/application/payments/usdt-payment-reconciliation-service.ts:203-483 | every call follows from the answers before it and nothing else is done; what is applied was found, what is found for a listed order is applied, and a normal return leaves nothing owed; every overdue order is let expire right after a complete scan, exactly unless a payment for it was found; the counters are exact |
| Reconciliation.Service.Settle | src/application/payments/usdt-payment-reconciliation-service.ts:341-375 | a candidate is applied once, and what the answers then call for is done: credit when paid, else finality check, its evidence applied, credit when paid then |
| Reconciliation.CandidateIsFollowedUp | src/application/payments/usdt-payment-reconciliation-service.ts:341-375 | in the calls of a run that returned normally: after a candidate's application, credit when paid, the finality check when still open, then its evidence applied and credit when that paid, call by call |
| Reconciliation.CoveredIsApplied | src/application/payments/usdt-payment-reconciliation-service.ts:241-401 | every open order of such a run has a stretch of calls reading all pages of its window, and each payment for it on a page is applied to it after that page |
| Reconciliation.FoundIsApplied | src/application/payments/usdt-payment-reconciliation-service.ts:313-341 | and before the next page is read |
| Reconciliation.Service.ScanOrders | src/application/payments/usdt-payment-reconciliation-service.ts:241-401 | a scan returns normally only after reading every page of its request in cursor order within the page bound, each page's candidates settled before the next is read, and matches exactly the orders paid on them |
| Reconciliation.Service.ExpireOne | src/application/payments/usdt-payment-reconciliation-service.ts:415-440 | an overdue order is scanned alone up to its quote's expiry before it may expire |
| Reconciliation.Service.Index | src/application/payments/usdt-payment-reconciliation-service.ts:262-291 | amounts index the group without ambiguity; the scan is refused exactly when two orders share one |
| Reconciliation.Service.Match | src/application/payments/usdt-payment-reconciliation-service.ts:313-377 | one page matches exactly the orders with a candidate of their amount in their window, and applies exactly the page's candidates, each once and in order |
| Reconciliation.Service.GroupActive | src/application/payments/usdt-payment-reconciliation-service.ts:443-456 | groups hold exactly the active orders, each with one token and address |
| Reconciliation.PaysOne | src/application/payments/usdt-payment-reconciliation-service.ts:317-337 | with distinct amounts a candidate pays exactly one order |
| Reconciliation.ListedAmountsDiffer | src/adapters/database/postgres-usdt-payment-reconciliation-order-repository.ts:33-127 | orders listed from the table never share an amount on a route, so the duplicate-amount failure cannot occur |

## Left out

- AttemptJournal.Journal.BindDelegation: does not model the trimming of addresses, the refusal of empty ones or the test of the provider's name; addresses are canonical and there is one provider.
- AttemptJournal.Journal.ClaimAttemptTransaction: does not model the lower-casing of the txid text; identities are the transactions themselves.
- DelegationSerial.ReleasedMeansNeverDelivered: a crash there also ends the database statement or broadcast its operation had under way; only sign requests arrive late. Statements and broadcasts that outlive their process are slow operations beside the next one, which the theorems for any number of operations cover (DelegationTheorems, DelegationRelease).
- Base58.Decode: does not model iteration over astral code points; a text is a sequence of characters, each either in the alphabet or not.
- StableJsonTheorems.CanonicalForm: numbers are integers below 10^21 in magnitude, which is where JSON.stringify prints plain decimals; fractions and exponents are not modelled.
- KeysetPaging.PreviousUndoesNext: a request for the previous page without a cursor is excluded, as the query services refuse it (src/application/energy/energy-order-query-service.ts:64-66).
- KeysetPaging.WalkIsEverything: the set of orders is fixed while pages are followed.
- KeysetPaging.NextPage: the refusals before the query (a blocked user, a missing balance, a limit outside 1 to 10) are not modelled; any limit from 1 on is.
- RecoveryScheduler.RecoveryIsFair: no order joins the pending set during the runs counted; a steady flow of new orders past the cursor can delay the wrap-around.
- DelegationTheorems.CompletedMeansDeliveredOnce: safety only; no progress from a signed attempt is claimed (DelegationStuck shows why).
- The chain is observed in one atomic, sound read: the separate requests of src/adapters/tron/tron-delegation-http-transport.ts:525-617 are not modelled.
- A broadcast answers accepted or unknown; the rejected branch at src/adapters/energy/tron-own-pool-energy-provider.ts:843-851, which the transport never takes, is not modelled.
- The provider and the services appear as steps of state machines rather than as methods, because their operations interleave; the journals, the tables, the allocator, the scanners and the recovery service are classes.
- One provider, tron-own-pool, and one pool owner; addresses are already canonical, and attempt, delivery and ledger keys are abstract but injective.
- Transaction signing, protobuf and SHA-256: a txid is the identity of the transaction, the checksum any function to four bytes.
- Each database transaction is atomic, except that payment inserts and the amount allocator keep the window between their select and their insert; SQL, locks within a transaction and row ids are not modelled.
- The admin_adjustment ledger reason, which nothing writes.
- Confirmations and event indexes are integers; non-integer JavaScript numbers are not modelled there.
- HTTP clients and servers, configuration, Telegram handlers, TRX quoting, catalogue bootstrap, feature flags, admin roles: they would add only easy members.
