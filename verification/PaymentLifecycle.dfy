// Payments and credits of purchase orders: PostgresPaymentLifecycleRepository
// (src/adapters/database/postgres-payment-lifecycle-repository.ts), expireWaitingUsdtOrder
// (src/adapters/database/postgres-usdt-payment-reconciliation-order-repository.ts) and PostgresPackageCreditRepository
// (src/adapters/database/postgres-package-credit-repository.ts).
module PaymentLifecycle {
  import opened Prelude
  import opened PurchasePayment
  import opened PaymentPlan
  import opened Tables

  datatype ObservationResult =
    | Applied(txid: Txid, status: TxStatus, orderState: PurchaseState)
    | Ignored(mismatch: bool)
    | TerminalNoop(orderState: PurchaseState)
    | OrderNotFound
    | InvalidOrderState
    | TransactionTerminalConflict
    | OrderTerminalConflict
    | PersistedOrderInvalid
    | PaymentIdentityConflict
    | PaymentEvidenceConflict
    | DatabaseUniqueConflict
    | ObservationThrows

  predicate ValidMetadata(o: Observed) {
    (o.blockNumber.Some? ==> o.blockNumber.value >= 0) && o.blockTimestamp != Some(NotATime)
  }

  predicate SameOptional<T(==)>(stored: Option<T>, observed: Option<T>) {
    observed.None? || stored.None? || stored == observed
  }

  predicate SameEvidence(row: Payment, o: Observed) {
    && row.asset == o.asset && row.token == o.token && row.eventIndex == o.eventIndex
    && row.fromAddress == o.fromAddress && row.toAddress == o.toAddress && row.amount == o.amount
    && SameOptional(row.blockNumber, o.blockNumber) && SameOptional(row.blockTimestamp, o.blockTimestamp)
  }

  // validateExisting
  function RowConflict(row: Payment, order: Id, o: Observed): Option<ObservationResult> {
    if row.order.Some? && row.order != Some(order) then Some(PaymentIdentityConflict)
    else if !SameEvidence(row, o) then Some(PaymentEvidenceConflict)
    else None
  }

  // What a plan that applies nothing answers.
  function Answer(plan: Plan, state: PurchaseState): ObservationResult
    requires !plan.ApplyPlan?
  {
    match plan
    case Ignore(mismatch) => Ignored(mismatch)
    case PlanNoop => TerminalNoop(state)
    case PlanInvalidState => InvalidOrderState
    case PlanTransactionConflict => TransactionTerminalConflict
    case PlanOrderConflict => OrderTerminalConflict
  }

  function NewPayment(order: Id, o: Observed, status: TxStatus, now: nat): Payment {
    Payment(Some(order), o.asset, o.token, o.eventIndex, o.fromAddress, o.toAddress, o.amount, o.blockNumber,
            o.blockTimestamp, o.confirmations, status, if status == TConfirmed then Some(now) else None)
  }

  const INT8_MAX: nat := 9223372036854775807

  // The integer columns: event index and confirmations of 32 bits, amount and block number of 64.
  predicate FitsColumns(row: Payment) {
    && row.confirmations <= INT4_MAX && (row.eventIndex.Some? ==> row.eventIndex.value <= INT4_MAX)
    && row.amount <= INT8_MAX && (row.blockNumber.Some? ==> row.blockNumber.value <= INT8_MAX)
  }

  // Another row would hold the place of payment_transactions_confirmed_order_unique.
  predicate ConfirmedTaken(t: Tables, order: Id, txid: Txid, status: TxStatus) {
    status == TConfirmed &&
    exists x <- t.payments :: x != txid && t.payments[x].order == Some(order) && t.payments[x].status == TConfirmed
  }

  function MergedPayment(row: Payment, order: Id, o: Observed, status: TxStatus, now: nat): Payment {
    row.(order := Some(order),
         blockNumber := if row.blockNumber.Some? then row.blockNumber else o.blockNumber,
         blockTimestamp := if row.blockTimestamp.Some? then row.blockTimestamp else o.blockTimestamp,
         confirmations := Max(row.confirmations, o.confirmations),
         status := status,
         confirmedAt := if status == TConfirmed && row.confirmedAt.None? then Some(now) else row.confirmedAt)
  }

  // applyLockedPlan; state is the order status the plan was made for.
  function ApplyLocked(t: Tables, order: Id, state: PurchaseState, o: Observed, plan: Plan, now: nat): (Tables, ObservationResult)
    requires order in t.purchases && o.txid in t.payments && plan.ApplyPlan?
  {
    var row := MergedPayment(t.payments[o.txid], order, o, plan.status, now);
    if !FitsColumns(row) || ConfirmedTaken(t, order, o.txid, plan.status) ||
       (plan.steps != [] && t.purchases[order].state != state)
    then (t, ObservationThrows)
    else
      (t.(payments := t.payments[o.txid := row],
          purchases := t.purchases[order := t.purchases[order].(state := EndOf(t.purchases[order].state, plan.steps))]),
       Applied(o.txid, plan.status, EndOf(state, plan.steps)))
  }

  // applyObservation up to its insert. It ends there when the payment row exists already or nothing is to be applied;
  // otherwise the plan is carried to the insert, the order row staying locked.
  datatype Begun = Ended(tables: Tables, result: ObservationResult) | Inserting(plan: Plan)

  function BeginObservation(t: Tables, order: Id, o: Observed, now: nat): Begun {
    if order !in t.purchases then Ended(t, OrderNotFound)
    else
      var expectation := Expected(t.purchases[order].terms);
      if expectation.None? then Ended(t, PersistedOrderInvalid)
      else if !ValidMetadata(o) then Ended(t, Ignored(false))
      else
        var state, known := t.purchases[order].state, o.txid in t.payments;
        if known && RowConflict(t.payments[o.txid], order, o).Some? then
          Ended(t, RowConflict(t.payments[o.txid], order, o).value)
        else
          var current := if known then Some(t.payments[o.txid].status) else None;
          var plan := PlanFor(Evaluate(expectation.value, o), state, current);
          if !plan.ApplyPlan? then Ended(t, Answer(plan, state))
          else if !known then Inserting(plan)
          else var (after, result) := ApplyLocked(t, order, state, o, plan, now); Ended(after, result)
  }

  // The insert and what follows it, on the tables of that moment; state and evaluation are from before.
  function FinishObservation(t: Tables, order: Id, o: Observed, state: PurchaseState, evaluation: Evaluation, plan: Plan, now: nat)
    : (Tables, ObservationResult)
    requires order in t.purchases && plan.ApplyPlan?
  {
    if !FitsColumns(NewPayment(order, o, plan.status, now)) then (t, ObservationThrows)
    else if o.txid !in t.payments && !ConfirmedTaken(t, order, o.txid, plan.status) then InsertPayment(t, order, o, state, plan, now)
    else PlanAgain(t, order, o, state, evaluation, now)
  }

  function InsertPayment(t: Tables, order: Id, o: Observed, state: PurchaseState, plan: Plan, now: nat): (Tables, ObservationResult)
    requires order in t.purchases && plan.ApplyPlan?
  {
    var inserted := t.(payments := t.payments[o.txid := NewPayment(order, o, plan.status, now)]);
    var (after, result) := ApplyLocked(inserted, order, state, o, plan, now);
    if result.ObservationThrows? then (t, result) else (after, result)
  }

  // The insert lost to a conflicting row.
  function PlanAgain(t: Tables, order: Id, o: Observed, state: PurchaseState, evaluation: Evaluation, now: nat)
    : (Tables, ObservationResult)
    requires order in t.purchases
  {
    if o.txid !in t.payments then (t, DatabaseUniqueConflict)
    else if RowConflict(t.payments[o.txid], order, o).Some? then (t, RowConflict(t.payments[o.txid], order, o).value)
    else
      var concurrent := PlanFor(evaluation, state, Some(t.payments[o.txid].status));
      if !concurrent.ApplyPlan? then (t, Answer(concurrent, state))
      else ApplyLocked(t, order, state, o, concurrent, now)
  }

  datatype ExpiryResult = Expired | NotWaiting | ExpiryOrderNotFound

  // expireWaitingUsdtOrder
  function ExpireWaiting(t: Tables, order: Id, at: int): (Tables, ExpiryResult) {
    if order !in t.purchases then (t, ExpiryOrderNotFound)
    else
      var purchase := t.purchases[order];
      if purchase.state != PWaiting || !purchase.terms.expiresAt.Some? || purchase.terms.expiresAt.value.NotATime? ||
         purchase.terms.expiresAt.value.ms > at
      then (t, NotWaiting)
      else (t.(purchases := t.purchases[order := purchase.(state := PExpired)]), Expired)
  }

  datatype CreditResult =
    | Credited(created: bool, payment: Txid, available: nat)
    | CreditOrderNotFound
    | NotReady(state: PurchaseState)
    | CreditOrderInvalid
    | ConfirmedPaymentMissing
    | ConfirmedPaymentMismatch
    | CreditBalanceMissing
    | LedgerConflict
    | CreditedWithoutLedger
    | LedgerUniqueConflict
    | CreditThrows

  function ConfirmedFor(t: Tables, order: Id): set<Txid> {
    set x <- t.payments | t.payments[x].order == Some(order) && t.payments[x].status == TConfirmed
  }

  // The purchase_credit rows for the order or for the payment.
  function CreditsFor(t: Tables, order: Id, payment: Txid): set<LedgerKey> {
    set k <- t.ledger | t.ledger[k].reason == RPurchaseCredit &&
                        (t.ledger[k].purchase == Some(order) || t.ledger[k].payment == Some(payment))
  }

  function CreditEntry(t: Tables, order: Id, payment: Txid): Entry
    requires order in t.purchases
  {
    Entry(t.purchases[order].user, RPurchaseCredit, Some(order), Some(payment), None, t.purchases[order].terms.count, 0)
  }

  ghost function Only<T(!new)>(s: set<T>): T requires |s| == 1 { var x :| x in s; x }

  // creditPaidOrder
  ghost function CreditPaidOrder(t: Tables, order: Id): (Tables, CreditResult) {
    if order !in t.purchases then (t, CreditOrderNotFound)
    else if t.purchases[order].terms.count <= 0 then (t, CreditOrderInvalid)
    else if t.purchases[order].state != PPaid && t.purchases[order].state != PCredited then
      (t, NotReady(t.purchases[order].state))
    else
      var confirmed := ConfirmedFor(t, order);
      if |confirmed| == 0 then (t, ConfirmedPaymentMissing)
      else if |confirmed| != 1 then (t, ConfirmedPaymentMismatch)
      else CreditWith(t, order, Only(confirmed))
  }

  ghost function CreditWith(t: Tables, order: Id, payment: Txid): (Tables, CreditResult)
    requires order in t.purchases && t.purchases[order].terms.count > 0
  {
    var purchase := t.purchases[order];
    if purchase.user !in t.balances then (t, CreditBalanceMissing)
    else
      var balance, existing := t.balances[purchase.user], CreditsFor(t, order, payment);
      var key, entry := LedgerKey(RPurchaseCredit, order), CreditEntry(t, order, payment);
      if |existing| > 1 then (t, LedgerConflict)
      else if |existing| == 1 then
        if Only(existing) != key || t.ledger[Only(existing)] != entry || purchase.state != PCredited then (t, LedgerConflict)
        else (t, Credited(false, payment, balance.available))
      else if purchase.state == PCredited then (t, CreditedWithoutLedger)
      else if !LedgerFree(t, key, entry) then (t, LedgerUniqueConflict)
      else if balance.available + purchase.terms.count > INT4_MAX then (t, CreditThrows)
      else
        (t.(balances := t.balances[purchase.user := balance.(available := balance.available + purchase.terms.count)],
            purchases := t.purchases[order := purchase.(state := PCredited)],
            ledger := t.ledger[key := entry]),
         Credited(true, payment, balance.available + purchase.terms.count))
  }
}
