// The transactions of Accounting as they run, statement by statement: PostgresEnergyUsageRepository,
// PostgresPaymentLifecycleRepository, PostgresPackageCreditRepository and the expiry of
// PostgresUsdtReconciliationOrderRepository. Each method is one database transaction (applyObservation is two, around
// its insert) and is proved to have exactly the effect the state machine gives it, rollback included.
module Database {
  import opened Prelude
  import opened Chain
  import opened EnergyOrders
  import opened PurchasePayment
  import opened PaymentPlan
  import opened Tables
  import opened PaymentLifecycle
  import opened EnergyUsage

  class Store {
    var blocked: map<User, bool>
    var balances: map<User, Balance>
    var options: map<string, EnergyOption>
    var energy: map<Id, EnergyOrder>
    var energyByKey: map<string, Id>
    var purchases: map<Id, Purchase>
    var payments: map<Txid, Payment>
    var ledger: map<LedgerKey, Entry>

    constructor (t: Tables)
      ensures View() == t
    {
      blocked, balances, options, energy := t.blocked, t.balances, t.options, t.energy;
      energyByKey, purchases, payments, ledger := t.energyByKey, t.purchases, t.payments, t.ledger;
    }

    function View(): Tables reads this {
      Rows(blocked, balances, options, energy, energyByKey, purchases, payments, ledger)
    }

    method Rollback(t: Tables)
      modifies this
      ensures View() == t
    {
      blocked, balances, options, energy := t.blocked, t.balances, t.options, t.energy;
      energyByKey, purchases, payments, ledger := t.energyByKey, t.purchases, t.payments, t.ledger;
    }

    method Reserve(input: ReserveInput, orderId: Id) returns (r: Reservation)
      modifies this
      ensures (View(), r) == EnergyUsage.Reserve(old(View()), input, orderId)
    {
      hide LedgerFree;
      if input.key in energyByKey && energyByKey[input.key] in energy {
        var existing := energy[energyByKey[input.key]];
        if input.user !in blocked || blocked[input.user] { return Denied; }
        if existing.user != input.user || existing.option != input.option || existing.recipient != input.recipient { return Conflict; }
        if input.user !in balances { return ReserveThrows; }
        return Reserved(false, energyByKey[input.key]);
      }
      r := ReserveNew(input, orderId);
    }

    // A reservation under a new idempotency key.
    method ReserveNew(input: ReserveInput, orderId: Id) returns (r: Reservation)
      requires !(input.key in energyByKey && energyByKey[input.key] in energy)
      modifies this
      ensures (View(), r) == EnergyUsage.Reserve(old(View()), input, orderId)
    {
      hide LedgerFree;
      var start := View();
      if input.user !in blocked || blocked[input.user] { return Denied; }
      if input.user !in balances { return ReserveThrows; }
      if input.option !in options { return OptionUnavailable; }
      var option, balance := options[input.option], balances[input.user];
      if balance.available < option.cost { return Insufficient(balance.available, option.cost); }
      if balance.reserved + option.cost > INT4_MAX { return ReserveThrows; }
      balances := balances[input.user := Balance(balance.available - option.cost, balance.reserved + option.cost)];
      if orderId in energy || input.key in energyByKey { Rollback(start); return ReserveThrows; }
      var created := EnergyOrder(input.user, input.key, input.option, input.recipient, option.energy, option.cost, OCreated, None);
      energy := energy[orderId := created];
      energyByKey := energyByKey[input.key := orderId];
      var key := LedgerKey(REnergyReserve, orderId);
      var entry := Entry(input.user, REnergyReserve, None, None, Some(orderId), 0 - option.cost, option.cost);
      FreeBy(start, View(), key, entry);
      if !LedgerFree(View(), key, entry) { Rollback(start); return ReserveThrows; }
      ledger := ledger[key := entry];
      energy := energy[orderId := created.(state := OReserved)];
      assert energy == start.energy[orderId := created.(state := OReserved)];
      r := Reserved(true, orderId);
    }

    method StartDispatch(id: Id, provider: string) returns (r: Dispatched)
      modifies this`energy
      ensures (View(), r) == EnergyUsage.StartDispatch(old(View()), id, provider)
    {
      if id !in energy { return DispatchThrows; }
      var order := energy[id];
      if order.user !in balances { return DispatchThrows; }
      if order.state != OReserved {
        if order.delivery.None? || order.delivery.value.provider != provider { return DispatchThrows; }
        return Dispatched(false);
      }
      if order.delivery.Some? { return DispatchThrows; }
      energy := energy[id := order.(delivery := Some(DeliveryRow(provider, Delivery(DPending, None))))];
      energy := energy[id := energy[id].(state := ODispatching)];
      assert energy == old(energy)[id := energy[id]];
      r := Dispatched(true);
    }

    // The end of a reservation: the balance and ledger updates of a completed or failed delivery.
    method SettleUnits(id: Id, order: EnergyOrder, reason: Reason, returned: nat) returns (failure: Option<ApplyError>)
      requires order.user in balances
      modifies this
      ensures failure.Some? ==> Settle(old(View()), id, order, reason, returned) == Err(failure.value)
      ensures failure.None? ==> Settle(old(View()), id, order, reason, returned) == Ok(View())
    {
      var balance := balances[order.user];
      if balance.reserved < order.cost { return Some(ReservedMissing); }
      if balance.available + returned > INT4_MAX { return Some(Overflow); }
      balances := balances[order.user := Balance(balance.available + returned, balance.reserved - order.cost)];
      var key, entry := LedgerKey(reason, id), Entry(order.user, reason, None, None, Some(id), returned, 0 - order.cost);
      if !LedgerFree(View(), key, entry) { return Some(LedgerTaken); }
      ledger := ledger[key := entry];
      failure := None;
    }

    // The statements of a completed delivery: balance and ledger before the delivery row.
    method Complete(id: Id, delivery: Delivery) returns (failure: Option<ApplyError>)
      requires id in energy && energy[id].delivery.Some? && energy[id].user in balances
      modifies this
      ensures var settled := SettleAs(old(View()), id, EnergyOrders.Applied(OCompleted, delivery, Consume));
        if failure.None? then settled == Ok(View()) else View() == old(View()) && settled == Err(failure.value)
    {
      hide Settle, IndexRefuses;
      var start, order := View(), energy[id];
      var row := order.delivery.value;
      failure := SettleUnits(id, order, REnergyConsume, 0);
      ghost var after := order.(state := OCompleted, delivery := Some(DeliveryRow(row.provider, delivery)));
      SettleEarly(start, id, order, after, REnergyConsume, 0);
      if failure.Some? { Rollback(start); return; }
      if IndexRefuses(start, id, row, delivery) { Rollback(start); return Some(ProviderOrderTaken); }
      energy := energy[id := order.(delivery := Some(DeliveryRow(row.provider, delivery)))];
      energy := energy[id := energy[id].(state := OCompleted)];
      assert energy == start.energy[id := energy[id]];
    }

    // The statements of a failed delivery: the delivery row before balance and ledger.
    method Fail(id: Id, delivery: Delivery) returns (failure: Option<ApplyError>)
      requires id in energy && energy[id].delivery.Some? && energy[id].user in balances
      modifies this
      ensures var settled := SettleAs(old(View()), id, EnergyOrders.Applied(OReleased, delivery, Release));
        if failure.None? then settled == Ok(View()) else View() == old(View()) && settled == Err(failure.value)
    {
      hide Settle, IndexRefuses, SettleAs;
      var start, order := View(), energy[id];
      var row := order.delivery.value;
      FailIs(start, id, delivery);
      if IndexRefuses(start, id, row, delivery) { return Some(ProviderOrderTaken); }
      energy := energy[id := order.(delivery := Some(DeliveryRow(row.provider, delivery)))];
      if energy[id].state == ODispatching { energy := energy[id := energy[id].(state := ODeliveryFailed)]; }
      energy := energy[id := energy[id].(state := OReleased)];
      ghost var after := order.(state := OReleased, delivery := Some(DeliveryRow(row.provider, delivery)));
      assert energy == start.energy[id := after];
      assert View() == start.(energy := start.energy[id := after]);
      failure := SettleUnits(id, order, REnergyRelease, order.cost);
      if failure.Some? { Rollback(start); }
    }

    method ApplyDelivery(id: Id, provider: string, providerOrderId: Option<Tx>, report: DeliveryStatus)
      returns (failure: Option<ApplyError>)
      requires report != DPending
      modifies this
      ensures failure.Some? ==> View() == old(View())
                                && EnergyUsage.ApplyDelivery(old(View()), id, provider, providerOrderId, report) == Err(failure.value)
      ensures failure.None? ==> EnergyUsage.ApplyDelivery(old(View()), id, provider, providerOrderId, report) == Ok(View())
    {
      hide Settle, LedgerFree, Merge, HeldElsewhere;
      if id !in energy { return Some(OrderMissing); }
      var order := energy[id];
      if order.delivery.None? || order.delivery.value.provider != provider { return Some(DeliveryMismatch); }
      var delivery := order.delivery.value.delivery;
      if delivery.providerOrderId.Some? && providerOrderId.Some? && delivery.providerOrderId != providerOrderId {
        return Some(Rejected(IdentityChanged));
      }
      var known := if delivery.providerOrderId.Some? then delivery.providerOrderId else providerOrderId;
      if order.user !in balances { return Some(BalanceMissing); }
      if report == DCompleted {
        if order.state == OCompleted { KeepsRow(id); return None; }
        if order.state != ODispatching { return Some(Rejected(CompletedConflicts)); }
        failure := Complete(id, Delivery(DCompleted, known));
        return;
      }
      if report == DFailed {
        if order.state == OReleased { KeepsRow(id); return None; }
        if order.state != ODispatching && order.state != ODeliveryFailed { return Some(Rejected(FailedConflicts)); }
        failure := Fail(id, Delivery(DFailed, known));
        return;
      }
      if order.state != ODispatching { KeepsRow(id); return None; }
      var next := Merge(delivery.status, report);
      if next.Err? { return Some(Rejected(next.error)); }
      if IndexRefuses(View(), id, order.delivery.value, Delivery(next.value, known)) { return Some(ProviderOrderTaken); }
      energy := energy[id := order.(delivery := Some(DeliveryRow(provider, Delivery(next.value, known))))];
      failure := None;
    }

    lemma KeepsRow(id: Id)
      requires id in energy
      ensures energy == energy[id := energy[id]]
    {
    }

    // applyLockedPlan: the payment row, then the order one transition at a time.
    method ApplyLockedPlan(order: Id, state: PurchaseState, o: Observed, plan: Plan, now: nat) returns (r: ObservationResult)
      requires order in purchases && o.txid in payments && plan.ApplyPlan?
      modifies this
      ensures (View(), r) == ApplyLocked(old(View()), order, state, o, plan, now)
    {
      var start := View();
      var row := MergedPayment(payments[o.txid], order, o, plan.status, now);
      if !FitsColumns(row) || ConfirmedTaken(start, order, o.txid, plan.status) { return ObservationThrows; }
      payments := payments[o.txid := row];
      var current, i := state, 0;
      assert purchases == start.purchases[order := start.purchases[order]];
      while i < |plan.steps|
        invariant 0 <= i <= |plan.steps|
        invariant current == if i == 0 then state else plan.steps[i - 1]
        invariant i > 0 ==> start.purchases[order].state == state
        invariant purchases == start.purchases[order := start.purchases[order].(
                    state := if i == 0 then start.purchases[order].state else current)]
        invariant View() == start.(purchases := purchases, payments := payments)
        invariant payments == start.payments[o.txid := row]
      {
        if purchases[order].state != current { Rollback(start); return ObservationThrows; }
        purchases := purchases[order := purchases[order].(state := plan.steps[i])];
        current := plan.steps[i];
        i := i + 1;
      }
      r := ObservationResult.Applied(o.txid, plan.status, current);
    }

    // applyObservation up to its insert.
    method Observe(order: Id, o: Observed, now: nat) returns (ended: Option<ObservationResult>, plan: Plan)
      modifies this
      ensures var begun := BeginObservation(old(View()), order, o, now);
        if ended.Some? then begun == Ended(View(), ended.value) else begun == Inserting(plan) && View() == old(View())
    {
      plan := Ignore(false);
      if order !in purchases { return Some(OrderNotFound), plan; }
      var purchase := purchases[order];
      var expectation := Expected(purchase.terms);
      if expectation.None? { return Some(PersistedOrderInvalid), plan; }
      if !ValidMetadata(o) { return Some(Ignored(false)), plan; }
      var current: Option<TxStatus> := None;
      if o.txid in payments {
        var conflict := RowConflict(payments[o.txid], order, o);
        if conflict.Some? { return conflict, plan; }
        current := Some(payments[o.txid].status);
      }
      plan := PlanFor(Evaluate(expectation.value, o), purchase.state, current);
      if !plan.ApplyPlan? { return Some(Answer(plan, purchase.state)), plan; }
      if o.txid !in payments { return None, plan; }
      var applied := ApplyLockedPlan(order, purchase.state, o, plan, now);
      ended := Some(applied);
    }

    // The insert of applyObservation and what follows.
    method InsertObservation(order: Id, o: Observed, state: PurchaseState, evaluation: Evaluation, plan: Plan, now: nat)
      returns (r: ObservationResult)
      requires order in purchases && plan.ApplyPlan?
      modifies this
      ensures (View(), r) == FinishObservation(old(View()), order, o, state, evaluation, plan, now)
    {
      hide InsertPayment, PlanAgain, ConfirmedTaken, FitsColumns;
      if !FitsColumns(NewPayment(order, o, plan.status, now)) { return ObservationThrows; }
      if o.txid !in payments && !ConfirmedTaken(View(), order, o.txid, plan.status) {
        r := InsertAndApply(order, o, state, plan, now);
      } else {
        r := ApplyAgain(order, o, state, evaluation, now);
      }
    }

    method InsertAndApply(order: Id, o: Observed, state: PurchaseState, plan: Plan, now: nat) returns (r: ObservationResult)
      requires order in purchases && plan.ApplyPlan?
      modifies this
      ensures (View(), r) == InsertPayment(old(View()), order, o, state, plan, now)
    {
      hide ApplyLocked, NewPayment, FitsColumns;
      var start := View();
      payments := payments[o.txid := NewPayment(order, o, plan.status, now)];
      r := ApplyLockedPlan(order, state, o, plan, now);
      if r.ObservationThrows? { Rollback(start); }
    }

    method ApplyAgain(order: Id, o: Observed, state: PurchaseState, evaluation: Evaluation, now: nat) returns (r: ObservationResult)
      requires order in purchases
      modifies this
      ensures (View(), r) == PlanAgain(old(View()), order, o, state, evaluation, now)
    {
      hide ApplyLocked, RowConflict, PlanFor, Answer;
      if o.txid !in payments { return DatabaseUniqueConflict; }
      var conflict := RowConflict(payments[o.txid], order, o);
      if conflict.Some? { return conflict.value; }
      var concurrent := PlanFor(evaluation, state, Some(payments[o.txid].status));
      if !concurrent.ApplyPlan? { return Answer(concurrent, state); }
      r := ApplyLockedPlan(order, state, o, concurrent, now);
    }

    method ExpireWaiting(order: Id, at: int) returns (r: ExpiryResult)
      modifies this`purchases
      ensures (View(), r) == PaymentLifecycle.ExpireWaiting(old(View()), order, at)
    {
      if order !in purchases { return ExpiryOrderNotFound; }
      var purchase := purchases[order];
      if purchase.state != PWaiting || purchase.terms.expiresAt.None? { return NotWaiting; }
      match purchase.terms.expiresAt.value
      case NotATime => return NotWaiting;
      case Instant(ms) =>
        if ms > at { return NotWaiting; }
        purchases := purchases[order := purchase.(state := PExpired)];
        return Expired;
    }

    method CreditPaidOrder(order: Id) returns (r: CreditResult)
      modifies this
      ensures (View(), r) == PaymentLifecycle.CreditPaidOrder(old(View()), order)
    {
      var start := View();
      if order !in purchases { return CreditOrderNotFound; }
      var purchase := purchases[order];
      if purchase.terms.count <= 0 { return CreditOrderInvalid; }
      if purchase.state != PPaid && purchase.state != PCredited { return NotReady(purchase.state); }
      var confirmed := ConfirmedFor(start, order);
      if |confirmed| == 0 { return ConfirmedPaymentMissing; }
      if |confirmed| != 1 { return ConfirmedPaymentMismatch; }
      var payment: Txid :| payment in confirmed;
      OnlyOne(confirmed, payment);
      if purchase.user !in balances { return CreditBalanceMissing; }
      var balance, existing := balances[purchase.user], CreditsFor(start, order, payment);
      var key, entry := LedgerKey(RPurchaseCredit, order), CreditEntry(start, order, payment);
      if |existing| > 1 { return LedgerConflict; }
      if |existing| == 1 {
        var row: LedgerKey :| row in existing;
        OnlyOne(existing, row);
        if row != key || ledger[row] != entry || purchase.state != PCredited { return LedgerConflict; }
        return Credited(false, payment, balance.available);
      }
      if purchase.state == PCredited { return CreditedWithoutLedger; }
      if !LedgerFree(start, key, entry) { return LedgerUniqueConflict; }
      ledger := ledger[key := entry];
      if balance.available + purchase.terms.count > INT4_MAX { Rollback(start); return CreditThrows; }
      balances := balances[purchase.user := balance.(available := balance.available + purchase.terms.count)];
      purchases := purchases[order := purchase.(state := PCredited)];
      r := Credited(true, payment, balance.available + purchase.terms.count);
    }
  }

  lemma FreeBy(t: Tables, s: Tables, k: LedgerKey, e: Entry)
    requires s.ledger == t.ledger
    ensures LedgerFree(s, k, e) == LedgerFree(t, k, e)
  {
  }

  // Whether a settlement goes through does not depend on the delivery row.
  lemma SettleEarly(t: Tables, id: Id, order: EnergyOrder, after: EnergyOrder, reason: Reason, returned: nat)
    requires order.user in t.balances
    ensures var early := Settle(t, id, order, reason, returned);
      var late := Settle(t.(energy := t.energy[id := after]), id, order, reason, returned);
      if early.Err? then late == early else late == Ok(early.value.(energy := t.energy[id := after])) && early.value.energy == t.energy
  {
    hide LedgerFree;
    FreeBy(t, t.(energy := t.energy[id := after]), LedgerKey(reason, id),
           Entry(order.user, reason, None, None, Some(id), returned, 0 - order.cost));
  }

  lemma FailIs(t: Tables, id: Id, delivery: Delivery)
    requires id in t.energy && t.energy[id].delivery.Some? && t.energy[id].user in t.balances
    ensures var order := t.energy[id];
      var after := order.(state := OReleased, delivery := Some(DeliveryRow(order.delivery.value.provider, delivery)));
      SettleAs(t, id, EnergyOrders.Applied(OReleased, delivery, Release)) ==
        if IndexRefuses(t, id, order.delivery.value, delivery) then Err(ProviderOrderTaken)
        else Settle(t.(energy := t.energy[id := after]), id, order, REnergyRelease, order.cost)
  {
    hide Settle, IndexRefuses;
  }

  lemma OnlyOne<T(!new)>(s: set<T>, x: T)
    requires |s| == 1 && x in s
    ensures Only(s) == x
  {
    assert |s - {x}| == 0;
    assert Only(s) in s && Only(s) !in s - {x};
  }
}
