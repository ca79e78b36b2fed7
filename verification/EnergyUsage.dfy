// PostgresEnergyUsageRepository (src/adapters/database/postgres-energy-usage-repository.ts): what each of its
// database transactions does to the tables. An exception rolls the transaction back.
module EnergyUsage {
  import opened Prelude
  import opened Chain
  import opened EnergyOrders
  import opened Tables

  datatype Reservation =
    | Denied
    | Conflict
    | OptionUnavailable
    | Insufficient(available: nat, required: nat)
    | Reserved(created: bool, order: Id)
    | ReserveThrows

  datatype ReserveInput = ReserveInput(user: User, option: string, recipient: Address, key: string)

  // reserve; orderId is the random id of a new order.
  function Reserve(t: Tables, input: ReserveInput, orderId: Id): (Tables, Reservation) {
    if input.key in t.energyByKey && t.energyByKey[input.key] in t.energy then
      var existing := t.energyByKey[input.key];
      (t, ReplayReservation(t, input, existing))
    else if input.user !in t.blocked || t.blocked[input.user] then (t, Denied)
    else if input.user !in t.balances then (t, ReserveThrows)
    else if input.option !in t.options then (t, OptionUnavailable)
    else
      var option, balance := t.options[input.option], t.balances[input.user];
      if balance.available < option.cost then (t, Insufficient(balance.available, option.cost))
      else
        var entry := Entry(input.user, REnergyReserve, None, None, Some(orderId), 0 - option.cost, option.cost);
        var key := LedgerKey(REnergyReserve, orderId);
        if balance.reserved + option.cost > INT4_MAX || orderId in t.energy || input.key in t.energyByKey ||
           !LedgerFree(t, key, entry)
        then (t, ReserveThrows)
        else
          var order := EnergyOrder(input.user, input.key, input.option, input.recipient, option.energy, option.cost,
                                   OReserved, None);
          (t.(balances := t.balances[input.user := Balance(balance.available - option.cost, balance.reserved + option.cost)],
              energy := t.energy[orderId := order],
              energyByKey := t.energyByKey[input.key := orderId],
              ledger := t.ledger[key := entry]),
           Reserved(true, orderId))
  }

  function ReplayReservation(t: Tables, input: ReserveInput, existing: Id): Reservation
    requires existing in t.energy
  {
    var order := t.energy[existing];
    if input.user !in t.blocked || t.blocked[input.user] then Denied
    else if order.user != input.user || order.option != input.option || order.recipient != input.recipient then Conflict
    else if input.user !in t.balances then ReserveThrows
    else Reserved(false, existing)
  }

  datatype Dispatched = Dispatched(created: bool) | DispatchThrows

  // startDispatch
  function StartDispatch(t: Tables, id: Id, provider: string): (Tables, Dispatched) {
    if id !in t.energy || t.energy[id].user !in t.balances then (t, DispatchThrows)
    else
      var order := t.energy[id];
      if order.state != OReserved then
        if order.delivery.None? || order.delivery.value.provider != provider then (t, DispatchThrows)
        else (t, Dispatched(false))
      else if order.delivery.Some? then (t, DispatchThrows)
      else
        (t.(energy := t.energy[id := order.(state := ODispatching,
                                            delivery := Some(DeliveryRow(provider, Delivery(DPending, None))))]),
         Dispatched(true))
  }

  datatype ApplyError =
    | OrderMissing | DeliveryMismatch | BalanceMissing | Rejected(error: DeliveryError)
    | ReservedMissing | Overflow | LedgerTaken | ProviderOrderTaken

  // applyDelivery
  function ApplyDelivery(t: Tables, id: Id, provider: string, providerOrderId: Option<Tx>, report: DeliveryStatus)
    : Result<Tables, ApplyError>
    requires report != DPending
  {
    if id !in t.energy then Err(OrderMissing)
    else
      var order := t.energy[id];
      if order.delivery.None? || order.delivery.value.provider != provider then Err(DeliveryMismatch)
      else if order.user !in t.balances then
        if order.delivery.value.delivery.providerOrderId.Some? && providerOrderId.Some? &&
           order.delivery.value.delivery.providerOrderId != providerOrderId
        then Err(Rejected(IdentityChanged)) else Err(BalanceMissing)
      else
        var applied := ApplyReport(order.state, order.delivery.value.delivery, providerOrderId, report);
        if applied.Err? then Err(Rejected(applied.error)) else SettleAs(t, id, applied.value)
  }

  function WithDelivery(t: Tables, id: Id, applied: Applied): Tables
    requires id in t.energy && t.energy[id].delivery.Some?
  {
    var order := t.energy[id];
    t.(energy := t.energy[id := order.(state := applied.state,
                                       delivery := Some(DeliveryRow(order.delivery.value.provider, applied.delivery)))])
  }

  // The writes of a decided report. A completed delivery writes balance and ledger before its row, a failed one after.
  function SettleAs(t: Tables, id: Id, applied: Applied): Result<Tables, ApplyError>
    requires id in t.energy && t.energy[id].delivery.Some? && t.energy[id].user in t.balances
  {
    var order, mid := t.energy[id], WithDelivery(t, id, applied);
    var taken := IndexRefuses(t, id, order.delivery.value, applied.delivery);
    match applied.settlement
    case Keep => if taken then Err(ProviderOrderTaken) else Ok(mid)
    case Consume =>
      var settled := Settle(mid, id, order, REnergyConsume, 0);
      if settled.Ok? && taken then Err(ProviderOrderTaken) else settled
    case Release => if taken then Err(ProviderOrderTaken) else Settle(mid, id, order, REnergyRelease, order.cost)
  }

  // The update of a delivery row breaks the unique index when it sets an id another row of the provider has.
  predicate IndexRefuses(t: Tables, id: Id, row: DeliveryRow, after: Delivery) {
    after.providerOrderId != row.delivery.providerOrderId && HeldElsewhere(t, id, row.provider, after.providerOrderId)
  }

  // The balance update and ledger row that end a reservation: returned units become available again.
  function Settle(t: Tables, id: Id, order: EnergyOrder, reason: Reason, returned: nat): Result<Tables, ApplyError>
    requires order.user in t.balances
  {
    var balance := t.balances[order.user];
    var key, entry := LedgerKey(reason, id), Entry(order.user, reason, None, None, Some(id), returned, 0 - order.cost);
    if balance.reserved < order.cost then Err(ReservedMissing)
    else if balance.available + returned > INT4_MAX then Err(Overflow)
    else if !LedgerFree(t, key, entry) then Err(LedgerTaken)
    else Ok(t.(balances := t.balances[order.user := Balance(balance.available + returned, balance.reserved - order.cost)],
               ledger := t.ledger[key := entry]))
  }
}
