// Energy orders and their provider deliveries: src/core/orders/state-machine.ts and the decision part of
// PostgresEnergyUsageRepository (src/adapters/database/postgres-energy-usage-repository.ts).
module EnergyOrders {
  import opened Prelude
  import opened Chain

  datatype OrderState = OCreated | OReserved | ODispatching | OCompleted | ODeliveryFailed | OReleased | OCancelled

  function Transitions(from: OrderState): set<OrderState> {
    match from
    case OCreated => {OReserved, OCancelled}
    case OReserved => {ODispatching, OReleased}
    case ODispatching => {OCompleted, ODeliveryFailed}
    case ODeliveryFailed => {OReleased}
    case _ => {}
  }

  datatype DeliveryStatus = DPending | DUnknown | DAccepted | DProcessing | DCompleted | DFailed

  datatype Delivery = Delivery(status: DeliveryStatus, providerOrderId: Option<Tx>)

  datatype DeliveryError = IdentityChanged | CompletedConflicts | FailedConflicts | CannotRegress

  // mergeProviderDeliveryStatus
  function Merge(current: DeliveryStatus, incoming: DeliveryStatus): (r: Result<DeliveryStatus, DeliveryError>)
    requires incoming.DUnknown? || incoming.DAccepted? || incoming.DProcessing?
  {
    if current in {DCompleted, DFailed} then Err(CannotRegress)
    else if current == DProcessing then Ok(DProcessing)
    else if current == DAccepted && incoming == DUnknown then Ok(DAccepted)
    else Ok(incoming)
  }

  datatype Settlement = Keep | Consume | Release

  datatype Applied = Applied(state: OrderState, delivery: Delivery, settlement: Settlement)

  // What applyDelivery decides for the order, its delivery and the reserved units.
  function ApplyReport(state: OrderState, delivery: Delivery, providerOrderId: Option<Tx>, report: DeliveryStatus)
    : (r: Result<Applied, DeliveryError>)
    requires report != DPending
  {
    if delivery.providerOrderId.Some? && providerOrderId.Some? && delivery.providerOrderId != providerOrderId then
      Err(IdentityChanged)
    else
      var id := if delivery.providerOrderId.Some? then delivery.providerOrderId else providerOrderId;
      if report == DCompleted then
        if state == OCompleted then Ok(Applied(state, delivery, Keep))
        else if state != ODispatching then Err(CompletedConflicts)
        else Ok(Applied(OCompleted, Delivery(DCompleted, id), Consume))
      else if report == DFailed then
        if state == OReleased then Ok(Applied(state, delivery, Keep))
        else if state != ODispatching && state != ODeliveryFailed then Err(FailedConflicts)
        else Ok(Applied(OReleased, Delivery(DFailed, id), Release))
      else if state != ODispatching then Ok(Applied(state, delivery, Keep))
      else
        var merged := Merge(delivery.status, report);
        if merged.Err? then Err(merged.error) else Ok(Applied(state, Delivery(merged.value, id), Keep))
  }
}
