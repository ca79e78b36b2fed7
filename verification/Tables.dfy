// The accounting tables of src/db/schema.ts, one map per table, keyed by what its unique index ranges over.
module Tables {
  import opened Prelude
  import opened Chain
  import opened EnergyOrders
  import opened PurchasePayment
  import opened PaymentPlan

  type User = nat
  type Id = nat

  const INT4_MAX: nat := 2147483647

  // A row of package_balances; the schema checks both counts to be non-negative.
  datatype Balance = Balance(available: nat, reserved: nat)

  datatype DeliveryRow = DeliveryRow(provider: string, delivery: Delivery)

  datatype EnergyOrder = EnergyOrder(
    user: User,
    key: string,
    option: string,
    recipient: Address,
    energy: nat,
    cost: nat,
    state: OrderState,
    delivery: Option<DeliveryRow>)

  datatype EnergyOption = EnergyOption(energy: nat, cost: nat)

  datatype Purchase = Purchase(user: User, state: PurchaseState, terms: Snapshot)

  datatype Payment = Payment(
    order: Option<Id>,
    asset: Asset,
    token: Option<string>,
    eventIndex: Option<int>,
    fromAddress: string,
    toAddress: string,
    amount: int,
    blockNumber: Option<int>,
    blockTimestamp: Option<Time>,
    confirmations: int,
    status: TxStatus,
    confirmedAt: Option<nat>)

  datatype Reason = RPurchaseCredit | REnergyReserve | REnergyConsume | REnergyRelease

  // The idempotency key of a ledger row: a reason and the order it is for.
  datatype LedgerKey = LedgerKey(reason: Reason, order: Id)

  datatype Entry = Entry(
    user: User,
    reason: Reason,
    purchase: Option<Id>,
    payment: Option<Txid>,
    energy: Option<Id>,
    available: int,
    reserved: int)

  // energyByKey is the unique index on energy_consumption_orders.idempotency_key.
  datatype Tables = Rows(
    blocked: map<User, bool>,
    balances: map<User, Balance>,
    options: map<string, EnergyOption>,
    energy: map<Id, EnergyOrder>,
    energyByKey: map<string, Id>,
    purchases: map<Id, Purchase>,
    payments: map<Txid, Payment>,
    ledger: map<LedgerKey, Entry>)

  const EMPTY := Rows(map[], map[], map[], map[], map[], map[], map[], map[])

  // The unique indexes a new ledger row must not break.
  predicate LedgerFree(t: Tables, k: LedgerKey, e: Entry) {
    && k !in t.ledger
    && (e.reason == RPurchaseCredit ==> forall j <- t.ledger :: t.ledger[j].reason == RPurchaseCredit ==>
          t.ledger[j].purchase != e.purchase && t.ledger[j].payment != e.payment)
    && (e.energy.Some? ==> forall j <- t.ledger :: t.ledger[j].energy == e.energy ==> t.ledger[j].reason != e.reason)
  }

  // The delivery of an order is of this provider under this id.
  predicate Holds(t: Tables, order: Id, provider: string, id: Option<Tx>)
    requires order in t.energy
  {
    && t.energy[order].delivery.Some? && t.energy[order].delivery.value.provider == provider
    && t.energy[order].delivery.value.delivery.providerOrderId == id
  }

  // The unique index on provider name and provider order id: another delivery of the provider holds the new id, so it
  // refuses this order's update to id.
  predicate HeldElsewhere(t: Tables, order: Id, provider: string, id: Option<Tx>) {
    id.Some? && exists j <- t.energy :: j != order && Holds(t, j, provider, id)
  }
}
