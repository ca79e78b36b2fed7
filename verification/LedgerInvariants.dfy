// Orders, deliveries, ledger rows and balances: what every step of the accounting machine keeps.
module LedgerInvariants {
  import opened Prelude
  import opened Chain
  import opened EnergyOrders
  import opened PurchasePayment
  import opened PaymentPlan
  import opened Tables
  import opened PaymentLifecycle
  import opened EnergyUsage
  import opened Sums

  // ---- energy orders ----

  predicate DeliveryFits(order: EnergyOrder) {
    && order.state in {OReserved, ODispatching, OCompleted, OReleased}
    && (order.delivery.Some? <==> order.state != OReserved)
    && (order.delivery.Some? ==>
          && (order.delivery.value.delivery.status == DCompleted <==> order.state == OCompleted)
          && (order.delivery.value.delivery.status == DFailed <==> order.state == OReleased))
  }

  // No other delivery of the same provider carries this order's provider order id.
  predicate RowUnique(t: Tables, id: Id)
    requires id in t.energy
  {
    t.energy[id].delivery.Some? ==>
      !HeldElsewhere(t, id, t.energy[id].delivery.value.provider, t.energy[id].delivery.value.delivery.providerOrderId)
  }

  ghost predicate IndexOk(t: Tables) { forall id :: id in t.energy ==> RowUnique(t, id) }

  lemma IndexKept(t: Tables, s: Tables, id: Id)
    requires IndexOk(t) && id in s.energy && s.energy == t.energy[id := s.energy[id]] && RowUnique(s, id)
    ensures IndexOk(s)
  {
    forall j | j in s.energy && j != id ensures RowUnique(s, j) {
      assert RowUnique(t, j);
      var row := s.energy[j].delivery;
      if row.Some? && row.value.delivery.providerOrderId.Some? && Holds(s, id, row.value.provider, row.value.delivery.providerOrderId) {
        assert Holds(s, j, row.value.provider, row.value.delivery.providerOrderId);
        assert false;
      }
    }
  }

  // An update the index lets through leaves the row with an id of its own.
  lemma UpdateIsUnique(t: Tables, s: Tables, id: Id, after: Delivery)
    requires IndexOk(t) && id in t.energy && t.energy[id].delivery.Some? && id in s.energy
    requires s.energy == t.energy[id := s.energy[id]] && s.energy[id].delivery == Some(t.energy[id].delivery.value.(delivery := after))
    requires !IndexRefuses(t, id, t.energy[id].delivery.value, after)
    ensures RowUnique(s, id)
  {
    assert RowUnique(t, id);
    assert forall j :: j in t.energy && j != id ==> s.energy[j] == t.energy[j];
  }

  ghost predicate EnergyOk(t: Tables) {
    && IndexOk(t)
    && (forall id :: id in t.energy ==>
          var order := t.energy[id];
          && DeliveryFits(order) && order.user in t.balances && order.cost > 0
          && order.key in t.energyByKey && t.energyByKey[order.key] == id)
    && (forall key :: key in t.energyByKey ==> t.energyByKey[key] in t.energy && t.energy[t.energyByKey[key]].key == key)
  }

  ghost predicate AccountsOk(t: Tables) {
    && t.balances.Keys == t.blocked.Keys
    && (forall o :: o in t.options ==> t.options[o].cost > 0)
    && (forall o :: o in t.purchases ==> t.purchases[o].user in t.balances && t.purchases[o].terms.count > 0)
  }

  // ---- ledger rows ----

  // Which rows the ledger must hold: one per credited purchase, per reservation and per settlement.
  predicate Due(t: Tables, k: LedgerKey) {
    match k.reason
    case RPurchaseCredit => k.order in t.purchases && t.purchases[k.order].state == PCredited
    case REnergyReserve => k.order in t.energy
    case REnergyConsume => k.order in t.energy && t.energy[k.order].state == OCompleted
    case REnergyRelease => k.order in t.energy && t.energy[k.order].state == OReleased
  }

  predicate ConfirmedRow(t: Tables, x: Txid, o: Id) {
    x in t.payments && t.payments[x].order == Some(o) && t.payments[x].status == TConfirmed
  }

  predicate EntryOk(t: Tables, k: LedgerKey, e: Entry)
    requires Due(t, k)
  {
    match k.reason
    case RPurchaseCredit => e.payment.Some? && ConfirmedRow(t, e.payment.value, k.order) && e == CreditEntry(t, k.order, e.payment.value)
    case REnergyReserve =>
      e == Entry(t.energy[k.order].user, k.reason, None, None, Some(k.order), 0 - t.energy[k.order].cost, t.energy[k.order].cost)
    case REnergyConsume =>
      e == Entry(t.energy[k.order].user, k.reason, None, None, Some(k.order), 0, 0 - t.energy[k.order].cost)
    case REnergyRelease =>
      e == Entry(t.energy[k.order].user, k.reason, None, None, Some(k.order), t.energy[k.order].cost, 0 - t.energy[k.order].cost)
  }

  ghost predicate LedgerOk(t: Tables) {
    && (forall k :: k in t.ledger <==> Due(t, k))
    && (forall k :: k in t.ledger ==> EntryOk(t, k, t.ledger[k]))
  }

  // ---- balances ----

  function AvailableOf(u: User): Entry -> int { (e: Entry) => if e.user == u then e.available else 0 }
  function ReservedOf(u: User): Entry -> int { (e: Entry) => if e.user == u then e.reserved else 0 }

  function HeldOf(u: User): EnergyOrder -> int {
    (o: EnergyOrder) => if o.user == u && o.state in {OReserved, ODispatching} then o.cost else 0
  }

  function SpentOf(u: User): EnergyOrder -> int {
    (o: EnergyOrder) => if o.user == u && o.state == OCompleted then o.cost else 0
  }

  function BoughtOf(u: User): Purchase -> int {
    (p: Purchase) => if p.user == u && p.state == PCredited then p.terms.count else 0
  }

  ghost predicate Balanced(t: Tables, u: User)
    requires u in t.balances
  {
    var b := t.balances[u];
    && b.available == Sum(t.ledger, AvailableOf(u))
    && b.reserved == Sum(t.ledger, ReservedOf(u))
    && b.reserved == Sum(t.energy, HeldOf(u))
    && b.available + b.reserved + Sum(t.energy, SpentOf(u)) == Sum(t.purchases, BoughtOf(u))
    && b.available <= INT4_MAX && b.reserved <= INT4_MAX
  }

  ghost predicate MoneyOk(t: Tables) { forall u :: u in t.balances ==> Balanced(t, u) }

  ghost predicate TablesOk(t: Tables) { EnergyOk(t) && AccountsOk(t) && LedgerOk(t) && MoneyOk(t) }

  // ---- one ledger row with its effects ----

  predicate Moved(t: Tables, s: Tables, u: User, k: LedgerKey, e: Entry) {
    && u in t.balances && e.user == u && k !in t.ledger
    && s.ledger == t.ledger[k := e]
    && 0 <= t.balances[u].available + e.available <= INT4_MAX
    && 0 <= t.balances[u].reserved + e.reserved <= INT4_MAX
    && s.balances == t.balances[u := Balance(t.balances[u].available + e.available, t.balances[u].reserved + e.reserved)]
  }

  lemma EnergyMoved(t: Tables, s: Tables, k: LedgerKey, e: Entry, id: Id, order: EnergyOrder)
    requires MoneyOk(t) && Moved(t, s, order.user, k, e)
    requires s.energy == t.energy[id := order] && s.purchases == t.purchases
    requires id in t.energy ==> t.energy[id].user == order.user
    requires HeldOf(order.user)(order) - (if id in t.energy then HeldOf(order.user)(t.energy[id]) else 0) == e.reserved
    requires SpentOf(order.user)(order) - (if id in t.energy then SpentOf(order.user)(t.energy[id]) else 0)
             + e.available + e.reserved == 0
    ensures MoneyOk(s)
  {
    hide Sum;
    forall u | u in s.balances ensures Balanced(s, u) {
      assert Balanced(t, u);
      SumUpdate(t.ledger, k, e, AvailableOf(u));
      SumUpdate(t.ledger, k, e, ReservedOf(u));
      SumUpdate(t.energy, id, order, HeldOf(u));
      SumUpdate(t.energy, id, order, SpentOf(u));
    }
  }

  lemma PurchaseMoved(t: Tables, s: Tables, k: LedgerKey, e: Entry, o: Id, p: Purchase)
    requires MoneyOk(t) && Moved(t, s, p.user, k, e)
    requires s.purchases == t.purchases[o := p] && s.energy == t.energy
    requires o in t.purchases && t.purchases[o].user == p.user
    requires BoughtOf(p.user)(p) - BoughtOf(p.user)(t.purchases[o]) == e.available && e.reserved == 0
    ensures MoneyOk(s)
  {
    hide Sum;
    forall u | u in s.balances ensures Balanced(s, u) {
      assert Balanced(t, u);
      SumUpdate(t.ledger, k, e, AvailableOf(u));
      SumUpdate(t.ledger, k, e, ReservedOf(u));
      SumUpdate(t.purchases, o, p, BoughtOf(u));
    }
  }

  // Changes of status that move no units.
  lemma NothingMoved(t: Tables, s: Tables, id: Id, order: EnergyOrder, o: Id, p: Purchase)
    requires MoneyOk(t) && s.ledger == t.ledger && s.balances == t.balances
    requires s.energy == t.energy || (id in t.energy && s.energy == t.energy[id := order] && forall u ::
               HeldOf(u)(order) == HeldOf(u)(t.energy[id]) && SpentOf(u)(order) == SpentOf(u)(t.energy[id]))
    requires s.purchases == t.purchases || (s.purchases == t.purchases[o := p] && forall u ::
               BoughtOf(u)(p) == if o in t.purchases then BoughtOf(u)(t.purchases[o]) else 0)
    ensures MoneyOk(s)
  {
    hide Sum;
    forall u | u in s.balances ensures Balanced(s, u) {
      assert Balanced(t, u);
      SumUpdate(t.energy, id, order, HeldOf(u));
      SumUpdate(t.energy, id, order, SpentOf(u));
      SumUpdate(t.purchases, o, p, BoughtOf(u));
    }
  }

  // The units of an order that is being delivered are there to be consumed or given back.
  lemma HeldIsReserved(t: Tables, id: Id)
    requires MoneyOk(t) && id in t.energy && t.energy[id].state in {OReserved, ODispatching} && t.energy[id].user in t.balances
    ensures INT4_MAX >= t.balances[t.energy[id].user].reserved >= t.energy[id].cost
  {
    var u := t.energy[id].user;
    assert Balanced(t, u);
    SumBounds(t.energy, id, HeldOf(u));
  }

  // A row that is not due is free under every unique index.
  lemma EnergyKeyFree(t: Tables, k: LedgerKey, e: Entry)
    requires LedgerOk(t) && !Due(t, k) && e.reason == k.reason != RPurchaseCredit && e.energy == Some(k.order)
    ensures LedgerFree(t, k, e)
  {
    forall j | j in t.ledger && t.ledger[j].energy == e.energy ensures t.ledger[j].reason != e.reason {
      assert EntryOk(t, j, t.ledger[j]);
      assert t.ledger[j].reason == e.reason ==> j == k;
    }
  }

  // ---- the energy transactions ----

  function ReserveEntry(id: Id, order: EnergyOrder): Entry {
    Entry(order.user, REnergyReserve, None, None, Some(id), 0 - order.cost, order.cost)
  }

  // A new reservation: the order, its ledger row and its units moved from available to reserved.
  predicate Opens(t: Tables, s: Tables, id: Id) {
    && id !in t.energy && id in s.energy
    && var order := s.energy[id]; var k := LedgerKey(REnergyReserve, id);
      && order.state == OReserved && order.delivery.None? && order.cost > 0 && order.key !in t.energyByKey
      && Moved(t, s, order.user, k, ReserveEntry(id, order))
      && s == t.(balances := s.balances, energy := t.energy[id := order], energyByKey := t.energyByKey[order.key := id],
                 ledger := s.ledger)
  }

  lemma OpensOk(t: Tables, s: Tables, id: Id)
    requires TablesOk(t) && Opens(t, s, id)
    ensures TablesOk(s)
  {
    hide EnergyOk, LedgerOk, MoneyOk, AccountsOk, Opens;
    var k := LedgerKey(REnergyReserve, id);
    var e := OpensFacts(t, s, id);
    OpensEnergy(t, s, id);
    AccountsSame(t, s);
    ReserveMoney(t, s, k, e, id);
    ReserveLedger(t, s, k, e, id);
  }

  lemma OpensFacts(t: Tables, s: Tables, id: Id) returns (e: Entry)
    requires Opens(t, s, id)
    ensures id !in t.energy && id in s.energy && s.energy == t.energy[id := s.energy[id]] && s.energy[id].state == OReserved
    ensures e == ReserveEntry(id, s.energy[id]) && Moved(t, s, s.energy[id].user, LedgerKey(REnergyReserve, id), e)
    ensures s.ledger == t.ledger[LedgerKey(REnergyReserve, id) := e]
    ensures s.balances.Keys == t.balances.Keys && s.blocked == t.blocked && s.options == t.options
    ensures s.purchases == t.purchases && s.payments == t.payments
  {
    e := ReserveEntry(id, s.energy[id]);
  }

  lemma OpensEnergy(t: Tables, s: Tables, id: Id)
    requires EnergyOk(t) && Opens(t, s, id)
    ensures EnergyOk(s)
  {
    hide LedgerFree;
    IndexKept(t, s, id);
    hide IndexOk;
  }

  predicate Overflows(t: Tables, input: ReserveInput) {
    && input.user in t.balances && input.option in t.options
    && t.balances[input.user].reserved + t.options[input.option].cost > INT4_MAX
  }

  predicate ReserveKeyFree(t: Tables, input: ReserveInput, id: Id)
    requires input.option in t.options
  {
    var cost: int := t.options[input.option].cost;
    LedgerFree(t, LedgerKey(REnergyReserve, id), Entry(input.user, REnergyReserve, None, None, Some(id), 0 - cost, cost))
  }

  lemma ReserveShape(t: Tables, input: ReserveInput, id: Id)
    requires EnergyOk(t) && AccountsOk(t)
    requires input.user in t.balances ==> t.balances[input.user].available <= INT4_MAX
    ensures var (s, r) := Reserve(t, input, id); s == t || Opens(t, s, id)
    ensures Reserve(t, input, id).1.ReserveThrows? ==>
      id in t.energy || Overflows(t, input) || (input.option in t.options && !ReserveKeyFree(t, input, id))
  {
    hide LedgerFree;
    if input.option in t.options && ReserveKeyFree(t, input, id) {
      var cost: int := t.options[input.option].cost;
      FreeIsNew(t, LedgerKey(REnergyReserve, id), Entry(input.user, REnergyReserve, None, None, Some(id), 0 - cost, cost));
    }
  }

  lemma FreeIsNew(t: Tables, k: LedgerKey, e: Entry)
    requires LedgerFree(t, k, e)
    ensures k !in t.ledger
  {
  }

  // A reservation fails only for an id that exists or an integer overflow; a replay changes nothing.
  lemma ReserveOk(t: Tables, input: ReserveInput, id: Id)
    requires TablesOk(t)
    ensures TablesOk(Reserve(t, input, id).0)
    ensures Reserve(t, input, id).1.ReserveThrows? ==> id in t.energy || Overflows(t, input)
    ensures var s := Reserve(t, input, id).0; s.purchases == t.purchases && s.payments == t.payments
  {
    ReserveFrame(t, input, id);
    if input.user in t.balances { AvailableFits(t, input.user); }
    hide Reserve, EnergyOk, AccountsOk, LedgerOk, MoneyOk, Opens, LedgerFree;
    ReserveShape(t, input, id);
    var s := Reserve(t, input, id).0;
    if s != t { OpensOk(t, s, id); }
    if id !in t.energy && input.option in t.options {
      var cost: int := t.options[input.option].cost;
      EnergyKeyFree(t, LedgerKey(REnergyReserve, id), Entry(input.user, REnergyReserve, None, None, Some(id), 0 - cost, cost));
    }
  }

  lemma ReserveFrame(t: Tables, input: ReserveInput, id: Id)
    ensures var s := Reserve(t, input, id).0; s.purchases == t.purchases && s.payments == t.payments
  {
    hide LedgerFree;
  }

  lemma ReserveMoney(t: Tables, s: Tables, k: LedgerKey, e: Entry, id: Id)
    requires MoneyOk(t) && id !in t.energy && id in s.energy
    requires Moved(t, s, s.energy[id].user, k, e) && s.energy == t.energy[id := s.energy[id]] && s.purchases == t.purchases
    requires s.energy[id].state == OReserved && e.reserved == s.energy[id].cost && e.available == 0 - s.energy[id].cost
    ensures MoneyOk(s)
  {
    hide MoneyOk, Moved;
    EnergyMoved(t, s, k, e, id, s.energy[id]);
  }

  lemma ReserveLedger(t: Tables, s: Tables, k: LedgerKey, e: Entry, id: Id)
    requires LedgerOk(t) && id !in t.energy && id in s.energy && s.energy[id].state == OReserved
    requires s.ledger == t.ledger[k := e] && s.energy == t.energy[id := s.energy[id]]
    requires s.purchases == t.purchases && s.payments == t.payments
    requires k == LedgerKey(REnergyReserve, id)
    requires e == Entry(s.energy[id].user, REnergyReserve, None, None, Some(id), 0 - s.energy[id].cost, s.energy[id].cost)
    ensures LedgerOk(s)
  {
    forall j ensures j in s.ledger <==> Due(s, j) { assert j in t.ledger <==> Due(t, j); }
    forall j | j in s.ledger ensures EntryOk(s, j, s.ledger[j]) {
      if j != k { assert EntryOk(t, j, t.ledger[j]); }
    }
  }

  // One row of energy_consumption_orders changes, its identity and terms staying.
  predicate SameOrder(a: EnergyOrder, b: EnergyOrder) {
    b == a.(state := b.state, delivery := b.delivery)
  }

  predicate Live(order: EnergyOrder) { order.state in {OReserved, ODispatching} }

  lemma EnergyRowOk(t: Tables, s: Tables, id: Id)
    requires EnergyOk(t) && id in t.energy && id in s.energy && s.energy == t.energy[id := s.energy[id]]
    requires SameOrder(t.energy[id], s.energy[id]) && DeliveryFits(s.energy[id])
    requires s.energyByKey == t.energyByKey && s.balances.Keys == t.balances.Keys && RowUnique(s, id)
    ensures EnergyOk(s)
  {
    hide DeliveryFits, RowUnique;
    IndexKept(t, s, id);
    hide IndexOk;
  }

  lemma QuietLedger(t: Tables, s: Tables, id: Id)
    requires LedgerOk(t) && id in t.energy && id in s.energy && s.energy == t.energy[id := s.energy[id]]
    requires SameOrder(t.energy[id], s.energy[id])
    requires t.energy[id].state == s.energy[id].state || (Live(t.energy[id]) && Live(s.energy[id]))
    requires s.ledger == t.ledger && s.purchases == t.purchases && s.payments == t.payments
    ensures LedgerOk(s)
  {
    forall j ensures j in s.ledger <==> Due(s, j) { assert j in t.ledger <==> Due(t, j); }
    forall j | j in s.ledger ensures EntryOk(s, j, s.ledger[j]) { assert EntryOk(t, j, t.ledger[j]); }
  }

  // Status changes that settle nothing.
  lemma QuietOk(t: Tables, s: Tables, id: Id)
    requires TablesOk(t) && id in t.energy && id in s.energy && s == t.(energy := t.energy[id := s.energy[id]])
    requires SameOrder(t.energy[id], s.energy[id]) && DeliveryFits(s.energy[id])
    requires t.energy[id].state == s.energy[id].state || (Live(t.energy[id]) && Live(s.energy[id]))
    requires RowUnique(s, id)
    ensures TablesOk(s)
  {
    hide EnergyOk, LedgerOk, AccountsOk, MoneyOk, DeliveryFits, RowUnique;
    EnergyRowOk(t, s, id);
    QuietLedger(t, s, id);
    QuietMoney(t, s, id);
    AccountsSame(t, s);
  }

  lemma QuietMoney(t: Tables, s: Tables, id: Id)
    requires MoneyOk(t) && id in t.energy && id in s.energy && s == t.(energy := t.energy[id := s.energy[id]])
    requires SameOrder(t.energy[id], s.energy[id])
    requires t.energy[id].state == s.energy[id].state || (Live(t.energy[id]) && Live(s.energy[id]))
    ensures MoneyOk(s)
  {
    hide MoneyOk;
    NothingMoved(t, s, id, s.energy[id], 0, Purchase(0, PWaiting, Snapshot("", 0, 0, 0, TRX, "", None, 0, 0, None)));
  }

  lemma AccountsSame(t: Tables, s: Tables)
    requires AccountsOk(t) && s.balances.Keys == t.balances.Keys && s.blocked == t.blocked && s.options == t.options
    requires s.purchases == t.purchases
    ensures AccountsOk(s)
  {
  }

  lemma StartDispatchOk(t: Tables, id: Id, provider: string)
    requires TablesOk(t)
    ensures TablesOk(StartDispatch(t, id, provider).0)
    ensures StartDispatch(t, id, provider).1.DispatchThrows? <==>
      id !in t.energy || (t.energy[id].state != OReserved && t.energy[id].delivery.value.provider != provider)
  {
    hide AccountsOk, LedgerOk, MoneyOk;
    var s := StartDispatch(t, id, provider).0;
    if id in t.energy {
      assert DeliveryFits(t.energy[id]) && t.energy[id].user in t.balances;
      if s != t { DispatchedOk(t, s, id); }
    }
  }

  lemma DispatchedOk(t: Tables, s: Tables, id: Id)
    requires TablesOk(t) && id in t.energy && id in s.energy && s == t.(energy := t.energy[id := s.energy[id]])
    requires SameOrder(t.energy[id], s.energy[id]) && DeliveryFits(s.energy[id]) && Live(t.energy[id]) && Live(s.energy[id])
    requires RowUnique(s, id)
    ensures TablesOk(s)
  {
    hide *;
    QuietOk(t, s, id);
  }

  // The rows a settlement leaves: a live order ends, with its ledger row and its balance.
  lemma SettleOk(t: Tables, mid: Tables, id: Id, reason: Reason, returned: nat)
    requires TablesOk(t) && id in t.energy && Live(t.energy[id]) && id in mid.energy
    requires mid == t.(energy := t.energy[id := mid.energy[id]])
    requires SameOrder(t.energy[id], mid.energy[id]) && DeliveryFits(mid.energy[id])
    requires (reason == REnergyConsume && mid.energy[id].state == OCompleted && returned == 0)
          || (reason == REnergyRelease && mid.energy[id].state == OReleased && returned == t.energy[id].cost)
    requires RowUnique(mid, id)
    ensures t.energy[id].user in mid.balances
    ensures var r := Settle(mid, id, t.energy[id], reason, returned);
      if t.balances[t.energy[id].user].available + returned > INT4_MAX then r == Err(Overflow)
      else r.Ok? && TablesOk(r.value) && r.value.energy == mid.energy && r.value.purchases == t.purchases
  {
    hide EnergyOk, LedgerOk, AccountsOk, MoneyOk, DeliveryFits, LedgerReason, Settle, Moved, RowUnique;
    var k := LedgerKey(reason, id);
    var e := SettleReady(t, mid, id, reason, returned);
    SettleShape(t, mid, id, reason, returned, e);
    var r := Settle(mid, id, t.energy[id], reason, returned);
    if r.Ok? {
      AccountsSame(t, r.value);
      UniqueElsewhere(mid, r.value, id);
      EnergyRowOk(t, r.value, id);
      SettleLedger(t, r.value, k, e, id);
      SettleMoney(t, r.value, k, e, id);
    }
  }

  lemma UniqueElsewhere(t: Tables, s: Tables, id: Id)
    requires id in t.energy && s.energy == t.energy && RowUnique(t, id)
    ensures RowUnique(s, id)
  {
  }

  lemma SettleReady(t: Tables, mid: Tables, id: Id, reason: Reason, returned: nat) returns (e: Entry)
    requires EnergyOk(t) && LedgerOk(t) && MoneyOk(t) && id in t.energy && Live(t.energy[id]) && mid.ledger == t.ledger
    requires reason == REnergyConsume || reason == REnergyRelease
    ensures t.energy[id].user in t.balances
    ensures INT4_MAX >= t.balances[t.energy[id].user].reserved >= t.energy[id].cost
    ensures e == Entry(t.energy[id].user, reason, None, None, Some(id), returned, 0 - t.energy[id].cost)
    ensures LedgerReason(t, mid, LedgerKey(reason, id), e)
  {
    hide MoneyOk;
    UserKnown(t, id);
    e := Entry(t.energy[id].user, reason, None, None, Some(id), returned, 0 - t.energy[id].cost);
    HeldIsReserved(t, id);
    EnergyKeyFree(t, LedgerKey(reason, id), e);
    MidFree(t, mid, LedgerKey(reason, id), e);
    NotDue(t, LedgerKey(reason, id));
  }

  lemma NotDue(t: Tables, k: LedgerKey)
    requires LedgerOk(t) && !Due(t, k)
    ensures k !in t.ledger
  {
  }

  lemma UserKnown(t: Tables, id: Id)
    requires EnergyOk(t) && id in t.energy
    ensures t.energy[id].user in t.balances && DeliveryFits(t.energy[id])
  {
  }

  lemma SettleShape(t: Tables, mid: Tables, id: Id, reason: Reason, returned: nat, e: Entry)
    requires id in t.energy && id in mid.energy && mid == t.(energy := t.energy[id := mid.energy[id]])
    requires t.energy[id].user in t.balances && t.balances[t.energy[id].user].reserved >= t.energy[id].cost
    requires e == Entry(t.energy[id].user, reason, None, None, Some(id), returned, 0 - t.energy[id].cost)
    requires LedgerReason(t, mid, LedgerKey(reason, id), e)
    requires t.balances[t.energy[id].user].reserved <= INT4_MAX
    ensures var r := Settle(mid, id, t.energy[id], reason, returned);
      if t.balances[t.energy[id].user].available + returned > INT4_MAX then r == Err(Overflow)
      else
        && r.Ok? && Moved(t, r.value, t.energy[id].user, LedgerKey(reason, id), e)
        && r.value == mid.(balances := r.value.balances, ledger := t.ledger[LedgerKey(reason, id) := e])
        && r.value.balances.Keys == t.balances.Keys
  {
    hide LedgerFree;
  }

  predicate LedgerReason(t: Tables, mid: Tables, k: LedgerKey, e: Entry) { LedgerFree(mid, k, e) && k !in t.ledger }

  lemma MidFree(t: Tables, mid: Tables, k: LedgerKey, e: Entry)
    requires mid.ledger == t.ledger
    ensures LedgerFree(mid, k, e) == LedgerFree(t, k, e)
  {
  }

  lemma SettleMoney(t: Tables, s: Tables, k: LedgerKey, e: Entry, id: Id)
    requires MoneyOk(t) && id in t.energy && Live(t.energy[id]) && id in s.energy && s.energy == t.energy[id := s.energy[id]]
    requires SameOrder(t.energy[id], s.energy[id]) && s.purchases == t.purchases && Moved(t, s, t.energy[id].user, k, e)
    requires e.reserved == 0 - t.energy[id].cost
    requires (s.energy[id].state == OCompleted && e.available == 0) || (s.energy[id].state == OReleased && e.available == t.energy[id].cost)
    ensures MoneyOk(s)
  {
    hide MoneyOk, Moved;
    EnergyMoved(t, s, k, e, id, s.energy[id]);
  }

  lemma SettleLedger(t: Tables, s: Tables, k: LedgerKey, e: Entry, id: Id)
    requires LedgerOk(t) && id in t.energy && Live(t.energy[id]) && id in s.energy && s.energy == t.energy[id := s.energy[id]]
    requires SameOrder(t.energy[id], s.energy[id]) && s.purchases == t.purchases && s.payments == t.payments
    requires s.ledger == t.ledger[k := e] && k.order == id
    requires (k.reason == REnergyConsume && s.energy[id].state == OCompleted) || (k.reason == REnergyRelease && s.energy[id].state == OReleased)
    requires e == Entry(t.energy[id].user, k.reason, None, None, Some(id),
                        if k.reason == REnergyRelease then t.energy[id].cost else 0, 0 - t.energy[id].cost)
    ensures LedgerOk(s)
  {
    forall j ensures j in s.ledger <==> Due(s, j) { assert j in t.ledger <==> Due(t, j); }
    forall j | j in s.ledger ensures EntryOk(s, j, s.ledger[j]) {
      if j != k { assert EntryOk(t, j, t.ledger[j]); }
    }
  }

  // ---- the answers of applyDelivery ----

  predicate SentTo(t: Tables, id: Id, provider: string) {
    id in t.energy && t.energy[id].delivery.Some? && t.energy[id].delivery.value.provider == provider
  }

  // The delivery and the report name two different provider orders.
  predicate Clashes(delivery: Delivery, providerOrderId: Option<Tx>) {
    delivery.providerOrderId.Some? && providerOrderId.Some? && delivery.providerOrderId != providerOrderId
  }

  predicate Accepts(t: Tables, id: Id, provider: string, providerOrderId: Option<Tx>) {
    SentTo(t, id, provider) && !Clashes(t.energy[id].delivery.value.delivery, providerOrderId)
  }

  // The report brings the first provider order id of an order on its way, and another delivery has it.
  predicate BringsTaken(t: Tables, id: Id, provider: string, providerOrderId: Option<Tx>) {
    && Accepts(t, id, provider, providerOrderId) && t.energy[id].state == ODispatching
    && t.energy[id].delivery.value.delivery.providerOrderId.None? && HeldElsewhere(t, id, provider, providerOrderId)
  }

  // Giving the units of this order back would leave 32 bits.
  predicate ReturnOverflows(t: Tables, id: Id) {
    id in t.energy && t.energy[id].user in t.balances && t.balances[t.energy[id].user].available + t.energy[id].cost > INT4_MAX
  }

  // The exact condition of every answer.
  predicate AnswersExactly(t: Tables, id: Id, provider: string, providerOrderId: Option<Tx>, report: DeliveryStatus,
    r: Result<Tables, ApplyError>)
  {
    && (r == Err(OrderMissing) <==> id !in t.energy)
    && (r == Err(DeliveryMismatch) <==> id in t.energy && !SentTo(t, id, provider))
    && (r == Err(Rejected(IdentityChanged)) <==> SentTo(t, id, provider) && !Accepts(t, id, provider, providerOrderId))
    && (r == Err(Rejected(CompletedConflicts)) <==>
          Accepts(t, id, provider, providerOrderId) && report == DCompleted && t.energy[id].state == OReleased)
    && (r == Err(Rejected(FailedConflicts)) <==>
          Accepts(t, id, provider, providerOrderId) && report == DFailed && t.energy[id].state == OCompleted)
    && (r == Err(ProviderOrderTaken) <==> BringsTaken(t, id, provider, providerOrderId))
    && (r == Err(Overflow) <==>
          && Accepts(t, id, provider, providerOrderId) && report == DFailed && t.energy[id].state == ODispatching
          && !BringsTaken(t, id, provider, providerOrderId) && ReturnOverflows(t, id))
    && r != Err(ReservedMissing) && r != Err(BalanceMissing) && r != Err(LedgerTaken) && r != Err(Rejected(CannotRegress))
  }

  // Every answer applyDelivery can give on sound tables, exactly when, and what it leaves.
  lemma ApplyDeliveryOk(t: Tables, id: Id, provider: string, providerOrderId: Option<Tx>, report: DeliveryStatus)
    requires TablesOk(t) && report != DPending
    ensures var r := ApplyDelivery(t, id, provider, providerOrderId, report);
      && (r.Ok? ==> TablesOk(r.value) && r.value.purchases == t.purchases && r.value.payments == t.payments)
      && AnswersExactly(t, id, provider, providerOrderId, report, r)
  {
    hide *;
    if SentTo(t, id, provider) {
      SentFacts(t, id, provider, providerOrderId, report);
      var applied := ApplyReport(t.energy[id].state, t.energy[id].delivery.value.delivery, providerOrderId, report);
      if applied.Ok? {
        AppliedOk(t, id, applied.value, report);
        AcceptedExactly(t, id, provider, providerOrderId, report, applied.value);
      } else {
        RefusedExactly(t, id, provider, providerOrderId, report);
      }
    } else {
      NotSent(t, id, provider, providerOrderId, report);
    }
  }

  lemma NotSent(t: Tables, id: Id, provider: string, providerOrderId: Option<Tx>, report: DeliveryStatus)
    requires report != DPending && !SentTo(t, id, provider)
    ensures var r := ApplyDelivery(t, id, provider, providerOrderId, report);
      r.Err? && AnswersExactly(t, id, provider, providerOrderId, report, r)
  {
    hide HeldElsewhere;
  }

  lemma SentFacts(t: Tables, id: Id, provider: string, providerOrderId: Option<Tx>, report: DeliveryStatus)
    requires TablesOk(t) && report != DPending && SentTo(t, id, provider)
    ensures id in t.energy && t.energy[id].user in t.balances && DeliveryFits(t.energy[id])
    ensures t.energy[id].delivery.Some? && t.energy[id].delivery.value.provider == provider && t.energy[id].state != OReserved
    ensures var order := t.energy[id];
      var applied := ApplyReport(order.state, order.delivery.value.delivery, providerOrderId, report);
      && ApplyDelivery(t, id, provider, providerOrderId, report) ==
           (if applied.Err? then Err(Rejected(applied.error)) else SettleAs(t, id, applied.value))
      && (applied.Ok? ==> DeliveryFits(WithDelivery(t, id, applied.value).energy[id]))
      && (applied.Ok? ==> Settles(order, report, applied.value))
  {
    hide EnergyOk, AccountsOk, LedgerOk, MoneyOk, ApplyReport, SettleAs, ApplyDelivery, DeliveryFits;
    UserKnown(t, id);
    ApplyDeliveryIs(t, id, provider, providerOrderId, report);
    DeliveryPresent(t.energy[id]);
    ReportFits(t.energy[id], providerOrderId, report);
  }

  lemma RefusedExactly(t: Tables, id: Id, provider: string, providerOrderId: Option<Tx>, report: DeliveryStatus)
    requires report != DPending && SentTo(t, id, provider) && DeliveryFits(t.energy[id])
    requires ApplyReport(t.energy[id].state, t.energy[id].delivery.value.delivery, providerOrderId, report).Err?
    ensures var error := ApplyReport(t.energy[id].state, t.energy[id].delivery.value.delivery, providerOrderId, report).error;
      AnswersExactly(t, id, provider, providerOrderId, report, Err(Rejected(error)))
  {
    hide HeldElsewhere, ApplyReport, DeliveryFits, ReturnOverflows;
    ReportFits(t.energy[id], providerOrderId, report);
    var error := ApplyReport(t.energy[id].state, t.energy[id].delivery.value.delivery, providerOrderId, report).error;
    assert error.IdentityChanged? || error.CompletedConflicts? || error.FailedConflicts?;
  }

  lemma AcceptedExactly(t: Tables, id: Id, provider: string, providerOrderId: Option<Tx>, report: DeliveryStatus, applied: Applied)
    requires report != DPending && SentTo(t, id, provider) && DeliveryFits(t.energy[id]) && t.energy[id].user in t.balances
    requires ApplyReport(t.energy[id].state, t.energy[id].delivery.value.delivery, providerOrderId, report) == Ok(applied)
    requires Settled(t, id, applied)
    ensures AnswersExactly(t, id, provider, providerOrderId, report, SettleAs(t, id, applied))
  {
    hide HeldElsewhere, ApplyReport, DeliveryFits, ReturnOverflows, SettleAs, IndexRefuses;
    ReportFits(t.energy[id], providerOrderId, report);
    TakenIs(t, id, providerOrderId, applied.delivery);
  }

  lemma TakenIs(t: Tables, id: Id, providerOrderId: Option<Tx>, after: Delivery)
    requires id in t.energy && t.energy[id].delivery.Some? && after.providerOrderId == IdAfter(t.energy[id], providerOrderId)
    ensures var row := t.energy[id].delivery.value;
      IndexRefuses(t, id, row, after) <==>
        && t.energy[id].state == ODispatching && row.delivery.providerOrderId.None?
        && HeldElsewhere(t, id, row.provider, providerOrderId)
  {
  }

  lemma DeliveryPresent(order: EnergyOrder)
    requires DeliveryFits(order)
    ensures order.delivery.Some? <==> order.state != OReserved
  {
  }

  lemma ApplyDeliveryIs(t: Tables, id: Id, provider: string, providerOrderId: Option<Tx>, report: DeliveryStatus)
    requires report != DPending && (id in t.energy ==> t.energy[id].user in t.balances)
    ensures ApplyDelivery(t, id, provider, providerOrderId, report) ==
      if id !in t.energy then Err(OrderMissing)
      else if t.energy[id].delivery.None? || t.energy[id].delivery.value.provider != provider then Err(DeliveryMismatch)
      else
        var applied := ApplyReport(t.energy[id].state, t.energy[id].delivery.value.delivery, providerOrderId, report);
        if applied.Err? then Err(Rejected(applied.error)) else SettleAs(t, id, applied.value)
  {
    hide ApplyReport, Settle;
  }

  // How the decision on a report may end an order.
  predicate Settles(order: EnergyOrder, report: DeliveryStatus, applied: Applied) {
    match applied.settlement
    case Keep => applied.state == order.state
    case Consume => report == DCompleted && order.state == ODispatching && applied.state == OCompleted
    case Release => report == DFailed && order.state == ODispatching && applied.state == OReleased
  }

  // Writing a decision fails only for the index, and then for the width of the count given back.
  predicate Settled(t: Tables, id: Id, applied: Applied)
    requires id in t.energy && t.energy[id].delivery.Some? && t.energy[id].user in t.balances
  {
    var r := SettleAs(t, id, applied);
    var taken := IndexRefuses(t, id, t.energy[id].delivery.value, applied.delivery);
    && (r == Err(ProviderOrderTaken) <==> taken)
    && (r == Err(Overflow) <==> applied.settlement.Release? && !taken && ReturnOverflows(t, id))
    && (r.Err? ==> r.error in {ProviderOrderTaken, Overflow})
  }

  lemma AppliedOk(t: Tables, id: Id, applied: Applied, report: DeliveryStatus)
    requires TablesOk(t) && id in t.energy && t.energy[id].delivery.Some? && DeliveryFits(t.energy[id])
    requires t.energy[id].user in t.balances
    requires DeliveryFits(WithDelivery(t, id, applied).energy[id])
    requires Settles(t.energy[id], report, applied)
    ensures var r := SettleAs(t, id, applied);
      r.Ok? ==> TablesOk(r.value) && r.value.purchases == t.purchases && r.value.payments == t.payments
    ensures Settled(t, id, applied)
  {
    hide EnergyOk, AccountsOk, LedgerOk, MoneyOk, DeliveryFits, Settle, IndexRefuses, RowUnique;
    var order, mid := t.energy[id], WithDelivery(t, id, applied);
    SettleKeeps(mid, id, order);
    AvailableFits(t, order.user);
    if !IndexRefuses(t, id, order.delivery.value, applied.delivery) {
      IndexKnown(t);
      UpdateIsUnique(t, mid, id, applied.delivery);
    }
    match applied.settlement {
      case Keep => if !IndexRefuses(t, id, order.delivery.value, applied.delivery) { QuietOk(t, mid, id); }
      case Consume =>
        ConsumeFits(t, mid, id);
        if !IndexRefuses(t, id, order.delivery.value, applied.delivery) { SettleOk(t, mid, id, REnergyConsume, 0); }
      case Release => if !IndexRefuses(t, id, order.delivery.value, applied.delivery) { SettleOk(t, mid, id, REnergyRelease, order.cost); }
    }
  }

  // Consuming fails for no balance and no ledger row.
  lemma ConsumeFits(t: Tables, mid: Tables, id: Id)
    requires TablesOk(t) && id in t.energy && Live(t.energy[id]) && id in mid.energy && mid == t.(energy := t.energy[id := mid.energy[id]])
    ensures t.energy[id].user in mid.balances && Settle(mid, id, t.energy[id], REnergyConsume, 0).Ok?
  {
    hide EnergyOk, AccountsOk, LedgerOk, MoneyOk, LedgerReason, Settle;
    UserKnown(t, id);
    AvailableFits(t, t.energy[id].user);
    var e := SettleReady(t, mid, id, REnergyConsume, 0);
    SettleShape(t, mid, id, REnergyConsume, 0, e);
  }

  lemma IndexKnown(t: Tables)
    requires EnergyOk(t)
    ensures IndexOk(t)
  {
  }

  lemma AvailableFits(t: Tables, u: User)
    requires TablesOk(t) && u in t.balances
    ensures t.balances[u].available <= INT4_MAX
  {
    assert Balanced(t, u);
  }

  lemma SettleKeeps(t: Tables, id: Id, order: EnergyOrder)
    requires order.user in t.balances
    ensures forall reason, returned :: var r := Settle(t, id, order, reason, returned);
      r.Ok? ==> r.value.purchases == t.purchases && r.value.payments == t.payments
  {
  }

  function IdAfter(order: EnergyOrder, reported: Option<Tx>): Option<Tx>
    requires order.delivery.Some?
  {
    var known := order.delivery.value.delivery.providerOrderId;
    if order.state == ODispatching && known.None? then reported else known
  }

  // What ApplyReport may answer for an order and delivery that fit together.
  lemma ReportFits(order: EnergyOrder, providerOrderId: Option<Tx>, report: DeliveryStatus)
    requires DeliveryFits(order) && order.delivery.Some? && report != DPending
    ensures var r := ApplyReport(order.state, order.delivery.value.delivery, providerOrderId, report);
      && r != Err(CannotRegress)
      && (r == Err(EnergyOrders.IdentityChanged) <==> Clashes(order.delivery.value.delivery, providerOrderId))
      && (r == Err(CompletedConflicts) <==>
            !Clashes(order.delivery.value.delivery, providerOrderId) && report == DCompleted && order.state == OReleased)
      && (r == Err(FailedConflicts) <==>
            !Clashes(order.delivery.value.delivery, providerOrderId) && report == DFailed && order.state == OCompleted)
      && (r.Ok? ==> r.value.delivery.providerOrderId == IdAfter(order, providerOrderId))
      && (r.Ok? && report == DFailed && order.state == ODispatching ==> r.value.settlement.Release?)
      && (r.Ok? ==>
            var after := order.(state := r.value.state, delivery := Some(DeliveryRow(order.delivery.value.provider, r.value.delivery)));
            DeliveryFits(after) && Settles(order, report, r.value))
  {
  }
}
