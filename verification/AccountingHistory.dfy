// Where the rows of the accounting tables come from, over every run: each energy order was reserved with what its option
// held at that moment, each delivery was dispatched to its provider, each purchase was placed with its terms, and each
// expired one had run out of time. Beside it, the exact answers of reserve and startDispatch
// (src/adapters/database/postgres-energy-usage-repository.ts).
module AccountingHistory {
  import opened Prelude
  import opened EnergyOrders
  import opened PurchasePayment
  import opened PaymentPlan
  import opened Tables
  import opened PaymentLifecycle
  import opened EnergyUsage
  import opened Accounting
  import opened PaymentInvariants
  import opened LedgerInvariants
  import opened AccountingSafety
  import opened AccountingTheorems
  import PaymentEvidence
  import Chain

  // ---- the answers of reserve ----

  predicate Admitted(t: Tables, user: User) { user in t.blocked && !t.blocked[user] }

  // The key was used before, for this order.
  predicate UsedFor(t: Tables, key: string, id: Id) { id in t.energy && t.energy[id].key == key }

  predicate Unused(t: Tables, key: string) { forall id <- t.energy :: t.energy[id].key != key }

  predicate SameRequest(order: EnergyOrder, input: ReserveInput) {
    order.user == input.user && order.option == input.option && order.recipient == input.recipient
  }

  // A user with enough units asks for an enabled option under a key of their own.
  predicate Affords(t: Tables, input: ReserveInput) {
    && Admitted(t, input.user) && Unused(t, input.key) && input.option in t.options
    && input.user in t.balances && t.balances[input.user].available >= t.options[input.option].cost
  }

  predicate Fits32(t: Tables, input: ReserveInput) {
    && input.user in t.balances && input.option in t.options
    && t.balances[input.user].reserved + t.options[input.option].cost <= 2147483647
  }

  // What a reservation writes: the order as asked for, with the energy and cost its option holds; the cost moved from
  // available to reserved; the ledger row that says so.
  predicate Reserves(t: Tables, s: Tables, input: ReserveInput, id: Id)
    requires Affords(t, input)
  {
    var option, b := t.options[input.option], t.balances[input.user];
    && id in s.energy && s.energy == t.energy[id := s.energy[id]]
    && s.energy[id].user == input.user && s.energy[id].key == input.key && s.energy[id].option == input.option
    && s.energy[id].recipient == input.recipient && s.energy[id].energy == option.energy && s.energy[id].cost == option.cost
    && s.energy[id].state == OReserved && s.energy[id].delivery.None?
    && s.balances == t.balances[input.user := Balance(b.available - option.cost, b.reserved + option.cost)]
    && s.ledger == t.ledger[LedgerKey(REnergyReserve, id) :=
                              Entry(input.user, REnergyReserve, None, None, Some(id), 0 - option.cost, option.cost)]
    && s == t.(energy := s.energy, energyByKey := s.energyByKey, balances := s.balances, ledger := s.ledger)
  }

  // Every answer of reserve on sound tables, exactly when it is given, and all that a reservation changes.
  lemma ReserveAnswers(t: Tables, input: ReserveInput, id: Id)
    requires TablesOk(t)
    ensures var (s, r) := Reserve(t, input, id);
      && (r == Denied <==> !Admitted(t, input.user))
      && (r == Conflict <==>
            Admitted(t, input.user) && exists x :: UsedFor(t, input.key, x) && !SameRequest(t.energy[x], input))
      && (forall x :: r == Reserved(false, x) <==>
            Admitted(t, input.user) && UsedFor(t, input.key, x) && SameRequest(t.energy[x], input))
      && (r == OptionUnavailable <==> Admitted(t, input.user) && Unused(t, input.key) && input.option !in t.options)
      && (forall a, c :: r == Insufficient(a, c) <==>
            && Admitted(t, input.user) && Unused(t, input.key) && input.option in t.options
            && a == t.balances[input.user].available < c == t.options[input.option].cost)
      && (r == ReserveThrows <==> Affords(t, input) && (id in t.energy || !Fits32(t, input)))
      && (r.Reserved? && r.created <==> Affords(t, input) && id !in t.energy && Fits32(t, input))
      && (if r.Reserved? && r.created then r.order == id && Reserves(t, s, input, id) else s == t)
  {
    hide EnergyOk, AccountsOk, LedgerOk, MoneyOk, LedgerFree;
    KeyIndex(t, input.key);
    BalanceOf(t, input.user);
    if id !in t.energy && input.option in t.options {
      var cost: int := t.options[input.option].cost;
      EnergyKeyFree(t, LedgerKey(REnergyReserve, id), Entry(input.user, REnergyReserve, None, None, Some(id), 0 - cost, cost));
    }
    hide TablesOk;
  }

  lemma KeyIndex(t: Tables, key: string)
    requires EnergyOk(t)
    ensures key in t.energyByKey ==> UsedFor(t, key, t.energyByKey[key])
    ensures forall x :: UsedFor(t, key, x) ==> key in t.energyByKey && t.energyByKey[key] == x
    ensures Unused(t, key) <==> key !in t.energyByKey
  {
    hide IndexOk, DeliveryFits;
  }

  lemma BalanceOf(t: Tables, user: User)
    requires AccountsOk(t)
    ensures user in t.balances <==> user in t.blocked
  {
  }

  // Every answer of startDispatch on sound tables, and all that it changes: the order is on its way to that provider, with
  // nothing reported yet.
  lemma DispatchAnswers(t: Tables, id: Id, provider: string)
    requires TablesOk(t)
    ensures var (s, r) := StartDispatch(t, id, provider);
      && (r == Dispatched(true) <==> id in t.energy && t.energy[id].state == OReserved)
      && (r == Dispatched(false) <==> SentTo(t, id, provider) && t.energy[id].state != OReserved)
      && (r != Dispatched(true) ==> s == t)
      && (r == Dispatched(true) ==>
            && id in s.energy && s == t.(energy := t.energy[id := s.energy[id]])
            && s.energy[id] == t.energy[id].(state := s.energy[id].state, delivery := s.energy[id].delivery)
            && s.energy[id].state == ODispatching && SentTo(s, id, provider)
            && s.energy[id].delivery.value.delivery.status == DPending && s.energy[id].delivery.value.delivery.providerOrderId.None?)
  {
    hide AccountsOk, LedgerOk, MoneyOk, EnergyOk;
    if id in t.energy {
      UserKnown(t, id);
      DeliveryPresent(t.energy[id]);
    }
    hide TablesOk;
  }

  // ---- what happened ----

  datatype Fact =
    | FReserved(id: Id, input: ReserveInput, energy: nat, cost: nat)
    | FSent(id: Id, provider: string)
    | FPlaced(purchase: Id, user: User, terms: Snapshot)
    | FExpired(purchase: Id)

  // The event e in state w establishes the fact.
  predicate Makes(w: World, e: Event, f: Fact) {
    match f
    case FReserved(id, input, energy, cost) =>
      && e == ReserveUnits(input, id) && id !in w.t.energy && Affords(w.t, input)
      && w.t.options[input.option].energy == energy && w.t.options[input.option].cost == cost
    case FSent(id, provider) => e == Dispatch(id, provider) && id in w.t.energy && w.t.energy[id].state == OReserved
    case FPlaced(purchase, user, terms) => e == Place(purchase, user, terms) && purchase !in w.t.purchases
    case FExpired(purchase) =>
      && e.Expire? && e.purchase == purchase && purchase in w.t.purchases && w.t.purchases[purchase].state == PWaiting
      && w.t.purchases[purchase].terms.expiresAt.Some? && w.t.purchases[purchase].terms.expiresAt.value.Instant?
      && w.t.purchases[purchase].terms.expiresAt.value.ms <= e.at
  }

  ghost predicate OrderRests(facts: iset<Fact>, id: Id, order: EnergyOrder) {
    && FReserved(id, ReserveInput(order.user, order.option, order.recipient, order.key), order.energy, order.cost) in facts
    && (order.delivery.Some? ==> FSent(id, order.delivery.value.provider) in facts)
  }

  ghost predicate PurchaseRests(facts: iset<Fact>, o: Id, purchase: Purchase) {
    FPlaced(o, purchase.user, purchase.terms) in facts && (purchase.state == PExpired ==> FExpired(o) in facts)
  }

  ghost predicate FactsOk(w: World, facts: iset<Fact>) {
    && (forall id :: id in w.t.energy ==> OrderRests(facts, id, w.t.energy[id]))
    && (forall o :: o in w.t.purchases ==> PurchaseRests(facts, o, w.t.purchases[o]))
  }

  // ---- one event ----

  // The row of an energy order after an event: as it was but for state and delivery, whose provider stays.
  predicate Continues(a: EnergyOrder, b: EnergyOrder) {
    SameOrder(a, b) && (b.delivery.Some? ==> a.delivery.Some? && b.delivery.value.provider == a.delivery.value.provider)
  }

  lemma EnergyAfter(w: World, e: Event, id: Id)
    requires WorldOk(w) && id in Handle(w, e).t.energy
    ensures var b := Handle(w, e).t.energy[id];
      || (id in w.t.energy && Continues(w.t.energy[id], b))
      || (id in w.t.energy && SameOrder(w.t.energy[id], b) && b.delivery.Some? && Makes(w, e, FSent(id, b.delivery.value.provider)))
      || (b.delivery.None? && Makes(w, e, FReserved(id, ReserveInput(b.user, b.option, b.recipient, b.key), b.energy, b.cost)))
  {
    hide WorldOk, TablesOk, PaymentsOk, ReportsOk, Reserve, StartDispatch, ApplyDelivery, Observing, Inserted, CreditPaidOrder,
      IndexRefuses, Validate, Reserves;
    WorldParts(w);
    match e
    case Begin(o, b, now) => if o !in w.pending { BeginEvidence(w, o, b, now); }
    case Finish(o, now) => if o in w.pending { FinishEvidence(w, o, now); }
    case Credit(o) => CreditEnergyFrame(w.t, o);
    case ReserveUnits(input, x) =>
      ReserveAnswers(w.t, input, x);
      ReservedRow(w.t, input, x, id);
    case Dispatch(x, provider) => DispatchAnswers(w.t, x, provider);
    case Deliver(x, provider, poid, report) => if report != DPending { DeliveredRow(w, x, provider, poid, report, id); }
    case _ =>
  }

  lemma CreditEnergyFrame(t: Tables, o: Id)
    ensures CreditPaidOrder(t, o).0.energy == t.energy
  {
    hide CreditsFor, LedgerFree, ConfirmedFor;
  }

  lemma ReservedRow(t: Tables, input: ReserveInput, x: Id, id: Id)
    requires var (s, r) := Reserve(t, input, x);
      if r.Reserved? && r.created then Affords(t, input) && x !in t.energy && Reserves(t, s, input, x) else s == t
    requires id in Reserve(t, input, x).0.energy
    ensures var b := Reserve(t, input, x).0.energy[id];
      || (id in t.energy && b == t.energy[id])
      || (&& id == x && b.delivery.None? && x !in t.energy && Affords(t, input)
          && input == ReserveInput(b.user, b.option, b.recipient, b.key)
          && t.options[input.option].energy == b.energy && t.options[input.option].cost == b.cost)
  {
    hide Reserve, Affords;
  }

  lemma DeliveredRow(w: World, x: Id, provider: string, poid: Option<Chain.Tx>, report: DeliveryStatus, id: Id)
    requires TablesOk(w.t) && report != DPending && id in Handle(w, Deliver(x, provider, poid, report)).t.energy
    ensures id in w.t.energy && Continues(w.t.energy[id], Handle(w, Deliver(x, provider, poid, report)).t.energy[id])
  {
    hide ApplyDelivery, SettleAs, TablesOk, ApplyReport, AnswersExactly, DeliveryFits;
    ApplyDeliveryOk(w.t, x, provider, poid, report);
    if SentTo(w.t, x, provider) {
      SentFacts(w.t, x, provider, poid, report);
      var order := w.t.energy[x];
      var applied := ApplyReport(order.state, order.delivery.value.delivery, poid, report);
      if applied.Ok? && SettleAs(w.t, x, applied.value).Ok? { SettleAsEnergy(w.t, x, applied.value); }
    } else {
      NotSent(w.t, x, provider, poid, report);
    }
  }

  // The row of a purchase after an event: user and terms stay, and it expires only by a due expiry.
  lemma PurchaseAfter(w: World, e: Event, o: Id)
    requires WorldOk(w) && o in Handle(w, e).t.purchases
    ensures var b := Handle(w, e).t.purchases[o];
      || (o in w.t.purchases && b == w.t.purchases[o].(state := b.state)
          && (b.state == PExpired && w.t.purchases[o].state != PExpired ==> Makes(w, e, FExpired(o))))
      || (b.state == PWaiting && Makes(w, e, FPlaced(o, b.user, b.terms)))
  {
    hide WorldOk, TablesOk, PaymentsOk, ReportsOk, Handle, LegalPath, EndOf, ExpireWaiting;
    WorldParts(w);
    if o in w.t.purchases {
      var steps := MovesLegally(w, e, o);
      if Handle(w, e).t.purchases[o].state == PExpired && w.t.purchases[o].state != PExpired { ExpiresWhenDue(w, e, o); }
    } else {
      NewPurchase(w, e, o);
    }
  }

  lemma NewPurchase(w: World, e: Event, o: Id)
    requires WorldOk(w) && o !in w.t.purchases && o in Handle(w, e).t.purchases
    ensures var b := Handle(w, e).t.purchases[o]; b.state == PWaiting && Makes(w, e, FPlaced(o, b.user, b.terms))
  {
    hide WorldOk, Validate;
    if !e.Place? { PurchaseKeys(w, e); }
  }

  // Only placing adds a purchase.
  lemma PurchaseKeys(w: World, e: Event)
    requires WorldOk(w) && !e.Place?
    ensures Handle(w, e).t.purchases.Keys == w.t.purchases.Keys
  {
    hide *;
    WorldParts(w);
    match e
    case Begin(p, b, now) =>
      BeginIs(w, p, b, now);
      EvidenceKeys(w, e);
    case Finish(p, now) =>
      FinishIs(w, p, now);
      EvidenceKeys(w, e);
    case Expire(p, at) =>
      ExpireIs(w, p, at);
      ExpireKeys(w.t, p, at);
    case Credit(p) =>
      CreditIs(w, p);
      CreditKeys(w.t, p);
    case _ => EnergyKeys(w, e);
  }

  lemma ExpireKeys(t: Tables, o: Id, at: int)
    ensures ExpireWaiting(t, o, at).0.purchases.Keys == t.purchases.Keys
  {
  }

  lemma EnergyKeys(w: World, e: Event)
    requires TablesOk(w.t) && !e.Begin? && !e.Finish? && !e.Expire? && !e.Credit? && !e.Place?
    ensures Handle(w, e).t.purchases.Keys == w.t.purchases.Keys
  {
    hide TablesOk, Reserve, ApplyDelivery, IndexRefuses, AnswersExactly;
    match e
    case ReserveUnits(input, id) => ReserveFrame(w.t, input, id);
    case Deliver(id, provider, poid, report) => if report != DPending { ApplyDeliveryOk(w.t, id, provider, poid, report); }
    case _ =>
  }

  lemma EvidenceKeys(w: World, e: Event)
    requires PaymentsOk(w)
    ensures e.Begin? && e.purchase !in w.pending ==> Observing(w, e.purchase, e.observed, e.now).t.purchases.Keys == w.t.purchases.Keys
    ensures e.Finish? && e.purchase in w.pending ==> Inserted(w, e.purchase, e.now).t.purchases.Keys == w.t.purchases.Keys
  {
    hide PaymentsOk, Observing, Inserted;
    if e.Begin? && e.purchase !in w.pending { BeginEvidence(w, e.purchase, e.observed, e.now); }
    if e.Finish? && e.purchase in w.pending { FinishEvidence(w, e.purchase, e.now); }
  }

  lemma CreditKeys(t: Tables, o: Id)
    ensures CreditPaidOrder(t, o).0.purchases.Keys == t.purchases.Keys
  {
    hide CreditsFor, LedgerFree, ConfirmedFor;
  }

  lemma ExpiresWhenDue(w: World, e: Event, o: Id)
    requires WorldOk(w) && o in w.t.purchases && o in Handle(w, e).t.purchases
    requires Handle(w, e).t.purchases[o].state == PExpired && w.t.purchases[o].state != PExpired
    ensures Makes(w, e, FExpired(o))
  {
    hide WorldOk, TablesOk, PaymentsOk, ReportsOk, Observing, Inserted, CreditPaidOrder, Validate, Handle;
    WorldParts(w);
    match e
    case Begin(p, b, now) =>
      BeginIs(w, p, b, now);
      if p !in w.pending { BeginNoExpiry(w, p, b, now, o); }
    case Finish(p, now) =>
      FinishIs(w, p, now);
      if p in w.pending { FinishNoExpiry(w, p, now, o); }
    case Expire(p, at) => ExpireIs(w, p, at);
    case Credit(p) =>
      CreditIs(w, p);
      if p !in w.pending { CreditNoExpiry(w, p, o); }
    case _ => PurchasesAlone(w, e, o);
  }

  lemma BeginNoExpiry(w: World, p: Id, b: Observed, now: nat, o: Id)
    requires WorldOk(w) && p !in w.pending && o in w.t.purchases && o in Observing(w, p, b, now).t.purchases
    ensures Observing(w, p, b, now).t.purchases[o].state == PExpired ==> w.t.purchases[o].state == PExpired
  {
    hide *;
    WorldParts(w);
    if p != o {
      BeginElsewhere(w, p, b, now, o);
    } else if Observing(w, o, b, now).t != w.t {
      BegunKnown(w, o, b, now);
      var state, current := w.t.purchases[o].state, Some(w.t.payments[b.txid].status);
      var found := Evaluate(Expected(w.t.purchases[o].terms).value, b);
      var plan := PlanFor(found, state, current);
      BegunApplies(w, o, b, plan, now);
      AppliedFits(w.t, o, b, plan, now);
      PlanFitsState(found, state, current);
      KnownWritten(w, o, b, plan, now);
      WrittenNoExpiry(w.t, Observing(w, o, b, now).t, o, b.txid, plan);
    }
  }

  lemma WrittenNoExpiry(t: Tables, s: Tables, o: Id, x: Txid, plan: Plan)
    requires o in t.purchases && plan.ApplyPlan? && PlanFits(t.purchases[o].state, plan) && RowWritten(t, s, o, x, plan)
    ensures o in s.purchases && s.purchases[o].state != PExpired
  {
  }

  lemma FinishNoExpiry(w: World, p: Id, now: nat, o: Id)
    requires WorldOk(w) && p in w.pending && o in w.t.purchases && o in Inserted(w, p, now).t.purchases
    ensures Inserted(w, p, now).t.purchases[o].state == PExpired ==> w.t.purchases[o].state == PExpired
  {
    hide *;
    WorldParts(w);
    PendingFacts(w, p);
    if p != o {
      FinishElsewhere(w, p, now, o);
    } else {
      FinishCases(w, o, now);
      PaymentEvidence.InsertedFrame(w, o, now);
      var q := w.pending[o];
      if q.observed.txid !in w.t.payments && FitsColumns(NewPayment(o, q.observed, q.plan.status, now)) {
        FinishWritten(w, o, now);
        WrittenNoExpiry(w.t, Inserted(w, o, now).t, o, q.observed.txid, q.plan);
      }
    }
  }

  lemma CreditNoExpiry(w: World, p: Id, o: Id)
    requires WorldOk(w) && o in w.t.purchases && o in CreditPaidOrder(w.t, p).0.purchases
    ensures CreditPaidOrder(w.t, p).0.purchases[o].state == PExpired ==> w.t.purchases[o].state == PExpired
  {
    hide CreditsFor, LedgerFree, ConfirmedFor, WorldOk;
  }

  // ---- over every run ----

  ghost predicate Happened(events: seq<Event>, i: nat, f: Fact) {
    i < |events| && Makes(Run(INITIAL, events[..i]), events[i], f)
  }

  ghost predicate Has(events: seq<Event>, f: Fact) { exists i: nat :: Happened(events, i, f) }

  ghost function FactsOf(events: seq<Event>): iset<Fact> { iset f: Fact | Has(events, f) }

  lemma FactsMore(events: seq<Event>, e: Event)
    ensures FactsOf(events) <= FactsOf(events + [e])
    ensures forall f :: Makes(Run(INITIAL, events), e, f) ==> f in FactsOf(events + [e])
  {
    hide Makes, Run;
    var all := events + [e];
    forall f | Has(events, f) ensures Has(all, f) {
      var i: nat :| Happened(events, i, f);
      assert all[..i] == events[..i];
      assert Happened(all, i, f);
    }
    assert all[..|events|] == events;
    forall f | Makes(Run(INITIAL, events), e, f) ensures Has(all, f) { assert Happened(all, |events|, f); }
  }

  lemma EventFacts(w: World, e: Event, facts: iset<Fact>, more: iset<Fact>)
    requires WorldOk(w) && FactsOk(w, facts) && facts <= more && forall f :: Makes(w, e, f) ==> f in more
    ensures FactsOk(Handle(w, e), more)
  {
    hide WorldOk, Handle, Makes;
    var v := Handle(w, e);
    forall id | id in v.t.energy ensures OrderRests(more, id, v.t.energy[id]) { EnergyAfter(w, e, id); }
    forall o | o in v.t.purchases ensures PurchaseRests(more, o, v.t.purchases[o]) { PurchaseAfter(w, e, o); }
  }

  lemma {:induction false} RunFacts(events: seq<Event>)
    ensures FactsOk(Run(INITIAL, events), FactsOf(events))
    decreases |events|
  {
    hide WorldOk, Handle, FactsOf, Makes;
    if events != [] {
      var before, e := events[..|events| - 1], events[|events| - 1];
      assert events == before + [e];
      RunFacts(before);
      hide Run, FactsOk;
      Reachable(before);
      PaymentEvidence.RunThen(INITIAL, before, e);
      FactsMore(before, e);
      EventFacts(Run(INITIAL, before), e, FactsOf(before), FactsOf(events));
    }
  }

  // Every energy order of every run was reserved by one event: asked for by its user, under its key, with its option and
  // recipient, when the user could afford it, with the energy and cost the options table held at that moment.
  lemma OrdersWereReserved(events: seq<Event>, id: Id) returns (i: nat)
    requires id in Run(INITIAL, events).t.energy
    ensures var order := Run(INITIAL, events).t.energy[id];
      && i < |events| && events[i] == ReserveUnits(ReserveInput(order.user, order.option, order.recipient, order.key), id)
      && var t := Run(INITIAL, events[..i]).t;
         && Admitted(t, order.user) && order.option in t.options && t.options[order.option] == EnergyOption(order.energy, order.cost)
         && order.user in t.balances && t.balances[order.user].available >= order.cost
  {
    hide Run;
    RunFacts(events);
    var order := Run(INITIAL, events).t.energy[id];
    assert OrderRests(FactsOf(events), id, order);
    i :| Happened(events, i, FReserved(id, ReserveInput(order.user, order.option, order.recipient, order.key), order.energy, order.cost));
  }

  // Every delivery is of the provider its order was dispatched to.
  lemma DeliveriesWereDispatched(events: seq<Event>, id: Id) returns (i: nat)
    requires id in Run(INITIAL, events).t.energy && Run(INITIAL, events).t.energy[id].delivery.Some?
    ensures i < |events| && events[i] == Dispatch(id, Run(INITIAL, events).t.energy[id].delivery.value.provider)
    ensures var t := Run(INITIAL, events[..i]).t; id in t.energy && t.energy[id].state == OReserved
  {
    hide Run;
    RunFacts(events);
    assert OrderRests(FactsOf(events), id, Run(INITIAL, events).t.energy[id]);
    i :| Happened(events, i, FSent(id, Run(INITIAL, events).t.energy[id].delivery.value.provider));
  }

  // Every purchase is its user's, on the terms it was placed with.
  lemma PurchasesWerePlaced(events: seq<Event>, o: Id) returns (i: nat)
    requires o in Run(INITIAL, events).t.purchases
    ensures var purchase := Run(INITIAL, events).t.purchases[o];
      i < |events| && events[i] == Place(o, purchase.user, purchase.terms)
  {
    hide Run;
    RunFacts(events);
    var purchase := Run(INITIAL, events).t.purchases[o];
    assert PurchaseRests(FactsOf(events), o, purchase);
    i :| Happened(events, i, FPlaced(o, purchase.user, purchase.terms));
  }

  // A purchase expires only while waiting for its payment, at a time its quote does not outlast.
  lemma ExpiredWhenDue(events: seq<Event>, o: Id) returns (i: nat)
    requires o in Run(INITIAL, events).t.purchases && Run(INITIAL, events).t.purchases[o].state == PExpired
    ensures i < |events| && events[i].Expire? && events[i].purchase == o
    ensures var t := Run(INITIAL, events[..i]).t;
      && o in t.purchases && t.purchases[o].state == PWaiting
      && t.purchases[o].terms.expiresAt.Some? && t.purchases[o].terms.expiresAt.value.Instant?
      && t.purchases[o].terms.expiresAt.value.ms <= events[i].at
  {
    hide Run;
    RunFacts(events);
    assert PurchaseRests(FactsOf(events), o, Run(INITIAL, events).t.purchases[o]);
    i :| Happened(events, i, FExpired(o));
  }

  // And such an event does expire it.
  lemma DueExpires(events: seq<Event>, o: Id, at: int)
    requires var w := Run(INITIAL, events); o !in w.pending
    ensures var w := Run(INITIAL, events); var v := Run(INITIAL, events + [Expire(o, at)]);
      o in v.t.purchases && v.t.purchases[o].state == PExpired <==>
        && o in w.t.purchases
        && (w.t.purchases[o].state == PExpired || Makes(w, Expire(o, at), FExpired(o)))
  {
    PaymentEvidence.RunThen(INITIAL, events, Expire(o, at));
    hide Run;
    ExpireIs(Run(INITIAL, events), o, at);
    hide Handle;
  }
}
