// The promises of the accounting system, over every run of its transactions.
module AccountingTheorems {
  import opened Prelude
  import opened Chain
  import opened EnergyOrders
  import opened PurchasePayment
  import opened PaymentPlan
  import opened Tables
  import opened PaymentLifecycle
  import opened EnergyUsage
  import opened Accounting
  import opened PaymentInvariants
  import opened LedgerInvariants
  import opened AccountingSafety
  import opened Sums

  lemma Reachable(events: seq<Event>)
    ensures WorldOk(Run(INITIAL, events))
  {
    InitialOk();
    RunOk(INITIAL, events);
  }

  // Units are conserved: what a user bought is available, reserved for orders on their way, or spent on completed ones,
  // and the ledger accounts for both balances.
  lemma UnitsConserved(events: seq<Event>, u: User)
    requires u in Run(INITIAL, events).t.balances
    ensures var t := Run(INITIAL, events).t; var b := t.balances[u];
      && b.available + b.reserved + Sum(t.energy, SpentOf(u)) == Sum(t.purchases, BoughtOf(u))
      && b.reserved == Sum(t.energy, HeldOf(u))
      && b.available == Sum(t.ledger, AvailableOf(u)) && b.reserved == Sum(t.ledger, ReservedOf(u))
  {
    Reachable(events);
    hide WorldOk, PaymentsOk;
    WorldParts(Run(INITIAL, events));
    assert Balanced(Run(INITIAL, events).t, u);
  }

  // Every answer of applyDelivery to any report on any reachable tables, each with the exact condition under which it is
  // given. Among them: it never finds the reserved units, the balance or the ledger row in the way, nor a finished
  // delivery under an open order; and it aborts, the order staying dispatching, exactly when a failed delivery is to be
  // returned to a count that the returned units would take past 32 bits.
  lemma DeliveryAnswersExactly(events: seq<Event>, id: Id, provider: string, providerOrderId: Option<Tx>, report: DeliveryStatus)
    requires report != DPending
    ensures var t := Run(INITIAL, events).t;
      AnswersExactly(t, id, provider, providerOrderId, report, ApplyDelivery(t, id, provider, providerOrderId, report))
  {
    Reachable(events);
    hide WorldOk, PaymentsOk, TablesOk, ApplyDelivery, AnswersExactly;
    WorldParts(Run(INITIAL, events));
    ApplyDeliveryOk(Run(INITIAL, events).t, id, provider, providerOrderId, report);
  }

  // No two deliveries of a provider ever carry the same provider order id.
  lemma ProviderOrdersDiffer(events: seq<Event>, a: Id, b: Id)
    requires var t := Run(INITIAL, events).t; a in t.energy && b in t.energy && t.energy[a].delivery.Some?
    requires var t := Run(INITIAL, events).t; var row := t.energy[a].delivery.value;
      row.delivery.providerOrderId.Some? && Holds(t, b, row.provider, row.delivery.providerOrderId)
    ensures a == b
  {
    Reachable(events);
    hide WorldOk, PaymentsOk, AccountsOk, LedgerOk, MoneyOk;
    WorldParts(Run(INITIAL, events));
    assert RowUnique(Run(INITIAL, events).t, a);
  }

  // startDispatch throws for no order of its own provider.
  lemma DispatchNeverThrows(events: seq<Event>, id: Id, provider: string)
    ensures var t := Run(INITIAL, events).t;
      StartDispatch(t, id, provider).1.DispatchThrows? <==>
        id !in t.energy || (t.energy[id].state != OReserved && !SentTo(t, id, provider))
  {
    Reachable(events);
    hide WorldOk, PaymentsOk, EnergyOk, AccountsOk, LedgerOk, MoneyOk;
    WorldParts(Run(INITIAL, events));
    if id in Run(INITIAL, events).t.energy { UserKnown(Run(INITIAL, events).t, id); }
    StartDispatchOk(Run(INITIAL, events).t, id, provider);
  }

  // An order has a delivery row exactly when it has left reserved. The delivery is finished exactly when the order is,
  // and then that outcome was reported; until then its status is the highest of all reports so far.
  lemma DeliveryIsJoin(events: seq<Event>, id: Id)
    requires id in Run(INITIAL, events).t.energy
    ensures var w := Run(INITIAL, events); var order := w.t.energy[id];
      && order.state in {OReserved, ODispatching, OCompleted, OReleased}
      && (order.delivery.Some? <==> order.state != OReserved)
      && (order.state == OCompleted <==> order.delivery.Some? && order.delivery.value.delivery.status == DCompleted)
      && (order.state == OReleased <==> order.delivery.Some? && order.delivery.value.delivery.status == DFailed)
      && (order.state == OCompleted ==> DCompleted in Reports(w, id))
      && (order.state == OReleased ==> DFailed in Reports(w, id))
      && (order.state == ODispatching ==> order.delivery.value.delivery.status == Join(Reports(w, id)))
  {
    Reachable(events);
    hide WorldOk, PaymentsOk, AccountsOk, LedgerOk, MoneyOk;
    WorldParts(Run(INITIAL, events));
    UserKnown(Run(INITIAL, events).t, id);
    ReportsKnown(Run(INITIAL, events), id);
  }

  // Join really is a least upper bound: at least every report, and one of them or the initial pending.
  lemma {:induction false} JoinIsHighest(reports: seq<DeliveryStatus>)
    ensures forall r :: r in reports ==> Rank(r) <= Rank(Join(reports))
    ensures Join(reports) == DPending || Join(reports) in reports
    decreases |reports|
  {
    if reports != [] {
      var before := reports[..|reports| - 1];
      JoinIsHighest(before);
      assert reports == before + [reports[|reports| - 1]];
    }
  }

  // ---- purchases ----

  ghost predicate HasRow(t: Tables, o: Id, status: TxStatus) { exists x :: RowOf(t, x, o) && t.payments[x].status == status }

  ghost predicate OnlyRows(t: Tables, o: Id, statuses: set<TxStatus>) {
    forall x :: RowOf(t, x, o) ==> t.payments[x].status in statuses
  }

  // The status of a purchase order is the join of its payment rows, each state exactly: no row when waiting or expired,
  // the highest status of any row when detected or confirming, and one single verdict when paid, credited or failed.
  lemma OrderStatusIsJoin(events: seq<Event>, o: Id)
    requires o in Run(INITIAL, events).t.purchases
    ensures var t := Run(INITIAL, events).t; var state := t.purchases[o].state;
      && (state in {PWaiting, PExpired} <==> forall x :: !RowOf(t, x, o))
      && (state == PDetected <==> HasRow(t, o, TDetected) && OnlyRows(t, o, {TDetected}))
      && (state == PConfirming <==> HasRow(t, o, TConfirming) && OnlyRows(t, o, {TDetected, TConfirming}))
      && (state in {PPaid, PCredited} <==> HasRow(t, o, TConfirmed))
      && (state == PFailed <==> HasRow(t, o, TRejected))
      && (forall x, y :: Decided(t, x, o) && Decided(t, y, o) ==> x == y)
  {
    Reachable(events);
    hide WorldOk, TablesOk, ReportsOk;
    WorldParts(Run(INITIAL, events));
    JoinKnown(Run(INITIAL, events), o);
    hide PaymentsOk, Validate;
    JoinMeans(Run(INITIAL, events).t, o);
  }

  lemma JoinMeans(t: Tables, o: Id)
    requires o in t.purchases && StatusIsJoin(t, o)
    ensures var state := t.purchases[o].state;
      && (state in {PWaiting, PExpired} <==> forall x :: !RowOf(t, x, o))
      && (state == PDetected <==> HasRow(t, o, TDetected) && OnlyRows(t, o, {TDetected}))
      && (state == PConfirming <==> HasRow(t, o, TConfirming) && OnlyRows(t, o, {TDetected, TConfirming}))
      && (state in {PPaid, PCredited} <==> HasRow(t, o, TConfirmed))
      && (state == PFailed <==> HasRow(t, o, TRejected))
      && (forall x, y :: Decided(t, x, o) && Decided(t, y, o) ==> x == y)
  {
    var state := t.purchases[o].state;
    if Level(state) > 0 {
      var x :| RowOf(t, x, o) && RowLevel(t.payments[x].status) == Level(state);
      assert Level(state) == 3 ==> Decided(t, x, o);
    }
    forall x | RowOf(t, x, o) && RowLevel(t.payments[x].status) == 3
      ensures Level(state) == 3 && t.payments[x].status == Verdict(state)
    {
      assert Decided(t, x, o);
    }
  }

  // The observation is of a row that exists already and is to be written again.
  predicate Rewrites(t: Tables, o: Id, observed: Observed) {
    && o in t.purchases && Expected(t.purchases[o].terms).Some? && ValidMetadata(observed)
    && observed.txid in t.payments && RowConflict(t.payments[observed.txid], o, observed).None?
    && PlanFor(Evaluate(Expected(t.purchases[o].terms).value, observed), t.purchases[o].state,
               Some(t.payments[observed.txid].status)).ApplyPlan?
  }

  // The figures it would add to the row are wider than their columns.
  predicate TooWideFor(row: Payment, observed: Observed) {
    observed.confirmations > INT4_MAX ||
    (row.blockNumber.None? && observed.blockNumber.Some? && observed.blockNumber.value > INT8_MAX)
  }

  // No observation runs into a state it calls impossible, and it runs into a database error exactly when a figure it is to
  // write does not fit its column. When its insert loses to a row inserted meanwhile, that row is another order's:
  // planning again for the same order never happens.
  lemma ObservationsThrowForWidthAlone(events: seq<Event>, o: Id, observed: Observed, now: nat)
    ensures var w := Run(INITIAL, events);
      && (o !in w.pending ==>
            var begun := BeginObservation(w.t, o, observed, now);
            && (begun.Ended? ==> begun.result !in {PersistedOrderInvalid, InvalidOrderState, DatabaseUniqueConflict})
            && (begun.Ended? && begun.result.ObservationThrows? <==>
                  Rewrites(w.t, o, observed) && TooWideFor(w.t.payments[observed.txid], observed)))
      && (o in w.pending && o in w.t.purchases && w.pending[o].plan.ApplyPlan? ==>
            var p := w.pending[o];
            var r := FinishObservation(w.t, o, p.observed, p.state, p.evaluation, p.plan, now).1;
            if !FitsColumns(NewPayment(o, p.observed, p.plan.status, now)) then r == ObservationThrows
            else if p.observed.txid in w.t.payments then r == PaymentIdentityConflict
            else r.Applied?)
  {
    var w := Run(INITIAL, events);
    Reachable(events);
    hide WorldOk, TablesOk, ReportsOk, FinishObservation, FitsColumns, Rewrites, TooWideFor, BeginObservation;
    WorldParts(w);
    if o in w.pending { PendingFacts(w, o); FinishCases(w, o, now); } else { BeginAnswers(w, o, observed, now); }
  }

  lemma BeginAnswers(w: World, o: Id, observed: Observed, now: nat)
    requires PaymentsOk(w) && o !in w.pending
    ensures var begun := BeginObservation(w.t, o, observed, now);
      && (begun.Ended? ==> begun.result !in {PersistedOrderInvalid, InvalidOrderState, DatabaseUniqueConflict})
      && (begun.Ended? && begun.result.ObservationThrows? <==>
            Rewrites(w.t, o, observed) && TooWideFor(w.t.payments[observed.txid], observed))
  {
    hide StatusIsJoin, Validate, Evaluate, PlanFor, PlanFits, ApplyLocked, PaymentsOk, RowConflict, ValidMetadata, TooWideFor;
    if o in w.t.purchases {
      JoinKnown(w, o);
      var purchase := w.t.purchases[o];
      var known := observed.txid in w.t.payments;
      if ValidMetadata(observed) && (known ==> RowConflict(w.t.payments[observed.txid], o, observed).None?) {
        var evaluation := Evaluate(Expected(purchase.terms).value, observed);
        var current := if known then Some(w.t.payments[observed.txid].status) else None;
        PlanPossible(evaluation, purchase.state, current);
        var plan := PlanFor(evaluation, purchase.state, current);
        if plan.ApplyPlan? && known { KnownApplied(w, o, observed, evaluation, now); }
      } else if known {
        ConflictKinds(w.t.payments[observed.txid], o, observed);
      }
    }
  }

  lemma ConflictKinds(row: Payment, o: Id, observed: Observed)
    ensures var c := RowConflict(row, o, observed); c.Some? ==> c.value in {PaymentIdentityConflict, PaymentEvidenceConflict}
  {
  }

  lemma KnownApplied(w: World, o: Id, observed: Observed, evaluation: Evaluation, now: nat)
    requires PaymentsOk(w) && o in w.t.purchases && observed.txid in w.t.payments
    requires RowConflict(w.t.payments[observed.txid], o, observed).None?
    requires PlanFor(evaluation, w.t.purchases[o].state, Some(w.t.payments[observed.txid].status)).ApplyPlan?
    ensures var plan := PlanFor(evaluation, w.t.purchases[o].state, Some(w.t.payments[observed.txid].status));
      var r := ApplyLocked(w.t, o, w.t.purchases[o].state, observed, plan, now).1;
      r.Applied? || r.ObservationThrows?
    ensures var plan := PlanFor(evaluation, w.t.purchases[o].state, Some(w.t.payments[observed.txid].status));
      ApplyLocked(w.t, o, w.t.purchases[o].state, observed, plan, now).1.ObservationThrows? <==>
        TooWideFor(w.t.payments[observed.txid], observed)
  {
    hide StatusIsJoin, PlanFor, PlanFits, ApplyLocked, RowWritten, PaymentsOk, FitsColumns, MergedPayment, TooWideFor;
    var plan := PlanFor(evaluation, w.t.purchases[o].state, Some(w.t.payments[observed.txid].status));
    PlanFitsState(evaluation, w.t.purchases[o].state, Some(w.t.payments[observed.txid].status));
    KnownFacts(w, o, observed);
    RowKnown(w, observed.txid);
    WiderIs(w.t.payments[observed.txid], o, observed, plan.status, now);
    if TooWideFor(w.t.payments[observed.txid], observed) {
      TooWide(w.t, o, w.t.purchases[o].state, observed, plan, now);
    } else {
      ApplyLockedOk(w.t, o, observed, plan, now, w.t);
    }
  }

  lemma WiderIs(row: Payment, o: Id, observed: Observed, status: TxStatus, now: nat)
    requires FitsColumns(row)
    ensures FitsColumns(MergedPayment(row, o, observed, status, now)) <==> !TooWideFor(row, observed)
  {
  }

  lemma PlanPossible(evaluation: Evaluation, state: PurchaseState, current: Option<TxStatus>)
    requires state != PCreated
    ensures !PlanFor(evaluation, state, current).PlanInvalidState?
  {
    hide HappyPath, RejectedPath, LegalPath;
    if Open(state) { PlanIsLegal(evaluation, state, current); }
  }

  // Every transaction moves every purchase order along its state machine.
  lemma OrdersFollowTheMachine(events: seq<Event>, e: Event, o: Id) returns (steps: seq<PurchaseState>)
    requires o in Run(INITIAL, events).t.purchases
    ensures var w := Run(INITIAL, events); var v := Handle(w, e);
      && o in v.t.purchases && v.t.purchases[o].terms == w.t.purchases[o].terms && v.t.purchases[o].user == w.t.purchases[o].user
      && LegalPath(w.t.purchases[o].state, steps)
      && v.t.purchases[o].state == EndOf(w.t.purchases[o].state, steps)
  {
    var w := Run(INITIAL, events);
    Reachable(events);
    WorldParts(w);
    hide WorldOk, ReportsOk, PaymentsOk, TablesOk, Run;
    steps := MovesLegally(w, e, o);
  }

  predicate Moves(a: Purchase, b: Purchase, steps: seq<PurchaseState>) {
    b == a.(state := b.state) && LegalPath(a.state, steps) && b.state == EndOf(a.state, steps)
  }

  lemma MovesLegally(w: World, e: Event, o: Id) returns (steps: seq<PurchaseState>)
    requires PaymentsOk(w) && TablesOk(w.t) && o in w.t.purchases
    ensures o in Handle(w, e).t.purchases && Moves(w.t.purchases[o], Handle(w, e).t.purchases[o], steps)
  {
    hide TablesOk, PaymentsOk, Handle, CreditPaidOrder, Observing, Inserted, LegalPath, EndOf, ExpireWaiting;
    Stays(w.t.purchases[o]);
    steps := [];
    match e
    case Begin(p, observed, now) =>
      BeginIs(w, p, observed, now);
      if p !in w.pending {
        if p == o { steps := BeginMoves(w, o, observed, now); } else { BeginElsewhere(w, p, observed, now, o); }
      }
    case Finish(p, now) =>
      FinishIs(w, p, now);
      if p in w.pending {
        if p == o { steps := FinishMoves(w, o, now); } else { FinishElsewhere(w, p, now, o); }
      }
    case Expire(p, at) =>
      ExpireIs(w, p, at);
      if p !in w.pending { steps := ExpireMoves(w.t, p, at, o); }
    case Credit(p) =>
      CreditIs(w, p);
      if p !in w.pending { steps := CreditMoves(w, p, o); }
    case _ => PurchasesAlone(w, e, o);
  }

  lemma BeginIs(w: World, p: Id, observed: Observed, now: nat)
    ensures Handle(w, Begin(p, observed, now)) == if p in w.pending then w else Observing(w, p, observed, now)
  {
  }

  lemma FinishIs(w: World, p: Id, now: nat)
    ensures Handle(w, Finish(p, now)) == if p in w.pending then Inserted(w, p, now) else w
  {
  }

  lemma ExpireIs(w: World, p: Id, at: int)
    ensures Handle(w, Expire(p, at)) == if p in w.pending then w else w.(t := ExpireWaiting(w.t, p, at).0)
  {
  }

  lemma CreditIs(w: World, p: Id)
    ensures Handle(w, Credit(p)) == if p in w.pending then w else w.(t := CreditPaidOrder(w.t, p).0)
  {
  }

  lemma ExpireMoves(t: Tables, p: Id, at: int, o: Id) returns (steps: seq<PurchaseState>)
    requires o in t.purchases
    ensures var s := ExpireWaiting(t, p, at).0; o in s.purchases && Moves(t.purchases[o], s.purchases[o], steps)
  {
    hide LegalPath;
    Stays(t.purchases[o]);
    steps := [];
    if p == o && ExpireWaiting(t, p, at).1.Expired? {
      steps := [PExpired];
      OneStep(PWaiting, PExpired);
    }
  }

  lemma PurchasesAlone(w: World, e: Event, o: Id)
    requires TablesOk(w.t) && o in w.t.purchases && !e.Begin? && !e.Finish? && !e.Expire? && !e.Credit?
    ensures o in Handle(w, e).t.purchases && Handle(w, e).t.purchases[o] == w.t.purchases[o]
  {
    hide TablesOk, Reserve, ApplyDelivery, CreditPaidOrder, Observing, Inserted, ExpireWaiting, Validate, IndexRefuses;
    match e
    case ReserveUnits(input, id) => ReserveFrame(w.t, input, id);
    case Deliver(id, provider, poid, report) => if report != DPending { DeliverPurchases(w, e); }
    case _ =>
  }

  lemma DeliverPurchases(w: World, e: Event)
    requires TablesOk(w.t) && e.Deliver? && e.report != DPending
    ensures Handle(w, e).t.purchases == w.t.purchases
  {
    hide EnergyOk, AccountsOk, LedgerOk, MoneyOk, ApplyDelivery;
    ApplyDeliveryOk(w.t, e.id, e.provider, e.providerOrderId, e.report);
  }

  lemma OneStep(a: PurchaseState, b: PurchaseState)
    requires PaymentPlan.Transitions(a, b)
    ensures LegalPath(a, [b])
  {
    assert LegalPath(b, []);
    assert [b][1..] == [];
  }

  lemma BeginMoves(w: World, o: Id, observed: Observed, now: nat) returns (steps: seq<PurchaseState>)
    requires PaymentsOk(w) && o !in w.pending && o in w.t.purchases
    ensures var v := Observing(w, o, observed, now);
      o in v.t.purchases && Moves(w.t.purchases[o], v.t.purchases[o], steps)
  {
    hide StatusIsJoin, Evaluate, PlanFor, PlanFits, LegalPath, Observing, PaymentsOk, Validate, RowConflict, ApplyLocked, EndOf;
    var v := Observing(w, o, observed, now);
    steps := [];
    Stays(w.t.purchases[o]);
    if v.t != w.t {
      BegunKnown(w, o, observed, now);
      var purchase := w.t.purchases[o];
      var evaluation := Evaluate(Expected(purchase.terms).value, observed);
      var current := Some(w.t.payments[observed.txid].status);
      var plan := PlanFor(evaluation, purchase.state, current);
      BegunApplies(w, o, observed, plan, now);
      AppliedFits(w.t, o, observed, plan, now);
      PlanFitsState(evaluation, purchase.state, current);
      KnownWritten(w, o, observed, plan, now);
      steps := plan.steps;
    }
  }

  lemma BegunKnown(w: World, o: Id, observed: Observed, now: nat)
    requires Observing(w, o, observed, now).t != w.t
    ensures o in w.t.purchases && Expected(w.t.purchases[o].terms).Some? && observed.txid in w.t.payments
  {
    hide Evaluate, PlanFor, ApplyLocked, Expected, RowConflict;
  }

  lemma BeginElsewhere(w: World, p: Id, observed: Observed, now: nat, o: Id)
    requires o in w.t.purchases && o != p
    ensures var v := Observing(w, p, observed, now);
      o in v.t.purchases && v.t.purchases[o] == w.t.purchases[o]
  {
    hide Evaluate, PlanFor, Expected, MergedPayment, ConfirmedTaken;
  }

  lemma FinishMoves(w: World, o: Id, now: nat) returns (steps: seq<PurchaseState>)
    requires PaymentsOk(w) && o in w.pending && o in w.t.purchases
    ensures var v := Inserted(w, o, now);
      o in v.t.purchases && Moves(w.t.purchases[o], v.t.purchases[o], steps)
  {
    hide PaymentsOk, StatusIsJoin, PlanFor, PlanFits, FinishObservation, LegalPath, FitsColumns;
    PendingFacts(w, o);
    FinishCases(w, o, now);
    var p := w.pending[o];
    steps := [];
    if p.observed.txid !in w.t.payments && FitsColumns(NewPayment(o, p.observed, p.plan.status, now)) {
      FinishWritten(w, o, now);
      steps := p.plan.steps;
      PendingLegal(w, o);
    }
    Stays(w.t.purchases[o]);
  }

  lemma PendingLegal(w: World, o: Id)
    requires PaymentsOk(w) && o in w.pending
    ensures o in w.t.purchases && w.pending[o].plan.ApplyPlan? && LegalPath(w.t.purchases[o].state, w.pending[o].plan.steps)
  {
    hide StatusIsJoin, PlanFor, Validate, Expected, LegalPath;
    assert PendingOk(w, o);
    PlanFitsState(w.pending[o].evaluation, w.pending[o].state, None);
  }

  lemma Stays(p: Purchase)
    ensures Moves(p, p, [])
  {
  }

  lemma FinishElsewhere(w: World, p: Id, now: nat, o: Id)
    requires p in w.pending && o in w.t.purchases && o != p
    ensures var v := Inserted(w, p, now);
      o in v.t.purchases && v.t.purchases[o] == w.t.purchases[o]
  {
    hide PlanFor, Expected, MergedPayment, ConfirmedTaken, NewPayment;
  }

  lemma CreditMoves(w: World, p: Id, o: Id) returns (steps: seq<PurchaseState>)
    requires PaymentsOk(w) && TablesOk(w.t) && o in w.t.purchases
    ensures var s := CreditPaidOrder(w.t, p).0;
      o in s.purchases && Moves(w.t.purchases[o], s.purchases[o], steps)
  {
    hide CreditPaidOrder, PaymentsOk, EnergyOk, AccountsOk, LedgerOk, MoneyOk, StatusIsJoin, Validate, CreditShape, LegalPath;
    var s := CreditPaidOrder(w.t, p).0;
    steps := [];
    Stays(w.t.purchases[o]);
    if p in w.t.purchases { JoinKnown(w, p); }
    CreditShaped(w.t, p);
    if s != w.t {
      var x :| CreditShape(w.t, s, p, x);
      CreditMove(w.t, s, p, x);
      if o == p { steps := [PCredited]; OneStep(PPaid, PCredited); }
    }
  }

  lemma CreditMove(t: Tables, s: Tables, p: Id, x: Txid)
    requires CreditShape(t, s, p, x)
    ensures t.purchases[p].state == PPaid && s.purchases == t.purchases[p := t.purchases[p].(state := PCredited)]
  {
  }

  // ---- credits ----

  // Credited orders and purchase_credit rows are one to one, and each row names the one confirmed payment of its order,
  // for exactly the amount quoted; two credits never share a payment.
  lemma CreditsAreOneToOne(events: seq<Event>, o: Id)
    requires o in Run(INITIAL, events).t.purchases
    ensures var t := Run(INITIAL, events).t; var key := LedgerKey(RPurchaseCredit, o);
      && (t.purchases[o].state == PCredited <==> key in t.ledger)
      && (forall k :: k in t.ledger && t.ledger[k].reason == RPurchaseCredit && t.ledger[k].purchase == Some(o) ==> k == key)
      && (key in t.ledger ==>
            exists x :: t.ledger[key] == CreditEntry(t, o, x) && ConfirmedRow(t, x, o) && ConfirmedFor(t, o) == {x}
              && t.payments[x].amount == t.purchases[o].terms.quoted
              && forall k :: k in t.ledger && k != key ==> t.ledger[k].payment != Some(x))
  {
    hide WorldOk, ReportsOk, EnergyOk, MoneyOk, AccountsOk, Run, StatusIsJoin, Validate, LedgerOk, PaymentsOk, CreditsFor, ConfirmedFor;
    var w := Run(INITIAL, events);
    Reachable(events);
    WorldParts(w);
    JoinKnown(w, o);
    CreditRowOf(w.t, o);
    if w.t.purchases[o].state == PCredited {
      var x := OneConfirmed(w.t, o);
      CreditedEntry(w.t, o, x);
      PaidWhatWasAsked(w, x, o);
      PaymentOfOne(w.t, o, x);
    }
  }

  lemma CreditRowOf(t: Tables, o: Id)
    requires LedgerOk(t) && o in t.purchases
    ensures t.purchases[o].state == PCredited <==> LedgerKey(RPurchaseCredit, o) in t.ledger
    ensures forall k :: k in t.ledger && t.ledger[k].reason == RPurchaseCredit && t.ledger[k].purchase == Some(o)
              ==> k == LedgerKey(RPurchaseCredit, o)
  {
    assert LedgerKey(RPurchaseCredit, o) in t.ledger <==> Due(t, LedgerKey(RPurchaseCredit, o));
    forall k | k in t.ledger && t.ledger[k].reason == RPurchaseCredit && t.ledger[k].purchase == Some(o)
      ensures k == LedgerKey(RPurchaseCredit, o)
    {
      assert Due(t, k) && EntryOk(t, k, t.ledger[k]);
    }
  }

  lemma PaymentOfOne(t: Tables, o: Id, x: Txid)
    requires LedgerOk(t) && ConfirmedRow(t, x, o)
    ensures forall k :: k in t.ledger && k != LedgerKey(RPurchaseCredit, o) ==> t.ledger[k].payment != Some(x)
  {
    forall k | k in t.ledger && k != LedgerKey(RPurchaseCredit, o) ensures t.ledger[k].payment != Some(x) {
      assert Due(t, k) && EntryOk(t, k, t.ledger[k]);
    }
  }

  lemma PaidWhatWasAsked(w: World, x: Txid, o: Id)
    requires PaymentsOk(w) && RowOf(w.t, x, o)
    ensures o in w.t.purchases && w.t.payments[x].amount == w.t.purchases[o].terms.quoted
  {
    hide StatusIsJoin;
    assert RowOk(w.t, x);
  }

  predicate Creditable(t: Tables, o: Id) {
    && o in t.purchases
    && if t.purchases[o].state == PPaid
       then t.purchases[o].user in t.balances && t.balances[t.purchases[o].user].available + t.purchases[o].terms.count <= INT4_MAX
       else t.purchases[o].state == PCredited
  }

  // Crediting any order on any reachable tables succeeds for a paid order, unless the balance would leave 32 bits,
  // replays the same answer for a credited one, and never answers a conflict.
  lemma CreditNeverConflicts(events: seq<Event>, o: Id)
    ensures var t := Run(INITIAL, events).t; var (s, r) := CreditPaidOrder(t, o);
      && (r.CreditOrderNotFound? || r.NotReady? || r.Credited? || r.CreditThrows?)
      && (r.CreditThrows? ==> s == t && t.balances[t.purchases[o].user].available + t.purchases[o].terms.count > INT4_MAX)
      && (r.Credited? <==> Creditable(t, o))
      && (r.Credited? && r.created <==> s != t)
  {
    var w := Run(INITIAL, events);
    Reachable(events);
    WorldParts(w);
    if o in w.t.purchases { JoinKnown(w, o); }
    hide WorldOk, ReportsOk, EnergyOk, MoneyOk, PaymentsOk, Run, StatusIsJoin, Validate, CreditPaidOrder;
    assert o in w.t.purchases ==> w.t.purchases[o].user in w.t.balances;
    CreditAnswers(w.t, o);
  }
}
