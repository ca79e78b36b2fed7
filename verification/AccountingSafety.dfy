// Every reachable state of the accounting machine is sound.
module AccountingSafety {
  import opened Prelude
  import opened Chain
  import opened EnergyOrders
  import opened PurchasePayment
  import opened PaymentPlan
  import opened Tables
  import opened PaymentLifecycle
  import opened EnergyUsage
  import opened Accounting
  import opened PaymentInvariants
  import opened LedgerInvariants
  import opened Sums

  // ---- delivery reports ----

  function Rank(s: DeliveryStatus): nat {
    match s
    case DPending => 0
    case DUnknown => 1
    case DAccepted => 2
    case DProcessing => 3
    case _ => 4
  }

  // The highest of some reports.
  function Join(reports: seq<DeliveryStatus>): DeliveryStatus {
    if reports == [] then DPending
    else
      var before, last := Join(reports[..|reports| - 1]), reports[|reports| - 1];
      if Rank(before) < Rank(last) then last else before
  }

  predicate ReportsFit(order: EnergyOrder, reports: seq<DeliveryStatus>) {
    && (order.state == OReserved ==> reports == [])
    && (order.state == OCompleted ==> DCompleted in reports)
    && (order.state == OReleased ==> DFailed in reports)
    && (order.state == ODispatching && order.delivery.Some? ==>
          DCompleted !in reports && DFailed !in reports && order.delivery.value.delivery.status == Join(reports))
  }

  ghost predicate ReportsOk(w: World) {
    && (forall id :: id in w.t.energy ==> ReportsFit(w.t.energy[id], Reports(w, id)))
    && (forall id :: id in w.reported ==> id in w.t.energy)
  }

  ghost predicate WorldOk(w: World) { PaymentsOk(w) && TablesOk(w.t) && ReportsOk(w) }

  lemma MergeIsHigher(current: DeliveryStatus, incoming: DeliveryStatus)
    requires incoming in {DUnknown, DAccepted, DProcessing} && current !in {DCompleted, DFailed}
    ensures Merge(current, incoming) == Ok(if Rank(current) < Rank(incoming) then incoming else current)
  {
  }

  lemma JoinOpen(reports: seq<DeliveryStatus>)
    requires DCompleted !in reports && DFailed !in reports
    ensures Join(reports) !in {DCompleted, DFailed}
  {
    if reports != [] { JoinOpen(reports[..|reports| - 1]); }
  }

  lemma ReportJoins(order: EnergyOrder, providerOrderId: Option<Tx>, report: DeliveryStatus, reports: seq<DeliveryStatus>)
    requires DeliveryFits(order) && order.delivery.Some? && report != DPending && ReportsFit(order, reports)
    requires ApplyReport(order.state, order.delivery.value.delivery, providerOrderId, report).Ok?
    ensures var a := ApplyReport(order.state, order.delivery.value.delivery, providerOrderId, report).value;
      forall provider :: ReportsFit(order.(state := a.state, delivery := Some(DeliveryRow(provider, a.delivery))), reports + [report])
  {
    assert (reports + [report])[..|reports|] == reports;
    assert report in reports + [report];
    if order.state == ODispatching {
      JoinOpen(reports);
      if report in {DUnknown, DAccepted, DProcessing} { MergeIsHigher(order.delivery.value.delivery.status, report); }
    }
  }

  // ---- the credit ----

  // A paid order has exactly one confirmed payment.
  lemma OneConfirmed(t: Tables, o: Id) returns (x: Txid)
    requires o in t.purchases && StatusIsJoin(t, o) && t.purchases[o].state in {PPaid, PCredited}
    ensures ConfirmedFor(t, o) == {x} && ConfirmedRow(t, x, o)
  {
    x :| RowOf(t, x, o) && RowLevel(t.payments[x].status) == 3;
    assert Decided(t, x, o);
    forall y | y in ConfirmedFor(t, o) ensures y == x { assert Decided(t, y, o); }
  }

  // The credit rows of an order or of its payment: its own one, once it is credited, and no other.
  lemma CreditRows(t: Tables, o: Id, x: Txid)
    requires LedgerOk(t) && o in t.purchases && ConfirmedRow(t, x, o)
    ensures CreditsFor(t, o, x) == if t.purchases[o].state == PCredited then {LedgerKey(RPurchaseCredit, o)} else {}
    ensures t.purchases[o].state != PCredited ==> LedgerFree(t, LedgerKey(RPurchaseCredit, o), CreditEntry(t, o, x))
  {
    var key := LedgerKey(RPurchaseCredit, o);
    forall k | k in t.ledger && t.ledger[k].reason == RPurchaseCredit && (t.ledger[k].purchase == Some(o) || t.ledger[k].payment == Some(x))
      ensures k == key
    {
      assert EntryOk(t, k, t.ledger[k]);
    }
    assert key in t.ledger <==> Due(t, key);
    if key in t.ledger { assert EntryOk(t, key, t.ledger[key]); }
  }

  lemma SetOfOne<T(!new)>(s: set<T>, x: T)
    requires s == {x}
    ensures |s| == 1 && Only(s) == x
  {
  }

  // Whether and how a paid order is credited, on sound tables: nothing is ever in conflict.
  lemma CreditAnswers(t: Tables, o: Id)
    requires LedgerOk(t) && AccountsOk(t) && (o in t.purchases ==> StatusIsJoin(t, o))
    ensures var r := CreditPaidOrder(t, o).1;
      if o !in t.purchases then r == CreditOrderNotFound
      else if t.purchases[o].state !in {PPaid, PCredited} then r == NotReady(t.purchases[o].state)
      else
        var available := t.balances[t.purchases[o].user].available;
        exists x :: ConfirmedRow(t, x, o) && ConfirmedFor(t, o) == {x} && CreditPaidOrder(t, o) == CreditWith(t, o, x) &&
          if t.purchases[o].state == PCredited then r == Credited(false, x, available)
          else if available + t.purchases[o].terms.count > INT4_MAX then r == CreditThrows
          else r == Credited(true, x, available + t.purchases[o].terms.count)
    ensures CreditPaidOrder(t, o).1.Credited? && CreditPaidOrder(t, o).1.created <==> CreditPaidOrder(t, o).0 != t
  {
    if o in t.purchases && t.purchases[o].state in {PPaid, PCredited} {
      var x := OneConfirmed(t, o);
      SetOfOne(ConfirmedFor(t, o), x);
      CreditRows(t, o, x);
      if t.purchases[o].state == PCredited {
        CreditedEntry(t, o, x);
        SetOfOne(CreditsFor(t, o, x), LedgerKey(RPurchaseCredit, o));
      }
      hide LedgerOk, StatusIsJoin, CreditsFor, ConfirmedFor, LedgerFree;
      assert t.purchases[o].user in t.balances;
      assert CreditPaidOrder(t, o) == CreditWith(t, o, x);
    }
  }

  lemma CreditedEntry(t: Tables, o: Id, x: Txid)
    requires LedgerOk(t) && o in t.purchases && t.purchases[o].state == PCredited && ConfirmedFor(t, o) == {x}
    ensures LedgerKey(RPurchaseCredit, o) in t.ledger && t.ledger[LedgerKey(RPurchaseCredit, o)] == CreditEntry(t, o, x)
  {
    var key := LedgerKey(RPurchaseCredit, o);
    assert Due(t, key);
    assert EntryOk(t, key, t.ledger[key]);
    assert t.ledger[key].payment.value in ConfirmedFor(t, o);
  }

  predicate CreditShape(t: Tables, s: Tables, o: Id, x: Txid) {
    && o in t.purchases && t.purchases[o].state == PPaid && t.purchases[o].terms.count > 0
    && ConfirmedRow(t, x, o)
    && var p := t.purchases[o];
      && Moved(t, s, p.user, LedgerKey(RPurchaseCredit, o), CreditEntry(t, o, x))
      && s == t.(balances := s.balances, purchases := t.purchases[o := p.(state := PCredited)], ledger := s.ledger)
  }

  lemma CreditShaped(t: Tables, o: Id)
    requires LedgerOk(t) && AccountsOk(t) && MoneyOk(t) && (o in t.purchases ==> StatusIsJoin(t, o))
    ensures var s := CreditPaidOrder(t, o).0; s == t || exists x :: CreditShape(t, s, o, x)
  {
    CreditAnswers(t, o);
    if o in t.purchases && t.purchases[o].state in {PPaid, PCredited} {
      var x :| ConfirmedRow(t, x, o) && ConfirmedFor(t, o) == {x} && CreditPaidOrder(t, o) == CreditWith(t, o, x);
      CreditRows(t, o, x);
      assert t.purchases[o].user in t.balances && Balanced(t, t.purchases[o].user);
      hide LedgerOk, AccountsOk, MoneyOk, Balanced, StatusIsJoin, ConfirmedFor, CreditPaidOrder, CreditWith, CreditShape, CreditsFor;
      CreditWithShape(t, o, x);
    }
  }

  lemma CreditWithShape(t: Tables, o: Id, x: Txid)
    requires o in t.purchases && t.purchases[o].terms.count > 0 && ConfirmedRow(t, x, o)
    requires t.purchases[o].state in {PPaid, PCredited}
    requires t.purchases[o].user in t.balances && t.balances[t.purchases[o].user].reserved <= INT4_MAX
    ensures var s := CreditWith(t, o, x).0; s == t || CreditShape(t, s, o, x)
  {
    hide CreditsFor, LedgerFree;
    if LedgerFree(t, LedgerKey(RPurchaseCredit, o), CreditEntry(t, o, x)) {
      FreeIsNew(t, LedgerKey(RPurchaseCredit, o), CreditEntry(t, o, x));
    }
  }

  lemma CreditShapeOk(w: World, s: Tables, o: Id, x: Txid)
    requires WorldOk(w) && CreditShape(w.t, s, o, x) && o !in w.pending
    ensures WorldOk(w.(t := s))
  {
    CreditPayments(w, s, o, x);
    hide PaymentsOk, WorldOk;
    assert TablesOk(s) && ReportsOk(w.(t := s)) by {
      assert TablesOk(w.t) && ReportsOk(w) by { WorldParts(w); }
      CreditTables(w.t, s, o, x);
      assert s.energy == w.t.energy;
      hide TablesOk;
      CreditReports(w, s);
    }
    WorldWhole(w.(t := s));
  }

  lemma WorldParts(w: World)
    requires WorldOk(w)
    ensures PaymentsOk(w) && TablesOk(w.t) && ReportsOk(w)
  {
  }

  lemma WorldWhole(w: World)
    requires PaymentsOk(w) && TablesOk(w.t) && ReportsOk(w)
    ensures WorldOk(w)
  {
  }

  lemma CreditReports(w: World, s: Tables)
    requires ReportsOk(w) && s.energy == w.t.energy
    ensures ReportsOk(w.(t := s))
  {
    var v := w.(t := s);
    forall id | id in v.t.energy ensures ReportsFit(v.t.energy[id], Reports(v, id)) {
      assert Reports(v, id) == Reports(w, id);
    }
  }

  lemma CreditPayments(w: World, s: Tables, o: Id, x: Txid)
    requires PaymentsOk(w) && CreditShape(w.t, s, o, x) && o !in w.pending
    ensures PaymentsOk(w.(t := s))
  {
    hide StatusIsJoin, Validate, Moved, Expected, PlanFor;
    var v := w.(t := s);
    forall p | p in s.purchases ensures StatusIsJoin(s, p) && Validate(s.purchases[p].terms).None? {
      NeverCreated(w.t, p);
      UntouchedIsJoin(w.t, s, p);
    }
    forall y | y in s.payments ensures RowOk(s, y) { assert RowOk(w.t, y); }
    forall p | p in v.pending ensures PendingOk(v, p) { assert PendingOk(w, p); }
  }

  lemma NeverCreated(t: Tables, o: Id)
    requires o in t.purchases && StatusIsJoin(t, o)
    ensures t.purchases[o].state != PCreated
  {
  }

  lemma CreditTables(t: Tables, s: Tables, o: Id, x: Txid)
    requires TablesOk(t) && CreditShape(t, s, o, x)
    ensures TablesOk(s)
  {
    hide EnergyOk, AccountsOk, LedgerOk, MoneyOk;
    CreditLedger(t, s, o, x);
    CreditAccounts(t, s, o, x);
    PurchaseMoved(t, s, LedgerKey(RPurchaseCredit, o), CreditEntry(t, o, x), o, s.purchases[o]);
    CreditEnergy(t, s);
  }

  lemma CreditEnergy(t: Tables, s: Tables)
    requires EnergyOk(t) && s.energy == t.energy && s.energyByKey == t.energyByKey && s.balances.Keys >= t.balances.Keys
    ensures EnergyOk(s)
  {
  }

  lemma CreditAccounts(t: Tables, s: Tables, o: Id, x: Txid)
    requires AccountsOk(t) && CreditShape(t, s, o, x)
    ensures AccountsOk(s)
  {
  }

  lemma CreditLedger(t: Tables, s: Tables, o: Id, x: Txid)
    requires LedgerOk(t) && CreditShape(t, s, o, x)
    ensures LedgerOk(s)
  {
    var key := LedgerKey(RPurchaseCredit, o);
    forall j ensures j in s.ledger <==> Due(s, j) { assert j in t.ledger <==> Due(t, j); }
    forall j | j in s.ledger ensures EntryOk(s, j, s.ledger[j]) {
      if j != key { assert EntryOk(t, j, t.ledger[j]); }
    }
  }

  // ---- payment evidence leaves the ledger alone ----

  ghost predicate EvidenceOnly(t: Tables, s: Tables) {
    && s == t.(payments := s.payments, purchases := s.purchases)
    && s.purchases.Keys == t.purchases.Keys
    && (forall o :: o in t.purchases ==>
          && s.purchases[o] == t.purchases[o].(state := s.purchases[o].state)
          && (s.purchases[o].state == PCredited <==> t.purchases[o].state == PCredited))
    && (forall x, o :: ConfirmedRow(t, x, o) ==> ConfirmedRow(s, x, o))
  }

  lemma EvidenceTables(t: Tables, s: Tables)
    requires TablesOk(t) && EvidenceOnly(t, s)
    ensures TablesOk(s)
  {
    CreditEnergy(t, s);
    EvidenceLedger(t, s);
    EvidenceMoney(t, s);
    assert AccountsOk(s) by { hide LedgerOk, MoneyOk, EnergyOk; }
  }

  lemma EvidenceLedger(t: Tables, s: Tables)
    requires LedgerOk(t) && EvidenceOnly(t, s)
    ensures LedgerOk(s)
  {
    forall j ensures j in s.ledger <==> Due(s, j) { assert j in t.ledger <==> Due(t, j); }
    forall j | j in s.ledger ensures EntryOk(s, j, s.ledger[j]) { assert EntryOk(t, j, t.ledger[j]); }
  }

  lemma EvidenceMoney(t: Tables, s: Tables)
    requires MoneyOk(t) && EvidenceOnly(t, s)
    ensures MoneyOk(s)
  {
    hide Sum;
    forall u | u in s.balances ensures Balanced(s, u) {
      assert Balanced(t, u);
      SameBought(t, s, u);
    }
  }

  lemma SameBought(t: Tables, s: Tables, u: User)
    requires EvidenceOnly(t, s)
    ensures Sum(s.purchases, BoughtOf(u)) == Sum(t.purchases, BoughtOf(u))
  {
    assert Weigh(s.purchases, BoughtOf(u)) == Weigh(t.purchases, BoughtOf(u)) by {
      forall o | o in t.purchases ensures BoughtOf(u)(s.purchases[o]) == BoughtOf(u)(t.purchases[o]) {}
    }
  }

  lemma WrittenEvidence(t: Tables, s: Tables, o: Id, x: Txid, plan: Plan)
    requires o in t.purchases && PlanFits(t.purchases[o].state, plan) && RowWritten(t, s, o, x, plan)
    requires s == t.(payments := s.payments, purchases := s.purchases)
    ensures EvidenceOnly(t, s)
  {
  }

  lemma EvidenceOk(w: World, v: World)
    requires WorldOk(w) && PaymentsOk(v) && v.reported == w.reported && EvidenceOnly(w.t, v.t)
    ensures WorldOk(v)
  {
    hide PaymentsOk, TablesOk;
    EvidenceTables(w.t, v.t);
    EvidenceReports(w, v);
  }

  lemma EvidenceReports(w: World, v: World)
    requires ReportsOk(w) && v.reported == w.reported && v.t.energy == w.t.energy
    ensures ReportsOk(v)
  {
    forall id | id in v.t.energy ensures ReportsFit(v.t.energy[id], Reports(v, id)) {
      assert Reports(v, id) == Reports(w, id);
    }
  }

  lemma BeginEvidence(w: World, o: Id, observed: Observed, now: nat)
    requires PaymentsOk(w) && o !in w.pending
    ensures EvidenceOnly(w.t, Observing(w, o, observed, now).t)
  {
    var v := Observing(w, o, observed, now);
    if v.t != w.t {
      var purchase := w.t.purchases[o];
      var evaluation := Evaluate(Expected(purchase.terms).value, observed);
      var current := Some(w.t.payments[observed.txid].status);
      var plan := PlanFor(evaluation, purchase.state, current);
      hide StatusIsJoin, Evaluate, PlanFor, PlanFits, EvidenceOnly, RowWritten;
      PlanFitsState(evaluation, purchase.state, current);
      BegunApplies(w, o, observed, plan, now);
      AppliedFits(w.t, o, observed, plan, now);
      KnownWritten(w, o, observed, plan, now);
      WrittenEvidence(w.t, v.t, o, observed.txid, plan);
    }
  }

  lemma BegunApplies(w: World, o: Id, observed: Observed, plan: Plan, now: nat)
    requires Observing(w, o, observed, now).t != w.t && o in w.t.purchases && Expected(w.t.purchases[o].terms).Some?
    requires observed.txid in w.t.payments
    requires plan == PlanFor(Evaluate(Expected(w.t.purchases[o].terms).value, observed), w.t.purchases[o].state,
                             Some(w.t.payments[observed.txid].status))
    ensures plan.ApplyPlan? && RowConflict(w.t.payments[observed.txid], o, observed).None?
    ensures Observing(w, o, observed, now).t == ApplyLocked(w.t, o, w.t.purchases[o].state, observed, plan, now).0
  {
    hide Evaluate, PlanFor, ApplyLocked;
  }

  lemma AppliedFits(t: Tables, o: Id, observed: Observed, plan: Plan, now: nat)
    requires o in t.purchases && observed.txid in t.payments && plan.ApplyPlan?
    requires ApplyLocked(t, o, t.purchases[o].state, observed, plan, now).0 != t
    ensures FitsColumns(MergedPayment(t.payments[observed.txid], o, observed, plan.status, now))
  {
  }

  lemma FinishEvidence(w: World, o: Id, now: nat)
    requires PaymentsOk(w) && o in w.pending
    ensures PaymentsOk(Inserted(w, o, now)) && EvidenceOnly(w.t, Inserted(w, o, now).t)
  {
    hide PaymentsOk, StatusIsJoin, PlanFor, PlanFits, RowWritten, FinishObservation, ApplyLocked, EvidenceOnly, FitsColumns;
    PendingFacts(w, o);
    FinishCases(w, o, now);
    var p, s := w.pending[o], Inserted(w, o, now).t;
    if p.observed.txid !in w.t.payments && FitsColumns(NewPayment(o, p.observed, p.plan.status, now)) {
      FinishWritten(w, o, now);
      WrittenEvidence(w.t, s, o, p.observed.txid, p.plan);
    } else {
      assert s == w.t;
      NoEvidence(w.t);
    }
  }

  lemma NoEvidence(t: Tables)
    ensures EvidenceOnly(t, t)
  {
  }

  lemma PendingFacts(w: World, o: Id)
    requires PaymentsOk(w) && o in w.pending
    ensures var p := w.pending[o];
      && o in w.t.purchases && p.plan.ApplyPlan? && w.t.purchases[o].state == p.state && StatusIsJoin(w.t, o)
      && PlanFits(p.state, p.plan)
  {
    hide StatusIsJoin, PlanFor, Validate, Expected;
    assert PendingOk(w, o);
    PlanFitsState(w.pending[o].evaluation, w.pending[o].state, None);
  }

  lemma FinishWritten(w: World, o: Id, now: nat)
    requires o in w.pending && o in w.t.purchases && w.pending[o].plan.ApplyPlan? && StatusIsJoin(w.t, o)
    requires w.t.purchases[o].state == w.pending[o].state && PlanFits(w.pending[o].state, w.pending[o].plan)
    requires w.pending[o].observed.txid !in w.t.payments
    requires FitsColumns(NewPayment(o, w.pending[o].observed, w.pending[o].plan.status, now))
    ensures var p, s := w.pending[o], Inserted(w, o, now).t;
      RowWritten(w.t, s, o, p.observed.txid, p.plan) && s == w.t.(payments := s.payments, purchases := s.purchases)
  {
    var p := w.pending[o];
    NoneConfirmed(w.t, o, p.observed.txid, p.plan.status);
    hide StatusIsJoin, ApplyLocked, PlanFits, RowWritten;
    var base := w.t.(payments := w.t.payments[p.observed.txid := NewPayment(o, p.observed, p.plan.status, now)]);
    ApplyLockedOk(w.t, o, p.observed, p.plan, now, base);
  }

  // ---- the other events ----

  // Payment rows stay, and no purchase changes its terms or, while an observation is pending for it, its state.
  lemma RowsFrame(w: World, v: World)
    requires PaymentsOk(w) && v.t.payments == w.t.payments && v.pending == w.pending
    requires forall o :: o in w.t.purchases ==> o in v.t.purchases && v.t.purchases[o].terms == w.t.purchases[o].terms
    requires forall o :: o in w.t.purchases && o in w.pending ==> v.t.purchases[o].state == w.t.purchases[o].state
    ensures forall x :: x in v.t.payments ==> RowOk(v.t, x)
    ensures forall o :: o in v.pending ==> PendingOk(v, o)
  {
    hide Validate, Expected, PlanFor, StatusIsJoin, Evaluate, Matches, Asked;
    forall x | x in v.t.payments ensures RowOk(v.t, x) { assert RowOk(w.t, x); }
    forall o | o in v.pending ensures PendingOk(v, o) { assert PendingOk(w, o); }
  }

  lemma JoinKnown(w: World, o: Id)
    requires PaymentsOk(w) && o in w.t.purchases
    ensures StatusIsJoin(w.t, o) && w.t.purchases[o].state != PCreated && Validate(w.t.purchases[o].terms).None?
  {
    hide Validate;
  }

  lemma PaymentsFrame(w: World, v: World)
    requires PaymentsOk(w) && v.t.purchases == w.t.purchases && v.t.payments == w.t.payments && v.pending == w.pending
    ensures PaymentsOk(v)
  {
    RowsFrame(w, v);
    forall o | o in v.t.purchases ensures StatusIsJoin(v.t, o) && Validate(v.t.purchases[o].terms).None? {
      JoinKnown(w, o);
      hide StatusIsJoin, Validate, PaymentsOk;
      UntouchedIsJoin(w.t, v.t, o);
    }
    hide StatusIsJoin, Validate, RowOk, PendingOk;
  }

  // Events that touch neither purchases nor reports.
  lemma TablesOnly(w: World, s: Tables)
    requires WorldOk(w) && TablesOk(s) && s.purchases == w.t.purchases && s.payments == w.t.payments && s.energy == w.t.energy
    ensures WorldOk(w.(t := s))
  {
    hide PaymentsOk, TablesOk, ReportsOk;
    PaymentsFrame(w, w.(t := s));
    EvidenceReports(w, w.(t := s));
  }

  lemma OnboardOk(t: Tables, user: User)
    requires TablesOk(t)
    ensures TablesOk(AddUser(t, user))
  {
    hide EnergyOk, LedgerOk, MoneyOk, AccountsOk;
    var s := AddUser(t, user);
    OnboardAccounts(t, user);
    CreditEnergy(t, s);
    OnboardLedger(t, s);
    OnboardMoney(t, user);
  }

  lemma OnboardAccounts(t: Tables, user: User)
    requires AccountsOk(t)
    ensures AccountsOk(AddUser(t, user))
  {
  }

  lemma OnboardMoney(t: Tables, user: User)
    requires TablesOk(t)
    ensures MoneyOk(AddUser(t, user))
  {
    hide Sum, EnergyOk, LedgerOk, AccountsOk;
    var s := AddUser(t, user);
    forall u | u in s.balances ensures Balanced(s, u) {
      if u in t.balances { assert Balanced(t, u); } else { NothingYet(t, u); }
    }
  }

  lemma OnboardLedger(t: Tables, s: Tables)
    requires LedgerOk(t) && s.ledger == t.ledger && s.energy == t.energy && s.purchases == t.purchases && s.payments == t.payments
    ensures LedgerOk(s)
  {
    forall j ensures j in s.ledger <==> Due(s, j) { assert j in t.ledger <==> Due(t, j); }
    forall j | j in s.ledger ensures EntryOk(s, j, s.ledger[j]) { assert EntryOk(t, j, t.ledger[j]); }
  }

  lemma NothingYet(t: Tables, u: User)
    requires EnergyOk(t) && AccountsOk(t) && LedgerOk(t) && u !in t.balances
    ensures Sum(t.ledger, AvailableOf(u)) == 0 && Sum(t.ledger, ReservedOf(u)) == 0
    ensures Sum(t.energy, HeldOf(u)) == 0 && Sum(t.energy, SpentOf(u)) == 0 && Sum(t.purchases, BoughtOf(u)) == 0
  {
    forall k | k in t.ledger ensures t.ledger[k].user != u { assert EntryOk(t, k, t.ledger[k]) && Due(t, k); }
    SumNone(t.ledger, AvailableOf(u));
    SumNone(t.ledger, ReservedOf(u));
    SumNone(t.energy, HeldOf(u));
    SumNone(t.energy, SpentOf(u));
    SumNone(t.purchases, BoughtOf(u));
  }

  lemma SettingsOk(t: Tables, s: Tables)
    requires TablesOk(t) && s == t.(blocked := s.blocked, options := s.options) && s.blocked.Keys == t.blocked.Keys
    requires forall o :: o in s.options ==> s.options[o].cost > 0
    ensures TablesOk(s)
  {
    hide EnergyOk, LedgerOk, MoneyOk, AccountsOk;
    CreditEnergy(t, s);
    OnboardLedger(t, s);
    SettingsAccounts(t, s);
    SameMoney(t, s);
  }

  lemma SettingsAccounts(t: Tables, s: Tables)
    requires AccountsOk(t) && s == t.(blocked := s.blocked, options := s.options) && s.blocked.Keys == t.blocked.Keys
    requires forall o :: o in s.options ==> s.options[o].cost > 0
    ensures AccountsOk(s)
  {
  }

  lemma SameMoney(t: Tables, s: Tables)
    requires MoneyOk(t) && s.ledger == t.ledger && s.energy == t.energy && s.purchases == t.purchases && s.balances == t.balances
    ensures MoneyOk(s)
  {
    hide Sum;
    forall u | u in s.balances ensures Balanced(s, u) { assert Balanced(t, u); }
  }

  lemma PlaceOk(w: World, o: Id, user: User, terms: Snapshot)
    requires WorldOk(w) && Placeable(w.t, o, user, terms)
    ensures WorldOk(w.(t := w.t.(purchases := w.t.purchases[o := Purchase(user, PWaiting, terms)])))
  {
    var s := w.t.(purchases := w.t.purchases[o := Purchase(user, PWaiting, terms)]);
    PlacePayments(w, s, o);
    hide PaymentsOk;
    PlaceTables(w.t, s, o);
    EvidenceReports(w, w.(t := s));
  }

  lemma PlacePayments(w: World, s: Tables, o: Id)
    requires PaymentsOk(w) && o !in w.t.purchases && o in s.purchases && s == w.t.(purchases := w.t.purchases[o := s.purchases[o]])
    requires s.purchases[o].state == PWaiting && Validate(s.purchases[o].terms).None?
    ensures PaymentsOk(w.(t := s))
  {
    hide PaymentsOk, StatusIsJoin, Validate, RowOk, PendingOk;
    var v := w.(t := s);
    RowsFrame(w, v);
    forall p | p in s.purchases ensures StatusIsJoin(s, p) && Validate(s.purchases[p].terms).None? {
      if p != o { JoinOther(w, s, p); } else { FreshJoin(w, s, o); }
    }
    Whole(v);
  }

  lemma Whole(w: World)
    requires forall o :: o in w.t.purchases ==> StatusIsJoin(w.t, o) && Validate(w.t.purchases[o].terms).None?
    requires forall x :: x in w.t.payments ==> RowOk(w.t, x)
    requires forall o :: o in w.pending ==> PendingOk(w, o)
    ensures PaymentsOk(w)
  {
    hide StatusIsJoin, Validate, RowOk, PendingOk;
  }

  lemma FreshJoin(w: World, s: Tables, o: Id)
    requires PaymentsOk(w) && o !in w.t.purchases && o in s.purchases && s.payments == w.t.payments && s.purchases[o].state == PWaiting
    ensures StatusIsJoin(s, o)
  {
    hide Validate, Expected;
    forall x ensures !RowOf(s, x, o) {
      if x in w.t.payments { assert RowOk(w.t, x); }
    }
  }

  lemma JoinOther(w: World, s: Tables, p: Id)
    requires PaymentsOk(w) && p in w.t.purchases && p in s.purchases && s.payments == w.t.payments
    requires s.purchases[p].terms == w.t.purchases[p].terms
    requires s.purchases[p].state == w.t.purchases[p].state || (w.t.purchases[p].state == PWaiting && s.purchases[p].state == PExpired)
    ensures StatusIsJoin(s, p) && Validate(s.purchases[p].terms).None?
  {
    hide StatusIsJoin, Validate, PaymentsOk;
    JoinKnown(w, p);
    UntouchedIsJoin(w.t, s, p);
  }

  lemma PlaceTables(t: Tables, s: Tables, o: Id)
    requires TablesOk(t) && o !in t.purchases && o in s.purchases && s == t.(purchases := t.purchases[o := s.purchases[o]])
    requires s.purchases[o].state == PWaiting && s.purchases[o].user in t.blocked && s.purchases[o].terms.count > 0
    ensures TablesOk(s)
  {
    hide EnergyOk, LedgerOk, AccountsOk, MoneyOk;
    CreditEnergy(t, s);
    PlaceLedger(t, s, o);
    PlaceAccounts(t, s, o);
    NothingMoved(t, s, 0, EnergyOrder(0, "", "", "", 0, 0, OCreated, None), o, s.purchases[o]);
  }

  lemma PlaceAccounts(t: Tables, s: Tables, o: Id)
    requires AccountsOk(t) && o in s.purchases && s == t.(purchases := t.purchases[o := s.purchases[o]])
    requires s.purchases[o].user in t.blocked && s.purchases[o].terms.count > 0
    ensures AccountsOk(s)
  {
  }

  lemma PlaceLedger(t: Tables, s: Tables, o: Id)
    requires LedgerOk(t) && o !in t.purchases && o in s.purchases && s == t.(purchases := t.purchases[o := s.purchases[o]])
    requires s.purchases[o].state == PWaiting
    ensures LedgerOk(s)
  {
    forall j ensures j in s.ledger <==> Due(s, j) { assert j in t.ledger <==> Due(t, j); }
    forall j | j in s.ledger ensures EntryOk(s, j, s.ledger[j]) { assert EntryOk(t, j, t.ledger[j]); }
  }

  lemma ExpireOk(w: World, o: Id, at: int)
    requires WorldOk(w) && o !in w.pending
    ensures WorldOk(w.(t := ExpireWaiting(w.t, o, at).0))
  {
    var s := ExpireWaiting(w.t, o, at).0;
    if s != w.t {
      ExpirePayments(w, s, o);
      hide PaymentsOk, TablesOk;
      EvidenceOk(w, w.(t := s));
    }
  }

  lemma ExpirePayments(w: World, s: Tables, o: Id)
    requires PaymentsOk(w) && o !in w.pending && o in w.t.purchases && w.t.purchases[o].state == PWaiting
    requires s == w.t.(purchases := w.t.purchases[o := w.t.purchases[o].(state := PExpired)])
    ensures PaymentsOk(w.(t := s)) && EvidenceOnly(w.t, s)
  {
    hide PaymentsOk, StatusIsJoin, Validate, RowOk, PendingOk;
    var v := w.(t := s);
    RowsFrame(w, v);
    forall p | p in s.purchases ensures StatusIsJoin(s, p) && Validate(s.purchases[p].terms).None? { JoinOther(w, s, p); }
    Whole(v);
  }

  // ---- energy events ----

  // The energy table gains one row or has one row changed; reports may be added for it.
  lemma EnergyEvent(w: World, v: World, id: Id)
    requires WorldOk(w) && TablesOk(v.t) && v.t.purchases == w.t.purchases && v.t.payments == w.t.payments && v.pending == w.pending
    requires id in v.t.energy && v.t.energy == w.t.energy[id := v.t.energy[id]]
    requires v.reported == w.reported || v.reported == w.reported[id := Reports(v, id)]
    requires ReportsFit(v.t.energy[id], Reports(v, id))
    ensures WorldOk(v)
  {
    hide PaymentsOk, TablesOk, ReportsFit, Reports;
    PaymentsFrame(w, v);
    EnergyReports(w, v, id);
  }

  lemma EnergyReports(w: World, v: World, id: Id)
    requires ReportsOk(w) && id in v.t.energy && v.t.energy == w.t.energy[id := v.t.energy[id]]
    requires v.reported == w.reported || v.reported == w.reported[id := Reports(v, id)]
    requires ReportsFit(v.t.energy[id], Reports(v, id))
    ensures ReportsOk(v)
  {
    hide ReportsFit;
    forall i | i in v.t.energy ensures ReportsFit(v.t.energy[i], Reports(v, i)) {
      if i != id { assert Reports(v, i) == Reports(w, i); }
    }
  }

  lemma ReserveEvent(w: World, input: ReserveInput, id: Id)
    requires WorldOk(w)
    ensures WorldOk(w.(t := Reserve(w.t, input, id).0))
  {
    hide TablesOk, PaymentsOk, Reserve, ReportsOk, ReportsFit;
    var v := w.(t := Reserve(w.t, input, id).0);
    ReserveOk(w.t, input, id);
    if v.t != w.t {
      ReserveNew(w.t, input, id);
      NotReported(w, id);
      NewFits(v.t.energy[id]);
      assert Reports(v, id) == [];
      EnergyEvent(w, v, id);
    }
  }

  lemma NotReported(w: World, id: Id)
    requires ReportsOk(w) && id !in w.t.energy
    ensures id !in w.reported
  {
  }

  lemma NewFits(order: EnergyOrder)
    requires order.state == OReserved || (order.state == ODispatching && order.delivery.Some? && order.delivery.value.delivery.status == DPending)
    ensures ReportsFit(order, [])
  {
  }

  lemma ReportsKnown(w: World, id: Id)
    requires ReportsOk(w) && id in w.t.energy
    ensures ReportsFit(w.t.energy[id], Reports(w, id)) && (w.t.energy[id].state == OReserved ==> Reports(w, id) == [])
  {
  }

  lemma ReserveNew(t: Tables, input: ReserveInput, id: Id)
    requires Reserve(t, input, id).0 != t
    ensures var s := Reserve(t, input, id).0;
      && id !in t.energy && id in s.energy && s.energy == t.energy[id := s.energy[id]] && s.energy[id].state == OReserved
  {
    hide LedgerFree;
  }

  lemma DispatchEvent(w: World, id: Id, provider: string)
    requires WorldOk(w)
    ensures WorldOk(w.(t := StartDispatch(w.t, id, provider).0))
  {
    hide TablesOk, PaymentsOk, ReportsOk, ReportsFit;
    var v := w.(t := StartDispatch(w.t, id, provider).0);
    StartDispatchOk(w.t, id, provider);
    if v.t != w.t {
      ReportsKnown(w, id);
      assert Reports(v, id) == [];
      NewFits(v.t.energy[id]);
      EnergyEvent(w, v, id);
    }
  }

  lemma ClaimEvent(w: World, id: Id, tx: Tx)
    requires WorldOk(w)
    ensures WorldOk(w.(t := ClaimProviderOrder(w.t, id, tx)))
  {
    hide EnergyOk, AccountsOk, LedgerOk, MoneyOk, PaymentsOk, ReportsOk, Reports, ReportsFit, DeliveryFits;
    var v := w.(t := ClaimProviderOrder(w.t, id, tx));
    if v.t != w.t {
      UserKnown(w.t, id);
      ClaimFits(w.t.energy[id], tx, Reports(w, id));
      ReportsKnown(w, id);
      ReportsSame(w, v, id);
      QuietOk(w.t, v.t, id);
      hide TablesOk;
      EnergyEvent(w, v, id);
    }
  }

  lemma ReportsSame(w: World, v: World, id: Id)
    requires v.reported == w.reported
    ensures Reports(v, id) == Reports(w, id)
  {
  }

  lemma ClaimFits(order: EnergyOrder, tx: Tx, reports: seq<DeliveryStatus>)
    requires DeliveryFits(order) && order.delivery.Some?
    ensures var row := order.delivery.value;
      var after := order.(delivery := Some(row.(delivery := row.delivery.(providerOrderId := Some(tx)))));
      DeliveryFits(after) && (ReportsFit(order, reports) ==> ReportsFit(after, reports))
  {
  }

  lemma DeliverEvent(w: World, id: Id, provider: string, providerOrderId: Option<Tx>, report: DeliveryStatus)
    requires WorldOk(w) && report != DPending && ApplyDelivery(w.t, id, provider, providerOrderId, report).Ok?
    ensures WorldOk(World(ApplyDelivery(w.t, id, provider, providerOrderId, report).value, w.pending,
                          w.reported[id := Reports(w, id) + [report]]))
  {
    hide EnergyOk, AccountsOk, LedgerOk, MoneyOk, PaymentsOk, ReportsOk, ApplyDelivery, ApplyReport, DeliveryFits, ReportsFit,
      SettleAs, Reports;
    ApplyDeliveryOk(w.t, id, provider, providerOrderId, report);
    UserKnown(w.t, id);
    ReportsKnown(w, id);
    ApplyDeliveryIs(w.t, id, provider, providerOrderId, report);
    var order := w.t.energy[id];
    ReportJoins(order, providerOrderId, report, Reports(w, id));
    var applied := ApplyReport(order.state, order.delivery.value.delivery, providerOrderId, report).value;
    SettleAsEnergy(w.t, id, applied);
    var v := World(ApplyDelivery(w.t, id, provider, providerOrderId, report).value, w.pending, w.reported[id := Reports(w, id) + [report]]);
    Reported(w, v, id, report);
    hide TablesOk;
    EnergyEvent(w, v, id);
  }

  lemma Reported(w: World, v: World, id: Id, report: DeliveryStatus)
    requires v.reported == w.reported[id := Reports(w, id) + [report]]
    ensures Reports(v, id) == Reports(w, id) + [report]
  {
  }

  lemma SettleAsEnergy(t: Tables, id: Id, applied: EnergyOrders.Applied)
    requires id in t.energy && t.energy[id].delivery.Some? && t.energy[id].user in t.balances && SettleAs(t, id, applied).Ok?
    ensures SettleAs(t, id, applied).value.energy == WithDelivery(t, id, applied).energy
  {
    hide LedgerFree;
  }

  lemma HandleOk(w: World, e: Event)
    requires WorldOk(w)
    ensures WorldOk(Handle(w, e))
  {
    hide PaymentsOk, EnergyOk, AccountsOk, LedgerOk, MoneyOk, ReportsOk, Reserve, StartDispatch, ApplyDelivery, CreditPaidOrder,
      ExpireWaiting, ClaimProviderOrder, Observing, Inserted, EvidenceOnly;
    match e
    case Onboard(user) => OnboardOk(w.t, user); TablesOnly(w, AddUser(w.t, user));
    case SetBlocked(user, blocked) => SettingsEvent(w, Handle(w, e).t);
    case SetOption(option, value) => OptionsKnown(w.t); SettingsEvent(w, Handle(w, e).t);
    case DisableOption(option) => OptionsKnown(w.t); SettingsEvent(w, Handle(w, e).t);
    case Place(o, user, terms) => if Placeable(w.t, o, user, terms) { PlaceOk(w, o, user, terms); }
    case Begin(o, observed, now) =>
      if o !in w.pending {
        BeginOk(w, o, observed, now);
        BeginEvidence(w, o, observed, now);
        ObservingReports(w, o, observed, now);
        EvidenceOk(w, Observing(w, o, observed, now));
      }
    case Finish(o, now) =>
      if o in w.pending {
        FinishEvidence(w, o, now);
        InsertedReports(w, o, now);
        EvidenceOk(w, Inserted(w, o, now));
      }
    case Abort(o) => PendingDropped(w, o); EvidenceReports(w, Handle(w, e));
    case Expire(o, at) => if o !in w.pending { ExpireOk(w, o, at); }
    case Credit(o) => if o !in w.pending { CreditEvent(w, o); }
    case ReserveUnits(input, id) => ReserveEvent(w, input, id);
    case Dispatch(id, provider) => DispatchEvent(w, id, provider);
    case Claim(id, tx) => ClaimEvent(w, id, tx);
    case Deliver(id, provider, poid, report) =>
      if report != DPending && ApplyDelivery(w.t, id, provider, poid, report).Ok? { DeliverEvent(w, id, provider, poid, report); }
  }

  lemma OptionsKnown(t: Tables)
    requires AccountsOk(t)
    ensures forall o :: o in t.options ==> t.options[o].cost > 0
  {
  }

  lemma SettingsEvent(w: World, s: Tables)
    requires WorldOk(w) && s == w.t.(blocked := s.blocked, options := s.options) && s.blocked.Keys == w.t.blocked.Keys
    requires s.options == w.t.options || forall o :: o in s.options ==> s.options[o].cost > 0
    ensures WorldOk(w.(t := s))
  {
    OptionsKnown(w.t);
    hide EnergyOk, AccountsOk, LedgerOk, MoneyOk, PaymentsOk, ReportsOk;
    SettingsOk(w.t, s);
    TablesOnly(w, s);
  }

  lemma ObservingReports(w: World, o: Id, observed: Observed, now: nat)
    ensures Observing(w, o, observed, now).reported == w.reported
  {
    hide BeginObservation, Evaluate, Expected;
  }

  lemma InsertedReports(w: World, o: Id, now: nat)
    requires o in w.pending
    ensures Inserted(w, o, now).reported == w.reported
  {
    hide FinishObservation;
  }

  lemma CreditEvent(w: World, o: Id)
    requires WorldOk(w) && o !in w.pending
    ensures WorldOk(w.(t := CreditPaidOrder(w.t, o).0))
  {
    var s := CreditPaidOrder(w.t, o).0;
    if o in w.t.purchases { assert StatusIsJoin(w.t, o) by { hide TablesOk; } }
    CreditShaped(w.t, o);
    if s != w.t {
      hide TablesOk, PaymentsOk, CreditPaidOrder, CreditShape;
      var x :| CreditShape(w.t, s, o, x);
      CreditShapeOk(w, s, o, x);
    }
  }

  lemma {:induction false} RunOk(w: World, events: seq<Event>)
    requires WorldOk(w)
    ensures WorldOk(Run(w, events))
    decreases |events|
  {
    if events != [] {
      HandleOk(w, events[0]);
      RunOk(Handle(w, events[0]), events[1..]);
    }
  }

  lemma InitialOk()
    ensures WorldOk(INITIAL)
  {
  }
}
