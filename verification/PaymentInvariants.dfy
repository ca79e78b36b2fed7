// Purchase orders against their payment rows: what every step of the accounting machine keeps.
module PaymentInvariants {
  import opened Prelude
  import opened PurchasePayment
  import opened PaymentPlan
  import opened Tables
  import opened PaymentLifecycle
  import opened Accounting

  predicate RowOf(t: Tables, x: Txid, o: Id) { x in t.payments && t.payments[x].order == Some(o) }

  function Verdict(s: PurchaseState): TxStatus { if s == PFailed then TRejected else TConfirmed }

  predicate Decided(t: Tables, x: Txid, o: Id) { RowOf(t, x, o) && RowLevel(t.payments[x].status) == 3 }

  // The status of an order is the join of the statuses of its rows; at the top there is exactly one verdict.
  ghost predicate StatusIsJoin(t: Tables, o: Id)
    requires o in t.purchases
  {
    var state := t.purchases[o].state;
    && state != PCreated
    && (forall x :: RowOf(t, x, o) ==> RowLevel(t.payments[x].status) <= Level(state))
    && (Level(state) > 0 ==> exists x :: RowOf(t, x, o) && RowLevel(t.payments[x].status) == Level(state))
    && (Level(state) == 3 ==>
          && (forall x :: Decided(t, x, o) ==> t.payments[x].status == Verdict(state))
          && (forall x, y :: Decided(t, x, o) && Decided(t, y, o) ==> x == y))
  }

  // A row belongs to an order and says what the order asked for.
  ghost predicate RowOk(t: Tables, x: Txid)
    requires x in t.payments
  {
    var row := t.payments[x];
    && row.order.Some? && row.order.value in t.purchases
    && Expected(t.purchases[row.order.value].terms).Some?
    && Asked(row, Expected(t.purchases[row.order.value].terms).value)
    && (row.confirmedAt.Some? <==> row.status == TConfirmed)
    && FitsColumns(row)
  }

  predicate Asked(row: Payment, e: Expectation) {
    row.asset == e.asset && row.token == e.token && row.toAddress == e.toAddress && row.amount == e.amount
  }

  predicate PendingOk(w: World, o: Id)
    requires o in w.pending
  {
    var p := w.pending[o];
    && !RowOf(w.t, p.observed.txid, o)
    && o in w.t.purchases && Open(p.state) && w.t.purchases[o].state == p.state
    && Expected(w.t.purchases[o].terms).Some?
    && Matches(Expected(w.t.purchases[o].terms).value, p.observed)
    && p.plan == PlanFor(p.evaluation, p.state, None) && p.plan.ApplyPlan?
  }

  ghost predicate PaymentsOk(w: World) {
    && (forall o :: o in w.t.purchases ==> StatusIsJoin(w.t, o) && Validate(w.t.purchases[o].terms).None?)
    && (forall x :: x in w.t.payments ==> RowOk(w.t, x))
    && (forall o :: o in w.pending ==> PendingOk(w, o))
  }

  // ---- one row of one open order is inserted or rises ----

  ghost predicate RowWritten(t: Tables, s: Tables, o: Id, x: Txid, plan: Plan)
    requires o in t.purchases && plan.ApplyPlan?
  {
    && x in s.payments && s.payments == t.payments[x := s.payments[x]]
    && s.payments[x].order == Some(o) && s.payments[x].status == plan.status
    && (x in t.payments ==> t.payments[x].order == Some(o) && MergeStatus(Some(t.payments[x].status), plan.status) == Some(plan.status))
    && s.purchases == t.purchases[o := t.purchases[o].(state := EndOf(t.purchases[o].state, plan.steps))]
  }

  predicate PlanFits(state: PurchaseState, plan: Plan) {
    && Open(state) && plan.ApplyPlan?
    && Level(EndOf(state, plan.steps)) == Max(Level(state), RowLevel(plan.status))
    && (EndOf(state, plan.steps) == PPaid <==> plan.status == TConfirmed)
    && (EndOf(state, plan.steps) == PFailed <==> plan.status == TRejected)
    && EndOf(state, plan.steps) in {PDetected, PConfirming, PPaid, PFailed}
  }

  lemma WrittenIsJoin(t: Tables, s: Tables, o: Id, x: Txid, plan: Plan)
    requires o in t.purchases && StatusIsJoin(t, o) && PlanFits(t.purchases[o].state, plan)
    requires RowWritten(t, s, o, x, plan)
    ensures StatusIsJoin(s, o)
  {
    var before, after := t.purchases[o].state, s.purchases[o].state;
    forall y | RowOf(s, y, o) ensures RowLevel(s.payments[y].status) <= Level(after) {
      if y != x { assert RowOf(t, y, o); }
    }
    assert RowOf(s, x, o);
    if RowLevel(plan.status) < Level(before) {
      var y :| RowOf(t, y, o) && RowLevel(t.payments[y].status) == Level(before);
      MergeIsJoin(if x in t.payments then Some(t.payments[x].status) else None, plan.status);
      assert y != x && RowOf(s, y, o);
    }
    forall y | Decided(s, y, o) ensures y == x {
      if y != x { assert RowOf(t, y, o) && Level(before) < 3; }
    }
  }

  // Orders whose rows and whose own state are untouched.
  lemma UntouchedIsJoin(t: Tables, s: Tables, o: Id)
    requires o in t.purchases && StatusIsJoin(t, o) && o in s.purchases
    requires Level(s.purchases[o].state) == Level(t.purchases[o].state) && s.purchases[o].state != PCreated
    requires Verdict(s.purchases[o].state) == Verdict(t.purchases[o].state)
    requires forall x :: RowOf(s, x, o) ==> RowOf(t, x, o)
    requires forall x :: RowOf(t, x, o) ==> RowOf(s, x, o) && s.payments[x].status == t.payments[x].status
    ensures StatusIsJoin(s, o)
  {
    assert forall x :: Decided(s, x, o) <==> Decided(t, x, o);
    if Level(t.purchases[o].state) > 0 {
      var x :| RowOf(t, x, o) && RowLevel(t.payments[x].status) == Level(t.purchases[o].state);
      assert RowOf(s, x, o);
    }
  }

  lemma OthersUntouched(t: Tables, s: Tables, o: Id, x: Txid, plan: Plan, p: Id)
    requires o in t.purchases && plan.ApplyPlan? && RowWritten(t, s, o, x, plan)
    requires p in t.purchases && p != o && StatusIsJoin(t, p)
    ensures StatusIsJoin(s, p)
  {
    UntouchedIsJoin(t, s, p);
  }

  // No other confirmed row can be in the way of an open order's payment, so nothing is thrown or lost to an index.
  lemma NoneConfirmed(t: Tables, o: Id, x: Txid, status: TxStatus)
    requires o in t.purchases && StatusIsJoin(t, o) && Open(t.purchases[o].state)
    ensures !ConfirmedTaken(t, o, x, status)
  {
    forall y | y in t.payments && t.payments[y].order == Some(o) ensures t.payments[y].status != TConfirmed {
      assert RowOf(t, y, o);
    }
  }

  lemma PlanFitsState(evaluation: Evaluation, state: PurchaseState, current: Option<TxStatus>)
    requires PlanFor(evaluation, state, current).ApplyPlan?
    ensures PlanFits(state, PlanFor(evaluation, state, current)) && LegalPath(state, PlanFor(evaluation, state, current).steps)
    ensures MergeStatus(current, PlanFor(evaluation, state, current).status) == Some(PlanFor(evaluation, state, current).status)
  {
    hide HappyPath, RejectedPath, LegalPath, TerminalPlan;
    if Open(state) { PlanIsLegal(evaluation, state, current); } else { TerminalOrdersStay(evaluation, state, current); }
  }

  // ---- the observation steps ----

  lemma ApplyLockedOk(t: Tables, o: Id, observed: Observed, plan: Plan, now: nat, base: Tables)
    requires o in t.purchases && StatusIsJoin(t, o) && PlanFits(t.purchases[o].state, plan)
    requires base == t || (observed.txid !in t.payments
               && base == t.(payments := t.payments[observed.txid := NewPayment(o, observed, plan.status, now)]))
    requires observed.txid in base.payments && (base.payments[observed.txid].order == Some(o))
    requires MergeStatus(Some(base.payments[observed.txid].status), plan.status) == Some(plan.status)
    requires FitsColumns(MergedPayment(base.payments[observed.txid], o, observed, plan.status, now))
    ensures var (s, r) := ApplyLocked(base, o, t.purchases[o].state, observed, plan, now);
      && r == Applied(observed.txid, plan.status, s.purchases[o].state)
      && RowWritten(t, s, o, observed.txid, plan)
      && s == t.(payments := s.payments, purchases := s.purchases)
      && s.payments[observed.txid] == MergedPayment(base.payments[observed.txid], o, observed, plan.status, now)
  {
    NoneConfirmed(t, o, observed.txid, plan.status);
  }

  // Writing one row of o and moving o along its plan keeps everything else.
  lemma WrittenOk(w: World, s: Tables, o: Id, x: Txid, plan: Plan, pending: map<Id, Pending>)
    requires PaymentsOk(w) && o in w.t.purchases && PlanFits(w.t.purchases[o].state, plan) && RowWritten(w.t, s, o, x, plan)
    requires Asked(s.payments[x], Expected(w.t.purchases[o].terms).value)
    requires s.payments[x].confirmedAt.Some? <==> s.payments[x].status == TConfirmed
    requires FitsColumns(s.payments[x])
    requires pending == w.pending - {o}
    ensures PaymentsOk(w.(t := s, pending := pending))
  {
    hide StatusIsJoin, Validate;
    forall p | p in s.purchases ensures StatusIsJoin(s, p) && Validate(s.purchases[p].terms).None? {
      if p == o { WrittenIsJoin(w.t, s, o, x, plan); } else { OthersUntouched(w.t, s, o, x, plan, p); }
    }
    forall y | y in s.payments ensures RowOk(s, y) {
      if y != x { assert RowOk(w.t, y); }
    }
    forall p | p in pending ensures PendingOk(w.(t := s, pending := pending), p) { assert PendingOk(w, p); }
  }

  lemma BeginOk(w: World, o: Id, observed: Observed, now: nat)
    requires PaymentsOk(w) && o !in w.pending
    ensures PaymentsOk(Observing(w, o, observed, now))
  {
    hide StatusIsJoin, Validate, PlanFor, Evaluate, ApplyLocked;
    if o in w.t.purchases {
      var purchase := w.t.purchases[o];
      var known := observed.txid in w.t.payments;
      if Expected(purchase.terms).Some? && ValidMetadata(observed) {
        var evaluation := Evaluate(Expected(purchase.terms).value, observed);
        var current := if known then Some(w.t.payments[observed.txid].status) else None;
        var plan := PlanFor(evaluation, purchase.state, current);
        if plan.ApplyPlan? {
          PlanFitsState(evaluation, purchase.state, current);
          AppliedMatches(Expected(purchase.terms).value, observed, purchase.state, current);
          if known {
            assert RowOk(w.t, observed.txid);
            if RowConflict(w.t.payments[observed.txid], o, observed).None? {
              KnownOk(w, o, observed, plan, now);
            }
          } else {
            var v := Observing(w, o, observed, now);
            forall p | p in v.pending ensures PendingOk(v, p) { if p != o { assert PendingOk(w, p); } }
            assert v.t == w.t;
            assert forall p :: p in v.t.purchases ==> StatusIsJoin(v.t, p);
          }
        }
      }
    }
  }

  // Evidence is applied only when it is for what the order asked.
  lemma AppliedMatches(e: Expectation, observed: Observed, state: PurchaseState, current: Option<TxStatus>)
    requires PlanFor(Evaluate(e, observed), state, current).ApplyPlan?
    ensures Matches(e, observed)
  {
  }

  lemma KnownOk(w: World, o: Id, observed: Observed, plan: Plan, now: nat)
    requires PaymentsOk(w) && o !in w.pending && o in w.t.purchases && PlanFits(w.t.purchases[o].state, plan) && plan.ApplyPlan?
    requires observed.txid in w.t.payments && RowConflict(w.t.payments[observed.txid], o, observed).None?
    requires MergeStatus(Some(w.t.payments[observed.txid].status), plan.status) == Some(plan.status)
    ensures PaymentsOk(w.(t := ApplyLocked(w.t, o, w.t.purchases[o].state, observed, plan, now).0))
  {
    hide *;
    if FitsColumns(MergedPayment(w.t.payments[observed.txid], o, observed, plan.status, now)) {
      KnownWritten(w, o, observed, plan, now);
      var s := ApplyLocked(w.t, o, w.t.purchases[o].state, observed, plan, now).0;
      WrittenOk(w, s, o, observed.txid, plan, w.pending - {o});
      assert w.pending - {o} == w.pending;
    } else {
      TooWide(w.t, o, w.t.purchases[o].state, observed, plan, now);
    }
  }

  // A row that does not fit its columns is not written, and nothing else is.
  lemma TooWide(t: Tables, o: Id, state: PurchaseState, observed: Observed, plan: Plan, now: nat)
    requires o in t.purchases && observed.txid in t.payments && plan.ApplyPlan?
    requires !FitsColumns(MergedPayment(t.payments[observed.txid], o, observed, plan.status, now))
    ensures ApplyLocked(t, o, state, observed, plan, now) == (t, ObservationThrows)
  {
  }

  lemma KnownWritten(w: World, o: Id, observed: Observed, plan: Plan, now: nat)
    requires PaymentsOk(w) && o in w.t.purchases && PlanFits(w.t.purchases[o].state, plan)
    requires observed.txid in w.t.payments && RowConflict(w.t.payments[observed.txid], o, observed).None?
    requires MergeStatus(Some(w.t.payments[observed.txid].status), plan.status) == Some(plan.status)
    requires FitsColumns(MergedPayment(w.t.payments[observed.txid], o, observed, plan.status, now))
    ensures var s := ApplyLocked(w.t, o, w.t.purchases[o].state, observed, plan, now).0;
      && RowWritten(w.t, s, o, observed.txid, plan)
      && Expected(w.t.purchases[o].terms).Some?
      && Asked(s.payments[observed.txid], Expected(w.t.purchases[o].terms).value)
      && (s.payments[observed.txid].confirmedAt.Some? <==> s.payments[observed.txid].status == TConfirmed)
      && FitsColumns(s.payments[observed.txid])
      && s == w.t.(payments := s.payments, purchases := s.purchases)
  {
    KnownFacts(w, o, observed);
    hide PaymentsOk, RowConflict, StatusIsJoin, Expected, PlanFits, ApplyLocked, RowWritten, FitsColumns, MergedPayment;
    ApplyLockedOk(w.t, o, observed, plan, now, w.t);
    MergedFacts(w.t.payments[observed.txid], o, observed, plan.status, now);
  }

  lemma MergedFacts(row: Payment, o: Id, observed: Observed, status: TxStatus, now: nat)
    requires MergeStatus(Some(row.status), status) == Some(status)
    requires row.confirmedAt.Some? <==> row.status == TConfirmed
    ensures var m := MergedPayment(row, o, observed, status, now);
      && (m.confirmedAt.Some? <==> m.status == TConfirmed)
      && forall e: Expectation :: Asked(row, e) ==> Asked(m, e)
  {
  }

  lemma KnownFacts(w: World, o: Id, observed: Observed)
    requires PaymentsOk(w) && o in w.t.purchases && observed.txid in w.t.payments
    requires RowConflict(w.t.payments[observed.txid], o, observed).None?
    ensures var row := w.t.payments[observed.txid];
      && row.order == Some(o) && StatusIsJoin(w.t, o) && Expected(w.t.purchases[o].terms).Some?
      && Asked(row, Expected(w.t.purchases[o].terms).value) && (row.confirmedAt.Some? <==> row.status == TConfirmed)
  {
    hide StatusIsJoin, Validate;
    assert RowOk(w.t, observed.txid);
  }

  // At the insert: figures too wide for their columns, the row of another order under the same txid, or no row; the
  // order's lock excludes the rest.
  lemma FinishCases(w: World, o: Id, now: nat)
    requires o in w.pending && o in w.t.purchases && w.pending[o].plan.ApplyPlan? && PaymentsOk(w)
    ensures var p := w.pending[o];
      var r := FinishObservation(w.t, o, p.observed, p.state, p.evaluation, p.plan, now);
      if !FitsColumns(NewPayment(o, p.observed, p.plan.status, now))
      then r == (w.t, ObservationThrows) && PaymentsOk(Inserted(w, o, now))
      else if p.observed.txid !in w.t.payments
      then r.1 == Applied(p.observed.txid, p.plan.status, EndOf(p.state, p.plan.steps)) && PaymentsOk(Inserted(w, o, now))
      else r == (w.t, PaymentIdentityConflict) && PaymentsOk(Inserted(w, o, now))
  {
    hide StatusIsJoin, PlanFor, PaymentsOk, FinishObservation, FitsColumns;
    if !FitsColumns(NewPayment(o, w.pending[o].observed, w.pending[o].plan.status, now)) { FinishWide(w, o, now); }
    else if w.pending[o].observed.txid !in w.t.payments { FinishNew(w, o, now); } else { FinishTaken(w, o, now); }
  }

  lemma FinishWide(w: World, o: Id, now: nat)
    requires o in w.pending && o in w.t.purchases && w.pending[o].plan.ApplyPlan? && PaymentsOk(w)
    requires !FitsColumns(NewPayment(o, w.pending[o].observed, w.pending[o].plan.status, now))
    ensures var p := w.pending[o];
      FinishObservation(w.t, o, p.observed, p.state, p.evaluation, p.plan, now) == (w.t, ObservationThrows)
      && PaymentsOk(Inserted(w, o, now))
  {
    hide PaymentsOk, FitsColumns, InsertPayment, PlanAgain, ConfirmedTaken;
    PendingDropped(w, o);
  }

  lemma FinishNew(w: World, o: Id, now: nat)
    requires o in w.pending && o in w.t.purchases && w.pending[o].plan.ApplyPlan? && PaymentsOk(w)
    requires w.pending[o].observed.txid !in w.t.payments
    requires FitsColumns(NewPayment(o, w.pending[o].observed, w.pending[o].plan.status, now))
    ensures var p := w.pending[o];
      var r := FinishObservation(w.t, o, p.observed, p.state, p.evaluation, p.plan, now);
      r.1 == Applied(p.observed.txid, p.plan.status, EndOf(p.state, p.plan.steps)) && PaymentsOk(Inserted(w, o, now))
  {
    hide StatusIsJoin, PlanFor, PlanFits, PaymentsOk, RowWritten, ApplyLocked, ConfirmedTaken, Expected, Evaluate, EndOf, FitsColumns,
      MergedPayment;
    var p := w.pending[o];
    PendingKnown(w, o);
    NoneConfirmed(w.t, o, p.observed.txid, p.plan.status);
    var base := w.t.(payments := w.t.payments[p.observed.txid := NewPayment(o, p.observed, p.plan.status, now)]);
    NewFacts(o, p.observed, p.plan.status, now, Expected(w.t.purchases[o].terms).value);
    ApplyLockedOk(w.t, o, p.observed, p.plan, now, base);
    var (s, r) := ApplyLocked(base, o, p.state, p.observed, p.plan, now);
    AppliedEnd(base, o, p.state, p.observed, p.plan, now);
    WrittenOk(w, s, o, p.observed.txid, p.plan, w.pending - {o});
    assert Inserted(w, o, now) == w.(t := s, pending := w.pending - {o});
  }

  lemma AppliedEnd(t: Tables, o: Id, state: PurchaseState, observed: Observed, plan: Plan, now: nat)
    requires o in t.purchases && observed.txid in t.payments && plan.ApplyPlan?
    ensures var r := ApplyLocked(t, o, state, observed, plan, now).1;
      r.Applied? ==> r == Applied(observed.txid, plan.status, EndOf(state, plan.steps))
  {
    hide ConfirmedTaken, FitsColumns;
  }

  lemma NewFacts(o: Id, observed: Observed, status: TxStatus, now: nat, e: Expectation)
    requires Matches(e, observed)
    ensures var m := MergedPayment(NewPayment(o, observed, status, now), o, observed, status, now);
      Asked(m, e) && (m.confirmedAt.Some? <==> m.status == TConfirmed)
        && FitsColumns(m) == FitsColumns(NewPayment(o, observed, status, now))
  {
  }

  lemma PendingKnown(w: World, o: Id)
    requires PaymentsOk(w) && o in w.pending
    ensures var p := w.pending[o];
      && o in w.t.purchases && w.t.purchases[o].state == p.state && StatusIsJoin(w.t, o) && PlanFits(p.state, p.plan) && Open(p.state)
      && Expected(w.t.purchases[o].terms).Some? && Matches(Expected(w.t.purchases[o].terms).value, p.observed)
      && !RowOf(w.t, p.observed.txid, o)
  {
    hide StatusIsJoin, PlanFor, Validate;
    assert PendingOk(w, o);
    PlanFitsState(w.pending[o].evaluation, w.pending[o].state, None);
  }

  lemma FinishTaken(w: World, o: Id, now: nat)
    requires o in w.pending && o in w.t.purchases && w.pending[o].plan.ApplyPlan? && PaymentsOk(w)
    requires w.pending[o].observed.txid in w.t.payments
    requires FitsColumns(NewPayment(o, w.pending[o].observed, w.pending[o].plan.status, now))
    ensures var p := w.pending[o];
      FinishObservation(w.t, o, p.observed, p.state, p.evaluation, p.plan, now) == (w.t, PaymentIdentityConflict)
      && PaymentsOk(Inserted(w, o, now))
  {
    PendingKnown(w, o);
    RowKnown(w, w.pending[o].observed.txid);
    PendingDropped(w, o);
    hide StatusIsJoin, PlanFor, PlanFits, PaymentsOk, SameEvidence, ApplyLocked, ConfirmedTaken, InsertPayment;
  }

  lemma RowKnown(w: World, x: Txid)
    requires PaymentsOk(w) && x in w.t.payments
    ensures RowOk(w.t, x) && w.t.payments[x].order.Some?
  {
    hide StatusIsJoin, Validate;
  }

  lemma PendingDropped(w: World, o: Id)
    requires PaymentsOk(w)
    ensures PaymentsOk(w.(pending := w.pending - {o}))
  {
    hide StatusIsJoin, Validate;
    var v := w.(pending := w.pending - {o});
    forall p | p in v.pending ensures PendingOk(v, p) { assert PendingOk(w, p); }
  }
}
