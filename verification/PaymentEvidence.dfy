// What a payment must show before an order is paid, by the fields of the observations alone, over every run: a row is
// confirmed or rejected only on evidence that was observed, and evidence that is observed has exactly the effect it should
// (src/core/payments/payment-observation.ts and src/adapters/database/postgres-payment-lifecycle-repository.ts).
module PaymentEvidence {
  import opened Prelude
  import opened PurchasePayment
  import opened PaymentPlan
  import opened Tables
  import opened PaymentLifecycle
  import opened EnergyOrders
  import opened EnergyUsage
  import opened Accounting
  import opened PaymentInvariants
  import opened LedgerInvariants
  import opened AccountingSafety
  import opened AccountingTheorems

  // ---- the evidence ----

  predicate HasText(s: string) { exists c :: c in s && !IsSpace(c) }

  predicate WellFormed(b: Observed) {
    && HasText(b.txid) && HasText(b.fromAddress) && b.confirmations >= 0
    && (match b.asset case TRX => b.eventIndex.None? case USDT => b.eventIndex.Some? && b.eventIndex.value >= 0)
    && (b.blockNumber.Some? ==> b.blockNumber.value >= 0) && b.blockTimestamp != Some(NotATime)
  }

  // The observation is of what the order asked for.
  predicate PaysFor(terms: Snapshot, b: Observed) {
    b.asset == terms.asset && b.token == terms.token && b.toAddress == terms.toAddress && b.amount == terms.quoted
  }

  // It comes from a solidified block, from a source that serves solidified blocks.
  predicate Settled(b: Observed) { b.solidified && (b.source == SolidifiedNode || b.source == SolidifiedIndex) }

  predicate Confirms(terms: Snapshot, b: Observed) {
    PaysFor(terms, b) && Settled(b) && b.execution == ExecutionSuccess && b.confirmations >= terms.confirmations
  }

  predicate Rejects(terms: Snapshot, b: Observed) {
    PaysFor(terms, b) && Settled(b) && b.execution == ExecutionFailed
  }

  lemma TextIs(s: string)
    ensures NonEmpty(s) <==> HasText(s)
  {
    var t := TrimStart(s);
    assert t == [] <==> forall c :: c in s ==> IsSpace(c);
    if t != [] { assert t[0] in t; }
  }

  // What evaluatePaymentObservation finds, by fields.
  lemma EvaluateMeans(terms: Snapshot, b: Observed)
    requires Expected(terms).Some? && ValidMetadata(b)
    ensures var found := Evaluate(Expected(terms).value, b);
      && (found == EConfirmed <==> WellFormed(b) && Confirms(terms, b))
      && (found == ERejected <==> WellFormed(b) && Rejects(terms, b))
      && (found in {EExecutionUnknown, EFewConfirmations} <==>
            WellFormed(b) && PaysFor(terms, b) && Settled(b) && !Confirms(terms, b) && !Rejects(terms, b))
      && (found in {ENotSolidified, ENotAuthoritative} <==> WellFormed(b) && PaysFor(terms, b) && !Settled(b))
  {
    hide NonEmpty, HasText;
    TextIs(b.txid);
    TextIs(b.fromAddress);
  }

  // What that makes of the row: the status a plan writes.
  lemma PlanMeans(terms: Snapshot, b: Observed, state: PurchaseState, current: Option<TxStatus>)
    requires Expected(terms).Some? && ValidMetadata(b)
    requires PlanFor(Evaluate(Expected(terms).value, b), state, current).ApplyPlan?
    ensures var status := PlanFor(Evaluate(Expected(terms).value, b), state, current).status;
      && WellFormed(b) && PaysFor(terms, b)
      && (status == TConfirmed ==> current == Some(TConfirmed) || Confirms(terms, b))
      && (status == TRejected ==> current == Some(TRejected) || Rejects(terms, b))
      && (status == TConfirming ==> current == Some(TConfirming) || Settled(b))
  {
    EvaluateMeans(terms, b);
    hide Expected, Evaluate, WellFormed, PaysFor, Settled, Confirms, Rejects, HappyPath, RejectedPath, TerminalPlan;
    var found := Evaluate(Expected(terms).value, b);
    assert found !in {EInvalid, EMismatch};
    assert current.None? || current.value.TDetected? || current.value.TConfirming? || current.value.TConfirmed? || current.value.TRejected?;
  }

  // ---- rows rest on observations ----

  // What was observed for an order: pairs of the order and the observation.
  type Log = iset<(Id, Observed)>

  ghost predicate Shown(log: Log, terms: Snapshot, o: Id, x: Txid, b: Observed) {
    (o, b) in log && b.txid == x && WellFormed(b) && PaysFor(terms, b)
  }

  // Every column of the row comes from an observation of this payment for this order, and its status from one that
  // warrants it.
  ghost predicate Attested(log: Log, terms: Snapshot, o: Id, x: Txid, row: Payment) {
    && (exists b :: Shown(log, terms, o, x, b) && row.asset == b.asset && row.token == b.token && row.eventIndex == b.eventIndex
                    && row.fromAddress == b.fromAddress && row.toAddress == b.toAddress && row.amount == b.amount)
    && (exists b :: Shown(log, terms, o, x, b) && row.confirmations == b.confirmations)
    && (row.blockNumber.Some? ==> exists b :: Shown(log, terms, o, x, b) && row.blockNumber == b.blockNumber)
    && (row.blockTimestamp.Some? ==> exists b :: Shown(log, terms, o, x, b) && row.blockTimestamp == b.blockTimestamp)
    && Warranted(log, terms, o, x, row)
  }

  ghost predicate Warranted(log: Log, terms: Snapshot, o: Id, x: Txid, row: Payment) {
    && (row.status == TConfirmed ==>
          exists b :: Shown(log, terms, o, x, b) && Confirms(terms, b) && b.confirmations <= row.confirmations)
    && (row.status == TRejected ==> exists b :: Shown(log, terms, o, x, b) && Rejects(terms, b))
    && (row.status == TConfirming ==> exists b :: Shown(log, terms, o, x, b) && Settled(b))
  }

  ghost predicate RowRests(log: Log, t: Tables, x: Txid)
    requires x in t.payments
  {
    var row := t.payments[x];
    row.order.Some? && row.order.value in t.purchases && Attested(log, t.purchases[row.order.value].terms, row.order.value, x, row)
  }

  predicate PendingRests(w: World, o: Id)
    requires o in w.pending
  {
    && o in w.t.purchases && Expected(w.t.purchases[o].terms).Some? && ValidMetadata(w.pending[o].observed)
    && w.pending[o].evaluation == Evaluate(Expected(w.t.purchases[o].terms).value, w.pending[o].observed)
  }

  ghost predicate LogOk(w: World, log: Log) {
    && (forall x :: x in w.t.payments ==> RowRests(log, w.t, x))
    && (forall o :: o in w.pending ==> PendingRests(w, o) && (o, w.pending[o].observed) in log)
  }

  lemma AttestedMore(log: Log, more: Log, terms: Snapshot, o: Id, x: Txid, row: Payment)
    requires log <= more && Attested(log, terms, o, x, row)
    ensures Attested(more, terms, o, x, row)
  {
    hide WellFormed, PaysFor, Confirms, Rejects, Settled;
    assert forall b :: Shown(log, terms, o, x, b) ==> Shown(more, terms, o, x, b);
  }

  lemma MergedAttested(log: Log, terms: Snapshot, o: Id, row: Payment, b: Observed, state: PurchaseState, now: nat)
    requires Expected(terms).Some? && ValidMetadata(b) && (o, b) in log && Attested(log, terms, o, b.txid, row)
    requires PlanFor(Evaluate(Expected(terms).value, b), state, Some(row.status)).ApplyPlan?
    ensures var status := PlanFor(Evaluate(Expected(terms).value, b), state, Some(row.status)).status;
      Attested(log, terms, o, b.txid, MergedPayment(row, o, b, status, now))
  {
    PlanMeans(terms, b, state, Some(row.status));
    hide Expected, Evaluate, PlanFor, WellFormed, PaysFor, Confirms, Rejects, Settled, ValidMetadata;
    assert Shown(log, terms, o, b.txid, b);
    ConfirmsAny(terms, b);
  }

  lemma ConfirmsAny(terms: Snapshot, b: Observed)
    ensures Confirms(terms, b) || Rejects(terms, b) ==> Settled(b)
  {
  }

  lemma NewAttested(log: Log, terms: Snapshot, o: Id, b: Observed, state: PurchaseState, now: nat)
    requires Expected(terms).Some? && ValidMetadata(b) && (o, b) in log
    requires PlanFor(Evaluate(Expected(terms).value, b), state, None).ApplyPlan?
    ensures var status := PlanFor(Evaluate(Expected(terms).value, b), state, None).status;
      Attested(log, terms, o, b.txid, MergedPayment(NewPayment(o, b, status, now), o, b, status, now))
  {
    PlanMeans(terms, b, state, None);
    hide Expected, Evaluate, PlanFor, WellFormed, PaysFor, Confirms, Rejects, Settled, ValidMetadata;
    assert Shown(log, terms, o, b.txid, b);
  }

  // ---- one event ----

  // Orders keep their terms, and the rows but one are as before.
  ghost predicate RowsKept(w: World, v: World, x: Txid) {
    && (forall o :: o in w.t.purchases ==> o in v.t.purchases && v.t.purchases[o].terms == w.t.purchases[o].terms)
    && (forall y :: y in v.t.payments && y != x ==> y in w.t.payments && v.t.payments[y] == w.t.payments[y])
    && (forall o :: o in v.pending ==> o in w.pending && v.pending[o] == w.pending[o])
  }

  lemma KeptRests(w: World, v: World, x: Txid, log: Log, more: Log)
    requires LogOk(w, log) && log <= more && RowsKept(w, v, x)
    requires x in v.t.payments ==> RowRests(more, v.t, x) || (x in w.t.payments && v.t.payments[x] == w.t.payments[x])
    ensures LogOk(v, more)
  {
    hide Attested, Evaluate, Expected, ValidMetadata;
    forall y | y in v.t.payments ensures RowRests(more, v.t, y) {
      if y in w.t.payments && v.t.payments[y] == w.t.payments[y] {
        var row := w.t.payments[y];
        assert RowRests(log, w.t, y);
        AttestedMore(log, more, w.t.purchases[row.order.value].terms, row.order.value, y, row);
      }
    }
    forall o | o in v.pending ensures PendingRests(v, o) && (o, v.pending[o].observed) in more { assert PendingRests(w, o); }
  }

  lemma TermsKept(w: World, e: Event)
    requires WorldOk(w)
    ensures forall o :: o in w.t.purchases ==> o in Handle(w, e).t.purchases && Handle(w, e).t.purchases[o].terms == w.t.purchases[o].terms
  {
    hide WorldOk, TablesOk, PaymentsOk, Handle, LegalPath, EndOf;
    WorldParts(w);
    forall o | o in w.t.purchases
      ensures o in Handle(w, e).t.purchases && Handle(w, e).t.purchases[o].terms == w.t.purchases[o].terms
    {
      var steps := MovesLegally(w, e, o);
    }
  }

  lemma PaymentsAlone(w: World, e: Event)
    requires TablesOk(w.t) && !e.Begin? && !e.Finish?
    ensures Handle(w, e).t.payments == w.t.payments
    ensures forall o :: o in Handle(w, e).pending ==> o in w.pending && Handle(w, e).pending[o] == w.pending[o]
  {
    hide TablesOk, Reserve, ApplyDelivery, CreditPaidOrder, Validate, IndexRefuses;
    match e
    case ReserveUnits(input, id) => ReserveFrame(w.t, input, id);
    case Deliver(id, provider, poid, report) =>
      if report != DPending { ApplyDeliveryOk(w.t, id, provider, poid, report); }
    case Credit(o) => CreditRowsFrame(w.t, o);
    case _ =>
  }

  lemma CreditRowsFrame(t: Tables, o: Id)
    ensures CreditPaidOrder(t, o).0.payments == t.payments
  {
    hide CreditsFor, LedgerFree, ConfirmedFor;
  }

  // Beginning an observation writes the row it knows, or holds the order's lock until the insert, or does nothing.
  lemma BeginShape(w: World, o: Id, b: Observed, now: nat)
    requires WorldOk(w) && o !in w.pending
    ensures var v := Observing(w, o, b, now);
      || v == w
      || (&& o in w.t.purchases && Expected(w.t.purchases[o].terms).Some? && ValidMetadata(b)
          && v == w.(pending := v.pending) && o in v.pending && v.pending == w.pending[o := v.pending[o]]
          && v.pending[o].observed == b && v.pending[o].evaluation == Evaluate(Expected(w.t.purchases[o].terms).value, b))
      || (&& v == w.(t := v.t) && Rewritten(w.t, v.t, o, b, now))
  {
    hide WorldOk, Evaluate, Expected, PlanFor, ApplyLocked, RowConflict, ValidMetadata, MergedPayment, StatusIsJoin, TablesOk, ReportsOk,
      PaymentsOk, FitsColumns, RowWritten, PlanFits;
    var v := Observing(w, o, b, now);
    if v.t != w.t {
      WorldParts(w);
      BegunKnown(w, o, b, now);
      var state := w.t.purchases[o].state;
      var current := Some(w.t.payments[b.txid].status);
      var plan := PlanFor(Evaluate(Expected(w.t.purchases[o].terms).value, b), state, current);
      BegunApplies(w, o, b, plan, now);
      AppliedFits(w.t, o, b, plan, now);
      PlanFitsState(Evaluate(Expected(w.t.purchases[o].terms).value, b), state, current);
      KnownFacts(w, o, b);
      ApplyLockedOk(w.t, o, b, plan, now, w.t);
      WrittenPurchases(w.t, v.t, o, b.txid, plan);
    }
  }

  lemma WrittenPurchases(t: Tables, s: Tables, o: Id, x: Txid, plan: Plan)
    requires o in t.purchases && plan.ApplyPlan? && RowWritten(t, s, o, x, plan)
    ensures x in s.payments && s.payments == t.payments[x := s.payments[x]]
  {
  }

  predicate Rewritten(t: Tables, s: Tables, o: Id, b: Observed, now: nat) {
    && o in t.purchases && Expected(t.purchases[o].terms).Some? && ValidMetadata(b)
    && b.txid in t.payments && t.payments[b.txid].order == Some(o)
    && var plan := PlanFor(Evaluate(Expected(t.purchases[o].terms).value, b), t.purchases[o].state, Some(t.payments[b.txid].status));
      plan.ApplyPlan? && s.payments == t.payments[b.txid := MergedPayment(t.payments[b.txid], o, b, plan.status, now)]
  }

  lemma BeginRests(w: World, o: Id, b: Observed, now: nat, log: Log, more: Log)
    requires WorldOk(w) && LogOk(w, log) && log <= more && (o, b) in more && o !in w.pending
    ensures LogOk(Observing(w, o, b, now), more)
  {
    hide WorldOk, Observing, Attested, Evaluate, Expected, ValidMetadata, PlanFor, MergedPayment;
    var v := Observing(w, o, b, now);
    BeginShape(w, o, b, now);
    TermsKept(w, Begin(o, b, now));
    BeginIs(w, o, b, now);
    hide Handle;
    if v == w {
      KeptRests(w, v, b.txid, log, more);
    } else if v == w.(pending := v.pending) {
      KeptRests(w, w, b.txid, log, more);
    } else {
      assert RowRests(log, w.t, b.txid);
      var row := w.t.payments[b.txid];
      AttestedMore(log, more, w.t.purchases[o].terms, o, b.txid, row);
      MergedAttested(more, w.t.purchases[o].terms, o, row, b, w.t.purchases[o].state, now);
      MergedOrder(row, o, b, PlanFor(Evaluate(Expected(w.t.purchases[o].terms).value, b), w.t.purchases[o].state, Some(row.status)).status, now);
      assert RowRests(more, v.t, b.txid);
      KeptRests(w, v, b.txid, log, more);
    }
  }

  lemma MergedOrder(row: Payment, o: Id, b: Observed, status: TxStatus, now: nat)
    ensures MergedPayment(row, o, b, status, now).order == Some(o)
  {
  }

  // The insert writes one new row, of the pending observation, or none.
  lemma FinishShape(w: World, o: Id, now: nat)
    requires WorldOk(w) && o in w.pending
    ensures var v, p := Inserted(w, o, now), w.pending[o];
      && v.pending == w.pending - {o}
      && (v.t == w.t ||
          (p.plan.ApplyPlan? && p.observed.txid !in w.t.payments && v.t.payments == w.t.payments[p.observed.txid :=
             MergedPayment(NewPayment(o, p.observed, p.plan.status, now), o, p.observed, p.plan.status, now)]))
  {
    hide WorldOk, PaymentsOk, TablesOk, ReportsOk, StatusIsJoin, PlanFor, PlanFits, RowWritten, FinishObservation, ApplyLocked, FitsColumns,
      MergedPayment, NewPayment;
    WorldParts(w);
    PendingFacts(w, o);
    FinishCases(w, o, now);
    var p := w.pending[o];
    if p.observed.txid !in w.t.payments && FitsColumns(NewPayment(o, p.observed, p.plan.status, now)) { FinishRow(w, o, now); }
  }

  lemma FinishRow(w: World, o: Id, now: nat)
    requires o in w.pending && o in w.t.purchases && w.pending[o].plan.ApplyPlan? && StatusIsJoin(w.t, o)
    requires w.t.purchases[o].state == w.pending[o].state && PlanFits(w.pending[o].state, w.pending[o].plan)
    requires FitsColumns(NewPayment(o, w.pending[o].observed, w.pending[o].plan.status, now))
    requires w.pending[o].observed.txid !in w.t.payments
    ensures var v, p := Inserted(w, o, now), w.pending[o];
      v.t.payments == w.t.payments[p.observed.txid :=
        MergedPayment(NewPayment(o, p.observed, p.plan.status, now), o, p.observed, p.plan.status, now)]
  {
    var p := w.pending[o];
    NoneConfirmed(w.t, o, p.observed.txid, p.plan.status);
    FinishWritten(w, o, now);
    WrittenPurchases(w.t, Inserted(w, o, now).t, o, p.observed.txid, p.plan);
    hide StatusIsJoin, ApplyLocked, PlanFits, RowWritten, MergedPayment;
    var base := w.t.(payments := w.t.payments[p.observed.txid := NewPayment(o, p.observed, p.plan.status, now)]);
    NewFits(o, p.observed, p.plan.status, now);
    ApplyLockedOk(w.t, o, p.observed, p.plan, now, base);
  }

  lemma NewFits(o: Id, b: Observed, status: TxStatus, now: nat)
    ensures FitsColumns(MergedPayment(NewPayment(o, b, status, now), o, b, status, now)) == FitsColumns(NewPayment(o, b, status, now))
  {
  }

  lemma FinishRests(w: World, o: Id, now: nat, log: Log, more: Log)
    requires WorldOk(w) && LogOk(w, log) && log <= more && o in w.pending
    ensures LogOk(Inserted(w, o, now), more)
  {
    hide WorldOk, Inserted, Attested, Evaluate, Expected, ValidMetadata, PlanFor, MergedPayment, NewPayment, PendingOk, PaymentsOk;
    var v, p := Inserted(w, o, now), w.pending[o];
    FinishShape(w, o, now);
    TermsKept(w, Finish(o, now));
    FinishIs(w, o, now);
    hide Handle;
    if v.t == w.t {
      KeptRests(w, v, p.observed.txid, log, more);
    } else {
      PendingPlan(w, o);
      assert PendingRests(w, o);
      NewAttested(more, w.t.purchases[o].terms, o, p.observed, p.state, now);
      MergedOrder(NewPayment(o, p.observed, p.plan.status, now), o, p.observed, p.plan.status, now);
      assert RowRests(more, v.t, p.observed.txid);
      KeptRests(w, v, p.observed.txid, log, more);
    }
  }

  lemma PendingPlan(w: World, o: Id)
    requires WorldOk(w) && o in w.pending
    ensures w.pending[o].plan == PlanFor(w.pending[o].evaluation, w.pending[o].state, None) && w.pending[o].plan.ApplyPlan?
  {
    hide TablesOk, ReportsOk, StatusIsJoin, PlanFor, Validate, Expected;
    WorldParts(w);
    assert PendingOk(w, o);
  }

  lemma EventRests(w: World, e: Event, log: Log, more: Log)
    requires WorldOk(w) && LogOk(w, log) && log <= more && (e.Begin? ==> (e.purchase, e.observed) in more)
    ensures LogOk(Handle(w, e), more)
  {
    hide WorldOk, LogOk, Observing, Inserted, TablesOk, Handle;
    match e
    case Begin(o, b, now) =>
      BeginIs(w, o, b, now);
      if o in w.pending { KeptAll(w, w, log, more); } else { BeginRests(w, o, b, now, log, more); }
    case Finish(o, now) =>
      FinishIs(w, o, now);
      if o in w.pending { FinishRests(w, o, now, log, more); } else { KeptAll(w, w, log, more); }
    case _ =>
      WorldParts(w);
      PaymentsAlone(w, e);
      TermsKept(w, e);
      KeptAll(w, Handle(w, e), log, more);
  }

  lemma KeptAll(w: World, v: World, log: Log, more: Log)
    requires LogOk(w, log) && log <= more && v.t.payments == w.t.payments
    requires forall o :: o in w.t.purchases ==> o in v.t.purchases && v.t.purchases[o].terms == w.t.purchases[o].terms
    requires forall o :: o in v.pending ==> o in w.pending && v.pending[o] == w.pending[o]
    ensures LogOk(v, more)
  {
    hide LogOk, RowRests;
    KeptRests(w, v, "", log, more);
  }

  // ---- over every run ----

  // Event number i of the run observes b for order o.
  predicate Observes(events: seq<Event>, i: nat, o: Id, b: Observed) {
    i < |events| && events[i].Begin? && events[i].purchase == o && events[i].observed == b
  }

  ghost function LogOf(events: seq<Event>): Log { iset x: (Id, Observed) | exists i :: Observes(events, i, x.0, x.1) }

  lemma LogMore(events: seq<Event>, e: Event)
    ensures LogOf(events) <= LogOf(events + [e]) && (e.Begin? ==> (e.purchase, e.observed) in LogOf(events + [e]))
  {
    forall x: (Id, Observed) | x in LogOf(events) ensures x in LogOf(events + [e]) {
      var i :| Observes(events, i, x.0, x.1);
      assert Observes(events + [e], i, x.0, x.1);
    }
    if e.Begin? { assert Observes(events + [e], |events|, e.purchase, e.observed); }
  }

  lemma {:induction false} RunThen(w: World, events: seq<Event>, e: Event)
    ensures Run(w, events + [e]) == Handle(Run(w, events), e)
    decreases |events|
  {
    hide Handle;
    if events == [] {
      assert [] + [e] == [e] && [e][1..] == [];
      assert Run(w, [e]) == Run(Handle(w, e), []);
    } else {
      assert (events + [e])[1..] == events[1..] + [e];
      RunThen(Handle(w, events[0]), events[1..], e);
    }
  }

  lemma {:induction false} RunRests(events: seq<Event>)
    ensures LogOk(Run(INITIAL, events), LogOf(events))
    decreases |events|
  {
    hide WorldOk, Handle, LogOf;
    if events != [] {
      var before, e := events[..|events| - 1], events[|events| - 1];
      assert events == before + [e];
      RunRests(before);
      hide Run, LogOk;
      Reachable(before);
      RunThen(INITIAL, before, e);
      LogMore(before, e);
      EventRests(Run(INITIAL, before), e, LogOf(before), LogOf(events));
    }
  }

  // Every payment row of every run says only what was observed of that payment for its order, column by column.
  lemma RowsRestOnObservations(events: seq<Event>, x: Txid)
    requires x in Run(INITIAL, events).t.payments
    ensures RowRests(LogOf(events), Run(INITIAL, events).t, x)
  {
    hide Run, RowRests, LogOf;
    RunRests(events);
  }

  // A payment is confirmed only if the run observed it for its order in a solidified block, from a source of such blocks,
  // executed, with the confirmations the order asks for, and of the order's asset, token, address and amount.
  lemma ConfirmedOnlyOnEvidence(events: seq<Event>, x: Txid) returns (i: nat, b: Observed)
    requires var t := Run(INITIAL, events).t; x in t.payments && t.payments[x].status == TConfirmed
    ensures var t := Run(INITIAL, events).t; var row := t.payments[x];
      && row.order.Some? && row.order.value in t.purchases
      && Observes(events, i, row.order.value, b) && b.txid == x && Confirms(t.purchases[row.order.value].terms, b)
  {
    hide Run, Confirms, Observes;
    RowsRestOnObservations(events, x);
    var t := Run(INITIAL, events).t;
    var o := t.payments[x].order.value;
    b :| Shown(LogOf(events), t.purchases[o].terms, o, x, b) && Confirms(t.purchases[o].terms, b);
    i :| Observes(events, i, o, b);
  }

  // It is rejected only if the run observed it failed, as authoritatively.
  lemma RejectedOnlyOnEvidence(events: seq<Event>, x: Txid) returns (i: nat, b: Observed)
    requires var t := Run(INITIAL, events).t; x in t.payments && t.payments[x].status == TRejected
    ensures var t := Run(INITIAL, events).t; var row := t.payments[x];
      && row.order.Some? && row.order.value in t.purchases
      && Observes(events, i, row.order.value, b) && b.txid == x && Rejects(t.purchases[row.order.value].terms, b)
  {
    hide Run, Rejects, Observes;
    RowsRestOnObservations(events, x);
    var t := Run(INITIAL, events).t;
    var o := t.payments[x].order.value;
    b :| Shown(LogOf(events), t.purchases[o].terms, o, x, b) && Rejects(t.purchases[o].terms, b);
    i :| Observes(events, i, o, b);
  }

  // So no order is paid or credited without such an observation.
  lemma PaidOnlyOnEvidence(events: seq<Event>, o: Id) returns (i: nat, b: Observed)
    requires var t := Run(INITIAL, events).t; o in t.purchases && t.purchases[o].state in {PPaid, PCredited}
    ensures Observes(events, i, o, b) && Confirms(Run(INITIAL, events).t.purchases[o].terms, b)
  {
    hide Run, Confirms, Observes;
    OrderStatusIsJoin(events, o);
    var t := Run(INITIAL, events).t;
    var x :| RowOf(t, x, o) && t.payments[x].status == TConfirmed;
    i, b := ConfirmedOnlyOnEvidence(events, x);
  }

  // A payment carries the time of the event that confirmed it.
  lemma ConfirmedWhen(events: seq<Event>, e: Event, x: Txid)
    requires var v := Run(INITIAL, events + [e]); x in v.t.payments && v.t.payments[x].status == TConfirmed
    ensures var w, v := Run(INITIAL, events), Run(INITIAL, events + [e]);
      if x in w.t.payments && w.t.payments[x].status == TConfirmed then v.t.payments[x].confirmedAt == w.t.payments[x].confirmedAt
      else (e.Begin? || e.Finish?) && v.t.payments[x].confirmedAt == Some(e.now)
  {
    hide Run, Handle, WorldOk, PaymentsOk, TablesOk, Observing, Inserted, Rewritten;
    var w := Run(INITIAL, events);
    Reachable(events);
    RunThen(INITIAL, events, e);
    WorldParts(w);
    if x in w.t.payments { RowTimed(w, x); }
    match e
    case Begin(o, b, now) =>
      BeginIs(w, o, b, now);
      if o !in w.pending {
        BeginShape(w, o, b, now);
        if Observing(w, o, b, now) == w.(t := Observing(w, o, b, now).t) { RewrittenTimes(w.t, Observing(w, o, b, now).t, o, b, now, x); }
      }
    case Finish(o, now) =>
      FinishIs(w, o, now);
      if o in w.pending { FinishShape(w, o, now); }
    case _ => PaymentsAlone(w, e);
  }

  lemma RowTimed(w: World, x: Txid)
    requires PaymentsOk(w) && x in w.t.payments
    ensures w.t.payments[x].confirmedAt.Some? <==> w.t.payments[x].status == TConfirmed
  {
    RowKnown(w, x);
    hide PaymentsOk;
  }

  lemma RewrittenTimes(t: Tables, s: Tables, o: Id, b: Observed, now: nat, x: Txid)
    requires s == t || Rewritten(t, s, o, b, now)
    ensures s == t || (b.txid in t.payments && b.txid in s.payments && s.payments == t.payments[b.txid := s.payments[b.txid]]
      && (s.payments[b.txid].status == TConfirmed ==>
            s.payments[b.txid].confirmedAt == if t.payments[b.txid].confirmedAt.Some? then t.payments[b.txid].confirmedAt else Some(now)))
  {
    hide PlanFor, Evaluate, Expected;
  }

  // ---- what evidence does ----

  // The observation agrees with the row stored for its txid.
  predicate SameFacts(row: Payment, o: Id, b: Observed) {
    && row.order == Some(o) && row.asset == b.asset && row.token == b.token && row.eventIndex == b.eventIndex
    && row.fromAddress == b.fromAddress && row.toAddress == b.toAddress && row.amount == b.amount
    && (row.blockNumber.Some? && b.blockNumber.Some? ==> row.blockNumber == b.blockNumber)
    && (row.blockTimestamp.Some? && b.blockTimestamp.Some? ==> row.blockTimestamp == b.blockTimestamp)
  }

  // The observation is evidence the order takes: well formed, for what it asked, in no conflict with a stored row, and no
  // figure too wide for its column.
  predicate Takes(t: Tables, o: Id, b: Observed)
    requires o in t.purchases
  {
    && WellFormed(b) && PaysFor(t.purchases[o].terms, b) && b.confirmations <= 2147483647
    && if b.txid in t.payments then
         SameFacts(t.payments[b.txid], o, b) &&
         (t.payments[b.txid].blockNumber.None? && b.blockNumber.Some? ==> b.blockNumber.value <= 9223372036854775807)
       else
         && (b.eventIndex.Some? ==> b.eventIndex.value <= 2147483647) && b.amount <= 9223372036854775807
         && (b.blockNumber.Some? ==> b.blockNumber.value <= 9223372036854775807)
  }

  function StateBy(terms: Snapshot, state: PurchaseState, b: Observed): PurchaseState {
    if Confirms(terms, b) then PPaid
    else if Rejects(terms, b) then PFailed
    else if Settled(b) || state == PConfirming then PConfirming
    else PDetected
  }

  lemma OpenPlan(found: Evaluation, state: PurchaseState, current: Option<TxStatus>)
    requires Open(state) && (current.Some? ==> RowLevel(current.value) < 3 && RowLevel(current.value) <= Level(state))
    ensures var plan := PlanFor(found, state, current);
      && (plan.ApplyPlan? <==> found !in {EInvalid, EMismatch})
      && (plan.ApplyPlan? ==>
            && EndOf(state, plan.steps) == (
                 if found == EConfirmed then PPaid else if found == ERejected then PFailed
                 else if found in {EExecutionUnknown, EFewConfirmations} || state == PConfirming then PConfirming else PDetected))
  {
    PlanIsLegal(found, state, current);
    if Target(found).Some? { MergeIsJoin(current, Target(found).value); }
    assert found.EInvalid? || found.EMismatch? || found.ENotSolidified? || found.ENotAuthoritative? || found.EExecutionUnknown?
      || found.EFewConfirmations? || found.ERejected? || found.EConfirmed?;
    assert current.None? || current.value.TDetected? || current.value.TConfirming?;
    hide HappyPath, RejectedPath, LegalPath, EndOf;
  }

  lemma OpenMeans(terms: Snapshot, b: Observed, state: PurchaseState, current: Option<TxStatus>)
    requires Expected(terms).Some? && ValidMetadata(b)
    requires Open(state) && (current.Some? ==> RowLevel(current.value) < 3 && RowLevel(current.value) <= Level(state))
    ensures var plan := PlanFor(Evaluate(Expected(terms).value, b), state, current);
      && (plan.ApplyPlan? <==> WellFormed(b) && PaysFor(terms, b))
      && (plan.ApplyPlan? ==> EndOf(state, plan.steps) == StateBy(terms, state, b))
  {
    EvaluateMeans(terms, b);
    var found := Evaluate(Expected(terms).value, b);
    OpenPlan(found, state, current);
    hide Expected, Evaluate, WellFormed, PlanFor, EndOf;
    assert found.EInvalid? || found.EMismatch? || found.ENotSolidified? || found.ENotAuthoritative? || found.EExecutionUnknown?
      || found.EFewConfirmations? || found.ERejected? || found.EConfirmed?;
  }

  // What a row of an open order says so far: no verdict, and no more than the order's status.
  lemma OpenRow(w: World, o: Id, x: Txid)
    requires PaymentsOk(w) && o in w.t.purchases && Open(w.t.purchases[o].state) && RowOf(w.t, x, o)
    ensures RowLevel(w.t.payments[x].status) < 3 && RowLevel(w.t.payments[x].status) <= Level(w.t.purchases[o].state)
  {
    JoinKnown(w, o);
    hide PaymentsOk;
  }

  lemma KnownDecides(w: World, o: Id, b: Observed, now: nat)
    requires WorldOk(w) && o in w.t.purchases && Open(w.t.purchases[o].state) && o !in w.pending && b.txid in w.t.payments
    ensures var v := Observing(w, o, b, now); var purchase := w.t.purchases[o];
      && v.pending == w.pending && o in v.t.purchases
      && v.t.purchases[o].state == if Takes(w.t, o, b) then StateBy(purchase.terms, purchase.state, b) else purchase.state
  {
    hide *;
    WorldParts(w);
    JoinKnown(w, o);
    TermsFit(w, o);
    RowKnown(w, b.txid);
    RowFits(w.t, b.txid);
    FactsAre(w.t, o, b);
    var purchase, row := w.t.purchases[o], w.t.payments[b.txid];
    if ValidMetadata(b) && RowConflict(row, o, b).None? {
      ConflictOrder(row, o, b);
      OpenRow(w, o, b.txid);
      var found := Evaluate(Expected(purchase.terms).value, b);
      var plan := PlanFor(found, purchase.state, Some(row.status));
      OpenMeans(purchase.terms, b, purchase.state, Some(row.status));
      BeginsKnown(w, o, b, now);
      if plan.ApplyPlan? {
        WiderIs(row, o, b, plan.status, now);
        if TooWideFor(row, b) {
          TooWide(w.t, o, purchase.state, b, plan, now);
        } else {
          PlanFitsState(found, purchase.state, Some(row.status));
          ApplyLockedOk(w.t, o, b, plan, now, w.t);
          WrittenState(w.t, ApplyLocked(w.t, o, purchase.state, b, plan, now).0, o, b.txid, plan);
        }
      }
    } else {
      BeginsRefused(w, o, b, now);
    }
  }

  lemma TermsFit(w: World, o: Id)
    requires PaymentsOk(w) && o in w.t.purchases
    ensures Expected(w.t.purchases[o].terms).Some?
  {
    hide StatusIsJoin;
  }

  lemma RowFits(t: Tables, x: Txid)
    requires x in t.payments && RowOk(t, x)
    ensures FitsColumns(t.payments[x]) && t.payments[x].order.Some?
  {
  }

  lemma ConflictOrder(row: Payment, o: Id, b: Observed)
    requires row.order.Some? && RowConflict(row, o, b).None?
    ensures row.order == Some(o)
  {
  }

  lemma FactsAre(t: Tables, o: Id, b: Observed)
    requires o in t.purchases && b.txid in t.payments && t.payments[b.txid].order.Some?
    ensures Takes(t, o, b) <==>
      && ValidMetadata(b) && RowConflict(t.payments[b.txid], o, b).None? && !TooWideFor(t.payments[b.txid], b)
      && WellFormed(b) && PaysFor(t.purchases[o].terms, b)
    ensures RowConflict(t.payments[b.txid], o, b).None? ==> RowOf(t, b.txid, o)
  {
    hide HasText, PaysFor;
  }

  lemma BeginsKnown(w: World, o: Id, b: Observed, now: nat)
    requires o in w.t.purchases && Expected(w.t.purchases[o].terms).Some? && ValidMetadata(b)
    requires b.txid in w.t.payments && RowConflict(w.t.payments[b.txid], o, b).None?
    ensures var purchase := w.t.purchases[o];
      var plan := PlanFor(Evaluate(Expected(purchase.terms).value, b), purchase.state, Some(w.t.payments[b.txid].status));
      Observing(w, o, b, now) == if plan.ApplyPlan? then w.(t := ApplyLocked(w.t, o, purchase.state, b, plan, now).0) else w
  {
    hide Evaluate, Expected, PlanFor, ApplyLocked, RowConflict, ValidMetadata;
  }

  lemma BeginsRefused(w: World, o: Id, b: Observed, now: nat)
    requires !ValidMetadata(b) || (b.txid in w.t.payments && RowConflict(w.t.payments[b.txid], o, b).Some?)
    ensures Observing(w, o, b, now) == w
  {
    hide Evaluate, Expected, PlanFor, ApplyLocked, RowConflict, ValidMetadata;
  }

  lemma WrittenState(t: Tables, s: Tables, o: Id, x: Txid, plan: Plan)
    requires o in t.purchases && plan.ApplyPlan? && RowWritten(t, s, o, x, plan)
    ensures s.purchases == t.purchases[o := t.purchases[o].(state := EndOf(t.purchases[o].state, plan.steps))]
  {
  }

  lemma NewDecides(w: World, o: Id, b: Observed, now: nat, later: nat)
    requires WorldOk(w) && o in w.t.purchases && Open(w.t.purchases[o].state) && o !in w.pending && b.txid !in w.t.payments
    ensures var begun := Observing(w, o, b, now); var purchase := w.t.purchases[o];
      var v := if o in begun.pending then Inserted(begun, o, later) else begun;
      && o !in v.pending && o in v.t.purchases
      && v.t.purchases[o].state == if Takes(w.t, o, b) then StateBy(purchase.terms, purchase.state, b) else purchase.state
  {
    hide *;
    WorldParts(w);
    JoinKnown(w, o);
    TermsFit(w, o);
    WidthsAre(w.t, o, b);
    var purchase := w.t.purchases[o];
    if ValidMetadata(b) {
      var found := Evaluate(Expected(purchase.terms).value, b);
      var plan := PlanFor(found, purchase.state, None);
      OpenMeans(purchase.terms, b, purchase.state, None);
      BeginsNew(w, o, b, now);
      if plan.ApplyPlan? {
        var begun := Observing(w, o, b, now);
        BeginIs(w, o, b, now);
        HandleOk(w, Begin(o, b, now));
        WorldParts(begun);
        InsertDecides(begun, o, later);
        ColumnsAre(o, b, plan.status, later);
      }
    } else {
      BeginsRefused(w, o, b, now);
    }
  }

  lemma BeginsNew(w: World, o: Id, b: Observed, now: nat)
    requires o in w.t.purchases && Expected(w.t.purchases[o].terms).Some? && ValidMetadata(b) && b.txid !in w.t.payments
    ensures var purchase := w.t.purchases[o];
      var found := Evaluate(Expected(purchase.terms).value, b);
      var plan := PlanFor(found, purchase.state, None);
      Observing(w, o, b, now) ==
        if plan.ApplyPlan? then w.(pending := w.pending[o := Pending(b, purchase.state, found, plan)]) else w
  {
    hide Evaluate, Expected, PlanFor, ApplyLocked, RowConflict, ValidMetadata;
  }

  lemma InsertDecides(w: World, o: Id, now: nat)
    requires PaymentsOk(w) && o in w.pending && w.pending[o].observed.txid !in w.t.payments
    ensures o in w.t.purchases && w.pending[o].plan.ApplyPlan?
    ensures var v, p := Inserted(w, o, now), w.pending[o];
      && v.pending == w.pending - {o} && o in v.t.purchases
      && v.t.purchases[o].state == (
           if FitsColumns(NewPayment(o, p.observed, p.plan.status, now)) then EndOf(w.t.purchases[o].state, p.plan.steps)
           else w.t.purchases[o].state)
  {
    hide *;
    PendingFacts(w, o);
    FinishCases(w, o, now);
    var p := w.pending[o];
    InsertedFrame(w, o, now);
    if FitsColumns(NewPayment(o, p.observed, p.plan.status, now)) {
      FinishWritten(w, o, now);
      WrittenState(w.t, Inserted(w, o, now).t, o, p.observed.txid, p.plan);
    }
  }

  lemma InsertedFrame(w: World, o: Id, now: nat)
    requires o in w.pending
    ensures var p := w.pending[o];
      && Inserted(w, o, now).pending == w.pending - {o}
      && (o in w.t.purchases && p.plan.ApplyPlan? ==>
            Inserted(w, o, now).t == FinishObservation(w.t, o, p.observed, p.state, p.evaluation, p.plan, now).0)
  {
    hide FinishObservation;
  }

  lemma WidthsAre(t: Tables, o: Id, b: Observed)
    requires o in t.purchases && b.txid !in t.payments
    ensures Takes(t, o, b) <==>
      ValidMetadata(b) && FitsColumns(NewPayment(o, b, TDetected, 0)) && WellFormed(b) && PaysFor(t.purchases[o].terms, b)
  {
    hide HasText, PaysFor;
  }

  lemma ColumnsAre(o: Id, b: Observed, status: TxStatus, now: nat)
    ensures FitsColumns(NewPayment(o, b, status, now)) == FitsColumns(NewPayment(o, b, TDetected, 0))
  {
  }

  // In every reachable state, observing evidence for an open order that no other observation holds decides it exactly as
  // the evidence says: paid when it confirms, failed when it rejects, confirming when it is settled but decides nothing,
  // detected otherwise, never less than it was; and evidence the order does not take changes nothing.
  lemma EvidenceDecides(events: seq<Event>, o: Id, b: Observed, now: nat, later: nat)
    requires var w := Run(INITIAL, events); o in w.t.purchases && Open(w.t.purchases[o].state) && o !in w.pending
    ensures var w := Run(INITIAL, events); var purchase := w.t.purchases[o];
      var v := Run(INITIAL, events + [Begin(o, b, now)] + [Finish(o, later)]);
      && o !in v.pending && o in v.t.purchases
      && v.t.purchases[o].state == if Takes(w.t, o, b) then StateBy(purchase.terms, purchase.state, b) else purchase.state
  {
    hide *;
    var w := Run(INITIAL, events);
    Reachable(events);
    RunThen(INITIAL, events, Begin(o, b, now));
    RunThen(INITIAL, events + [Begin(o, b, now)], Finish(o, later));
    BeginIs(w, o, b, now);
    FinishIs(Observing(w, o, b, now), o, later);
    if b.txid in w.t.payments { KnownDecides(w, o, b, now); } else { NewDecides(w, o, b, now, later); }
  }

  // The row after evidence was taken: figures of the stored row stay where it had them, its confirmations only rise.
  predicate Stored(t: Tables, o: Id, b: Observed, row: Payment) {
    && row.order == Some(o) && row.asset == b.asset && row.token == b.token && row.eventIndex == b.eventIndex
    && row.fromAddress == b.fromAddress && row.toAddress == b.toAddress && row.amount == b.amount
    && if b.txid in t.payments then
         var stored := t.payments[b.txid];
         && row.confirmations == (if stored.confirmations < b.confirmations then b.confirmations else stored.confirmations)
         && row.blockNumber == (if stored.blockNumber.Some? then stored.blockNumber else b.blockNumber)
         && row.blockTimestamp == (if stored.blockTimestamp.Some? then stored.blockTimestamp else b.blockTimestamp)
       else row.confirmations == b.confirmations && row.blockNumber == b.blockNumber && row.blockTimestamp == b.blockTimestamp
  }

  lemma MergedIsStored(t: Tables, o: Id, b: Observed, status: TxStatus, now: nat)
    requires b.txid in t.payments ==> SameFacts(t.payments[b.txid], o, b)
    ensures b.txid in t.payments ==> Stored(t, o, b, MergedPayment(t.payments[b.txid], o, b, status, now))
    ensures b.txid !in t.payments ==> Stored(t, o, b, MergedPayment(NewPayment(o, b, status, now), o, b, status, now))
  {
  }

  lemma KnownStored(w: World, o: Id, b: Observed, now: nat)
    requires WorldOk(w) && o in w.t.purchases && Open(w.t.purchases[o].state) && o !in w.pending && b.txid in w.t.payments
    requires Takes(w.t, o, b)
    ensures var v := Observing(w, o, b, now); b.txid in v.t.payments && Stored(w.t, o, b, v.t.payments[b.txid])
  {
    hide *;
    WorldParts(w);
    JoinKnown(w, o);
    TermsFit(w, o);
    RowKnown(w, b.txid);
    RowFits(w.t, b.txid);
    FactsAre(w.t, o, b);
    TakenFacts(w.t, o, b);
    var purchase, row := w.t.purchases[o], w.t.payments[b.txid];
    ConflictOrder(row, o, b);
    OpenRow(w, o, b.txid);
    var found := Evaluate(Expected(purchase.terms).value, b);
    var plan := PlanFor(found, purchase.state, Some(row.status));
    OpenMeans(purchase.terms, b, purchase.state, Some(row.status));
    BeginsKnown(w, o, b, now);
    WiderIs(row, o, b, plan.status, now);
    PlanFitsState(found, purchase.state, Some(row.status));
    ApplyLockedOk(w.t, o, b, plan, now, w.t);
    WrittenPurchases(w.t, ApplyLocked(w.t, o, purchase.state, b, plan, now).0, o, b.txid, plan);
    MergedIsStored(w.t, o, b, plan.status, now);
  }

  lemma TakenFacts(t: Tables, o: Id, b: Observed)
    requires o in t.purchases && Takes(t, o, b)
    ensures b.txid in t.payments ==> SameFacts(t.payments[b.txid], o, b)
  {
  }

  lemma NewStored(w: World, o: Id, b: Observed, now: nat, later: nat)
    requires WorldOk(w) && o in w.t.purchases && Open(w.t.purchases[o].state) && o !in w.pending && b.txid !in w.t.payments
    requires Takes(w.t, o, b)
    ensures var begun := Observing(w, o, b, now);
      && o in begun.pending
      && var v := Inserted(begun, o, later); b.txid in v.t.payments && Stored(w.t, o, b, v.t.payments[b.txid])
  {
    hide *;
    WorldParts(w);
    JoinKnown(w, o);
    TermsFit(w, o);
    WidthsAre(w.t, o, b);
    var purchase := w.t.purchases[o];
    var found := Evaluate(Expected(purchase.terms).value, b);
    var plan := PlanFor(found, purchase.state, None);
    OpenMeans(purchase.terms, b, purchase.state, None);
    BeginsNew(w, o, b, now);
    var begun := Observing(w, o, b, now);
    BeginIs(w, o, b, now);
    HandleOk(w, Begin(o, b, now));
    WorldParts(begun);
    PendingFacts(begun, o);
    ColumnsAre(o, b, plan.status, later);
    FinishRow(begun, o, later);
    MergedIsStored(w.t, o, b, plan.status, later);
  }

  // And the row of evidence that is taken says just what was observed, on top of what it said.
  lemma EvidenceIsStored(events: seq<Event>, o: Id, b: Observed, now: nat, later: nat)
    requires var w := Run(INITIAL, events); o in w.t.purchases && Open(w.t.purchases[o].state) && o !in w.pending && Takes(w.t, o, b)
    ensures var v := Run(INITIAL, events + [Begin(o, b, now)] + [Finish(o, later)]);
      b.txid in v.t.payments && Stored(Run(INITIAL, events).t, o, b, v.t.payments[b.txid])
  {
    hide *;
    var w := Run(INITIAL, events);
    Reachable(events);
    RunThen(INITIAL, events, Begin(o, b, now));
    RunThen(INITIAL, events + [Begin(o, b, now)], Finish(o, later));
    BeginIs(w, o, b, now);
    FinishIs(Observing(w, o, b, now), o, later);
    if b.txid in w.t.payments {
      KnownStored(w, o, b, now);
      KnownDecides(w, o, b, now);
    } else {
      NewStored(w, o, b, now, later);
    }
  }
}
