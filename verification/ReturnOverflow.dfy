// That returning units can overflow is not only a condition on tables: a run from the empty tables that ends in a failed
// delivery which cannot be recorded. src/adapters/database/postgres-energy-usage-repository.ts gives the units of a failed
// delivery back to a 32-bit count that purchases may have filled in the meantime.
module ReturnOverflow {
  import opened Prelude
  import Chain
  import opened EnergyOrders
  import opened PurchasePayment
  import opened PaymentPlan
  import opened Tables
  import opened PaymentLifecycle
  import opened EnergyUsage
  import opened Accounting
  import opened PaymentInvariants
  import opened LedgerInvariants
  import opened AccountingSafety
  import opened AccountingTheorems

  function Terms(count: int): Snapshot { Snapshot("p", count, 1, 0, TRX, "to", None, 1, 1, None) }

  function Paying(txid: Txid): Observed {
    Observed(TRX, txid, None, None, "from", "to", 1, 1, true, SolidifiedNode, ExecutionSuccess, None, None)
  }

  const PAID := ApplyPlan(TConfirmed, [PDetected, PConfirming, PPaid])

  lemma NonEmptyBy(s: string)
    requires s != [] && !IsSpace(s[0]) && !IsSpace(s[|s| - 1])
    ensures NonEmpty(s)
  {
  }

  lemma TermsAreValid(count: int)
    requires count > 0
    ensures Expected(Terms(count)) == Some(Expectation(TRX, None, "to", 1, 1)) && Validate(Terms(count)).None?
  {
    NonEmptyBy("p");
    NonEmptyBy("to");
    hide NonEmpty;
  }

  lemma PayingIsConfirmed(txid: Txid)
    requires NonEmpty(txid)
    ensures Evaluate(Expectation(TRX, None, "to", 1, 1), Paying(txid)) == EConfirmed
    ensures PlanFor(EConfirmed, PWaiting, None) == PAID
  {
    hide NonEmpty, LegalPath;
    NonEmptyBy("from");
    NonEmptyBy("to");
    PaidPlan();
    hide PlanFor;
  }

  lemma PaidPlan()
    ensures PlanFor(EConfirmed, PWaiting, None) == PAID
  {
    hide LegalPath;
    HappyPathLegal(PWaiting, PPaid);
    var steps := HAPPY_PATH[1..4];
    assert |steps| == 3 && steps[0] == PDetected && steps[1] == PConfirming && steps[2] == PPaid;
  }

  lemma RunJoin(w: World, a: seq<Event>, b: seq<Event>)
    ensures Run(w, a + b) == Run(Run(w, a), b)
    decreases |a|
  {
    if a == [] {
      assert a + b == b;
    } else {
      assert (a + b)[1..] == a[1..] + b;
      RunJoin(Handle(w, a[0]), a[1..], b);
    }
  }

  lemma RunOne(w: World, e: Event)
    ensures Run(w, [e]) == Handle(w, e)
  {
    assert [e][1..] == [];
    assert Run(Handle(w, e), []) == Handle(w, e);
  }

  // ---- buying units ----

  lemma PlaceStep(w: World, o: Id, user: User, count: int)
    requires WorldOk(w) && o !in w.t.purchases && user in w.t.blocked && 0 < count <= INT4_MAX
    ensures var v := Handle(w, Place(o, user, Terms(count)));
      WorldOk(v) && v == w.(t := w.t.(purchases := w.t.purchases[o := Purchase(user, PWaiting, Terms(count))]))
  {
    hide *;
    HandleOk(w, Place(o, user, Terms(count)));
    TermsAreValid(count);
    PlaceIs(w, o, user, count);
  }

  lemma PlaceIs(w: World, o: Id, user: User, count: int)
    requires o !in w.t.purchases && user in w.t.blocked && Validate(Terms(count)).None? && count <= INT4_MAX
    ensures Handle(w, Place(o, user, Terms(count))) ==
      w.(t := w.t.(purchases := w.t.purchases[o := Purchase(user, PWaiting, Terms(count))]))
  {
    hide Validate;
  }

  lemma BeginStep(w: World, o: Id, txid: Txid)
    requires WorldOk(w) && w.pending == map[] && o in w.t.purchases && w.t.purchases[o].state == PWaiting
    requires w.t.purchases[o].terms.count > 0 && w.t.purchases[o].terms == Terms(w.t.purchases[o].terms.count)
    requires NonEmpty(txid) && txid !in w.t.payments
    ensures var v := Handle(w, Begin(o, Paying(txid), 0));
      WorldOk(v) && v == w.(pending := map[o := Pending(Paying(txid), PWaiting, EConfirmed, PAID)])
  {
    hide *;
    HandleOk(w, Begin(o, Paying(txid), 0));
    BeginIs(w, o, Paying(txid), 0);
    TermsAreValid(w.t.purchases[o].terms.count);
    PayingIsConfirmed(txid);
    PayingFits(o, txid);
    ObservingNew(w, o, Paying(txid));
    assert w.pending[o := Pending(Paying(txid), PWaiting, EConfirmed, PAID)] == map[o := Pending(Paying(txid), PWaiting, EConfirmed, PAID)];
  }

  lemma ObservingNew(w: World, o: Id, observed: Observed)
    requires o in w.t.purchases && Expected(w.t.purchases[o].terms).Some? && ValidMetadata(observed) && observed.txid !in w.t.payments
    ensures var evaluation := Evaluate(Expected(w.t.purchases[o].terms).value, observed);
      var state := w.t.purchases[o].state; var plan := PlanFor(evaluation, state, None);
      plan.ApplyPlan? ==> Observing(w, o, observed, 0) == w.(pending := w.pending[o := Pending(observed, state, evaluation, plan)])
  {
    hide Expected, Evaluate, PlanFor, ApplyLocked, RowConflict;
  }

  lemma FinishStep(w: World, o: Id, txid: Txid)
    requires WorldOk(w) && o in w.t.purchases && w.t.purchases[o].state == PWaiting && txid !in w.t.payments
    requires w.pending == map[o := Pending(Paying(txid), PWaiting, EConfirmed, PAID)]
    ensures var v := Handle(w, Finish(o, 0));
      && WorldOk(v) && v.pending == map[] && v.reported == w.reported
      && v.t == w.t.(payments := v.t.payments, purchases := w.t.purchases[o := w.t.purchases[o].(state := PPaid)])
      && v.t.payments.Keys == w.t.payments.Keys + {txid}
  {
    hide *;
    HandleOk(w, Finish(o, 0));
    WorldParts(w);
    PendingFacts(w, o);
    PayingFits(o, txid);
    FinishWritten(w, o, 0);
    FinishIs(w, o, 0);
    InsertedFrame(w, o);
    PaidRow(w.t, Inserted(w, o, 0).t, o, txid);
    assert w.pending - {o} == map[];
  }

  lemma PayingFits(o: Id, txid: Txid)
    ensures FitsColumns(NewPayment(o, Paying(txid), TConfirmed, 0)) && PAID.ApplyPlan? && PAID.status == TConfirmed
    ensures Paying(txid).txid == txid && ValidMetadata(Paying(txid))
  {
  }

  lemma InsertedFrame(w: World, o: Id)
    requires o in w.pending
    ensures Inserted(w, o, 0).pending == w.pending - {o} && Inserted(w, o, 0).reported == w.reported
  {
    hide FinishObservation;
  }

  lemma PaidRow(t: Tables, s: Tables, o: Id, txid: Txid)
    requires o in t.purchases && t.purchases[o].state == PWaiting && RowWritten(t, s, o, txid, PAID)
    ensures s.payments.Keys == t.payments.Keys + {txid} && s.purchases == t.purchases[o := t.purchases[o].(state := PPaid)]
  {
  }

  lemma CreditStep(w: World, o: Id)
    requires WorldOk(w) && w.pending == map[] && o in w.t.purchases && w.t.purchases[o].state == PPaid
    requires w.t.purchases[o].user in w.t.balances
    requires w.t.balances[w.t.purchases[o].user].available + w.t.purchases[o].terms.count <= INT4_MAX
    requires w.t.purchases[o].terms.count > 0
    ensures var v := Handle(w, Credit(o)); var user := w.t.purchases[o].user; var b := w.t.balances[user];
      && WorldOk(v) && v.pending == map[]
      && v.t.balances == w.t.balances[user := Balance(b.available + w.t.purchases[o].terms.count, b.reserved)]
      && v.t == w.t.(balances := v.t.balances, ledger := v.t.ledger, purchases := v.t.purchases)
      && v.t.purchases.Keys == w.t.purchases.Keys
  {
    hide *;
    HandleOk(w, Credit(o));
    WorldParts(w);
    TablesParts(w.t);
    JoinKnown(w, o);
    CreditIs(w, o);
    CreditAnswers(w.t, o);
    CreditShaped(w.t, o);
    var s := CreditPaidOrder(w.t, o).0;
    assert s != w.t;
    var x :| CreditShape(w.t, s, o, x);
    CreditedShape(w.t, s, o, x);
  }

  lemma TablesParts(t: Tables)
    requires TablesOk(t)
    ensures EnergyOk(t) && AccountsOk(t) && LedgerOk(t) && MoneyOk(t)
  {
  }

  lemma CreditedShape(t: Tables, s: Tables, o: Id, x: Txid)
    requires CreditShape(t, s, o, x)
    ensures var user := t.purchases[o].user;
      && user in t.balances
      && s.balances == t.balances[user := Balance(t.balances[user].available + t.purchases[o].terms.count, t.balances[user].reserved)]
    ensures s == t.(balances := s.balances, ledger := s.ledger, purchases := s.purchases) && s.purchases.Keys == t.purchases.Keys
  {
  }

  // The user buys count units under new ids: they become available, and nothing else about balances or orders changes.
  lemma Buy(w: World, o: Id, user: User, count: int, txid: Txid) returns (events: seq<Event>)
    requires WorldOk(w) && w.pending == map[] && user in w.t.blocked && user in w.t.balances && 0 < count <= INT4_MAX
    requires o !in w.t.purchases && NonEmpty(txid) && txid !in w.t.payments
    requires w.t.balances[user].available + count <= INT4_MAX
    ensures var v := Run(w, events); var b := w.t.balances[user];
      && WorldOk(v) && v.pending == map[]
      && v.t.balances == w.t.balances[user := Balance(b.available + count, b.reserved)]
      && v.t == w.t.(balances := v.t.balances, ledger := v.t.ledger, purchases := v.t.purchases, payments := v.t.payments)
      && v.t.purchases.Keys == w.t.purchases.Keys + {o} && v.t.payments.Keys == w.t.payments.Keys + {txid}
  {
    hide WorldOk, Handle, NonEmpty;
    var e := [Place(o, user, Terms(count)), Begin(o, Paying(txid), 0), Finish(o, 0), Credit(o)];
    PlaceStep(w, o, user, count);
    var w1 := Handle(w, e[0]);
    BeginStep(w1, o, txid);
    var w2 := Handle(w1, e[1]);
    FinishStep(w2, o, txid);
    var w3 := Handle(w2, e[2]);
    CreditStep(w3, o);
    RunFour(w, e[0], e[1], e[2], e[3]);
    events := e;
  }

  lemma RunFour(w: World, a: Event, b: Event, c: Event, d: Event)
    ensures Run(w, [a, b, c, d]) == Handle(Handle(Handle(Handle(w, a), b), c), d)
  {
    hide Handle;
    assert [a, b, c, d][1..] == [b, c, d] && [b, c, d][1..] == [c, d] && [c, d][1..] == [d];
    assert Run(w, [a, b, c, d]) == Run(Handle(w, a), [b, c, d]);
    assert Run(Handle(w, a), [b, c, d]) == Run(Handle(Handle(w, a), b), [c, d]);
    assert Run(Handle(Handle(w, a), b), [c, d]) == Run(Handle(Handle(Handle(w, a), b), c), [d]);
    RunOne(Handle(Handle(Handle(w, a), b), c), d);
  }

  // ---- the run ----

  const ASKED := ReserveInput(1, "x", "r", "k")
  const HELD := EnergyOrder(1, "k", "x", "r", 1, 1, OReserved, None)
  const SENT := HELD.(state := ODispatching, delivery := Some(DeliveryRow("own", Delivery(DPending, None))))

  // One unit is reserved and its order dispatched.
  lemma Dispatching(w: World) returns (events: seq<Event>)
    requires WorldOk(w) && w.pending == map[] && w.t.energy == map[] && w.t.energyByKey == map[]
    requires 1 in w.t.blocked && !w.t.blocked[1] && 1 in w.t.balances
    requires w.t.balances[1].available >= 1 && w.t.balances[1].reserved == 0
    ensures var v := Run(w, events);
      && WorldOk(v) && v.pending == map[] && v.t.energy == map[1 := SENT]
      && v.t.balances == w.t.balances[1 := Balance(w.t.balances[1].available - 1, 1)]
      && v.t.blocked == w.t.blocked && v.t.purchases == w.t.purchases && v.t.payments == w.t.payments
  {
    hide WorldOk, Handle;
    var e := [SetOption("x", EnergyOption(1, 1)), ReserveUnits(ASKED, 1), Dispatch(1, "own")];
    var w1 := Handle(w, e[0]);
    OptionStep(w);
    var w2 := Handle(w1, e[1]);
    ReserveStep(w1);
    var w3 := Handle(w2, e[2]);
    DispatchStep(w2);
    RunThree(w, e[0], e[1], e[2]);
    events := e;
  }

  lemma OptionStep(w: World)
    requires WorldOk(w)
    ensures var v := Handle(w, SetOption("x", EnergyOption(1, 1)));
      WorldOk(v) && v == w.(t := w.t.(options := w.t.options["x" := EnergyOption(1, 1)]))
  {
    HandleOk(w, SetOption("x", EnergyOption(1, 1)));
    hide WorldOk;
  }

  lemma ReserveStep(w: World)
    requires WorldOk(w) && w.t.energy == map[] && w.t.energyByKey == map[]
    requires "x" in w.t.options && w.t.options["x"] == EnergyOption(1, 1)
    requires 1 in w.t.blocked && !w.t.blocked[1] && 1 in w.t.balances
    requires w.t.balances[1].available >= 1 && w.t.balances[1].reserved == 0
    ensures var v := Handle(w, ReserveUnits(ASKED, 1));
      && WorldOk(v) && v.t.energy == map[1 := HELD]
      && v.t.balances == w.t.balances[1 := Balance(w.t.balances[1].available - 1, 1)]
      && v == w.(t := w.t.(balances := v.t.balances, energy := v.t.energy, energyByKey := v.t.energyByKey, ledger := v.t.ledger))
  {
    hide *;
    HandleOk(w, ReserveUnits(ASKED, 1));
    WorldParts(w);
    TablesParts(w.t);
    ReserveDue(w.t);
    ReserveIs(w);
    ReserveOne(w.t);
  }

  lemma ReserveIs(w: World)
    ensures Handle(w, ReserveUnits(ASKED, 1)) == w.(t := Reserve(w.t, ASKED, 1).0)
  {
    hide Reserve;
  }

  lemma ReserveDue(t: Tables)
    requires LedgerOk(t) && t.energy == map[]
    ensures LedgerFree(t, LedgerKey(REnergyReserve, 1), Entry(1, REnergyReserve, None, None, Some(1), -1, 1))
  {
    hide LedgerOk, LedgerFree;
    EnergyKeyFree(t, LedgerKey(REnergyReserve, 1), Entry(1, REnergyReserve, None, None, Some(1), -1, 1));
  }

  lemma ReserveOne(t: Tables)
    requires t.energy == map[] && t.energyByKey == map[]
    requires "x" in t.options && t.options["x"] == EnergyOption(1, 1)
    requires 1 in t.blocked && !t.blocked[1] && 1 in t.balances && t.balances[1].available >= 1 && t.balances[1].reserved == 0
    requires LedgerFree(t, LedgerKey(REnergyReserve, 1), Entry(1, REnergyReserve, None, None, Some(1), -1, 1))
    ensures var s := Reserve(t, ASKED, 1).0;
      && s.energy == map[1 := HELD] && s.balances == t.balances[1 := Balance(t.balances[1].available - 1, 1)]
      && s == t.(balances := s.balances, energy := s.energy, energyByKey := s.energyByKey, ledger := s.ledger)
  {
    hide LedgerFree;
  }

  lemma DispatchStep(w: World)
    requires WorldOk(w) && w.t.energy == map[1 := HELD] && 1 in w.t.balances
    ensures var v := Handle(w, Dispatch(1, "own"));
      WorldOk(v) && v == w.(t := w.t.(energy := map[1 := SENT]))
  {
    hide *;
    HandleOk(w, Dispatch(1, "own"));
    DispatchIs(w);
    DispatchOne(w.t);
  }

  lemma DispatchIs(w: World)
    ensures Handle(w, Dispatch(1, "own")) == w.(t := StartDispatch(w.t, 1, "own").0)
  {
    hide StartDispatch;
  }

  lemma DispatchOne(t: Tables)
    requires t.energy == map[1 := HELD] && 1 in t.balances
    ensures StartDispatch(t, 1, "own").0 == t.(energy := map[1 := SENT])
  {
    assert map[1 := HELD][1 := SENT] == map[1 := SENT];
  }

  lemma RunThree(w: World, a: Event, b: Event, c: Event)
    ensures Run(w, [a, b, c]) == Handle(Handle(Handle(w, a), b), c)
  {
    hide Handle;
    assert [a, b, c][1..] == [b, c] && [b, c][1..] == [c];
    assert Run(w, [a, b, c]) == Run(Handle(w, a), [b, c]);
    assert Run(Handle(w, a), [b, c]) == Run(Handle(Handle(w, a), b), [c]);
    RunOne(Handle(Handle(w, a), b), c);
  }

  // A user fills the count, reserves one unit, buys one more, and the delivery fails: the report is refused for the width
  // of the count, and the order stays dispatching.
  lemma FailedDeliveryCanOverflow() returns (events: seq<Event>, id: Id, provider: string)
    ensures var w := Run(INITIAL, events);
      && id in w.t.energy && w.t.energy[id].state == ODispatching && SentTo(w.t, id, provider)
      && ApplyDelivery(w.t, id, provider, None, DFailed) == Err(Overflow)
      && Handle(w, Deliver(id, provider, None, DFailed)) == w
  {
    hide Run, WorldOk, NonEmpty, AnswersExactly, ApplyDelivery;
    id, provider := 1, "own";
    NonEmptyBy("a");
    NonEmptyBy("b");
    var w0 := FirstUser();
    events := [Onboard(1)];
    var more := Buy(w0, 1, 1, INT4_MAX, "a");
    var w1 := Run(w0, more);
    RunJoin(INITIAL, events, more);
    events := events + more;
    more := Dispatching(w1);
    var w2 := Run(w1, more);
    RunJoin(INITIAL, events, more);
    events := events + more;
    more := Buy(w2, 2, 1, 1, "b");
    RunJoin(INITIAL, events, more);
    events := events + more;
    Refuses(Run(w2, more));
  }

  lemma FirstUser() returns (w: World)
    ensures w == Run(INITIAL, [Onboard(1)]) && WorldOk(w) && w.pending == map[] && w.t.energy == map[] && w.t.energyByKey == map[]
    ensures w.t.blocked == map[1 := false] && w.t.balances == map[1 := Balance(0, 0)] && w.t.purchases == map[] && w.t.payments == map[]
  {
    InitialOk();
    HandleOk(INITIAL, Onboard(1));
    hide WorldOk;
    w := Handle(INITIAL, Onboard(1));
    RunOne(INITIAL, Onboard(1));
    assert map[][1 := false] == map[1 := false] && map[][1 := Balance(0, 0)] == map[1 := Balance(0, 0)];
  }

  lemma Refuses(w: World)
    requires WorldOk(w) && w.t.energy == map[1 := SENT] && 1 in w.t.balances && w.t.balances[1].available == INT4_MAX
    ensures SentTo(w.t, 1, "own") && w.t.energy[1].state == ODispatching
    ensures ApplyDelivery(w.t, 1, "own", None, DFailed) == Err(Overflow)
    ensures Handle(w, Deliver(1, "own", None, DFailed)) == w
  {
    hide *;
    WorldParts(w);
    ApplyDeliveryOk(w.t, 1, "own", None, DFailed);
    ReturnsTooMuch(w.t, ApplyDelivery(w.t, 1, "own", None, DFailed));
    DeliverIs(w, 1, "own", None, DFailed);
  }

  lemma ReturnsTooMuch(t: Tables, r: Result<Tables, ApplyError>)
    requires t.energy == map[1 := SENT] && 1 in t.balances && t.balances[1].available == INT4_MAX
    requires AnswersExactly(t, 1, "own", None, DFailed, r)
    ensures SentTo(t, 1, "own") && t.energy[1].state == ODispatching && r == Err(Overflow)
  {
  }

  lemma DeliverIs(w: World, id: Id, provider: string, providerOrderId: Option<Chain.Tx>, report: DeliveryStatus)
    requires report != DPending && ApplyDelivery(w.t, id, provider, providerOrderId, report).Err?
    ensures Handle(w, Deliver(id, provider, providerOrderId, report)) == w
  {
    hide ApplyDelivery;
  }
}
