// What a delivery's status says, over every run: accepted means that a step of the run recorded an accepted broadcast, and
// every status past unknown but failed names a transaction that was claimed.
module DelegationReports {
  import opened Prelude
  import opened Chain
  import opened EnergyOrders
  import opened Attempts
  import opened DelegationProtocol
  import opened DelegationSafety
  import opened DelegationTheorems
  import opened DelegationHistory
  import opened DelegationTimes
  import DelegationAmount
  import DelegationRelease
  import DelegationStuck

  predicate Recorded(ord: Order) { exists k :: 0 <= k < |ord.attempts| && ord.attempts[k].acceptedAt.Some? }

  predicate Tells(ord: Order, id: Option<Tx>, status: DeliveryStatus) {
    && (status in {DAccepted, DProcessing, DCompleted} ==> id.Some?)
    && (status == DAccepted ==> Recorded(ord))
  }

  predicate DeliveryTells(ord: Order) {
    ord.delivery.Some? ==> Tells(ord, ord.delivery.value.providerOrderId, ord.delivery.value.status)
  }

  predicate PcTells(ord: Order, pc: Pc) {
    match pc
    case Refresh(_, r) => Tells(ord, r.providerOrderId, r.status)
    case Replace(_, r) => Tells(ord, r.providerOrderId, r.status)
    case Apply(r) => Tells(ord, r.providerOrderId, r.status)
    case _ => true
  }

  predicate NextTells(ord: Order, next: Next) {
    match next
    case Goto(pc) => PcTells(ord, pc)
    case Return(r) => r.Some? ==> Tells(ord, r.value.providerOrderId, r.value.status)
    case _ => true
  }

  predicate EffectTells(e: Effect) { DeliveryTells(e.order) && NextTells(e.order, e.next) }

  lemma RowTells(owner: Address, c: Chain, ord: Order, k: nat, caller: Caller)
    requires OrderOk(owner, c, ord) && k < |ord.attempts|
    ensures NextTells(ord, Reconcile(k, ord.attempts[k], caller))
  {
    RowKnown(owner, c, ord, k);
    hide OrderOk, Recorded;
  }

  lemma AdvanceTells(owner: Address, c: Chain, ord: Order, allow: bool)
    requires OrderOk(owner, c, ord) && ord.attempts != []
    ensures NextTells(ord, AdvanceAttempt(|ord.attempts| - 1, Last(ord), allow))
  {
    RowKnown(owner, c, ord, |ord.attempts| - 1);
    RowTells(owner, c, ord, |ord.attempts| - 1, ByAdvance(allow));
    hide OrderOk, Recorded;
  }

  // Recorded acceptances stay.
  lemma RecordedStays(a: Order, b: Order, pc: Pc, wall: nat)
    requires Stamped(a, b, pc, wall)
    ensures Recorded(a) ==> Recorded(b)
  {
    if Recorded(a) {
      var k :| 0 <= k < |a.attempts| && a.attempts[k].acceptedAt.Some?;
      assert Stamp(b.attempts[k], Acceptance) == StampAfter(a, pc, wall, k, Acceptance);
    }
  }

  lemma DeliverySame(a: Order, b: Order)
    requires DeliveryTells(a) && b.delivery == a.delivery && (Recorded(a) ==> Recorded(b))
    ensures DeliveryTells(b)
  {
    hide Recorded;
  }

  lemma PcLater(a: Order, b: Order, pc: Pc)
    requires PcTells(a, pc) && (Recorded(a) ==> Recorded(b))
    ensures PcTells(b, pc)
  {
    hide Recorded;
  }

  lemma CreateTells(owner: Address, c: Chain, ord: Order, pc: Pc)
    requires OrderOk(owner, c, ord) && DeliveryTells(ord) && PcTells(ord, pc) && PartOf(pc) == Create
    requires Recorded(ord) ==> Recorded(CreateStep(ord, pc).order)
    ensures EffectTells(CreateStep(ord, pc))
  {
    hide Recorded, OrderOk;
    var b := CreateStep(ord, pc).order;
    if (pc.Current? || pc.Replace?) && ord.delivery.Some? {
      CurrentOk(owner, c, ord);
      CurrentNotEmpty(ord.attempts);
      AdvanceTells(owner, c, b, if pc.Current? then pc.allowReplacement else false);
      DeliverySame(ord, b);
      hide AdvanceAttempt, WithCurrent;
    }
  }

  lemma CurrentNotEmpty(rows: seq<Attempt>)
    ensures WithCurrent(rows) != []
  {
  }

  lemma StartTells(owner: Address, wall: nat, ord: Order, pc: Pc, input: Input)
    requires DeliveryTells(ord) && PartOf(pc) == StartAttempt && InRange(ord, pc)
    requires Recorded(ord) ==> Recorded(StartStep(owner, wall, ord, pc, input).order)
    ensures EffectTells(StartStep(owner, wall, ord, pc, input))
  {
    hide Recorded, DelegationAmount.RequiredDelegationSun, RecordState, BindDelegation;
  }

  lemma ClaimTells(ord: Order, k: nat, tx: Tx, caller: Caller)
    requires DeliveryTells(ord) && k < |ord.attempts| && (Recorded(ord) ==> Recorded(ClaimStep(ord, k, tx, caller).order))
    ensures EffectTells(ClaimStep(ord, k, tx, caller))
  {
    hide Recorded, ClaimTransaction;
  }

  lemma RecoveryTells(owner: Address, c: Chain, ord: Order, pc: Pc)
    requires OrderOk(owner, c, ord) && DeliveryTells(ord) && PartOf(pc) == Recovery && InRange(ord, pc)
    ensures EffectTells(RecoveryStep(ord, pc))
  {
    if pc.StatusList? {
      var k := IndexOf(ord.attempts, pc.txid, 0);
      if k < |ord.attempts| { RowTells(owner, c, ord, k, ByStatus); }
    }
    if ord.attempts != [] { RowTells(owner, c, ord, |ord.attempts| - 1, ByStatus); }
    hide Recorded, OrderOk, Reconcile;
  }

  lemma ServiceTells(ord: Order, pc: Pc)
    requires DeliveryTells(ord) && PcTells(ord, pc) && PartOf(pc) == Service
    requires Recorded(ord) ==> Recorded(ServiceStep(ord, pc).order)
    ensures EffectTells(ServiceStep(ord, pc))
  {
    hide Recorded;
  }

  lemma ReconcileTells(owner: Address, c: Chain, wall: nat, ord: Order, pc: Pc, input: Input)
    requires DeliveryTells(ord) && PcOk(owner, c, ord, pc) && PartOf(pc) == ReconcileAttempt && InRange(ord, pc)
    requires Recorded(ord) ==> Recorded(ReconcileStep(c, wall, ord, pc, input).order)
    ensures EffectTells(ReconcileStep(c, wall, ord, pc, input))
  {
    if pc.RecordBroadcast? {
      if pc.accepted { BroadcastTells(ord, pc, wall); }
      hide Recorded;
    } else {
      hide Recorded, RecordState;
    }
  }

  lemma BroadcastTells(ord: Order, pc: Pc, wall: nat)
    requires pc.RecordBroadcast? && InRange(ord, pc) && pc.accepted
    ensures var r := RecordState(ord.attempts[pc.k], StateReport(BroadcastStatus(pc.known, true), true, false, None), wall);
      r.Ok? ==> Recorded(ord.(attempts := ord.attempts[pc.k := r.value]))
  {
    var r := RecordState(ord.attempts[pc.k], StateReport(BroadcastStatus(pc.known, true), true, false, None), wall);
    if r.Ok? { assert ord.attempts[pc.k := r.value][pc.k].acceptedAt.Some?; }
  }

  lemma PerformTells(owner: Address, c: Chain, wall: nat, ord: Order, pc: Pc, input: Input)
    requires OrderOk(owner, c, ord) && PcOk(owner, c, ord, pc) && InRange(ord, pc) && DeliveryTells(ord) && PcTells(ord, pc)
    ensures EffectTells(Perform(owner, c, wall, ord, pc, input))
    ensures Recorded(ord) ==> Recorded(Perform(owner, c, wall, ord, pc, input).order)
  {
    hide *;
    if input.Fail? {
      ThrowTells(owner, c, wall, ord, pc);
    } else {
      StampedStep(owner, c, wall, ord, pc, input);
      RecordedStays(ord, Perform(owner, c, wall, ord, pc, input).order, pc, wall);
      PartTells(owner, c, wall, ord, pc, input);
    }
  }

  lemma ThrowTells(owner: Address, c: Chain, wall: nat, ord: Order, pc: Pc)
    requires InRange(ord, pc) && DeliveryTells(ord)
    ensures Perform(owner, c, wall, ord, pc, Fail).order == ord && EffectTells(Perform(owner, c, wall, ord, pc, Fail))
  {
    hide Recorded;
  }

  lemma PartTells(owner: Address, c: Chain, wall: nat, ord: Order, pc: Pc, input: Input)
    requires OrderOk(owner, c, ord) && PcOk(owner, c, ord, pc) && InRange(ord, pc) && DeliveryTells(ord) && PcTells(ord, pc)
    requires !input.Fail? && (Recorded(ord) ==> Recorded(Perform(owner, c, wall, ord, pc, input).order))
    ensures EffectTells(Perform(owner, c, wall, ord, pc, input))
  {
    hide OrderOk, PcOk, DeliveryTells, PcTells, EffectTells, Recorded, StartStep, ReconcileStep, CreateStep, RecoveryStep, ClaimStep,
      ServiceStep;
    match PartOf(pc)
    case Create => CreateTells(owner, c, ord, pc);
    case StartAttempt => StartTells(owner, wall, ord, pc, input);
    case ReconcileAttempt => ReconcileTells(owner, c, wall, ord, pc, input);
    case Recovery => RecoveryTells(owner, c, ord, pc);
    case Claiming => ClaimTells(ord, pc.k, pc.tx, pc.caller);
    case Service => ServiceTells(ord, pc);
  }

  // ---- one event, and every run ----

  predicate WorldTells(w: World) {
    && (forall o <- w.orders :: DeliveryTells(w.orders[o]))
    && (forall p <- w.procs :: w.procs[p].order in w.orders && PcTells(w.orders[w.procs[p].order], w.procs[p].pc))
  }

  lemma OrderTells(w: World, e: Event, o: Id)
    requires WorldOk(w) && WorldTells(w) && o in Handle(w, e).orders
    ensures DeliveryTells(Handle(w, e).orders[o])
    ensures o in w.orders && Recorded(w.orders[o]) ==> Recorded(Handle(w, e).orders[o])
  {
    hide WorldOk, Handle, DeliveryTells, PcTells, Perform, SignCommit, OrderOk, PcOk, Recorded, EffectTells;
    if o !in w.orders {
      if (e.Step? || e.Unacknowledged?) && e.pid in w.procs { OrderHere(w, e.pid); }
      NewTells(w, e, o);
    } else if (e.Step? || e.Unacknowledged?) && e.pid in w.procs && w.procs[e.pid].order == o {
      DelegationRelease.SteppedProc(w, e, e.pid);
      DelegationStuck.SteppedOrders(w, e, e.pid);
      PerformTells(w.owner, w.chain, w.wall, w.orders[o], w.procs[e.pid].pc, e.input);
      EffectParts(Perform(w.owner, w.chain, w.wall, w.orders[o], w.procs[e.pid].pc, e.input));
    } else {
      if e.SignerCommit? { SignedTells(w, e.request, o); }
      OrderElsewhere(w, e, o);
    }
  }

  lemma EffectParts(e: Effect)
    requires EffectTells(e)
    ensures DeliveryTells(e.order) && NextTells(e.order, e.next)
  {
  }

  lemma NewTells(w: World, e: Event, o: Id)
    requires o !in w.orders && o in Handle(w, e).orders
    requires (e.Step? || e.Unacknowledged?) && e.pid in w.procs ==> w.procs[e.pid].order != o
    ensures DeliveryTells(Handle(w, e).orders[o])
  {
    hide Perform, Settle, SignAttempt, Advance, Recorded;
  }

  lemma SignedTells(w: World, r: SignRequest, o: Id)
    requires o in w.orders && DeliveryTells(w.orders[o])
    ensures o in SignCommit(w, r).orders && DeliveryTells(SignCommit(w, r).orders[o])
    ensures Recorded(w.orders[o]) ==> Recorded(SignCommit(w, r).orders[o])
  {
    SignedTimes(w, r, o);
    var a, b := w.orders[o], SignCommit(w, r).orders[o];
    if Recorded(a) {
      var k :| 0 <= k < |a.attempts| && a.attempts[k].acceptedAt.Some?;
      assert Stamp(b.attempts[k], Acceptance) == Stamp(a.attempts[k], Acceptance);
    }
    assert b.delivery == a.delivery;
    DeliverySame(a, b);
  }

  lemma ProcTells(w: World, e: Event, p: Pid)
    requires WorldOk(w) && WorldTells(w) && p in Handle(w, e).procs && Handle(w, e).procs[p].order in Handle(w, e).orders
    ensures var v := Handle(w, e); PcTells(v.orders[v.procs[p].order], v.procs[p].pc)
  {
    hide WorldOk, Handle, DeliveryTells, PcTells, NextTells, Perform, Recorded, EffectTells, OrderOk, PcOk;
    var v := Handle(w, e);
    var o := v.procs[p].order;
    OrderTells(w, e, o);
    DispatchTells(v.orders[o]);
    if DelegationRelease.Steps(e, p) {
      if p in w.procs {
        DelegationRelease.SteppedProc(w, e, p);
        DelegationStuck.SteppedOrders(w, e, p);
        var proc := w.procs[p];
        var done := Perform(w.owner, w.chain, w.wall, w.orders[proc.order], proc.pc, e.input);
        PerformTells(w.owner, w.chain, w.wall, w.orders[proc.order], proc.pc, e.input);
        EffectParts(done);
        var next := if e.Step? then done.next else Throw;
        ThrowNext(done.order, done.next, next);
        DelegationRelease.SettledOrder(proc, next);
        SettledTells(done.order, proc, next);
      } else {
        DelegationRelease.NoProc(w, e, p);
      }
    } else {
      DelegationRelease.OtherProc(w, e, p);
      if p in w.procs && v.procs[p] == w.procs[p] { PcLater(w.orders[o], v.orders[o], w.procs[p].pc); }
    }
  }

  lemma ThrowNext(ord: Order, done: Next, next: Next)
    requires NextTells(ord, done) && (next == done || next == Throw)
    ensures NextTells(ord, next)
  {
  }

  lemma SettledTells(ord: Order, proc: Proc, next: Next)
    requires NextTells(ord, next)
    ensures Settle(proc, next).Some? ==> PcTells(ord, Settle(proc, next).value.pc)
  {
    hide Recorded;
  }

  lemma DispatchTells(ord: Order)
    ensures forall pc: Pc :: pc.Dispatch? ==> PcTells(ord, pc)
  {
  }

  lemma {:induction false} RunTells(w: World, events: seq<Event>)
    requires WorldOk(w) && WorldTells(w)
    ensures WorldTells(Run(w, events))
    decreases |events|
  {
    hide WorldOk, Handle, DeliveryTells, PcTells;
    if events != [] {
      var v := Handle(w, events[0]);
      HandleOk(w, events[0]);
      forall o | o in v.orders ensures DeliveryTells(v.orders[o]) { OrderTells(w, events[0], o); }
      forall p | p in v.procs ensures v.procs[p].order in v.orders && PcTells(v.orders[v.procs[p].order], v.procs[p].pc) {
        OrderHere(v, p);
        ProcTells(w, events[0], p);
      }
      RunTells(v, events[1..]);
    }
  }

  // A delivery is accepted only if some attempt of its order has been recorded as accepted by a node, at a wall time of the
  // run; and while it is accepted, processing or completed it names a transaction of its order.
  lemma DeliveryTellsWhatWasRecorded(owner: Address, events: seq<Event>, o: Id)
    requires var w := Run(Initial(owner), events); o in w.orders && w.orders[o].delivery.Some?
    ensures var d := Run(Initial(owner), events).orders[o].delivery.value;
      && (d.status in {DAccepted, DProcessing, DCompleted} ==> d.providerOrderId.Some?)
      && (d.status == DAccepted ==>
            exists k: nat, i: nat, t: nat :: FirstAt(owner, events, (o, k), Acceptance, i, t))
  {
    hide Run, WorldOk, FirstAt, Initial;
    RunTellsAll(owner, events);
    var w := Run(Initial(owner), events);
    assert DeliveryTells(w.orders[o]);
    if w.orders[o].delivery.value.status == DAccepted {
      var k :| 0 <= k < |w.orders[o].attempts| && w.orders[o].attempts[k].acceptedAt.Some?;
      assert At(w, (o, k));
      TimesAreOfRecordings(owner, events, (o, k), Acceptance, w.orders[o].attempts[k].acceptedAt.value);
    }
  }

  lemma RunTellsAll(owner: Address, events: seq<Event>)
    ensures WorldTells(Run(Initial(owner), events))
  {
    Reachable(owner, []);
    RunTells(Initial(owner), events);
  }
}
