// What signed -> completed being no allowed transition does: a delivery whose broadcast outcome was never recorded stays
// open although its energy was delegated, for as long as every answer about its transaction is that it completed.
module DelegationStuck {
  import opened Prelude
  import opened Chain
  import opened EnergyOrders
  import opened Attempts
  import opened DelegationProtocol
  import opened DelegationSafety
  import opened DelegationTheorems
  import DelegationRelease
  import opened DelegationRace

  // The last attempt is signed and claimed, its transaction finalised as a success, and the order still dispatching.
  predicate Undecided(c: Chain, ord: Order) {
    && ord.state == ODispatching && ord.attempts != [] && Last(ord).status == Signed
    && Last(ord).txid.Some? && Final(c, Last(ord).txid.value, Succeeded)
  }

  // ---- such a state is reached ----

  lemma CrashedAfterBroadcast()
    ensures var w := Handle(Handle(W10A, Crash(1)), Crash(2));
      w == Asked(DPending, Some(SENT), CLAIMED, {SENT}, map[])
  {
  }

  lemma ThenFinal()
    ensures var crashed := Asked(DPending, Some(SENT), CLAIMED, {SENT}, map[]);
      var w := Handle(Handle(crashed, OnChain(Block(1, map[SENT := Succeeded]))), OnChain(Solidify(1)));
      1 in w.orders && w.procs == map[] && Undecided(w.chain, w.orders[1])
  {
  }

  // The broadcast is accepted, every operation crashes before the answer is recorded, and the transaction succeeds.
  lemma SignedCompletionIsReached() returns (events: seq<Event>)
    ensures var w := Run(Initial(POOL), events); 1 in w.orders && w.procs == map[] && Undecided(w.chain, w.orders[1])
  {
    hide Handle, Initial;
    var last := [OnChain(Block(1, map[SENT := Succeeded])), OnChain(Solidify(1))] + [];
    RunTwo(Asked(DPending, Some(SENT), CLAIMED, {SENT}, map[]), OnChain(Block(1, map[SENT := Succeeded])), OnChain(Solidify(1)), []);
    ThenFinal();
    CrashedAfterBroadcast();
    RunTwo(W10A, Crash(1), Crash(2), last);
    var crashed := [Crash(1), Crash(2)] + last;
    S11A();
    assert ([Step(1, Sent(true))] + crashed)[1..] == crashed;
    events := ToBroadcast([Step(1, Sent(true))] + crashed);
  }

  // ---- the completion is refused ----

  // Recording a completion seen on a signed row throws and changes neither a row nor an order: only the operation goes on.
  lemma CompletionIsRefused(w: World, pid: Pid)
    requires WorldOk(w) && pid in w.procs && w.procs[pid].pc.RecordSeen? && w.procs[pid].pc.seen == SeenCompleted
    requires w.orders[w.procs[pid].order].attempts[w.procs[pid].pc.k].status == Signed
    ensures var proc, v := w.procs[pid], Handle(w, Step(pid, Proceed)); var ord := w.orders[proc.order];
      && Perform(w.owner, w.chain, w.wall, ord, proc.pc, Proceed) == Effect(ord, Throw)
      && v == w.(procs := v.procs)
  {
    hide WorldOk, PcOk, Handle, Perform;
    var proc := w.procs[pid];
    DelegationRelease.SteppedHere(w, pid);
    KnownRow(w.owner, w.chain, w.orders[proc.order], proc.pc);
    RefusedHere(w.owner, w.chain, w.wall, w.orders[proc.order], proc.pc);
    StepTaken(w, pid);
  }

  lemma StepTaken(w: World, pid: Pid)
    requires pid in w.procs && w.procs[pid].order in w.orders && InRange(w.orders[w.procs[pid].order], w.procs[pid].pc)
    requires !w.procs[pid].pc.Broadcast? && !w.procs[pid].pc.SignCall?
    requires Perform(w.owner, w.chain, w.wall, w.orders[w.procs[pid].order], w.procs[pid].pc, Proceed)
      == Effect(w.orders[w.procs[pid].order], Throw)
    ensures Handle(w, Step(pid, Proceed)) == w.(procs := Handle(w, Step(pid, Proceed)).procs)
  {
    hide Perform, Settle;
  }

  lemma KnownRow(owner: Address, c: Chain, ord: Order, pc: Pc)
    requires PcOk(owner, c, ord, pc) && pc.RecordSeen?
    ensures InRange(ord, pc)
  {
  }

  lemma RefusedHere(owner: Address, c: Chain, wall: nat, ord: Order, pc: Pc)
    requires pc.RecordSeen? && pc.seen == SeenCompleted && InRange(ord, pc) && ord.attempts[pc.k].status == Signed
    ensures Perform(owner, c, wall, ord, pc, Proceed) == Effect(ord, Throw)
  {
  }

  // ---- and it stays so ----

  // The places an operation on such an order gets to when no answer about the transaction is processing or unknown.
  predicate Waits(ord: Order, pc: Pc) {
    match pc
    case Dispatch(_) => true
    case Apply(_) => true
    case Lookup => true
    case Current(_) => true
    case Refresh(_, _) => true
    case Replace(_, _) => true
    case Observe(_, _, _) => true
    case RecordSeen(k, _, seen, _) => k == |ord.attempts| - 1 ==> !Moves(seen)
    case StatusLookup(_) => true
    case StatusList(_) => true
    case FindLookup => true
    case FindList => true
    case _ => false
  }

  // The answers that a signed row accepts although the transaction is final.
  predicate Moves(seen: Observation) { seen == SeenProcessing || seen == SeenUnknown }

  predicate AnswerWaits(ord: Order, pc: Pc, input: Input) {
    pc.Observe? && pc.k == |ord.attempts| - 1 && input.Saw? ==> !Moves(input.seen)
  }

  lemma WaitingCreate(c: Chain, ord: Order, pc: Pc)
    requires Undecided(c, ord) && PartOf(pc) == Create
    ensures var e := CreateStep(ord, pc); e.order == ord && (e.next.Goto? ==> Waits(ord, e.next.pc))
  {
    assert ord.(attempts := ord.attempts) == ord;
  }

  lemma WaitingRecovery(c: Chain, ord: Order, pc: Pc)
    requires Undecided(c, ord) && InRange(ord, pc) && PartOf(pc) == Recovery && Waits(ord, pc)
    ensures var e := RecoveryStep(ord, pc); e.order == ord && (e.next.Goto? ==> Waits(ord, e.next.pc))
  {
  }

  lemma WaitingService(owner: Address, c: Chain, ord: Order, pc: Pc)
    requires OrderOk(owner, c, ord) && PcOk(owner, c, ord, pc) && Undecided(c, ord) && PartOf(pc) == Service
    ensures var e := ServiceStep(ord, pc); Undecided(c, e.order) && e.order.attempts == ord.attempts && !e.next.Goto?
  {
    hide IdKnown;
  }

  lemma WaitingReconcile(owner: Address, c: Chain, wall: nat, ord: Order, pc: Pc, input: Input)
    requires OrderOk(owner, c, ord) && PcOk(owner, c, ord, pc) && InRange(ord, pc) && Undecided(c, ord)
    requires PartOf(pc) == ReconcileAttempt && Waits(ord, pc) && AnswerWaits(ord, pc, input)
    ensures var e := ReconcileStep(c, wall, ord, pc, input);
      && Undecided(c, e.order) && |e.order.attempts| == |ord.attempts|
      && (e.next.Goto? ==> Waits(e.order, e.next.pc))
  {
    if pc.RecordSeen? {
      assert pc.k < |ord.attempts| - 1 ==> ord.attempts[pc.k].status == Expired;
      hide OrderOk, IdKnown;
    } else {
      hide OrderOk, IdKnown;
    }
  }

  // ---- over every continuation ----

  ghost predicate Stuck(w: World, o: Id) {
    && WorldOk(w) && o in w.orders && Undecided(w.chain, w.orders[o])
    && forall p :: p in w.procs && w.procs[p].order == o ==> Waits(w.orders[o], w.procs[p].pc)
  }

  // No operation on the order is told that its transaction is processing or that nothing is known of it.
  predicate Silent(w: World, e: Event, o: Id)
    requires o in w.orders
  {
    (e.Step? || e.Unacknowledged?) && e.pid in w.procs && w.procs[e.pid].order == o ==>
      AnswerWaits(w.orders[o], w.procs[e.pid].pc, e.input)
  }

  predicate AllSilent(w: World, events: seq<Event>, o: Id)
    decreases |events|
  {
    events == [] || (o in w.orders && Silent(w, events[0], o) && AllSilent(Handle(w, events[0]), events[1..], o))
  }

  lemma WaitingStep(owner: Address, c: Chain, wall: nat, ord: Order, pc: Pc, input: Input)
    requires OrderOk(owner, c, ord) && PcOk(owner, c, ord, pc) && InRange(ord, pc) && Undecided(c, ord)
    requires Waits(ord, pc) && AnswerWaits(ord, pc, input)
    ensures var e := Perform(owner, c, wall, ord, pc, input);
      && Undecided(c, e.order) && |e.order.attempts| == |ord.attempts|
      && (e.next.Goto? ==> Waits(e.order, e.next.pc))
  {
    if !input.Fail? {
      WaitingPart(ord, pc);
      hide OrderOk, PcOk, Undecided, Waits, AnswerWaits, CreateStep, RecoveryStep, ServiceStep, ReconcileStep;
      match PartOf(pc)
      case Create => WaitingCreate(c, ord, pc);
      case Recovery => WaitingRecovery(c, ord, pc);
      case Service => WaitingService(owner, c, ord, pc);
      case ReconcileAttempt => WaitingReconcile(owner, c, wall, ord, pc, input);
    }
  }

  lemma WaitingPart(ord: Order, pc: Pc)
    requires Waits(ord, pc)
    ensures PartOf(pc) in {Create, Recovery, Service, ReconcileAttempt} && !pc.Broadcast?
  {
  }

  lemma WaitsByCount(a: Order, b: Order)
    requires |a.attempts| == |b.attempts|
    ensures forall pc :: Waits(a, pc) == Waits(b, pc)
  {
  }

  lemma WaitingSettle(ord: Order, proc: Proc, next: Next)
    requires next.Goto? ==> Waits(ord, next.pc)
    ensures Settle(proc, next).Some? ==> Waits(ord, Settle(proc, next).value.pc)
  {
  }

  // A sign request that commits late finds the row signed and leaves it.
  lemma SignLeaves(w: World, r: SignRequest, o: Id)
    requires WorldOk(w) && o in w.orders && Undecided(w.chain, w.orders[o])
    ensures SignCommit(w, r).orders[o] == w.orders[o]
  {
    hide PcOk, SignaturesOk, SentOk;
    var ord := w.orders[o];
    assert OrderOk(w.owner, w.chain, ord);
    if r.order == o && r.k < |ord.attempts| {
      RowKnown(w.owner, w.chain, ord, r.k);
      assert r.k < |ord.attempts| - 1 ==> ord.attempts[r.k].status == Expired;
      assert ord.attempts[r.k].txid.Some?;
      hide OrderOk, Undecided, WorldOk, RowOk;
      SignedRowStays(ord.attempts[r.k], w.owner, r.tx, w.wall, r.tx in w.signedBy);
      hide SignAttempt;
      assert ord.attempts[r.k := ord.attempts[r.k]] == ord.attempts;
    }
  }

  lemma SignedRowStays(row: Attempt, owner: Address, tx: Tx, now: nat, taken: bool)
    requires row.signed.Some?
    ensures var r := SignAttempt(row, owner, tx, now, taken); r.Ok? ==> r.value == row
  {
  }

  lemma SteppedOrders(w: World, e: Event, p: Pid)
    requires DelegationRelease.Steps(e, p) && p in w.procs && w.procs[p].order in w.orders
    requires InRange(w.orders[w.procs[p].order], w.procs[p].pc)
    ensures var proc := w.procs[p];
      Handle(w, e).orders == w.orders[proc.order := Perform(w.owner, w.chain, w.wall, w.orders[proc.order], proc.pc, e.input).order]
  {
    hide Perform, Settle;
  }

  lemma OtherOrders(w: World, e: Event, o: Id)
    requires o in w.orders
    requires (e.Step? || e.Unacknowledged?) ==> e.pid !in w.procs || w.procs[e.pid].order != o
    requires e.SignerCommit? ==> o in SignCommit(w, e.request).orders && SignCommit(w, e.request).orders[o] == w.orders[o]
    ensures o in Handle(w, e).orders && Handle(w, e).orders[o] == w.orders[o]
  {
    hide Perform, Settle, SignCommit, Advance;
  }

  // Every event keeps the order undecided and all operations on it waiting.
  lemma UndecidedOrder(w: World, e: Event, o: Id)
    requires Stuck(w, o) && Silent(w, e, o)
    ensures var v := Handle(w, e);
      o in v.orders && Undecided(w.chain, v.orders[o]) && |v.orders[o].attempts| == |w.orders[o].attempts|
  {
    hide WorldOk, OrderOk, PcOk, Handle, Undecided, Waits, AnswerWaits, Perform, SignCommit;
    if (e.Step? || e.Unacknowledged?) && e.pid in w.procs && w.procs[e.pid].order == o {
      DelegationRelease.SteppedProc(w, e, e.pid);
      WaitingStep(w.owner, w.chain, w.wall, w.orders[o], w.procs[e.pid].pc, e.input);
      SteppedOrders(w, e, e.pid);
    } else {
      if e.SignerCommit? { SignLeaves(w, e.request, o); SignCommitKeys(w, e.request); }
      OtherOrders(w, e, o);
    }
  }

  lemma SignCommitKeys(w: World, r: SignRequest)
    ensures SignCommit(w, r).orders.Keys == w.orders.Keys
  {
    hide SignAttempt;
  }

  lemma WaitingProc(w: World, e: Event, o: Id, p: Pid)
    requires Stuck(w, o) && Silent(w, e, o) && p in Handle(w, e).procs && Handle(w, e).procs[p].order == o
    requires o in Handle(w, e).orders && |Handle(w, e).orders[o].attempts| == |w.orders[o].attempts|
    ensures Waits(Handle(w, e).orders[o], Handle(w, e).procs[p].pc)
  {
    hide WorldOk, OrderOk, PcOk, Handle, Undecided, Waits, AnswerWaits, Perform, Settle;
    WaitsByCount(w.orders[o], Handle(w, e).orders[o]);
    StartsWaiting(w.orders[o]);
    if DelegationRelease.Steps(e, p) {
      if p in w.procs {
        DelegationRelease.SteppedProc(w, e, p);
        var proc := w.procs[p];
        var done := Perform(w.owner, w.chain, w.wall, w.orders[proc.order], proc.pc, e.input);
        var next := if e.Step? then done.next else Throw;
        DelegationRelease.SettledOrder(proc, next);
        WaitingStep(w.owner, w.chain, w.wall, w.orders[o], proc.pc, e.input);
        WaitingSettle(done.order, proc, next);
        WaitsByCount(done.order, Handle(w, e).orders[o]);
      } else {
        DelegationRelease.NoProc(w, e, p);
      }
    } else {
      DelegationRelease.OtherProc(w, e, p);
    }
  }

  lemma StartsWaiting(ord: Order)
    ensures forall pc: Pc :: pc.Dispatch? ==> Waits(ord, pc)
  {
  }

  lemma UndecidedLater(c: Chain, d: Chain, ord: Order)
    requires Undecided(c, ord) && ChainEvolves(c, d)
    ensures Undecided(d, ord)
  {
  }

  lemma StuckStays(w: World, e: Event, o: Id)
    requires Stuck(w, o) && Silent(w, e, o)
    ensures Stuck(Handle(w, e), o)
  {
    var v := Handle(w, e);
    hide WorldOk, Handle, Undecided, Waits, AnswerWaits, ChainEvolves, OrderEvolves, Silent;
    HandleOk(w, e);
    UndecidedOrder(w, e, o);
    UndecidedLater(w.chain, v.chain, v.orders[o]);
    forall p | p in v.procs && v.procs[p].order == o ensures Waits(v.orders[o], v.procs[p].pc) { WaitingProc(w, e, o, p); }
  }

  // Whatever else happens, for however long: the order stays dispatching and its last row signed, with the delegation
  // final on the chain, until some operation is told that the transaction is processing or unknown.
  lemma {:induction false} StuckUntilToldOtherwise(w: World, events: seq<Event>, o: Id)
    requires Stuck(w, o) && AllSilent(w, events, o)
    ensures Stuck(Run(w, events), o)
    decreases |events|
  {
    hide Stuck, Handle, Silent;
    if events != [] {
      StuckStays(w, events[0], o);
      StuckUntilToldOtherwise(Handle(w, events[0]), events[1..], o);
    }
  }

  // Being told so does unblock it: recording either answer takes the row out of signed.
  lemma ToldOtherwise(owner: Address, c: Chain, wall: nat, ord: Order, k: nat, row: Attempt, seen: Observation, caller: Caller)
    requires OrderOk(owner, c, ord) && PcOk(owner, c, ord, RecordSeen(k, row, seen, caller)) && Undecided(c, ord)
    requires k == |ord.attempts| - 1 && row.txid == Last(ord).txid
    ensures var e := Perform(owner, c, wall, ord, RecordSeen(k, row, seen, caller), Proceed);
      |e.order.attempts| == k + 1 && (e.order.attempts[k].status != Signed <==> Moves(seen))
  {
    hide OrderOk, IdKnown;
  }

  // A run from the start after which the order is delivered but open in all these continuations.
  lemma DeliveredButOpen() returns (events: seq<Event>)
    ensures var w := Run(Initial(POOL), events);
      forall more: seq<Event> :: AllSilent(w, more, 1) ==>
        var v := Run(w, more);
        1 in v.orders && v.orders[1].state == ODispatching && Ended(v.orders[1], Signed)
          && Last(v.orders[1]).txid.Some? && Final(v.chain, Last(v.orders[1]).txid.value, Succeeded)
  {
    hide Run, WorldOk, AllSilent, Initial;
    events := SignedCompletionIsReached();
    var w := Run(Initial(POOL), events);
    Reachable(POOL, events);
    forall more: seq<Event> | AllSilent(w, more, 1) ensures Stuck(Run(w, more), 1) { StuckUntilToldOtherwise(w, more, 1); }
  }
}
