// The delegation protocol when at most one operation runs per order, which withOrderOperation provides inside
// one process (src/application/energy/energy-usage-service.ts:422-441; see OrderMutex).
module DelegationSerial {
  import opened Prelude
  import opened Chain
  import opened EnergyOrders
  import opened Attempts
  import opened DelegationProtocol
  import opened DelegationSafety
  import opened DelegationTheorems

  predicate Busy(w: World, o: Id) { exists p :: p in w.procs && w.procs[p].order == o }

  function HandleSerial(w: World, e: Event): World {
    if e.Begin? && Busy(w, e.order) then w else Handle(w, e)
  }

  function RunSerial(w: World, events: seq<Event>): World
    decreases |events|
  {
    if events == [] then w else RunSerial(HandleSerial(w, events[0]), events[1..])
  }

  // A failed attempt either never had a transaction to broadcast, or had one that reverted.
  predicate FailSafe(c: Chain, ord: Order) {
    Ended(ord, Failed) ==> Last(ord).txid.None? || Final(c, Last(ord).txid.value, Reverted)
  }

  // Before the capacity check records a failure, nothing has been claimed for the attempt.
  predicate PcSerial(ord: Order, pc: Pc) {
    match pc
    case FindSigned(k, _) => k < |ord.attempts| && ord.attempts[k].status == Created
    case Measure(k) => k < |ord.attempts| && ord.attempts[k].status == Created
    case Capacity(k, _) => k < |ord.attempts| && ord.attempts[k].status == Created
    case RecordCapacity(k) => k < |ord.attempts| && ord.attempts[k].status == Created
    case _ => true
  }

  predicate NextSerial(ord: Order, next: Next) { next.Goto? ==> PcSerial(ord, next.pc) }

  ghost predicate SerialStepOk(c: Chain, e: Effect) { FailSafe(c, e.order) && NextSerial(e.order, e.next) }

  lemma UpdateSerial(owner: Address, c: Chain, ord: Order, k: nat, r: Result<Attempt, JournalError>, next: Next)
    requires OrderOk(owner, c, ord) && FailSafe(c, ord) && k < |ord.attempts|
    requires NextSerial(ord, Throw)
    requires next.Goto? ==> !next.pc.FindSigned? && !next.pc.Measure? && !next.pc.Capacity? && !next.pc.RecordCapacity?
    requires r.Ok? && r.value.status == Failed ==> r.value.txid.None? || Final(c, r.value.txid.value, Reverted)
    ensures SerialStepOk(c, Update(ord, k, r, next))
  {
  }

  lemma StartSerial(owner: Address, c: Chain, wall: nat, ord: Order, pc: Pc, input: Input)
    requires OrderOk(owner, c, ord) && FailSafe(c, ord) && PcSerial(ord, pc) && InRange(ord, pc) && PartOf(pc) == StartAttempt
    ensures SerialStepOk(c, StartStep(owner, wall, ord, pc, input))
  {
    match pc
    case BindSigned(k, tx) =>
      hide PcSerial;
      BindSerial(owner, c, ord, k, BindingOf(tx), Goto(Claim(k, tx, ByStart)));
    case BindUnsigned(k, tx) =>
      hide PcSerial;
      BindSerial(owner, c, ord, k, BindingOf(tx), Goto(SignCall(k, tx)));
    case RecordCapacity(k) =>
      RowKnown(owner, c, ord, k);
      LastOrExpired(owner, c, ord, k);
      UpdateSerial(owner, c, ord, k, RecordState(ord.attempts[k], StateReport(Failed, false, false, None), wall),
                   Return(Some(Report(None, DFailed))));
    case _ => hide OrderOk, FailSafe;
  }

  lemma BindSerial(owner: Address, c: Chain, ord: Order, k: nat, binding: Binding, next: Next)
    requires OrderOk(owner, c, ord) && FailSafe(c, ord) && k < |ord.attempts|
    requires next.Goto? && !next.pc.FindSigned? && !next.pc.Measure? && !next.pc.Capacity? && !next.pc.RecordCapacity?
    ensures SerialStepOk(c, Update(ord, k, BindDelegation(ord.attempts[k], binding), next))
  {
    LastOrExpired(owner, c, ord, k);
    var r := BindDelegation(ord.attempts[k], binding);
    assert r.Ok? ==> r.value.status == ord.attempts[k].status && r.value.txid == ord.attempts[k].txid;
    UpdateSerial(owner, c, ord, k, r, next);
  }

  lemma ReconcileSerial(owner: Address, c: Chain, wall: nat, ord: Order, pc: Pc, input: Input)
    requires OrderOk(owner, c, ord) && FailSafe(c, ord) && PcOk(owner, c, ord, pc) && InRange(ord, pc)
    requires PartOf(pc) == ReconcileAttempt
    ensures SerialStepOk(c, ReconcileStep(c, wall, ord, pc, input))
  {
    match pc
    case RecordSeen(k, row, seen, caller) =>
      LastOrExpired(owner, c, ord, k);
      SeenSerial(owner, c, wall, ord, k, row, seen, caller);
    case RecordBroadcast(k, known, tx, accepted, caller) =>
      hide PcOk, InRange;
      UpdateSerial(owner, c, ord, k,
                   RecordState(ord.attempts[k], StateReport(BroadcastStatus(known, accepted), accepted, false, None), wall),
                   Answer(caller, Report(Some(tx), if accepted then DAccepted else DProcessing)));
    case _ => hide OrderOk, PcOk, FailSafe;
  }

  lemma LastOrExpired(owner: Address, c: Chain, ord: Order, k: nat)
    requires OrderOk(owner, c, ord) && k < |ord.attempts|
    ensures k < |ord.attempts| - 1 ==> ord.attempts[k].status == Expired
  {
  }

  lemma SeenSerial(owner: Address, c: Chain, wall: nat, ord: Order, k: nat, row: Attempt, seen: Observation, caller: Caller)
    requires OrderOk(owner, c, ord) && FailSafe(c, ord) && Known(ord, k, row) && row.txid.Some? && Proved(c, row.txid.value, seen)
    requires k < |ord.attempts| - 1 ==> ord.attempts[k].status == Expired
    ensures SerialStepOk(c, Update(ord, k, RecordState(ord.attempts[k], SeenReport(row, seen), wall), SeenNext(k, row, seen, caller)))
  {
    UpdateSerial(owner, c, ord, k, RecordState(ord.attempts[k], SeenReport(row, seen), wall), SeenNext(k, row, seen, caller));
  }

  lemma CreateSerial(owner: Address, c: Chain, ord: Order, pc: Pc)
    requires OrderOk(owner, c, ord) && FailSafe(c, ord) && PartOf(pc) == Create
    ensures SerialStepOk(c, CreateStep(ord, pc))
  {
    if pc.Current? || pc.Replace? { CurrentSerial(c, ord, if pc.Current? then pc.allowReplacement else false); }
    hide FailSafe, WithCurrent, AdvanceAttempt;
  }

  lemma CurrentSerial(c: Chain, ord: Order, allow: bool)
    requires FailSafe(c, ord)
    ensures var rows := WithCurrent(ord.attempts); var b := ord.(attempts := rows);
      FailSafe(c, b) && NextSerial(b, AdvanceAttempt(|rows| - 1, rows[|rows| - 1], allow))
  {
  }

  lemma PerformSerial(owner: Address, c: Chain, wall: nat, ord: Order, pc: Pc, input: Input)
    requires OrderOk(owner, c, ord) && PcOk(owner, c, ord, pc) && FailSafe(c, ord) && PcSerial(ord, pc) && InRange(ord, pc)
    ensures SerialStepOk(c, Perform(owner, c, wall, ord, pc, input))
  {
    hide OrderOk, PcOk, FailSafe, PcSerial, CreateStep, StartStep, ReconcileStep, RecoveryStep, ServiceStep, ClaimStep, NextSerial;
    if input.Fail? {
      ThrowSerial(ord);
    } else {
      match PartOf(pc)
      case Create => CreateSerial(owner, c, ord, pc);
      case StartAttempt => StartSerial(owner, c, wall, ord, pc, input);
      case ReconcileAttempt => ReconcileSerial(owner, c, wall, ord, pc, input);
      case Claiming => ClaimSerial(owner, c, ord, pc.k, pc.tx, pc.caller);
      case Recovery => RecoverySerial(c, ord, pc);
      case Service => ServiceSerial(c, ord, pc);
    }
  }

  lemma ThrowSerial(ord: Order)
    ensures NextSerial(ord, Throw)
  {
  }

  lemma ClaimSerial(owner: Address, c: Chain, ord: Order, k: nat, tx: Tx, caller: Caller)
    requires OrderOk(owner, c, ord) && FailSafe(c, ord) && k < |ord.attempts|
    ensures SerialStepOk(c, ClaimStep(ord, k, tx, caller))
  {
    RowKnown(owner, c, ord, k);
  }

  lemma RecoverySerial(c: Chain, ord: Order, pc: Pc)
    requires FailSafe(c, ord) && InRange(ord, pc) && PartOf(pc) == Recovery
    ensures SerialStepOk(c, RecoveryStep(ord, pc))
  {
    hide FailSafe, IndexOf;
  }

  lemma ServiceSerial(c: Chain, ord: Order, pc: Pc)
    requires FailSafe(c, ord) && PartOf(pc) == Service
    ensures SerialStepOk(c, ServiceStep(ord, pc))
  {
    hide ApplyReport;
  }

  ghost predicate OneEach(w: World) {
    forall p, q :: p in w.procs && q in w.procs && p != q ==> w.procs[p].order != w.procs[q].order
  }

  ghost predicate SerialOk(w: World) {
    && WorldOk(w)
    && (forall o :: o in w.orders ==> FailSafe(w.chain, w.orders[o]))
    && OneEach(w)
    && (forall p :: p in w.procs ==> PcSerial(w.orders[w.procs[p].order], w.procs[p].pc))
  }

  lemma CommitSerial(w: World, pid: Pid, e: Effect)
    requires SerialOk(w) && pid in w.procs
    requires StepOk(w.owner, w.chain, w.orders[w.procs[pid].order], e) && SerialStepOk(w.chain, e)
    ensures SerialOk(Commit(w, pid, w.procs[pid], e))
  {
    hide WorldOk, StepOk, PcSerial, FailSafe, Evolves;
    var v := Commit(w, pid, w.procs[pid], e);
    CommitOk(w, pid, e);
    CommitFailSafe(w, v);
    forall o | o in v.orders ensures FailSafe(v.chain, v.orders[o]) {
      if o != w.procs[pid].order {
        assert v.orders[o] == w.orders[o];
      }
    }
    SettleSerial(w.procs[pid], e);
  }

  lemma CommitFailSafe(w: World, v: World)
    requires v.chain.included == w.chain.included && v.chain.solid == w.chain.solid
    ensures forall ord :: FailSafe(w.chain, ord) ==> FailSafe(v.chain, ord)
  {
  }

  lemma SettleSerial(proc: Proc, e: Effect)
    requires NextSerial(e.order, e.next)
    ensures var s := Settle(proc, e.next);
      s.Some? ==> s.value.order == proc.order && PcSerial(e.order, s.value.pc)
  {
  }

  lemma HandleSerialOk(w: World, e: Event)
    requires SerialOk(w)
    ensures SerialOk(HandleSerial(w, e)) && Evolves(w, HandleSerial(w, e))
  {
    hide PcSerial, FailSafe, OrderOk, PcOk;
    EvolvesSelf(w);
    HandleOk(w, e);
    match e
    case Step(pid, input) => StepSerial(w, pid, input);
    case Unacknowledged(pid, input) => UnacknowledgedSerial(w, pid, input);
    case SignerCommit(r) => SignSerial(w, r);
    case OnChain(change) => ChainSerial(w, change);
    case Place(o, recipient, energy) => PlaceSerial(w, e);
    case Begin(pid, o, executing) => BeginSerial(w, e);
    case _ =>
  }

  lemma StepSerial(w: World, pid: Pid, input: Input)
    requires SerialOk(w)
    ensures SerialOk(Handle(w, Step(pid, input)))
  {
    hide WorldOk, StepOk, SerialStepOk, Commit, Perform;
    if pid in w.procs {
      var ord, pc := ProcFacts(w, pid);
      PerformOk(w.owner, w.chain, w.wall, ord, pc, input);
      PerformSerial(w.owner, w.chain, w.wall, ord, pc, input);
      CommitSerial(w, pid, Perform(w.owner, w.chain, w.wall, ord, pc, input));
    }
  }

  lemma UnacknowledgedSerial(w: World, pid: Pid, input: Input)
    requires SerialOk(w)
    ensures SerialOk(Handle(w, Unacknowledged(pid, input)))
  {
    hide WorldOk, StepOk, Commit, Perform;
    if pid in w.procs {
      var ord, pc := ProcFacts(w, pid);
      PerformOk(w.owner, w.chain, w.wall, ord, pc, input);
      PerformSerial(w.owner, w.chain, w.wall, ord, pc, input);
      var e := Perform(w.owner, w.chain, w.wall, ord, pc, input);
      ThrowSerial(e.order);
      ThrowOk(w.owner, w.chain, ord, e);
      CommitSerial(w, pid, e.(next := Throw));
    }
  }

  lemma ThrowOk(owner: Address, c: Chain, ord: Order, e: Effect)
    requires StepOk(owner, c, ord, e)
    ensures StepOk(owner, c, ord, e.(next := Throw))
  {
    hide OrderOk, OrderEvolves, SameSigned;
  }

  lemma ProcFacts(w: World, pid: Pid) returns (ord: Order, pc: Pc)
    requires SerialOk(w) && pid in w.procs
    ensures w.procs[pid].order in w.orders && ord == w.orders[w.procs[pid].order] && pc == w.procs[pid].pc
    ensures OrderOk(w.owner, w.chain, ord) && PcOk(w.owner, w.chain, ord, pc) && InRange(ord, pc)
    ensures FailSafe(w.chain, ord) && PcSerial(ord, pc)
  {
    assert ProcOk(w, w.procs[pid]);
    ord, pc := w.orders[w.procs[pid].order], w.procs[pid].pc;
  }

  lemma SignSerial(w: World, r: SignRequest)
    requires SerialOk(w)
    ensures SerialOk(SignCommit(w, r))
  {
    hide WorldOk, Evolves, FailSafe, PcSerial, SignAttempt;
    SignCommitOk(w, r);
    var v := SignCommit(w, r);
    if v != w {
      var row := SignAttempt(w.orders[r.order].attempts[r.k], w.owner, r.tx, w.wall, r.tx in w.signedBy).value;
      SignsOnly(w.orders[r.order].attempts[r.k], w.owner, r.tx, w.wall, r.tx in w.signedBy);
      SignedKeeps(w.chain, w.orders[r.order], r.k, row);
      SignedParts(w, v, r.order);
    }
  }

  lemma SignedParts(w: World, v: World, o: Id)
    requires SerialOk(w) && WorldOk(v) && o in w.orders && o in v.orders
    requires v.orders == w.orders[o := v.orders[o]] && v.procs == w.procs && v.chain == w.chain
    requires FailSafe(v.chain, v.orders[o]) && forall pc :: PcSerial(w.orders[o], pc) ==> PcSerial(v.orders[o], pc)
    ensures SerialOk(v)
  {
    ProcsKnown(w);
    hide WorldOk, FailSafe, PcSerial;
  }

  lemma SignsOnly(row: Attempt, owner: Address, tx: Tx, now: nat, taken: bool)
    requires SignAttempt(row, owner, tx, now, taken).Ok?
    ensures var s := SignAttempt(row, owner, tx, now, taken).value; s == row.(signed := s.signed)
  {
  }

  lemma SignedKeeps(c: Chain, ord: Order, k: nat, row: Attempt)
    requires k < |ord.attempts| && FailSafe(c, ord) && row == ord.attempts[k].(signed := row.signed)
    ensures var b := ord.(attempts := ord.attempts[k := row]);
      FailSafe(c, b) && forall pc :: PcSerial(ord, pc) ==> PcSerial(b, pc)
  {
  }

  lemma ChainSerial(w: World, change: ChainEvent)
    requires SerialOk(w)
    ensures SerialOk(w.(chain := Advance(w.chain, change)))
  {
    OnChainOk(w, change);
    AdvanceEvolves(w.chain, change);
    hide WorldOk, PcSerial;
  }

  lemma PlaceSerial(w: World, e: Event)
    requires SerialOk(w) && e.Place?
    ensures SerialOk(Handle(w, e))
  {
    hide WorldOk, PcSerial, FailSafe, Evolves;
    HandleOk(w, e);
    ProcsKnown(w);
    NoAttempts(w.chain, e.recipient, e.energy);
  }

  lemma ProcsKnown(w: World)
    requires WorldOk(w)
    ensures forall p :: p in w.procs ==> w.procs[p].order in w.orders
  {
    hide OrderOk, SignaturesOk, SentOk, PcOk;
    forall p | p in w.procs ensures w.procs[p].order in w.orders { assert ProcOk(w, w.procs[p]); }
  }

  lemma NoAttempts(c: Chain, recipient: Address, energy: int)
    ensures FailSafe(c, Order(recipient, energy, OReserved, None, []))
  {
  }

  lemma BeginSerial(w: World, e: Event)
    requires SerialOk(w) && e.Begin?
    ensures SerialOk(HandleSerial(w, e))
  {
    hide WorldOk, FailSafe, Evolves;
    HandleOk(w, e);
    ProcsKnown(w);
  }

  lemma {:induction false} RunSerialOk(w: World, events: seq<Event>)
    requires SerialOk(w)
    ensures SerialOk(RunSerial(w, events))
    decreases |events|
  {
    if events != [] {
      HandleSerialOk(w, events[0]);
      RunSerialOk(HandleSerial(w, events[0]), events[1..]);
    }
  }

  lemma {:induction false} ReleasedStays(w: World, events: seq<Event>, o: Id)
    requires SerialOk(w) && o in w.orders && w.orders[o].state == OReleased
    ensures o in RunSerial(w, events).orders && RunSerial(w, events).orders[o].state == OReleased
    decreases |events|
  {
    if events != [] {
      HandleSerialOk(w, events[0]);
      var v := HandleSerial(w, events[0]);
      assert OrderEvolves(w.orders[o], v.orders[o]);
      ReleasedStays(v, events[1..], o);
    }
  }

  // With operations on one order serialised, an order whose units were given back has no successful delegation
  // on the chain, and gets none in any continuation of the run.
  lemma ReleasedMeansNeverDelivered(owner: Address, events: seq<Event>, more: seq<Event>, o: Id, tx: Tx)
    requires var w := RunSerial(Initial(owner), events); o in w.orders && w.orders[o].state == OReleased
    ensures var v := RunSerial(RunSerial(Initial(owner), events), more);
      tx in v.chain.included && SignedFor(v, tx, o) ==> v.chain.included[tx].outcome == Reverted
  {
    hide SerialOk, Run, SignedFor;
    InitialSerial(owner);
    RunSerialOk(Initial(owner), events);
    var w := RunSerial(Initial(owner), events);
    RunSerialOk(w, more);
    ReleasedStays(w, more, o);
    ReleasedHere(RunSerial(w, more), o, tx);
  }

  lemma InitialSerial(owner: Address)
    ensures SerialOk(Initial(owner))
  {
  }

  lemma ReleasedHere(v: World, o: Id, tx: Tx)
    requires SerialOk(v) && o in v.orders && v.orders[o].state == OReleased
    ensures tx in v.chain.included && SignedFor(v, tx, o) ==> v.chain.included[tx].outcome == Reverted
  {
    hide SerialOk, WorldOk, OrderOk, FailSafe;
    SerialFacts(v, o);
    if tx in v.chain.included && SignedFor(v, tx, o) {
      ReleasedRow(v.owner, v.chain, v.orders[o]);
      SentRow(v, tx);
    }
  }

  lemma SerialFacts(w: World, o: Id)
    requires SerialOk(w) && o in w.orders
    ensures WorldOk(w) && ChainOk(w.chain) && OrderOk(w.owner, w.chain, w.orders[o]) && FailSafe(w.chain, w.orders[o])
  {
  }

  lemma ReleasedRow(owner: Address, c: Chain, ord: Order)
    requires OrderOk(owner, c, ord) && FailSafe(c, ord) && ord.state == OReleased
    ensures ord.attempts != [] && (Last(ord).txid.None? || Final(c, Last(ord).txid.value, Reverted))
  {
  }
}
