// Exactly when an order whose attempt has failed can still be delivered, with any number of concurrent operations. One
// operation per order excludes it (DelegationSerial); this is what is left without that.
module DelegationRelease {
  import opened Prelude
  import opened Chain
  import opened EnergyOrders
  import opened Attempts
  import opened DelegationAmount
  import opened DelegationProtocol
  import opened DelegationSafety
  import opened DelegationTheorems

  // ---- the chain ----

  // Some future of the chain has this transaction as a success, once a node has it.
  predicate CanLand(c: Chain, tx: Tx) {
    if tx in c.included
    then c.included[tx].outcome == Succeeded || (c.solid < c.included[tx].at && c.solid < tx.expiration)
    else c.solid < tx.expiration
  }

  lemma CannotLandStays(c: Chain, e: ChainEvent, tx: Tx)
    requires ChainOk(c) && !CanLand(c, tx)
    ensures !CanLand(Advance(c, e), tx)
  {
  }

  lemma CanLandDoes(c: Chain, tx: Tx) returns (changes: seq<ChainEvent>)
    requires ChainOk(c) && CanLand(c, tx) && tx in c.sent
    ensures tx in Replay(c, changes).included && Replay(c, changes).included[tx].outcome == Succeeded
  {
    if tx in c.included && c.included[tx].outcome == Succeeded {
      changes := [];
    } else {
      var back, block := Reorg(c.solid), Block(c.solid + 1, map[tx := Succeeded]);
      var d := Advance(c, back);
      assert d.head == c.solid && tx !in d.included;
      changes := [back, block];
      assert changes[1..] == [block] && [block][1..] == [];
      assert Replay(c, changes) == Replay(d, [block]) == Replay(Advance(d, block), []);
    }
  }

  // ---- who may still send ----

  // From here an operation can come to hand tx, the transaction of attempt k, to a node.
  predicate Sends(ord: Order, k: nat, tx: Tx, pc: Pc) {
    match pc
    case FindSigned(j, _) => j == k
    case BindSigned(j, _) => j == k
    case Claim(j, _, _) => j == k
    case Measure(j) => j == k && ord.energy > 0
    case Capacity(j, balance) => j == k && balance == tx.balance
    case Build(j, balance) => j == k && balance == tx.balance
    case BindUnsigned(j, x) => j == k && x == tx
    case SignCall(j, x) => j == k && x == tx
    case AwaitSigner(j, x) => j == k && x == tx
    case RecoverSigned(j, _, _) => j == k
    case FindRecover(j, row) => j == k && row.binding.Some?
    case Broadcast(j, _, _, _) => j == k
    case _ => false
  }

  ghost predicate Sendable(w: World, o: Id, tx: Tx)
    requires o in w.orders && w.orders[o].attempts != []
  {
    tx in w.chain.sent || exists p :: Sender(w, p, o, tx)
  }

  predicate Sender(w: World, p: Pid, o: Id, tx: Tx)
    requires o in w.orders && w.orders[o].attempts != []
  {
    p in w.procs && w.procs[p].order == o && Sends(w.orders[o], |w.orders[o].attempts| - 1, tx, w.procs[p].pc)
  }

  // The last attempt has a transaction that can still succeed and that a node has or may still get.
  ghost predicate Deliverable(w: World, o: Id) {
    && o in w.orders && w.orders[o].attempts != [] && Last(w.orders[o]).txid.Some?
    && CanLand(w.chain, Last(w.orders[o]).txid.value)
    && Sendable(w, o, Last(w.orders[o]).txid.value)
  }

  predicate Delivered(w: World, o: Id) {
    exists tx <- w.chain.included :: w.chain.included[tx].outcome == Succeeded && SignedFor(w, tx, o)
  }

  // ---- a step never opens a way that was closed ----

  predicate FailedWith(ord: Order, k: nat, tx: Tx) {
    k == |ord.attempts| - 1 && ord.attempts[k].status == Failed && ord.attempts[k].txid == Some(tx)
  }

  lemma QuietStart(owner: Address, c: Chain, wall: nat, ord: Order, k: nat, tx: Tx, pc: Pc, input: Input)
    requires OrderOk(owner, c, ord) && FailedWith(ord, k, tx) && PcOk(owner, c, ord, pc) && InRange(ord, pc)
    requires PartOf(pc) == StartAttempt && !Sends(ord, k, tx, pc)
    ensures var e := StartStep(owner, wall, ord, pc, input); e.next.Goto? ==> !Sends(e.order, k, tx, e.next.pc)
  {
    RowKnown(owner, c, ord, k);
    hide OrderOk;
  }

  lemma QuietReconcile(owner: Address, c: Chain, wall: nat, ord: Order, k: nat, tx: Tx, pc: Pc, input: Input)
    requires OrderOk(owner, c, ord) && FailedWith(ord, k, tx) && PcOk(owner, c, ord, pc) && InRange(ord, pc)
    requires PartOf(pc) == ReconcileAttempt && !Sends(ord, k, tx, pc)
    ensures var e := ReconcileStep(c, wall, ord, pc, input); e.next.Goto? ==> !Sends(e.order, k, tx, e.next.pc)
  {
    hide OrderOk, RowOk;
  }

  lemma QuietCreate(ord: Order, k: nat, tx: Tx, pc: Pc)
    requires FailedWith(ord, k, tx) && PartOf(pc) == Create
    ensures var e := CreateStep(ord, pc); e.next.Goto? ==> !Sends(e.order, k, tx, e.next.pc)
  {
  }

  lemma QuietRecovery(ord: Order, k: nat, tx: Tx, pc: Pc)
    requires FailedWith(ord, k, tx) && InRange(ord, pc) && PartOf(pc) == Recovery && !Sends(ord, k, tx, pc)
    ensures var e := RecoveryStep(ord, pc); e.next.Goto? ==> !Sends(e.order, k, tx, e.next.pc)
  {
  }

  lemma QuietNext(owner: Address, c: Chain, wall: nat, ord: Order, k: nat, tx: Tx, pc: Pc, input: Input)
    requires OrderOk(owner, c, ord) && FailedWith(ord, k, tx) && PcOk(owner, c, ord, pc) && InRange(ord, pc)
    requires !Sends(ord, k, tx, pc)
    ensures var e := Perform(owner, c, wall, ord, pc, input); e.next.Goto? ==> !Sends(e.order, k, tx, e.next.pc)
  {
    hide OrderOk, PcOk, StartStep, ReconcileStep, CreateStep, RecoveryStep, FailedWith;
    if !input.Fail? {
      match PartOf(pc)
      case StartAttempt => QuietStart(owner, c, wall, ord, k, tx, pc, input);
      case ReconcileAttempt => QuietReconcile(owner, c, wall, ord, k, tx, pc, input);
      case Create => QuietCreate(ord, k, tx, pc);
      case Recovery => QuietRecovery(ord, k, tx, pc);
      case Claiming => assert Sends(ord, k, tx, pc) || pc.k != k;
      case Service =>
    }
  }

  // Whatever a provider call comes back with, the service goes on at a place that sends nothing by itself.
  lemma QuietSettle(ord: Order, k: nat, tx: Tx, proc: Proc, next: Next)
    requires next.Goto? ==> !Sends(ord, k, tx, next.pc)
    ensures Settle(proc, next).Some? ==> !Sends(ord, k, tx, Settle(proc, next).value.pc)
  {
  }

  lemma FailedStays(w: World, e: Event, o: Id)
    requires WorldOk(w) && o in w.orders && Ended(w.orders[o], Failed)
    ensures var v := Handle(w, e);
      && WorldOk(v) && ChainEvolves(w.chain, v.chain) && o in v.orders && Ended(v.orders[o], Failed)
      && v.orders[o].energy == w.orders[o].energy && |v.orders[o].attempts| == |w.orders[o].attempts|
      && Last(v.orders[o]).txid == Last(w.orders[o]).txid
  {
    HandleOk(w, e);
    hide WorldOk, Handle;
    var v := Handle(w, e);
    assert OrderEvolves(w.orders[o], v.orders[o]);
    assert Follows(w.orders[o].attempts[|w.orders[o].attempts| - 1], v.orders[o].attempts[|w.orders[o].attempts| - 1]);
  }

  predicate LastFailed(ord: Order, tx: Tx) { ord.attempts != [] && FailedWith(ord, |ord.attempts| - 1, tx) }

  predicate Steps(e: Event, p: Pid) { (e.Step? || e.Unacknowledged?) && e.pid == p }

  // What one event does to the program counter of one operation.
  lemma OtherProc(w: World, e: Event, p: Pid)
    requires !Steps(e, p) && p in Handle(w, e).procs
    ensures var proc := Handle(w, e).procs[p]; (p in w.procs && proc == w.procs[p]) || proc.pc.Dispatch?
  {
    hide Perform, SignAttempt, Advance, Settle;
  }

  lemma SteppedProc(w: World, e: Event, p: Pid)
    requires WorldOk(w) && Steps(e, p) && p in w.procs
    ensures var proc := w.procs[p]; var ord := w.orders[proc.order];
      && proc.order in w.orders && InRange(ord, proc.pc)
      && OrderOk(w.owner, w.chain, ord) && PcOk(w.owner, w.chain, ord, proc.pc)
      && var done := Perform(w.owner, w.chain, w.wall, ord, proc.pc, e.input);
        var s := Settle(proc, if e.Step? then done.next else Throw);
        && (p in Handle(w, e).procs <==> s.Some?)
        && (s.Some? ==> Handle(w, e).procs[p] == s.value)
  {
    hide OrderOk, SignaturesOk, SentOk;
    assert ProcOk(w, w.procs[p]);
    assert InRange(w.orders[w.procs[p].order], w.procs[p].pc);
    hide PcOk, Perform, Settle;
  }

  lemma SettledOrder(proc: Proc, next: Next)
    ensures Settle(proc, next).Some? ==> Settle(proc, next).value.order == proc.order
  {
  }

  lemma QuietProc(w: World, e: Event, o: Id, tx: Tx, p: Pid)
    requires WorldOk(w) && o in w.orders && LastFailed(w.orders[o], tx)
    requires var v := Handle(w, e); o in v.orders && v.orders[o].energy == w.orders[o].energy
                                    && |v.orders[o].attempts| == |w.orders[o].attempts|
    requires !Sender(w, p, o, tx)
    ensures !Sender(Handle(w, e), p, o, tx)
  {
    hide WorldOk, Handle, OrderOk, PcOk, Perform, Settle, Sends, FailedWith;
    var k := |w.orders[o].attempts| - 1;
    var v := Handle(w, e);
    SendsByEnergy(w.orders[o], v.orders[o], k, tx);
    DispatchIsQuiet(v.orders[o], k, tx);
    if Steps(e, p) {
      if p in w.procs {
        SteppedProc(w, e, p);
        var proc := w.procs[p];
        var done := Perform(w.owner, w.chain, w.wall, w.orders[proc.order], proc.pc, e.input);
        var next := if e.Step? then done.next else Throw;
        SettledOrder(proc, next);
        if proc.order == o {
          QuietNext(w.owner, w.chain, w.wall, w.orders[o], k, tx, proc.pc, e.input);
          QuietSettle(done.order, k, tx, proc, next);
          QuietEnergy(w.owner, w.chain, w.wall, w.orders[o], proc.pc, e.input);
          SendsByEnergy(done.order, v.orders[o], k, tx);
        }
      } else {
        NoProc(w, e, p);
      }
    } else if p in v.procs {
      OtherProc(w, e, p);
    }
  }

  lemma NoProc(w: World, e: Event, p: Pid)
    requires Steps(e, p) && p !in w.procs
    ensures p !in Handle(w, e).procs
  {
  }

  lemma DispatchIsQuiet(ord: Order, k: nat, tx: Tx)
    ensures forall pc: Pc :: pc.Dispatch? ==> !Sends(ord, k, tx, pc)
  {
  }

  lemma QuietEnergy(owner: Address, c: Chain, wall: nat, ord: Order, pc: Pc, input: Input)
    requires OrderOk(owner, c, ord) && PcOk(owner, c, ord, pc) && InRange(ord, pc)
    ensures Perform(owner, c, wall, ord, pc, input).order.energy == ord.energy
  {
    PerformOk(owner, c, wall, ord, pc, input);
    hide Perform, OrderOk, PcOk, SameSigned, NextOk;
  }

  lemma SendsByEnergy(a: Order, b: Order, k: nat, tx: Tx)
    requires a.energy == b.energy
    ensures forall pc :: Sends(a, k, tx, pc) == Sends(b, k, tx, pc)
  {
  }

  // A node gets the transaction of the last attempt only from an operation about to send it.
  lemma SentBySender(w: World, e: Event, o: Id, tx: Tx)
    requires WorldOk(w) && o in w.orders && LastFailed(w.orders[o], tx)
    requires tx !in w.chain.sent && tx in Handle(w, e).chain.sent
    ensures exists p :: Sender(w, p, o, tx)
  {
    hide WorldOk, Handle, PcOk, OrderOk, ProcOk;
    ChainFineHere(w);
    ClaimedHere(w, o, |w.orders[o].attempts| - 1, tx);
    AdvanceSent(w, e);
    var p := e.pid;
    SteppedHere(w, p);
    BroadcastSent(w, w.procs[p]);
    assert Sender(w, p, o, tx);
  }

  lemma SteppedHere(w: World, p: Pid)
    requires WorldOk(w) && p in w.procs
    ensures ProcOk(w, w.procs[p])
  {
    hide OrderOk, PcOk, SignaturesOk, SentOk, IdKnown;
  }

  lemma ChainFineHere(w: World)
    requires WorldOk(w)
    ensures ChainOk(w.chain)
  {
    hide OrderOk, PcOk, SignaturesOk, SentOk;
  }

  lemma AdvanceSent(w: World, e: Event)
    requires ChainOk(w.chain)
    ensures Handle(w, e).chain.sent == w.chain.sent ||
      ((e.Step? || e.Unacknowledged?) && e.pid in w.procs && w.procs[e.pid].pc.Broadcast?
       && Handle(w, e).chain.sent == w.chain.sent + {w.procs[e.pid].pc.tx})
  {
    if e.OnChain? { AdvanceEvolves(w.chain, e.change); }
    hide Perform, SignAttempt, Advance;
  }

  lemma ClaimedHere(w: World, o: Id, k: nat, tx: Tx)
    requires WorldOk(w) && At(w, (o, k)) && RowAt(w, (o, k)).txid == Some(tx)
    ensures tx in w.signedBy && w.signedBy[tx] == (o, k)
  {
    hide SentOk, PcOk;
    assert OrderOk(w.owner, w.chain, w.orders[o]);
    RowKnown(w.owner, w.chain, w.orders[o], k);
    SignatureAt(w, o, k);
  }

  lemma UndeliverableStays(w: World, e: Event, o: Id)
    requires WorldOk(w) && o in w.orders && Ended(w.orders[o], Failed) && !Deliverable(w, o)
    ensures !Deliverable(Handle(w, e), o)
  {
    hide WorldOk, Handle, Sends, ChainEvolves;
    FailedStays(w, e, o);
    var v := Handle(w, e);
    if Last(w.orders[o]).txid.Some? {
      var tx := Last(w.orders[o]).txid.value;
      if CanLand(w.chain, tx) {
        if tx in v.chain.sent { SentBySender(w, e, o, tx); }
        forall p ensures !Sender(v, p, o, tx) { QuietProc(w, e, o, tx, p); }
      } else {
        ChainStep(w, e, tx);
      }
    }
  }

  lemma ChainStep(w: World, e: Event, tx: Tx)
    requires WorldOk(w) && !CanLand(w.chain, tx)
    ensures !CanLand(Handle(w, e).chain, tx)
  {
    if e.OnChain? { CannotLandStays(w.chain, e.change, tx); }
    hide WorldOk, Perform, SignAttempt, Advance;
  }

  lemma NotDelivered(w: World, o: Id)
    requires WorldOk(w) && o in w.orders && Ended(w.orders[o], Failed) && !Deliverable(w, o)
    ensures !Delivered(w, o)
  {
    hide WorldOk;
    forall tx | tx in w.chain.included && w.chain.included[tx].outcome == Succeeded ensures !SignedFor(w, tx, o) {
      IncludedRow(w, tx);
      InChainSent(w, tx);
    }
  }

  lemma InChainSent(w: World, tx: Tx)
    requires WorldOk(w) && tx in w.chain.included
    ensures tx in w.chain.sent
  {
    hide OrderOk, SignaturesOk, SentOk, PcOk;
  }

  lemma {:induction false} NeverDelivered(w: World, more: seq<Event>, o: Id)
    requires WorldOk(w) && o in w.orders && Ended(w.orders[o], Failed) && !Deliverable(w, o)
    ensures !Delivered(Run(w, more), o)
    decreases |more|
  {
    hide WorldOk, Handle, Deliverable, Delivered;
    if more == [] {
      NotDelivered(w, o);
    } else {
      FailedStays(w, more[0], o);
      UndeliverableStays(w, more[0], o);
      NeverDelivered(Handle(w, more[0]), more[1..], o);
    }
  }

  // ---- a way that is open can be gone to its end ----

  // What the environment has to answer at each place for the operation to go on towards the broadcast of tx.
  function Answering(ord: Order, tx: Tx, pc: Pc): Input {
    match pc
    case Measure(_) => Resources(ord.energy * SUN_PER_TRX, tx.balance)
    case Capacity(_, balance) => Delegatable(balance)
    case Build(_, _) => Built(tx)
    case _ => Proceed
  }

  function Distance(pc: Pc): nat {
    match pc
    case Measure(_) => 8
    case Capacity(_, _) => 7
    case Build(_, _) => 6
    case BindUnsigned(_, _) => 5
    case SignCall(_, _) => 4
    case AwaitSigner(_, _) => 3
    case FindSigned(_, _) => 3
    case BindSigned(_, _) => 2
    case FindRecover(_, _) => 2
    case Claim(_, _, _) => 1
    case RecoverSigned(_, _, _) => 1
    case _ => 0
  }

  lemma EnergyFor(energy: int, balance: int)
    requires energy > 0 && balance >= SUN_PER_TRX
    ensures RequiredDelegationSun(energy, energy * SUN_PER_TRX, balance) == Ok(balance)
  {
    var limit := energy * SUN_PER_TRX;
    var numerator := energy * SUN_PER_TRX * balance;
    CeilingAtMost(numerator, limit, balance);
    CeilingAtMost(numerator, limit, balance - 1);
    assert numerator == balance * limit;
    assert (balance - 1) * limit == balance * limit - limit;
  }

  lemma GoesOn(owner: Address, c: Chain, wall: nat, ord: Order, k: nat, tx: Tx, pc: Pc)
    requires OrderOk(owner, c, ord) && FailedWith(ord, k, tx) && PcOk(owner, c, ord, pc) && InRange(ord, pc)
    requires Sends(ord, k, tx, pc) && !pc.Broadcast?
    ensures var e := Perform(owner, c, wall, ord, pc, Answering(ord, tx, pc));
      && e.next.Goto? && Sends(e.order, k, tx, e.next.pc) && Distance(e.next.pc) < Distance(pc)
  {
    RowKnown(owner, c, ord, k);
    HasDelivery(owner, c, ord);
    hide OrderOk;
    match pc
    case Measure(_) => EnergyFor(ord.energy, tx.balance);
    case _ =>
  }

  lemma HasDelivery(owner: Address, c: Chain, ord: Order)
    requires OrderOk(owner, c, ord) && ord.attempts != []
    ensures ord.delivery.Some?
  {
  }

  // One step along that way.
  lemma OneStepOn(w: World, p: Pid, o: Id, tx: Tx)
    requires WorldOk(w) && o in w.orders && LastFailed(w.orders[o], tx) && Sender(w, p, o, tx) && !w.procs[p].pc.Broadcast?
    ensures var v := Handle(w, Step(p, Answering(w.orders[o], tx, w.procs[p].pc)));
      && o in v.orders && LastFailed(v.orders[o], tx) && Sender(v, p, o, tx)
      && Distance(v.procs[p].pc) < Distance(w.procs[p].pc) && v.chain == w.chain
  {
    hide WorldOk, Handle, OrderOk, PcOk, Perform, Sends, Answering, Distance, ChainEvolves, Ended, Settle;
    var proc, ord := w.procs[p], w.orders[o];
    var e := Step(p, Answering(ord, tx, proc.pc));
    FailedHasEnded(ord, tx);
    FailedStays(w, e, o);
    EndedHasFailed(Handle(w, e).orders[o], tx);
    SteppedProc(w, e, p);
    StepChain(w, e, p);
    GoesOn(w.owner, w.chain, w.wall, ord, |ord.attempts| - 1, tx, proc.pc);
    var done := Perform(w.owner, w.chain, w.wall, ord, proc.pc, e.input);
    GoesTo(proc, done.next);
    QuietEnergy(w.owner, w.chain, w.wall, ord, proc.pc, e.input);
    SendsByEnergy(done.order, Handle(w, e).orders[o], |ord.attempts| - 1, tx);
  }

  lemma GoesTo(proc: Proc, next: Next)
    requires next.Goto?
    ensures Settle(proc, next) == Some(proc.(pc := next.pc))
  {
  }

  lemma FailedHasEnded(ord: Order, tx: Tx)
    requires LastFailed(ord, tx)
    ensures Ended(ord, Failed) && Last(ord).txid == Some(tx)
  {
  }

  lemma EndedHasFailed(ord: Order, tx: Tx)
    requires Ended(ord, Failed) && Last(ord).txid == Some(tx)
    ensures LastFailed(ord, tx)
  {
  }

  lemma StepChain(w: World, e: Event, p: Pid)
    requires WorldOk(w) && e.Step? && e.pid == p && p in w.procs && !w.procs[p].pc.Broadcast?
    ensures Handle(w, e).chain == w.chain
  {
    hide WorldOk, Perform, Settle;
  }

  lemma RunAgain(w: World, a: seq<Event>, b: seq<Event>)
    ensures Run(w, a + b) == Run(Run(w, a), b)
    decreases |a|
  {
    if a == [] {
      assert a + b == b;
    } else {
      assert (a + b)[1..] == a[1..] + b;
      RunAgain(Handle(w, a[0]), a[1..], b);
    }
  }

  // An operation that is about to send tx can be brought to do it.
  lemma {:induction false} SendIt(w: World, p: Pid, o: Id, tx: Tx) returns (events: seq<Event>)
    requires WorldOk(w) && o in w.orders && LastFailed(w.orders[o], tx) && Sender(w, p, o, tx)
    ensures var v := Run(w, events);
      && WorldOk(v) && o in v.orders && LastFailed(v.orders[o], tx)
      && v.chain == Submit(w.chain, tx)
    decreases Distance(w.procs[p].pc)
  {
    hide WorldOk, Handle, Sends, Answering, ChainEvolves;
    var e := Step(p, Answering(w.orders[o], tx, w.procs[p].pc));
    var v := Handle(w, e);
    FailedStays(w, e, o);
    if w.procs[p].pc.Broadcast? {
      events := [e];
      BroadcastNow(w, p, o, tx, e);
      assert Run(w, [e]) == Run(v, [e][1..]) == v;
    } else {
      OneStepOn(w, p, o, tx);
      var rest := SendIt(v, p, o, tx);
      events := [e] + rest;
      assert events[1..] == rest;
    }
  }

  lemma BroadcastNow(w: World, p: Pid, o: Id, tx: Tx, e: Event)
    requires WorldOk(w) && o in w.orders && LastFailed(w.orders[o], tx) && Sender(w, p, o, tx) && w.procs[p].pc.Broadcast?
    requires e.Step? && e.pid == p
    ensures Handle(w, e).chain == Submit(w.chain, tx)
  {
    hide WorldOk, Perform, Settle, OrderOk, PcOk, ProcOk, Sends;
    SteppedHere(w, p);
    BroadcastSent(w, w.procs[p]);
    SendsHere(w, p, o, tx);
    SteppedProc(w, e, p);
  }

  lemma SendsHere(w: World, p: Pid, o: Id, tx: Tx)
    requires o in w.orders && w.orders[o].attempts != [] && Sender(w, p, o, tx) && w.procs[p].pc.Broadcast?
    ensures w.procs[p].pc.k == |w.orders[o].attempts| - 1
  {
  }

  function Changing(changes: seq<ChainEvent>): seq<Event> {
    if changes == [] then [] else [OnChain(changes[0])] + Changing(changes[1..])
  }

  lemma {:induction false} RunOnChain(w: World, changes: seq<ChainEvent>)
    ensures Run(w, Changing(changes)) == w.(chain := Replay(w.chain, changes))
    decreases |changes|
  {
    if changes != [] {
      assert Changing(changes)[1..] == Changing(changes[1..]);
      RunOnChain(w.(chain := Advance(w.chain, changes[0])), changes[1..]);
    }
  }

  // From a state in which a node has tx, the chain alone delivers.
  lemma LandIt(w: World, o: Id, tx: Tx) returns (events: seq<Event>)
    requires WorldOk(w) && o in w.orders && LastFailed(w.orders[o], tx) && tx in w.chain.sent && CanLand(w.chain, tx)
    ensures Delivered(Run(w, events), o)
  {
    hide WorldOk, Handle, CanLand, Replay, Run;
    ChainFineHere(w);
    ClaimedHere(w, o, |w.orders[o].attempts| - 1, tx);
    var changes := CanLandDoes(w.chain, tx);
    RunOnChain(w, changes);
    events := Changing(changes);
    assert SignedFor(Run(w, events), tx, o);
  }

  lemma DeliverIt(w: World, o: Id) returns (more: seq<Event>)
    requires WorldOk(w) && o in w.orders && Ended(w.orders[o], Failed) && Deliverable(w, o)
    ensures Delivered(Run(w, more), o)
  {
    hide WorldOk, Handle, Sends, Delivered, Run, CanLand;
    var tx := Last(w.orders[o]).txid.value;
    if tx in w.chain.sent {
      more := LandIt(w, o, tx);
    } else {
      var p :| Sender(w, p, o, tx);
      var first := SendIt(w, p, o, tx);
      SubmittedCanLand(w.chain, tx);
      var rest := LandIt(Run(w, first), o, tx);
      RunAgain(w, first, rest);
      more := first + rest;
    }
  }

  lemma SubmittedCanLand(c: Chain, tx: Tx)
    ensures CanLand(Submit(c, tx), tx) == CanLand(c, tx) && tx in Submit(c, tx).sent
  {
  }

  // ---- exactly when a failed attempt is still delivered ----

  // In any state, for an order whose attempt has failed: some continuation delivers it if and only if the attempt has a
  // transaction that the chain can still take as a success, and a node has it or some operation may still send it.
  lemma FailedIsDeliveredIff(w: World, o: Id)
    requires WorldOk(w) && o in w.orders && Ended(w.orders[o], Failed)
    ensures (exists more: seq<Event> :: Delivered(Run(w, more), o)) <==> Deliverable(w, o)
  {
    hide WorldOk, Deliverable, Delivered, Run, Ended;
    if Deliverable(w, o) {
      var more := DeliverIt(w, o);
    } else {
      forall more: seq<Event> ensures !Delivered(Run(w, more), o) { NeverDelivered(w, more, o); }
    }
  }

  // So for every reachable released order, whoever released it and whatever ran beside it.
  lemma ReleasedIsDeliveredIff(owner: Address, events: seq<Event>, o: Id)
    requires o in Run(Initial(owner), events).orders && Run(Initial(owner), events).orders[o].state == OReleased
    ensures var w := Run(Initial(owner), events);
      (exists more: seq<Event> :: Delivered(Run(w, more), o)) <==> Deliverable(w, o)
  {
    hide Deliverable, Delivered, Run;
    var w := Run(Initial(owner), events);
    Reachable(owner, events);
    ReleasedHasFailed(w, o);
    hide WorldOk;
    FailedIsDeliveredIff(w, o);
  }

  lemma ReleasedHasFailed(w: World, o: Id)
    requires WorldOk(w) && o in w.orders && w.orders[o].state == OReleased
    ensures Ended(w.orders[o], Failed)
  {
    hide SignaturesOk, SentOk, PcOk;
  }

  // ---- the step that fails an attempt ----

  // What a capacity failure does: the row fails, and nothing about the chain or the other operations changes.
  lemma CapacityFails(w: World, pid: Pid)
    requires WorldOk(w) && pid in w.procs && w.procs[pid].pc.RecordCapacity?
    requires var ord := w.orders[w.procs[pid].order]; w.procs[pid].pc.k == |ord.attempts| - 1 && !Terminal(Last(ord).status)
    ensures var o := w.procs[pid].order; var v := Handle(w, Step(pid, Proceed));
      && WorldOk(v) && o in v.orders && Ended(v.orders[o], Failed) && v.chain == w.chain
      && v.orders[o].energy == w.orders[o].energy && |v.orders[o].attempts| == |w.orders[o].attempts|
      && Last(v.orders[o]).txid == Last(w.orders[o]).txid
      && (forall p :: p != pid ==> (p in v.procs <==> p in w.procs) && (p in w.procs ==> v.procs[p] == w.procs[p]))
      && (pid in v.procs ==> v.procs[pid].pc.Apply?)
  {
    hide WorldOk, OrderOk, PcOk, ProcOk, Perform, Evolves, Terminal;
    HandleOk(w, Step(pid, Proceed));
    SteppedHere(w, pid);
    SteppedProc(w, Step(pid, Proceed), pid);
    CapacityStep(w.owner, w.chain, w.wall, w.orders[w.procs[pid].order], w.procs[pid].pc.k);
  }

  lemma CapacityStep(owner: Address, c: Chain, wall: nat, ord: Order, k: nat)
    requires k == |ord.attempts| - 1 && !Terminal(ord.attempts[k].status)
    ensures var e := Perform(owner, c, wall, ord, RecordCapacity(k), Proceed);
      && e.next == Return(Some(Report(None, DFailed)))
      && e.order.energy == ord.energy && |e.order.attempts| == |ord.attempts|
      && Ended(e.order, Failed) && Last(e.order).txid == Last(ord).txid
  {
  }

  // The capacity check does not look at the attempt it fails. Its failure is followed by a delivery in some continuation
  // if and only if, before it, the attempt had a transaction that the chain could still take as a success, and a node
  // had it or some operation could still send it.
  lemma CapacityFailureIsDeliveredIff(w: World, pid: Pid)
    requires WorldOk(w) && pid in w.procs && w.procs[pid].pc.RecordCapacity?
    requires var ord := w.orders[w.procs[pid].order]; w.procs[pid].pc.k == |ord.attempts| - 1 && !Terminal(Last(ord).status)
    ensures var o := w.procs[pid].order; var v := Handle(w, Step(pid, Proceed));
      (exists more: seq<Event> :: Delivered(Run(v, more), o)) <==> Deliverable(w, o)
  {
    hide WorldOk, Handle, Run, Delivered, CanLand;
    var o := w.procs[pid].order;
    SteppedHere(w, pid);
    CapacityFails(w, pid);
    var v := Handle(w, Step(pid, Proceed));
    FailedIsDeliveredIff(v, o);
    if Last(w.orders[o]).txid.Some? {
      var tx := Last(w.orders[o]).txid.value;
      SendsByEnergy(w.orders[o], v.orders[o], |w.orders[o].attempts| - 1, tx);
      assert forall p :: Sender(v, p, o, tx) <==> Sender(w, p, o, tx);
    }
  }

  // An attempt that fails before anything was claimed for it delivers in no continuation, serialised or not.
  lemma CreatedNeverLands(w: World, pid: Pid, more: seq<Event>)
    requires WorldOk(w) && pid in w.procs && w.procs[pid].pc.RecordCapacity?
    requires var ord := w.orders[w.procs[pid].order]; w.procs[pid].pc.k == |ord.attempts| - 1 && Last(ord).status == Created
    ensures !Delivered(Run(Handle(w, Step(pid, Proceed)), more), w.procs[pid].order)
  {
    hide Handle, Run, Delivered;
    var o := w.procs[pid].order;
    SteppedHere(w, pid);
    UnclaimedHere(w, o);
    CapacityFails(w, pid);
    hide WorldOk;
    NeverDelivered(Handle(w, Step(pid, Proceed)), more, o);
  }

  lemma UnclaimedHere(w: World, o: Id)
    requires WorldOk(w) && o in w.orders && w.orders[o].attempts != [] && Last(w.orders[o]).status == Created
    ensures Last(w.orders[o]).txid.None?
  {
    hide SignaturesOk, SentOk, PcOk;
    assert OrderOk(w.owner, w.chain, w.orders[o]);
    RowKnown(w.owner, w.chain, w.orders[o], |w.orders[o].attempts| - 1);
  }
}
