// What the columns of an attempt row mean in terms of what happened before: over every run, with any number of concurrent
// operations, each balance was measured for its order's energy, each time is the time of a recording, each failure has its
// reason, and the provider order id is the latest transaction claimed.
module DelegationHistory {
  import opened Prelude
  import opened Chain
  import opened EnergyOrders
  import opened Attempts
  import opened DelegationAmount
  import opened DelegationProtocol
  import opened DelegationSafety
  import opened DelegationTheorems
  import DelegationRelease
  import DelegationStuck

  // The state in which event number i of a run happens.
  function Before(owner: Address, events: seq<Event>, i: nat): World
    requires i <= |events|
  {
    Run(Initial(owner), events[..i])
  }

  lemma {:induction false} RunThen(w: World, events: seq<Event>, e: Event)
    ensures Run(w, events + [e]) == Handle(Run(w, events), e)
    decreases |events|
  {
    if events == [] {
      assert [] + [e] == [e] && [e][1..] == [];
      assert Run(w, [e]) == Run(Handle(w, e), []);
    } else {
      assert (events + [e])[1..] == events[1..] + [e];
      RunThen(Handle(w, events[0]), events[1..], e);
    }
  }

  // ---- what is measured ----

  // A balance of at least one TRX that yields the energy on a snapshot of the network, while one sun less does not.
  predicate LeastFor(energy: int, balance: nat, limit: int, weight: int) {
    && limit > 0 && weight > 0 && balance >= SUN_PER_TRX
    && Yield(balance, limit, weight) >= energy
    && (balance > SUN_PER_TRX ==> Yield(balance - 1, limit, weight) < energy)
  }

  // An operation on the order reads a snapshot of the network for which balance is the least.
  predicate Measures(w: World, e: Event, o: Id, balance: nat) {
    && e.Step? && e.pid in w.procs && w.procs[e.pid].order == o && o in w.orders
    && w.procs[e.pid].pc.Measure? && e.input.Resources?
    && LeastFor(w.orders[o].energy, balance, e.input.limit, e.input.weight)
  }

  ghost predicate Measured(owner: Address, events: seq<Event>, o: Id, balance: nat) {
    exists i :: 0 <= i < |events| && Measures(Before(owner, events, i), events[i], o, balance)
  }

  // An operation on the attempt is told that less can be delegated than a balance measured for it.
  predicate FindsShort(w: World, e: Event, ref: (Id, nat), balance: nat) {
    && e.Step? && e.pid in w.procs && w.procs[e.pid].order == ref.0
    && w.procs[e.pid].pc == Capacity(ref.1, balance) && e.input.Delegatable? && e.input.sun < balance
  }

  ghost predicate FoundShort(owner: Address, events: seq<Event>, ref: (Id, nat)) {
    exists i, balance :: 0 <= i < |events| && FindsShort(Before(owner, events, i), events[i], ref, balance)
      && Measured(owner, events, ref.0, balance)
  }

  // ---- one step of an operation ----

  function Carried(pc: Pc): Option<nat> {
    match pc
    case Capacity(_, balance) => Some(balance)
    case Build(_, balance) => Some(balance)
    case BindUnsigned(_, tx) => Some(tx.balance)
    case _ => None
  }

  ghost predicate BoundIn(ord: Order, measured: iset<nat>) {
    forall k :: 0 <= k < |ord.attempts| && ord.attempts[k].binding.Some? ==> ord.attempts[k].binding.value.balance in measured
  }

  ghost predicate FailedIn(c: Chain, ord: Order, short: iset<nat>) {
    forall k :: 0 <= k < |ord.attempts| && ord.attempts[k].status == Failed ==>
      k in short || (ord.attempts[k].txid.Some? && Final(c, ord.attempts[k].txid.value, Reverted))
  }

  // An order and the program counter of an operation on it rest on what was measured and found short.
  ghost predicate PcIn(pc: Pc, measured: iset<nat>, short: iset<nat>) {
    && (Carried(pc).Some? ==> Carried(pc).value in measured)
    && (pc.RecordCapacity? ==> pc.k in short)
  }

  ghost predicate RestsOn(c: Chain, ord: Order, measured: iset<nat>, short: iset<nat>) {
    BoundIn(ord, measured) && FailedIn(c, ord, short)
  }

  // The bindings and failures of a are those of b, whose further rows are new.
  predicate SameGrounds(a: Order, b: Order) {
    && |a.attempts| <= |b.attempts|
    && forall k :: 0 <= k < |b.attempts| ==>
         && b.attempts[k].binding == (if k < |a.attempts| then a.attempts[k].binding else None)
         && (b.attempts[k].status == Failed ==>
               k < |a.attempts| && a.attempts[k].status == Failed && b.attempts[k].txid == a.attempts[k].txid)
  }

  lemma SameGroundsRest(c: Chain, a: Order, b: Order, measured: iset<nat>, short: iset<nat>)
    requires SameGrounds(a, b) && RestsOn(c, a, measured, short)
    ensures RestsOn(c, b, measured, short)
  {
  }

  lemma QuietCreate(ord: Order, pc: Pc)
    requires PartOf(pc) == Create
    ensures var e := CreateStep(ord, pc);
      SameGrounds(ord, e.order) && (e.next.Goto? ==> Carried(e.next.pc).None? && !e.next.pc.RecordCapacity?)
  {
  }

  lemma QuietRecovery(ord: Order, pc: Pc)
    requires PartOf(pc) == Recovery && InRange(ord, pc)
    ensures var e := RecoveryStep(ord, pc);
      e.order == ord && (e.next.Goto? ==> Carried(e.next.pc).None? && !e.next.pc.RecordCapacity?)
  {
  }

  lemma QuietService(ord: Order, pc: Pc)
    requires PartOf(pc) == Service
    ensures var e := ServiceStep(ord, pc); SameGrounds(ord, e.order) && !e.next.Goto?
  {
    hide ApplyReport;
  }

  lemma QuietClaim(ord: Order, k: nat, tx: Tx, caller: Caller)
    requires k < |ord.attempts|
    ensures var e := ClaimStep(ord, k, tx, caller);
      SameGrounds(ord, e.order) && (e.next.Goto? ==> Carried(e.next.pc).None? && !e.next.pc.RecordCapacity?)
  {
  }

  // A measured balance is what the network snapshot requires.
  lemma MeasuredIs(energy: int, limit: int, weight: int)
    ensures var required := RequiredDelegationSun(energy, limit, weight);
      required.Ok? ==> LeastFor(energy, required.value, limit, weight)
  {
    if energy > 0 && limit > 0 && weight > 0 {
      LeastSufficient(energy, limit, weight, SUN_PER_TRX);
      ResultIsTight(energy, limit, weight);
    }
  }

  // What a step may add to the grounds: the balances its snapshot measures, the attempt it finds short.
  ghost predicate Allows(ord: Order, pc: Pc, input: Input, measured: iset<nat>, short: iset<nat>) {
    && (pc.Measure? && input.Resources? ==> forall b: nat :: LeastFor(ord.energy, b, input.limit, input.weight) ==> b in measured)
    && (pc.Capacity? && input.Delegatable? && input.sun < pc.balance ==> pc.k in short)
  }

  // The steps of startAttempt that only read.
  lemma StartReads(owner: Address, wall: nat, ord: Order, pc: Pc, input: Input, measured: iset<nat>, short: iset<nat>)
    requires PartOf(pc) == StartAttempt && InRange(ord, pc) && !pc.BindSigned? && !pc.BindUnsigned? && !pc.RecordCapacity?
    requires pc.FindSigned? ==> Known(ord, pc.k, pc.row)
    requires BoundIn(ord, measured) && PcIn(pc, measured, short) && Allows(ord, pc, input, measured, short)
    ensures var e := StartStep(owner, wall, ord, pc, input);
      e.order == ord && (e.next.Goto? ==> PcIn(e.next.pc, measured, short))
  {
    hide RequiredDelegationSun, LeastFor;
    if pc.Measure? && input.Resources? { MeasuredIs(ord.energy, input.limit, input.weight); }
  }

  lemma StartWrites(owner: Address, c: Chain, wall: nat, ord: Order, pc: Pc, input: Input, measured: iset<nat>, short: iset<nat>)
    requires OrderOk(owner, c, ord) && PcOk(owner, c, ord, pc) && InRange(ord, pc)
    requires pc.BindSigned? || pc.BindUnsigned? || pc.RecordCapacity?
    requires RestsOn(c, ord, measured, short) && PcIn(pc, measured, short)
    ensures var e := StartStep(owner, wall, ord, pc, input);
      RestsOn(c, e.order, measured, short) && (e.next.Goto? ==> PcIn(e.next.pc, measured, short))
  {
    RowKnown(owner, c, ord, pc.k);
    hide OrderOk, TransitionAllowed, EligibleFrom, TimesOk;
  }

  lemma StartRests(owner: Address, c: Chain, wall: nat, ord: Order, pc: Pc, input: Input, measured: iset<nat>, short: iset<nat>)
    requires OrderOk(owner, c, ord) && PcOk(owner, c, ord, pc) && InRange(ord, pc) && PartOf(pc) == StartAttempt
    requires RestsOn(c, ord, measured, short) && PcIn(pc, measured, short) && Allows(ord, pc, input, measured, short)
    ensures var e := StartStep(owner, wall, ord, pc, input);
      RestsOn(c, e.order, measured, short) && (e.next.Goto? ==> PcIn(e.next.pc, measured, short))
  {
    hide OrderOk, StartStep, BoundIn, FailedIn, PcIn, Allows;
    if pc.BindSigned? || pc.BindUnsigned? || pc.RecordCapacity? {
      StartWrites(owner, c, wall, ord, pc, input, measured, short);
    } else {
      StartReads(owner, wall, ord, pc, input, measured, short);
    }
  }

  // Recording what the chain shows fails a row only for a transaction it shows reverted.
  lemma ReconcileRests(owner: Address, c: Chain, wall: nat, ord: Order, pc: Pc, input: Input, measured: iset<nat>, short: iset<nat>)
    requires PcOk(owner, c, ord, pc) && InRange(ord, pc) && PartOf(pc) == ReconcileAttempt
    requires RestsOn(c, ord, measured, short)
    ensures var e := ReconcileStep(c, wall, ord, pc, input);
      RestsOn(c, e.order, measured, short) && (e.next.Goto? ==> PcIn(e.next.pc, measured, short))
  {
    hide TransitionAllowed, EligibleFrom;
    match pc
    case _ =>
  }

  lemma PerformRests(owner: Address, c: Chain, wall: nat, ord: Order, pc: Pc, input: Input, measured: iset<nat>, short: iset<nat>)
    requires OrderOk(owner, c, ord) && PcOk(owner, c, ord, pc) && InRange(ord, pc)
    requires RestsOn(c, ord, measured, short) && PcIn(pc, measured, short) && Allows(ord, pc, input, measured, short)
    ensures var e := Perform(owner, c, wall, ord, pc, input);
      RestsOn(c, e.order, measured, short) && (e.next.Goto? ==> PcIn(e.next.pc, measured, short))
  {
    hide OrderOk, PcOk, RestsOn, Allows, SameGrounds, StartStep, ReconcileStep, CreateStep, RecoveryStep, ClaimStep, ServiceStep;
    if !input.Fail? {
      var e := Perform(owner, c, wall, ord, pc, input);
      match PartOf(pc)
      case StartAttempt => StartRests(owner, c, wall, ord, pc, input, measured, short);
      case ReconcileAttempt => ReconcileRests(owner, c, wall, ord, pc, input, measured, short);
      case Create => QuietCreate(ord, pc); SameGroundsRest(c, ord, e.order, measured, short);
      case Recovery => QuietRecovery(ord, pc);
      case Claiming => QuietClaim(ord, pc.k, pc.tx, pc.caller); SameGroundsRest(c, ord, e.order, measured, short);
      case Service => QuietService(ord, pc); SameGroundsRest(c, ord, e.order, measured, short);
    }
  }

  // ---- one event ----

  ghost function Of(pairs: iset<(Id, nat)>, o: Id): iset<nat> { iset n: nat | (o, n) in pairs }

  ghost predicate GroundsOk(w: World, measured: iset<(Id, nat)>, short: iset<(Id, nat)>) {
    && (forall o :: o in w.orders ==> RestsOn(w.chain, w.orders[o], Of(measured, o), Of(short, o)))
    && (forall p :: p in w.procs ==> PcIn(w.procs[p].pc, Of(measured, w.procs[p].order), Of(short, w.procs[p].order)))
  }

  lemma RestsOnMore(c: Chain, d: Chain, ord: Order, measured: iset<nat>, short: iset<nat>, more: iset<nat>, shorter: iset<nat>)
    requires RestsOn(c, ord, measured, short) && ChainEvolves(c, d) && measured <= more && short <= shorter
    ensures RestsOn(d, ord, more, shorter)
  {
  }

  lemma SignedRests(w: World, r: SignRequest, o: Id, c: Chain, measured: iset<nat>, short: iset<nat>)
    requires o in w.orders && RestsOn(c, w.orders[o], measured, short)
    ensures o in SignCommit(w, r).orders && RestsOn(c, SignCommit(w, r).orders[o], measured, short)
  {
  }

  // The event that steps operation p on its order, whether or not the operation learns of it.
  lemma SteppedRests(w: World, e: Event, p: Pid, measured: iset<nat>, short: iset<nat>)
    requires WorldOk(w) && DelegationRelease.Steps(e, p) && p in w.procs
    requires var proc := w.procs[p];
      && proc.order in w.orders && RestsOn(w.chain, w.orders[proc.order], measured, short) && PcIn(proc.pc, measured, short)
      && (e.Step? ==> Allows(w.orders[proc.order], proc.pc, e.input, measured, short))
    ensures var proc, v := w.procs[p], Handle(w, e);
      && proc.order in v.orders && RestsOn(w.chain, v.orders[proc.order], measured, short)
      && (p in v.procs ==> v.procs[p].order == proc.order && PcIn(v.procs[p].pc, measured, short))
  {
    assert e.Step? || e.Unacknowledged?;
    hide *;
    DelegationRelease.SteppedProc(w, e, p);
    DelegationStuck.SteppedOrders(w, e, p);
    var proc := w.procs[p];
    var done := Perform(w.owner, w.chain, w.wall, w.orders[proc.order], proc.pc, e.input);
    AllowsOrStays(w, e, p, measured, short);
    if Allows(w.orders[proc.order], proc.pc, e.input, measured, short) {
      PerformRests(w.owner, w.chain, w.wall, w.orders[proc.order], proc.pc, e.input, measured, short);
    }
    var next := if e.Step? then done.next else Throw;
    DelegationRelease.SettledOrder(proc, next);
    SettledRests(proc, next, measured, short);
  }

  lemma AllowsOrStays(w: World, e: Event, p: Pid, measured: iset<nat>, short: iset<nat>)
    requires DelegationRelease.Steps(e, p) && p in w.procs && w.procs[p].order in w.orders
    requires InRange(w.orders[w.procs[p].order], w.procs[p].pc)
    requires e.Step? ==> Allows(w.orders[w.procs[p].order], w.procs[p].pc, e.input, measured, short)
    ensures var proc := w.procs[p]; var ord := w.orders[proc.order];
      Allows(ord, proc.pc, e.input, measured, short) ||
      (e.Unacknowledged? && Perform(w.owner, w.chain, w.wall, ord, proc.pc, e.input).order == ord)
  {
    hide LeastFor, RequiredDelegationSun;
  }

  lemma SettledRests(proc: Proc, next: Next, measured: iset<nat>, short: iset<nat>)
    requires next.Goto? ==> PcIn(next.pc, measured, short)
    ensures Settle(proc, next).Some? ==> PcIn(Settle(proc, next).value.pc, measured, short)
  {
  }

  lemma OrderRests(w: World, e: Event, o: Id, measured: iset<(Id, nat)>, short: iset<(Id, nat)>)
    requires WorldOk(w) && GroundsOk(w, measured, short) && o in Handle(w, e).orders
    requires e.Step? && e.pid in w.procs && w.procs[e.pid].order in w.orders ==>
      Allows(w.orders[w.procs[e.pid].order], w.procs[e.pid].pc, e.input, Of(measured, w.procs[e.pid].order), Of(short, w.procs[e.pid].order))
    ensures RestsOn(w.chain, Handle(w, e).orders[o], Of(measured, o), Of(short, o))
  {
    hide WorldOk, Handle, RestsOn, Allows, Perform, SignCommit, PcIn, Of;
    if o !in w.orders {
      if (e.Step? || e.Unacknowledged?) && e.pid in w.procs { OrderHere(w, e.pid); }
      NewOrder(w, e, o);
      NothingRests(w.chain, Handle(w, e).orders[o], Of(measured, o), Of(short, o));
    } else if (e.Step? || e.Unacknowledged?) && e.pid in w.procs && w.procs[e.pid].order == o {
      SteppedRests(w, e, e.pid, Of(measured, o), Of(short, o));
    } else {
      if e.SignerCommit? { SignedRests(w, e.request, o, w.chain, Of(measured, o), Of(short, o)); }
      OrderElsewhere(w, e, o);
    }
  }

  lemma NewOrder(w: World, e: Event, o: Id)
    requires o !in w.orders && o in Handle(w, e).orders
    requires (e.Step? || e.Unacknowledged?) && e.pid in w.procs ==> w.procs[e.pid].order != o
    ensures Handle(w, e).orders[o].attempts == []
  {
    hide Perform, Settle, SignAttempt, Advance;
  }

  lemma NothingRests(c: Chain, ord: Order, measured: iset<nat>, short: iset<nat>)
    requires ord.attempts == []
    ensures RestsOn(c, ord, measured, short)
  {
  }

  lemma OrderElsewhere(w: World, e: Event, o: Id)
    requires o in w.orders
    requires (e.Step? || e.Unacknowledged?) ==> e.pid !in w.procs || w.procs[e.pid].order != o
    ensures o in Handle(w, e).orders
    ensures Handle(w, e).orders[o] == if e.SignerCommit? && o in SignCommit(w, e.request).orders then SignCommit(w, e.request).orders[o]
                                      else w.orders[o]
  {
    hide Perform, Settle, Advance, SignAttempt;
  }

  lemma EventRests(w: World, e: Event, measured: iset<(Id, nat)>, short: iset<(Id, nat)>, more: iset<(Id, nat)>, shorter: iset<(Id, nat)>)
    requires WorldOk(w) && GroundsOk(w, measured, short) && measured <= more && short <= shorter
    requires e.Step? && e.pid in w.procs && w.procs[e.pid].order in w.orders ==>
      Allows(w.orders[w.procs[e.pid].order], w.procs[e.pid].pc, e.input, Of(more, w.procs[e.pid].order), Of(shorter, w.procs[e.pid].order))
    ensures GroundsOk(Handle(w, e), more, shorter)
  {
    hide WorldOk, Handle, RestsOn, Allows, PcIn, Perform, OrderEvolves, ChainEvolves, OrderOk, PcOk;
    var v := Handle(w, e);
    HandleOk(w, e);
    GroundsMore(w, measured, short, more, shorter);
    SelfChain(w.chain, v.chain);
    forall o | o in v.orders ensures RestsOn(v.chain, v.orders[o], Of(more, o), Of(shorter, o)) {
      OrderRests(w, e, o, more, shorter);
      RestsOnMore(w.chain, v.chain, v.orders[o], Of(more, o), Of(shorter, o), Of(more, o), Of(shorter, o));
    }
    forall p | p in v.procs ensures PcIn(v.procs[p].pc, Of(more, v.procs[p].order), Of(shorter, v.procs[p].order)) {
      ProcRests(w, e, p, more, shorter);
    }
  }

  lemma SelfChain(c: Chain, d: Chain)
    requires ChainEvolves(c, d)
    ensures ChainOk(d)
  {
  }

  lemma GroundsMore(w: World, measured: iset<(Id, nat)>, short: iset<(Id, nat)>, more: iset<(Id, nat)>, shorter: iset<(Id, nat)>)
    requires WorldOk(w) && GroundsOk(w, measured, short) && measured <= more && short <= shorter
    ensures GroundsOk(w, more, shorter)
  {
    hide WorldOk, RestsOn;
    SameChain(w);
    forall o | o in w.orders ensures RestsOn(w.chain, w.orders[o], Of(more, o), Of(shorter, o)) {
      RestsOnMore(w.chain, w.chain, w.orders[o], Of(measured, o), Of(short, o), Of(more, o), Of(shorter, o));
    }
  }

  lemma SameChain(w: World)
    requires WorldOk(w)
    ensures ChainEvolves(w.chain, w.chain)
  {
    hide OrderOk, SignaturesOk, SentOk, PcOk;
    EvolvesSelf(w);
  }

  lemma ProcRests(w: World, e: Event, p: Pid, measured: iset<(Id, nat)>, short: iset<(Id, nat)>)
    requires WorldOk(w) && GroundsOk(w, measured, short) && p in Handle(w, e).procs
    requires e.Step? && e.pid in w.procs && w.procs[e.pid].order in w.orders ==>
      Allows(w.orders[w.procs[e.pid].order], w.procs[e.pid].pc, e.input, Of(measured, w.procs[e.pid].order), Of(short, w.procs[e.pid].order))
    ensures var proc := Handle(w, e).procs[p]; PcIn(proc.pc, Of(measured, proc.order), Of(short, proc.order))
  {
    hide WorldOk, Handle, RestsOn, Allows, PcIn, Perform, Of;
    DispatchRests();
    if DelegationRelease.Steps(e, p) {
      if p in w.procs {
        OrderHere(w, p);
        SteppedRests(w, e, p, Of(measured, w.procs[p].order), Of(short, w.procs[p].order));
      } else {
        DelegationRelease.NoProc(w, e, p);
      }
    } else {
      DelegationRelease.OtherProc(w, e, p);
    }
  }

  lemma OrderHere(w: World, p: Pid)
    requires WorldOk(w) && p in w.procs
    ensures w.procs[p].order in w.orders
  {
    hide OrderOk, PcOk, SignaturesOk, SentOk, IdKnown;
    assert ProcOk(w, w.procs[p]);
  }

  lemma DispatchRests()
    ensures forall pc: Pc, measured, short :: pc.Dispatch? ==> PcIn(pc, measured, short)
  {
  }

  // ---- over every run ----

  ghost function AllMeasured(owner: Address, events: seq<Event>): iset<(Id, nat)> {
    iset x: (Id, nat) | Measured(owner, events, x.0, x.1)
  }

  ghost function AllShort(owner: Address, events: seq<Event>): iset<(Id, nat)> {
    iset x: (Id, nat) | FoundShort(owner, events, x)
  }

  lemma BeforeSame(owner: Address, events: seq<Event>, e: Event, i: nat)
    requires i <= |events|
    ensures Before(owner, events + [e], i) == Before(owner, events, i)
  {
    assert (events + [e])[..i] == events[..i];
  }

  lemma MeasuredMore(owner: Address, events: seq<Event>, e: Event)
    ensures AllMeasured(owner, events) <= AllMeasured(owner, events + [e])
    ensures AllShort(owner, events) <= AllShort(owner, events + [e])
    ensures forall o: Id, b: nat :: Measures(Run(Initial(owner), events), e, o, b) ==> (o, b) in AllMeasured(owner, events + [e])
    ensures forall ref: (Id, nat), b: nat :: FindsShort(Run(Initial(owner), events), e, ref, b) && (ref.0, b) in AllMeasured(owner, events) ==>
      ref in AllShort(owner, events + [e])
  {
    hide Measures, FindsShort, Run, Initial;
    var all := events + [e];
    assert events[..|events|] == events;
    forall i: nat | i <= |events| ensures Before(owner, all, i) == Before(owner, events, i) { BeforeSame(owner, events, e, i); }
    forall o: Id, b: nat | Measured(owner, events, o, b) ensures Measured(owner, all, o, b) {
      var i :| 0 <= i < |events| && Measures(Before(owner, events, i), events[i], o, b);
      assert Measures(Before(owner, all, i), all[i], o, b);
    }
    forall ref | FoundShort(owner, events, ref) ensures FoundShort(owner, all, ref) {
      var i, b :| 0 <= i < |events| && FindsShort(Before(owner, events, i), events[i], ref, b) && Measured(owner, events, ref.0, b);
      assert FindsShort(Before(owner, all, i), all[i], ref, b);
    }
    forall o: Id, b: nat | Measures(Run(Initial(owner), events), e, o, b) ensures Measured(owner, all, o, b) {
      assert Measures(Before(owner, all, |events|), all[|events|], o, b);
    }
    forall ref: (Id, nat), b: nat | FindsShort(Run(Initial(owner), events), e, ref, b) && (ref.0, b) in AllMeasured(owner, events)
      ensures FoundShort(owner, all, ref)
    {
      assert FindsShort(Before(owner, all, |events|), all[|events|], ref, b);
    }
  }

  lemma AllowedNow(owner: Address, events: seq<Event>, e: Event)
    requires var w := Run(Initial(owner), events); WorldOk(w) && GroundsOk(w, AllMeasured(owner, events), AllShort(owner, events))
    requires var w := Run(Initial(owner), events); e.Step? && e.pid in w.procs && w.procs[e.pid].order in w.orders
    ensures var proc := Run(Initial(owner), events).procs[e.pid]; var all := events + [e];
      Allows(Run(Initial(owner), events).orders[proc.order], proc.pc, e.input,
             Of(AllMeasured(owner, all), proc.order), Of(AllShort(owner, all), proc.order))
  {
    hide WorldOk, Run, Initial, RestsOn, LeastFor, AllMeasured, AllShort;
    var w := Run(Initial(owner), events);
    var proc := w.procs[e.pid];
    MeasuredMore(owner, events, e);
    assert PcIn(proc.pc, Of(AllMeasured(owner, events), proc.order), Of(AllShort(owner, events), proc.order));
    if proc.pc.Measure? && e.input.Resources? {
      forall b: nat | LeastFor(w.orders[proc.order].energy, b, e.input.limit, e.input.weight)
        ensures b in Of(AllMeasured(owner, events + [e]), proc.order)
      {
        assert Measures(w, e, proc.order, b);
      }
    }
    if proc.pc.Capacity? && e.input.Delegatable? && e.input.sun < proc.pc.balance {
      assert FindsShort(w, e, (proc.order, proc.pc.k), proc.pc.balance);
    }
  }

  lemma {:induction false} HistoryOk(owner: Address, events: seq<Event>)
    ensures GroundsOk(Run(Initial(owner), events), AllMeasured(owner, events), AllShort(owner, events))
    decreases |events|
  {
    hide WorldOk, Handle, AllMeasured, AllShort, Allows;
    if events != [] {
      var before, e := events[..|events| - 1], events[|events| - 1];
      assert events == before + [e];
      HistoryOk(owner, before);
      hide Run, Initial, GroundsOk;
      Reachable(owner, before);
      var w := Run(Initial(owner), before);
      RunThen(Initial(owner), before, e);
      MeasuredMore(owner, before, e);
      if e.Step? && e.pid in w.procs && w.procs[e.pid].order in w.orders { AllowedNow(owner, before, e); }
      EventRests(w, e, AllMeasured(owner, before), AllShort(owner, before), AllMeasured(owner, events), AllShort(owner, events));
    }
  }

  // Every balance an attempt is bound to, and so every balance that is signed or sent for an order, was measured for that
  // order's energy: some operation on it read a network snapshot on which this balance is the least that yields the energy.
  lemma BalancesAreMeasured(owner: Address, events: seq<Event>, ref: (Id, nat))
    requires var w := Run(Initial(owner), events); At(w, ref) && RowAt(w, ref).binding.Some?
    ensures Measured(owner, events, ref.0, RowAt(Run(Initial(owner), events), ref).binding.value.balance)
  {
    hide Run;
    HistoryOk(owner, events);
    var w := Run(Initial(owner), events);
    assert RestsOn(w.chain, w.orders[ref.0], Of(AllMeasured(owner, events), ref.0), Of(AllShort(owner, events), ref.0));
  }

  lemma SentBalancesAreMeasured(owner: Address, events: seq<Event>, tx: Tx)
    requires tx in Run(Initial(owner), events).chain.sent
    ensures tx in Run(Initial(owner), events).signedBy
    ensures Measured(owner, events, Run(Initial(owner), events).signedBy[tx].0, tx.balance)
  {
    hide Run, Measured;
    OnlyBoundTransactionsAreSent(owner, events, tx);
    BalancesAreMeasured(owner, events, Run(Initial(owner), events).signedBy[tx]);
  }

  // An attempt fails only for a reason: its transaction is finally reverted, or some operation on it was told that less can
  // be delegated than a balance measured for the order.
  lemma FailuresHaveReasons(owner: Address, events: seq<Event>, ref: (Id, nat))
    requires var w := Run(Initial(owner), events); At(w, ref) && RowAt(w, ref).status == Failed
    ensures var w := Run(Initial(owner), events);
      FoundShort(owner, events, ref) || (RowAt(w, ref).txid.Some? && Final(w.chain, RowAt(w, ref).txid.value, Reverted))
  {
    hide Run, FoundShort;
    HistoryOk(owner, events);
    var w := Run(Initial(owner), events);
    assert RestsOn(w.chain, w.orders[ref.0], Of(AllMeasured(owner, events), ref.0), Of(AllShort(owner, events), ref.0));
  }
}
