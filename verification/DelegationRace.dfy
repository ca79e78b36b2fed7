// Why ReleasedMeansNeverDelivered needs one operation per order: a run with two concurrent ones that gives the
// units back for a delegation that then succeeds. A capacity failure may overwrite an accepted attempt
// (src/adapters/database/postgres-energy-provider-attempt-journal.ts:123-126).
module DelegationRace {
  import opened Prelude
  import opened Chain
  import opened EnergyOrders
  import opened Attempts
  import opened DelegationAmount
  import opened DelegationProtocol
  import opened DelegationTheorems

  const POOL := "pool"
  const SENT := Tx(Delegate, POOL, "recipient", SUN_PER_TRX, 100, 0)
  const BOUND := FRESH.(binding := Some(BindingOf(SENT)))
  const SIGNED := BOUND.(signed := Some(SENT))

  function Placed(state: OrderState, delivery: Option<Delivery>, attempts: seq<Attempt>): Order {
    Order("recipient", 1, state, delivery, attempts)
  }

  lemma RunTwo(w: World, a: Event, b: Event, rest: seq<Event>)
    ensures Run(w, [a, b] + rest) == Run(Handle(Handle(w, a), b), rest)
  {
    assert ([a, b] + rest)[1..] == [b] + rest;
    assert ([b] + rest)[1..] == rest;
  }

  function Base(ord: Order): World {
    World(POOL, map[1 := ord], map[], {}, Chain(0, 0, {}, map[]), 0, map[])
  }

  function At1(pc: Pc): Proc { Proc(1, pc, First, None) }
  function At2(pc: Pc): Proc { Proc(1, pc, Continue(true), None) }

  const PENDING := Placed(ODispatching, Some(Delivery(DPending, None)), [FRESH])
  const BOUND_ORDER := Placed(ODispatching, Some(Delivery(DPending, None)), [BOUND])
  const CLAIMED := SIGNED.(txid := Some(SENT), expiration := Some(100), status := Signed)
  const ACCEPTED := CLAIMED.(status := Accepted, acceptedAt := Some(0))
  const LATER := At2(Capacity(0, SUN_PER_TRX))

  // The states after the signer was asked.
  function Asked(status: DeliveryStatus, id: Option<Tx>, row: Attempt, sent: set<Tx>, procs: map<Pid, Proc>): World {
    World(POOL, map[1 := Placed(ODispatching, Some(Delivery(status, id)), [row])], map[SENT := (1, 0)],
          {SignRequest(1, 0, SENT)}, Chain(0, 0, sent, map[]), 0, procs)
  }

  const RELEASED := World(POOL, map[1 := Placed(OReleased, Some(Delivery(DFailed, Some(SENT))), [ACCEPTED.(status := Failed)])],
    map[SENT := (1, 0)], {SignRequest(1, 0, SENT)}, Chain(0, 0, {SENT}, map[]), 0, map[])

  // Operation 1 dispatches the order and creates attempt 1.
  const W1 := Base(Placed(OReserved, None, [])).(procs := map[1 := At1(Dispatch(true))])

  lemma S1()
    ensures Handle(Handle(Initial(POOL), Place(1, "recipient", 1)), Begin(1, 1, true)) == W1
  {
  }

  const W2 := Base(Placed(ODispatching, Some(Delivery(DPending, None)), [])).(procs := map[1 := At1(Current(true))])

  lemma S2()
    ensures Handle(Handle(W1, Step(1, Proceed)), Step(1, Proceed)) == W2
  {
  }

  // Operation 2 starts as well and waits before its capacity check.
  const W3 := Base(PENDING).(procs := map[1 := At1(FindSigned(0, FRESH)), 2 := Proc(1, Dispatch(true), First, None)])

  lemma S3()
    ensures Handle(Handle(W2, Step(1, Proceed)), Begin(2, 1, true)) == W3
  {
    var w := Handle(W2, Step(1, Proceed));
    assert w.orders[1].attempts == [FRESH];
    assert Handle(w, Begin(2, 1, true)).orders[1].attempts == [FRESH];
  }

  const W4 := Base(PENDING).(procs := map[1 := At1(FindSigned(0, FRESH)), 2 := At2(Current(true))])

  lemma S4()
    ensures Handle(Handle(W3, Step(2, Proceed)), Step(2, Proceed)) == W4
  {
  }

  const W5 := Base(PENDING).(procs := map[1 := At1(FindSigned(0, FRESH)), 2 := At2(Measure(0))])

  lemma S5()
    ensures Handle(Handle(W4, Step(2, Proceed)), Step(2, Proceed)) == W5
  {
  }

  const W6 := Base(PENDING).(procs := map[1 := At1(Measure(0)), 2 := LATER])

  lemma S6()
    ensures Handle(Handle(W5, Step(2, Resources(1, 1))), Step(1, Proceed)) == W6
  {
  }

  // Operation 1 has capacity, binds, asks the signer, claims and broadcasts.
  const W7 := Base(PENDING).(procs := map[1 := At1(Build(0, SUN_PER_TRX)), 2 := LATER])

  lemma S7()
    ensures Handle(Handle(W6, Step(1, Resources(1, 1))), Step(1, Delegatable(SUN_PER_TRX))) == W7
  {
  }

  const W8 := Base(BOUND_ORDER).(procs := map[1 := At1(SignCall(0, SENT)), 2 := LATER])

  lemma S8()
    ensures Handle(Handle(W7, Step(1, Built(SENT))), Step(1, Proceed)) == W8
  {
    var w := Handle(W7, Step(1, Built(SENT)));
    assert w.orders[1].attempts == [FRESH];
    assert Handle(w, Step(1, Proceed)).orders[1].attempts == [BOUND];
  }

  const W9 := Asked(DPending, None, SIGNED, {}, map[1 := At1(AwaitSigner(0, SENT)), 2 := LATER])

  lemma S9()
    ensures Handle(Handle(W8, Step(1, Proceed)), SignerCommit(SignRequest(1, 0, SENT))) == W9
  {
    var w := Handle(W8, Step(1, Proceed));
    assert w.orders[1].attempts == [BOUND];
    assert Handle(w, SignerCommit(SignRequest(1, 0, SENT))).orders[1].attempts == [SIGNED];
  }

  const W10 := Asked(DPending, Some(SENT), CLAIMED, {}, map[1 := At1(Broadcast(0, Signed, SENT, ByStart)), 2 := LATER])

  lemma S10()
    ensures Handle(Handle(W9, Step(1, Proceed)), Step(1, Proceed)) == W10
  {
    hide SignCommit, RecoveryStep, CreateStep, RequiredDelegationSun, Advance, Truthful, SignAttempt, WithCurrent,
      IndexOf, ReconcileStep, ServiceStep, RecordState;
    var w := Handle(W9, Step(1, Proceed));
    assert w.orders[1].attempts == [SIGNED];
    assert Handle(w, Step(1, Proceed)).orders[1].attempts == [CLAIMED];
  }

  const W11 := Asked(DPending, Some(SENT), ACCEPTED, {SENT}, map[1 := At1(Apply(Report(Some(SENT), DAccepted))), 2 := LATER])

  const W10A := Asked(DPending, Some(SENT), CLAIMED, {SENT}, map[1 := At1(RecordBroadcast(0, Signed, SENT, true, ByStart)), 2 := LATER])

  lemma S11A()
    ensures Handle(W10, Step(1, Sent(true))) == W10A
  {
    hide SignCommit, RecoveryStep, CreateStep, RequiredDelegationSun, Advance, Truthful, SignAttempt, WithCurrent,
      IndexOf, StartStep, ServiceStep, ClaimStep, ClaimTransaction;
    assert Handle(W10, Step(1, Sent(true))).orders[1].attempts == [CLAIMED];
  }

  lemma S11B()
    ensures Handle(W10A, Step(1, Proceed)) == W11
  {
    hide SignCommit, RecoveryStep, CreateStep, RequiredDelegationSun, Advance, Truthful, SignAttempt, WithCurrent,
      IndexOf, StartStep, ServiceStep, ClaimStep, ClaimTransaction;
    assert Handle(W10A, Step(1, Proceed)).orders[1].attempts == [ACCEPTED];
  }

  lemma S11()
    ensures Handle(Handle(W10, Step(1, Sent(true))), Step(1, Proceed)) == W11
  {
    hide Handle;
    S11A();
    S11B();
  }

  // Operation 2 finds no capacity left, fails the accepted attempt and releases the order.
  const W12 := Asked(DAccepted, Some(SENT), ACCEPTED, {SENT}, map[2 := At2(RecordCapacity(0))])

  const W11A := Asked(DAccepted, Some(SENT), ACCEPTED, {SENT}, map[2 := LATER])

  lemma S12A()
    ensures Handle(W11, Step(1, Proceed)) == W11A
  {
    hide SignCommit, RecoveryStep, CreateStep, RequiredDelegationSun, Advance, Truthful, SignAttempt, WithCurrent,
      IndexOf, ReconcileStep, ClaimStep, ClaimTransaction, RecordState, StartStep;
    assert Handle(W11, Step(1, Proceed)).orders[1].attempts == [ACCEPTED];
  }

  lemma S12B()
    ensures Handle(W11A, Step(2, Delegatable(0))) == W12
  {
    hide SignCommit, RecoveryStep, CreateStep, RequiredDelegationSun, Advance, Truthful, SignAttempt, WithCurrent,
      IndexOf, ReconcileStep, ClaimStep, ClaimTransaction, RecordState, ServiceStep;
    assert Handle(W11A, Step(2, Delegatable(0))).orders[1].attempts == [ACCEPTED];
  }

  lemma S12()
    ensures Handle(Handle(W11, Step(1, Proceed)), Step(2, Delegatable(0))) == W12
  {
    hide Handle;
    S12A();
    S12B();
  }

  const W13 := RELEASED

  const W12A := Asked(DAccepted, Some(SENT), ACCEPTED.(status := Failed), {SENT}, map[2 := At2(Apply(Report(None, DFailed)))])

  lemma S13A()
    ensures Handle(W12, Step(2, Proceed)) == W12A
  {
    hide SignCommit, RecoveryStep, CreateStep, RequiredDelegationSun, Advance, Truthful, SignAttempt, WithCurrent,
      IndexOf, ReconcileStep, ClaimStep, ClaimTransaction, ServiceStep;
    assert Handle(W12, Step(2, Proceed)).orders[1].attempts == [ACCEPTED.(status := Failed)];
  }

  lemma S13B()
    ensures Handle(W12A, Step(2, Proceed)) == W13
  {
    hide SignCommit, RecoveryStep, CreateStep, RequiredDelegationSun, Advance, Truthful, SignAttempt, WithCurrent,
      IndexOf, ReconcileStep, ClaimStep, ClaimTransaction, StartStep, RecordState;
    assert Handle(W12A, Step(2, Proceed)).orders[1].attempts == [ACCEPTED.(status := Failed)];
  }

  lemma S13()
    ensures Handle(Handle(W12, Step(2, Proceed)), Step(2, Proceed)) == W13
  {
    hide Handle;
    S13A();
    S13B();
  }

  // The chain then includes and solidifies the transaction.
  lemma Landing()
    ensures var w := Handle(Handle(RELEASED, OnChain(Block(1, map[SENT := Succeeded]))), OnChain(Solidify(1)));
      && 1 in w.orders && w.orders[1].state == OReleased
      && SignedFor(w, SENT, 1) && Final(w.chain, SENT, Succeeded)
  {
  }

  // A run from the start to the moment before operation 1 broadcasts, and on from there.
  lemma ToBroadcast(rest: seq<Event>) returns (events: seq<Event>)
    ensures Run(Initial(POOL), events) == Run(W10, rest)
  {
    hide Handle, Initial;
    S10(); RunTwo(W9, Step(1, Proceed), Step(1, Proceed), rest);
    events := [Step(1, Proceed), Step(1, Proceed)] + rest;
    S9(); RunTwo(W8, Step(1, Proceed), SignerCommit(SignRequest(1, 0, SENT)), events);
    events := [Step(1, Proceed), SignerCommit(SignRequest(1, 0, SENT))] + events;
    S8(); RunTwo(W7, Step(1, Built(SENT)), Step(1, Proceed), events);
    events := [Step(1, Built(SENT)), Step(1, Proceed)] + events;
    S7(); RunTwo(W6, Step(1, Resources(1, 1)), Step(1, Delegatable(SUN_PER_TRX)), events);
    events := [Step(1, Resources(1, 1)), Step(1, Delegatable(SUN_PER_TRX))] + events;
    S6(); RunTwo(W5, Step(2, Resources(1, 1)), Step(1, Proceed), events);
    events := [Step(2, Resources(1, 1)), Step(1, Proceed)] + events;
    S5(); RunTwo(W4, Step(2, Proceed), Step(2, Proceed), events);
    events := [Step(2, Proceed), Step(2, Proceed)] + events;
    S4(); RunTwo(W3, Step(2, Proceed), Step(2, Proceed), events);
    events := [Step(2, Proceed), Step(2, Proceed)] + events;
    S3(); RunTwo(W2, Step(1, Proceed), Begin(2, 1, true), events);
    events := [Step(1, Proceed), Begin(2, 1, true)] + events;
    S2(); RunTwo(W1, Step(1, Proceed), Step(1, Proceed), events);
    events := [Step(1, Proceed), Step(1, Proceed)] + events;
    S1(); RunTwo(Initial(POOL), Place(1, "recipient", 1), Begin(1, 1, true), events);
    events := [Place(1, "recipient", 1), Begin(1, 1, true)] + events;
  }

  lemma UnserialisedReleaseCanDeliver() returns (events: seq<Event>)
    ensures var w := Run(Initial(POOL), events);
      && 1 in w.orders && w.orders[1].state == OReleased
      && SignedFor(w, SENT, 1) && Final(w.chain, SENT, Succeeded)
  {
    hide Handle, Initial;
    events := [OnChain(Block(1, map[SENT := Succeeded])), OnChain(Solidify(1))] + [];
    RunTwo(RELEASED, OnChain(Block(1, map[SENT := Succeeded])), OnChain(Solidify(1)), []);
    Landing();
    S13(); RunTwo(W12, Step(2, Proceed), Step(2, Proceed), events);
    events := [Step(2, Proceed), Step(2, Proceed)] + events;
    S12(); RunTwo(W11, Step(1, Proceed), Step(2, Delegatable(0)), events);
    events := [Step(1, Proceed), Step(2, Delegatable(0))] + events;
    S11(); RunTwo(W10, Step(1, Sent(true)), Step(1, Proceed), events);
    events := [Step(1, Sent(true)), Step(1, Proceed)] + events;
    events := ToBroadcast(events);
  }
}
