// The protocol delivers: for every order and every network, a run from the empty state that completes the order with the
// least balance the network calls for. Safety alone would hold of a system that never does anything.
module DelegationProgress {
  import opened Prelude
  import opened Chain
  import opened EnergyOrders
  import opened Attempts
  import opened DelegationAmount
  import opened DelegationProtocol
  import opened DelegationHistory

  // An order for energy to recipient, on a network of this limit and weight, and the delegation to be made for it.
  datatype Scene = Scene(owner: Address, recipient: Address, energy: int, limit: int, weight: int, tx: Tx)

  predicate Apt(s: Scene) {
    && s.energy > 0 && s.limit > 0 && s.weight > 0
    && s.tx.kind == Delegate && s.tx.owner == s.owner && s.tx.receiver == s.recipient && s.tx.expiration > 0
    && RequiredDelegationSun(s.energy, s.limit, s.weight) == Ok(s.tx.balance) && s.tx.balance >= SUN_PER_TRX
  }

  function Bound(s: Scene): Attempt { FRESH.(binding := Some(BindingOf(s.tx))) }
  function Signature(s: Scene): Attempt { Bound(s).(signed := Some(s.tx)) }
  function Claiming(s: Scene): Attempt {
    Signature(s).(txid := Some(s.tx), expiration := Some(s.tx.expiration), status := Signed)
  }
  function Taken(s: Scene): Attempt { Claiming(s).(status := Accepted, acceptedAt := Some(0)) }
  function Finished(s: Scene): Attempt {
    Taken(s).(status := Completed, finalizedAt := Some(0), eligibleAt := Some(RECLAIM_DELAY_MS))
  }

  function Ord(s: Scene, state: OrderState, delivery: Option<Delivery>, attempts: seq<Attempt>): Order {
    Order(s.recipient, s.energy, state, delivery, attempts)
  }

  function Sending(s: Scene, status: DeliveryStatus, id: Option<Tx>, row: Attempt): Order {
    Ord(s, ODispatching, Some(Delivery(status, id)), [row])
  }

  // One order and one operation on it.
  function At(s: Scene, ord: Order, proc: Proc, signed: bool, asked: bool, chain: Chain): World {
    World(s.owner, map[1 := ord], if signed then map[s.tx := (1, 0)] else map[],
          if asked then {SignRequest(1, 0, s.tx)} else {}, chain, 0, map[1 := proc])
  }

  function Idle(s: Scene, ord: Order, chain: Chain): World {
    World(s.owner, map[1 := ord], map[s.tx := (1, 0)], {SignRequest(1, 0, s.tx)}, chain, 0, map[])
  }

  const QUIET := Chain(0, 0, {}, map[])

  function Opening(pc: Pc): Proc { Proc(1, pc, First, None) }
  function Again(s: Scene, pc: Pc): Proc { Proc(1, pc, Continue(true), Some(s.tx)) }

  // A step of the one operation that goes on at another place.
  lemma GoesTo(s: Scene, a: Order, proc: Proc, signed: bool, asked: bool, chain: Chain, input: Input, b: Order, pc: Pc)
    requires proc.order == 1 && InRange(a, proc.pc) && !proc.pc.Broadcast? && !proc.pc.SignCall?
    requires Perform(s.owner, chain, 0, a, proc.pc, input) == Effect(b, Goto(pc))
    ensures Handle(At(s, a, proc, signed, asked, chain), Step(1, input)) == At(s, b, proc.(pc := pc), signed, asked, chain)
  {
    hide Perform;
  }

  lemma Creating(s: Scene)
    requires Apt(s)
    ensures var pending := Ord(s, ODispatching, Some(Delivery(DPending, None)), []);
      && Perform(s.owner, QUIET, 0, pending, Lookup, Proceed) == Effect(pending, Goto(Current(true)))
      && Perform(s.owner, QUIET, 0, pending, Current(true), Proceed)
           == Effect(Sending(s, DPending, None, FRESH), Goto(FindSigned(0, FRESH)))
  {
    assert [] + [FRESH] == [FRESH];
  }

  lemma Starting(s: Scene)
    requires Apt(s)
    ensures var ord := Sending(s, DPending, None, FRESH); var b := s.tx.balance;
      && Perform(s.owner, QUIET, 0, ord, FindSigned(0, FRESH), Proceed) == Effect(ord, Goto(Measure(0)))
      && Perform(s.owner, QUIET, 0, ord, Measure(0), Resources(s.limit, s.weight)) == Effect(ord, Goto(Capacity(0, b)))
      && Perform(s.owner, QUIET, 0, ord, Capacity(0, b), Delegatable(b)) == Effect(ord, Goto(Build(0, b)))
      && Perform(s.owner, QUIET, 0, ord, Build(0, b), Built(s.tx)) == Effect(ord, Goto(BindUnsigned(0, s.tx)))
      && Perform(s.owner, QUIET, 0, ord, BindUnsigned(0, s.tx), Proceed)
           == Effect(Sending(s, DPending, None, Bound(s)), Goto(SignCall(0, s.tx)))
  {
    hide RequiredDelegationSun;
    assert [FRESH][0 := Bound(s)] == [Bound(s)];
  }

  lemma SignatureAsked(s: Scene)
    requires Apt(s)
    ensures Handle(At(s, Sending(s, DPending, None, Bound(s)), Opening(SignCall(0, s.tx)), false, false, QUIET), Step(1, Proceed))
      == At(s, Sending(s, DPending, None, Bound(s)), Opening(AwaitSigner(0, s.tx)), false, true, QUIET)
  {
    hide RequiredDelegationSun;
  }

  lemma SignatureGiven(s: Scene)
    requires Apt(s)
    ensures Handle(At(s, Sending(s, DPending, None, Bound(s)), Opening(AwaitSigner(0, s.tx)), false, true, QUIET),
                   SignerCommit(SignRequest(1, 0, s.tx)))
      == At(s, Sending(s, DPending, None, Signature(s)), Opening(AwaitSigner(0, s.tx)), true, true, QUIET)
  {
    hide RequiredDelegationSun;
    assert [Bound(s)][0 := Signature(s)] == [Signature(s)];
  }

  lemma Claims(s: Scene)
    requires Apt(s)
    ensures var ord := Sending(s, DPending, None, Signature(s));
      && Perform(s.owner, QUIET, 0, ord, AwaitSigner(0, s.tx), Proceed) == Effect(ord, Goto(Claim(0, s.tx, ByStart)))
      && Perform(s.owner, QUIET, 0, ord, Claim(0, s.tx, ByStart), Proceed)
           == Effect(Sending(s, DPending, Some(s.tx), Claiming(s)), Goto(Broadcast(0, Signed, s.tx, ByStart)))
  {
    hide RequiredDelegationSun;
    assert [Signature(s)][0 := Claiming(s)] == [Claiming(s)];
  }

  function Received(s: Scene): Chain { Chain(0, 0, {s.tx}, map[]) }

  lemma Broadcasts(s: Scene)
    requires Apt(s)
    ensures Handle(At(s, Sending(s, DPending, Some(s.tx), Claiming(s)), Opening(Broadcast(0, Signed, s.tx, ByStart)), true, true, QUIET),
                   Step(1, Sent(true)))
      == At(s, Sending(s, DPending, Some(s.tx), Claiming(s)), Opening(RecordBroadcast(0, Signed, s.tx, true, ByStart)), true, true, Received(s))
  {
    hide RequiredDelegationSun;
    assert {} + {s.tx} == {s.tx};
  }

  lemma RecordsIt(s: Scene)
    requires Apt(s)
    ensures Handle(At(s, Sending(s, DPending, Some(s.tx), Claiming(s)), Opening(RecordBroadcast(0, Signed, s.tx, true, ByStart)), true, true,
                      Received(s)), Step(1, Proceed))
      == At(s, Sending(s, DPending, Some(s.tx), Taken(s)), Opening(Apply(Report(Some(s.tx), DAccepted))), true, true, Received(s))
  {
    hide RequiredDelegationSun;
    assert [Claiming(s)][0 := Taken(s)] == [Taken(s)];
  }

  lemma AppliesIt(s: Scene)
    requires Apt(s)
    ensures Handle(At(s, Sending(s, DPending, Some(s.tx), Taken(s)), Opening(Apply(Report(Some(s.tx), DAccepted))), true, true, Received(s)),
                   Step(1, Proceed))
      == Idle(s, Sending(s, DAccepted, Some(s.tx), Taken(s)), Received(s))
  {
    hide RequiredDelegationSun;
  }

  function Landed(s: Scene): Chain { Chain(1, 1, {s.tx}, map[s.tx := Inclusion(1, Succeeded)]) }

  lemma Lands(s: Scene)
    requires Apt(s)
    ensures Handle(Handle(Idle(s, Sending(s, DAccepted, Some(s.tx), Taken(s)), Received(s)), OnChain(Block(1, map[s.tx := Succeeded]))),
                   OnChain(Solidify(1)))
      == Idle(s, Sending(s, DAccepted, Some(s.tx), Taken(s)), Landed(s))
  {
    hide RequiredDelegationSun;
    var c := Advance(Received(s), Block(1, map[s.tx := Succeeded]));
    assert c.included == map[s.tx := Inclusion(1, Succeeded)];
  }

  lemma Returns(s: Scene)
    requires Apt(s)
    ensures var ord := Sending(s, DAccepted, Some(s.tx), Taken(s));
      Handle(Handle(Idle(s, ord, Landed(s)), Begin(1, 1, true)), Step(1, Proceed)) == At(s, ord, Again(s, Lookup), true, true, Landed(s))
  {
    hide RequiredDelegationSun;
  }

  lemma Observing(s: Scene)
    requires Apt(s)
    ensures var ord, row := Sending(s, DAccepted, Some(s.tx), Taken(s)), Taken(s);
      && Perform(s.owner, Landed(s), 0, ord, Lookup, Proceed) == Effect(ord, Goto(Current(true)))
      && Perform(s.owner, Landed(s), 0, ord, Current(true), Proceed) == Effect(ord, Goto(Observe(0, row, ByAdvance(true))))
      && Perform(s.owner, Landed(s), 0, ord, Observe(0, row, ByAdvance(true)), Saw(SeenCompleted))
           == Effect(ord, Goto(RecordSeen(0, row, SeenCompleted, ByAdvance(true))))
  {
    hide RequiredDelegationSun;
  }

  lemma Completes(s: Scene)
    requires Apt(s)
    ensures var ord, row := Sending(s, DAccepted, Some(s.tx), Taken(s)), Taken(s);
      Perform(s.owner, Landed(s), 0, ord, RecordSeen(0, row, SeenCompleted, ByAdvance(true)), Proceed)
        == Effect(Sending(s, DAccepted, Some(s.tx), Finished(s)), Goto(Refresh(true, Report(Some(s.tx), DCompleted))))
  {
    hide RequiredDelegationSun;
    assert [Taken(s)][0 := Finished(s)] == [Finished(s)];
  }

  lemma Refreshes(s: Scene)
    requires Apt(s)
    ensures var ord := Sending(s, DAccepted, Some(s.tx), Finished(s)); var r := Report(Some(s.tx), DCompleted);
      Handle(At(s, ord, Again(s, Refresh(true, r)), true, true, Landed(s)), Step(1, Proceed))
        == At(s, ord, Again(s, Apply(r)), true, true, Landed(s))
  {
    hide RequiredDelegationSun;
  }

  lemma Settles(s: Scene)
    requires Apt(s)
    ensures var ord := Sending(s, DAccepted, Some(s.tx), Finished(s)); var r := Report(Some(s.tx), DCompleted);
      Handle(At(s, ord, Again(s, Apply(r)), true, true, Landed(s)), Step(1, Proceed))
        == Idle(s, Ord(s, OCompleted, Some(Delivery(DCompleted, Some(s.tx))), [Finished(s)]), Landed(s))
  {
    hide RequiredDelegationSun;
  }

  lemma Begins(s: Scene)
    ensures var placed := Handle(Initial(s.owner), Place(1, s.recipient, s.energy));
      Handle(Handle(placed, Begin(1, 1, true)), Step(1, Proceed))
        == At(s, Ord(s, ODispatching, Some(Delivery(DPending, None)), []), Opening(Lookup), false, false, QUIET)
  {
  }

  // ---- the run ----

  lemma Then(owner: Address, events: seq<Event>, e: Event) returns (more: seq<Event>)
    ensures more == events + [e] && Run(Initial(owner), more) == Handle(Run(Initial(owner), events), e)
  {
    more := events + [e];
    RunThen(Initial(owner), events, e);
  }

  // Up to the moment the signer is asked.
  lemma ToSigner(s: Scene) returns (events: seq<Event>)
    requires Apt(s)
    ensures Run(Initial(s.owner), events)
      == At(s, Sending(s, DPending, None, Bound(s)), Opening(SignCall(0, s.tx)), false, false, QUIET)
  {
    hide Run, Handle, Perform, Sending, Apt, Initial, At;
    var pending, started := Ord(s, ODispatching, Some(Delivery(DPending, None)), []), Sending(s, DPending, None, FRESH);
    var b := s.tx.balance;
    NoEvents(s.owner);
    events := Then(s.owner, [], Place(1, s.recipient, s.energy));
    events := Then(s.owner, events, Begin(1, 1, true));
    events := Then(s.owner, events, Step(1, Proceed));
    Begins(s);
    Creating(s);
    Starting(s);
    InRangeHere(s, started);
    GoesTo(s, pending, Opening(Lookup), false, false, QUIET, Proceed, pending, Current(true));
    events := Then(s.owner, events, Step(1, Proceed));
    GoesTo(s, pending, Opening(Current(true)), false, false, QUIET, Proceed, started, FindSigned(0, FRESH));
    events := Then(s.owner, events, Step(1, Proceed));
    GoesTo(s, started, Opening(FindSigned(0, FRESH)), false, false, QUIET, Proceed, started, Measure(0));
    events := Then(s.owner, events, Step(1, Proceed));
    GoesTo(s, started, Opening(Measure(0)), false, false, QUIET, Resources(s.limit, s.weight), started, Capacity(0, b));
    events := Then(s.owner, events, Step(1, Resources(s.limit, s.weight)));
    GoesTo(s, started, Opening(Capacity(0, b)), false, false, QUIET, Delegatable(b), started, Build(0, b));
    events := Then(s.owner, events, Step(1, Delegatable(b)));
    GoesTo(s, started, Opening(Build(0, b)), false, false, QUIET, Built(s.tx), started, BindUnsigned(0, s.tx));
    events := Then(s.owner, events, Step(1, Built(s.tx)));
    GoesTo(s, started, Opening(BindUnsigned(0, s.tx)), false, false, QUIET, Proceed, Sending(s, DPending, None, Bound(s)), SignCall(0, s.tx));
    events := Then(s.owner, events, Step(1, Proceed));
  }

  lemma NoEvents(owner: Address)
    ensures Run(Initial(owner), []) == Initial(owner)
  {
  }

  lemma InRangeHere(s: Scene, ord: Order)
    requires ord == Sending(s, DPending, None, FRESH)
    ensures |ord.attempts| == 1
  {
  }

  // On to the moment the first operation ends, its broadcast accepted.
  lemma ToAccepted(s: Scene) returns (events: seq<Event>)
    requires Apt(s)
    ensures Run(Initial(s.owner), events) == Idle(s, Sending(s, DAccepted, Some(s.tx), Taken(s)), Received(s))
  {
    hide Run, Handle, Perform, Sending, Apt, Initial, At;
    var signed := Sending(s, DPending, None, Signature(s));
    events := ToSigner(s);
    SignatureAsked(s);
    events := Then(s.owner, events, Step(1, Proceed));
    SignatureGiven(s);
    events := Then(s.owner, events, SignerCommit(SignRequest(1, 0, s.tx)));
    Claims(s);
    SignedHere(s, signed);
    GoesTo(s, signed, Opening(AwaitSigner(0, s.tx)), true, true, QUIET, Proceed, signed, Claim(0, s.tx, ByStart));
    events := Then(s.owner, events, Step(1, Proceed));
    GoesTo(s, signed, Opening(Claim(0, s.tx, ByStart)), true, true, QUIET, Proceed,
           Sending(s, DPending, Some(s.tx), Claiming(s)), Broadcast(0, Signed, s.tx, ByStart));
    events := Then(s.owner, events, Step(1, Proceed));
    Broadcasts(s);
    events := Then(s.owner, events, Step(1, Sent(true)));
    RecordsIt(s);
    events := Then(s.owner, events, Step(1, Proceed));
    AppliesIt(s);
    events := Then(s.owner, events, Step(1, Proceed));
  }

  lemma SignedHere(s: Scene, ord: Order)
    requires ord == Sending(s, DPending, None, Signature(s))
    ensures |ord.attempts| == 1
  {
  }

  // For every order and every network snapshot there is a run that completes it: from its placing, with the least balance
  // that snapshot calls for, to its own recipient.
  lemma EveryOrderCanComplete(s: Scene) returns (events: seq<Event>)
    requires Apt(s)
    ensures var w := Run(Initial(s.owner), events);
      && 1 in w.orders && w.orders[1].recipient == s.recipient && w.orders[1].energy == s.energy
      && w.orders[1].state == OCompleted && w.orders[1].delivery == Some(Delivery(DCompleted, Some(s.tx)))
      && w.orders[1].attempts == [Finished(s)] && Final(w.chain, s.tx, Succeeded) && w.procs == map[]
  {
    hide Run, Handle, Perform, Sending, Apt, Initial, At;
    var ord, row := Sending(s, DAccepted, Some(s.tx), Taken(s)), Taken(s);
    events := ToAccepted(s);
    Lands(s);
    events := Then(s.owner, events, OnChain(Block(1, map[s.tx := Succeeded])));
    events := Then(s.owner, events, OnChain(Solidify(1)));
    Returns(s);
    events := Then(s.owner, events, Begin(1, 1, true));
    events := Then(s.owner, events, Step(1, Proceed));
    Observing(s);
    TakenHere(s, ord);
    GoesTo(s, ord, Again(s, Lookup), true, true, Landed(s), Proceed, ord, Current(true));
    events := Then(s.owner, events, Step(1, Proceed));
    GoesTo(s, ord, Again(s, Current(true)), true, true, Landed(s), Proceed, ord, Observe(0, row, ByAdvance(true)));
    events := Then(s.owner, events, Step(1, Proceed));
    GoesTo(s, ord, Again(s, Observe(0, row, ByAdvance(true))), true, true, Landed(s), Saw(SeenCompleted), ord,
           RecordSeen(0, row, SeenCompleted, ByAdvance(true)));
    events := Then(s.owner, events, Step(1, Saw(SeenCompleted)));
    Completes(s);
    GoesTo(s, ord, Again(s, RecordSeen(0, row, SeenCompleted, ByAdvance(true))), true, true, Landed(s), Proceed,
           Sending(s, DAccepted, Some(s.tx), Finished(s)), Refresh(true, Report(Some(s.tx), DCompleted)));
    events := Then(s.owner, events, Step(1, Proceed));
    Refreshes(s);
    events := Then(s.owner, events, Step(1, Proceed));
    Settles(s);
    events := Then(s.owner, events, Step(1, Proceed));
  }

  lemma TakenHere(s: Scene, ord: Order)
    requires ord == Sending(s, DAccepted, Some(s.tx), Taken(s))
    ensures |ord.attempts| == 1
  {
  }

  // Such a scene exists for every order and snapshot: the least balance can always be delegated.
  lemma EveryOrderIsApt(owner: Address, recipient: Address, energy: int, limit: int, weight: int) returns (s: Scene)
    requires energy > 0 && limit > 0 && weight > 0
    ensures Apt(s) && s.owner == owner && s.recipient == recipient && s.energy == energy && s.limit == limit && s.weight == weight
    ensures LeastFor(energy, s.tx.balance, limit, weight)
  {
    LeastSufficient(energy, limit, weight, SUN_PER_TRX);
    MeasuredIs(energy, limit, weight);
    s := Scene(owner, recipient, energy, limit, weight,
               Tx(Delegate, owner, recipient, RequiredDelegationSun(energy, limit, weight).value, 1, 0));
  }
}
