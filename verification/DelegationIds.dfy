// What a delivery's provider order id is, over every run: the transaction its order claimed last. Status calls look the
// delivery up by it (src/adapters/energy/tron-own-pool-energy-provider.ts).
module DelegationIds {
  import opened Prelude
  import opened Chain
  import opened EnergyOrders
  import opened Attempts
  import opened DelegationProtocol
  import opened DelegationSafety
  import opened DelegationTheorems
  import opened DelegationHistory
  import DelegationRelease
  import DelegationStuck
  import DelegationAmount

  function LatestClaim(rows: seq<Attempt>): Option<Tx> {
    if rows == [] then None
    else if rows[|rows| - 1].txid.Some? then rows[|rows| - 1].txid
    else LatestClaim(rows[..|rows| - 1])
  }

  predicate NamesLatest(ord: Order) {
    ord.delivery.Some? ==> ord.delivery.value.providerOrderId == LatestClaim(ord.attempts)
  }

  predicate SameTxids(a: seq<Attempt>, b: seq<Attempt>) {
    |a| <= |b| && forall k :: 0 <= k < |b| ==> b[k].txid == if k < |a| then a[k].txid else None
  }

  lemma {:induction false} SameClaims(a: seq<Attempt>, b: seq<Attempt>)
    requires SameTxids(a, b)
    ensures LatestClaim(a) == LatestClaim(b)
    decreases |b|
  {
    if |a| < |b| {
      SameClaims(a, b[..|b| - 1]);
    } else if b != [] {
      SameClaims(a[..|a| - 1], b[..|b| - 1]);
    }
  }

  lemma {:induction false} LatestIsClaimed(rows: seq<Attempt>, k: nat)
    requires k < |rows| && rows[k].txid.Some?
    ensures LatestClaim(rows).Some?
    decreases |rows|
  {
    if rows[|rows| - 1].txid.None? { LatestIsClaimed(rows[..|rows| - 1], k); }
  }

  // Steps that claim nothing and leave the provider order id alone.
  predicate Idle(a: Order, b: Order) {
    && SameTxids(a.attempts, b.attempts) && (a.delivery.Some? <==> b.delivery.Some?)
    && (a.delivery.Some? ==> b.delivery.value.providerOrderId == a.delivery.value.providerOrderId)
  }

  lemma IdleNames(a: Order, b: Order)
    requires Idle(a, b) && NamesLatest(a)
    ensures NamesLatest(b)
  {
    SameClaims(a.attempts, b.attempts);
  }

  lemma IdleCreate(ord: Order, pc: Pc)
    requires PartOf(pc) == Create
    ensures Idle(ord, CreateStep(ord, pc).order)
  {
  }

  lemma IdleStart(owner: Address, wall: nat, ord: Order, pc: Pc, input: Input)
    requires PartOf(pc) == StartAttempt && InRange(ord, pc)
    ensures Idle(ord, StartStep(owner, wall, ord, pc, input).order)
  {
    hide DelegationAmount.RequiredDelegationSun;
  }

  lemma IdleReconcile(c: Chain, wall: nat, ord: Order, pc: Pc, input: Input)
    requires PartOf(pc) == ReconcileAttempt && InRange(ord, pc)
    ensures Idle(ord, ReconcileStep(c, wall, ord, pc, input).order)
  {
    hide TransitionAllowed, EligibleFrom;
  }

  lemma IdleRecovery(ord: Order, pc: Pc)
    requires PartOf(pc) == Recovery && InRange(ord, pc)
    ensures Idle(ord, RecoveryStep(ord, pc).order)
  {
  }

  // Only the last row can be claimed anew.
  lemma ClaimNames(owner: Address, c: Chain, ord: Order, k: nat, tx: Tx, caller: Caller)
    requires OrderOk(owner, c, ord) && k < |ord.attempts| && NamesLatest(ord)
    ensures NamesLatest(ClaimStep(ord, k, tx, caller).order)
  {
    RowKnown(owner, c, ord, k);
    assert k < |ord.attempts| - 1 ==> ord.attempts[k].status == Expired;
    hide OrderOk, IdKnown;
    var b := ClaimStep(ord, k, tx, caller).order;
    if ord.attempts[k].txid.Some? { IdleNames(ord, b); }
  }

  // A report brings an id only to a delivery that has one: whatever was claimed is in the delivery already.
  lemma ServiceNames(owner: Address, c: Chain, ord: Order, pc: Pc)
    requires OrderOk(owner, c, ord) && PcOk(owner, c, ord, pc) && PartOf(pc) == Service && NamesLatest(ord)
    ensures NamesLatest(ServiceStep(ord, pc).order)
  {
    if pc.Apply? && pc.result.providerOrderId.Some? {
      var k :| 0 <= k < |ord.attempts| && ord.attempts[k].txid == pc.result.providerOrderId;
      LatestIsClaimed(ord.attempts, k);
    }
    assert ord.state == OReserved ==> ord.attempts == [];
    hide OrderOk, PcOk;
  }

  lemma PerformNames(owner: Address, c: Chain, wall: nat, ord: Order, pc: Pc, input: Input)
    requires OrderOk(owner, c, ord) && PcOk(owner, c, ord, pc) && InRange(ord, pc) && NamesLatest(ord)
    ensures NamesLatest(Perform(owner, c, wall, ord, pc, input).order)
  {
    hide OrderOk, PcOk, NamesLatest, Idle, StartStep, ReconcileStep, CreateStep, RecoveryStep, ClaimStep, ServiceStep;
    if !input.Fail? {
      var b := Perform(owner, c, wall, ord, pc, input).order;
      match PartOf(pc)
      case Create => IdleCreate(ord, pc); IdleNames(ord, b);
      case StartAttempt => IdleStart(owner, wall, ord, pc, input); IdleNames(ord, b);
      case ReconcileAttempt => IdleReconcile(c, wall, ord, pc, input); IdleNames(ord, b);
      case Recovery => IdleRecovery(ord, pc); IdleNames(ord, b);
      case Claiming => ClaimingHere(owner, c, ord, pc); ClaimNames(owner, c, ord, pc.k, pc.tx, pc.caller);
      case Service => ServiceNames(owner, c, ord, pc);
    }
  }

  lemma ClaimingHere(owner: Address, c: Chain, ord: Order, pc: Pc)
    requires PcOk(owner, c, ord, pc) && PartOf(pc) == Claiming
    ensures pc.k < |ord.attempts|
  {
  }

  lemma SignedNames(w: World, r: SignRequest, o: Id)
    requires o in w.orders && NamesLatest(w.orders[o])
    ensures o in SignCommit(w, r).orders && NamesLatest(SignCommit(w, r).orders[o])
  {
    IdleNames(w.orders[o], SignCommit(w, r).orders[o]);
  }

  lemma EventNames(w: World, e: Event, o: Id)
    requires WorldOk(w) && (o in w.orders ==> NamesLatest(w.orders[o])) && o in Handle(w, e).orders
    ensures NamesLatest(Handle(w, e).orders[o])
  {
    hide WorldOk, Handle, NamesLatest, Perform, SignCommit, OrderOk, PcOk;
    if o !in w.orders {
      if (e.Step? || e.Unacknowledged?) && e.pid in w.procs { OrderHere(w, e.pid); }
      NewNames(w, e, o);
    } else if (e.Step? || e.Unacknowledged?) && e.pid in w.procs && w.procs[e.pid].order == o {
      DelegationRelease.SteppedProc(w, e, e.pid);
      DelegationStuck.SteppedOrders(w, e, e.pid);
      PerformNames(w.owner, w.chain, w.wall, w.orders[o], w.procs[e.pid].pc, e.input);
    } else {
      if e.SignerCommit? { SignedNames(w, e.request, o); }
      OrderElsewhere(w, e, o);
    }
  }

  lemma NewNames(w: World, e: Event, o: Id)
    requires o !in w.orders && o in Handle(w, e).orders
    requires (e.Step? || e.Unacknowledged?) && e.pid in w.procs ==> w.procs[e.pid].order != o
    ensures NamesLatest(Handle(w, e).orders[o])
  {
    hide Perform, Settle, SignAttempt, Advance;
  }

  lemma {:induction false} RunNames(w: World, events: seq<Event>)
    requires WorldOk(w) && forall o :: o in w.orders ==> NamesLatest(w.orders[o])
    ensures forall o :: o in Run(w, events).orders ==> NamesLatest(Run(w, events).orders[o])
    decreases |events|
  {
    hide WorldOk, Handle, NamesLatest;
    if events != [] {
      HandleOk(w, events[0]);
      forall o | o in Handle(w, events[0]).orders ensures NamesLatest(Handle(w, events[0]).orders[o]) { EventNames(w, events[0], o); }
      RunNames(Handle(w, events[0]), events[1..]);
    }
  }

  // The provider order id of every delivery is the transaction claimed by the latest of its attempts that has claimed one,
  // and missing only while none has.
  lemma DeliveryNamesLatestClaim(owner: Address, events: seq<Event>, o: Id)
    requires var w := Run(Initial(owner), events); o in w.orders && w.orders[o].delivery.Some?
    ensures var ord := Run(Initial(owner), events).orders[o]; var id := ord.delivery.value.providerOrderId;
      && (id.None? ==> forall k :: 0 <= k < |ord.attempts| ==> ord.attempts[k].txid.None?)
      && (id.Some? ==> exists k :: 0 <= k < |ord.attempts| && ord.attempts[k].txid == id
                                   && forall j :: k < j < |ord.attempts| ==> ord.attempts[j].txid.None?)
  {
    hide Run;
    Reachable(owner, []);
    InitialNames(owner);
    RunNames(Initial(owner), events);
    ClaimIsLatest(Run(Initial(owner), events).orders[o].attempts);
  }

  lemma InitialNames(owner: Address)
    ensures Run(Initial(owner), []) == Initial(owner) && Initial(owner).orders == map[]
  {
  }

  lemma {:induction false} ClaimIsLatest(rows: seq<Attempt>)
    ensures var id := LatestClaim(rows);
      && (id.None? ==> forall k :: 0 <= k < |rows| ==> rows[k].txid.None?)
      && (id.Some? ==> exists k :: 0 <= k < |rows| && rows[k].txid == id && forall j :: k < j < |rows| ==> rows[j].txid.None?)
    decreases |rows|
  {
    if rows != [] && rows[|rows| - 1].txid.None? {
      var before := rows[..|rows| - 1];
      ClaimIsLatest(before);
      assert forall k :: 0 <= k < |before| ==> rows[k] == before[k];
      if LatestClaim(before).Some? {
        var k :| 0 <= k < |before| && before[k].txid == LatestClaim(before) && forall j :: k < j < |before| ==> before[j].txid.None?;
        assert rows[k].txid == LatestClaim(rows);
      }
    }
  }
}
