// The delegation protocol and the accounting model run the same two transactions on an energy order: startDispatch and
// applyDelivery of src/adapters/database/postgres-energy-usage-repository.ts. Here they are shown to agree, so what is
// proved of one order in either model is proved of the same order.
module ServiceAgreement {
  import opened Prelude
  import opened Chain
  import opened EnergyOrders
  import opened Attempts
  import opened DelegationProtocol
  import opened Tables
  import opened EnergyUsage
  import opened LedgerInvariants
  import AccountingSafety

  // One order in both models.
  predicate Mirrors(ord: Order, row: EnergyOrder, provider: string) {
    && ord.state == row.state
    && (ord.delivery.Some? <==> row.delivery.Some?)
    && (row.delivery.Some? ==> row.delivery == Some(DeliveryRow(provider, ord.delivery.value)))
  }

  lemma DispatchAgrees(t: Tables, id: nat, ord: Order, provider: string)
    requires EnergyOk(t) && id in t.energy && Mirrors(ord, t.energy[id], provider)
    ensures var (s, r) := StartDispatch(t, id, provider); var step := ServiceStep(ord, Dispatch(true));
      && id in s.energy && Mirrors(step.order, s.energy[id], provider)
      && step.order.attempts == ord.attempts
      && (r == Dispatched(true) <==> step.next == Enter(First, None))
      && !r.DispatchThrows?
  {
    UserKnown(t, id);
    DeliveryPresent(t.energy[id]);
    hide EnergyOk;
  }

  // How the protocol sees an applyDelivery: the database errors it has no tables for are its failed steps.
  function Seen(applied: Result<Tables, ApplyError>): Input {
    if applied == Err(Overflow) || applied == Err(ProviderOrderTaken) then Fail else Proceed
  }

  // A step of the protocol leaves the order as the database does, and ends the operation.
  predicate Agree(applied: Result<Tables, ApplyError>, id: nat, provider: string, ord: Order, proc: Proc, step: Effect) {
    && DelegationProtocol.Settle(proc, step.next) == None && step.order.attempts == ord.attempts
    && if applied.Err? then step.order == ord
       else id in applied.value.energy && Mirrors(step.order, applied.value.energy[id], provider)
  }

  // Whatever applyDelivery answers, the protocol's step under that input has the same effect on the order, and ends the
  // operation. Left to proceed where the count overflows, the protocol would release an order the database keeps
  // dispatching.
  lemma ApplyAgrees(t: Tables, id: nat, ord: Order, provider: string, report: Report, owner: Address, chain: Chain, wall: nat, proc: Proc)
    requires TablesOk(t) && id in t.energy && Mirrors(ord, t.energy[id], provider) && report.status != DPending
    requires proc.pc == Apply(report)
    ensures InRange(ord, proc.pc)
    ensures var applied := ApplyDelivery(t, id, provider, report.providerOrderId, report.status);
      && Agree(applied, id, provider, ord, proc, Perform(owner, chain, wall, ord, proc.pc, Seen(applied)))
      && (applied == Err(Overflow) ==> Perform(owner, chain, wall, ord, proc.pc, Proceed).order.state == OReleased)
  {
    hide *;
    SeenAs(ApplyDelivery(t, id, provider, report.providerOrderId, report.status));
    ProtocolApply(owner, chain, wall, ord, proc, report, Fail);
    ProtocolApply(owner, chain, wall, ord, proc, report, Proceed);
    DatabaseApply(t, id, ord, provider, report);
    var applied := ApplyDelivery(t, id, provider, report.providerOrderId, report.status);
    AgreeIf(applied, id, provider, ord, proc, Perform(owner, chain, wall, ord, proc.pc, Seen(applied)));
  }

  lemma AgreeIf(applied: Result<Tables, ApplyError>, id: nat, provider: string, ord: Order, proc: Proc, step: Effect)
    requires DelegationProtocol.Settle(proc, step.next) == None && step.order.attempts == ord.attempts
    requires applied.Err? ==> step.order == ord
    requires applied.Ok? ==> id in applied.value.energy && Mirrors(step.order, applied.value.energy[id], provider)
    ensures Agree(applied, id, provider, ord, proc, step)
  {
  }

  lemma DatabaseApply(t: Tables, id: nat, ord: Order, provider: string, report: Report)
    requires TablesOk(t) && id in t.energy && Mirrors(ord, t.energy[id], provider) && report.status != DPending
    ensures var applied := ApplyDelivery(t, id, provider, report.providerOrderId, report.status);
      && (applied.Ok? ==> id in applied.value.energy)
      && (applied.Ok? ==> Mirrors(Reported(ord, report), applied.value.energy[id], provider))
      && (applied.Err? && Seen(applied) == Proceed ==> Reported(ord, report) == ord)
      && (applied == Err(Overflow) ==> Reported(ord, report).state == OReleased)
  {
    hide *;
    var applied := ApplyDelivery(t, id, provider, report.providerOrderId, report.status);
    SeenAs(applied);
    ReportedIs(ord, report);
    if SentTo(t, id, provider) {
      SentFacts(t, id, provider, report.providerOrderId, report.status);
      OneDelivery(ord, t.energy[id], provider);
      var row := t.energy[id];
      var decided := ApplyReport(row.state, row.delivery.value.delivery, report.providerOrderId, report.status);
      if decided.Ok? { DecidedAgrees(t, id, ord, provider, report, decided.value); }
    } else {
      NoDelivery(t, id, ord, provider);
      MissingIsNoOverflow(t, id, provider, report.providerOrderId, report.status);
    }
  }

  lemma DecidedAgrees(t: Tables, id: nat, ord: Order, provider: string, report: Report, applied: Applied)
    requires TablesOk(t) && report.status != DPending && SentTo(t, id, provider) && t.energy[id].user in t.balances
    requires DeliveryFits(t.energy[id]) && DeliveryFits(WithDelivery(t, id, applied).energy[id])
    requires Settles(t.energy[id], report.status, applied)
    requires var row := t.energy[id];
      ApplyReport(row.state, row.delivery.value.delivery, report.providerOrderId, report.status) == Ok(applied)
    ensures var r := SettleAs(t, id, applied);
      && (r.Ok? ==> id in r.value.energy)
      && (r.Ok? ==> Mirrors(ord.(state := applied.state, delivery := Some(applied.delivery)), r.value.energy[id], provider))
      && (r.Err? ==> r.error in {Overflow, ProviderOrderTaken})
      && (r == Err(Overflow) ==> applied.state == OReleased)
  {
    hide SettleAs, TablesOk, DeliveryFits, ApplyReport, WithDelivery, IndexRefuses, ReturnOverflows;
    AppliedOk(t, id, applied, report.status);
    WritesAgree(t, id, ord, provider, applied);
    OverflowReleases(t.energy[id], report, applied);
  }

  lemma SeenAs(r: Result<Tables, ApplyError>)
    ensures Seen(r) == Fail || Seen(r) == Proceed
    ensures Seen(r) == Fail <==> r == Err(Overflow) || r == Err(ProviderOrderTaken)
  {
  }

  lemma OneDelivery(ord: Order, row: EnergyOrder, provider: string)
    requires Mirrors(ord, row, provider) && row.delivery.Some?
    ensures ord.state == row.state && ord.delivery == Some(row.delivery.value.delivery) && row.delivery.value.provider == provider
  {
  }

  lemma NoDelivery(t: Tables, id: nat, ord: Order, provider: string)
    requires id in t.energy && Mirrors(ord, t.energy[id], provider) && !SentTo(t, id, provider)
    ensures ord.delivery.None?
  {
  }

  lemma MissingIsNoOverflow(t: Tables, id: nat, provider: string, providerOrderId: Option<Tx>, report: DeliveryStatus)
    requires report != DPending && !SentTo(t, id, provider)
    ensures ApplyDelivery(t, id, provider, providerOrderId, report) in {Err(OrderMissing), Err(DeliveryMismatch)}
  {
  }

  // What the protocol does with a report, for either way the database step may go.
  lemma ProtocolApply(owner: Address, chain: Chain, wall: nat, ord: Order, proc: Proc, report: Report, input: Input)
    requires proc.pc == Apply(report) && report.status != DPending && (input == Fail || input == Proceed)
    ensures InRange(ord, proc.pc)
    ensures var step := Perform(owner, chain, wall, ord, proc.pc, input);
      && DelegationProtocol.Settle(proc, step.next) == None && step.order.attempts == ord.attempts
      && step.order == if input == Fail then ord else Reported(ord, report)
  {
    hide ApplyReport;
  }

  // The order after a report that the database takes.
  function Reported(ord: Order, report: Report): Order
    requires report.status != DPending
  {
    if ord.delivery.None? then ord
    else
      var decided := ApplyReport(ord.state, ord.delivery.value, report.providerOrderId, report.status);
      if decided.Err? then ord else ord.(state := decided.value.state, delivery := Some(decided.value.delivery))
  }

  lemma ReportedIs(ord: Order, report: Report)
    requires report.status != DPending
    ensures ord.delivery.None? ==> Reported(ord, report) == ord
    ensures ord.delivery.Some? ==>
      var decided := ApplyReport(ord.state, ord.delivery.value, report.providerOrderId, report.status);
      Reported(ord, report) ==
        if decided.Err? then ord else ord.(state := decided.value.state, delivery := Some(decided.value.delivery))
  {
  }

  lemma WritesAgree(t: Tables, id: nat, ord: Order, provider: string, applied: Applied)
    requires id in t.energy && t.energy[id].delivery.Some? && t.energy[id].user in t.balances
    requires t.energy[id].delivery.value.provider == provider
    ensures var r := SettleAs(t, id, applied);
      && (r.Ok? ==> id in r.value.energy)
      && (r.Ok? ==> Mirrors(ord.(state := applied.state, delivery := Some(applied.delivery)), r.value.energy[id], provider))
  {
    hide SettleAs;
    if SettleAs(t, id, applied).Ok? { AccountingSafety.SettleAsEnergy(t, id, applied); }
  }

  lemma OverflowReleases(row: EnergyOrder, report: Report, applied: Applied)
    requires row.delivery.Some? && report.status != DPending
    requires ApplyReport(row.state, row.delivery.value.delivery, report.providerOrderId, report.status) == Ok(applied)
    ensures applied.settlement.Release? ==> applied.state == OReleased
  {
  }
}
