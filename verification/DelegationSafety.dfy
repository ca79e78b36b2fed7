// What every reachable state of the delegation protocol satisfies, for any number of concurrent operations.
module DelegationSafety {
  import opened Prelude
  import opened Chain
  import opened EnergyOrders
  import opened Attempts
  import opened DelegationAmount
  import opened DelegationProtocol

  // ---- one attempt row ----

  // The write-once columns and terminal states of a row, between an earlier and a later version of it.
  predicate Follows(a: Attempt, b: Attempt) {
    && (a.txid.Some? ==> b.txid == a.txid && b.expiration == a.expiration)
    && (a.binding.Some? ==> b.binding == a.binding)
    && (a.signed.Some? ==> b.signed == a.signed)
    && (Terminal(a.status) ==> b.status == a.status && b.txid == a.txid)
  }

  predicate TimesOk(row: Attempt) {
    && (row.finalizedAt.Some? <==> row.status == Completed)
    && (row.eligibleAt.Some? <==> row.status == Completed)
    && (row.status == Completed ==> row.eligibleAt.value == EligibleFrom(row.acceptedAt, row.finalizedAt.value))
  }

  predicate BindingFits(owner: Address, recipient: Address, b: Binding) {
    b.owner == owner && b.receiver == recipient && b.balance >= SUN_PER_TRX
  }

  predicate RowOk(owner: Address, recipient: Address, c: Chain, row: Attempt) {
    && (row.binding.Some? ==> BindingFits(owner, recipient, row.binding.value))
    && (row.signed.Some? ==> row.binding == Some(BindingOf(row.signed.value)) && row.signed.value.kind == Delegate)
    && (row.txid.Some? ==> row.signed == row.txid && row.expiration == Some(row.txid.value.expiration))
    && (row.txid.None? ==> row.status in {Created, Failed})
    && (row.status == Created ==> row.txid.None?)
    && (row.status == Expired ==> Dead(c, row.txid.value))
    && (row.status == Completed ==> Final(c, row.txid.value, Succeeded))
    && TimesOk(row)
  }

  // ---- one order with its attempts ----

  // A provider order id is the transaction some attempt of the order has claimed.
  predicate Claimed(ord: Order, tx: Tx) { exists k :: 0 <= k < |ord.attempts| && ord.attempts[k].txid == Some(tx) }

  predicate IdKnown(ord: Order, id: Option<Tx>) { id.Some? ==> Claimed(ord, id.value) }

  ghost predicate OrderOk(owner: Address, c: Chain, ord: Order) {
    && ord.state in {OReserved, ODispatching, OCompleted, OReleased}
    && (ord.delivery.Some? <==> ord.state != OReserved)
    && (ord.state == OReserved ==> ord.attempts == [])
    && (ord.delivery.Some? ==> (ord.delivery.value.status == DCompleted <==> ord.state == OCompleted))
    && (ord.delivery.Some? ==> (ord.delivery.value.status == DFailed <==> ord.state == OReleased))
    && (ord.delivery.Some? ==> IdKnown(ord, ord.delivery.value.providerOrderId))
    && (forall k :: 0 <= k < |ord.attempts| ==> RowOk(owner, ord.recipient, c, ord.attempts[k]))
    && (forall k :: 0 <= k < |ord.attempts| - 1 ==> ord.attempts[k].status == Expired)
    && (ord.state == OCompleted ==> Ended(ord, Completed))
    && (ord.state == OReleased ==> Ended(ord, Failed))
  }

  predicate Ended(ord: Order, status: AttemptStatus) { ord.attempts != [] && Last(ord).status == status }

  ghost predicate OrderEvolves(a: Order, b: Order) {
    && b.recipient == a.recipient && b.energy == a.energy
    && |a.attempts| <= |b.attempts|
    && (forall k :: 0 <= k < |a.attempts| ==> Follows(a.attempts[k], b.attempts[k]))
    && (Ended(a, Completed) || Ended(a, Failed) ==> |b.attempts| == |a.attempts|)
    && (a.state in {OCompleted, OReleased} ==> b.state == a.state)
  }

  // ---- one program counter ----

  predicate ReportOk(ord: Order, r: Report) {
    && r.status != DPending
    && IdKnown(ord, r.providerOrderId)
    && (r.status == DCompleted ==> Ended(ord, Completed))
    && (r.status == DFailed ==> Ended(ord, Failed))
  }

  predicate Proved(c: Chain, tx: Tx, seen: Observation) {
    match seen
    case SeenCompleted => Final(c, tx, Succeeded)
    case SeenFailed => Final(c, tx, Reverted)
    case SeenAbsent(_) => Dead(c, tx)
    case _ => true
  }

  ghost predicate Known(ord: Order, k: nat, row: Attempt) {
    k < |ord.attempts| && Follows(row, ord.attempts[k])
  }

  ghost predicate PcOk(owner: Address, c: Chain, ord: Order, pc: Pc) {
    match pc
    case FindSigned(k, row) => Known(ord, k, row)
    case BindSigned(k, tx) => k < |ord.attempts| && ord.attempts[k].signed == Some(tx)
    case Claim(k, tx, _) => k < |ord.attempts| && ord.attempts[k].signed == Some(tx)
    case Measure(k) => k < |ord.attempts|
    case Capacity(k, _) => k < |ord.attempts|
    case RecordCapacity(k) => k < |ord.attempts|
    case Build(k, _) => k < |ord.attempts|
    case BindUnsigned(k, tx) => k < |ord.attempts| && Fits(owner, ord, BindingOf(tx))
    case SignCall(k, _) => k < |ord.attempts|
    case AwaitSigner(k, _) => k < |ord.attempts|
    case Observe(k, row, _) => Known(ord, k, row)
    case RecordSeen(k, row, seen, _) => Known(ord, k, row) && row.txid.Some? && Proved(c, row.txid.value, seen)
    case RecoverSigned(k, row, _) => Known(ord, k, row) && row.txid.Some?
    case Broadcast(k, _, tx, _) => k < |ord.attempts| && ord.attempts[k].txid == Some(tx)
    case RecordBroadcast(k, _, tx, _, _) => k < |ord.attempts| && ord.attempts[k].txid == Some(tx)
    case Refresh(_, result) => ReportOk(ord, result)
    case Replace(_, result) => ReportOk(ord, result)
    case FindRecover(k, row) => Known(ord, k, row)
    case Apply(result) => ReportOk(ord, result)
    case _ => true
  }

  ghost predicate NextOk(owner: Address, c: Chain, ord: Order, next: Next) {
    match next
    case Goto(pc) => PcOk(owner, c, ord, pc)
    case Return(result) => result.Some? ==> ReportOk(ord, result.value)
    case Enter(_, id) => IdKnown(ord, id)
    case _ => true
  }

  predicate SameSigned(a: Order, b: Order) {
    && |a.attempts| <= |b.attempts|
    && forall k :: 0 <= k < |b.attempts| ==>
         b.attempts[k].signed == if k < |a.attempts| then a.attempts[k].signed else None
  }

  ghost predicate StepOk(owner: Address, c: Chain, ord: Order, e: Effect) {
    OrderOk(owner, c, e.order) && OrderEvolves(ord, e.order) && SameSigned(ord, e.order) && NextOk(owner, c, e.order, e.next)
  }

  lemma Unchanged(owner: Address, c: Chain, ord: Order)
    requires OrderOk(owner, c, ord)
    ensures OrderEvolves(ord, ord) && SameSigned(ord, ord)
  {
  }

  lemma ClaimedStays(a: Order, b: Order)
    requires |a.attempts| <= |b.attempts| && forall k :: 0 <= k < |a.attempts| ==> Follows(a.attempts[k], b.attempts[k])
    ensures forall id :: IdKnown(a, id) ==> IdKnown(b, id)
  {
    forall tx | Claimed(a, tx) ensures Claimed(b, tx) {
      var k :| 0 <= k < |a.attempts| && a.attempts[k].txid == Some(tx);
      assert b.attempts[k].txid == Some(tx);
    }
  }

  lemma RowReplaced(owner: Address, c: Chain, ord: Order, k: nat, row: Attempt)
    requires OrderOk(owner, c, ord) && k < |ord.attempts|
    requires RowOk(owner, ord.recipient, c, row) && Follows(ord.attempts[k], row) && row.signed == ord.attempts[k].signed
    ensures var b := ord.(attempts := ord.attempts[k := row]);
      OrderOk(owner, c, b) && OrderEvolves(ord, b) && SameSigned(ord, b)
  {
    ClaimedStays(ord, ord.(attempts := ord.attempts[k := row]));
    hide IdKnown, RowOk, Follows;
  }

  lemma CurrentOk(owner: Address, c: Chain, ord: Order)
    requires OrderOk(owner, c, ord) && ord.delivery.Some?
    ensures var b := ord.(attempts := WithCurrent(ord.attempts));
      OrderOk(owner, c, b) && OrderEvolves(ord, b) && SameSigned(ord, b)
  {
    ClaimedStays(ord, ord.(attempts := WithCurrent(ord.attempts)));
    hide IdKnown;
  }

  lemma AdvanceOk(owner: Address, c: Chain, ord: Order, allow: bool)
    requires OrderOk(owner, c, ord) && ord.attempts != []
    ensures NextOk(owner, c, ord, AdvanceAttempt(|ord.attempts| - 1, Last(ord), allow))
  {
  }

  lemma ReconcileOk(owner: Address, c: Chain, ord: Order, k: nat, caller: Caller)
    requires OrderOk(owner, c, ord) && k < |ord.attempts|
    ensures NextOk(owner, c, ord, Reconcile(k, ord.attempts[k], caller))
  {
  }

  lemma UpdateOk(owner: Address, c: Chain, ord: Order, k: nat, r: Result<Attempt, JournalError>, next: Next)
    requires OrderOk(owner, c, ord) && k < |ord.attempts|
    requires r.Ok? ==> RowOk(owner, ord.recipient, c, r.value) && Follows(ord.attempts[k], r.value)
                       && r.value.signed == ord.attempts[k].signed
                       && NextOk(owner, c, ord.(attempts := ord.attempts[k := r.value]), next)
    ensures StepOk(owner, c, ord, Update(ord, k, r, next))
  {
    if r.Ok? { RowReplaced(owner, c, ord, k, r.value); } else { Unchanged(owner, c, ord); }
  }

  // A status update on a row keeps it sound when the evidence the status needs is at hand.
  lemma RecordOk(owner: Address, recipient: Address, c: Chain, row: Attempt, report: StateReport, now: nat)
    requires RowOk(owner, recipient, c, row)
    requires RecordState(row, report, now).Ok?
    requires report.status == Completed ==> row.txid.Some? && Final(c, row.txid.value, Succeeded) && !report.broadcastAccepted
    requires report.status == Expired ==> row.txid.Some? && Dead(c, row.txid.value)
    ensures var r := RecordState(row, report, now).value;
      RowOk(owner, recipient, c, r) && Follows(row, r) && r.signed == row.signed && r.status == report.status
  {
  }

  lemma RecordSeenOk(owner: Address, c: Chain, wall: nat, ord: Order, k: nat, row: Attempt, seen: Observation, caller: Caller)
    requires OrderOk(owner, c, ord) && Known(ord, k, row) && row.txid.Some? && Proved(c, row.txid.value, seen)
    ensures StepOk(owner, c, ord, Update(ord, k, RecordState(ord.attempts[k], SeenReport(row, seen), wall),
                                         SeenNext(k, row, seen, caller)))
  {
    var r := RecordState(ord.attempts[k], SeenReport(row, seen), wall);
    if r.Ok? {
      RecordOk(owner, ord.recipient, c, ord.attempts[k], SeenReport(row, seen), wall);
      var b := ord.(attempts := ord.attempts[k := r.value]);
      RowReplaced(owner, c, ord, k, r.value);
      assert b.attempts[k].status == r.value.status;
      assert k < |b.attempts| - 1 ==> b.attempts[k].status == Expired;
    }
    UpdateOk(owner, c, ord, k, r, SeenNext(k, row, seen, caller));
  }

  lemma RecordBroadcastOk(owner: Address, c: Chain, wall: nat, ord: Order, k: nat, known: AttemptStatus, tx: Tx,
    accepted: bool, caller: Caller)
    requires OrderOk(owner, c, ord) && k < |ord.attempts| && ord.attempts[k].txid == Some(tx)
    ensures StepOk(owner, c, ord,
      Update(ord, k, RecordState(ord.attempts[k], StateReport(BroadcastStatus(known, accepted), accepted, false, None), wall),
             Answer(caller, Report(Some(tx), if accepted then DAccepted else DProcessing))))
  {
    var report := StateReport(BroadcastStatus(known, accepted), accepted, false, None);
    var r := RecordState(ord.attempts[k], report, wall);
    var answer := Report(Some(tx), if accepted then DAccepted else DProcessing);
    if r.Ok? {
      RecordOk(owner, ord.recipient, c, ord.attempts[k], report, wall);
      var b := ord.(attempts := ord.attempts[k := r.value]);
      assert b.attempts[k].txid == Some(tx);
      AnswerOk(owner, c, b, caller, answer);
    }
    UpdateOk(owner, c, ord, k, r, Answer(caller, answer));
  }

  lemma AnswerOk(owner: Address, c: Chain, ord: Order, caller: Caller, r: Report)
    requires ReportOk(ord, r)
    ensures NextOk(owner, c, ord, Answer(caller, r))
  {
    hide IdKnown, Ended;
  }

  lemma RecordCapacityOk(owner: Address, c: Chain, wall: nat, ord: Order, k: nat)
    requires OrderOk(owner, c, ord) && k < |ord.attempts|
    ensures StepOk(owner, c, ord, Update(ord, k, RecordState(ord.attempts[k], StateReport(Failed, false, false, None), wall),
                                         Return(Some(Report(None, DFailed)))))
  {
    var report := StateReport(Failed, false, false, None);
    var r := RecordState(ord.attempts[k], report, wall);
    assert k < |ord.attempts| - 1 ==> ord.attempts[k].status == Expired;
    if r.Ok? { RecordOk(owner, ord.recipient, c, ord.attempts[k], report, wall); }
    UpdateOk(owner, c, ord, k, r, Return(Some(Report(None, DFailed))));
  }

  lemma StartStepOk(owner: Address, c: Chain, wall: nat, ord: Order, pc: Pc, input: Input)
    requires OrderOk(owner, c, ord) && PcOk(owner, c, ord, pc) && InRange(ord, pc) && PartOf(pc) == StartAttempt
    ensures StepOk(owner, c, ord, StartStep(owner, wall, ord, pc, input))
  {
    Unchanged(owner, c, ord);
    match pc
    case BindSigned(k, tx) =>
      UpdateOk(owner, c, ord, k, BindDelegation(ord.attempts[k], BindingOf(tx)), Goto(Claim(k, tx, ByStart)));
    case BindUnsigned(k, tx) =>
      UpdateOk(owner, c, ord, k, BindDelegation(ord.attempts[k], BindingOf(tx)), Goto(SignCall(k, tx)));
    case RecordCapacity(k) => RecordCapacityOk(owner, c, wall, ord, k);
    case _ =>
  }

  lemma ClaimStepOk(owner: Address, c: Chain, ord: Order, k: nat, tx: Tx, caller: Caller)
    requires OrderOk(owner, c, ord) && k < |ord.attempts| && ord.attempts[k].signed == Some(tx)
    ensures StepOk(owner, c, ord, ClaimStep(ord, k, tx, caller))
  {
    var claimed := ClaimTransaction(ord.attempts[k], tx, tx.expiration, false);
    if claimed.Ok? { RowReplaced(owner, c, ord, k, claimed.value); }
    Unchanged(owner, c, ord);
  }

  lemma ReconcileStepOk(owner: Address, c: Chain, wall: nat, ord: Order, pc: Pc, input: Input)
    requires OrderOk(owner, c, ord) && PcOk(owner, c, ord, pc) && InRange(ord, pc) && PartOf(pc) == ReconcileAttempt
    ensures StepOk(owner, c, ord, ReconcileStep(c, wall, ord, pc, input))
  {
    Unchanged(owner, c, ord);
    match pc
    case RecordSeen(k, row, seen, caller) => RecordSeenOk(owner, c, wall, ord, k, row, seen, caller);
    case RecordBroadcast(k, known, tx, accepted, caller) =>
      RecordBroadcastOk(owner, c, wall, ord, k, known, tx, accepted, caller);
    case _ =>
  }

  lemma CreateStepOk(owner: Address, c: Chain, ord: Order, pc: Pc)
    requires OrderOk(owner, c, ord) && PcOk(owner, c, ord, pc) && PartOf(pc) == Create
    ensures StepOk(owner, c, ord, CreateStep(ord, pc))
  {
    Unchanged(owner, c, ord);
    if ord.delivery.Some? && ord.delivery.value.status == DFailed { DeliveryKnown(owner, c, ord); }
    if ord.delivery.Some? && (pc.Current? || pc.Replace?) {
      hide OrderOk, OrderEvolves, SameSigned, WithCurrent, AdvanceAttempt;
      var b := ord.(attempts := WithCurrent(ord.attempts));
      CurrentOk(owner, c, ord);
      LastCurrent(ord.attempts);
      AdvanceOk(owner, c, b, if pc.Current? then pc.allowReplacement else false);
      if pc.Replace? { ReportStays(ord, b, pc.result); }
    } else {
      hide OrderOk, OrderEvolves, SameSigned;
    }
  }

  lemma LastCurrent(rows: seq<Attempt>)
    ensures WithCurrent(rows) != []
  {
  }

  lemma DeliveryKnown(owner: Address, c: Chain, ord: Order)
    requires OrderOk(owner, c, ord) && ord.delivery.Some? && ord.delivery.value.status == DFailed
    ensures ReportOk(ord, Report(ord.delivery.value.providerOrderId, DFailed))
  {
  }

  lemma ReportStays(a: Order, b: Order, r: Report)
    requires ReportOk(a, r) && OrderEvolves(a, b)
    ensures ReportOk(b, r)
  {
    ClaimedStays(a, b);
  }

  lemma RecoveryStepOk(owner: Address, c: Chain, ord: Order, pc: Pc)
    requires OrderOk(owner, c, ord) && PcOk(owner, c, ord, pc) && InRange(ord, pc) && PartOf(pc) == Recovery
    ensures StepOk(owner, c, ord, RecoveryStep(ord, pc))
  {
    hide RowOk, OrderEvolves, SameSigned;
    Unchanged(owner, c, ord);
    if pc.StatusList? {
      var k := IndexOf(ord.attempts, pc.txid, 0);
      if k < |ord.attempts| { ReconcileOk(owner, c, ord, k, ByStatus); }
    }
    if ord.attempts != [] { ReconcileOk(owner, c, ord, |ord.attempts| - 1, ByStatus); }
  }

  lemma ServiceStepOk(owner: Address, c: Chain, ord: Order, pc: Pc)
    requires OrderOk(owner, c, ord) && PcOk(owner, c, ord, pc) && PartOf(pc) == Service
    ensures StepOk(owner, c, ord, ServiceStep(ord, pc))
  {
    Unchanged(owner, c, ord);
  }

  lemma PerformOk(owner: Address, c: Chain, wall: nat, ord: Order, pc: Pc, input: Input)
    requires OrderOk(owner, c, ord) && PcOk(owner, c, ord, pc) && InRange(ord, pc)
    ensures StepOk(owner, c, ord, Perform(owner, c, wall, ord, pc, input))
  {
    if input.Fail? {
      Unchanged(owner, c, ord);
    } else {
      match PartOf(pc)
      case Service => ServiceStepOk(owner, c, ord, pc);
      case Create => CreateStepOk(owner, c, ord, pc);
      case StartAttempt => StartStepOk(owner, c, wall, ord, pc, input);
      case Claiming => ClaimStepOk(owner, c, ord, pc.k, pc.tx, pc.caller);
      case ReconcileAttempt => ReconcileStepOk(owner, c, wall, ord, pc, input);
      case Recovery => RecoveryStepOk(owner, c, ord, pc);
    }
  }

  // ---- stability under steps taken elsewhere ----

  lemma OrderStable(owner: Address, c: Chain, d: Chain, ord: Order)
    requires OrderOk(owner, c, ord) && ChainEvolves(c, d)
    ensures OrderOk(owner, d, ord)
  {
  }

  lemma PcStable(owner: Address, c: Chain, d: Chain, a: Order, b: Order, pc: Pc)
    requires PcOk(owner, c, a, pc) && ChainEvolves(c, d) && OrderEvolves(a, b)
    ensures PcOk(owner, d, b, pc)
  {
  }

  lemma SubmitEvolves(c: Chain, tx: Tx)
    requires ChainOk(c)
    ensures ChainEvolves(c, Submit(c, tx))
  {
  }

  // ---- the whole world ----

  predicate At(w: World, ref: (Id, nat)) { ref.0 in w.orders && ref.1 < |w.orders[ref.0].attempts| }

  function RowAt(w: World, ref: (Id, nat)): Attempt requires At(w, ref) { w.orders[ref.0].attempts[ref.1] }

  ghost predicate SignaturesOk(w: World) {
    && (forall tx :: tx in w.signedBy ==> At(w, w.signedBy[tx]) && RowAt(w, w.signedBy[tx]).signed == Some(tx))
    && (forall o, k: nat :: At(w, (o, k)) && w.orders[o].attempts[k].signed.Some? ==>
          w.orders[o].attempts[k].signed.value in w.signedBy && w.signedBy[w.orders[o].attempts[k].signed.value] == (o, k))
  }

  ghost predicate SentOk(w: World) {
    forall tx :: tx in w.chain.sent ==>
      tx in w.signedBy && At(w, w.signedBy[tx]) && RowAt(w, w.signedBy[tx]).txid == Some(tx)
  }

  ghost predicate ProcOk(w: World, proc: Proc) {
    && proc.order in w.orders && PcOk(w.owner, w.chain, w.orders[proc.order], proc.pc)
    && IdKnown(w.orders[proc.order], proc.providerOrderId)
  }

  ghost predicate WorldOk(w: World) {
    && ChainOk(w.chain)
    && (forall o :: o in w.orders ==> OrderOk(w.owner, w.chain, w.orders[o]))
    && SignaturesOk(w)
    && SentOk(w)
    && (forall p :: p in w.procs ==> ProcOk(w, w.procs[p]))
  }

  // Everything one event may do to what is already there.
  ghost predicate Evolves(w: World, v: World) {
    && v.owner == w.owner
    && ChainEvolves(w.chain, v.chain)
    && w.wall <= v.wall
    && w.orders.Keys <= v.orders.Keys
    && (forall o :: o in w.orders ==> OrderEvolves(w.orders[o], v.orders[o]))
  }

  lemma SettleOk(w: World, v: World, proc: Proc, e: Effect)
    requires proc.order in v.orders && v.orders[proc.order] == e.order && IdKnown(e.order, proc.providerOrderId)
    requires NextOk(v.owner, v.chain, e.order, e.next)
    ensures Settle(proc, e.next).Some? ==> ProcOk(v, Settle(proc, e.next).value)
  {
  }

  lemma NextStable(owner: Address, c: Chain, d: Chain, ord: Order, next: Next)
    requires NextOk(owner, c, ord, next) && ChainEvolves(c, d)
    ensures NextOk(owner, d, ord, next)
  {
    if next.Goto? {
      assert OrderEvolves(ord, ord);
      PcStable(owner, c, d, ord, ord, next.pc);
    }
  }

  // v is w with order o replaced by b and possibly more of the chain.
  ghost predicate Replaces(w: World, v: World, o: Id, b: Order) {
    && o in w.orders && OrderEvolves(w.orders[o], b)
    && v.owner == w.owner && v.orders == w.orders[o := b]
    && ChainEvolves(w.chain, v.chain)
  }

  lemma SignaturesKept(w: World, v: World, o: Id, b: Order)
    requires SignaturesOk(w) && Replaces(w, v, o, b) && v.signedBy == w.signedBy && SameSigned(w.orders[o], b)
    ensures SignaturesOk(v)
  {
    forall tx | tx in v.signedBy ensures At(v, v.signedBy[tx]) && RowAt(v, v.signedBy[tx]).signed == Some(tx) {
      assert At(w, w.signedBy[tx]) && RowAt(w, w.signedBy[tx]).signed == Some(tx);
    }
    forall p, k: nat | At(v, (p, k)) && v.orders[p].attempts[k].signed.Some?
      ensures v.orders[p].attempts[k].signed.value in v.signedBy && v.signedBy[v.orders[p].attempts[k].signed.value] == (p, k)
    {
      assert At(w, (p, k));
    }
  }

  lemma SentKept(w: World, v: World, o: Id, b: Order, added: set<Tx>)
    requires SignaturesOk(w) && SentOk(w) && Replaces(w, v, o, b)
    requires forall tx :: tx in w.signedBy ==> tx in v.signedBy && v.signedBy[tx] == w.signedBy[tx]
    requires v.chain.sent == w.chain.sent + added
    requires forall tx :: tx in added ==> tx in w.signedBy && At(w, w.signedBy[tx]) && RowAt(w, w.signedBy[tx]).txid == Some(tx)
    ensures SentOk(v)
  {
    forall tx | tx in v.chain.sent
      ensures tx in v.signedBy && At(v, v.signedBy[tx]) && RowAt(v, v.signedBy[tx]).txid == Some(tx)
    {
      var ref := w.signedBy[tx];
      assert At(w, ref) && RowAt(w, ref).txid == Some(tx);
      assert ref.0 == o ==> Follows(w.orders[o].attempts[ref.1], b.attempts[ref.1]);
    }
  }

  lemma ProcsKept(w: World, v: World, o: Id, b: Order, p: Pid)
    requires Replaces(w, v, o, b) && p in w.procs && ProcOk(w, w.procs[p])
    ensures ProcOk(v, w.procs[p])
  {
    var q := w.procs[p].order;
    assert OrderEvolves(w.orders[q], v.orders[q]);
    PcStable(w.owner, w.chain, v.chain, w.orders[q], v.orders[q], w.procs[p].pc);
  }

  lemma OrdersKept(w: World, v: World, o: Id, b: Order)
    requires WorldOk(w) && Replaces(w, v, o, b) && OrderOk(w.owner, w.chain, b) && w.wall <= v.wall
    ensures forall p :: p in v.orders ==> OrderOk(v.owner, v.chain, v.orders[p])
    ensures Evolves(w, v)
  {
    hide OrderOk, OrderEvolves, SignaturesOk, SentOk, PcOk;
    forall p | p in w.orders ensures OrderEvolves(w.orders[p], v.orders[p]) { SelfEvolves(w.orders[p]); }
    forall p | p in v.orders ensures OrderOk(v.owner, v.chain, v.orders[p]) {
      OrderStable(w.owner, w.chain, v.chain, v.orders[p]);
    }
  }

  lemma BroadcastSent(w: World, proc: Proc)
    requires WorldOk(w) && ProcOk(w, proc) && proc.pc.Broadcast?
    ensures proc.pc.tx in w.signedBy && w.signedBy[proc.pc.tx] == (proc.order, proc.pc.k)
    ensures At(w, (proc.order, proc.pc.k)) && RowAt(w, (proc.order, proc.pc.k)).txid == Some(proc.pc.tx)
  {
    hide SentOk;
    assert At(w, (proc.order, proc.pc.k));
    assert OrderOk(w.owner, w.chain, w.orders[proc.order]);
    RowKnown(w.owner, w.chain, w.orders[proc.order], proc.pc.k);
    hide OrderOk, RowOk;
    SignatureAt(w, proc.order, proc.pc.k);
  }

  lemma RowKnown(owner: Address, c: Chain, ord: Order, k: nat)
    requires OrderOk(owner, c, ord) && k < |ord.attempts|
    ensures RowOk(owner, ord.recipient, c, ord.attempts[k])
    ensures ord.attempts[k].txid.Some? ==> ord.attempts[k].signed == ord.attempts[k].txid
  {
  }

  lemma CommitOk(w: World, pid: Pid, e: Effect)
    requires WorldOk(w) && pid in w.procs
    requires StepOk(w.owner, w.chain, w.orders[w.procs[pid].order], e)
    ensures WorldOk(Commit(w, pid, w.procs[pid], e)) && Evolves(w, Commit(w, pid, w.procs[pid], e))
  {
    hide OrderOk, OrderEvolves, PcOk;
    var proc := w.procs[pid];
    assert ProcOk(w, proc);
    var v := Commit(w, pid, proc, e);
    if proc.pc.Broadcast? {
      SubmitEvolves(w.chain, proc.pc.tx);
      BroadcastSent(w, proc);
    }
    assert Replaces(w, v, proc.order, e.order);
    OrdersKept(w, v, proc.order, e.order);
    SignaturesKept(w, v, proc.order, e.order);
    SentKept(w, v, proc.order, e.order, if proc.pc.Broadcast? then {proc.pc.tx} else {});
    CommitProcs(w, v, pid, e);
  }

  lemma CommitProcs(w: World, v: World, pid: Pid, e: Effect)
    requires pid in w.procs && (forall p :: p in w.procs ==> ProcOk(w, w.procs[p]))
    requires v == Commit(w, pid, w.procs[pid], e) && Replaces(w, v, w.procs[pid].order, e.order)
    requires NextOk(w.owner, w.chain, e.order, e.next)
    ensures forall p :: p in v.procs ==> ProcOk(v, v.procs[p])
  {
    NextStable(v.owner, w.chain, v.chain, e.order, e.next);
    SettleOk(w, v, w.procs[pid], e);
    forall p | p in v.procs && p != pid ensures ProcOk(v, v.procs[p]) {
      ProcsKept(w, v, w.procs[pid].order, e.order, p);
    }
  }

  // ---- the other events ----

  lemma SignCommitOk(w: World, r: SignRequest)
    requires WorldOk(w)
    ensures WorldOk(SignCommit(w, r)) && Evolves(w, SignCommit(w, r))
  {
    hide OrderOk, OrderEvolves, PcOk, SignaturesOk, SentOk;
    var v := SignCommit(w, r);
    AdvanceEvolves(w.chain, Solidify(0));
    EvolvesSelf(w);
    if v != w {
      var ord := w.orders[r.order];
      var row := SignAttempt(ord.attempts[r.k], w.owner, r.tx, w.wall, r.tx in w.signedBy).value;
      var b := ord.(attempts := ord.attempts[r.k := row]);
      assert At(w, (r.order, r.k));
      if RowAt(w, (r.order, r.k)).signed.Some? { SignatureAt(w, r.order, r.k); }
      SignedRowOk(w.owner, w.chain, ord, r.k, row);
      OrdersKept(w, v, r.order, b);
      SentKept(w, v, r.order, b, {});
      forall p | p in v.procs ensures ProcOk(v, v.procs[p]) { ProcsKept(w, v, r.order, b, p); }
      NewSignature(w, v, r, row);
    }
  }

  lemma EvolvesSelf(w: World)
    requires ChainOk(w.chain)
    ensures Evolves(w, w)
  {
    assert Advance(w.chain, Solidify(w.chain.solid)) == w.chain;
    AdvanceEvolves(w.chain, Solidify(w.chain.solid));
  }

  lemma SignatureAt(w: World, o: Id, k: nat)
    requires SignaturesOk(w) && At(w, (o, k)) && RowAt(w, (o, k)).signed.Some?
    ensures RowAt(w, (o, k)).signed.value in w.signedBy && w.signedBy[RowAt(w, (o, k)).signed.value] == (o, k)
  {
  }

  lemma SignedRowOk(owner: Address, c: Chain, ord: Order, k: nat, row: Attempt)
    requires OrderOk(owner, c, ord) && k < |ord.attempts| && ord.attempts[k].binding.Some?
    requires row == ord.attempts[k] || (ord.attempts[k].signed.None? && row.signed.Some? && row == ord.attempts[k].(signed := row.signed)
               && row.binding == Some(BindingOf(row.signed.value)) && row.signed.value.kind == Delegate && row.status == Created)
    ensures var b := ord.(attempts := ord.attempts[k := row]); OrderOk(owner, c, b) && OrderEvolves(ord, b)
  {
    ClaimedStays(ord, ord.(attempts := ord.attempts[k := row]));
    hide IdKnown;
  }

  lemma NewSignature(w: World, v: World, r: SignRequest, row: Attempt)
    requires SignaturesOk(w) && At(w, (r.order, r.k))
    requires row.signed == Some(r.tx)
    requires RowAt(w, (r.order, r.k)).signed == Some(r.tx) || (RowAt(w, (r.order, r.k)).signed.None? && r.tx !in w.signedBy)
    requires v.orders == w.orders[r.order := w.orders[r.order].(attempts := w.orders[r.order].attempts[r.k := row])]
    requires v.signedBy == w.signedBy[r.tx := (r.order, r.k)]
    ensures SignaturesOk(v)
  {
    forall tx | tx in v.signedBy ensures At(v, v.signedBy[tx]) && RowAt(v, v.signedBy[tx]).signed == Some(tx) {
      if tx != r.tx { assert At(w, w.signedBy[tx]) && RowAt(w, w.signedBy[tx]).signed == Some(tx); }
    }
    forall p, k: nat | At(v, (p, k)) && v.orders[p].attempts[k].signed.Some?
      ensures v.orders[p].attempts[k].signed.value in v.signedBy && v.signedBy[v.orders[p].attempts[k].signed.value] == (p, k)
    {
      assert At(w, (p, k));
    }
  }

  lemma OnChainOk(w: World, change: ChainEvent)
    requires WorldOk(w)
    ensures var v := w.(chain := Advance(w.chain, change)); WorldOk(v) && Evolves(w, v)
  {
    hide OrderOk, OrderEvolves, PcOk, SignaturesOk, SentOk, Advance;
    var v := w.(chain := Advance(w.chain, change));
    AdvanceEvolves(w.chain, change);
    hide ChainEvolves;
    forall o | o in v.orders ensures OrderOk(v.owner, v.chain, v.orders[o]) && OrderEvolves(w.orders[o], v.orders[o]) {
      OrderStable(w.owner, w.chain, v.chain, v.orders[o]);
      SelfEvolves(v.orders[o]);
    }
    forall p | p in v.procs ensures ProcOk(v, v.procs[p]) {
      assert ProcOk(w, w.procs[p]);
      PcStable(w.owner, w.chain, v.chain, w.orders[w.procs[p].order], v.orders[w.procs[p].order], w.procs[p].pc);
    }
    SameTablesElsewhere(w, v);
    ChainFine(w.chain, v.chain);
  }

  lemma ChainFine(c: Chain, d: Chain)
    requires ChainEvolves(c, d)
    ensures ChainOk(d)
  {
  }

  lemma SameTablesElsewhere(w: World, v: World)
    requires SignaturesOk(w) && SentOk(w) && v.orders == w.orders && v.signedBy == w.signedBy && v.chain.sent == w.chain.sent
    ensures SignaturesOk(v) && SentOk(v)
  {
    assert forall ref: (Id, nat) :: At(v, ref) == At(w, ref);
  }

  lemma HandleOk(w: World, e: Event)
    requires WorldOk(w)
    ensures WorldOk(Handle(w, e)) && Evolves(w, Handle(w, e))
  {
    hide OrderOk, OrderEvolves, SignaturesOk, SentOk;
    EvolvesSelf(w);
    match e
    case Step(pid, input) =>
      if pid in w.procs {
        assert ProcOk(w, w.procs[pid]);
        var ord := w.orders[w.procs[pid].order];
        assert InRange(ord, w.procs[pid].pc);
        hide PcOk, Commit, Perform;
        PerformOk(w.owner, w.chain, w.wall, ord, w.procs[pid].pc, input);
        CommitOk(w, pid, Perform(w.owner, w.chain, w.wall, ord, w.procs[pid].pc, input));
      }
    case Unacknowledged(pid, input) => UnacknowledgedOk(w, pid, input);
    case SignerCommit(request) => SignCommitOk(w, request);
    case OnChain(change) => OnChainOk(w, change);
    case Place(o, recipient, energy) => PlaceOk(w, o, recipient, energy);
    case _ => ProcsOnly(w, Handle(w, e));
  }

  lemma UnacknowledgedOk(w: World, pid: Pid, input: Input)
    requires WorldOk(w)
    ensures WorldOk(Handle(w, Unacknowledged(pid, input))) && Evolves(w, Handle(w, Unacknowledged(pid, input)))
  {
    hide OrderOk, OrderEvolves, SignaturesOk, SentOk;
    EvolvesSelf(w);
    if pid in w.procs {
      assert ProcOk(w, w.procs[pid]);
      var ord := w.orders[w.procs[pid].order];
      assert InRange(ord, w.procs[pid].pc);
      hide PcOk, Commit, Perform;
      PerformOk(w.owner, w.chain, w.wall, ord, w.procs[pid].pc, input);
      CommitOk(w, pid, Perform(w.owner, w.chain, w.wall, ord, w.procs[pid].pc, input).(next := Throw));
    }
  }

  lemma ProcsOnly(w: World, v: World)
    requires WorldOk(w) && v == w.(procs := v.procs, wall := v.wall) && w.wall <= v.wall
    requires forall p :: p in v.procs ==> (p in w.procs && v.procs[p] == w.procs[p]) || ProcOk(w, v.procs[p])
    ensures WorldOk(v) && Evolves(w, v)
  {
    hide OrderOk, OrderEvolves, PcOk, SignaturesOk, SentOk;
    EvolvesSelf(w);
    SameTables(w, v);
    forall p | p in v.procs ensures ProcOk(v, v.procs[p]) {
      if p in w.procs { assert ProcOk(w, w.procs[p]); }
    }
  }

  lemma SameTables(w: World, v: World)
    requires SignaturesOk(w) && SentOk(w) && v.orders == w.orders && v.signedBy == w.signedBy && v.chain == w.chain
    ensures SignaturesOk(v) && SentOk(v)
  {
    assert forall ref: (Id, nat) :: At(v, ref) == At(w, ref);
  }

  lemma PlaceOk(w: World, o: Id, recipient: Address, energy: int)
    requires WorldOk(w)
    ensures var v := Handle(w, Place(o, recipient, energy)); WorldOk(v) && Evolves(w, v)
  {
    hide PcOk, OrderEvolves, OrderOk, SignaturesOk, SentOk;
    EvolvesSelf(w);
    var v := Handle(w, Place(o, recipient, energy));
    if v != w {
      NewOrderOk(w.owner, w.chain, recipient, energy);
      PlacedTables(w, v, o);
      forall p | p in w.orders ensures OrderEvolves(w.orders[p], v.orders[p]) { SelfEvolves(w.orders[p]); }
      forall p | p in v.procs ensures ProcOk(v, v.procs[p]) { assert ProcOk(w, w.procs[p]); }
    }
  }

  lemma NewOrderOk(owner: Address, c: Chain, recipient: Address, energy: int)
    ensures OrderOk(owner, c, Order(recipient, energy, OReserved, None, []))
  {
  }

  lemma SelfEvolves(ord: Order)
    ensures OrderEvolves(ord, ord)
  {
  }

  lemma PlacedTables(w: World, v: World, o: Id)
    requires SignaturesOk(w) && SentOk(w) && o !in w.orders && o in v.orders && v.orders[o].attempts == []
    requires v == w.(orders := w.orders[o := v.orders[o]])
    ensures SignaturesOk(v) && SentOk(v)
  {
    assert forall ref: (Id, nat) :: At(w, ref) ==> At(v, ref) && RowAt(v, ref) == RowAt(w, ref);
    forall p, k: nat | At(v, (p, k)) && v.orders[p].attempts[k].signed.Some?
      ensures v.orders[p].attempts[k].signed.value in v.signedBy && v.signedBy[v.orders[p].attempts[k].signed.value] == (p, k)
    {
      assert At(w, (p, k));
    }
  }

  lemma {:induction false} RunOk(w: World, events: seq<Event>)
    requires WorldOk(w)
    ensures WorldOk(Run(w, events))
    decreases |events|
  {
    if events != [] {
      HandleOk(w, events[0]);
      RunOk(Handle(w, events[0]), events[1..]);
    }
  }
}
