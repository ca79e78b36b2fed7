// The delegation protocol as a state machine: energy orders, the attempt journal, the signer, the chain and
// the program counters of the operations that drive them. It follows TronOwnPoolEnergyProvider
// (src/adapters/energy/tron-own-pool-energy-provider.ts) and EnergyUsageService
// (src/application/energy/energy-usage-service.ts) one database transaction or network call at a time.
module DelegationProtocol {
  import opened Prelude
  import opened Chain
  import opened EnergyOrders
  import opened Attempts
  import opened DelegationAmount

  type Id = nat
  type Pid = nat

  datatype Order = Order(
    recipient: Address,
    energy: int,
    state: OrderState,
    delivery: Option<Delivery>,
    attempts: seq<Attempt>)

  // An EnergyDeliveryResult or EnergyOrderStatus.
  datatype Report = Report(providerOrderId: Option<Tx>, status: DeliveryStatus)

  // Who called reconcileAttempt or broadcastAttempt: startAttempt, a status call, or advanceAttempt.
  datatype Caller = ByStart | ByStatus | ByAdvance(allowReplacement: bool)

  // Where dispatchReservedOrder (executing) or getStatus stands around its provider call.
  datatype Stage =
    | First
    | Continue(executing: bool)
    | Resume
    | RecoverFirst
    | RecoverContinue(executing: bool)

  datatype Pc =
    | Dispatch(executing: bool)
    | Lookup
    | Current(allowReplacement: bool)
    | FindSigned(k: nat, row: Attempt)
    | BindSigned(k: nat, tx: Tx)
    | Claim(k: nat, tx: Tx, caller: Caller)
    | Measure(k: nat)
    | Capacity(k: nat, balance: nat)
    | RecordCapacity(k: nat)
    | Build(k: nat, balance: nat)
    | BindUnsigned(k: nat, tx: Tx)
    | SignCall(k: nat, tx: Tx)
    | AwaitSigner(k: nat, tx: Tx)
    | Observe(k: nat, row: Attempt, caller: Caller)
    | RecordSeen(k: nat, row: Attempt, seen: Observation, caller: Caller)
    | RecoverSigned(k: nat, row: Attempt, caller: Caller)
    | Broadcast(k: nat, known: AttemptStatus, tx: Tx, caller: Caller)
    | RecordBroadcast(k: nat, known: AttemptStatus, tx: Tx, accepted: bool, caller: Caller)
    | Refresh(allowReplacement: bool, result: Report)
    | Replace(k: nat, result: Report)
    | StatusLookup(txid: Tx)
    | StatusList(txid: Tx)
    | FindLookup
    | FindList
    | FindRecover(k: nat, row: Attempt)
    | Apply(result: Report)

  // providerOrderId is the delivery snapshot taken at dispatch.
  datatype Proc = Proc(order: Id, pc: Pc, stage: Stage, providerOrderId: Option<Tx>)

  datatype SignRequest = SignRequest(order: Id, k: nat, tx: Tx)

  // signedBy is the unique index on signer_unsigned_txid.
  datatype World = World(
    owner: Address,
    orders: map<Id, Order>,
    signedBy: map<Tx, (Id, nat)>,
    requests: set<SignRequest>,
    chain: Chain,
    wall: nat,
    procs: map<Pid, Proc>)

  // What the environment contributes to one step; Fail is any exception or timeout.
  datatype Input =
    | Proceed
    | Fail
    | Saw(seen: Observation)
    | Sent(accepted: bool)
    | Resources(limit: int, weight: int)
    | Delegatable(sun: int)
    | Built(tx: Tx)

  datatype Event =
    | Place(order: Id, recipient: Address, energy: int)
    | Begin(pid: Pid, order: Id, executing: bool)
    | Step(pid: Pid, input: Input)
    | Unacknowledged(pid: Pid, input: Input)   // the step takes effect, but the operation sees an exception
    | Crash(pid: Pid)
    | SignerCommit(request: SignRequest)
    | OnChain(change: ChainEvent)
    | Tick(ms: nat)

  // How one step ends for the program counter.
  datatype Next =
    | Goto(pc: Pc)
    | Enter(stage: Stage, providerOrderId: Option<Tx>)
    | Return(result: Option<Report>)
    | Throw
    | Finish

  datatype Effect = Effect(order: Order, next: Next)

  function Last(ord: Order): Attempt requires ord.attempts != [] { ord.attempts[|ord.attempts| - 1] }

  function Update(ord: Order, k: nat, r: Result<Attempt, JournalError>, next: Next): Effect
    requires k < |ord.attempts|
  {
    if r.Err? then Effect(ord, Throw) else Effect(ord.(attempts := ord.attempts[k := r.value]), next)
  }

  function AsOrderStatus(r: Report): Report { if r.status == DAccepted then r.(status := DProcessing) else r }

  function Answer(caller: Caller, r: Report): Next {
    match caller
    case ByStart => Return(Some(r))
    case ByStatus => Return(Some(AsOrderStatus(r)))
    case ByAdvance(allow) => Goto(Refresh(allow, r))
  }

  // reconcileAttempt up to its first await
  function Reconcile(k: nat, row: Attempt, caller: Caller): Next {
    if row.status == Completed then Answer(caller, Report(row.txid, DCompleted))
    else if row.status == Failed then Answer(caller, Report(row.txid, DFailed))
    else if row.txid.None? || row.expiration.None? then Throw
    else Goto(Observe(k, row, caller))
  }

  // advanceAttempt up to its first await
  function AdvanceAttempt(k: nat, row: Attempt, allowReplacement: bool): Next {
    match row.status
    case Completed => Return(Some(Report(row.txid, DCompleted)))
    case Failed => Return(Some(Report(row.txid, DFailed)))
    case Created => Goto(FindSigned(k, row))
    case Expired => Goto(Current(false))
    case _ => Reconcile(k, row, ByAdvance(allowReplacement))
  }

  predicate Fits(owner: Address, ord: Order, b: Binding) { b.owner == owner && b.receiver == ord.recipient }

  function SeenReport(row: Attempt, seen: Observation): StateReport {
    match seen
    case SeenCompleted => StateReport(Completed, false, false, None)
    case SeenFailed => StateReport(Failed, false, false, None)
    case SeenProcessing => StateReport(Processing, false, false, None)
    case SeenAbsent(at) => StateReport(Expired, false, true, Some(at))
    case SeenUnknown => StateReport(Unknown, false, false, None)
  }

  function SeenNext(k: nat, row: Attempt, seen: Observation, caller: Caller): Next {
    match seen
    case SeenCompleted => Answer(caller, Report(row.txid, DCompleted))
    case SeenFailed => Answer(caller, Report(row.txid, DFailed))
    case SeenUnknown => Goto(RecoverSigned(k, row, caller))
    case _ => Answer(caller, Report(row.txid, DProcessing))
  }

  function BroadcastStatus(known: AttemptStatus, accepted: bool): AttemptStatus {
    if !accepted then Unknown else if known == Processing then Processing else Accepted
  }

  // The index of the attempt that holds txid, or the number of rows.
  function IndexOf(rows: seq<Attempt>, txid: Tx, from: nat): (k: nat)
    requires from <= |rows|
    ensures from <= k <= |rows| && (k < |rows| ==> rows[k].txid == Some(txid))
    decreases |rows| - from
  {
    if from == |rows| || rows[from].txid == Some(txid) then from else IndexOf(rows, txid, from + 1)
  }

  predicate InRange(ord: Order, pc: Pc) {
    match pc
    case FindSigned(k, _) => k < |ord.attempts|
    case BindSigned(k, _) => k < |ord.attempts|
    case Claim(k, _, _) => k < |ord.attempts|
    case RecordCapacity(k) => k < |ord.attempts|
    case BindUnsigned(k, _) => k < |ord.attempts|
    case AwaitSigner(k, _) => k < |ord.attempts|
    case RecordSeen(k, _, _, _) => k < |ord.attempts|
    case RecoverSigned(k, _, _) => k < |ord.attempts|
    case RecordBroadcast(k, _, _, _, _) => k < |ord.attempts|
    case FindRecover(k, _) => k < |ord.attempts|
    case _ => true
  }

  // The steps of EnergyUsageService.dispatchReservedOrder and getStatusUnserialized outside the provider:
  // startDispatch or getOwned, and applyDelivery.
  function ServiceStep(ord: Order, pc: Pc): Effect {
    match pc
    case Dispatch(executing) =>
      if executing && ord.state == OReserved then
        if ord.delivery.Some? then Effect(ord, Throw)
        else Effect(ord.(state := ODispatching, delivery := Some(Delivery(DPending, None))), Enter(First, None))
      else if ord.state != ODispatching || ord.delivery.None? then Effect(ord, Finish)
      else Effect(ord, Enter(Continue(executing), ord.delivery.value.providerOrderId))
    case Apply(result) =>
      if ord.delivery.None? || result.status == DPending then Effect(ord, Finish)
      else
        var applied := ApplyReport(ord.state, ord.delivery.value, result.providerOrderId, result.status);
        if applied.Err? then Effect(ord, Finish)
        else Effect(ord.(state := applied.value.state, delivery := Some(applied.value.delivery)), Finish)
    case _ => Effect(ord, Throw)
  }

  // createDelivery and advanceAttempt
  function CreateStep(ord: Order, pc: Pc): Effect {
    match pc
    case Lookup =>
      if ord.delivery.None? then Effect(ord, Throw)
      else if ord.delivery.value.status == DFailed then
        Effect(ord, Return(Some(Report(ord.delivery.value.providerOrderId, DFailed))))
      else Effect(ord, Goto(Current(true)))
    case Current(allow) =>
      if ord.delivery.None? then Effect(ord, Throw)
      else
        var rows := WithCurrent(ord.attempts);
        Effect(ord.(attempts := rows), AdvanceAttempt(|rows| - 1, rows[|rows| - 1], allow))
    case Refresh(allow, result) =>
      if allow && ord.attempts != [] && Last(ord).status == Expired
      then Effect(ord, Goto(Replace(|ord.attempts| - 1, result)))
      else Effect(ord, Return(Some(result)))
    case Replace(k, result) =>
      if ord.delivery.None? then Effect(ord, Throw)
      else
        var rows := WithCurrent(ord.attempts);
        Effect(ord.(attempts := rows),
               if |rows| - 1 != k then AdvanceAttempt(|rows| - 1, rows[|rows| - 1], false) else Return(Some(result)))
    case _ => Effect(ord, Throw)
  }

  // startAttempt
  function StartStep(owner: Address, wall: nat, ord: Order, pc: Pc, input: Input): Effect
    requires InRange(ord, pc)
  {
    match pc
    case FindSigned(k, row) =>
      var signed := ord.attempts[k].signed;
      if signed.Some? then
        if Fits(owner, ord, BindingOf(signed.value)) then Effect(ord, Goto(BindSigned(k, signed.value)))
        else Effect(ord, Throw)
      else if row.binding.Some? then
        if Fits(owner, ord, row.binding.value) then Effect(ord, Goto(Capacity(k, row.binding.value.balance)))
        else Effect(ord, Throw)
      else Effect(ord, Goto(Measure(k)))
    case BindSigned(k, tx) =>
      Update(ord, k, BindDelegation(ord.attempts[k], BindingOf(tx)), Goto(Claim(k, tx, ByStart)))
    case Measure(k) =>
      if !input.Resources? then Effect(ord, Throw)
      else
        var required := RequiredDelegationSun(ord.energy, input.limit, input.weight);
        if required.Err? then Effect(ord, Throw) else Effect(ord, Goto(Capacity(k, required.value)))
    case Capacity(k, balance) =>
      if !input.Delegatable? then Effect(ord, Throw)
      else Effect(ord, Goto(if input.sun < balance then RecordCapacity(k) else Build(k, balance)))
    case RecordCapacity(k) =>
      Update(ord, k, RecordState(ord.attempts[k], StateReport(Failed, false, false, None), wall),
             Return(Some(Report(None, DFailed))))
    case Build(k, balance) =>
      if input.Built? && input.tx.kind == Delegate && BindingOf(input.tx) == Binding(owner, ord.recipient, balance)
      then Effect(ord, Goto(BindUnsigned(k, input.tx)))
      else Effect(ord, Throw)
    case BindUnsigned(k, tx) =>
      Update(ord, k, BindDelegation(ord.attempts[k], BindingOf(tx)), Goto(SignCall(k, tx)))
    case SignCall(k, tx) => Effect(ord, Goto(AwaitSigner(k, tx)))
    case AwaitSigner(k, tx) =>
      if ord.attempts[k].signed == Some(tx) then Effect(ord, Goto(Claim(k, tx, ByStart))) else Effect(ord, Throw)
    case _ => Effect(ord, Throw)
  }

  // No other row ever holds the transaction: see DelegationTheorems.ClaimsNeverClash.
  function ClaimStep(ord: Order, k: nat, tx: Tx, caller: Caller): Effect
    requires k < |ord.attempts|
  {
    var claimed := ClaimTransaction(ord.attempts[k], tx, tx.expiration, false);
    if claimed.Err? || ord.delivery.None? then Effect(ord, Throw)
    else
      var delivery := if ord.attempts[k].txid.Some? then ord.delivery.value
                      else ord.delivery.value.(providerOrderId := Some(tx));
      Effect(ord.(attempts := ord.attempts[k := claimed.value], delivery := Some(delivery)),
             Goto(Broadcast(k, claimed.value.status, tx, caller)))
  }

  // reconcileAttempt and broadcastAttempt; handing the transaction to the node is in Commit
  function ReconcileStep(chain: Chain, wall: nat, ord: Order, pc: Pc, input: Input): Effect
    requires InRange(ord, pc)
  {
    match pc
    case Observe(k, row, caller) =>
      if input.Saw? && row.txid.Some? && row.expiration.Some? &&
         Truthful(chain, row.txid.value, row.expiration.value, input.seen)
      then Effect(ord, Goto(RecordSeen(k, row, input.seen, caller)))
      else Effect(ord, Throw)
    case RecordSeen(k, row, seen, caller) =>
      Update(ord, k, RecordState(ord.attempts[k], SeenReport(row, seen), wall), SeenNext(k, row, seen, caller))
    case RecoverSigned(k, row, caller) =>
      var signed := ord.attempts[k].signed;
      if signed.None? then Effect(ord, Answer(caller, Report(row.txid, DProcessing)))
      else if signed != row.txid then Effect(ord, Throw)
      else Effect(ord, Goto(Broadcast(k, row.status, signed.value, caller)))
    case Broadcast(k, known, tx, caller) =>
      Effect(ord, Goto(RecordBroadcast(k, known, tx, input.Sent? && input.accepted, caller)))
    case RecordBroadcast(k, known, tx, accepted, caller) =>
      Update(ord, k,
             RecordState(ord.attempts[k], StateReport(BroadcastStatus(known, accepted), accepted, false, None), wall),
             Answer(caller, Report(Some(tx), if accepted then DAccepted else DProcessing)))
    case _ => Effect(ord, Throw)
  }

  // getDeliveryStatus and findDeliveryByIdempotencyKey
  function RecoveryStep(ord: Order, pc: Pc): Effect
    requires InRange(ord, pc)
  {
    match pc
    case StatusLookup(txid) =>
      if ord.delivery.Some? && ord.delivery.value.providerOrderId == Some(txid)
      then Effect(ord, Goto(StatusList(txid)))
      else Effect(ord, Throw)
    case StatusList(txid) =>
      var k := IndexOf(ord.attempts, txid, 0);
      if k == |ord.attempts| then Effect(ord, Throw) else Effect(ord, Reconcile(k, ord.attempts[k], ByStatus))
    case FindLookup =>
      if ord.delivery.None? then Effect(ord, Return(None))
      else if ord.delivery.value.status == DFailed then
        Effect(ord, Return(Some(Report(ord.delivery.value.providerOrderId, DFailed))))
      else Effect(ord, Goto(FindList))
    case FindList =>
      if ord.attempts == [] || Last(ord).status == Expired then Effect(ord, Return(None))
      else if Last(ord).status == Created then Effect(ord, Goto(FindRecover(|ord.attempts| - 1, Last(ord))))
      else Effect(ord, Reconcile(|ord.attempts| - 1, Last(ord), ByStatus))
    case FindRecover(k, row) =>
      var signed := ord.attempts[k].signed;
      if signed.None? then Effect(ord, Return(None))
      else if row.binding != Some(BindingOf(signed.value)) then Effect(ord, Throw)
      else Effect(ord, Goto(Claim(k, signed.value, ByStatus)))
    case _ => Effect(ord, Throw)
  }

  datatype Part = Service | Create | StartAttempt | Claiming | ReconcileAttempt | Recovery

  function PartOf(pc: Pc): Part {
    match pc
    case Dispatch(_) => Service
    case Apply(_) => Service
    case Lookup => Create
    case Current(_) => Create
    case Refresh(_, _) => Create
    case Replace(_, _) => Create
    case Claim(_, _, _) => Claiming
    case Observe(_, _, _) => ReconcileAttempt
    case RecordSeen(_, _, _, _) => ReconcileAttempt
    case RecoverSigned(_, _, _) => ReconcileAttempt
    case Broadcast(_, _, _, _) => ReconcileAttempt
    case RecordBroadcast(_, _, _, _, _) => ReconcileAttempt
    case StatusLookup(_) => Recovery
    case StatusList(_) => Recovery
    case FindLookup => Recovery
    case FindList => Recovery
    case FindRecover(_, _) => Recovery
    case _ => StartAttempt
  }

  // One step of an operation on ord.
  function Perform(owner: Address, chain: Chain, wall: nat, ord: Order, pc: Pc, input: Input): Effect
    requires InRange(ord, pc)
  {
    if input.Fail? then Effect(ord, Throw) else
    match PartOf(pc)
    case Service => ServiceStep(ord, pc)
    case Create => CreateStep(ord, pc)
    case StartAttempt => StartStep(owner, wall, ord, pc, input)
    case Claiming => ClaimStep(ord, pc.k, pc.tx, pc.caller)
    case ReconcileAttempt => ReconcileStep(chain, wall, ord, pc, input)
    case Recovery => RecoveryStep(ord, pc)
  }

  function RecoverCall(providerOrderId: Option<Tx>): Pc {
    if providerOrderId.Some? then StatusLookup(providerOrderId.value) else FindLookup
  }

  // Where the calling service goes when its provider call returns or throws; None ends the operation.
  function Settle(proc: Proc, next: Next): Option<Proc> {
    match next
    case Goto(pc) => Some(proc.(pc := pc))
    case Enter(stage, id) => Some(proc.(pc := Lookup, stage := stage, providerOrderId := id))
    case Finish => None
    case Return(result) =>
      if result.Some? then Some(proc.(pc := Apply(result.value)))
      else (match proc.stage
        case RecoverFirst => Some(proc.(pc := Apply(Report(proc.providerOrderId, DUnknown))))
        case RecoverContinue(executing) => if executing then Some(proc.(pc := Lookup, stage := Resume)) else None
        case _ => None)
    case Throw =>
      if proc.pc.Dispatch? || proc.pc.Apply? then None
      else match proc.stage
        case First => Some(proc.(pc := RecoverCall(proc.providerOrderId), stage := RecoverFirst))
        case Continue(executing) =>
          Some(proc.(pc := RecoverCall(proc.providerOrderId), stage := RecoverContinue(executing)))
        case _ => None
  }

  function Commit(w: World, pid: Pid, proc: Proc, e: Effect): World {
    var after := Settle(proc, e.next);
    w.(orders := w.orders[proc.order := e.order],
       chain := if proc.pc.Broadcast? then Submit(w.chain, proc.pc.tx) else w.chain,
       requests := if proc.pc.SignCall? then w.requests + {SignRequest(proc.order, proc.pc.k, proc.pc.tx)} else w.requests,
       procs := if after.Some? then w.procs[pid := after.value] else w.procs - {pid})
  }

  // PostgresTronDelegationSigner.sign
  function SignCommit(w: World, r: SignRequest): World {
    if r !in w.requests || r.order !in w.orders || r.k >= |w.orders[r.order].attempts| then w
    else
      var ord := w.orders[r.order];
      var signed := SignAttempt(ord.attempts[r.k], w.owner, r.tx, w.wall, r.tx in w.signedBy);
      if signed.Err? then w
      else w.(orders := w.orders[r.order := ord.(attempts := ord.attempts[r.k := signed.value])],
              signedBy := w.signedBy[r.tx := (r.order, r.k)])
  }

  function Handle(w: World, e: Event): World {
    match e
    case Place(o, recipient, energy) =>
      if o in w.orders then w else w.(orders := w.orders[o := Order(recipient, energy, OReserved, None, [])])
    case Begin(pid, o, executing) =>
      if pid in w.procs || o !in w.orders then w
      else w.(procs := w.procs[pid := Proc(o, Dispatch(executing), First, None)])
    case Step(pid, input) =>
      if pid !in w.procs then w
      else
        var proc := w.procs[pid];
        if proc.order !in w.orders || !InRange(w.orders[proc.order], proc.pc) then w
        else Commit(w, pid, proc, Perform(w.owner, w.chain, w.wall, w.orders[proc.order], proc.pc, input))
    case Unacknowledged(pid, input) =>
      if pid !in w.procs then w
      else
        var proc := w.procs[pid];
        if proc.order !in w.orders || !InRange(w.orders[proc.order], proc.pc) then w
        else
          var e := Perform(w.owner, w.chain, w.wall, w.orders[proc.order], proc.pc, input);
          Commit(w, pid, proc, e.(next := Throw))
    case Crash(pid) => w.(procs := w.procs - {pid})
    case SignerCommit(request) => SignCommit(w, request)
    case OnChain(change) => w.(chain := Advance(w.chain, change))
    case Tick(ms) => w.(wall := w.wall + ms)
  }

  function Initial(owner: Address): World {
    World(owner, map[], map[], {}, Chain(0, 0, {}, map[]), 0, map[])
  }

  // The state after a run; every interleaving of operations, crashes, signer and chain is some event sequence.
  function Run(w: World, events: seq<Event>): World
    decreases |events|
  {
    if events == [] then w else Run(Handle(w, events[0]), events[1..])
  }
}
