// Taking delegated energy back: EnergyReclaimService (src/application/energy/energy-reclaim-service.ts) over the
// reclaim journal (src/adapters/database/postgres-energy-reclaim-attempt-journal.ts) and the reclaim signer
// (src/adapters/signer/postgres-tron-reclaim-signer.ts), one database transaction or network call at a time.
module ReclaimProtocol {
  import opened Prelude
  import opened Chain
  import opened Attempts
  import opened DelegationSafety

  type Id = nat
  type Pid = nat

  // A row of provider_reclaim_attempts.
  datatype Reclaim = Reclaim(
    status: AttemptStatus,
    signed: Option<Tx>,
    signedAt: Option<nat>,
    txid: Option<Tx>,
    expiration: Option<nat>,
    observedAt: Option<nat>)

  const NEW_RECLAIM := Reclaim(Created, None, None, None, None, None)

  // A completed delegation attempt, which no longer changes, and its reclaim rows.
  datatype Source = Source(delegation: Attempt, reclaims: seq<Reclaim>)

  datatype Pc =
    | Open
    | FindSigned(k: nat, row: Reclaim)
    | GetBinding(k: nat)
    | Build(k: nat, binding: Binding)
    | SignCall(k: nat, tx: Tx)
    | AwaitSigner(k: nat, tx: Tx)
    | Claim(k: nat, tx: Tx)
    | Observe(k: nat, row: Reclaim, signed: Option<Tx>)
    | RecordSeen(k: nat, tx: Tx, seen: Observation)
    | Recover(k: nat, row: Reclaim)
    | Broadcast(k: nat, tx: Tx, expiration: nat)
    | RecordBroadcast(k: nat, accepted: bool)

  datatype Proc = Proc(source: Id, pc: Pc)

  datatype SignRequest = SignRequest(source: Id, k: nat, tx: Tx)

  datatype World = World(
    owner: Address,
    sources: map<Id, Source>,
    delegatedBy: map<Tx, Id>,           // which source a finished delegation is
    signedBy: map<Tx, (Id, nat)>,       // unique index on signer_unsigned_txid
    requests: set<SignRequest>,
    chain: Chain,
    wall: nat,
    procs: map<Pid, Proc>)

  datatype Input = Proceed | Fail | Saw(seen: Observation) | Sent(accepted: bool) | Built(tx: Tx)

  datatype Event =
    | Delegation(tx: Tx)                       // the delegation side hands a transaction to a node
    | Finalized(source: Id, delegation: Attempt)
    | Begin(pid: Pid, source: Id)
    | Step(pid: Pid, input: Input)
    | Unacknowledged(pid: Pid, input: Input)   // the step takes effect, but the operation sees an exception
    | Crash(pid: Pid)
    | SignerCommit(request: SignRequest)
    | OnChain(change: ChainEvent)
    | Tick(ms: nat)

  predicate Eligible(delegation: Attempt, now: nat) {
    && delegation.status == Completed && delegation.finalizedAt.Some? && delegation.binding.Some?
    && delegation.eligibleAt.Some? && delegation.eligibleAt.value <= now
  }

  // getOrCreateCurrentAttempt
  function WithCurrentReclaim(s: Source, now: nat): Result<Source, JournalError> {
    if !Eligible(s.delegation, now) then Err(NotEligible)
    else if s.reclaims != [] && s.reclaims[|s.reclaims| - 1].status != Expired then Ok(s)
    else Ok(s.(reclaims := s.reclaims + [NEW_RECLAIM]))
  }

  // taken says that the unique index on txid holds tx for another row.
  function ClaimReclaim(row: Reclaim, tx: Tx, expiration: nat, taken: bool): Result<Reclaim, JournalError> {
    if row.txid.Some? then
      if row.txid != Some(tx) || row.expiration != Some(expiration) then Err(IdentityChanged) else Ok(row)
    else if row.status != Created || row.signed != Some(tx) then Err(NotSigned)
    else if taken then Err(TxidTaken)
    else Ok(row.(txid := Some(tx), expiration := Some(expiration), status := Signed))
  }

  // recordState; evidence is lastChainStatus when it is terminal or "absent".
  function RecordReclaim(row: Reclaim, status: AttemptStatus, evidence: Option<AttemptStatus>, observedAt: Option<nat>)
    : Result<Reclaim, JournalError>
  {
    if status == Created || status == Signed then Err(MustAdvance)
    else if row.txid.None? || row.expiration.None? then Err(AttemptMissing)
    else if Terminal(row.status) then
      if row.status != status then Err(TerminalChanged) else Ok(row)
    else
      var seenAt := if observedAt.Some? then observedAt else row.observedAt;
      if status == Expired && !(evidence == Some(Expired) && seenAt.Some? && row.expiration.value <= seenAt.value)
      then Err(NoAbsenceEvidence)
      else if (status == Completed || status == Failed) && evidence != Some(status) then Err(NoChainEvidence)
      else Ok(row.(status := status, observedAt := seenAt))
  }

  function SignReclaim(s: Source, k: nat, owner: Address, tx: Tx, now: nat, taken: bool): Result<Reclaim, JournalError>
    requires k < |s.reclaims|
  {
    var row := s.reclaims[k];
    if tx.kind != Undelegate || tx.owner != owner || tx.balance == 0 then Err(SignerMismatch)
    else if tx.expiration <= now then Err(SignerExpired)
    else if !Eligible(s.delegation, now) then Err(NotEligible)
    else if s.delegation.binding != Some(BindingOf(tx)) then Err(SignerMismatch)
    else if row.signed.Some? then
      if row.signed != Some(tx) then Err(IdentityChanged) else Ok(row)
    else if row.status != Created then Err(NotSignable)
    else if taken then Err(SignerIdentityTaken)
    else Ok(row.(signed := Some(tx), signedAt := Some(now)))
  }

  // How one step ends; None ends the operation.
  datatype Effect = Effect(source: Source, next: Option<Pc>)

  function Update(s: Source, k: nat, r: Result<Reclaim, JournalError>, next: Option<Pc>): Effect
    requires k < |s.reclaims|
  {
    if r.Err? then Effect(s, None) else Effect(s.(reclaims := s.reclaims[k := r.value]), next)
  }

  predicate InRange(s: Source, pc: Pc) { pc.Open? || pc.k < |s.reclaims| }

  function RecordOutcome(row: Reclaim, seen: Observation): Result<Reclaim, JournalError> {
    match seen
    case SeenCompleted => RecordReclaim(row, Completed, Some(Completed), None)
    case SeenFailed => RecordReclaim(row, Failed, Some(Failed), None)
    case SeenAbsent(at) => RecordReclaim(row, Expired, Some(Expired), Some(at))
    case _ => RecordReclaim(row, Processing, None, None)
  }

  // One step of EnergyReclaimService.reconcile and observe.
  function Perform(owner: Address, chain: Chain, wall: nat, s: Source, pc: Pc, input: Input): Effect
    requires InRange(s, pc)
  {
    if input.Fail? then Effect(s, None) else
    match pc
    case Open =>
      var current := WithCurrentReclaim(s, wall);
      if current.Err? then Effect(s, None)
      else
        var k := |current.value.reclaims| - 1;
        var row := current.value.reclaims[k];
        Effect(current.value, if Terminal(row.status) then None else Some(FindSigned(k, row)))
    case FindSigned(k, row) =>
      var signed := s.reclaims[k].signed;
      if row.txid.Some? then
        if signed.Some? && signed != row.txid then Effect(s, None) else Effect(s, Some(Observe(k, row, signed)))
      else if signed.None? then Effect(s, Some(GetBinding(k)))
      else Effect(s, Some(Claim(k, signed.value)))
    case GetBinding(k) =>
      if Eligible(s.delegation, wall) then Effect(s, Some(Build(k, s.delegation.binding.value))) else Effect(s, None)
    case Build(k, binding) =>
      if input.Built? then Effect(s, Some(SignCall(k, input.tx))) else Effect(s, None)
    case SignCall(k, tx) => Effect(s, Some(AwaitSigner(k, tx)))
    case AwaitSigner(k, tx) =>
      if s.reclaims[k].signed == Some(tx) then Effect(s, Some(Claim(k, tx))) else Effect(s, None)
    case Claim(k, tx) =>   // no other row ever holds tx: see ReclaimTheorems.ClaimsNeverClash
      var claimed := ClaimReclaim(s.reclaims[k], tx, tx.expiration, false);
      if claimed.Err? then Effect(s, None)
      else Effect(s.(reclaims := s.reclaims[k := claimed.value]), Some(Observe(k, claimed.value, Some(tx))))
    case Observe(k, row, signed) =>
      if !input.Saw? || row.txid.None? || row.expiration.None? ||
         !Truthful(chain, row.txid.value, row.expiration.value, input.seen) then Effect(s, None)
      else if !input.seen.SeenUnknown? then Effect(s, Some(RecordSeen(k, row.txid.value, input.seen)))
      else if signed.Some? then Effect(s, Expiring(k, row, signed.value, wall))
      else Effect(s, Some(Recover(k, row)))
    case RecordSeen(k, tx, seen) => Update(s, k, RecordOutcome(s.reclaims[k], seen), None)
    case Recover(k, row) =>
      var signed := s.reclaims[k].signed;
      if signed.None? || row.expiration.None? then Effect(s, None) else Effect(s, Expiring(k, row, signed.value, wall))
    case Broadcast(k, tx, expiration) => Effect(s, Some(RecordBroadcast(k, input.Sent? && input.accepted)))
    case RecordBroadcast(k, accepted) =>
      Update(s, k, RecordReclaim(s.reclaims[k], if accepted then Accepted else Unknown, None, None), None)
  }

  // The tail of observe: the same transaction again, unless it has expired by now.
  function Expiring(k: nat, row: Reclaim, signed: Tx, wall: nat): Option<Pc>
    requires row.expiration.Some?
  {
    if row.txid != Some(signed) || row.expiration.value <= wall then None
    else Some(Broadcast(k, signed, row.expiration.value))
  }

  function Commit(w: World, pid: Pid, proc: Proc, e: Effect): World {
    w.(sources := w.sources[proc.source := e.source],
       chain := if proc.pc.Broadcast? then Submit(w.chain, proc.pc.tx) else w.chain,
       requests := if proc.pc.SignCall? then w.requests + {SignRequest(proc.source, proc.pc.k, proc.pc.tx)} else w.requests,
       procs := if e.next.Some? then w.procs[pid := Proc(proc.source, e.next.value)] else w.procs - {pid})
  }

  function SignCommit(w: World, r: SignRequest): World {
    if r !in w.requests || r.source !in w.sources || r.k >= |w.sources[r.source].reclaims| then w
    else
      var s := w.sources[r.source];
      var signed := SignReclaim(s, r.k, w.owner, r.tx, w.wall, r.tx in w.signedBy);
      if signed.Err? then w
      else w.(sources := w.sources[r.source := s.(reclaims := s.reclaims[r.k := signed.value])],
              signedBy := w.signedBy[r.tx := (r.source, r.k)])
  }

  function Handle(w: World, e: Event): World {
    match e
    case Delegation(tx) => if tx.kind == Delegate then w.(chain := Submit(w.chain, tx)) else w
    case Finalized(source, delegation) =>
      if source in w.sources || delegation.status != Completed || delegation.binding.None? || delegation.txid.None? ||
         !RowOk(w.owner, delegation.binding.value.receiver, w.chain, delegation) ||
         delegation.txid.value in w.delegatedBy
      then w
      else w.(sources := w.sources[source := Source(delegation, [])],
              delegatedBy := w.delegatedBy[delegation.txid.value := source])
    case Begin(pid, source) =>
      if pid in w.procs || source !in w.sources then w else w.(procs := w.procs[pid := Proc(source, Open)])
    case Step(pid, input) =>
      if pid !in w.procs then w
      else
        var proc := w.procs[pid];
        if proc.source !in w.sources || !InRange(w.sources[proc.source], proc.pc) then w
        else Commit(w, pid, proc, Perform(w.owner, w.chain, w.wall, w.sources[proc.source], proc.pc, input))
    case Unacknowledged(pid, input) =>
      if pid !in w.procs then w
      else
        var proc := w.procs[pid];
        if proc.source !in w.sources || !InRange(w.sources[proc.source], proc.pc) then w
        else
          var e := Perform(w.owner, w.chain, w.wall, w.sources[proc.source], proc.pc, input);
          Commit(w, pid, proc, e.(next := None))
    case Crash(pid) => w.(procs := w.procs - {pid})
    case SignerCommit(request) => SignCommit(w, request)
    case OnChain(change) => w.(chain := Advance(w.chain, change))
    case Tick(ms) => w.(wall := w.wall + ms)
  }

  function Initial(owner: Address): World {
    World(owner, map[], map[], map[], {}, Chain(0, 0, {}, map[]), 0, map[])
  }

  function Run(w: World, events: seq<Event>): World
    decreases |events|
  {
    if events == [] then w else Run(Handle(w, events[0]), events[1..])
  }
}
