// Rows of provider_transaction_attempts and what each database transaction does to one of them:
// src/adapters/database/postgres-energy-provider-attempt-journal.ts and the signer columns written by
// src/adapters/signer/postgres-tron-delegation-signer.ts.
module Attempts {
  import opened Prelude
  import opened Chain

  const SUN_PER_TRX: nat := 1_000_000
  const RECLAIM_DELAY_MS: nat := 60 * 60 * 1000

  datatype AttemptStatus = Created | Signed | Accepted | Processing | Completed | Failed | Expired | Unknown

  datatype Binding = Binding(owner: Address, receiver: Address, balance: nat)

  datatype Attempt = Attempt(
    status: AttemptStatus,
    binding: Option<Binding>,
    signed: Option<Tx>,
    txid: Option<Tx>,
    expiration: Option<nat>,
    observedAt: Option<nat>,
    acceptedAt: Option<nat>,
    finalizedAt: Option<nat>,
    eligibleAt: Option<nat>)

  const FRESH := Attempt(Created, None, None, None, None, None, None, None, None)

  datatype JournalError =
    | BindingInvalid | BindingChanged | CannotBind
    | BindingMissing | IdentityChanged | NotCreated | TxidTaken
    | MustAdvance | InvalidTransition | NoAbsenceEvidence
    | SignerMismatch | SignerExpired | NotSignable | SignerIdentityTaken
    | JournalRowMissing | AttemptMissing
    | NotEligible | NotSigned | TerminalChanged | NoChainEvidence

  predicate TransitionAllowed(current: AttemptStatus, next: AttemptStatus) {
    current == next ||
    match current
    case Created => next in {Signed, Failed}
    case Signed => next in {Accepted, Processing, Failed, Expired, Unknown}
    case Accepted => next in {Processing, Completed, Failed, Expired, Unknown}
    case Processing => next in {Completed, Failed, Expired, Unknown}
    case Unknown => next in {Accepted, Processing, Completed, Failed, Expired}
    case _ => false
  }

  predicate Terminal(status: AttemptStatus) { status in {Completed, Failed, Expired} }

  // getOrCreateCurrentAttempt: the rows afterwards; the current attempt is the last of them.
  function WithCurrent(rows: seq<Attempt>): seq<Attempt> {
    if rows != [] && rows[|rows| - 1].status != Expired then rows else rows + [FRESH]
  }

  function BindDelegation(row: Attempt, binding: Binding): Result<Attempt, JournalError> {
    if binding.balance < SUN_PER_TRX then Err(BindingInvalid)
    else if row.binding.Some? then
      if row.binding.value != binding then Err(BindingChanged) else Ok(row)
    else if row.status != Created || row.txid.Some? then Err(CannotBind)
    else Ok(row.(binding := Some(binding)))
  }

  // taken says that the unique index on txid holds tx for another row.
  function ClaimTransaction(row: Attempt, tx: Tx, expiration: nat, taken: bool): Result<Attempt, JournalError> {
    if row.binding.None? then Err(BindingMissing)
    else if row.txid.Some? then
      if row.txid.value != tx || row.expiration != Some(expiration) then Err(IdentityChanged) else Ok(row)
    else if row.status != Created then Err(NotCreated)
    else if taken then Err(TxidTaken)
    else Ok(row.(txid := Some(tx), expiration := Some(expiration), status := Signed))
  }

  // An update for recordAttemptState; absent says lastChainStatus is "absent".
  datatype StateReport = StateReport(
    status: AttemptStatus, broadcastAccepted: bool, absent: bool, observedAt: Option<nat>)

  function RecordState(row: Attempt, report: StateReport, now: nat): Result<Attempt, JournalError> {
    if report.status in {Created, Signed} then Err(MustAdvance)
    else if report.status == Completed && row.binding.None? then Err(BindingMissing)
    else if !TransitionAllowed(row.status, report.status) then Err(InvalidTransition)
    else
      var observedAt := if report.observedAt.Some? then report.observedAt else row.observedAt;
      if report.status == Expired && !(report.absent && row.expiration.Some? && observedAt.Some? &&
                                       row.expiration.value <= observedAt.value) then Err(NoAbsenceEvidence)
      else
        var acceptedAt := if row.acceptedAt.Some? then row.acceptedAt
                          else if report.broadcastAccepted then Some(now) else None;
        var finalizedAt := if row.finalizedAt.Some? then row.finalizedAt
                           else if report.status == Completed then Some(now) else None;
        var eligibleAt := if row.eligibleAt.Some? then row.eligibleAt
                          else if report.status == Completed && finalizedAt.Some? then
                            Some(EligibleFrom(acceptedAt, finalizedAt.value))
                          else None;
        Ok(row.(status := report.status, observedAt := observedAt,
                acceptedAt := acceptedAt, finalizedAt := finalizedAt, eligibleAt := eligibleAt))
  }

  function EligibleFrom(acceptedAt: Option<nat>, finalizedAt: nat): nat {
    Max((if acceptedAt.Some? then acceptedAt.value else finalizedAt) + RECLAIM_DELAY_MS, finalizedAt)
  }

  function BindingOf(tx: Tx): Binding { Binding(tx.owner, tx.receiver, tx.balance) }

  // The signer's transaction: taken says that the unique index on signer_unsigned_txid holds tx for another row.
  function SignAttempt(row: Attempt, owner: Address, tx: Tx, now: nat, taken: bool): Result<Attempt, JournalError> {
    if tx.kind != Delegate || tx.owner != owner || tx.balance < SUN_PER_TRX then Err(SignerMismatch)
    else if tx.expiration <= now then Err(SignerExpired)
    else if row.binding != Some(BindingOf(tx)) then Err(SignerMismatch)
    else if row.signed.Some? then
      if row.signed.value != tx then Err(IdentityChanged) else Ok(row)
    else if row.status != Created then Err(NotSignable)
    else if taken then Err(SignerIdentityTaken)
    else Ok(row.(signed := Some(tx)))
  }
}
