// The journal and signer transactions as they run against the attempts table: PostgresEnergyProviderAttemptJournal
// (src/adapters/database/postgres-energy-provider-attempt-journal.ts) and PostgresTronDelegationSigner.sign
// (src/adapters/signer/postgres-tron-delegation-signer.ts). Each method is one database transaction; the attempt
// key is the pair of an order and an attempt index.
module AttemptJournal {
  import opened Prelude
  import opened Chain
  import opened Attempts

  class Journal {
    var attempts: map<nat, seq<Attempt>>     // per delivery, by attempt number
    var providerOrderIds: map<nat, Option<Tx>>
    var claimedBy: map<Tx, (nat, nat)>       // unique index on txid
    var signedBy: map<Tx, (nat, nat)>        // unique index on signer_unsigned_txid

    // The deliveries that startDispatch has inserted, without attempts yet.
    constructor (deliveries: set<nat>)
      ensures Valid() && attempts == (map o | o in deliveries :: []) && claimedBy == map[] && signedBy == map[]
      ensures providerOrderIds == (map o | o in deliveries :: None)
    {
      attempts, providerOrderIds := (map o | o in deliveries :: []), (map o | o in deliveries :: None);
      claimedBy, signedBy := map[], map[];
    }

    predicate Has(o: nat, k: nat) reads this { o in attempts && k < |attempts[o]| }

    // The journal sets a provider order id only with the claim of the same transaction, so where the index on txid lets a
    // claim through, the index on provider order ids does too.
    ghost predicate Valid() reads this {
      && attempts.Keys == providerOrderIds.Keys
      && forall o :: o in providerOrderIds && providerOrderIds[o].Some? ==>
           providerOrderIds[o].value in claimedBy && claimedBy[providerOrderIds[o].value].0 == o
    }

    // Everything but row k of delivery o is as before, and that row is now r.
    twostate predicate OnlyRow(o: nat, k: nat, r: Attempt) reads this {
      && old(Has(o, k)) && attempts == old(attempts)[o := old(attempts)[o][k := r]]
    }

    method GetOrCreateCurrentAttempt(o: nat) returns (r: Result<(nat, Attempt), JournalError>)
      requires Valid()
      modifies this`attempts
      ensures Valid()
      ensures o !in old(attempts) ==> r == Err(JournalRowMissing) && attempts == old(attempts)
      ensures o in old(attempts) ==>
        && attempts == old(attempts)[o := WithCurrent(old(attempts)[o])]
        && r == Ok((|attempts[o]| - 1, attempts[o][|attempts[o]| - 1]))
        && r.value.1.status != Expired
    {
      if o !in attempts { return Err(JournalRowMissing); }
      var rows := attempts[o];
      if 0 < |rows| {
        var latest := rows[|rows| - 1];
        if latest.status != Expired {
          assert attempts == attempts[o := rows];
          return Ok((|rows| - 1, latest));
        }
      }
      var created := FRESH;
      attempts := attempts[o := rows + [created]];
      return Ok((|rows|, created));
    }

    method BindDelegation(o: nat, k: nat, binding: Binding) returns (r: Result<Attempt, JournalError>)
      requires Valid()
      modifies this`attempts
      ensures Valid()
      ensures r.Err? ==> attempts == old(attempts)
      ensures r.Ok? ==> OnlyRow(o, k, r.value)
      ensures old(Has(o, k)) ==> r == Attempts.BindDelegation(old(attempts)[o][k], binding)
    {
      if binding.balance < SUN_PER_TRX { return Err(BindingInvalid); }
      if !Has(o, k) { return Err(AttemptMissing); }
      var row := attempts[o][k];
      if row.binding.Some? {
        if row.binding.value != binding { return Err(BindingChanged); }
        Untouched(o, k);
        return Ok(row);
      }
      if row.status != Created || row.txid.Some? { return Err(CannotBind); }
      row := row.(binding := Some(binding));
      attempts := attempts[o := attempts[o][k := row]];
      r := Ok(row);
    }

    method ClaimAttemptTransaction(o: nat, k: nat, tx: Tx, expiration: nat) returns (r: Result<Attempt, JournalError>)
      requires Valid()
      modifies this`attempts, this`providerOrderIds, this`claimedBy
      ensures Valid()
      ensures r.Err? ==> attempts == old(attempts)
      ensures r.Ok? ==> OnlyRow(o, k, r.value)
      ensures old(Has(o, k)) ==> r == ClaimTransaction(old(attempts)[o][k], tx, expiration, tx in old(claimedBy))
      ensures claimedBy == if r.Ok? && old(attempts)[o][k].txid.None? then old(claimedBy)[tx := (o, k)] else old(claimedBy)
      ensures providerOrderIds == if r.Ok? && old(attempts)[o][k].txid.None? then old(providerOrderIds)[o := Some(tx)]
                                  else old(providerOrderIds)
    {
      if !Has(o, k) { return Err(AttemptMissing); }
      var row := attempts[o][k];
      if row.binding.None? { return Err(BindingMissing); }
      if row.txid.Some? {
        if row.txid.value != tx || row.expiration != Some(expiration) { return Err(IdentityChanged); }
        Untouched(o, k);
        return Ok(row);
      }
      if row.status != Created { return Err(NotCreated); }
      if tx in claimedBy { return Err(TxidTaken); }
      row := row.(txid := Some(tx), expiration := Some(expiration), status := Signed);
      attempts := attempts[o := attempts[o][k := row]];
      claimedBy := claimedBy[tx := (o, k)];
      providerOrderIds := providerOrderIds[o := Some(tx)];
      r := Ok(row);
    }

    method RecordAttemptState(o: nat, k: nat, report: StateReport, now: nat) returns (r: Result<Attempt, JournalError>)
      requires Valid()
      modifies this`attempts
      ensures Valid()
      ensures r.Err? ==> attempts == old(attempts)
      ensures r.Ok? ==> OnlyRow(o, k, r.value)
      ensures old(Has(o, k)) ==> r == RecordState(old(attempts)[o][k], report, now)
    {
      if report.status == Created || report.status == Signed { return Err(MustAdvance); }
      if !Has(o, k) { return Err(AttemptMissing); }
      var row := attempts[o][k];
      if report.status == Completed && row.binding.None? { return Err(BindingMissing); }
      if !TransitionAllowed(row.status, report.status) { return Err(InvalidTransition); }
      var observedAt := row.observedAt;
      if report.observedAt.Some? { observedAt := report.observedAt; }
      if report.status == Expired {
        if !report.absent || row.expiration.None? || observedAt.None? { return Err(NoAbsenceEvidence); }
        if observedAt.value < row.expiration.value { return Err(NoAbsenceEvidence); }
      }
      var acceptedAt, finalizedAt, eligibleAt := row.acceptedAt, row.finalizedAt, row.eligibleAt;
      if acceptedAt.None? && report.broadcastAccepted { acceptedAt := Some(now); }
      if finalizedAt.None? && report.status == Completed { finalizedAt := Some(now); }
      if eligibleAt.None? && report.status == Completed && finalizedAt.Some? {
        eligibleAt := Some(EligibleFrom(acceptedAt, finalizedAt.value));
      }
      row := row.(status := report.status, observedAt := observedAt, acceptedAt := acceptedAt,
                  finalizedAt := finalizedAt, eligibleAt := eligibleAt);
      attempts := attempts[o := attempts[o][k := row]];
      r := Ok(row);
    }

    method Sign(o: nat, k: nat, owner: Address, tx: Tx, now: nat) returns (r: Result<Tx, JournalError>)
      requires Valid()
      modifies this`attempts, this`signedBy
      ensures Valid()
      ensures r.Err? ==> attempts == old(attempts) && signedBy == old(signedBy)
      ensures old(Has(o, k)) ==>
        var s := SignAttempt(old(attempts)[o][k], owner, tx, now, tx in old(signedBy));
        if s.Err? then r == Err(s.error)
        else r == Ok(tx) && OnlyRow(o, k, s.value) && s.value.signed == Some(tx)
             && signedBy == if old(attempts)[o][k].signed.None? then old(signedBy)[tx := (o, k)] else old(signedBy)
    {
      if tx.kind != Delegate || tx.owner != owner || tx.balance < SUN_PER_TRX { return Err(SignerMismatch); }
      if tx.expiration <= now { return Err(SignerExpired); }
      if !Has(o, k) { return Err(AttemptMissing); }
      var row := attempts[o][k];
      if row.binding.None? || row.binding.value != BindingOf(tx) { return Err(SignerMismatch); }
      if row.signed.Some? {
        if row.signed.value != tx { return Err(IdentityChanged); }
        Untouched(o, k);
        return Ok(tx);
      }
      if row.status != Created { return Err(NotSignable); }
      if tx in signedBy { return Err(SignerIdentityTaken); }
      attempts := attempts[o := attempts[o][k := row.(signed := Some(tx))]];
      signedBy := signedBy[tx := (o, k)];
      r := Ok(tx);
    }

    lemma Untouched(o: nat, k: nat)
      requires Has(o, k)
      ensures attempts == attempts[o := attempts[o][k := attempts[o][k]]]
    {
      assert attempts[o] == attempts[o][k := attempts[o][k]];
    }
  }
}
