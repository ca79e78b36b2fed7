// The reclaim journal and signer as they run against the reclaim table: PostgresEnergyReclaimAttemptJournal
// (src/adapters/database/postgres-energy-reclaim-attempt-journal.ts) and the sign transaction of
// src/adapters/signer/postgres-tron-reclaim-signer.ts. Each method is one database transaction; a row's key is the pair
// of a source delegation and an attempt index.
module ReclaimJournal {
  import opened Prelude
  import opened Chain
  import opened Attempts
  import opened ReclaimProtocol

  class Journal {
    var sources: map<Id, Source>
    var claimedBy: map<Tx, (Id, nat)>      // unique index on txid
    var signedBy: map<Tx, (Id, nat)>       // unique index on signer_unsigned_txid

    // The finished delegations, without reclaim attempts yet.
    constructor (delegations: map<Id, Attempt>)
      ensures sources == (map o | o in delegations :: Source(delegations[o], [])) && claimedBy == map[] && signedBy == map[]
    {
      sources, claimedBy, signedBy := (map o | o in delegations :: Source(delegations[o], [])), map[], map[];
    }

    predicate Has(o: Id, k: nat) reads this { o in sources && k < |sources[o].reclaims| }

    // Everything but reclaim row k of source o is as before, and that row is now r.
    twostate predicate OnlyRow(o: Id, k: nat, r: Reclaim) reads this {
      && old(Has(o, k))
      && sources == old(sources)[o := old(sources)[o].(reclaims := old(sources)[o].reclaims[k := r])]
    }

    method GetOrCreateCurrentAttempt(o: Id, now: nat) returns (r: Result<(nat, Reclaim), JournalError>)
      modifies this`sources
      ensures o !in old(sources) ==> r == Err(AttemptMissing) && sources == old(sources)
      ensures o in old(sources) ==>
        var current := WithCurrentReclaim(old(sources)[o], now);
        if current.Err? then r == Err(current.error) && sources == old(sources)
        else
          && sources == old(sources)[o := current.value]
          && r == Ok((|sources[o].reclaims| - 1, sources[o].reclaims[|sources[o].reclaims| - 1]))
          && r.value.1.status != Expired
    {
      if o !in sources { return Err(AttemptMissing); }
      var source := sources[o];
      if !Eligible(source.delegation, now) { return Err(NotEligible); }
      var rows := source.reclaims;
      if 0 < |rows| {
        var latest := rows[|rows| - 1];
        if latest.status != Expired {
          assert sources == sources[o := source];
          return Ok((|rows| - 1, latest));
        }
      }
      var created := NEW_RECLAIM;
      sources := sources[o := source.(reclaims := rows + [created])];
      return Ok((|rows|, created));
    }

    method Put(o: Id, k: nat, row: Reclaim)
      requires Has(o, k)
      modifies this`sources
      ensures OnlyRow(o, k, row)
    {
      sources := sources[o := sources[o].(reclaims := sources[o].reclaims[k := row])];
    }

    method ClaimTransaction(o: Id, k: nat, tx: Tx, expiration: nat) returns (r: Result<Reclaim, JournalError>)
      modifies this`sources, this`claimedBy
      ensures r.Err? ==> sources == old(sources)
      ensures r.Ok? ==> OnlyRow(o, k, r.value)
      ensures old(Has(o, k)) ==> r == ClaimReclaim(old(sources)[o].reclaims[k], tx, expiration, tx in old(claimedBy))
      ensures claimedBy ==
        if r.Ok? && old(sources)[o].reclaims[k].txid.None? then old(claimedBy)[tx := (o, k)] else old(claimedBy)
    {
      if !Has(o, k) { return Err(AttemptMissing); }
      var row := sources[o].reclaims[k];
      if row.txid.Some? {
        if row.txid.value != tx || row.expiration != Some(expiration) { return Err(IdentityChanged); }
        Untouched(o, k);
        return Ok(row);
      }
      if row.status != Created || row.signed != Some(tx) { return Err(NotSigned); }
      if tx in claimedBy { return Err(TxidTaken); }
      claimedBy := claimedBy[tx := (o, k)];
      row := row.(txid := Some(tx), expiration := Some(expiration), status := Signed);
      Put(o, k, row);
      r := Ok(row);
    }

    method RecordState(o: Id, k: nat, status: AttemptStatus, evidence: Option<AttemptStatus>, observedAt: Option<nat>)
      returns (r: Result<Reclaim, JournalError>)
      modifies this`sources
      ensures r.Err? ==> sources == old(sources)
      ensures r.Ok? ==> OnlyRow(o, k, r.value)
      ensures old(Has(o, k)) ==> r == RecordReclaim(old(sources)[o].reclaims[k], status, evidence, observedAt)
    {
      if status == Created || status == Signed { return Err(MustAdvance); }
      if !Has(o, k) { return Err(AttemptMissing); }
      var row := sources[o].reclaims[k];
      if row.txid.None? || row.expiration.None? { return Err(AttemptMissing); }
      if row.status == Completed || row.status == Failed || row.status == Expired {
        if row.status != status { return Err(TerminalChanged); }
        Untouched(o, k);
        return Ok(row);
      }
      var seenAt := row.observedAt;
      if observedAt.Some? { seenAt := observedAt; }
      if status == Expired {
        if evidence != Some(Expired) || seenAt.None? { return Err(NoAbsenceEvidence); }
        if seenAt.value < row.expiration.value { return Err(NoAbsenceEvidence); }
      }
      if (status == Completed || status == Failed) && evidence != Some(status) { return Err(NoChainEvidence); }
      row := row.(status := status, observedAt := seenAt);
      Put(o, k, row);
      r := Ok(row);
    }

    method Sign(o: Id, k: nat, owner: Address, tx: Tx, now: nat) returns (r: Result<Tx, JournalError>)
      modifies this`sources, this`signedBy
      ensures r.Err? ==> sources == old(sources) && signedBy == old(signedBy)
      ensures old(Has(o, k)) ==>
        var s := SignReclaim(old(sources)[o], k, owner, tx, now, tx in old(signedBy));
        if s.Err? then r == Err(s.error)
        else r == Ok(tx) && OnlyRow(o, k, s.value) && s.value.signed == Some(tx)
             && signedBy == if old(sources)[o].reclaims[k].signed.None? then old(signedBy)[tx := (o, k)] else old(signedBy)
    {
      if tx.kind != Undelegate || tx.owner != owner || tx.balance == 0 { return Err(SignerMismatch); }
      if tx.expiration <= now { return Err(SignerExpired); }
      if !Has(o, k) { return Err(AttemptMissing); }
      var source := sources[o];
      if !Eligible(source.delegation, now) { return Err(NotEligible); }
      var binding := source.delegation.binding.value;
      if binding.owner != tx.owner || binding.receiver != tx.receiver || binding.balance != tx.balance { return Err(SignerMismatch); }
      var row := source.reclaims[k];
      if row.signed.Some? {
        if row.signed.value != tx { return Err(IdentityChanged); }
        Untouched(o, k);
        return Ok(tx);
      }
      if row.status != Created { return Err(NotSignable); }
      if tx in signedBy { return Err(SignerIdentityTaken); }
      Put(o, k, row.(signed := Some(tx), signedAt := Some(now)));
      signedBy := signedBy[tx := (o, k)];
      r := Ok(tx);
    }

    lemma Untouched(o: Id, k: nat)
      requires Has(o, k)
      ensures sources == sources[o := sources[o].(reclaims := sources[o].reclaims[k := sources[o].reclaims[k]])]
    {
      assert sources[o].reclaims == sources[o].reclaims[k := sources[o].reclaims[k]];
    }
  }
}
