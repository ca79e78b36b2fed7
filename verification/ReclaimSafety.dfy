// What every run of the reclaim protocol keeps, and its promises.
module ReclaimSafety {
  import opened Prelude
  import opened Chain
  import opened Attempts
  import DelegationSafety
  import opened ReclaimProtocol
  import opened Sums

  predicate Follows(a: Reclaim, b: Reclaim) {
    && (a.txid.Some? ==> b.txid == a.txid && b.expiration == a.expiration)
    && (a.signed.Some? ==> b.signed == a.signed && b.signedAt == a.signedAt)
    && (Terminal(a.status) ==> b.status == a.status)
  }

  predicate ReclaimOk(c: Chain, delegation: Attempt, row: Reclaim) {
    && (row.signed.Some? ==>
          && row.signed.value.kind == Undelegate
          && delegation.binding == Some(BindingOf(row.signed.value))
          && row.signedAt.Some? && delegation.eligibleAt.Some? && delegation.eligibleAt.value <= row.signedAt.value)
    && (row.txid.Some? ==> row.signed == row.txid && row.expiration == Some(row.txid.value.expiration))
    && (row.txid.None? <==> row.status == Created)
    && (row.status == Expired ==> Dead(c, row.txid.value))
    && (row.status == Completed ==> Final(c, row.txid.value, Succeeded))
  }

  ghost predicate SourceOk(owner: Address, c: Chain, s: Source) {
    && s.delegation.status == Completed && s.delegation.binding.Some? && s.delegation.txid.Some?
    && DelegationSafety.RowOk(owner, s.delegation.binding.value.receiver, c, s.delegation)
    && (forall k :: 0 <= k < |s.reclaims| ==> ReclaimOk(c, s.delegation, s.reclaims[k]))
    && (forall k :: 0 <= k < |s.reclaims| - 1 ==> s.reclaims[k].status == Expired)
  }

  ghost predicate SourceEvolves(a: Source, b: Source) {
    && b.delegation == a.delegation
    && |a.reclaims| <= |b.reclaims|
    && forall k :: 0 <= k < |a.reclaims| ==> Follows(a.reclaims[k], b.reclaims[k])
  }

  predicate SameSigned(a: Source, b: Source) {
    && |a.reclaims| <= |b.reclaims|
    && forall k :: 0 <= k < |b.reclaims| ==>
         b.reclaims[k].signed == if k < |a.reclaims| then a.reclaims[k].signed else None
  }

  predicate Known(s: Source, k: nat, row: Reclaim) { k < |s.reclaims| && Follows(row, s.reclaims[k]) }

  predicate PcOk(c: Chain, s: Source, pc: Pc) {
    match pc
    case Open => true
    case FindSigned(k, row) => Known(s, k, row)
    case GetBinding(k) => k < |s.reclaims|
    case Build(k, _) => k < |s.reclaims|
    case SignCall(k, _) => k < |s.reclaims|
    case AwaitSigner(k, _) => k < |s.reclaims|
    case Claim(k, tx) => k < |s.reclaims| && s.reclaims[k].signed == Some(tx)
    case Observe(k, row, _) => Known(s, k, row)
    case RecordSeen(k, tx, seen) =>
      k < |s.reclaims| && s.reclaims[k].txid == Some(tx) && DelegationSafety.Proved(c, tx, seen)
    case Recover(k, row) => Known(s, k, row)
    case Broadcast(k, tx, _) => k < |s.reclaims| && s.reclaims[k].txid == Some(tx)
    case RecordBroadcast(k, _) => k < |s.reclaims|
  }

  ghost predicate StepOk(owner: Address, c: Chain, s: Source, e: Effect) {
    && SourceOk(owner, c, e.source) && SourceEvolves(s, e.source) && SameSigned(s, e.source)
    && (e.next.Some? ==> PcOk(c, e.source, e.next.value))
  }

  lemma Replaced(owner: Address, c: Chain, s: Source, k: nat, row: Reclaim)
    requires SourceOk(owner, c, s) && k < |s.reclaims|
    requires ReclaimOk(c, s.delegation, row) && Follows(s.reclaims[k], row) && row.signed == s.reclaims[k].signed
    ensures var b := s.(reclaims := s.reclaims[k := row]);
      SourceOk(owner, c, b) && SourceEvolves(s, b) && SameSigned(s, b)
  {
  }

  lemma OpenOk(owner: Address, c: Chain, wall: nat, s: Source)
    requires SourceOk(owner, c, s)
    ensures StepOk(owner, c, s, Perform(owner, c, wall, s, Open, Proceed))
  {
  }

  lemma RecordOk(c: Chain, delegation: Attempt, row: Reclaim, status: AttemptStatus, evidence: Option<AttemptStatus>, at: Option<nat>)
    requires ReclaimOk(c, delegation, row) && RecordReclaim(row, status, evidence, at).Ok?
    requires status == Expired ==> row.txid.Some? && Dead(c, row.txid.value)
    requires status == Completed ==> row.txid.Some? && Final(c, row.txid.value, Succeeded)
    ensures var r := RecordReclaim(row, status, evidence, at).value;
      ReclaimOk(c, delegation, r) && Follows(row, r) && r.signed == row.signed
  {
  }

  lemma UpdateOk(owner: Address, c: Chain, s: Source, k: nat, r: Result<Reclaim, JournalError>)
    requires SourceOk(owner, c, s) && k < |s.reclaims|
    requires r.Ok? ==> ReclaimOk(c, s.delegation, r.value) && Follows(s.reclaims[k], r.value)
                       && r.value.signed == s.reclaims[k].signed
    ensures StepOk(owner, c, s, Update(s, k, r, None))
  {
    if r.Ok? { Replaced(owner, c, s, k, r.value); }
  }

  lemma RecordSeenOk(owner: Address, c: Chain, s: Source, k: nat, tx: Tx, seen: Observation)
    requires SourceOk(owner, c, s) && k < |s.reclaims| && s.reclaims[k].txid == Some(tx)
    requires DelegationSafety.Proved(c, tx, seen)
    ensures StepOk(owner, c, s, Update(s, k, RecordOutcome(s.reclaims[k], seen), None))
  {
    hide StepOk, SourceOk, Update, RecordReclaim, ReclaimOk, Follows;
    var r := RecordOutcome(s.reclaims[k], seen);
    ReclaimAt(owner, c, s, k);
    if r.Ok? {
      match seen {
        case SeenCompleted => RecordOk(c, s.delegation, s.reclaims[k], Completed, Some(Completed), None);
        case SeenFailed => RecordOk(c, s.delegation, s.reclaims[k], Failed, Some(Failed), None);
        case SeenAbsent(at) => RecordOk(c, s.delegation, s.reclaims[k], Expired, Some(Expired), Some(at));
        case _ => RecordOk(c, s.delegation, s.reclaims[k], Processing, None, None);
      }
    }
    UpdateOk(owner, c, s, k, r);
  }

  lemma ReclaimAt(owner: Address, c: Chain, s: Source, k: nat)
    requires SourceOk(owner, c, s) && k < |s.reclaims|
    ensures ReclaimOk(c, s.delegation, s.reclaims[k])
  {
  }

  lemma RecordBroadcastOk(owner: Address, c: Chain, s: Source, k: nat, accepted: bool)
    requires SourceOk(owner, c, s) && k < |s.reclaims|
    ensures StepOk(owner, c, s, Update(s, k, RecordReclaim(s.reclaims[k], if accepted then Accepted else Unknown, None, None), None))
  {
    hide StepOk, SourceOk, Update, RecordReclaim, ReclaimOk, Follows;
    var status := if accepted then Accepted else Unknown;
    ReclaimAt(owner, c, s, k);
    var r := RecordReclaim(s.reclaims[k], status, None, None);
    if r.Ok? { RecordOk(c, s.delegation, s.reclaims[k], status, None, None); }
    UpdateOk(owner, c, s, k, r);
  }

  lemma ClaimOk(owner: Address, c: Chain, wall: nat, s: Source, k: nat, tx: Tx, input: Input)
    requires SourceOk(owner, c, s) && k < |s.reclaims| && s.reclaims[k].signed == Some(tx)
    ensures StepOk(owner, c, s, Perform(owner, c, wall, s, Claim(k, tx), input))
  {
    ReclaimAt(owner, c, s, k);
    var claimed := ClaimReclaim(s.reclaims[k], tx, tx.expiration, false);
    if claimed.Ok? {
      Replaced(owner, c, s, k, claimed.value);
      hide SourceOk;
      assert Known(s.(reclaims := s.reclaims[k := claimed.value]), k, claimed.value);
    }
    Unchanged(owner, c, s);
  }

  lemma Unchanged(owner: Address, c: Chain, s: Source)
    requires SourceOk(owner, c, s)
    ensures SourceEvolves(s, s) && SameSigned(s, s)
  {
  }

  // The steps that only read.
  lemma ReadOk(owner: Address, c: Chain, wall: nat, s: Source, pc: Pc, input: Input)
    requires SourceOk(owner, c, s) && PcOk(c, s, pc) && InRange(s, pc)
    requires !pc.Open? && !pc.Claim? && !pc.RecordSeen? && !pc.RecordBroadcast?
    ensures StepOk(owner, c, s, Perform(owner, c, wall, s, pc, input))
  {
    Unchanged(owner, c, s);
    if !pc.Open? { ReclaimAt(owner, c, s, pc.k); }
    hide SourceOk, SourceEvolves, SameSigned;
  }

  lemma PerformOk(owner: Address, c: Chain, wall: nat, s: Source, pc: Pc, input: Input)
    requires SourceOk(owner, c, s) && PcOk(c, s, pc) && InRange(s, pc)
    ensures StepOk(owner, c, s, Perform(owner, c, wall, s, pc, input))
  {
    Unchanged(owner, c, s);
    hide SourceOk, SourceEvolves, SameSigned, ReclaimOk;
    if !input.Fail? {
      match pc
      case Open => OpenOk(owner, c, wall, s);
      case Claim(k, tx) => ClaimOk(owner, c, wall, s, k, tx, input);
      case RecordSeen(k, tx, seen) => RecordSeenOk(owner, c, s, k, tx, seen);
      case RecordBroadcast(k, accepted) => RecordBroadcastOk(owner, c, s, k, accepted);
      case _ => ReadOk(owner, c, wall, s, pc, input);
    }
  }

  // ---- stability under steps taken elsewhere ----

  lemma SourceStable(owner: Address, c: Chain, d: Chain, s: Source)
    requires SourceOk(owner, c, s) && ChainEvolves(c, d)
    ensures SourceOk(owner, d, s)
  {
  }

  lemma PcStable(c: Chain, d: Chain, a: Source, b: Source, pc: Pc)
    requires PcOk(c, a, pc) && ChainEvolves(c, d) && SourceEvolves(a, b)
    ensures PcOk(d, b, pc)
  {
  }

  // ---- the whole world ----

  predicate At(w: World, ref: (Id, nat)) { ref.0 in w.sources && ref.1 < |w.sources[ref.0].reclaims| }

  function RowAt(w: World, ref: (Id, nat)): Reclaim requires At(w, ref) { w.sources[ref.0].reclaims[ref.1] }

  ghost predicate SignaturesOk(w: World) {
    && (forall tx :: tx in w.signedBy ==> At(w, w.signedBy[tx]) && RowAt(w, w.signedBy[tx]).signed == Some(tx))
    && (forall o, k: nat :: At(w, (o, k)) && w.sources[o].reclaims[k].signed.Some? ==>
          w.sources[o].reclaims[k].signed.value in w.signedBy && w.signedBy[w.sources[o].reclaims[k].signed.value] == (o, k))
  }

  ghost predicate SentOk(w: World) {
    forall tx :: tx in w.chain.sent && tx.kind == Undelegate ==>
      tx in w.signedBy && At(w, w.signedBy[tx]) && RowAt(w, w.signedBy[tx]).txid == Some(tx)
  }

  // A finished delegation is the source of at most one reclaim.
  ghost predicate DelegatedOk(w: World) {
    && (forall o :: o in w.sources ==>
          var txid := w.sources[o].delegation.txid;
          txid.Some? && txid.value in w.delegatedBy && w.delegatedBy[txid.value] == o)
    && (forall tx :: tx in w.delegatedBy ==>
          w.delegatedBy[tx] in w.sources && w.sources[w.delegatedBy[tx]].delegation.txid == Some(tx))
  }

  ghost predicate ProcOk(w: World, proc: Proc) {
    proc.source in w.sources && PcOk(w.chain, w.sources[proc.source], proc.pc)
  }

  ghost predicate WorldOk(w: World) {
    && ChainOk(w.chain)
    && (forall o :: o in w.sources ==> SourceOk(w.owner, w.chain, w.sources[o]))
    && SignaturesOk(w)
    && SentOk(w)
    && DelegatedOk(w)
    && (forall p :: p in w.procs ==> ProcOk(w, w.procs[p]))
  }

  ghost predicate Evolves(w: World, v: World) {
    && v.owner == w.owner && ChainEvolves(w.chain, v.chain)
    && (forall o :: o in w.sources ==> o in v.sources && SourceEvolves(w.sources[o], v.sources[o]))
  }

  lemma SelfEvolves(s: Source)
    ensures SourceEvolves(s, s)
  {
  }

  lemma EvolvesSelf(w: World)
    requires ChainOk(w.chain)
    ensures Evolves(w, w)
  {
    hide SourceEvolves;
    DelegationSafety.SubmitEvolves(w.chain, Tx(Delegate, "", "", 0, 0, 0));
    assert Advance(w.chain, Solidify(w.chain.solid)) == w.chain;
    AdvanceEvolves(w.chain, Solidify(w.chain.solid));
    forall o | o in w.sources ensures SourceEvolves(w.sources[o], w.sources[o]) { SelfEvolves(w.sources[o]); }
  }

  // v is w with source o replaced by b and possibly more of the chain.
  ghost predicate Replaces(w: World, v: World, o: Id, b: Source) {
    && o in w.sources && SourceEvolves(w.sources[o], b)
    && v.owner == w.owner && v.sources == w.sources[o := b] && v.delegatedBy == w.delegatedBy
    && ChainEvolves(w.chain, v.chain)
  }

  lemma SourcesKept(w: World, v: World, o: Id, b: Source)
    requires WorldOk(w) && Replaces(w, v, o, b) && SourceOk(w.owner, w.chain, b)
    ensures forall p :: p in v.sources ==> SourceOk(v.owner, v.chain, v.sources[p])
    ensures Evolves(w, v) && DelegatedOk(v)
  {
    hide SourceOk, SignaturesOk, SentOk;
    forall p | p in v.sources ensures SourceOk(v.owner, v.chain, v.sources[p]) {
      SourceStable(w.owner, w.chain, v.chain, v.sources[p]);
    }
    forall p | p in w.sources ensures SourceEvolves(w.sources[p], v.sources[p]) { SelfEvolves(w.sources[p]); }
  }

  lemma SignaturesKept(w: World, v: World, o: Id, b: Source)
    requires SignaturesOk(w) && Replaces(w, v, o, b) && v.signedBy == w.signedBy && SameSigned(w.sources[o], b)
    ensures SignaturesOk(v)
  {
    forall tx | tx in v.signedBy ensures At(v, v.signedBy[tx]) && RowAt(v, v.signedBy[tx]).signed == Some(tx) {
      assert At(w, w.signedBy[tx]) && RowAt(w, w.signedBy[tx]).signed == Some(tx);
    }
    forall p, k: nat | At(v, (p, k)) && v.sources[p].reclaims[k].signed.Some?
      ensures v.sources[p].reclaims[k].signed.value in v.signedBy
           && v.signedBy[v.sources[p].reclaims[k].signed.value] == (p, k)
    {
      assert At(w, (p, k));
    }
  }

  lemma SentKept(w: World, v: World, o: Id, b: Source, added: set<Tx>)
    requires SignaturesOk(w) && SentOk(w) && Replaces(w, v, o, b)
    requires forall tx :: tx in w.signedBy ==> tx in v.signedBy && v.signedBy[tx] == w.signedBy[tx]
    requires v.chain.sent == w.chain.sent + added
    requires forall tx :: tx in added ==> tx in w.signedBy && At(w, w.signedBy[tx]) && RowAt(w, w.signedBy[tx]).txid == Some(tx)
    ensures SentOk(v)
  {
    forall tx | tx in v.chain.sent && tx.kind == Undelegate
      ensures tx in v.signedBy && At(v, v.signedBy[tx]) && RowAt(v, v.signedBy[tx]).txid == Some(tx)
    {
      var ref := w.signedBy[tx];
      assert At(w, ref) && RowAt(w, ref).txid == Some(tx);
      assert ref.0 == o ==> Follows(w.sources[o].reclaims[ref.1], b.reclaims[ref.1]);
    }
  }

  lemma ProcsKept(w: World, v: World, o: Id, b: Source, p: Pid)
    requires Replaces(w, v, o, b) && p in w.procs && ProcOk(w, w.procs[p])
    ensures ProcOk(v, w.procs[p])
  {
    var q := w.procs[p].source;
    SelfEvolves(w.sources[q]);
    hide PcOk, SourceEvolves;
    PcStable(w.chain, v.chain, w.sources[q], v.sources[q], w.procs[p].pc);
  }

  lemma BroadcastSent(w: World, proc: Proc)
    requires WorldOk(w) && ProcOk(w, proc) && proc.pc.Broadcast?
    ensures proc.pc.tx in w.signedBy && w.signedBy[proc.pc.tx] == (proc.source, proc.pc.k)
    ensures At(w, (proc.source, proc.pc.k)) && RowAt(w, (proc.source, proc.pc.k)).txid == Some(proc.pc.tx)
  {
    assert At(w, (proc.source, proc.pc.k));
    ReclaimAt(w.owner, w.chain, w.sources[proc.source], proc.pc.k);
  }

  lemma CommitOk(w: World, pid: Pid, e: Effect)
    requires WorldOk(w) && pid in w.procs && ProcOk(w, w.procs[pid])
    requires StepOk(w.owner, w.chain, w.sources[w.procs[pid].source], e)
    ensures WorldOk(Commit(w, pid, w.procs[pid], e)) && Evolves(w, Commit(w, pid, w.procs[pid], e))
  {
    hide SourceOk, SourceEvolves, PcOk, SameSigned;
    var proc := w.procs[pid];
    var v := Commit(w, pid, proc, e);
    EvolvesSelf(w);
    if proc.pc.Broadcast? {
      DelegationSafety.SubmitEvolves(w.chain, proc.pc.tx);
      BroadcastSent(w, proc);
    }
    assert Replaces(w, v, proc.source, e.source);
    SourcesKept(w, v, proc.source, e.source);
    SignaturesKept(w, v, proc.source, e.source);
    SentKept(w, v, proc.source, e.source, if proc.pc.Broadcast? then {proc.pc.tx} else {});
    CommitProcs(w, v, pid, e);
  }

  lemma CommitProcs(w: World, v: World, pid: Pid, e: Effect)
    requires pid in w.procs && (forall p :: p in w.procs ==> ProcOk(w, w.procs[p]))
    requires v == Commit(w, pid, w.procs[pid], e) && Replaces(w, v, w.procs[pid].source, e.source)
    requires e.next.Some? ==> PcOk(w.chain, e.source, e.next.value)
    ensures forall p :: p in v.procs ==> ProcOk(v, v.procs[p])
  {
    hide PcOk, SourceEvolves;
    SelfEvolves(e.source);
    if e.next.Some? { PcStable(w.chain, v.chain, e.source, e.source, e.next.value); }
    forall p | p in v.procs && p != pid ensures ProcOk(v, v.procs[p]) {
      ProcsKept(w, v, w.procs[pid].source, e.source, p);
    }
  }

  // ---- the signer ----

  lemma SignedRowOk(owner: Address, c: Chain, s: Source, k: nat, tx: Tx, now: nat, taken: bool)
    requires SourceOk(owner, c, s) && k < |s.reclaims| && SignReclaim(s, k, owner, tx, now, taken).Ok?
    ensures var row := SignReclaim(s, k, owner, tx, now, taken).value;
      var b := s.(reclaims := s.reclaims[k := row]);
      && row.signed == Some(tx) && SourceOk(owner, c, b) && SourceEvolves(s, b)
      && (s.reclaims[k].signed == Some(tx) || (s.reclaims[k].signed.None? && !taken))
  {
    ReclaimAt(owner, c, s, k);
  }

  lemma NewSignature(w: World, v: World, r: SignRequest, row: Reclaim)
    requires SignaturesOk(w) && At(w, (r.source, r.k)) && row.signed == Some(r.tx)
    requires RowAt(w, (r.source, r.k)).signed == Some(r.tx) || (RowAt(w, (r.source, r.k)).signed.None? && r.tx !in w.signedBy)
    requires v.sources == w.sources[r.source := w.sources[r.source].(reclaims := w.sources[r.source].reclaims[r.k := row])]
    requires v.signedBy == w.signedBy[r.tx := (r.source, r.k)]
    ensures SignaturesOk(v)
  {
    forall tx | tx in v.signedBy ensures At(v, v.signedBy[tx]) && RowAt(v, v.signedBy[tx]).signed == Some(tx) {
      if tx != r.tx { assert At(w, w.signedBy[tx]) && RowAt(w, w.signedBy[tx]).signed == Some(tx); }
    }
    forall p, k: nat | At(v, (p, k)) && v.sources[p].reclaims[k].signed.Some?
      ensures v.sources[p].reclaims[k].signed.value in v.signedBy
           && v.signedBy[v.sources[p].reclaims[k].signed.value] == (p, k)
    {
      assert At(w, (p, k));
    }
  }

  lemma SignatureAt(w: World, o: Id, k: nat)
    requires SignaturesOk(w) && At(w, (o, k)) && RowAt(w, (o, k)).signed.Some?
    ensures RowAt(w, (o, k)).signed.value in w.signedBy && w.signedBy[RowAt(w, (o, k)).signed.value] == (o, k)
  {
  }

  lemma SignCommitOk(w: World, r: SignRequest)
    requires WorldOk(w)
    ensures WorldOk(SignCommit(w, r)) && Evolves(w, SignCommit(w, r))
  {
    hide SourceOk, SourceEvolves, PcOk, SignaturesOk, SentOk, SignReclaim;
    var v := SignCommit(w, r);
    EvolvesSelf(w);
    if v != w {
      var s := w.sources[r.source];
      var row := SignReclaim(s, r.k, w.owner, r.tx, w.wall, r.tx in w.signedBy).value;
      assert At(w, (r.source, r.k));
      SignedRowOk(w.owner, w.chain, s, r.k, r.tx, w.wall, r.tx in w.signedBy);
      var b := s.(reclaims := s.reclaims[r.k := row]);
      if RowAt(w, (r.source, r.k)).signed.Some? { SignatureAt(w, r.source, r.k); }
      assert Replaces(w, v, r.source, b);
      SourcesKept(w, v, r.source, b);
      SentKept(w, v, r.source, b, {});
      forall p | p in v.procs ensures ProcOk(v, v.procs[p]) { ProcsKept(w, v, r.source, b, p); }
      NewSignature(w, v, r, row);
    }
  }

  // ---- the other events ----

  lemma ChainChanged(w: World, d: Chain)
    requires WorldOk(w) && ChainEvolves(w.chain, d)
    requires forall tx :: tx in d.sent && tx.kind == Undelegate ==> tx in w.chain.sent
    ensures WorldOk(w.(chain := d)) && Evolves(w, w.(chain := d))
  {
    hide SourceOk, SourceEvolves, PcOk, SignaturesOk;
    var v := w.(chain := d);
    assert SignaturesOk(v) by { SignaturesSame(w, v); }
    forall o | o in v.sources ensures SourceOk(v.owner, v.chain, v.sources[o]) && SourceEvolves(w.sources[o], v.sources[o]) {
      SourceStable(w.owner, w.chain, d, v.sources[o]);
      SelfEvolves(w.sources[o]);
    }
    forall p | p in v.procs ensures ProcOk(v, v.procs[p]) {
      var s := w.sources[w.procs[p].source];
      SelfEvolves(s);
      PcStable(w.chain, d, s, s, w.procs[p].pc);
    }
  }

  lemma SignaturesSame(w: World, v: World)
    requires SignaturesOk(w) && v.sources == w.sources && v.signedBy == w.signedBy
    ensures SignaturesOk(v)
  {
    assert forall ref: (Id, nat) :: At(v, ref) == At(w, ref);
  }

  lemma FinalizedOk(w: World, o: Id, delegation: Attempt)
    requires WorldOk(w)
    ensures WorldOk(Handle(w, Finalized(o, delegation))) && Evolves(w, Handle(w, Finalized(o, delegation)))
  {
    var v := Handle(w, Finalized(o, delegation));
    hide SourceEvolves, PcOk, DelegationSafety.RowOk, Handle, DelegatedOk, SourceOk, SignaturesOk, SentOk;
    EvolvesSelf(w);
    FinalizedIs(w, o, delegation);
    if v != w {
      FinalizedSource(w.owner, w.chain, delegation);
      FinalizedTables(w, v, o, delegation);
      FinalizedDelegated(w, v, o, delegation);
      forall p | p in w.sources ensures SourceEvolves(w.sources[p], v.sources[p]) { SelfEvolves(w.sources[p]); }
      forall p | p in v.procs ensures ProcOk(v, v.procs[p]) { assert ProcOk(w, w.procs[p]); }
    }
  }

  predicate Takes(w: World, v: World, o: Id, delegation: Attempt) {
    && o !in w.sources && delegation.txid.Some? && delegation.txid.value !in w.delegatedBy
    && v == w.(sources := w.sources[o := Source(delegation, [])], delegatedBy := w.delegatedBy[delegation.txid.value := o])
  }

  lemma FinalizedIs(w: World, o: Id, delegation: Attempt)
    ensures var v := Handle(w, Finalized(o, delegation));
      v == w || (Takes(w, v, o, delegation) && delegation.binding.Some? && delegation.status == Completed
                 && DelegationSafety.RowOk(w.owner, delegation.binding.value.receiver, w.chain, delegation))
  {
    hide DelegationSafety.RowOk;
  }

  lemma FinalizedSource(owner: Address, c: Chain, delegation: Attempt)
    requires delegation.binding.Some? && delegation.status == Completed && delegation.txid.Some?
    requires DelegationSafety.RowOk(owner, delegation.binding.value.receiver, c, delegation)
    ensures SourceOk(owner, c, Source(delegation, []))
  {
  }

  lemma FinalizedTables(w: World, v: World, o: Id, delegation: Attempt)
    requires SignaturesOk(w) && SentOk(w) && Takes(w, v, o, delegation)
    ensures SignaturesOk(v) && SentOk(v)
  {
    assert forall ref: (Id, nat) :: At(w, ref) ==> At(v, ref) && RowAt(v, ref) == RowAt(w, ref);
    forall p, k: nat | At(v, (p, k)) && v.sources[p].reclaims[k].signed.Some?
      ensures v.sources[p].reclaims[k].signed.value in v.signedBy
           && v.signedBy[v.sources[p].reclaims[k].signed.value] == (p, k)
    {
      assert At(w, (p, k));
    }
  }

  lemma FinalizedDelegated(w: World, v: World, o: Id, delegation: Attempt)
    requires DelegatedOk(w) && Takes(w, v, o, delegation)
    ensures DelegatedOk(v)
  {
  }

  lemma ProcsOnly(w: World, v: World)
    requires WorldOk(w) && v == w.(procs := v.procs, wall := v.wall)
    requires forall p :: p in v.procs ==> (p in w.procs && v.procs[p] == w.procs[p]) || ProcOk(w, v.procs[p])
    ensures WorldOk(v) && Evolves(w, v)
  {
    hide SourceOk, SourceEvolves, PcOk, SignaturesOk, SentOk;
    EvolvesSelf(w);
    assert SignaturesOk(v) by { SignaturesSame(w, v); }
    assert SentOk(v) by { assert SentOk(w); SentSame(w, v); }
    forall p | p in v.procs ensures ProcOk(v, v.procs[p]) {
      if p in w.procs { assert ProcOk(w, w.procs[p]); }
    }
  }

  lemma SentSame(w: World, v: World)
    requires SentOk(w) && v.sources == w.sources && v.signedBy == w.signedBy && v.chain == w.chain
    ensures SentOk(v)
  {
  }

  lemma HandleOk(w: World, e: Event)
    requires WorldOk(w)
    ensures WorldOk(Handle(w, e)) && Evolves(w, Handle(w, e))
  {
    hide SourceOk, SourceEvolves, PcOk, SignaturesOk, SentOk, Commit, Perform, SignCommit;
    EvolvesSelf(w);
    match e
    case Step(pid, input) =>
      if pid in w.procs && Handle(w, e) != w {
        assert ProcOk(w, w.procs[pid]);
        var s := w.sources[w.procs[pid].source];
        PerformOk(w.owner, w.chain, w.wall, s, w.procs[pid].pc, input);
        CommitOk(w, pid, Perform(w.owner, w.chain, w.wall, s, w.procs[pid].pc, input));
      }
    case Unacknowledged(pid, input) =>
      if pid in w.procs && Handle(w, e) != w {
        assert ProcOk(w, w.procs[pid]);
        var s := w.sources[w.procs[pid].source];
        PerformOk(w.owner, w.chain, w.wall, s, w.procs[pid].pc, input);
        CommitOk(w, pid, Perform(w.owner, w.chain, w.wall, s, w.procs[pid].pc, input).(next := None));
      }
    case SignerCommit(request) => SignCommitOk(w, request);
    case OnChain(change) =>
      AdvanceEvolves(w.chain, change);
      ChainChanged(w, Advance(w.chain, change));
    case Delegation(tx) =>
      if tx.kind == Delegate {
        DelegationSafety.SubmitEvolves(w.chain, tx);
        ChainChanged(w, Submit(w.chain, tx));
      }
    case Finalized(o, delegation) => FinalizedOk(w, o, delegation);
    case Begin(pid, o) => BeginOk(w, pid, o);
    case _ => ProcsOnly(w, Handle(w, e));
  }

  lemma BeginOk(w: World, pid: Pid, o: Id)
    requires WorldOk(w)
    ensures WorldOk(Handle(w, Begin(pid, o))) && Evolves(w, Handle(w, Begin(pid, o)))
  {
    hide WorldOk, Evolves;
    ProcsOnly(w, Handle(w, Begin(pid, o)));
  }

  lemma {:induction false} RunOk(w: World, events: seq<Event>)
    requires WorldOk(w)
    ensures WorldOk(Run(w, events)) && Run(w, events).owner == w.owner
    decreases |events|
  {
    if events != [] {
      HandleOk(w, events[0]);
      RunOk(Handle(w, events[0]), events[1..]);
    }
  }
}
