// The promises of the reclaim protocol over every run: one undelegation per finished delegation, for its exact
// terms, not before its time, so what is delegated never goes below zero.
module ReclaimTheorems {
  import opened Prelude
  import opened Chain
  import opened Attempts
  import DelegationSafety
  import opened ReclaimProtocol
  import opened ReclaimSafety
  import opened Sums

  lemma Reachable(owner: Address, events: seq<Event>)
    ensures WorldOk(Run(Initial(owner), events)) && Run(Initial(owner), events).owner == owner
  {
    RunOk(Initial(owner), events);
  }

  // The source whose reclaim row a transaction was signed for.
  predicate ReclaimFor(w: World, tx: Tx, o: Id) {
    tx in w.signedBy && w.signedBy[tx].0 == o && At(w, w.signedBy[tx]) && RowAt(w, w.signedBy[tx]).signed == Some(tx)
  }

  // An undelegation on the chain is the claimed transaction of the last reclaim row of its source.
  lemma IncludedReclaim(w: World, tx: Tx)
    requires WorldOk(w) && tx in w.chain.included && tx.kind == Undelegate
    ensures tx in w.signedBy && ReclaimFor(w, tx, w.signedBy[tx].0)
    ensures var (o, k) := w.signedBy[tx];
      && k == |w.sources[o].reclaims| - 1 && w.sources[o].reclaims[k].txid == Some(tx)
      && SourceOk(w.owner, w.chain, w.sources[o])
      && ReclaimOk(w.chain, w.sources[o].delegation, w.sources[o].reclaims[k])
  {
    assert tx in w.chain.sent;
    var (o, k) := w.signedBy[tx];
    assert At(w, (o, k)) && RowAt(w, (o, k)).txid == Some(tx);
    assert SourceOk(w.owner, w.chain, w.sources[o]);
    ReclaimAt(w.owner, w.chain, w.sources[o], k);
  }

  lemma OneHere(w: World, o: Id, first: Tx, second: Tx)
    requires WorldOk(w) && first in w.chain.included && second in w.chain.included
    requires first.kind == Undelegate && second.kind == Undelegate
    requires ReclaimFor(w, first, o) && ReclaimFor(w, second, o)
    ensures first == second
  {
    hide WorldOk, SourceOk, ReclaimOk;
    IncludedReclaim(w, first);
    IncludedReclaim(w, second);
  }

  // In every run, at most one undelegation of a source is ever on the chain, whatever crashed and whatever was retried.
  lemma AtMostOneReclaimLands(owner: Address, events: seq<Event>, o: Id, first: Tx, second: Tx)
    requires var w := Run(Initial(owner), events);
      && first in w.chain.included && second in w.chain.included
      && first.kind == Undelegate && second.kind == Undelegate
      && ReclaimFor(w, first, o) && ReclaimFor(w, second, o)
    ensures first == second
  {
    Reachable(owner, events);
    OneHere(Run(Initial(owner), events), o, first, second);
  }

  // The unique index on txid never refuses a claim: what is signed for one reclaim row is claimed by no other.
  lemma ClaimsNeverClash(owner: Address, events: seq<Event>, a: (Id, nat), b: (Id, nat), tx: Tx)
    requires var w := Run(Initial(owner), events); At(w, a) && At(w, b)
    requires var w := Run(Initial(owner), events); RowAt(w, a).signed == Some(tx) && RowAt(w, b).txid == Some(tx)
    ensures a == b
  {
    hide Run, SourceOk;
    var w := Run(Initial(owner), events);
    Reachable(owner, events);
    assert SourceOk(w.owner, w.chain, w.sources[b.0]);
    ReclaimAt(w.owner, w.chain, w.sources[b.0], b.1);
    SignedHere(w, a, tx);
    SignedHere(w, b, tx);
  }

  lemma SignedHere(w: World, ref: (Id, nat), tx: Tx)
    requires WorldOk(w) && At(w, ref) && RowAt(w, ref).signed == Some(tx)
    ensures tx in w.signedBy && w.signedBy[tx] == ref
  {
    hide SourceOk, SentOk, DelegatedOk, PcOk;
    assert At(w, (ref.0, ref.1)) && w.sources[ref.0].reclaims[ref.1].signed.Some?;
  }

  // The delegation a source stands for succeeded, in a solidified block.
  lemma SourceDelegated(w: World, o: Id)
    requires WorldOk(w) && o in w.sources
    ensures var d := w.sources[o].delegation;
      && d.txid.Some? && d.txid.value.kind == Delegate && Final(w.chain, d.txid.value, Succeeded)
      && d.binding == Some(BindingOf(d.txid.value)) && d.txid.value.owner == w.owner
      && d.txid.value in w.delegatedBy && w.delegatedBy[d.txid.value] == o
  {
    assert SourceOk(w.owner, w.chain, w.sources[o]) && DelegatedOk(w);
  }

  // Every undelegation on the chain undoes one successful delegation on the chain: the same owner, receiver and balance.
  lemma ReclaimsWhatWasDelegated(owner: Address, events: seq<Event>, tx: Tx) returns (source: Tx)
    requires var w := Run(Initial(owner), events); tx in w.chain.included && tx.kind == Undelegate
    ensures var w := Run(Initial(owner), events);
      && source.kind == Delegate && Final(w.chain, source, Succeeded)
      && tx.owner == source.owner == owner && tx.receiver == source.receiver && tx.balance == source.balance
      && source in w.delegatedBy && ReclaimFor(w, tx, w.delegatedBy[source])
  {
    var w := Run(Initial(owner), events);
    Reachable(owner, events);
    IncludedReclaim(w, tx);
    SourceDelegated(w, w.signedBy[tx].0);
    source := w.sources[w.signedBy[tx].0].delegation.txid.value;
  }

  // Nothing is signed sooner than one hour after the broadcast of the delegation was accepted, or after its
  // finality when no acceptance was recorded, and never before its finality.
  lemma NoEarlyReclaim(owner: Address, events: seq<Event>, ref: (Id, nat))
    requires var w := Run(Initial(owner), events); At(w, ref) && RowAt(w, ref).signed.Some?
    ensures var w := Run(Initial(owner), events); var d := w.sources[ref.0].delegation;
      && RowAt(w, ref).signedAt.Some? && d.finalizedAt.Some?
      && RowAt(w, ref).signedAt.value >= d.finalizedAt.value
      && RowAt(w, ref).signedAt.value >=
           RECLAIM_DELAY_MS + (if d.acceptedAt.Some? then d.acceptedAt.value else d.finalizedAt.value)
  {
    var w := Run(Initial(owner), events);
    Reachable(owner, events);
    assert SourceOk(w.owner, w.chain, w.sources[ref.0]);
    ReclaimAt(w.owner, w.chain, w.sources[ref.0], ref.1);
  }

  // The event that signs a reclaim transaction happens at the time its row then carries.
  lemma SigningIsLate(w: World, e: Event, tx: Tx)
    requires WorldOk(w) && tx !in w.signedBy && tx in Handle(w, e).signedBy
    ensures var v := Handle(w, e); var ref := v.signedBy[tx];
      && At(v, ref) && RowAt(v, ref).signed == Some(tx)
      && v.sources[ref.0].delegation.eligibleAt.Some? && v.sources[ref.0].delegation.eligibleAt.value <= w.wall
  {
    hide WorldOk, Perform, Advance, DelegationSafety.RowOk;
    assert e.SignerCommit?;
  }

  // ---- attempts are made when they are due ----

  predicate MadeWhenDue(s: Source, wall: nat) {
    s.reclaims != [] ==> s.delegation.eligibleAt.Some? && s.delegation.eligibleAt.value <= wall
  }

  lemma PerformWhenDue(owner: Address, c: Chain, wall: nat, s: Source, pc: Pc, input: Input)
    requires InRange(s, pc) && MadeWhenDue(s, wall)
    ensures MadeWhenDue(Perform(owner, c, wall, s, pc, input).source, wall)
  {
    hide RecordReclaim, ClaimReclaim;
  }

  lemma EventWhenDue(w: World, e: Event, o: Id)
    requires (o in w.sources ==> MadeWhenDue(w.sources[o], w.wall)) && o in Handle(w, e).sources
    ensures MadeWhenDue(Handle(w, e).sources[o], Handle(w, e).wall)
  {
    hide Perform, SignReclaim, Advance, DelegationSafety.RowOk;
    if (e.Step? || e.Unacknowledged?) && e.pid in w.procs && w.procs[e.pid].source == o && o in w.sources
       && InRange(w.sources[o], w.procs[e.pid].pc)
    {
      PerformWhenDue(w.owner, w.chain, w.wall, w.sources[o], w.procs[e.pid].pc, e.input);
    }
  }

  lemma {:induction false} RunWhenDue(w: World, events: seq<Event>)
    requires forall o :: o in w.sources ==> MadeWhenDue(w.sources[o], w.wall)
    ensures forall o :: o in Run(w, events).sources ==> MadeWhenDue(Run(w, events).sources[o], Run(w, events).wall)
    decreases |events|
  {
    hide Handle, MadeWhenDue;
    if events != [] {
      var v := Handle(w, events[0]);
      forall o | o in v.sources ensures MadeWhenDue(v.sources[o], v.wall) { EventWhenDue(w, events[0], o); }
      RunWhenDue(v, events[1..]);
    }
  }

  // In every run a delegation has reclaim attempts only when it is due to be taken back.
  lemma AttemptsAreDue(owner: Address, events: seq<Event>, o: Id)
    requires o in Run(Initial(owner), events).sources
    ensures MadeWhenDue(Run(Initial(owner), events).sources[o], Run(Initial(owner), events).wall)
  {
    hide Run;
    RunWhenDue(Initial(owner), events);
  }

  // The signer may store the transaction of a request: it was asked to, for a created, unsigned attempt on a delegation that
  // is finished and due, and the transaction takes back just what was delegated, before it expires.
  predicate MaySign(w: World, r: SignRequest) {
    && r in w.requests && At(w, (r.source, r.k))
    && r.tx.kind == Undelegate && r.tx.owner == w.owner && r.tx.balance > 0 && w.wall < r.tx.expiration
    && RowAt(w, (r.source, r.k)).status == Created && RowAt(w, (r.source, r.k)).signed.None?
    && var d := w.sources[r.source].delegation;
      && d.status == Completed && d.finalizedAt.Some? && d.eligibleAt.Some? && d.eligibleAt.value <= w.wall
      && d.binding.Some? && d.binding.value.owner == r.tx.owner && d.binding.value.receiver == r.tx.receiver
      && d.binding.value.balance == r.tx.balance
  }

  // A transaction not signed before is signed by an event exactly if that is the commit of a request the signer may serve.
  lemma SignsExactly(w: World, e: Event, tx: Tx)
    requires WorldOk(w) && tx !in w.signedBy
    ensures tx in Handle(w, e).signedBy <==> e.SignerCommit? && e.request.tx == tx && MaySign(w, e.request)
    ensures tx in Handle(w, e).signedBy ==>
      var ref := Handle(w, e).signedBy[tx];
      ref == (e.request.source, e.request.k) && At(Handle(w, e), ref) && RowAt(Handle(w, e), ref).signed == Some(tx)
  {
    hide Perform, Advance, DelegationSafety.RowOk, SourceOk, SentOk, PcOk;
    if e.SignerCommit? && At(w, (e.request.source, e.request.k)) && RowAt(w, (e.request.source, e.request.k)).signed.Some? {
      SignatureAt(w, e.request.source, e.request.k);
    }
    hide WorldOk;
  }

  // ---- conservation ----

  predicate Landed(c: Chain, kind: Kind, receiver: Address, tx: Tx) {
    tx in c.included && c.included[tx].outcome == Succeeded && tx.kind == kind && tx.receiver == receiver
  }

  ghost function LandedBalances(c: Chain, kind: Kind, receiver: Address): map<Tx, int> {
    map tx | tx in c.included && Landed(c, kind, receiver, tx) :: tx.balance
  }

  // What a receiver still holds: everything delegated to it on the chain, less everything taken back.
  ghost function Outstanding(c: Chain, receiver: Address): int {
    Total(LandedBalances(c, Delegate, receiver)) - Total(LandedBalances(c, Undelegate, receiver))
  }

  ghost function SourceOf(w: World, receiver: Address): map<Tx, Tx>
    requires WorldOk(w)
  {
    map tx | tx in w.chain.included && Landed(w.chain, Undelegate, receiver, tx) :: SourceTx(w, tx)
  }

  ghost function SourceTx(w: World, tx: Tx): Tx
    requires WorldOk(w) && tx in w.chain.included && tx.kind == Undelegate
  {
    IncludedReclaim(w, tx);
    SourceDelegated(w, w.signedBy[tx].0);
    w.sources[w.signedBy[tx].0].delegation.txid.value
  }

  lemma SourceTxOk(w: World, tx: Tx)
    requires WorldOk(w) && tx in w.chain.included && tx.kind == Undelegate
    ensures var source := SourceTx(w, tx);
      && source.kind == Delegate && Final(w.chain, source, Succeeded)
      && source.receiver == tx.receiver && source.balance == tx.balance
      && tx in w.signedBy && source in w.delegatedBy && ReclaimFor(w, tx, w.delegatedBy[source])
  {
    IncludedReclaim(w, tx);
    SourceDelegated(w, w.signedBy[tx].0);
  }

  // In every reachable state no receiver has had more taken back than it was delegated.
  lemma OutstandingNeverNegative(owner: Address, events: seq<Event>, receiver: Address)
    ensures Outstanding(Run(Initial(owner), events).chain, receiver) >= 0
  {
    var w := Run(Initial(owner), events);
    Reachable(owner, events);
    hide WorldOk, Run, SourceTx, Final, ReclaimFor;
    var taken, given, place := LandedBalances(w.chain, Undelegate, receiver), LandedBalances(w.chain, Delegate, receiver), SourceOf(w, receiver);
    forall tx | tx in taken ensures place[tx] in given && taken[tx] == given[place[tx]] {
      SourceTxOk(w, tx);
      FinalIncluded(w.chain, place[tx]);
    }
    forall first, second | first in taken && second in taken && first != second ensures place[first] != place[second] {
      if place[first] == place[second] {
        SourceTxOk(w, first);
        SourceTxOk(w, second);
        OneHere(w, w.delegatedBy[place[first]], first, second);
      }
    }
    TotalInjection(taken, given, place);
  }

  lemma FinalIncluded(c: Chain, tx: Tx)
    requires Final(c, tx, Succeeded)
    ensures tx in c.included && c.included[tx].outcome == Succeeded
  {
  }
}
