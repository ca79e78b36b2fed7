// What the delegation protocol finishes is what the reclaim protocol starts from: every completed attempt row is taken up.
module DelegationHandover {
  import opened Prelude
  import opened Chain
  import opened Attempts
  import D = DelegationProtocol
  import DelegationSafety
  import DelegationTheorems
  import DelegationTimes
  import R = ReclaimProtocol
  import ReclaimSafety
  import ReclaimTheorems

  type Ref = (D.Id, nat)

  // Every source of r stands for an attempt row of d, as rowOf says.
  ghost predicate StandsFor(d: D.World, r: R.World, rowOf: map<R.Id, Ref>) {
    forall s :: s in r.sources ==>
      s in rowOf && DelegationSafety.At(d, rowOf[s]) && r.sources[s].delegation == DelegationSafety.RowAt(d, rowOf[s])
  }

  // Every completed row of a reachable delegation state that is no source yet becomes one, in any reachable reclaim state of
  // the same owner on the same or a later chain: it has all that the reclaim protocol assumes of it, its times included,
  // and no other row has its transaction.
  lemma CompletedRowsAreTakenUp(owner: Address, delegating: seq<D.Event>, reclaiming: seq<R.Event>, rowOf: map<R.Id, Ref>,
    ref: Ref, s: R.Id)
    requires var d := D.Run(D.Initial(owner), delegating); var r := R.Run(R.Initial(owner), reclaiming);
      && ChainEvolves(d.chain, r.chain) && StandsFor(d, r, rowOf)
      && DelegationSafety.At(d, ref) && DelegationSafety.RowAt(d, ref).status == Completed
      && s !in r.sources && forall q :: q in r.sources ==> rowOf[q] != ref
    ensures var d := D.Run(D.Initial(owner), delegating); var r := R.Run(R.Initial(owner), reclaiming);
      var row := DelegationSafety.RowAt(d, ref); var v := R.Handle(r, R.Finalized(s, row));
      v.sources == r.sources[s := R.Source(row, [])] && StandsFor(d, v, rowOf[s := ref])
  {
    hide *;
    var d, r := D.Run(D.Initial(owner), delegating), R.Run(R.Initial(owner), reclaiming);
    DelegationTheorems.Reachable(owner, delegating);
    DelegationTheorems.RunOwner(D.Initial(owner), delegating);
    ReclaimTheorems.Reachable(owner, reclaiming);
    InitialOwner(owner);
    CompletedRow(d, r.chain, ref);
    NotYetTaken(d, r, rowOf, ref);
    Taken(r, s, DelegationSafety.RowAt(d, ref));
    StandsForMore(d, r, R.Handle(r, R.Finalized(s, DelegationSafety.RowAt(d, ref))), rowOf, ref, s);
  }

  lemma InitialOwner(owner: Address)
    ensures D.Initial(owner).owner == owner
  {
  }

  lemma CompletedRow(d: D.World, later: Chain, ref: Ref)
    requires DelegationSafety.WorldOk(d) && DelegationSafety.At(d, ref) && DelegationSafety.RowAt(d, ref).status == Completed
    requires ChainEvolves(d.chain, later)
    ensures var row := DelegationSafety.RowAt(d, ref);
      && row.txid.Some? && row.signed == row.txid && row.binding.Some?
      && DelegationSafety.RowOk(d.owner, row.binding.value.receiver, later, row)
  {
    assert DelegationSafety.OrderOk(d.owner, d.chain, d.orders[ref.0]);
    DelegationSafety.RowKnown(d.owner, d.chain, d.orders[ref.0], ref.1);
    hide DelegationSafety.WorldOk, DelegationSafety.OrderOk;
  }

  lemma NotYetTaken(d: D.World, r: R.World, rowOf: map<R.Id, Ref>, ref: Ref)
    requires DelegationSafety.WorldOk(d) && ReclaimSafety.WorldOk(r) && StandsFor(d, r, rowOf)
    requires DelegationSafety.At(d, ref) && DelegationSafety.RowAt(d, ref).txid.Some?
    requires DelegationSafety.RowAt(d, ref).signed == DelegationSafety.RowAt(d, ref).txid
    requires forall q :: q in r.sources ==> rowOf[q] != ref
    ensures DelegationSafety.RowAt(d, ref).txid.value !in r.delegatedBy
  {
    var tx := DelegationSafety.RowAt(d, ref).txid.value;
    if tx in r.delegatedBy {
      Delegated(r, tx);
      hide DelegationSafety.WorldOk, ReclaimSafety.WorldOk;
      DelegationTheorems.ClaimIsHere(d, ref, rowOf[r.delegatedBy[tx]], tx);
      assert false;
    }
  }

  lemma Delegated(r: R.World, tx: Tx)
    requires ReclaimSafety.WorldOk(r) && tx in r.delegatedBy
    ensures r.delegatedBy[tx] in r.sources && r.sources[r.delegatedBy[tx]].delegation.txid == Some(tx)
  {
  }

  lemma Taken(r: R.World, s: R.Id, row: Attempt)
    requires s !in r.sources && row.status == Completed && row.binding.Some? && row.txid.Some?
    requires DelegationSafety.RowOk(r.owner, row.binding.value.receiver, r.chain, row) && row.txid.value !in r.delegatedBy
    ensures R.Handle(r, R.Finalized(s, row)).sources == r.sources[s := R.Source(row, [])]
  {
    hide DelegationSafety.RowOk;
  }

  lemma StandsForMore(d: D.World, r: R.World, v: R.World, rowOf: map<R.Id, Ref>, ref: Ref, s: R.Id)
    requires StandsFor(d, r, rowOf) && DelegationSafety.At(d, ref) && s !in r.sources
    requires v.sources == r.sources[s := R.Source(DelegationSafety.RowAt(d, ref), [])]
    ensures StandsFor(d, v, rowOf[s := ref])
  {
  }

  // No undelegation is signed sooner than an hour after the delegation's broadcast was first recorded as accepted, or after
  // its completion was first recorded if that never was, and never before that completion: in wall time of the events that
  // recorded and signed, over any run of either protocol.
  lemma ReclaimedAnHourLater(owner: Address, delegating: seq<D.Event>, reclaiming: seq<R.Event>, signing: R.Event,
    rowOf: map<R.Id, Ref>, tx: Tx) returns (i: nat, finality: nat)
    requires var d := D.Run(D.Initial(owner), delegating); var r := R.Run(R.Initial(owner), reclaiming);
      && tx !in r.signedBy && tx in R.Handle(r, signing).signedBy && StandsFor(d, R.Handle(r, signing), rowOf)
      && R.Handle(r, signing).signedBy[tx].0 in R.Handle(r, signing).sources
    ensures var r := R.Run(R.Initial(owner), reclaiming); var ref := rowOf[R.Handle(r, signing).signedBy[tx].0];
      && DelegationTimes.FirstAt(owner, delegating, ref, DelegationTimes.Finality, i, finality) && finality <= r.wall
      && (forall j: nat, t: nat :: DelegationTimes.FirstAt(owner, delegating, ref, DelegationTimes.Acceptance, j, t) ==> t + 3_600_000 <= r.wall)
      && ((forall j: nat, t: nat :: !DelegationTimes.FirstAt(owner, delegating, ref, DelegationTimes.Acceptance, j, t)) ==>
            finality + 3_600_000 <= r.wall)
  {
    hide *;
    hide R.Handle;
    var d, r := D.Run(D.Initial(owner), delegating), R.Run(R.Initial(owner), reclaiming);
    var v := R.Handle(r, signing);
    var s := v.signedBy[tx].0;
    ReclaimTheorems.Reachable(owner, reclaiming);
    ReclaimTheorems.SigningIsLate(r, signing, tx);
    ReclaimSafety.HandleOk(r, signing);
    SourceCompleted(v, s);
    SourceStandsFor(d, v, rowOf, s);
    i, finality := DelegationTimes.EligibilityIs(owner, delegating, rowOf[s]);
  }

  lemma SourceCompleted(r: R.World, s: R.Id)
    requires ReclaimSafety.WorldOk(r) && s in r.sources
    ensures r.sources[s].delegation.status == Completed
  {
    assert ReclaimSafety.SourceOk(r.owner, r.chain, r.sources[s]);
  }

  lemma SourceStandsFor(d: D.World, r: R.World, rowOf: map<R.Id, Ref>, s: R.Id)
    requires StandsFor(d, r, rowOf) && s in r.sources
    ensures s in rowOf && DelegationSafety.At(d, rowOf[s]) && r.sources[s].delegation == DelegationSafety.RowAt(d, rowOf[s])
  {
  }
}
