// The promises of the delegation protocol, over every run.
module DelegationTheorems {
  import opened Prelude
  import opened Chain
  import opened EnergyOrders
  import opened Attempts
  import opened DelegationProtocol
  import opened DelegationSafety

  lemma Reachable(owner: Address, events: seq<Event>)
    ensures WorldOk(Run(Initial(owner), events))
  {
    RunOk(Initial(owner), events);
  }

  // The order a transaction was signed for.
  predicate SignedFor(w: World, tx: Tx, o: Id) { tx in w.signedBy && w.signedBy[tx].0 == o }

  lemma SentRow(w: World, tx: Tx)
    requires WorldOk(w) && tx in w.chain.sent
    ensures tx in w.signedBy && At(w, w.signedBy[tx])
    ensures var o := w.signedBy[tx].0; var row := RowAt(w, w.signedBy[tx]);
      && row.txid == Some(tx) && row.signed == Some(tx) && row.binding == Some(BindingOf(tx))
      && tx.kind == Delegate && tx.owner == w.owner && tx.receiver == w.orders[o].recipient
      && (tx in w.chain.included ==> w.signedBy[tx].1 == |w.orders[o].attempts| - 1)
  {
    var ref := w.signedBy[tx];
    assert At(w, ref) && RowAt(w, ref).txid == Some(tx);
    assert RowOk(w.owner, w.orders[ref.0].recipient, w.chain, w.orders[ref.0].attempts[ref.1]);
    assert ref.1 < |w.orders[ref.0].attempts| - 1 ==> w.orders[ref.0].attempts[ref.1].status == Expired;
  }

  // Only transactions the signer bound to one attempt ever reach a node, and what they delegate is that
  // attempt's binding: from the pool's owner, to the order's own recipient.
  lemma OnlyBoundTransactionsAreSent(owner: Address, events: seq<Event>, tx: Tx)
    requires tx in Run(Initial(owner), events).chain.sent
    ensures var w := Run(Initial(owner), events);
      && tx in w.signedBy && At(w, w.signedBy[tx])
      && RowAt(w, w.signedBy[tx]).txid == Some(tx)
      && RowAt(w, w.signedBy[tx]).binding == Some(Binding(owner, w.orders[w.signedBy[tx].0].recipient, tx.balance))
  {
    RunOwner(Initial(owner), events);
    Reachable(owner, events);
    SentRow(Run(Initial(owner), events), tx);
  }

  lemma {:induction false} RunOwner(w: World, events: seq<Event>)
    ensures Run(w, events).owner == w.owner
    decreases |events|
  {
    if events != [] { RunOwner(Handle(w, events[0]), events[1..]); }
  }

  // At most one delegation per order is on the chain, whatever the interleaving, the crashes and the forks.
  lemma AtMostOneLands(owner: Address, events: seq<Event>, o: Id, a: Tx, b: Tx)
    requires var w := Run(Initial(owner), events);
      && a in w.chain.included && SignedFor(w, a, o)
      && b in w.chain.included && SignedFor(w, b, o)
    ensures a == b
  {
    hide WorldOk, Run;
    var w := Run(Initial(owner), events);
    Reachable(owner, events);
    IncludedRow(w, a);
    IncludedRow(w, b);
  }

  // What is on the chain is the claimed transaction of the last attempt of its order.
  lemma IncludedRow(w: World, tx: Tx)
    requires WorldOk(w) && tx in w.chain.included
    ensures tx in w.signedBy && At(w, w.signedBy[tx]) && RowAt(w, w.signedBy[tx]).txid == Some(tx)
    ensures w.signedBy[tx].1 == |w.orders[w.signedBy[tx].0].attempts| - 1
  {
    assert tx in w.chain.sent by { hide OrderOk, SignaturesOk, SentOk, PcOk; }
    SentRow(w, tx);
  }

  // A completed order has exactly one delegation, solidified and successful, and it went to the order's recipient.
  lemma CompletedMeansDeliveredOnce(owner: Address, events: seq<Event>, o: Id) returns (tx: Tx)
    requires var w := Run(Initial(owner), events); o in w.orders && w.orders[o].state == OCompleted
    ensures var w := Run(Initial(owner), events);
      && SignedFor(w, tx, o) && Final(w.chain, tx, Succeeded)
      && tx.kind == Delegate && tx.owner == owner && tx.receiver == w.orders[o].recipient
      && forall other :: other in w.chain.included && SignedFor(w, other, o) ==> other == tx
  {
    hide WorldOk, Run, OrderOk;
    var w := Run(Initial(owner), events);
    Reachable(owner, events);
    RunOwner(Initial(owner), events);
    tx := CompletedRow(w, o);
    assert w.orders[o].attempts != [] && Last(w.orders[o]).txid == Some(tx);
    forall other | other in w.chain.included && SignedFor(w, other, o) ensures other == tx { IncludedRow(w, other); }
  }

  lemma CompletedRow(w: World, o: Id) returns (tx: Tx)
    requires WorldOk(w) && o in w.orders && w.orders[o].state == OCompleted
    ensures SignedFor(w, tx, o) && Final(w.chain, tx, Succeeded)
    ensures tx.kind == Delegate && tx.owner == w.owner && tx.receiver == w.orders[o].recipient
    ensures w.orders[o].attempts != [] && Last(w.orders[o]).txid == Some(tx)
  {
    hide SentOk, PcOk;
    var ord := w.orders[o];
    assert OrderOk(w.owner, w.chain, ord) && Ended(ord, Completed);
    var k := |ord.attempts| - 1;
    assert At(w, (o, k));
    RowKnown(w.owner, w.chain, ord, k);
    tx := ord.attempts[k].txid.value;
    SignatureAt(w, o, k);
  }

  // What is written to an attempt row stays: binding, signed transaction, claimed txid, terminal status.
  lemma {:induction false} RowsAreWriteOnce(w: World, events: seq<Event>, ref: (Id, nat))
    requires WorldOk(w) && At(w, ref)
    ensures At(Run(w, events), ref) && Follows(RowAt(w, ref), RowAt(Run(w, events), ref))
    decreases |events|
  {
    if events != [] {
      var v := Handle(w, events[0]);
      HandleOk(w, events[0]);
      assert OrderEvolves(w.orders[ref.0], v.orders[ref.0]);
      RowsAreWriteOnce(v, events[1..], ref);
    }
  }

  // Over any interleaving of sign calls one attempt key has at most one signed transaction for ever.
  lemma OneSignaturePerAttempt(owner: Address, events: seq<Event>, more: seq<Event>, ref: (Id, nat), tx: Tx)
    requires var w := Run(Initial(owner), events); At(w, ref) && RowAt(w, ref).signed == Some(tx)
    ensures var v := Run(Run(Initial(owner), events), more);
      && At(v, ref) && RowAt(v, ref).signed == Some(tx)
      && forall other: Tx :: SignedFor(v, other, ref.0) && v.signedBy[other].1 == ref.1 ==> other == tx
  {
    var w := Run(Initial(owner), events);
    Reachable(owner, events);
    RowsAreWriteOnce(w, more, ref);
    RunOk(w, more);
  }

  lemma {:induction false} DeadInEveryRun(w: World, events: seq<Event>, tx: Tx)
    requires WorldOk(w) && Dead(w.chain, tx)
    ensures tx !in Run(w, events).chain.included
    decreases |events|
  {
    if events != [] {
      HandleOk(w, events[0]);
      DeadInEveryRun(Handle(w, events[0]), events[1..], tx);
    }
  }

  // Attempt n + 1 exists only when attempts 1 to n are expired with transactions that are off the chain for ever.
  lemma ReplacedAttemptsAreDead(owner: Address, events: seq<Event>, more: seq<Event>, o: Id, k: nat)
    requires var w := Run(Initial(owner), events); o in w.orders && k + 1 < |w.orders[o].attempts|
    ensures var w := Run(Initial(owner), events); var row := w.orders[o].attempts[k];
      && row.status == Expired && row.txid.Some?
      && row.txid.value !in Run(w, more).chain.included
  {
    var w := Run(Initial(owner), events);
    Reachable(owner, events);
    var row := w.orders[o].attempts[k];
    assert OrderOk(w.owner, w.chain, w.orders[o]);
    assert RowOk(w.owner, w.orders[o].recipient, w.chain, row);
    DeadInEveryRun(w, more, row.txid.value);
  }

  // The unique index on txid never refuses a claim: the transaction signed for one attempt is claimed by no other.
  lemma ClaimsNeverClash(owner: Address, events: seq<Event>, a: (Id, nat), b: (Id, nat), tx: Tx)
    requires var w := Run(Initial(owner), events); At(w, a) && At(w, b)
    requires var w := Run(Initial(owner), events); RowAt(w, a).signed == Some(tx) && RowAt(w, b).txid == Some(tx)
    ensures a == b
  {
    hide WorldOk, Run;
    Reachable(owner, events);
    ClaimIsHere(Run(Initial(owner), events), a, b, tx);
  }

  lemma ClaimIsHere(w: World, a: (Id, nat), b: (Id, nat), tx: Tx)
    requires WorldOk(w) && At(w, a) && At(w, b) && RowAt(w, a).signed == Some(tx) && RowAt(w, b).txid == Some(tx)
    ensures a == b
  {
    hide SentOk, PcOk, OrderOk;
    assert OrderOk(w.owner, w.chain, w.orders[b.0]);
    RowKnown(w.owner, w.chain, w.orders[b.0], b.1);
    SignatureAt(w, a.0, a.1);
    SignatureAt(w, b.0, b.1);
  }

  // Nor does the unique index on a delivery's provider order id: two orders never carry the same one.
  lemma ProviderOrderIdsNeverClash(owner: Address, events: seq<Event>, a: Id, b: Id, tx: Tx)
    requires var w := Run(Initial(owner), events); a in w.orders && b in w.orders
    requires var w := Run(Initial(owner), events);
      && w.orders[a].delivery.Some? && w.orders[a].delivery.value.providerOrderId == Some(tx)
      && w.orders[b].delivery.Some? && w.orders[b].delivery.value.providerOrderId == Some(tx)
    ensures a == b
  {
    hide WorldOk, Run;
    Reachable(owner, events);
    var w := Run(Initial(owner), events);
    var j := ClaimOf(w, a, tx);
    var k := ClaimOf(w, b, tx);
    ClaimIsHere(w, (a, j), (b, k), tx);
  }

  lemma ClaimOf(w: World, o: Id, tx: Tx) returns (k: nat)
    requires WorldOk(w) && o in w.orders && w.orders[o].delivery.Some? && w.orders[o].delivery.value.providerOrderId == Some(tx)
    ensures At(w, (o, k)) && RowAt(w, (o, k)).txid == Some(tx) && RowAt(w, (o, k)).signed == Some(tx)
  {
    hide SentOk, PcOk, SignaturesOk;
    assert OrderOk(w.owner, w.chain, w.orders[o]) && IdKnown(w.orders[o], Some(tx));
    k :| 0 <= k < |w.orders[o].attempts| && w.orders[o].attempts[k].txid == Some(tx);
    RowKnown(w.owner, w.chain, w.orders[o], k);
  }

  // transitionAllowed has no signed -> completed: which rows take a completion. DelegationStuck has what follows from it.
  lemma SignedRefusesCompletion(row: Attempt, now: nat)
    requires row.binding.Some?
    ensures RecordState(row, StateReport(Completed, false, false, None), now).Ok?
        <==> row.status in {Accepted, Processing, Unknown, Completed}
  {
  }

  // The signer may store the transaction of a request: it was asked to, for an attempt that is created, unsigned and bound
  // to just what the transaction delegates, from the pool, of at least one TRX, before the transaction expires.
  predicate MaySign(w: World, r: SignRequest) {
    && r in w.requests && At(w, (r.order, r.k))
    && r.tx.kind == Delegate && r.tx.owner == w.owner && r.tx.balance >= 1_000_000 && w.wall < r.tx.expiration
    && var row := RowAt(w, (r.order, r.k));
      && row.status == Created && row.signed.None?
      && row.binding.Some? && row.binding.value.owner == r.tx.owner && row.binding.value.receiver == r.tx.receiver
      && row.binding.value.balance == r.tx.balance
  }

  // A transaction not signed before is signed by an event exactly if that is the commit of a request the signer may serve,
  // and then for the attempt of that request.
  lemma SignsExactly(w: World, e: Event, tx: Tx)
    requires WorldOk(w) && tx !in w.signedBy
    ensures tx in Handle(w, e).signedBy <==> e.SignerCommit? && e.request.tx == tx && MaySign(w, e.request)
    ensures tx in Handle(w, e).signedBy ==>
      var ref := Handle(w, e).signedBy[tx];
      ref == (e.request.order, e.request.k) && At(Handle(w, e), ref) && RowAt(Handle(w, e), ref).signed == Some(tx)
  {
    hide Perform, Settle, Advance, OrderOk, SentOk, PcOk;
    if e.SignerCommit? && At(w, (e.request.order, e.request.k)) && RowAt(w, (e.request.order, e.request.k)).signed.Some? {
      SignatureAt(w, e.request.order, e.request.k);
    }
    hide WorldOk;
  }
}
