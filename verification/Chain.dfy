// The TRON chain as the delegation and reclaim adapters see it
// (src/adapters/tron/tron-delegation-http-transport.ts). Blocks above the solidified height may be
// reorganised away; a transaction enters a block only while the previous block is older than the
// transaction's expiration.
module Chain {
  import opened Prelude

  datatype Kind = Delegate | Undelegate

  // txID is the hash of raw_data, so a transaction is its own identity.
  datatype Tx = Tx(kind: Kind, owner: Address, receiver: Address, balance: nat, expiration: nat, nonce: nat)

  datatype Outcome = Succeeded | Reverted
  datatype Inclusion = Inclusion(at: nat, outcome: Outcome)

  // solid and head are block timestamps; sent holds every transaction a node was ever given.
  datatype Chain = Chain(solid: nat, head: nat, sent: set<Tx>, included: map<Tx, Inclusion>)

  datatype ChainEvent =
    | Block(at: nat, batch: map<Tx, Outcome>)
    | Solidify(at: nat)
    | Reorg(at: nat)

  ghost predicate ChainOk(c: Chain) {
    && c.solid <= c.head
    && forall tx :: tx in c.included ==> tx in c.sent && c.included[tx].at <= c.head
  }

  predicate Enabled(c: Chain, e: ChainEvent) {
    match e
    case Block(at, batch) =>
      c.head < at && forall tx <- batch :: tx in c.sent && tx !in c.included && c.head < tx.expiration
    case Solidify(at) => c.solid < at <= c.head
    case Reorg(at) => c.solid <= at < c.head
  }

  function Advance(c: Chain, e: ChainEvent): Chain {
    if !Enabled(c, e) then c else
    match e
    case Block(at, batch) =>
      c.(head := at, included := c.included + map tx <- batch :: Inclusion(at, batch[tx]))
    case Solidify(at) => c.(solid := at)
    case Reorg(at) => c.(head := at, included := map tx <- c.included | c.included[tx].at <= at :: c.included[tx])
  }

  function Submit(c: Chain, tx: Tx): Chain { c.(sent := c.sent + {tx}) }

  // Not in the chain, and the solidified time is past its expiration.
  predicate Dead(c: Chain, tx: Tx) {
    tx !in c.included && tx.expiration <= c.solid
  }

  predicate Final(c: Chain, tx: Tx, outcome: Outcome) {
    tx in c.included && c.included[tx].at <= c.solid && c.included[tx].outcome == outcome
  }

  datatype Observation = SeenProcessing | SeenCompleted | SeenFailed | SeenUnknown | SeenAbsent(at: nat)

  // What getTransactionObservation may answer, its reads taken as one instant.
  predicate Truthful(c: Chain, tx: Tx, expiration: nat, seen: Observation) {
    match seen
    case SeenCompleted => Final(c, tx, Succeeded)
    case SeenFailed => Final(c, tx, Reverted)
    case SeenProcessing => tx in c.included
    case SeenAbsent(at) => tx !in c.included && expiration <= at <= c.solid
    case SeenUnknown => true
  }

  // What can happen between two states of the chain: nothing dead revives, nothing final changes.
  ghost predicate ChainEvolves(c: Chain, d: Chain) {
    && ChainOk(d)
    && c.sent <= d.sent
    && (forall tx :: Dead(c, tx) ==> Dead(d, tx))
    && (forall tx, outcome :: Final(c, tx, outcome) ==> Final(d, tx, outcome))
  }

  lemma AdvanceEvolves(c: Chain, e: ChainEvent)
    requires ChainOk(c)
    ensures ChainEvolves(c, Advance(c, e)) && Advance(c, e).sent == c.sent
  {
    var d := Advance(c, e);
    forall tx | Dead(c, tx) ensures Dead(d, tx) {
      if e.Block? && Enabled(c, e) { assert tx !in e.batch; }
    }
  }

  // No later state of the chain, however it forks and grows, contains a dead transaction.
  lemma {:induction false} DeadForEver(c: Chain, events: seq<ChainEvent>, tx: Tx)
    requires ChainOk(c) && Dead(c, tx)
    ensures tx !in Replay(c, events).included
    decreases |events|
  {
    if events != [] {
      AdvanceEvolves(c, events[0]);
      DeadForEver(Advance(c, events[0]), events[1..], tx);
    }
  }

  function Replay(c: Chain, events: seq<ChainEvent>): Chain
    decreases |events|
  {
    if events == [] then c else Replay(Advance(c, events[0]), events[1..])
  }
}
