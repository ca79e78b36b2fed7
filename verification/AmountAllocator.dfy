// PostgresPurchaseOrderRepository.createOrGet (src/adapters/database/postgres-purchase-order-repository.ts): orders are
// created once per idempotency key, and each USDT order gets an amount no other order on its route has. Other
// transactions commit between its statements.
module AmountAllocator {
  import opened Prelude
  import opened PurchasePayment
  import opened PaymentPlan
  import opened Sorting

  datatype Row = Row(user: nat, package: nat, key: string, terms: Snapshot, state: PurchaseState)

  datatype Input = Input(user: nat, package: nat, key: string, terms: Snapshot, maxOffset: Option<int>)

  // By the unique index on the idempotency key.
  type Rows = map<string, Row>

  // The columns of package_purchase_orders_usdt_attribution_unique apart from the amount.
  predicate SameRoute(a: Snapshot, b: Snapshot) {
    a.asset == USDT && b.asset == USDT && a.token == b.token && a.toAddress == b.toAddress
  }

  predicate SameAmount(a: Snapshot, b: Snapshot) { SameRoute(a, b) && a.quoted == b.quoted }

  predicate Taken(rows: Rows, terms: Snapshot) { exists k <- rows :: SameAmount(rows[k].terms, terms) }

  predicate Insertable(rows: Rows, key: string, terms: Snapshot) { key !in rows && !Taken(rows, terms) }

  ghost predicate RowsOk(rows: Rows) {
    && (forall k :: k in rows ==> rows[k].key == k && Validate(rows[k].terms).None?)
    && (forall j, k :: j in rows && k in rows && SameAmount(rows[j].terms, rows[k].terms) ==> j == k)
  }

  // Rows are never deleted and keep their terms.
  ghost predicate Grows(a: Rows, b: Rows) { forall k :: k in a ==> k in b && b[k] == a[k].(state := b[k].state) }

  // What another transaction may commit: a new order, or a new status.
  datatype Other = Inserts(row: Row) | Moves(key: string, state: PurchaseState)

  function Commit(rows: Rows, other: Other): Rows {
    match other
    case Inserts(row) => if Insertable(rows, row.key, row.terms) && Validate(row.terms).None? then rows[row.key := row] else rows
    case Moves(key, state) => if key in rows then rows[key := rows[key].(state := state)] else rows
  }

  function Arrive(rows: Rows, others: seq<Other>): Rows {
    if others == [] then rows else Commit(Arrive(rows, others[..|others| - 1]), others[|others| - 1])
  }

  lemma {:induction false} ArriveOk(rows: Rows, others: seq<Other>)
    requires RowsOk(rows)
    ensures RowsOk(Arrive(rows, others)) && Grows(rows, Arrive(rows, others))
    decreases |others|
  {
    if others != [] {
      ArriveOk(rows, others[..|others| - 1]);
      CommitOk(Arrive(rows, others[..|others| - 1]), others[|others| - 1]);
    }
  }

  lemma CommitOk(rows: Rows, other: Other)
    requires RowsOk(rows)
    ensures RowsOk(Commit(rows, other)) && Grows(rows, Commit(rows, other))
  {
    hide Validate;
  }

  // An amount once given stays with its order, whatever happens to the order and however long the run.
  lemma AmountsAreNeverReused(a: Rows, b: Rows, k: string, j: string)
    requires RowsOk(b) && Grows(a, b) && k in a && j in b
    requires SameAmount(a[k].terms, b[j].terms)
    ensures j == k
  {
    hide Validate;
    assert b[k].terms == a[k].terms;
  }

  predicate SamePayload(row: Row, input: Input) {
    && row.user == input.user && row.package == input.package && row.key == input.key
    && row.terms.packageCode == input.terms.packageCode && row.terms.count == input.terms.count
    && row.terms.price == input.terms.price && row.terms.asset == input.terms.asset
    && row.terms.toAddress == input.terms.toAddress && row.terms.token == input.terms.token
    && row.terms.confirmations == input.terms.confirmations
    && if input.terms.asset == USDT
       then input.terms.offset == 0 && input.terms.quoted == input.terms.price && Expected(row.terms).Some?
       else row.terms.offset == 0 && input.terms.offset == 0 && row.terms.quoted == input.terms.quoted
  }

  // ---- the amounts in use ----

  function Used(rows: Rows, terms: Snapshot, low: int, high: int): set<int> {
    set k <- rows | SameRoute(rows[k].terms, terms) && low <= rows[k].terms.quoted <= high :: rows[k].terms.quoted
  }

  predicate Ascends(a: int, b: int) { a < b }

  ghost predicate LeastFree(used: set<int>, from: int, c: int) {
    from <= c && c !in used && forall x :: from <= x < c ==> x in used
  }

  method FirstFree(usedAmounts: seq<int>, base: int) returns (candidate: int)
    requires Ordered(usedAmounts, Ascends)
    ensures LeastFree((set x | x in usedAmounts), base, candidate)
  {
    candidate := base;
    var i := 0;
    while i < |usedAmounts|
      invariant 0 <= i <= |usedAmounts| && base <= candidate
      invariant forall x :: base <= x < candidate ==> x in usedAmounts
      invariant forall j :: 0 <= j < i ==> usedAmounts[j] < candidate
    {
      if usedAmounts[i] < candidate { i := i + 1; continue; }
      if usedAmounts[i] == candidate {
        candidate := candidate + 1;
        i := i + 1;
        continue;
      }
      break;
    }
  }

  datatype Answer =
    | Created(row: Row)
    | Existing(row: Row)
    | PayloadConflict
    | AttributionUnavailable
    | Throws

  function BaseOf(input: Input): int { input.terms.price }
  function MaximumOf(input: Input): int { input.terms.price + if input.maxOffset.Some? then input.maxOffset.value else 0 }

  // What createOrGet throws for, once the key is not in use.
  predicate Accepted(input: Input) {
    && Validate(input.terms).None?
    && (input.terms.asset == USDT ==>
          input.terms.offset == 0 && input.terms.quoted == input.terms.price && MaximumOf(input) >= BaseOf(input))
  }

  class PurchaseOrders {
    var rows: Rows

    constructor ()
      ensures RowsOk(rows) && rows == map[]
    {
      rows := map[];
    }

    // The transactions of others that commit before the next statement.
    method Others(arrivals: seq<Other>)
      requires RowsOk(rows)
      modifies this
      ensures rows == Arrive(old(rows), arrivals) && RowsOk(rows) && Grows(old(rows), rows)
    {
      ArriveOk(rows, arrivals);
      rows := Arrive(rows, arrivals);
    }

    // insertCandidate and activateInserted
    method Insert(input: Input, terms: Snapshot) returns (inserted: Option<Row>)
      requires RowsOk(rows) && Validate(terms).None?
      modifies this
      ensures RowsOk(rows) && Grows(old(rows), rows)
      ensures inserted.Some? <==> Insertable(old(rows), input.key, terms)
      ensures inserted.None? ==> rows == old(rows)
      ensures inserted.Some? ==> inserted.value == Row(input.user, input.package, input.key, terms, PWaiting)
                                 && rows == old(rows)[input.key := inserted.value]
    {
      hide Validate;
      if !Insertable(rows, input.key, terms) { return None; }
      var row := Row(input.user, input.package, input.key, terms, PCreated);
      rows := rows[input.key := row];
      row := row.(state := PWaiting);
      rows := rows[input.key := row];
      assert rows == old(rows)[input.key := row];
      return Some(row);
    }

    method FindExisting(input: Input) returns (r: Option<Answer>)
      ensures r.None? <==> input.key !in rows
      ensures r.Some? ==> r.value == if SamePayload(rows[input.key], input) then Existing(rows[input.key]) else PayloadConflict
    {
      if input.key !in rows { return None; }
      if !SamePayload(rows[input.key], input) { return Some(PayloadConflict); }
      return Some(Existing(rows[input.key]));
    }

    // arrivals(n) commits before the n-th statement.
    method CreateOrGet(input: Input, arrivals: nat -> seq<Other>) returns (r: Answer)
      requires RowsOk(rows)
      modifies this
      ensures RowsOk(rows) && Grows(old(rows), rows)
      ensures r.Throws? <==> input.key !in Arrive(old(rows), arrivals(0)) && !Accepted(input)
      ensures r.Throws? || Fair(old(rows), rows, input, r)
      ensures input.key in Arrive(old(rows), arrivals(0)) ==> (r.Existing? || r.PayloadConflict?) && rows == Arrive(old(rows), arrivals(0))
      ensures (forall n :: arrivals(n) == []) ==> rows == if r.Created? then old(rows)[input.key := r.row] else old(rows)
    {
      hide Validate, SamePayload, Arrive, Made, Insertable;
      Others(arrivals(0));
      QuietArrival(old(rows), arrivals, 0);
      var existing := FindExisting(input);
      if existing.Some? { return existing.value; }
      if Expected(input.terms).None? { return Throws; }
      ghost var start := rows;
      if input.terms.asset == TRX {
        r := CreateTrx(input, arrivals);
      } else {
        if input.terms.offset != 0 || input.terms.quoted != input.terms.price { return Throws; }
        var maxOffset := if input.maxOffset.Some? then input.maxOffset.value else 0;
        if maxOffset < 0 || input.terms.token.None? { UsdtHasToken(input.terms); return Throws; }
        r := Allocate(input, input.terms.price, input.terms.price + maxOffset, arrivals);
      }
      if r.Created? { MadeEarlier(old(rows), start, rows, input, r.row); }
    }

    method CreateTrx(input: Input, arrivals: nat -> seq<Other>) returns (r: Answer)
      requires RowsOk(rows) && Accepted(input) && input.terms.asset == TRX && input.key !in rows
      modifies this
      ensures RowsOk(rows) && Grows(old(rows), rows)
      ensures Fair(old(rows), rows, input, r) && !r.AttributionUnavailable?
      ensures (forall n :: arrivals(n) == []) ==> rows == if r.Created? then old(rows)[input.key := r.row] else old(rows)
    {
      hide Validate, SamePayload, Arrive, RowsOk, Grows, Made;
      Others(arrivals(1));
      QuietArrival(old(rows), arrivals, 1);
      NeverTakenTrx(rows, input.terms);
      ghost var atInsert := rows;
      var inserted := Insert(input, input.terms);
      GrowsTwice(old(rows), atInsert, rows);
      if inserted.Some? {
        MadeTrx(old(rows), atInsert, rows, input, inserted.value);
        return Created(inserted.value);
      }
      Others(arrivals(2));
      QuietArrival(atInsert, arrivals, 2);
      GrowsTwice(old(rows), atInsert, rows);
      KeysStay(atInsert, rows);
      var existing := FindExisting(input);
      r := existing.value;
    }

    // The retry loop: each turn takes the least free amount it sees, and a turn whose insert is lost to another order
    // sees that amount taken from then on.
    method Allocate(input: Input, baseAmount: int, maximumAmount: int, arrivals: nat -> seq<Other>) returns (r: Answer)
      requires RowsOk(rows) && Accepted(input) && input.terms.asset == USDT
      requires baseAmount == BaseOf(input) && maximumAmount == MaximumOf(input)
      modifies this
      ensures RowsOk(rows) && Grows(old(rows), rows) && Fair(old(rows), rows, input, r)
      ensures (forall n :: arrivals(n) == []) ==> rows == if r.Created? then old(rows)[input.key := r.row] else old(rows)
    {
      hide RowsOk, SamePayload, InUse, Grows, Made;
      var lost, n := baseAmount, 1;
      InUseNone(rows, input);
      GrowsSelf(rows);
      while true
        invariant RowsOk(rows) && Grows(old(rows), rows)
        invariant lost <= maximumAmount + 1 && InUse(rows, input, lost)
        invariant (forall m :: arrivals(m) == []) ==> rows == old(rows)
        decreases maximumAmount + 1 - lost
      {
        ghost var before := rows;
        var answer, candidateAmount := Turn(input, baseAmount, maximumAmount, arrivals, n, lost);
        GrowsTwice(old(rows), before, rows);
        if answer.Some? {
          if answer.value.Created? { MadeEarlier(old(rows), before, rows, input, answer.value.row); }
          return answer.value;
        }
        lost := candidateAmount + 1;
        n := n + 3;
      }
    }

    // One turn: select the amounts in use, take the least free one, try to insert.
    method Turn(input: Input, baseAmount: int, maximumAmount: int, arrivals: nat -> seq<Other>, n: nat, lost: int)
      returns (answer: Option<Answer>, candidateAmount: int)
      requires RowsOk(rows) && Accepted(input) && input.terms.asset == USDT && InUse(rows, input, lost) && lost <= maximumAmount + 1
      requires baseAmount == BaseOf(input) && maximumAmount == MaximumOf(input)
      modifies this
      ensures RowsOk(rows) && Grows(old(rows), rows)
      ensures answer.None? ==> lost <= candidateAmount <= maximumAmount && InUse(rows, input, candidateAmount + 1)
      ensures answer.Some? ==> Fair(old(rows), rows, input, answer.value)
      ensures (forall m :: arrivals(m) == []) ==>
        answer.Some? && rows == if answer.value.Created? then old(rows)[input.key := answer.value.row] else old(rows)
    {
      hide Accepted, RowsOk, Grows, Made, InUse, SamePayload, Arrive;
      candidateAmount := LeastSeen(input, baseAmount, maximumAmount, arrivals, n, lost);
      ghost var seen := rows;
      Others(arrivals(n + 1));
      QuietArrival(seen, arrivals, n + 1);
      GrowsTwice(old(rows), seen, rows);
      InUseGrows(seen, rows, input, Min(candidateAmount, maximumAmount + 1));
      if candidateAmount > maximumAmount {
        answer := FindExisting(input);
        if answer.None? { answer := Some(AttributionUnavailable); }
        return;
      }
      ghost var atInsert := rows;
      answer := InsertAt(input, baseAmount, maximumAmount, candidateAmount, arrivals(n + 2));
      GrowsTwice(old(rows), atInsert, rows);
      if answer.None? {
        NotAlone(seen, atInsert, input, candidateAmount);
      } else if answer.value.Created? {
        MadeEarlier(old(rows), atInsert, rows, input, answer.value.row);
      }
      QuietArrival(atInsert, arrivals, n + 2);
    }

    // The select and the search through its result.
    method LeastSeen(input: Input, baseAmount: int, maximumAmount: int, arrivals: nat -> seq<Other>, n: nat, lost: int)
      returns (candidateAmount: int)
      requires RowsOk(rows) && InUse(rows, input, lost) && lost <= maximumAmount + 1
      requires baseAmount == BaseOf(input) && maximumAmount == MaximumOf(input)
      modifies this
      ensures RowsOk(rows) && Grows(old(rows), rows)
      ensures lost <= candidateAmount && InUse(rows, input, Min(candidateAmount, maximumAmount + 1))
      ensures candidateAmount !in Used(rows, input.terms, baseAmount, maximumAmount)
      ensures (forall m :: arrivals(m) == []) ==> rows == old(rows)
    {
      hide RowsOk, Grows, Arrive, Used;
      Others(arrivals(n));
      QuietArrival(old(rows), arrivals, n);
      InUseGrows(old(rows), rows, input, lost);
      var used := Used(rows, input.terms, baseAmount, maximumAmount);
      candidateAmount := FirstFree(InOrder(used, Ascends), baseAmount);
      assert (set x | x in InOrder(used, Ascends)) == used;
      assert forall x :: baseAmount <= x < lost ==> x in used;
    }

    method InsertAt(input: Input, baseAmount: int, maximumAmount: int, candidateAmount: int, after: seq<Other>)
      returns (answer: Option<Answer>)
      requires RowsOk(rows) && Accepted(input) && input.terms.asset == USDT && InUse(rows, input, candidateAmount)
      requires baseAmount == BaseOf(input) <= candidateAmount <= maximumAmount == MaximumOf(input)
      modifies this
      ensures RowsOk(rows) && Grows(old(rows), rows)
      ensures answer.None? ==> InUse(rows, input, candidateAmount + 1)
      ensures answer.None? ==> candidateAmount in Used(old(rows), input.terms, baseAmount, maximumAmount)
      ensures answer.Some? ==> Fair(old(rows), rows, input, answer.value) && !answer.value.AttributionUnavailable?
      ensures after == [] ==> rows == if answer.Some? && answer.value.Created? then old(rows)[input.key := answer.value.row] else old(rows)
    {
      hide RowsOk, Grows, Made, Arrive, Used, Insertable, WithOffset, SamePayload, Validate, SameRoute, InUse;
      ValidOffset(input.terms, candidateAmount - baseAmount);
      var attributed := WithOffset(input.terms, candidateAmount - baseAmount);
      ghost var atInsert := rows;
      GrowsSelf(rows);
      var inserted := Insert(input, attributed.value);
      if inserted.Some? {
        MadeNow(atInsert, rows, input, inserted.value);
        return Some(Created(inserted.value));
      }
      NothingArrives(rows);
      Others(after);
      answer := FindExisting(input);
      if answer.None? {
        KeyStays(atInsert, rows, input.key);
        LostTo(atInsert, input, attributed.value, baseAmount, maximumAmount);
        OneMoreInUse(atInsert, rows, input, candidateAmount);
      }
    }
  }

  // What an answer says about the rows, whatever others committed meanwhile.
  ghost predicate Fair(before: Rows, after: Rows, input: Input, r: Answer) {
    match r
    case Created(row) => Made(before, after, input, row)
    case Existing(row) => input.key in after && after[input.key] == row && SamePayload(row, input)
    case PayloadConflict => input.key in after && !SamePayload(after[input.key], input)
    case AttributionUnavailable => input.key !in after && input.terms.asset == USDT && InUse(after, input, MaximumOf(input) + 1)
    case Throws => false
  }

  // Every amount of the range below this one is in use on the order's route.
  ghost predicate InUse(rows: Rows, input: Input, below: int) {
    BaseOf(input) <= below &&
    forall x :: BaseOf(input) <= x < below ==> x in Used(rows, input.terms, BaseOf(input), MaximumOf(input))
  }

  // The new order: its own row at the least amount of its range that nobody else has.
  ghost predicate Made(before: Rows, after: Rows, input: Input, row: Row) {
    && input.key !in before && input.key in after && after[input.key] == row
    && row == Row(input.user, input.package, input.key, row.terms, PWaiting)
    && (input.terms.asset == TRX ==> row.terms == input.terms)
    && (input.terms.asset == USDT ==>
          && BaseOf(input) <= row.terms.quoted <= MaximumOf(input)
          && WithOffset(input.terms, row.terms.quoted - BaseOf(input)) == Some(row.terms)
          && row.terms.quoted !in Used(before, input.terms, BaseOf(input), MaximumOf(input))
          && InUse(after, input, row.terms.quoted))
  }

  lemma QuietArrival(rows: Rows, arrivals: nat -> seq<Other>, n: nat)
    ensures (forall m :: arrivals(m) == []) ==> Arrive(rows, arrivals(n)) == rows
  {
  }

  lemma UsedGrows(a: Rows, b: Rows, terms: Snapshot, low: int, high: int)
    requires Grows(a, b)
    ensures Used(a, terms, low, high) <= Used(b, terms, low, high)
  {
    forall x | x in Used(a, terms, low, high) ensures x in Used(b, terms, low, high) {
      var k :| k in a && SameRoute(a[k].terms, terms) && a[k].terms.quoted == x;
      assert k in b && b[k].terms == a[k].terms;
    }
  }

  lemma NeverTakenTrx(rows: Rows, terms: Snapshot)
    requires terms.asset == TRX
    ensures !Taken(rows, terms)
  {
  }

  lemma ValidOffset(terms: Snapshot, offset: int)
    requires Validate(terms).None? && terms.asset == USDT && offset >= 0
    ensures var a := WithOffset(terms, offset);
      a.Some? && Validate(a.value).None? && SameRoute(a.value, terms) && a.value.quoted == terms.price + offset
  {
  }

  // An insert is lost only to the key or to another order with the amount, which stays in use.
  lemma LostTo(rows: Rows, input: Input, terms: Snapshot, low: int, high: int)
    requires !Insertable(rows, input.key, terms) && input.key !in rows && SameRoute(terms, input.terms) && low <= terms.quoted <= high
    ensures terms.quoted in Used(rows, input.terms, low, high)
  {
    var k :| k in rows && SameAmount(rows[k].terms, terms);
    assert SameRoute(rows[k].terms, input.terms);
  }

  lemma UsedMeansTaken(rows: Rows, input: Input, terms: Snapshot, low: int, high: int)
    requires SameRoute(terms, input.terms)
    ensures terms.quoted in Used(rows, input.terms, low, high) ==> Taken(rows, terms)
  {
    if terms.quoted in Used(rows, input.terms, low, high) {
      var k :| k in rows && SameRoute(rows[k].terms, input.terms) && rows[k].terms.quoted == terms.quoted;
      assert SameAmount(rows[k].terms, terms);
    }
  }

  lemma MadeNow(before: Rows, after: Rows, input: Input, row: Row)
    requires Insertable(before, input.key, row.terms) && after == before[input.key := row]
    requires row == Row(input.user, input.package, input.key, row.terms, PWaiting) && input.terms.asset == USDT
    requires SameRoute(row.terms, input.terms) && BaseOf(input) <= row.terms.quoted <= MaximumOf(input)
    requires WithOffset(input.terms, row.terms.quoted - BaseOf(input)) == Some(row.terms)
    requires InUse(before, input, row.terms.quoted)
    ensures Made(before, after, input, row)
  {
    hide WithOffset, InUse;
    assert Grows(before, after);
    InUseGrows(before, after, input, row.terms.quoted);
    UsedMeansTaken(before, input, row.terms, BaseOf(input), MaximumOf(input));
  }

  lemma MadeTrx(start: Rows, before: Rows, after: Rows, input: Input, row: Row)
    requires Grows(start, before) && input.key !in before && after == before[input.key := row]
    requires input.terms.asset == TRX && row == Row(input.user, input.package, input.key, input.terms, PWaiting)
    ensures Made(start, after, input, row)
  {
    hide WithOffset;
  }

  lemma MadeEarlier(start: Rows, before: Rows, after: Rows, input: Input, row: Row)
    requires Grows(start, before) && Made(before, after, input, row)
    ensures Made(start, after, input, row)
  {
    hide WithOffset, InUse;
    UsedGrows(start, before, input.terms, BaseOf(input), MaximumOf(input));
  }

  lemma InUseGrows(a: Rows, b: Rows, input: Input, below: int)
    requires Grows(a, b) && InUse(a, input, below)
    ensures InUse(b, input, below)
  {
    UsedGrows(a, b, input.terms, BaseOf(input), MaximumOf(input));
  }

  lemma InUseNone(rows: Rows, input: Input)
    ensures InUse(rows, input, BaseOf(input))
  {
  }

  lemma GrowsSelf(rows: Rows)
    ensures Grows(rows, rows)
  {
  }

  lemma GrowsTwice(a: Rows, b: Rows, c: Rows)
    requires Grows(a, b) && Grows(b, c)
    ensures Grows(a, c)
  {
  }

  lemma KeyStays(a: Rows, b: Rows, key: string)
    requires Grows(a, b) && key !in b
    ensures key !in a
  {
  }

  lemma UsdtHasToken(terms: Snapshot)
    requires Validate(terms).None? && terms.asset == USDT
    ensures terms.token.Some?
  {
  }

  lemma KeysStay(a: Rows, b: Rows)
    requires Grows(a, b)
    ensures forall k :: k in a ==> k in b
  {
  }

  lemma NothingArrives(rows: Rows)
    ensures Arrive(rows, []) == rows
  {
  }

  lemma OneMoreInUse(a: Rows, b: Rows, input: Input, candidate: int)
    requires Grows(a, b) && InUse(a, input, candidate)
    requires candidate in Used(a, input.terms, BaseOf(input), MaximumOf(input))
    ensures InUse(b, input, candidate + 1)
  {
    InUseGrows(a, b, input, candidate);
    UsedGrows(a, b, input.terms, BaseOf(input), MaximumOf(input));
  }

  // An insert is lost only because somebody else was there.
  lemma NotAlone(seen: Rows, atInsert: Rows, input: Input, candidate: int)
    requires candidate !in Used(seen, input.terms, BaseOf(input), MaximumOf(input))
    requires candidate in Used(atInsert, input.terms, BaseOf(input), MaximumOf(input))
    ensures seen != atInsert
  {
  }

  // Calling again with the same input finds the order that was made, whatever was committed since.
  lemma ReplayFindsTheOrder(before: Rows, after: Rows, later: Rows, input: Input, row: Row)
    requires Accepted(input) && Made(before, after, input, row) && Grows(after, later)
    ensures input.key in later && SamePayload(later[input.key], input)
  {
    if input.terms.asset == USDT { ValidOffset(input.terms, row.terms.quoted - BaseOf(input)); }
  }

  // The terms as they were asked for: without the attribution offset of a USDT order.
  function Unattributed(terms: Snapshot): Snapshot {
    if terms.asset == USDT then terms.(offset := 0, quoted := terms.price) else terms
  }

  // A used key is a replay exactly for its own user and package and the terms its order was asked for, whenever they
  // expire; for anything else it is a conflict.
  lemma PayloadMeans(row: Row, input: Input)
    requires Validate(row.terms).None? && input.key == row.key
    ensures SamePayload(row, input) <==>
      && input.user == row.user && input.package == row.package
      && input.terms == Unattributed(row.terms).(expiresAt := input.terms.expiresAt)
  {
    hide NonEmpty;
  }

  // So a call that reuses the key of an order finds it exactly if it asks for the same, whatever was committed since.
  lemma ReplayAnswersExactly(before: Rows, after: Rows, later: Rows, input: Input, row: Row, again: Input)
    requires Accepted(input) && Made(before, after, input, row) && Grows(after, later) && again.key == input.key
    ensures again.key in later
    ensures SamePayload(later[again.key], again) <==>
      && again.user == input.user && again.package == input.package
      && again.terms == input.terms.(expiresAt := again.terms.expiresAt)
  {
    if input.terms.asset == USDT { ValidOffset(input.terms, row.terms.quoted - BaseOf(input)); }
    PayloadMeans(later[again.key], again);
    hide SamePayload, NonEmpty, InUse, Used;
  }

  // An order of any status has the amount on the same token and address.
  predicate HeldOn(rows: Rows, terms: Snapshot, amount: int) {
    exists k <- rows ::
      && rows[k].terms.asset == USDT && rows[k].terms.token == terms.token && rows[k].terms.toAddress == terms.toAddress
      && rows[k].terms.quoted == amount
  }

  // What it means that amounts of a range are in use.
  lemma InUseMeans(rows: Rows, input: Input, below: int)
    requires input.terms.asset == USDT && BaseOf(input) <= below <= MaximumOf(input) + 1
    ensures InUse(rows, input, below) <==> forall x :: input.terms.price <= x < below ==> HeldOn(rows, input.terms, x)
  {
    var used := Used(rows, input.terms, BaseOf(input), MaximumOf(input));
    forall x | input.terms.price <= x < below ensures x in used <==> HeldOn(rows, input.terms, x) {
      if HeldOn(rows, input.terms, x) {
        var k :| k in rows && rows[k].terms.asset == USDT && rows[k].terms.token == input.terms.token
                 && rows[k].terms.toAddress == input.terms.toAddress && rows[k].terms.quoted == x;
        assert SameRoute(rows[k].terms, input.terms);
      }
    }
  }
}
