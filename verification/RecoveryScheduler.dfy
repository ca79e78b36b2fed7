// The round-robin scan of EnergyDeliveryRecoveryService.runOnce
// (src/application/energy/energy-delivery-recovery-service.ts) over listPending
// (src/adapters/database/postgres-energy-usage-repository.ts). EnergyReclaimService.runOnce
// (src/application/energy/energy-reclaim-service.ts) scans its due sources the same way. Keys stand for idempotency keys
// in their database order.
module RecoveryScheduler {
  import opened Prelude
  import opened Sorting

  datatype Key = Key(rank: int)

  predicate Precedes(a: Key, b: Key) { a.rank < b.rank }

  function Above(pending: set<Key>, after: Option<Key>): set<Key> {
    set k <- pending | after.None? || Precedes(after.value, k)
  }

  // listPending
  function ListPending(pending: set<Key>, limit: nat, after: Option<Key>): seq<Key> {
    var all := InOrder(Above(pending, after), Precedes);
    if |all| <= limit then all else all[..limit]
  }

  // One run: the orders it visits and the cursor it leaves. The table may change between its two queries.
  datatype Scan = Scan(visited: seq<Key>, cursor: Option<Key>)

  function ScanOnce(cursor: Option<Key>, first: set<Key>, second: set<Key>, limit: nat): Scan {
    var orders := ListPending(first, limit, cursor);
    if orders == [] && cursor.Some? then Ending(ListPending(second, limit, None), None) else Ending(orders, cursor)
  }

  function Ending(orders: seq<Key>, cursor: Option<Key>): Scan {
    Scan(orders, if orders == [] then cursor else Some(orders[|orders| - 1]))
  }

  function Resumed(orders: seq<Key>, canResume: Key -> bool): seq<Key> {
    if orders == [] then []
    else Resumed(orders[..|orders| - 1], canResume) +
         if canResume(orders[|orders| - 1]) then [orders[|orders| - 1]] else []
  }

  function Failing(canResume: Key -> bool, executes: Key -> bool): Key -> bool { k => canResume(k) && !executes(k) }

  class RecoveryService {
    var pendingCursor: Option<Key>
    const maxOrders: nat

    constructor (maxOrders: nat)
      ensures pendingCursor == None && this.maxOrders == maxOrders
    {
      this.maxOrders := maxOrders;
      pendingCursor := None;
    }

    // executes(k) is false when execute throws for k; the scan goes on.
    method RunOnce(first: set<Key>, second: set<Key>, canResume: Key -> bool, executes: Key -> bool)
      returns (executed: seq<Key>, failures: seq<Key>)
      modifies this`pendingCursor
      ensures var scan := ScanOnce(old(pendingCursor), first, second, maxOrders);
        && pendingCursor == scan.cursor
        && executed == Resumed(scan.visited, canResume)
        && failures == Resumed(scan.visited, Failing(canResume, executes))
    {
      var orders := ListPending(first, maxOrders, pendingCursor);
      if |orders| == 0 && pendingCursor.Some? {
        pendingCursor := None;
        orders := ListPending(second, maxOrders, None);
      }
      hide ListPending, Resumed;
      executed, failures := Visit(orders, canResume, executes);
    }

    // The loop over one batch.
    method Visit(orders: seq<Key>, canResume: Key -> bool, executes: Key -> bool) returns (executed: seq<Key>, failures: seq<Key>)
      modifies this`pendingCursor
      ensures pendingCursor == if orders == [] then old(pendingCursor) else Some(orders[|orders| - 1])
      ensures executed == Resumed(orders, canResume) && failures == Resumed(orders, Failing(canResume, executes))
    {
      hide Resumed;
      ghost var failing := Failing(canResume, executes);
      NoneResumed(canResume);
      NoneResumed(failing);
      executed, failures := [], [];
      for i := 0 to |orders|
        invariant pendingCursor == if i == 0 then old(pendingCursor) else Some(orders[i - 1])
        invariant executed == Resumed(orders[..i], canResume)
        invariant failures == Resumed(orders[..i], failing)
      {
        OneMoreResumed(orders, i, canResume);
        OneMoreResumed(orders, i, failing);
        pendingCursor := Some(orders[i]);
        if canResume(orders[i]) {
          executed := executed + [orders[i]];
          if !executes(orders[i]) { failures := failures + [orders[i]]; }
        }
      }
      assert orders[..|orders|] == orders;
    }
  }

  lemma NoneResumed(canResume: Key -> bool)
    ensures Resumed([], canResume) == []
  {
  }

  lemma OneMoreResumed(orders: seq<Key>, i: nat, canResume: Key -> bool)
    requires i < |orders|
    ensures Resumed(orders[..i + 1], canResume) == Resumed(orders[..i], canResume) + if canResume(orders[i]) then [orders[i]] else []
  {
    assert orders[..i + 1][..i] == orders[..i];
  }

  // ---- fairness ----

  // The least number of batches of m that hold n.
  function Batches(n: nat, m: nat): (k: nat)
    requires m >= 1
    ensures n > 0 ==> k > 0
    decreases n
  {
    if n == 0 then 0 else if n <= m then 1 else 1 + Batches(n - m, m)
  }

  lemma {:induction false} BatchesIsCeiling(n: nat, m: nat)
    requires m >= 1
    ensures (Batches(n, m) - 1) * m < n || n == 0
    ensures n <= Batches(n, m) * m
    decreases n
  {
    if n > m { BatchesIsCeiling(n - m, m); }
  }

  lemma {:induction false} BatchesMonotone(a: nat, b: nat, m: nat)
    requires m >= 1 && a <= b
    ensures Batches(a, m) <= Batches(b, m)
    decreases b
  {
    if a > m { BatchesMonotone(a - m, b - m, m); }
  }

  lemma {:induction false} BatchesTogether(a: nat, b: nat, m: nat)
    requires m >= 1
    ensures Batches(a, m) + Batches(b, m) <= Batches(a + b, m) + 1
    decreases a
  {
    if a > m {
      BatchesTogether(a - m, b, m);
    } else if a > 0 {
      BatchesMonotone(b, a + b, m);
    }
  }

  function Between(pending: set<Key>, after: Option<Key>, x: Key): set<Key> {
    set k <- pending | (after.None? || Precedes(after.value, k)) && !Precedes(x, k)
  }

  // How many runs may still pass before x is visited.
  function Wait(pending: set<Key>, cursor: Option<Key>, x: Key, m: nat): nat
    requires m >= 1
  {
    if cursor.None? || Precedes(cursor.value, x) then Batches(|Between(pending, cursor, x)|, m)
    else Batches(|Above(pending, cursor)|, m) + Batches(|Between(pending, None, x)|, m)
  }

  lemma WaitShrinks(small: set<Key>, big: set<Key>, cursor: Option<Key>, x: Key, m: nat)
    requires m >= 1 && small <= big
    ensures Wait(small, cursor, x, m) <= Wait(big, cursor, x, m)
  {
    SmallerSet(Between(small, cursor, x), Between(big, cursor, x));
    SmallerSet(Above(small, cursor), Above(big, cursor));
    SmallerSet(Between(small, None, x), Between(big, None, x));
    BatchesMonotone(|Between(small, cursor, x)|, |Between(big, cursor, x)|, m);
    BatchesMonotone(|Above(small, cursor)|, |Above(big, cursor)|, m);
    BatchesMonotone(|Between(small, None, x)|, |Between(big, None, x)|, m);
  }

  // A batch is the least keys past the cursor, all of them when they are few.
  lemma BatchIs(pending: set<Key>, m: nat, after: Option<Key>)
    ensures var batch := ListPending(pending, m, after); var all := Above(pending, after);
      && Ordered(batch, Precedes) && (forall k :: k in batch ==> k in all)
      && (|all| <= m ==> forall k :: k in all ==> k in batch)
      && (|all| > m ==> |batch| == m && forall k :: k in all && k !in batch ==> forall j :: j in batch ==> Precedes(j, k))
      && |all| == |InOrder(all, Precedes)|
  {
    var all := InOrder(Above(pending, after), Precedes);
    if |all| > m {
      forall k | k in all && k !in all[..m] ensures forall j :: j in all[..m] ==> Precedes(j, k) {
        var i :| 0 <= i < |all| && all[i] == k;
        Prefix(all, m, i);
      }
    }
  }

  lemma Prefix(s: seq<Key>, n: nat, i: nat)
    requires n <= |s| && i < |s|
    ensures i < n ==> s[i] in s[..n]
  {
    if i < n { assert s[..n][i] == s[i]; }
  }

  // Taking a batch off a range of keys.
  lemma RangeLess(range: set<Key>, left: set<Key>, batch: seq<Key>)
    requires Ordered(batch, Precedes) && (forall k :: k in batch ==> k in range)
    requires forall k :: k in left <==> k in range && k !in batch
    ensures |left| + |batch| == |range|
  {
    var taken := set k | k in batch;
    OrderedSize(batch, Precedes);
    assert left + taken == range && left * taken == {};
    assert |left + taken| == |left| + |taken|;
  }

  // A run past the cursor that has not come to x comes a whole batch closer to it.
  lemma Closer(pending: set<Key>, cursor: Option<Key>, x: Key, m: nat)
    requires m >= 1 && x in pending && (cursor.None? || Precedes(cursor.value, x))
    ensures var batch := ListPending(pending, m, cursor);
      && batch != []
      && (x in batch || (Precedes(batch[|batch| - 1], x)
            && Wait(pending, Some(batch[|batch| - 1]), x, m) + 1 <= Wait(pending, cursor, x, m)))
  {
    var batch := ListPending(pending, m, cursor);
    BatchIs(pending, m, cursor);
    assert x in Above(pending, cursor);
    if x !in batch {
      var last := batch[m - 1];
      assert last in batch;
      CloserRange(pending, cursor, x, batch, m);
      RangeLess(Between(pending, cursor, x), Between(pending, Some(last), x), batch);
      XIsBetween(pending, Some(last), x);
    }
  }

  lemma XIsBetween(pending: set<Key>, after: Option<Key>, x: Key)
    requires x in pending && (after.None? || Precedes(after.value, x))
    ensures |Between(pending, after, x)| > 0
  {
    assert x in Between(pending, after, x);
  }

  lemma CloserRange(pending: set<Key>, cursor: Option<Key>, x: Key, batch: seq<Key>, m: nat)
    requires batch == ListPending(pending, m, cursor) && |batch| == m >= 1 && x !in batch && x in Above(pending, cursor)
    requires Ordered(batch, Precedes) && (forall k :: k in batch ==> k in Above(pending, cursor))
    requires forall k :: k in Above(pending, cursor) && k !in batch ==> forall j :: j in batch ==> Precedes(j, k)
    ensures forall k :: k in Between(pending, Some(batch[m - 1]), x) <==> k in Between(pending, cursor, x) && k !in batch
    ensures forall k :: k in batch ==> k in Between(pending, cursor, x)
  {
    hide ListPending;
    var last := batch[m - 1];
    assert last in batch;
    forall k ensures k in Between(pending, Some(last), x) <==> k in Between(pending, cursor, x) && k !in batch {
      if k in batch { InBatch(batch, k); }
    }
  }

  lemma InBatch(batch: seq<Key>, k: Key)
    requires Ordered(batch, Precedes) && k in batch
    ensures !Precedes(batch[|batch| - 1], k)
  {
  }

  // A run behind which x lies takes a batch off the keys that come first, until none is left.
  lemma Around(pending: set<Key>, cursor: Key, x: Key, m: nat)
    requires m >= 1 && !Precedes(cursor, x) && Above(pending, Some(cursor)) != {}
    ensures var batch := ListPending(pending, m, Some(cursor));
      && batch != [] && Precedes(x, batch[|batch| - 1])
      && Wait(pending, Some(batch[|batch| - 1]), x, m) + 1 <= Wait(pending, Some(cursor), x, m)
  {
    var batch := ListPending(pending, m, Some(cursor));
    var all := Above(pending, Some(cursor));
    BatchIs(pending, m, Some(cursor));
    var k :| k in all;
    assert batch != [] by { assert |all| <= m ==> k in batch; }
    var last := batch[|batch| - 1];
    assert last in batch && last in all;
    TailLeft(pending, cursor, batch, m);
    RangeLess(all, Above(pending, Some(last)), batch);
    if |all| <= m { FewLeft(all, Above(pending, Some(last)), batch, m); }
    hide ListPending, Above, Between;
    FewerBatches(|all|, |Above(pending, Some(last))|, m);
  }

  lemma FewerBatches(before: nat, after: nat, m: nat)
    requires m >= 1 && before > 0 && if before <= m then after == 0 else after + m == before
    ensures Batches(after, m) + 1 == Batches(before, m)
  {
  }

  lemma TailLeft(pending: set<Key>, cursor: Key, batch: seq<Key>, m: nat)
    requires batch != [] && Ordered(batch, Precedes)
    requires var all := Above(pending, Some(cursor));
      && (forall k :: k in batch ==> k in all)
      && (forall k :: k in all && k !in batch ==> forall j :: j in batch ==> Precedes(j, k))
    ensures forall k :: k in Above(pending, Some(batch[|batch| - 1])) <==> k in Above(pending, Some(cursor)) && k !in batch
  {
    var last := batch[|batch| - 1];
    assert last in batch;
    forall k ensures k in Above(pending, Some(last)) <==> k in Above(pending, Some(cursor)) && k !in batch {
      if k in batch { InBatch(batch, k); }
    }
  }

  lemma FewLeft(all: set<Key>, left: set<Key>, batch: seq<Key>, m: nat)
    requires |all| <= m && (forall k :: k in all ==> k in batch) && forall k :: k in left <==> k in all && k !in batch
    ensures left == {}
  {
    assert left == {};
  }

  // One run: x is visited, or is one run nearer, whatever left the table meanwhile.
  lemma RunIsNearer(cursor: Option<Key>, first: set<Key>, second: set<Key>, later: set<Key>, x: Key, m: nat)
    requires m >= 1 && x in later && later <= second && second <= first
    ensures var scan := ScanOnce(cursor, first, second, m);
      x in scan.visited || Wait(later, scan.cursor, x, m) + 1 <= Wait(first, cursor, x, m)
  {
    var scan := ScanOnce(cursor, first, second, m);
    if x !in scan.visited {
      WaitShrinks(later, first, scan.cursor, x, m);
      WaitShrinks(later, second, scan.cursor, x, m);
      if cursor.None? || Precedes(cursor.value, x) {
        Closer(first, cursor, x, m);
      } else if Above(first, cursor) != {} {
        Around(first, cursor.value, x, m);
      } else {
        BatchIs(first, m, cursor);
        Empty(first, m, cursor);
        Closer(second, None, x, m);
        SmallerSet(Between(second, None, x), Between(first, None, x));
        BatchesMonotone(|Between(second, None, x)|, |Between(first, None, x)|, m);
      }
    }
  }

  lemma Empty(pending: set<Key>, m: nat, after: Option<Key>)
    requires Above(pending, after) == {}
    ensures ListPending(pending, m, after) == []
  {
  }

  // A row of runs: the pending sets at their two queries. Orders may leave and none joins.
  datatype Queries = Queries(first: set<Key>, second: set<Key>)

  ghost predicate OnlyLeaving(runs: seq<Queries>) {
    && (forall i :: 0 <= i < |runs| ==> runs[i].second <= runs[i].first)
    && (forall i, j :: 0 <= i < j < |runs| ==> runs[j].first <= runs[i].second)
  }

  function VisitedIn(runs: seq<Queries>, cursor: Option<Key>, m: nat): seq<Key> {
    if runs == [] then []
    else
      var scan := ScanOnce(cursor, runs[0].first, runs[0].second, m);
      scan.visited + VisitedIn(runs[1..], scan.cursor, m)
  }

  lemma {:induction false} VisitedInTime(runs: seq<Queries>, cursor: Option<Key>, x: Key, m: nat)
    requires m >= 1 && OnlyLeaving(runs) && runs != []
    requires forall i :: 0 <= i < |runs| ==> x in runs[i].second
    requires |runs| >= Wait(runs[0].first, cursor, x, m)
    ensures x in VisitedIn(runs, cursor, m)
    decreases |runs|
  {
    var scan := ScanOnce(cursor, runs[0].first, runs[0].second, m);
    if x !in scan.visited {
      assert x in Between(runs[0].first, None, x);
      if |runs| > 1 {
        assert runs[1].first <= runs[0].second && x in runs[1].second;
        RunIsNearer(cursor, runs[0].first, runs[0].second, runs[1].first, x, m);
        VisitedInTime(runs[1..], scan.cursor, x, m);
      } else {
        RunIsNearer(cursor, runs[0].first, runs[0].second, runs[0].second, x, m);
        StillAhead(runs[0].second, scan.cursor, x, m);
      }
    }
  }

  lemma StillAhead(pending: set<Key>, cursor: Option<Key>, x: Key, m: nat)
    requires m >= 1 && x in pending
    ensures Wait(pending, cursor, x, m) >= 1
  {
    assert x in Between(pending, None, x);
    if cursor.None? || Precedes(cursor.value, x) { assert x in Between(pending, cursor, x); }
  }

  // Recovery is fair: of n pending orders, every one that stays is visited within one run more than it takes to visit n
  // orders in batches of m, from any cursor, however execute fares.
  lemma RecoveryIsFair(runs: seq<Queries>, cursor: Option<Key>, x: Key, m: nat)
    requires m >= 1 && OnlyLeaving(runs)
    requires forall i :: 0 <= i < |runs| ==> x in runs[i].second
    requires runs != [] && |runs| >= Batches(|runs[0].first|, m) + 1
    ensures x in VisitedIn(runs, cursor, m)
  {
    var pending := runs[0].first;
    if cursor.None? || Precedes(cursor.value, x) {
      SmallerSet(Between(pending, cursor, x), pending);
      BatchesMonotone(|Between(pending, cursor, x)|, |pending|, m);
    } else {
      var ahead, round := Above(pending, cursor), Between(pending, None, x);
      assert ahead * round == {} && ahead + round <= pending;
      SmallerSet(ahead + round, pending);
      assert |ahead + round| == |ahead| + |round|;
      BatchesTogether(|ahead|, |round|, m);
      BatchesMonotone(|ahead| + |round|, |pending|, m);
    }
    VisitedInTime(runs, cursor, x, m);
  }

  // What a run visits it also executes, unless the order's provider is not configured.
  lemma {:induction false} VisitedIsExecuted(orders: seq<Key>, canResume: Key -> bool, x: Key)
    ensures x in Resumed(orders, canResume) <==> x in orders && canResume(x)
    decreases |orders|
  {
    if orders != [] {
      var before := orders[..|orders| - 1];
      VisitedIsExecuted(before, canResume, x);
      assert orders == before + [orders[|orders| - 1]];
    }
  }
}
