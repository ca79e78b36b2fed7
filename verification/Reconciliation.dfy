// UsdtPaymentReconciliationService.runOnce (src/application/payments/usdt-payment-reconciliation-service.ts). Everything
// it asks of the outside world goes into a trace, and any answer may depend on all that was asked before.
module Reconciliation {
  import opened Prelude
  import opened PurchasePayment
  import opened PaymentPlan
  import AmountAllocator

  type Id = string

  datatype Status = SWaiting | SDetected | SConfirming | SPaid

  datatype Order = Order(id: Id, status: Status, expectation: Expectation, createdAt: Time, expiresAt: Option<Time>)

  datatype Request = Request(token: Option<string>, toAddress: string, minMs: int, maxMs: int)

  datatype Page = Page(observations: seq<Observed>, nextCursor: Option<string>)

  datatype Call =
    | FindPage(request: Request, cursor: Option<string>, page: Page)
    | ApplyCall(order: Id, observed: Observed, authoritative: bool)
    | InspectCall(observed: Observed)
    | CreditCall(order: Id, created: bool)
    | ExpireCall(order: Id)

  datatype Failure =
    | InvalidScanTime | CapacityExceeded | InvalidOrder | ExpiryInvalid
    | DuplicateAmount | TimestampMissing
    | InvalidCursor | PageCapacityExceeded | ExpiryOrderNotFound
    | LifecycleFailed | CreditFailed | Unavailable

  // The answers of the detector, the finality verifier, the two writers and the order repository; None is a failure.
  datatype Env = Env(
    find: (seq<Call>, Request, Option<string>) -> Option<Page>,
    apply: (seq<Call>, Id, Observed) -> Option<PurchaseState>,
    inspect: (seq<Call>, Observed) -> Option<Option<Observed>>,
    credit: (seq<Call>, Id) -> Option<bool>,
    expire: (seq<Call>, Id) -> Option<bool>)

  datatype Tally = Tally(namespaces: nat, pages: nat, candidates: nat, checks: nat, credits: nat)

  const NOTHING := Tally(0, 0, 0, 0, 0)

  function Add(t: Tally, c: Call): Tally {
    match c
    case FindPage(_, cursor, _) => t.(pages := t.pages + 1, namespaces := t.namespaces + if cursor.None? then 1 else 0)
    case ApplyCall(_, _, authoritative) => if authoritative then t else t.(candidates := t.candidates + 1)
    case InspectCall(_) => t.(checks := t.checks + 1)
    case CreditCall(_, created) => if created then t.(credits := t.credits + 1) else t
    case ExpireCall(_) => t
  }

  function TallyOf(calls: seq<Call>): Tally {
    if calls == [] then NOTHING else Add(TallyOf(calls[..|calls| - 1]), calls[|calls| - 1])
  }

  // ---- orders ----

  // ensureUsdtOrder
  function OrderFault(o: Order): Option<Failure> {
    if !NonEmpty(o.id) || o.createdAt.NotATime? || o.expectation.asset != USDT || o.expectation.token.None? ||
       !NonEmpty(o.expectation.token.value) || !NonEmpty(o.expectation.toAddress) || o.expectation.amount <= 0 ||
       o.expectation.confirmations <= 0
    then Some(InvalidOrder)
    else if o.expiresAt.None? || o.expiresAt.value.NotATime? || o.expiresAt.value.ms <= o.createdAt.ms then Some(ExpiryInvalid)
    else None
  }

  predicate Sound(o: Order) {
    && o.createdAt.Instant? && o.expiresAt.Some? && o.expiresAt.value.Instant? && o.expectation.token.Some?
    && o.createdAt.ms < o.expiresAt.value.ms
  }

  predicate SameNamespace(a: Order, b: Order) {
    a.expectation.token == b.expectation.token && a.expectation.toAddress == b.expectation.toAddress
  }

  ghost predicate Group(orders: seq<Order>) {
    && orders != []
    && (forall i :: 0 <= i < |orders| ==> Sound(orders[i]) && SameNamespace(orders[i], orders[0]))
  }

  ghost predicate DistinctAmounts(orders: seq<Order>) {
    forall i, j :: 0 <= i < j < |orders| ==> orders[i].expectation.amount != orders[j].expectation.amount
  }

  predicate Addressed(o: Order, b: Observed) {
    b.asset == USDT && b.token == o.expectation.token && b.toAddress == o.expectation.toAddress
  }

  // candidateWithinOrderWindow
  predicate InWindow(o: Order, at: int, b: Observed)
    requires Sound(o)
  {
    && b.blockTimestamp.Some? && b.blockTimestamp.value.Instant?
    && o.createdAt.ms <= b.blockTimestamp.value.ms <= Min(at, o.expiresAt.value.ms)
  }

  // The observation pays the order: USDT of its token to its address, of exactly its amount, in a block no earlier than
  // the order and no later than its quote's expiry and the scan.
  predicate Candidate(o: Order, at: int, b: Observed)
    requires Sound(o)
  {
    && b.asset == USDT && b.token == o.expectation.token && b.toAddress == o.expectation.toAddress
    && b.amount == o.expectation.amount && b.blockTimestamp.Some? && b.blockTimestamp.value.Instant?
    && o.createdAt.ms <= b.blockTimestamp.value.ms
    && b.blockTimestamp.value.ms <= o.expiresAt.value.ms && b.blockTimestamp.value.ms <= at
  }

  // The orders of a group that one of the observations pays.
  ghost function MatchedOn(group: seq<Order>, at: int, observations: seq<Observed>): set<Id>
    requires Group(group)
  {
    set i | 0 <= i < |group| && exists b :: b in observations && Candidate(group[i], at, b) :: group[i].id
  }

  // ---- scans ----

  function Reads(calls: seq<Call>): seq<Call> {
    if calls == [] then []
    else Reads(calls[..|calls| - 1]) + if calls[|calls| - 1].FindPage? then [calls[|calls| - 1]] else []
  }

  // The cursor that the page before read number i gave; none for the first.
  function CursorBefore(pages: seq<Call>, i: nat): Option<string>
    requires i <= |pages| && forall j :: 0 <= j < |pages| ==> pages[j].FindPage?
  {
    if i == 0 then None else pages[i - 1].page.nextCursor
  }

  // Page after page of one request, each from the cursor the page before gave.
  ghost predicate Chained(pages: seq<Call>, request: Request) {
    && (forall i :: 0 <= i < |pages| ==> pages[i].FindPage? && pages[i].request == request)
    && (forall i :: 0 <= i < |pages| ==> pages[i].cursor == CursorBefore(pages, i))
    && (forall i :: 0 <= i < |pages| - 1 ==> pages[i].page.nextCursor.Some?)
  }

  // All of them: the last page has no next.
  ghost predicate Complete(pages: seq<Call>, request: Request) {
    pages != [] && Chained(pages, request) && pages[|pages| - 1].page.nextCursor.None?
  }

  ghost predicate NoExpiry(calls: seq<Call>) { forall i :: 0 <= i < |calls| ==> !calls[i].ExpireCall? }

  // The ids matched on all pages.
  ghost function MatchedIn(group: seq<Order>, at: int, pages: seq<Call>): set<Id>
    requires Group(group) && forall i :: 0 <= i < |pages| ==> pages[i].FindPage?
  {
    if pages == [] then {}
    else MatchedIn(group, at, pages[..|pages| - 1]) + MatchedOn(group, at, pages[|pages| - 1].page.observations)
  }

  function RequestFor(o: Order, from: int, to: int): Request { Request(o.expectation.token, o.expectation.toAddress, from, to) }

  // What must have come right before an expiry: a complete scan of the order's own window, from its creation to its
  // quote's expiry, that found no payment for it.
  ghost predicate Justified(calls: seq<Call>, o: Order, at: int, maxPages: nat) {
    && Sound(o) && o.status == SWaiting && o.expiresAt.value.ms <= at
    && exists q :: 0 <= q <= |calls| && ScannedInVain(calls[q..], o, at, maxPages)
  }

  ghost predicate ScannedInVain(calls: seq<Call>, o: Order, at: int, maxPages: nat)
    requires Sound(o)
  {
    var pages := Reads(calls);
    && Complete(pages, RequestFor(o, o.createdAt.ms, o.expiresAt.value.ms)) && |pages| <= maxPages
    && forall i, b :: 0 <= i < |pages| && b in pages[i].page.observations ==> !Candidate(o, at, b)
  }

  ghost predicate ExpiriesJustified(calls: seq<Call>, orders: seq<Order>, at: int, maxPages: nat) {
    forall p :: 0 <= p < |calls| && calls[p].ExpireCall? ==>
      exists o :: o in orders && o.id == calls[p].order && Justified(calls[..p], o, at, maxPages)
  }

  lemma {:induction false} ReadsTogether(a: seq<Call>, b: seq<Call>)
    ensures Reads(a + b) == Reads(a) + Reads(b)
    decreases |b|
  {
    if b == [] {
      assert a + b == a;
    } else {
      assert (a + b)[..|a + b| - 1] == a + b[..|b| - 1];
      ReadsTogether(a, b[..|b| - 1]);
    }
  }

  lemma TallyMore(calls: seq<Call>, c: Call)
    ensures TallyOf(calls + [c]) == Add(TallyOf(calls), c)
  {
    assert (calls + [c])[..|calls|] == calls;
  }

  lemma ReadsMore(calls: seq<Call>, c: Call)
    ensures Reads(calls + [c]) == Reads(calls) + if c.FindPage? then [c] else []
  {
    assert (calls + [c])[..|calls|] == calls;
  }

  // ---- what must follow a call ----

  datatype Owed =
    | Nothing
    | OwesInspect(order: Id, observed: Observed)
    | OwesEvidence(order: Id, observed: Observed)
    | OwesCredit(order: Id)

  // What an answer calls for: a paid order its credit, a candidate still open its finality check, evidence its application.
  ghost function OwedAfter(env: Env, calls: seq<Call>, c: Call): Owed {
    match c
    case ApplyCall(order, b, authoritative) =>
      var state := env.apply(calls, order, b);
      if state == Some(PPaid) then OwesCredit(order)
      else if !authoritative && state.Some? && state.value in {PCreated, PWaiting, PDetected, PConfirming} then OwesInspect(order, b)
      else Nothing
    case InspectCall(b) =>
      var evidence := env.inspect(calls, b);
      if evidence.Some? && evidence.value.Some? && calls != [] && calls[|calls| - 1].ApplyCall?
      then OwesEvidence(calls[|calls| - 1].order, evidence.value.value)
      else Nothing
    case _ => Nothing
  }

  ghost function Owes(env: Env, calls: seq<Call>): Owed {
    if calls == [] then Nothing else OwedAfter(env, calls[..|calls| - 1], calls[|calls| - 1])
  }

  // The call may come next: it is what is owed or, when nothing is, the start of something; and it says what the
  // environment answered. Before anything else the run credits orders listed as paid.
  ghost predicate MayFollow(env: Env, paid: set<Id>, calls: seq<Call>, c: Call) {
    match c
    case FindPage(request, cursor, page) => Owes(env, calls) == Nothing && env.find(calls, request, cursor) == Some(page)
    case ApplyCall(order, b, authoritative) =>
      env.apply(calls, order, b).Some? && Owes(env, calls) == if authoritative then OwesEvidence(order, b) else Nothing
    case InspectCall(b) => env.inspect(calls, b).Some? && Owes(env, calls).OwesInspect? && Owes(env, calls).observed == b
    case CreditCall(order, created) =>
      && env.credit(calls, order) == Some(created)
      && (Owes(env, calls) == OwesCredit(order) || (OnlyCredits(calls) && order in paid))
    case ExpireCall(order) => Owes(env, calls) == Nothing && env.expire(calls, order) == Some(true)
  }

  ghost predicate OnlyCredits(calls: seq<Call>) { forall i :: 0 <= i < |calls| ==> calls[i].CreditCall? }

  ghost predicate Orderly(env: Env, paid: set<Id>, calls: seq<Call>) {
    forall i :: 0 <= i < |calls| ==> MayFollow(env, paid, calls[..i], calls[i])
  }

  ghost function PaidIds(orders: seq<Order>): set<Id> { set o | o in orders && o.status == SPaid :: o.id }

  lemma OrderlyMore(env: Env, paid: set<Id>, calls: seq<Call>, c: Call)
    requires Orderly(env, paid, calls) && MayFollow(env, paid, calls, c)
    ensures Orderly(env, paid, calls + [c]) && Owes(env, calls + [c]) == OwedAfter(env, calls, c)
  {
    hide MayFollow;
    var all := calls + [c];
    assert all[..|calls|] == calls;
    forall i | 0 <= i < |all| ensures MayFollow(env, paid, all[..i], all[i]) {
      if i < |calls| { assert all[..i] == calls[..i]; }
    }
  }

  lemma OnlyCreditsOweNothing(env: Env, calls: seq<Call>)
    requires OnlyCredits(calls)
    ensures Owes(env, calls) == Nothing
  {
  }

  // ---- what is applied ----

  // The candidates applied, in order, each with the order it was applied to.
  function Applied(calls: seq<Call>): seq<(Id, Observed)> {
    if calls == [] then []
    else
      var last := calls[|calls| - 1];
      Applied(calls[..|calls| - 1]) + if last.ApplyCall? && !last.authoritative then [(last.order, last.observed)] else []
  }

  // The candidates among some observations, in order, each with the order of the group it pays.
  ghost function Due(group: seq<Order>, at: int, observations: seq<Observed>): seq<(Id, Observed)>
    requires Group(group)
  {
    if observations == [] then []
    else Due(group, at, observations[..|observations| - 1]) + DueFor(group, at, observations[|observations| - 1])
  }

  ghost function DueFor(group: seq<Order>, at: int, b: Observed): seq<(Id, Observed)>
    requires Group(group)
  {
    if i :| 0 <= i < |group| && Candidate(group[i], at, b) then [(group[i].id, b)] else []
  }

  ghost function DueOn(group: seq<Order>, at: int, pages: seq<Call>): seq<(Id, Observed)>
    requires Group(group) && forall i :: 0 <= i < |pages| ==> pages[i].FindPage?
  {
    if pages == [] then []
    else DueOn(group, at, pages[..|pages| - 1]) + Due(group, at, pages[|pages| - 1].page.observations)
  }

  // At every read of a stretch of calls, and at its end, exactly the candidates of the pages read so far have been applied.
  ghost predicate Prompt(calls: seq<Call>, group: seq<Order>, at: int)
    requires Group(group)
  {
    forall j :: 0 <= j <= |calls| && (j == |calls| || calls[j].FindPage?) ==> UpToDate(calls[..j], group, at)
  }

  ghost predicate UpToDate(calls: seq<Call>, group: seq<Order>, at: int)
    requires Group(group)
  {
    var pages := Reads(calls);
    (forall i :: 0 <= i < |pages| ==> pages[i].FindPage?) && Applied(calls) == DueOn(group, at, pages)
  }

  // Whatever is applied as a candidate was on a page read before, in the window and of the amount and address of a listed
  // order.
  ghost predicate Grounded(calls: seq<Call>, orders: seq<Order>, at: int) {
    forall i :: 0 <= i < |calls| && calls[i].ApplyCall? && !calls[i].authoritative ==>
      GroundedAt(calls[..i], calls[i].order, calls[i].observed, orders, at)
  }

  ghost predicate GroundedAt(calls: seq<Call>, order: Id, b: Observed, orders: seq<Order>, at: int) {
    && (exists j :: 0 <= j < |calls| && calls[j].FindPage? && b in calls[j].page.observations)
    && (exists o :: o in orders && o.id == order && Sound(o) && Candidate(o, at, b))
  }

  lemma AppliedMore(calls: seq<Call>, c: Call)
    ensures Applied(calls + [c]) == Applied(calls) + if c.ApplyCall? && !c.authoritative then [(c.order, c.observed)] else []
  {
    assert (calls + [c])[..|calls|] == calls;
  }

  class Service {
    const env: Env
    const maxOrders: nat
    const maxPages: nat
    var calls: seq<Call>
    var tally: Tally
    ghost var paid: set<Id>

    constructor (env: Env, maxOrders: nat, maxPages: nat)
      requires maxOrders > 0 && maxPages > 0
      ensures this.env == env && this.maxOrders == maxOrders && this.maxPages == maxPages && calls == [] && tally == NOTHING && paid == {}
    {
      this.env, this.maxOrders, this.maxPages := env, maxOrders, maxPages;
      calls, tally, paid := [], NOTHING, {};
    }

    // One run's counters agree with what the run has asked so far, and all of that was in order.
    ghost predicate Counted() reads this { tally == TallyOf(calls) && Orderly(env, paid, calls) }

    // And nothing that was answered still calls for something.
    ghost predicate Even() reads this { Owes(env, calls) == Nothing }

    method Record(c: Call)
      requires Counted() && MayFollow(env, paid, calls, c)
      modifies this`calls, this`tally
      ensures calls == old(calls) + [c] && Counted()
      ensures Owes(env, calls) == OwedAfter(env, old(calls), c)
      ensures Reads(calls) == Reads(old(calls)) + if c.FindPage? then [c] else []
      ensures Applied(calls) == Applied(old(calls)) + if c.ApplyCall? && !c.authoritative then [(c.order, c.observed)] else []
    {
      hide MayFollow, OwedAfter;
      TallyMore(calls, c);
      OrderlyMore(env, paid, calls, c);
      ReadsMore(calls, c);
      AppliedMore(calls, c);
      calls, tally := calls + [c], Add(tally, c);
    }

    method CreditOrThrow(order: Id) returns (r: Option<Failure>)
      requires Counted() && (Owes(env, calls) == OwesCredit(order) || (OnlyCredits(calls) && order in paid))
      modifies this`calls, this`tally
      ensures Counted() && Reads(calls) == Reads(old(calls)) && Applied(calls) == Applied(old(calls))
      ensures r.Some? ==> calls == old(calls)
      ensures r.None? ==>
        && |calls| == |old(calls)| + 1 && old(calls) < calls
        && calls[|old(calls)|].CreditCall? && calls[|old(calls)|].order == order && Even()
      ensures r.None? ==> CreditAsked(calls, order)
    {
      hide Counted, Reads, Applied, Owes;
      var answer := env.credit(calls, order);
      if answer.None? { return Some(CreditFailed); }
      Record(CreditCall(order, answer.value));
      assert CreditCall(order, answer.value) in calls;
      r := None;
    }

    method ApplyOrThrow(order: Id, observed: Observed, authoritative: bool) returns (r: Result<PurchaseState, Failure>)
      requires Counted() && Owes(env, calls) == if authoritative then OwesEvidence(order, observed) else Nothing
      modifies this`calls, this`tally
      ensures Counted() && Reads(calls) == Reads(old(calls))
      ensures if r.Err? then calls == old(calls)
              else calls == old(calls) + [ApplyCall(order, observed, authoritative)] && env.apply(old(calls), order, observed) == Some(r.value)
      ensures r.Ok? ==> Owes(env, calls) == OwedAfter(env, old(calls), ApplyCall(order, observed, authoritative))
      ensures r.Ok? ==> Applied(calls) == Applied(old(calls)) + if authoritative then [] else [(order, observed)]
    {
      hide Counted, Reads, Applied, Owes, OwedAfter;
      var answer := env.apply(calls, order, observed);
      if answer.None? { return Err(LifecycleFailed); }
      Record(ApplyCall(order, observed, authoritative));
      r := Ok(answer.value);
    }

    // What is done about one candidate: it is applied once, and what the answers then call for is done.
    method Settle(order: Id, observed: Observed) returns (r: Option<Failure>)
      requires Counted() && Even()
      modifies this`calls, this`tally
      ensures Counted() && old(calls) <= calls && Reads(calls) == Reads(old(calls))
      ensures forall i :: |old(calls)| <= i < |calls| ==> OfCandidate(calls[i], order, observed)
      ensures r.None? ==> Even() && Applied(calls) == Applied(old(calls)) + [(order, observed)]
    {
      hide Reads, Counted, Applied, Owes;
      var state := ApplyOrThrow(order, observed, false);
      if state.Err? { return Some(state.error); }
      if state.value == PPaid { r := CreditOrThrow(order); return; }
      if state.value in {PCredited, PExpired, PFailed} { return None; }
      r := Verify(order, observed);
    }

    // The finality check of a candidate that is still open.
    method Verify(order: Id, observed: Observed) returns (r: Option<Failure>)
      requires Counted() && Owes(env, calls) == OwesInspect(order, observed)
      requires calls != [] && calls[|calls| - 1] == ApplyCall(order, observed, false)
      modifies this`calls, this`tally
      ensures Counted() && old(calls) <= calls && Reads(calls) == Reads(old(calls)) && Applied(calls) == Applied(old(calls))
      ensures forall i :: |old(calls)| <= i < |calls| ==> OfCandidate(calls[i], order, observed)
      ensures r.None? ==> Even()
    {
      hide Reads, Counted, Applied, Owes;
      var authoritative := env.inspect(calls, observed);
      if authoritative.None? { return Some(Unavailable); }
      Record(InspectCall(observed));
      if authoritative.value.None? { return None; }
      var final := ApplyOrThrow(order, authoritative.value.value, true);
      if final.Err? { return Some(final.error); }
      if final.value == PPaid { r := CreditOrThrow(order); return; }
      r := None;
    }

    // amountToOrder and the start of the scan's range.
    method Index(group: seq<Order>) returns (r: Result<(map<int, Order>, int), Failure>)
      requires Group(group)
      ensures r.Ok? ==> DistinctAmounts(group) && IndexOf(group, r.value.0) && Earliest(group, r.value.1)
      ensures r.Err? ==> r == Err(DuplicateAmount) && !DistinctAmounts(group)
    {
      hide IndexOf, DistinctAmounts;
      SoundGroup(group);
      var amountToOrder: map<int, Order>, minMs := map[], group[0].createdAt.ms;
      EmptyIndex();
      assert group[..0] == [];
      for i := 0 to |group|
        invariant DistinctAmounts(group[..i]) && IndexOf(group[..i], amountToOrder)
        invariant forall j :: 0 <= j < |group| ==> group[j].createdAt.Instant?
        invariant forall j :: 0 <= j < i ==> minMs <= group[j].createdAt.ms
        invariant exists j :: 0 <= j < |group| && minMs == group[j].createdAt.ms
      {
        var order := group[i];
        minMs := Min(minMs, order.createdAt.ms);
        IndexMore(group, i, amountToOrder);
        if order.expectation.amount in amountToOrder { return Err(DuplicateAmount); }
        amountToOrder := amountToOrder[order.expectation.amount := order];
      }
      assert group[..|group|] == group;
      r := Ok((amountToOrder, minMs));
    }

    // One page of candidates, the page just read: each candidate is settled in turn, and nothing else is done.
    method Match(group: seq<Order>, at: int, amountToOrder: map<int, Order>, observations: seq<Observed>, ghost listed: seq<Order>)
      returns (r: Result<set<Id>, Failure>)
      requires Counted() && Even() && Group(group) && DistinctAmounts(group) && IndexOf(group, amountToOrder)
      requires Grounded(calls, listed, at) && forall o :: o in group ==> o in listed
      requires calls != [] && calls[|calls| - 1].FindPage? && calls[|calls| - 1].page.observations == observations
      modifies this`calls, this`tally
      ensures Counted() && old(calls) <= calls && NoExpiry(calls[|old(calls)|..]) && Reads(calls) == Reads(old(calls))
      ensures forall i :: |old(calls)| <= i < |calls| ==> !calls[i].FindPage?
      ensures Grounded(calls, listed, at)
      ensures r.Ok? ==> r.value == MatchedOn(group, at, observations)
      ensures r.Ok? ==> Even() && Applied(calls) == Applied(old(calls)) + Due(group, at, observations)
    {
      hide Counted, Reads, Applied, Owes, Candidate, MatchedOn, DistinctAmounts, IndexOf, Group, Due, DueFor, Grounded;
      var matched: set<Id> := {};
      NoneMatched(group, at);
      assert calls[|calls|..] == [];
      for i := 0 to |observations|
        invariant Counted() && Even() && old(calls) <= calls && NoExpiry(calls[|old(calls)|..]) && Reads(calls) == Reads(old(calls))
        invariant forall j :: |old(calls)| <= j < |calls| ==> !calls[j].FindPage?
        invariant Grounded(calls, listed, at)
        invariant matched == MatchedOn(group, at, observations[..i])
        invariant Applied(calls) == Applied(old(calls)) + Due(group, at, observations[..i])
      {
        var b := observations[i];
        MatchedMore(group, at, observations, i);
        var paid := Payee(group, amountToOrder, b);
        if paid.Some? {
          if b.blockTimestamp.None? || b.blockTimestamp.value.NotATime? { return Err(TimestampMissing); }
          if InWindow(paid.value, at, b) {
            IsCandidate(paid.value, at, b);
            PaysOne(group, at, paid.value, b);
            matched := matched + {paid.value.id};
            ghost var before := calls;
            var failed := Settle(paid.value.id, b);
            CandidateSettled(old(calls), before, calls, listed, at, paid.value, b);
            if failed.Some? { return Err(failed.value); }
          } else {
            PaysNone(group, at, paid, b);
          }
        } else {
          PaysNone(group, at, paid, b);
        }
      }
      assert observations[..|observations|] == observations;
      r := Ok(matched);
    }

    // The order an observation is for, by address and amount.
    method Payee(group: seq<Order>, amountToOrder: map<int, Order>, b: Observed) returns (r: Option<Order>)
      requires Group(group) && IndexOf(group, amountToOrder)
      ensures r.Some? ==> r.value in group && Sound(r.value) && Addressed(r.value, b) && r.value.expectation.amount == b.amount
      ensures r.None? ==> forall o :: o in group ==> !(Addressed(o, b) && o.expectation.amount == b.amount)
    {
      if !Addressed(group[0], b) {
        forall o | o in group ensures !Addressed(o, b) { assert SameNamespace(o, group[0]); }
        return None;
      }
      if b.amount !in amountToOrder { return None; }
      var o := amountToOrder[b.amount];
      assert SameNamespace(o, group[0]);
      r := Some(o);
    }

    // scanOrders: it returns only when it has read every page, no more than the bound allows, and has settled every
    // candidate on each of them before it read the next.
    method ScanOrders(group: seq<Order>, at: int, maxMs: int, ghost listed: seq<Order>)
      returns (r: Result<set<Id>, Failure>, ghost minMs: int)
      requires Counted() && Even() && Group(group) && Grounded(calls, listed, at) && forall o :: o in group ==> o in listed
      modifies this`calls, this`tally
      ensures Counted() && old(calls) <= calls && NoExpiry(calls[|old(calls)|..]) && Grounded(calls, listed, at)
      ensures r.Ok? ==> Even() && DistinctAmounts(group) && Earliest(group, minMs)
      ensures r.Ok? ==> Scanned(calls[|old(calls)|..], RequestFor(group[0], minMs, maxMs), group, at, maxPages, r.value)
    {
      hide Counted, DistinctAmounts, IndexOf, Chained, MatchedIn, MatchedOn, Reads, Applied, Owes, Due, Prompt, Grounded, Group;
      minMs := 0;
      var index := Index(group);
      if index.Err? { return Err(index.error), 0; }
      minMs := index.value.1;
      var request := RequestFor(group[0], index.value.1, maxMs);
      var cursor: Option<string>, seenCursors: set<string>, matched: set<Id> := None, {}, {};
      ghost var pages: seq<Call> := [];
      NothingRead(group, at, request);
      assert calls[|old(calls)|..] == [];
      var pageIndex := 0;
      while pageIndex < maxPages
        invariant 0 <= pageIndex <= maxPages && |pages| == pageIndex
        invariant Counted() && Even() && old(calls) <= calls && NoExpiry(calls[|old(calls)|..]) && Grounded(calls, listed, at)
        invariant pages == Reads(calls[|old(calls)|..]) && Chained(pages, request)
        invariant Prompt(calls[|old(calls)|..], group, at)
        invariant forall i :: 0 <= i < |pages| ==> pages[i].FindPage?
        invariant cursor == if pages == [] then None else pages[|pages| - 1].page.nextCursor
        invariant pages != [] ==> cursor.Some?
        invariant matched == MatchedIn(group, at, pages)
      {
        var page := env.find(calls, request, cursor);
        if page.None? { return Err(Unavailable), minMs; }
        ghost var before := calls;
        var read := FindPage(request, cursor, page.value);
        Record(read);
        ghost var middle := calls;
        ReadIsGrounded(before, read, listed, at);
        var more := Match(group, at, index.value.0, page.value.observations, listed);
        PageRead(old(calls), before, middle, calls, read);
        if more.Err? { return Err(more.error), minMs; }
        PageSettled(old(calls), before, middle, calls, read, group, at);
        OneMorePage(group, at, request, pages, read);
        matched := matched + more.value;
        pages := pages + [read];
        if page.value.nextCursor.None? { return Ok(matched), minMs; }
        if !NonEmpty(page.value.nextCursor.value) || page.value.nextCursor.value in seenCursors { return Err(InvalidCursor), minMs; }
        seenCursors := seenCursors + {page.value.nextCursor.value};
        cursor := page.value.nextCursor;
        pageIndex := pageIndex + 1;
      }
      return Err(PageCapacityExceeded), minMs;
    }

    // The overdue loop: an order whose quote has expired is scanned alone up to that expiry, and is let expire only when
    // that scan shows no payment for it.
    method ExpireOverdue(listed: seq<Order>, at: int) returns (r: Option<Failure>)
      requires Counted() && Even() && (forall o :: o in listed ==> Sound(o))
      requires Grounded(calls, listed, at) && ExpiriesJustified(calls, listed, at, maxPages)
      modifies this`calls, this`tally
      ensures Counted() && old(calls) <= calls && Grounded(calls, listed, at) && ExpiriesJustified(calls, listed, at, maxPages)
      ensures r.None? ==> Even()
      ensures r.None? ==> forall o :: o in listed && Overdue(o, at) ==> Covered(calls, o, listed, at, maxPages) && Resolved(calls, o, at)
    {
      hide Counted, ExpiriesJustified, Covered, Grounded, Owes, Resolved;
      for i := 0 to |listed|
        invariant Counted() && Even() && old(calls) <= calls && Grounded(calls, listed, at) && ExpiriesJustified(calls, listed, at, maxPages)
        invariant forall j :: 0 <= j < i && Overdue(listed[j], at) ==>
          Covered(calls, listed[j], listed, at, maxPages) && Resolved(calls, listed[j], at)
      {
        if Overdue(listed[i], at) {
          ghost var before := calls;
          var failed := ExpireOne(listed, listed[i], at);
          CoveredStays(before, calls, listed, at, maxPages);
          ResolvedStays(before, calls, at);
          if failed.Some? { return failed; }
        }
      }
      r := None;
    }

    method ExpireOne(ghost listed: seq<Order>, o: Order, at: int) returns (r: Option<Failure>)
      requires Counted() && Even() && o in listed && Sound(o) && Overdue(o, at)
      requires Grounded(calls, listed, at) && ExpiriesJustified(calls, listed, at, maxPages)
      modifies this`calls, this`tally
      ensures Counted() && old(calls) <= calls && Grounded(calls, listed, at) && ExpiriesJustified(calls, listed, at, maxPages)
      ensures r.None? ==> Even()
      ensures r.None? ==> Covered(calls, o, listed, at, maxPages) && Resolved(calls, o, at)
    {
      hide Counted, ExpiriesJustified, Scanned, Grounded, Owes, Reads, Applied;
      var matched, minMs := ScanOrders([o], at, o.expiresAt.value.ms, listed);
      QuietIsJustified(old(calls), calls, listed, at, maxPages);
      if matched.Err? { return Some(matched.error); }
      CoveredNow(old(calls), calls, [o], o, listed, minMs, o.expiresAt.value.ms, at, maxPages, matched.value);
      if o.id in matched.value {
        MatchedIsResolved(old(calls), calls, o, minMs, at, maxPages, matched.value);
        return None;
      }
      var answer := env.expire(calls, o.id);
      if answer.None? { return Some(Unavailable); }
      if !answer.value { return Some(ExpiryOrderNotFound); }
      ghost var scanned := calls;
      Record(ExpireCall(o.id));
      QuietIsGrounded(scanned, ExpireCall(o.id), listed, at);
      ExpiryJustified(old(calls), scanned, listed, o, at, minMs, maxPages, matched.value);
      CoveredStays(scanned, calls, listed, at, maxPages);
      assert calls[|calls| - 1] == ExpireCall(o.id);
      r := None;
    }

    // The rest of the open orders, one scan for each pair of token and address.
    method ScanGroups(groups: seq<seq<Order>>, ghost listed: seq<Order>, at: int) returns (r: Option<Failure>)
      requires Counted() && Even() && Grounded(calls, listed, at) && ExpiriesJustified(calls, listed, at, maxPages)
      requires forall g :: g in groups ==> Group(g) && forall o :: o in g ==> o in listed
      modifies this`calls, this`tally
      ensures Counted() && old(calls) <= calls && Grounded(calls, listed, at) && ExpiriesJustified(calls, listed, at, maxPages)
      ensures r.None? ==> Even()
      ensures r.None? ==> forall g, o :: g in groups && o in g ==> Covered(calls, o, listed, at, maxPages)
      ensures r.None? ==> forall g :: g in groups ==> DistinctAmounts(g)
    {
      hide Counted, ExpiriesJustified, Covered, Group, Scanned, DistinctAmounts, Grounded, Owes;
      for i := 0 to |groups|
        invariant Counted() && Even() && old(calls) <= calls && Grounded(calls, listed, at) && ExpiriesJustified(calls, listed, at, maxPages)
        invariant forall j, o :: 0 <= j < i && o in groups[j] ==> Covered(calls, o, listed, at, maxPages)
        invariant forall j :: 0 <= j < i ==> DistinctAmounts(groups[j])
      {
        var group := groups[i];
        var maxMs := LatestBound(group, at);
        ghost var before := calls;
        var matched, minMs := ScanOrders(group, at, maxMs, listed);
        QuietIsJustified(before, calls, listed, at, maxPages);
        CoveredStays(before, calls, listed, at, maxPages);
        if matched.Err? { return Some(matched.error); }
        forall o | o in group ensures Covered(calls, o, listed, at, maxPages) {
          CoveredNow(before, calls, group, o, listed, minMs, maxMs, at, maxPages, matched.value);
        }
      }
      r := None;
    }

    // Math.max over the upper bounds of the group's windows.
    method LatestBound(group: seq<Order>, at: int) returns (maxMs: int)
      requires Group(group)
      ensures forall o :: o in group ==> Sound(o) && Min(at, o.expiresAt.value.ms) <= maxMs
    {
      maxMs := Min(at, group[0].expiresAt.value.ms);
      for i := 1 to |group|
        invariant forall j :: 0 <= j < i ==> Min(at, group[j].expiresAt.value.ms) <= maxMs
      {
        assert Sound(group[i]);
        maxMs := Max(maxMs, Min(at, group[i].expiresAt.value.ms));
      }
    }

    // groups: the active orders by token and address, in the order they were listed.
    method GroupActive(listed: seq<Order>, at: int) returns (groups: seq<seq<Order>>)
      requires forall o :: o in listed ==> Sound(o)
      ensures forall g :: g in groups ==> Group(g)
      ensures forall o :: o in listed && Active(o, at) ==> exists g :: g in groups && o in g
      ensures forall g, o :: g in groups && o in g ==> o in listed && Active(o, at)
    {
      hide Group;
      groups := [];
      for i := 0 to |listed|
        invariant forall j :: 0 <= j < |groups| ==> Group(groups[j])
        invariant forall o :: o in listed[..i] && Active(o, at) ==> InSome(groups, o)
        invariant forall j, o :: 0 <= j < |groups| && o in groups[j] ==> o in listed && Active(o, at)
      {
        assert listed[..i + 1] == listed[..i] + [listed[i]];
        if Active(listed[i], at) {
          ghost var before := groups;
          var k := FindGroup(groups, listed[i]);
          if k < |groups| {
            GroupGrows(groups[k], listed[i]);
            groups := groups[k := groups[k] + [listed[i]]];
          } else {
            GroupStarts(listed[i]);
            groups := groups + [[listed[i]]];
          }
          Placed(before, groups, k, listed[i]);
        }
      }
      assert listed[..|listed|] == listed;
    }

    method FindGroup(groups: seq<seq<Order>>, o: Order) returns (k: nat)
      requires forall j :: 0 <= j < |groups| ==> Group(groups[j])
      ensures k <= |groups| && (k < |groups| ==> groups[k] != [] && SameNamespace(o, groups[k][0]))
    {
      k := 0;
      while k < |groups|
        invariant 0 <= k <= |groups|
      {
        if SameNamespace(o, groups[k][0]) { return; }
        k := k + 1;
      }
    }

    // The orders already paid are credited before anything else.
    method CreditPaid(listed: seq<Order>) returns (r: Option<Failure>)
      requires Counted() && OnlyCredits(calls) && paid == PaidIds(listed)
      modifies this`calls, this`tally
      ensures Counted() && old(calls) <= calls && OnlyCredits(calls)
      ensures r.None? ==> forall o :: o in listed && o.status == SPaid ==> CreditAsked(calls, o.id)
    {
      hide Counted, Reads, Applied, Owes, CreditAsked;
      for i := 0 to |listed|
        invariant Counted() && old(calls) <= calls && OnlyCredits(calls)
        invariant forall j :: 0 <= j < i && listed[j].status == SPaid ==> CreditAsked(calls, listed[j].id)
      {
        if listed[i].status == SPaid {
          ghost var before := calls;
          assert listed[i].id in PaidIds(listed);
          var failed := CreditOrThrow(listed[i].id);
          if failed.Some? { return failed; }
          AskedStays(before, calls);
        }
      }
      r := None;
    }

    // runOnce, on the orders the repository listed. Every call is in order (Orderly): each answer is followed by what it
    // calls for, and a normal return leaves nothing owed. What is applied was found (Grounded), and all that is found is
    // applied (Covered, which holds Prompt).
    method RunOnce(listed: seq<Order>, scanStartedAt: Time) returns (r: Result<(nat, Tally), Failure>)
      modifies this`calls, this`tally, this`paid
      ensures Orderly(env, PaidIds(listed), calls)
      ensures scanStartedAt.Instant? ==> Grounded(calls, listed, scanStartedAt.ms)
      ensures scanStartedAt.Instant? ==> ExpiriesJustified(calls, listed, scanStartedAt.ms, maxPages)
      ensures r.Ok? ==> Owes(env, calls) == Nothing
      ensures r.Ok? ==> scanStartedAt.Instant? && |listed| <= maxOrders && r.value == (|listed|, TallyOf(calls))
      ensures r.Ok? ==> forall o :: o in listed ==>
        Sound(o) && (o.status != SPaid ==> Covered(calls, o, listed, scanStartedAt.ms, maxPages))
      ensures r.Ok? ==> forall o :: o in listed && o.status == SPaid ==> CreditAsked(calls, o.id)
      ensures r.Ok? ==> forall o :: o in listed && Sound(o) && o.status == SWaiting && o.expiresAt.value.ms <= scanStartedAt.ms ==>
        Resolved(calls, o, scanStartedAt.ms)
    {
      calls, tally, paid := [], NOTHING, PaidIds(listed);
      if scanStartedAt.NotATime? { return Err(InvalidScanTime); }
      var at := scanStartedAt.ms;
      if |listed| > maxOrders { return Err(CapacityExceeded); }
      for i := 0 to |listed|
        invariant forall j :: 0 <= j < i ==> OrderFault(listed[j]).None?
      {
        if OrderFault(listed[i]).Some? { return Err(OrderFault(listed[i]).value); }
      }
      forall o | o in listed ensures Sound(o) { SoundOrder(o); }
      SoundIsOverdue(listed, at);
      hide ExpiriesJustified, Covered, Group, OrderFault, Sound, DistinctAmounts, CreditAsked, Grounded, MayFollow, Owes, PaidIds,
        Reads, Applied, Resolved, Overdue;
      var failed := CreditPaid(listed);
      ghost var credited := calls;
      NothingExpired(calls, listed, at, maxPages);
      OnlyCreditsOweNothing(env, calls);
      if failed.Some? { return Err(failed.value); }
      failed := ExpireOverdue(listed, at);
      if failed.Some? { return Err(failed.value); }
      ghost var before := calls;
      var groups := GroupActive(listed, at);
      failed := ScanGroups(groups, listed, at);
      CoveredStays(before, calls, listed, at, maxPages);
      AskedStays(credited, calls);
      ResolvedStays(before, calls, at);
      if failed.Some? { return Err(failed.value); }
      forall o | o in listed && o.status != SPaid ensures Covered(calls, o, listed, at, maxPages) { OverdueOrActive(o, at); }
      r := Ok((|listed|, tally));
    }
  }

  // A call made about one candidate.
  predicate OfCandidate(c: Call, order: Id, observed: Observed) {
    match c
    case ApplyCall(o, b, authoritative) => o == order && (!authoritative ==> b == observed)
    case InspectCall(b) => b == observed
    case CreditCall(o, _) => o == order
    case _ => false
  }

  predicate Earliest(group: seq<Order>, ms: int)
    requires forall i :: 0 <= i < |group| ==> group[i].createdAt.Instant?
  {
    && (forall i :: 0 <= i < |group| ==> ms <= group[i].createdAt.ms)
    && exists i :: 0 <= i < |group| && ms == group[i].createdAt.ms
  }

  // A stretch of calls that reads every page of a request, no more than the bound, and matches what they show.
  ghost predicate Scanned(calls: seq<Call>, request: Request, group: seq<Order>, at: int, maxPages: nat, matched: set<Id>)
    requires Group(group)
  {
    var pages := Reads(calls);
    && Complete(pages, request) && |pages| <= maxPages
    && (forall i :: 0 <= i < |pages| ==> pages[i].FindPage?)
    && matched == MatchedIn(group, at, pages)
    && Prompt(calls, group, at)
  }

  ghost predicate IndexOf(group: seq<Order>, index: map<int, Order>) {
    && (forall a :: a in index ==> index[a] in group && index[a].expectation.amount == a)
    && (forall i :: 0 <= i < |group| ==> group[i].expectation.amount in index && index[group[i].expectation.amount] == group[i])
    && (forall a :: a in index ==> exists i :: 0 <= i < |group| && group[i].expectation.amount == a)
  }

  lemma SoundGroup(group: seq<Order>)
    requires Group(group)
    ensures forall j :: 0 <= j < |group| ==> group[j].createdAt.Instant?
  {
  }

  lemma EmptyIndex()
    ensures DistinctAmounts([]) && IndexOf([], map[])
  {
  }

  // The next order of a group either has an amount already indexed, which ends the scan, or joins the index.
  lemma IndexMore(group: seq<Order>, i: nat, index: map<int, Order>)
    requires i < |group| && DistinctAmounts(group[..i]) && IndexOf(group[..i], index)
    ensures group[i].expectation.amount in index ==> !DistinctAmounts(group)
    ensures group[i].expectation.amount !in index ==>
      DistinctAmounts(group[..i + 1]) && IndexOf(group[..i + 1], index[group[i].expectation.amount := group[i]])
  {
    var before, after := group[..i], group[..i + 1];
    assert after == before + [group[i]];
    if group[i].expectation.amount in index {
      var j :| 0 <= j < |before| && before[j].expectation.amount == group[i].expectation.amount;
      assert group[j] == before[j];
    } else {
      IndexGrows(before, group[i], index);
    }
  }

  lemma IndexGrows(before: seq<Order>, o: Order, index: map<int, Order>)
    requires DistinctAmounts(before) && IndexOf(before, index) && o.expectation.amount !in index
    ensures DistinctAmounts(before + [o]) && IndexOf(before + [o], index[o.expectation.amount := o])
  {
    var after, more := before + [o], index[o.expectation.amount := o];
    assert after[|before|] == o;
    forall a | a in more ensures more[a] in after && more[a].expectation.amount == a {
      if a != o.expectation.amount { assert index[a] in before; }
    }
    forall i | 0 <= i < |after| ensures after[i].expectation.amount in more && more[after[i].expectation.amount] == after[i] {
      if i < |before| { assert after[i] == before[i]; }
    }
    forall a | a in more ensures exists i :: 0 <= i < |after| && after[i].expectation.amount == a {
      if a != o.expectation.amount {
        var i :| 0 <= i < |before| && before[i].expectation.amount == a;
        assert after[i] == before[i];
      }
    }
  }

  lemma NoneMatched(group: seq<Order>, at: int)
    requires Group(group)
    ensures MatchedOn(group, at, []) == {} && Due(group, at, []) == []
  {
  }

  ghost function PaidBy(group: seq<Order>, at: int, b: Observed): set<Id>
    requires Group(group)
  {
    set i | 0 <= i < |group| && Candidate(group[i], at, b) :: group[i].id
  }

  lemma MatchedMore(group: seq<Order>, at: int, observations: seq<Observed>, i: nat)
    requires Group(group) && i < |observations|
    ensures MatchedOn(group, at, observations[..i + 1]) == MatchedOn(group, at, observations[..i]) + PaidBy(group, at, observations[i])
    ensures Due(group, at, observations[..i + 1]) == Due(group, at, observations[..i]) + DueFor(group, at, observations[i])
  {
    hide Candidate, DueFor;
    var before, after := observations[..i], observations[..i + 1];
    assert after == before + [observations[i]];
    assert forall b :: b in after <==> b in before || b == observations[i];
  }

  lemma IsCandidate(o: Order, at: int, b: Observed)
    requires Sound(o) && Addressed(o, b) && b.amount == o.expectation.amount && InWindow(o, at, b)
    ensures Candidate(o, at, b)
  {
  }

  // With distinct amounts an observation pays one order of a group, or none.
  lemma PaysOne(group: seq<Order>, at: int, o: Order, b: Observed)
    requires Group(group) && DistinctAmounts(group) && o in group && Sound(o) && Candidate(o, at, b)
    ensures PaidBy(group, at, b) == {o.id} && DueFor(group, at, b) == [(o.id, b)]
  {
    var k :| 0 <= k < |group| && group[k] == o;
    forall i | 0 <= i < |group| && Candidate(group[i], at, b) ensures i == k {
      assert group[i].expectation.amount == b.amount == group[k].expectation.amount;
    }
    assert o.id in PaidBy(group, at, b);
  }

  lemma PaysNone(group: seq<Order>, at: int, paid: Option<Order>, b: Observed)
    requires Group(group) && DistinctAmounts(group)
    requires paid.Some? ==> paid.value in group && Sound(paid.value) && paid.value.expectation.amount == b.amount && !InWindow(paid.value, at, b)
    requires paid.None? ==> forall o :: o in group ==> !(Addressed(o, b) && o.expectation.amount == b.amount)
    ensures PaidBy(group, at, b) == {} && DueFor(group, at, b) == []
  {
    forall i | 0 <= i < |group| ensures !Candidate(group[i], at, b) {
      assert group[i] in group;
      if paid.Some? {
        var k :| 0 <= k < |group| && group[k] == paid.value;
        assert i != k ==> group[i].expectation.amount != group[k].expectation.amount;
      }
    }
  }

  lemma Stretches(a: seq<Call>, b: seq<Call>, c: seq<Call>)
    requires a <= b <= c && NoExpiry(b[|a|..]) && NoExpiry(c[|b|..])
    ensures NoExpiry(c[|a|..])
  {
    forall i | 0 <= i < |c[|a|..]| ensures !c[|a|..][i].ExpireCall? {
      if i + |a| < |b| { assert c[|a|..][i] == b[|a|..][i]; } else { assert c[|a|..][i] == c[|b|..][i + |a| - |b|]; }
    }
  }

  lemma {:induction false} AppliedTogether(a: seq<Call>, b: seq<Call>)
    ensures Applied(a + b) == Applied(a) + Applied(b)
    decreases |b|
  {
    if b == [] {
      assert a + b == a;
    } else {
      assert (a + b)[..|a + b| - 1] == a + b[..|b| - 1];
      AppliedTogether(a, b[..|b| - 1]);
    }
  }

  lemma {:induction false} NoReads(calls: seq<Call>)
    requires forall i :: 0 <= i < |calls| ==> !calls[i].FindPage?
    ensures Reads(calls) == []
    decreases |calls|
  {
    if calls != [] { NoReads(calls[..|calls| - 1]); }
  }

  lemma ReadIsGrounded(calls: seq<Call>, read: Call, listed: seq<Order>, at: int)
    requires Grounded(calls, listed, at) && read.FindPage?
    ensures Grounded(calls + [read], listed, at)
  {
    QuietIsGrounded(calls, read, listed, at);
  }

  lemma QuietIsGrounded(calls: seq<Call>, c: Call, listed: seq<Order>, at: int)
    requires Grounded(calls, listed, at) && !c.ApplyCall?
    ensures Grounded(calls + [c], listed, at)
  {
    var all := calls + [c];
    forall i | 0 <= i < |all| && all[i].ApplyCall? && !all[i].authoritative
      ensures GroundedAt(all[..i], all[i].order, all[i].observed, listed, at)
    {
      assert all[..i] == calls[..i];
    }
  }

  // A page read and settled keeps a stretch of calls up to date.
  lemma PageSettled(a: seq<Call>, before: seq<Call>, middle: seq<Call>, calls: seq<Call>, read: Call, group: seq<Order>, at: int)
    requires Group(group) && a <= before && middle == before + [read] && read.FindPage? && middle <= calls
    requires forall j :: |middle| <= j < |calls| ==> !calls[j].FindPage?
    requires Prompt(before[|a|..], group, at) && Applied(calls) == Applied(middle) + Due(group, at, read.page.observations)
    ensures Prompt(calls[|a|..], group, at)
  {
    hide Group, Due, Prompt, Applied, Reads;
    var tail := calls[|middle|..];
    AppliedTogether(middle, tail);
    assert middle + tail == calls;
    SameFront(Applied(middle), Applied(tail), Due(group, at, read.page.observations));
    PromptMore(before[|a|..], read, tail, group, at);
    assert calls[|a|..] == before[|a|..] + [read] + tail;
  }

  lemma SameFront<T>(x: seq<T>, y: seq<T>, z: seq<T>)
    requires x + y == x + z
    ensures y == z
  {
    assert (x + y)[|x|..] == y && (x + z)[|x|..] == z;
  }

  lemma PromptMore(calls: seq<Call>, read: Call, tail: seq<Call>, group: seq<Order>, at: int)
    requires Group(group) && read.FindPage? && (forall j :: 0 <= j < |tail| ==> !tail[j].FindPage?)
    requires Prompt(calls, group, at) && Applied(tail) == Due(group, at, read.page.observations)
    ensures Prompt(calls + [read] + tail, group, at)
  {
    hide Group, Due, Reads, Applied, UpToDate;
    var all := calls + [read] + tail;
    assert calls[..|calls|] == calls && all[..|all|] == all;
    assert UpToDate(calls, group, at);
    UpToDateMore(calls, read, tail, group, at);
    forall k | |calls| < k < |all| ensures !all[k].FindPage? { assert all[k] == tail[k - |calls| - 1]; }
    forall j | 0 <= j <= |all| && (j == |all| || all[j].FindPage?) ensures UpToDate(all[..j], group, at) {
      if j <= |calls| { assert all[..j] == calls[..j]; }
    }
  }

  lemma UpToDateMore(calls: seq<Call>, read: Call, tail: seq<Call>, group: seq<Order>, at: int)
    requires Group(group) && read.FindPage? && (forall j :: 0 <= j < |tail| ==> !tail[j].FindPage?)
    requires UpToDate(calls, group, at) && Applied(tail) == Due(group, at, read.page.observations)
    ensures UpToDate(calls + [read] + tail, group, at)
  {
    hide Group, Due, Reads, Applied;
    ReadsMore(calls, read);
    AppliedMore(calls, read);
    ReadsTogether(calls + [read], tail);
    AppliedTogether(calls + [read], tail);
    NoReads(tail);
    var pages := Reads(calls);
    var more := pages + [read];
    assert Reads(calls + [read] + tail) == more;
    assert more[..|pages|] == pages && more[|more| - 1] == read;
    assert forall i :: 0 <= i < |more| ==> more[i].FindPage?;
    assert DueOn(group, at, more) == DueOn(group, at, pages) + Due(group, at, read.page.observations);
  }

  // The calls about one candidate are none of the others' business.
  lemma CandidateSettled(start: seq<Call>, before: seq<Call>, calls: seq<Call>, listed: seq<Order>, at: int, o: Order, b: Observed)
    requires start != [] && start <= before <= calls && start[|start| - 1].FindPage? && b in start[|start| - 1].page.observations
    requires NoExpiry(before[|start|..]) && (forall j :: |start| <= j < |before| ==> !before[j].FindPage?)
    requires forall i :: |before| <= i < |calls| ==> OfCandidate(calls[i], o.id, b)
    requires Grounded(before, listed, at) && o in listed && Sound(o) && Candidate(o, at, b)
    ensures NoExpiry(calls[|start|..]) && (forall j :: |start| <= j < |calls| ==> !calls[j].FindPage?) && Grounded(calls, listed, at)
  {
    hide Sound, Candidate;
    forall i | 0 <= i < |calls[|start|..]| ensures !calls[|start|..][i].ExpireCall? {
      var k := i + |start|;
      if k < |before| { assert calls[k] == before[|start|..][i]; } else { assert OfCandidate(calls[k], o.id, b); }
    }
    forall i | 0 <= i < |calls| && calls[i].ApplyCall? && !calls[i].authoritative
      ensures GroundedAt(calls[..i], calls[i].order, calls[i].observed, listed, at)
    {
      if i < |before| {
        assert calls[..i] == before[..i];
      } else {
        assert OfCandidate(calls[i], o.id, b) && calls[..i][|start| - 1] == start[|start| - 1];
      }
    }
  }

  lemma NothingRead(group: seq<Order>, at: int, request: Request)
    requires Group(group)
    ensures Reads([]) == [] && Chained([], request) && MatchedIn(group, at, []) == {} && Prompt([], group, at)
  {
    assert UpToDate([][..0], group, at);
  }

  lemma PageRead(a: seq<Call>, b: seq<Call>, m: seq<Call>, c: seq<Call>, read: Call)
    requires a <= b && m == b + [read] && m <= c && read.FindPage? && Reads(c) == Reads(m)
    requires NoExpiry(b[|a|..]) && NoExpiry(c[|m|..])
    ensures a <= c && NoExpiry(c[|a|..]) && Reads(c[|a|..]) == Reads(b[|a|..]) + [read]
  {
    hide Reads;
    ReadsMore(b, read);
    OneMoreQuiet(a, b, read);
    Stretches(a, m, c);
    ReadsAfter(a, b);
    ReadsAfter(a, c);
    SameTail(Reads(a), Reads(b[|a|..]), Reads(c[|a|..]), read);
  }

  lemma OneMoreQuiet(a: seq<Call>, b: seq<Call>, read: Call)
    requires a <= b && NoExpiry(b[|a|..]) && !read.ExpireCall?
    ensures NoExpiry((b + [read])[|a|..])
  {
    assert (b + [read])[|a|..] == b[|a|..] + [read];
  }

  lemma ReadsAfter(a: seq<Call>, b: seq<Call>)
    requires a <= b
    ensures Reads(b) == Reads(a) + Reads(b[|a|..])
  {
    ReadsTogether(a, b[|a|..]);
    assert a + b[|a|..] == b;
  }

  lemma SameTail(x: seq<Call>, y: seq<Call>, z: seq<Call>, read: Call)
    requires x + z == x + y + [read]
    ensures z == y + [read]
  {
    assert (x + z)[|x|..] == z && (x + y + [read])[|x|..] == y + [read];
  }

  lemma OneMorePage(group: seq<Order>, at: int, request: Request, pages: seq<Call>, read: Call)
    requires Group(group) && Chained(pages, request) && read.FindPage? && read.request == request
    requires read.cursor == if pages == [] then None else pages[|pages| - 1].page.nextCursor
    requires pages != [] ==> read.cursor.Some?
    requires forall i :: 0 <= i < |pages| ==> pages[i].FindPage?
    ensures Chained(pages + [read], request)
    ensures MatchedIn(group, at, pages + [read]) == MatchedIn(group, at, pages) + MatchedOn(group, at, read.page.observations)
  {
    var all := pages + [read];
    assert all[..|pages|] == pages;
    assert forall i :: 0 <= i < |all| ==> all[i].FindPage?;
    forall i | 0 <= i < |all|
      ensures all[i].request == request && all[i].cursor == CursorBefore(all, i)
      ensures i < |all| - 1 ==> all[i].page.nextCursor.Some?
    {
      assert i > 0 ==> all[i - 1] == pages[i - 1];
      if i < |pages| {
        assert all[i] == pages[i];
        assert pages[i].cursor == CursorBefore(pages, i);
      } else {
        assert all[i] == read;
      }
    }
  }

  // ---- expiries ----

  predicate Overdue(o: Order, at: int) {
    o.status == SWaiting && o.expiresAt.Some? && o.expiresAt.value.Instant? && o.expiresAt.value.ms <= at
  }

  predicate Active(o: Order, at: int) { o.status != SPaid && !Overdue(o, at) }

  lemma SoundIsOverdue(listed: seq<Order>, at: int)
    requires forall o :: o in listed ==> Sound(o)
    ensures forall o :: o in listed && Sound(o) && o.status == SWaiting && o.expiresAt.value.ms <= at ==> Overdue(o, at)
  {
  }

  // The order was let expire, or a payment for it was found.
  ghost predicate Resolved(calls: seq<Call>, o: Order, at: int) {
    || (exists i :: 0 <= i < |calls| && calls[i] == ExpireCall(o.id))
    || (Sound(o) && exists i, b ::
          0 <= i < |calls| && calls[i].FindPage? && b in calls[i].page.observations && Candidate(o, at, b))
  }

  lemma ResolvedStays(a: seq<Call>, b: seq<Call>, at: int)
    requires a <= b
    ensures forall o :: Resolved(a, o, at) ==> Resolved(b, o, at)
  {
    hide Candidate, Sound;
    forall o | Resolved(a, o, at) ensures Resolved(b, o, at) {
      if i :| 0 <= i < |a| && a[i] == ExpireCall(o.id) {
        assert b[i] == ExpireCall(o.id);
      } else {
        var i, x :| 0 <= i < |a| && a[i].FindPage? && x in a[i].page.observations && Candidate(o, at, x);
        assert b[i] == a[i];
      }
    }
  }

  lemma MatchedIsResolved(a: seq<Call>, b: seq<Call>, o: Order, minMs: int, at: int, maxPages: nat, matched: set<Id>)
    requires a <= b && Sound(o) && Group([o]) && o.id in matched
    requires Scanned(b[|a|..], RequestFor(o, minMs, o.expiresAt.value.ms), [o], at, maxPages, matched)
    ensures Resolved(b, o, at)
  {
    hide Candidate, Complete, Prompt, Sound;
    var pages := Reads(b[|a|..]);
    var i, x := MatchedSomewhere(o, at, pages);
    var j := ReadSomewhere(b[|a|..], pages[i]);
    assert b[|a| + j] == pages[i];
  }

  lemma {:induction false} MatchedSomewhere(o: Order, at: int, pages: seq<Call>) returns (i: nat, x: Observed)
    requires Sound(o) && Group([o]) && (forall j :: 0 <= j < |pages| ==> pages[j].FindPage?) && o.id in MatchedIn([o], at, pages)
    ensures i < |pages| && x in pages[i].page.observations && Candidate(o, at, x)
    decreases |pages|
  {
    hide Candidate;
    var last := |pages| - 1;
    if o.id in MatchedIn([o], at, pages[..last]) {
      i, x := MatchedSomewhere(o, at, pages[..last]);
    } else {
      assert o.id in MatchedOn([o], at, pages[last].page.observations);
      i := last;
      x :| x in pages[last].page.observations && Candidate([o][0], at, x);
    }
  }

  lemma {:induction false} ReadSomewhere(calls: seq<Call>, page: Call) returns (j: nat)
    requires page in Reads(calls)
    ensures j < |calls| && calls[j] == page
    decreases |calls|
  {
    var last := |calls| - 1;
    if page in Reads(calls[..last]) { j := ReadSomewhere(calls[..last], page); } else { j := last; }
  }

  lemma OverdueOrActive(o: Order, at: int)
    requires o.status != SPaid
    ensures Overdue(o, at) || Active(o, at)
  {
  }

  lemma SoundOrder(o: Order)
    requires OrderFault(o).None?
    ensures Sound(o)
  {
  }

  // Somewhere in the calls every page of a window that holds the order's was read, for a group of listed orders it is in,
  // and every candidate on them was applied in its turn.
  ghost predicate Covered(calls: seq<Call>, o: Order, listed: seq<Order>, at: int, maxPages: nat) {
    Sound(o) && exists p: nat, q: nat, from: int, to: int, group: seq<Order> ::
      CoveredBy(calls, p, q, from, to, group, o, listed, at, maxPages)
  }

  ghost predicate CoveredBy(calls: seq<Call>, p: nat, q: nat, from: int, to: int, group: seq<Order>, o: Order, listed: seq<Order>,
    at: int, maxPages: nat)
    requires Sound(o)
  {
    && p <= q <= |calls| && from <= o.createdAt.ms && Min(at, o.expiresAt.value.ms) <= to
    && Complete(Reads(calls[p..q]), RequestFor(o, from, to)) && |Reads(calls[p..q])| <= maxPages
    && Group(group) && DistinctAmounts(group) && o in group && (forall g :: g in group ==> g in listed)
    && Prompt(calls[p..q], group, at)
  }

  lemma CoveredStays(a: seq<Call>, b: seq<Call>, listed: seq<Order>, at: int, maxPages: nat)
    requires a <= b
    ensures forall o :: Covered(a, o, listed, at, maxPages) ==> Covered(b, o, listed, at, maxPages)
  {
    hide Sound, Complete, Reads, Group, DistinctAmounts, Prompt;
    forall o | Covered(a, o, listed, at, maxPages) ensures Covered(b, o, listed, at, maxPages) {
      var p: nat, q: nat, from: int, to: int, group :| CoveredBy(a, p, q, from, to, group, o, listed, at, maxPages);
      assert a[p..q] == b[p..q];
      assert CoveredBy(b, p, q, from, to, group, o, listed, at, maxPages);
    }
  }

  lemma CoveredNow(a: seq<Call>, b: seq<Call>, group: seq<Order>, o: Order, listed: seq<Order>, minMs: int, maxMs: int, at: int,
    maxPages: nat, matched: set<Id>)
    requires a <= b && Group(group) && DistinctAmounts(group) && o in group && (forall g :: g in group ==> g in listed)
    requires Earliest(group, minMs) && Min(at, o.expiresAt.value.ms) <= maxMs
    requires Scanned(b[|a|..], RequestFor(group[0], minMs, maxMs), group, at, maxPages, matched)
    ensures Covered(b, o, listed, at, maxPages)
  {
    assert SameNamespace(o, group[0]);
    hide Complete, Reads, MatchedIn, DistinctAmounts, Prompt;
    assert b[|a|..|b|] == b[|a|..];
    assert CoveredBy(b, |a|, |b|, minMs, maxMs, group, o, listed, at, maxPages);
  }

  lemma QuietIsJustified(a: seq<Call>, b: seq<Call>, orders: seq<Order>, at: int, maxPages: nat)
    requires a <= b && NoExpiry(b[|a|..]) && ExpiriesJustified(a, orders, at, maxPages)
    ensures ExpiriesJustified(b, orders, at, maxPages)
  {
    hide Justified;
    forall p | |a| <= p < |b| ensures !b[p].ExpireCall? { assert b[p] == b[|a|..][p - |a|]; }
    forall p | 0 <= p < |b| && b[p].ExpireCall?
      ensures exists o :: o in orders && o.id == b[p].order && Justified(b[..p], o, at, maxPages)
    {
      assert b[..p] == a[..p];
    }
  }

  lemma NothingExpired(calls: seq<Call>, orders: seq<Order>, at: int, maxPages: nat)
    requires OnlyCredits(calls)
    ensures ExpiriesJustified(calls, orders, at, maxPages) && Grounded(calls, orders, at)
  {
  }

  lemma ExpiryJustified(a: seq<Call>, scanned: seq<Call>, orders: seq<Order>, o: Order, at: int, minMs: int, maxPages: nat, matched: set<Id>)
    requires a <= scanned && ExpiriesJustified(scanned, orders, at, maxPages)
    requires o in orders && Sound(o) && Overdue(o, at) && Group([o]) && Earliest([o], minMs) && o.id !in matched
    requires Scanned(scanned[|a|..], RequestFor(o, minMs, o.expiresAt.value.ms), [o], at, maxPages, matched)
    ensures ExpiriesJustified(scanned + [ExpireCall(o.id)], orders, at, maxPages)
  {
    var b := scanned + [ExpireCall(o.id)];
    assert minMs == o.createdAt.ms;
    assert Justified(scanned, o, at, maxPages) by {
      CandidatesAreMatched(o, at, Reads(scanned[|a|..]));
      assert ScannedInVain(scanned[|a|..], o, at, maxPages);
    }
    hide Justified, Scanned;
    forall p | 0 <= p < |b| && b[p].ExpireCall?
      ensures exists x :: x in orders && x.id == b[p].order && Justified(b[..p], x, at, maxPages)
    {
      if p < |scanned| { assert b[..p] == scanned[..p]; } else { assert b[..p] == scanned; }
    }
  }

  lemma CandidatesAreMatched(o: Order, at: int, pages: seq<Call>)
    requires Sound(o) && Group([o]) && (forall j :: 0 <= j < |pages| ==> pages[j].FindPage?)
    ensures forall i, x :: 0 <= i < |pages| && x in pages[i].page.observations && Candidate(o, at, x) ==> o.id in MatchedIn([o], at, pages)
  {
    forall i, x | 0 <= i < |pages| && x in pages[i].page.observations && Candidate(o, at, x) ensures o.id in MatchedIn([o], at, pages) {
      CandidateIsMatched(o, at, pages, i, x);
    }
  }

  lemma {:induction false} CandidateIsMatched(o: Order, at: int, pages: seq<Call>, i: nat, x: Observed)
    requires Sound(o) && Group([o]) && (forall j :: 0 <= j < |pages| ==> pages[j].FindPage?)
    requires i < |pages| && x in pages[i].page.observations && Candidate(o, at, x)
    ensures o.id in MatchedIn([o], at, pages)
    decreases |pages|
  {
    var last := |pages| - 1;
    if i < last {
      CandidateIsMatched(o, at, pages[..last], i, x);
    } else {
      assert Candidate([o][0], at, x);
      assert o.id in MatchedOn([o], at, pages[last].page.observations);
    }
  }

  // ---- groups ----

  ghost predicate InSome(groups: seq<seq<Order>>, o: Order) { exists j :: 0 <= j < |groups| && o in groups[j] }

  lemma GroupGrows(g: seq<Order>, o: Order)
    requires Group(g) && Sound(o) && SameNamespace(o, g[0])
    ensures Group(g + [o])
  {
  }

  lemma GroupStarts(o: Order)
    requires Sound(o)
    ensures Group([o])
  {
  }

  lemma Placed(before: seq<seq<Order>>, after: seq<seq<Order>>, k: nat, o: Order)
    requires k <= |before|
    requires after == if k < |before| then before[k := before[k] + [o]] else before + [[o]]
    ensures InSome(after, o) && forall x :: InSome(before, x) ==> InSome(after, x)
  {
    assert o in after[k];
    forall x | InSome(before, x) ensures InSome(after, x) {
      var j :| 0 <= j < |before| && x in before[j];
      assert x in after[j];
    }
  }

  ghost predicate CreditAsked(calls: seq<Call>, id: Id) { exists c :: c in calls && c.CreditCall? && c.order == id }

  lemma AskedStays(a: seq<Call>, b: seq<Call>)
    requires a <= b
    ensures forall id :: CreditAsked(a, id) ==> CreditAsked(b, id)
  {
  }

  // ---- what a run does about what it finds ----

  // When nothing is owed at the end, what an answer calls for comes right after it.
  lemma WhatIsOwedFollows(env: Env, paid: set<Id>, calls: seq<Call>, i: nat)
    requires Orderly(env, paid, calls) && Owes(env, calls) == Nothing && i < |calls|
    ensures var owed := OwedAfter(env, calls[..i], calls[i]);
      && (owed != Nothing ==> i + 1 < |calls|)
      && (owed.OwesInspect? ==> calls[i + 1] == InspectCall(owed.observed))
      && (owed.OwesEvidence? ==> calls[i + 1] == ApplyCall(owed.order, owed.observed, true))
      && (owed.OwesCredit? ==> calls[i + 1].CreditCall? && calls[i + 1].order == owed.order)
  {
    hide OwedAfter;
    if i + 1 < |calls| {
      assert MayFollow(env, paid, calls[..i + 1], calls[i + 1]);
      assert calls[..i + 1][..i] == calls[..i] && calls[..i + 1][i] == calls[i];
      if OnlyCredits(calls[..i + 1]) { OnlyCreditsOweNothing(env, calls[..i + 1]); }
    } else {
      assert calls[..|calls| - 1] == calls[..i];
    }
  }

  // What follows the application of a candidate: paid, its order is credited; still open, its finality is checked, the
  // evidence that check finds is applied, and the order credited if that made it paid.
  lemma CandidateIsFollowedUp(env: Env, paid: set<Id>, calls: seq<Call>, i: nat)
    requires Orderly(env, paid, calls) && Owes(env, calls) == Nothing && i < |calls| && calls[i].ApplyCall? && !calls[i].authoritative
    ensures var order, b := calls[i].order, calls[i].observed; var state := env.apply(calls[..i], order, b);
      && (state == Some(PPaid) ==> i + 1 < |calls| && calls[i + 1].CreditCall? && calls[i + 1].order == order)
      && (state.Some? && state.value in {PCreated, PWaiting, PDetected, PConfirming} ==>
            && i + 1 < |calls| && calls[i + 1] == InspectCall(b)
            && var found := env.inspect(calls[..i + 1], b);
              found.Some? && found.value.Some? ==>
                && i + 2 < |calls| && calls[i + 2] == ApplyCall(order, found.value.value, true)
                && (env.apply(calls[..i + 2], order, found.value.value) == Some(PPaid) ==>
                      i + 3 < |calls| && calls[i + 3].CreditCall? && calls[i + 3].order == order))
  {
    hide Orderly, Owes;
    WhatIsOwedFollows(env, paid, calls, i);
    if OwedAfter(env, calls[..i], calls[i]).OwesInspect? {
      WhatIsOwedFollows(env, paid, calls, i + 1);
      assert calls[..i + 1][|calls[..i + 1]| - 1] == calls[i];
      if OwedAfter(env, calls[..i + 1], calls[i + 1]).OwesEvidence? { WhatIsOwedFollows(env, paid, calls, i + 2); }
    }
  }

  lemma {:induction false} AppliedSomewhere(calls: seq<Call>, order: Id, b: Observed) returns (q: nat)
    requires (order, b) in Applied(calls)
    ensures q < |calls| && calls[q] == ApplyCall(order, b, false)
    decreases |calls|
  {
    var last := |calls| - 1;
    if (order, b) in Applied(calls[..last]) { q := AppliedSomewhere(calls[..last], order, b); } else { q := last; }
  }

  lemma {:induction false} CandidateIsDue(group: seq<Order>, at: int, observations: seq<Observed>, o: Order, b: Observed)
    requires Group(group) && DistinctAmounts(group) && o in group && Sound(o) && Candidate(o, at, b) && b in observations
    ensures (o.id, b) in Due(group, at, observations)
    decreases |observations|
  {
    var last := |observations| - 1;
    PaysOne(group, at, o, b);
    hide Group, DistinctAmounts, Candidate, DueFor;
    if observations[last] != b { CandidateIsDue(group, at, observations[..last], o, b); }
  }

  lemma NextRead(calls: seq<Call>, p: nat) returns (n: nat)
    requires p < |calls|
    ensures p < n <= |calls| && (n == |calls| || calls[n].FindPage?) && forall j :: p < j < n ==> !calls[j].FindPage?
  {
    n := p + 1;
    while n < |calls| && !calls[n].FindPage?
      invariant p < n <= |calls| && forall j :: p < j < n ==> !calls[j].FindPage?
    {
      n := n + 1;
    }
  }

  // A payment found is applied to its order: in a stretch of calls kept prompt, every candidate on a page is applied after
  // that page was read and before the next one is.
  lemma FoundIsApplied(calls: seq<Call>, group: seq<Order>, at: int, p: nat, o: Order, b: Observed) returns (q: nat)
    requires Group(group) && DistinctAmounts(group) && Prompt(calls, group, at)
    requires p < |calls| && calls[p].FindPage? && b in calls[p].page.observations && o in group && Sound(o) && Candidate(o, at, b)
    ensures p < q < |calls| && calls[q] == ApplyCall(o.id, b, false) && forall j :: p < j <= q ==> !calls[j].FindPage?
  {
    var n := NextRead(calls, p);
    var tail := calls[p + 1..n];
    assert UpToDate(calls[..p], group, at) && UpToDate(calls[..n], group, at);
    hide Prompt, Candidate, Sound, DistinctAmounts;
    TailIsDue(calls, group, at, p, n);
    CandidateIsDue(group, at, calls[p].page.observations, o, b);
    var k := AppliedSomewhere(tail, o.id, b);
    q := p + 1 + k;
  }

  lemma TailIsDue(calls: seq<Call>, group: seq<Order>, at: int, p: nat, n: nat)
    requires Group(group) && p < n <= |calls| && calls[p].FindPage? && forall j :: p < j < n ==> !calls[j].FindPage?
    requires UpToDate(calls[..p], group, at) && UpToDate(calls[..n], group, at)
    ensures Applied(calls[p + 1..n]) == Due(group, at, calls[p].page.observations)
  {
    hide Group, Reads, Applied, Due;
    var tail, read := calls[p + 1..n], calls[p];
    assert calls[..n] == calls[..p] + [read] + tail;
    ReadsMore(calls[..p], read);
    AppliedMore(calls[..p], read);
    ReadsTogether(calls[..p] + [read], tail);
    AppliedTogether(calls[..p] + [read], tail);
    NoReads(tail);
    var pages := Reads(calls[..p]);
    var more := pages + [read];
    assert Reads(calls[..n]) == more;
    assert more[..|pages|] == pages && more[|more| - 1] == read;
    SameFront(Applied(calls[..p]), Applied(tail), Due(group, at, read.page.observations));
  }

  // So every open order of a run that returns normally has a stretch of the calls that reads all pages of its window, and
  // in which every payment found for it is applied to it.
  lemma CoveredIsApplied(calls: seq<Call>, o: Order, listed: seq<Order>, at: int, maxPages: nat)
    returns (p: nat, q: nat, from: int, to: int)
    requires Covered(calls, o, listed, at, maxPages)
    ensures Sound(o) && p <= q <= |calls| && from <= o.createdAt.ms && Min(at, o.expiresAt.value.ms) <= to
    ensures Complete(Reads(calls[p..q]), RequestFor(o, from, to))
    ensures forall j, b :: p <= j < q && calls[j].FindPage? && b in calls[j].page.observations && Candidate(o, at, b) ==>
      exists r :: j < r < q && calls[r] == ApplyCall(o.id, b, false)
  {
    var group;
    p, q, from, to, group :| CoveredBy(calls, p, q, from, to, group, o, listed, at, maxPages);
    hide Complete, Reads, Candidate, Prompt, Group, DistinctAmounts;
    var stretch := calls[p..q];
    forall j, b | p <= j < q && calls[j].FindPage? && b in calls[j].page.observations && Candidate(o, at, b)
      ensures exists r :: j < r < q && calls[r] == ApplyCall(o.id, b, false)
    {
      assert stretch[j - p] == calls[j];
      var r := FoundIsApplied(stretch, group, at, j - p, o, b);
      assert calls[p + r] == stretch[r];
    }
  }

  // Orders listed from the purchase table never have one amount twice on a route: the unique attribution of amounts
  // rules out the scan's duplicate_active_settlement_amount.
  lemma ListedAmountsDiffer(rows: AmountAllocator.Rows, keys: seq<string>, group: seq<Order>)
    requires AmountAllocator.RowsOk(rows) && Group(group) && |keys| == |group|
    requires forall i, j :: 0 <= i < j < |keys| ==> keys[i] != keys[j]
    requires forall i :: 0 <= i < |keys| ==>
               keys[i] in rows && group[i].expectation.asset == USDT && Expected(rows[keys[i]].terms) == Some(group[i].expectation)
    ensures DistinctAmounts(group)
  {
    forall i, j | 0 <= i < j < |group| ensures group[i].expectation.amount != group[j].expectation.amount {
      assert SameNamespace(group[i], group[0]) && SameNamespace(group[j], group[0]);
      var a, b := rows[keys[i]].terms, rows[keys[j]].terms;
      assert AmountAllocator.SameRoute(a, b);
      assert !AmountAllocator.SameAmount(a, b);
    }
  }
}
