// Keyset pages of a customer's orders: listOwnedPage of src/adapters/database/postgres-energy-usage-repository.ts, and
// the same construction in src/adapters/database/postgres-purchase-order-status-repository.ts.
module KeysetPaging {
  import opened Prelude
  import opened Sorting

  type Id = nat

  datatype Row = Row(createdAt: int, id: Id)

  predicate Less(a: Row, b: Row) { a.createdAt < b.createdAt || (a.createdAt == b.createdAt && a.id < b.id) }

  ghost predicate DistinctIds(rows: set<Row>) { forall a, b :: a in rows && b in rows && a.id == b.id ==> a == b }

  predicate Newer(a: Row, b: Row) { Less(b, a) }

  function Descending(rows: set<Row>): (s: seq<Row>)
    ensures Ordered(s, Newer) && (forall x :: x in s <==> x in rows)
  {
    InOrder(rows, Newer)
  }

  function Reverse(s: seq<Row>): (r: seq<Row>)
    ensures |r| == |s| && forall i :: 0 <= i < |s| ==> r[i] == s[|s| - 1 - i]
  {
    seq(|s|, i requires 0 <= i < |s| => s[|s| - 1 - i])
  }

  function Limit(s: seq<Row>, n: nat): seq<Row> { if |s| <= n then s else s[..n] }

  // ---- listOwnedPage ----

  datatype Direction = Next | Previous

  datatype Page = Page(orders: seq<Row>, previousCursor: Option<Id>, nextCursor: Option<Id>)

  // The rows of the page condition; the comparison with a cursor row the customer does not own holds of none.
  function Selected(rows: set<Row>, cursor: Option<Id>, direction: Option<Direction>): set<Row> {
    if cursor.None? then rows
    else if direction == Some(Previous) then set r <- rows | exists c <- rows :: c.id == cursor.value && Less(c, r)
    else set r <- rows | exists c <- rows :: c.id == cursor.value && Less(r, c)
  }

  function ListOwnedPage(rows: set<Row>, limit: nat, cursor: Option<Id>, direction: Option<Direction>): Page
    requires limit >= 1
  {
    PageOf(Descending(Selected(rows, cursor, direction)), limit, cursor, direction)
  }

  // The page made of the selected rows, newest first.
  function PageOf(ordered: seq<Row>, limit: nat, cursor: Option<Id>, direction: Option<Direction>): Page
    requires limit >= 1
  {
    var back := direction == Some(Previous);
    var raw := Limit(if back then Reverse(ordered) else ordered, limit + 1);
    var hasMore := |raw| > limit;
    var selected := Limit(raw, limit);
    Assembled(if back then Reverse(selected) else selected, hasMore, cursor, direction)
  }

  // The page and its cursors.
  function Assembled(orders: seq<Row>, hasMore: bool, cursor: Option<Id>, direction: Option<Direction>): Page {
    var back := direction == Some(Previous);
    if orders == [] then
      Page([], if direction == Some(Next) && cursor.Some? then cursor else None,
               if back && cursor.Some? then cursor else None)
    else
      var first, last := orders[0].id, orders[|orders| - 1].id;
      Page(orders,
           if cursor.None? then None else if back then if hasMore then Some(first) else None else Some(first),
           if cursor.None? then if hasMore then Some(last) else None
           else if back then Some(last) else if hasMore then Some(last) else None)
  }

  // ---- pages as windows of the whole list ----

  // The rows past position i, and the rows before it.
  lemma SelectedIs(rows: set<Row>, i: nat, direction: Option<Direction>)
    requires DistinctIds(rows) && i < |Descending(rows)|
    ensures var all := Descending(rows);
      Descending(Selected(rows, Some(all[i].id), direction)) == if direction == Some(Previous) then all[..i] else all[i + 1..]
  {
    hide Descending, Selected;
    var all := Descending(rows);
    var some := Selected(rows, Some(all[i].id), direction);
    var part := if direction == Some(Previous) then all[..i] else all[i + 1..];
    forall x ensures x in some <==> x in part { SelectedMember(rows, all, i, direction, x); }
    OrderedUnique(Descending(some), part, Newer);
  }

  lemma SelectedMember(rows: set<Row>, all: seq<Row>, i: nat, direction: Option<Direction>, x: Row)
    requires DistinctIds(rows) && Ordered(all, Newer) && (forall y :: y in all <==> y in rows) && i < |all|
    ensures x in Selected(rows, Some(all[i].id), direction) <==>
      x in if direction == Some(Previous) then all[..i] else all[i + 1..]
  {
    assert all[i] in all;
    OneCursor(rows, all[i], direction, x);
    PartOf(all, i, x);
  }

  lemma OneCursor(rows: set<Row>, c: Row, direction: Option<Direction>, x: Row)
    requires DistinctIds(rows) && c in rows
    ensures x in Selected(rows, Some(c.id), direction) <==>
      x in rows && if direction == Some(Previous) then Less(c, x) else Less(x, c)
  {
  }

  lemma PartOf(all: seq<Row>, i: nat, x: Row)
    requires Ordered(all, Newer) && i < |all|
    ensures x in all[..i] <==> x in all && Less(all[i], x)
    ensures x in all[i + 1..] <==> x in all && Less(x, all[i])
  {
    if x in all {
      var k :| 0 <= k < |all| && all[k] == x;
      if k < i { assert all[..i][k] == x; } else if k > i { assert all[i + 1..][k - i - 1] == x; }
    }
  }

  function CursorAt(all: seq<Row>, k: nat): Option<Id> { if k == 0 || k > |all| then None else Some(all[k - 1].id) }

  // The page after position k (none: the first page): the rows k to k + limit.
  lemma NextPage(rows: set<Row>, limit: nat, k: nat, direction: Option<Direction>)
    requires DistinctIds(rows) && limit >= 1 && k < |Descending(rows)| && direction != Some(Previous)
    ensures var all := Descending(rows); var end := Min(k + limit, |all|);
      ListOwnedPage(rows, limit, CursorAt(all, k), direction) ==
        Page(all[k..end], if k == 0 then None else Some(all[k].id), if end < |all| then Some(all[end - 1].id) else None)
  {
    hide Descending, Selected, PageOf;
    var all := Descending(rows);
    if k > 0 { SelectedIs(rows, k - 1, direction); } else { AllSelected(rows, direction); }
    assert all[k..] == Descending(Selected(rows, CursorAt(all, k), direction));
    PageOfNext(all, limit, k, direction);
  }

  lemma AllSelected(rows: set<Row>, direction: Option<Direction>)
    ensures Selected(rows, None, direction) == rows
  {
  }

  lemma PageOfNext(all: seq<Row>, limit: nat, k: nat, direction: Option<Direction>)
    requires limit >= 1 && k < |all| && direction != Some(Previous)
    ensures var end := Min(k + limit, |all|);
      PageOf(all[k..], limit, CursorAt(all, k), direction) ==
        Page(all[k..end], if k == 0 then None else Some(all[k].id), if end < |all| then Some(all[end - 1].id) else None)
  {
    hide Limit, Assembled;
    WindowNext(all, k, limit);
    AssembledNext(all[k..Min(k + limit, |all|)], Min(k + limit, |all|) < |all|, CursorAt(all, k), direction);
  }

  lemma AssembledNext(orders: seq<Row>, hasMore: bool, cursor: Option<Id>, direction: Option<Direction>)
    requires orders != [] && direction != Some(Previous)
    ensures Assembled(orders, hasMore, cursor, direction) ==
      Page(orders, if cursor.None? then None else Some(orders[0].id), if hasMore then Some(orders[|orders| - 1].id) else None)
  {
  }

  lemma AssembledPrevious(orders: seq<Row>, hasMore: bool, cursor: Option<Id>)
    requires orders != [] && cursor.Some?
    ensures Assembled(orders, hasMore, cursor, Some(Previous)) ==
      Page(orders, if hasMore then Some(orders[0].id) else None, Some(orders[|orders| - 1].id))
  {
  }

  lemma WindowNext(all: seq<Row>, k: nat, limit: nat)
    requires k < |all| && limit >= 1
    ensures var raw := Limit(all[k..], limit + 1); var end := Min(k + limit, |all|);
      Limit(raw, limit) == all[k..end] && (|raw| > limit <==> end < |all|) && all[k..end] != []
  {
  }

  // The page before position k > 0: the rows k - limit to k, or from the first.
  lemma PreviousPage(rows: set<Row>, limit: nat, k: nat)
    requires DistinctIds(rows) && limit >= 1 && 0 < k < |Descending(rows)|
    ensures var all := Descending(rows); var start := Max(k - limit, 0);
      ListOwnedPage(rows, limit, Some(all[k].id), Some(Previous)) ==
        Page(all[start..k], if start > 0 then Some(all[start].id) else None, Some(all[k - 1].id))
  {
    hide Descending, Selected, PageOf;
    var all := Descending(rows);
    SelectedIs(rows, k, Some(Previous));
    PageOfPrevious(all, limit, k);
  }

  lemma PageOfPrevious(all: seq<Row>, limit: nat, k: nat)
    requires limit >= 1 && 0 < k < |all|
    ensures var start := Max(k - limit, 0);
      PageOf(all[..k], limit, Some(all[k].id), Some(Previous)) ==
        Page(all[start..k], if start > 0 then Some(all[start].id) else None, Some(all[k - 1].id))
  {
    hide Limit, Reverse, Assembled;
    WindowPrevious(all, k, limit);
    AssembledPrevious(all[Max(k - limit, 0)..k], k - limit > 0, Some(all[k].id));
  }

  lemma WindowPrevious(all: seq<Row>, k: nat, limit: nat)
    requires 0 < k < |all| && limit >= 1
    ensures var raw := Limit(Reverse(all[..k]), limit + 1); var start := Max(k - limit, 0);
      Reverse(Limit(raw, limit)) == all[start..k] && (|raw| > limit <==> start > 0) && Limit(raw, limit) != []
  {
  }

  // ---- the promises ----

  // What following the next cursors shows, from a cursor on.
  ghost function Walk(rows: set<Row>, limit: nat, k: nat): seq<Row>
    requires DistinctIds(rows) && limit >= 1 && k < |Descending(rows)|
    decreases |Descending(rows)| - k
  {
    hide Descending, ListOwnedPage;
    NextPage(rows, limit, k, Some(Next));
    var page := ListOwnedPage(rows, limit, CursorAt(Descending(rows), k), Some(Next));
    if page.nextCursor.None? then page.orders
    else
      assert page.nextCursor == CursorAt(Descending(rows), k + limit);
      page.orders + Walk(rows, limit, k + limit)
  }

  // Following the next cursors visits every order exactly once, newest first, for any number of orders and page size.
  lemma {:induction false} WalkIsEverything(rows: set<Row>, limit: nat, k: nat)
    requires DistinctIds(rows) && limit >= 1 && k < |Descending(rows)|
    ensures Walk(rows, limit, k) == Descending(rows)[k..]
    decreases |Descending(rows)| - k
  {
    hide Descending, ListOwnedPage;
    var all := Descending(rows);
    NextPage(rows, limit, k, Some(Next));
    if k + limit < |all| {
      WalkIsEverything(rows, limit, k + limit);
      Window(all, k, limit);
    }
  }

  lemma Window(all: seq<Row>, k: nat, limit: nat)
    requires k + limit < |all|
    ensures all[k..] == all[k..k + limit] + all[k + limit..]
  {
  }

  // A page as the first request or any cursor of an owned order shows it.
  ghost predicate Shown(rows: set<Row>, limit: nat, page: Page)
    requires limit >= 1
  {
    || (exists direction: Option<Direction> :: direction != Some(Previous) && page == ListOwnedPage(rows, limit, None, direction))
    || (exists c, direction: Option<Direction> :: c in rows && page == ListOwnedPage(rows, limit, Some(c.id), direction))
  }

  // Going forward from a page and back returns the same page with the same cursors.
  lemma PreviousUndoesNext(rows: set<Row>, limit: nat, page: Page)
    requires DistinctIds(rows) && limit >= 1 && Shown(rows, limit, page) && page.orders != [] && page.nextCursor.Some?
    ensures var next := ListOwnedPage(rows, limit, page.nextCursor, Some(Next));
      && next.orders != [] && next.previousCursor.Some?
      && ListOwnedPage(rows, limit, next.previousCursor, Some(Previous)) == page
  {
    hide Descending, ListOwnedPage, Shown;
    var start, end := PageWindow(rows, limit, page);
    NextPage(rows, limit, end, Some(Next));
    PreviousPage(rows, limit, end);
  }

  // Every page that has a next cursor is a window that ends before the last order; a short one starts at the first.
  lemma PageWindow(rows: set<Row>, limit: nat, page: Page) returns (start: nat, end: nat)
    requires DistinctIds(rows) && limit >= 1 && Shown(rows, limit, page) && page.orders != [] && page.nextCursor.Some?
    ensures var all := Descending(rows);
      && start < end < |all| && start == Max(end - limit, 0)
      && page == Page(all[start..end], if start > 0 then Some(all[start].id) else None, Some(all[end - 1].id))
  {
    hide Descending, ListOwnedPage;
    var all := Descending(rows);
    if exists direction: Option<Direction> :: direction != Some(Previous) && page == ListOwnedPage(rows, limit, None, direction) {
      var direction: Option<Direction> :| direction != Some(Previous) && page == ListOwnedPage(rows, limit, None, direction);
      start, end := FirstWindow(rows, limit, page, direction);
    } else {
      var c, direction: Option<Direction> :| c in rows && page == ListOwnedPage(rows, limit, Some(c.id), direction);
      var i :| 0 <= i < |all| && all[i] == c;
      start, end := CursorWindow(rows, limit, page, i, direction);
    }
  }

  lemma FirstWindow(rows: set<Row>, limit: nat, page: Page, direction: Option<Direction>) returns (start: nat, end: nat)
    requires DistinctIds(rows) && limit >= 1 && direction != Some(Previous)
    requires page == ListOwnedPage(rows, limit, None, direction) && page.orders != [] && page.nextCursor.Some?
    ensures var all := Descending(rows);
      && start < end < |all| && start == Max(end - limit, 0)
      && page == Page(all[start..end], if start > 0 then Some(all[start].id) else None, Some(all[end - 1].id))
  {
    hide Descending, ListOwnedPage;
    NotEmpty(rows, limit, direction);
    NextPage(rows, limit, 0, direction);
    start, end := 0, limit;
  }

  lemma CursorWindow(rows: set<Row>, limit: nat, page: Page, i: nat, direction: Option<Direction>) returns (start: nat, end: nat)
    requires DistinctIds(rows) && limit >= 1 && i < |Descending(rows)|
    requires page == ListOwnedPage(rows, limit, Some(Descending(rows)[i].id), direction) && page.orders != [] && page.nextCursor.Some?
    ensures var all := Descending(rows);
      && start < end < |all| && start == Max(end - limit, 0)
      && page == Page(all[start..end], if start > 0 then Some(all[start].id) else None, Some(all[end - 1].id))
  {
    hide Descending, ListOwnedPage;
    var all := Descending(rows);
    AtEnds(rows, limit, i, direction);
    if direction == Some(Previous) {
      PreviousPage(rows, limit, i);
      start, end := Max(i - limit, 0), i;
    } else {
      NextPage(rows, limit, i + 1, direction);
      start, end := i + 1, i + 1 + limit;
    }
  }

  lemma NotEmpty(rows: set<Row>, limit: nat, direction: Option<Direction>)
    requires limit >= 1 && direction != Some(Previous)
    ensures |Descending(rows)| == 0 ==> ListOwnedPage(rows, limit, None, direction).orders == []
  {
    AllSelected(rows, direction);
    hide Selected, Descending;
  }

  // Past the last order and before the first there is nothing.
  lemma AtEnds(rows: set<Row>, limit: nat, i: nat, direction: Option<Direction>)
    requires DistinctIds(rows) && limit >= 1 && i < |Descending(rows)|
    ensures var page := ListOwnedPage(rows, limit, Some(Descending(rows)[i].id), direction);
      && (direction == Some(Previous) && i == 0 ==> page.orders == [])
      && (direction != Some(Previous) && i + 1 == |Descending(rows)| ==> page.orders == [])
  {
    SelectedIs(rows, i, direction);
    hide Selected, Descending;
  }
}
