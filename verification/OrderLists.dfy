/** Keyset pages of order lists, newest first, and what following their cursors yields. */
module OrderLists {
  import opened Base
  import opened OrderStatus

  datatype OrderRow = OrderRow(id: Id, buyer: Id, store: Id, status: Status, createdAt: Time)

  datatype List = ByBuyer(buyer: Id) | StoreOpen(store: Id)

  datatype Position = Position(createdAt: Time, id: Id)

  /** A cursor's text. Encoding is taken to be injective, so a text is what was encoded, or nothing an
      encoder makes. */
  datatype Text = Blank | Encoded(position: Position) | Malformed

  datatype Page = Page(items: seq<OrderRow>, next: Option<Text>)

  const PAGE_SIZE: nat := 50

  /** The zero time of the host language. */
  const ZERO_TIME: Time := 0

  function PositionOf(row: OrderRow): Position { Position(row.createdAt, row.id) }

  /** The row-value comparison (created_at, id) < (created_at, id). */
  predicate Before(a: Position, b: Position) {
    a.createdAt < b.createdAt || (a.createdAt == b.createdAt && a.id < b.id)
  }

  predicate Matches(list: List, row: OrderRow) {
    match list
    case ByBuyer(buyer) => row.buyer == buyer
    case StoreOpen(store) =>
      row.store == store && row.status in {Accepted, AwaitingPayment, PaymentReview, Paid, Preparing, Ready}
  }

  predicate Selected(list: List, after: Option<Position>, row: OrderRow) {
    Matches(list, row) && (after.Some? ==> Before(PositionOf(row), after.value))
  }

  predicate UniqueIds(orders: seq<OrderRow>) {
    forall i, j :: 0 <= i < j < |orders| ==> orders[i].id != orders[j].id
  }

  // ---- the query ----

  function Filter(orders: seq<OrderRow>, list: List, after: Option<Position>): seq<OrderRow> {
    if orders == [] then []
    else
      Filter(orders[..|orders| - 1], list, after)
      + if Selected(list, after, orders[|orders| - 1]) then [orders[|orders| - 1]] else []
  }

  function Insert(rows: seq<OrderRow>, row: OrderRow): seq<OrderRow> {
    if rows == [] then [row]
    else if Before(PositionOf(rows[0]), PositionOf(row)) then [row] + rows
    else [rows[0]] + Insert(rows[1..], row)
  }

  /** ORDER BY created_at DESC, id DESC. */
  function Sort(rows: seq<OrderRow>): seq<OrderRow> {
    if rows == [] then [] else Insert(Sort(rows[..|rows| - 1]), rows[|rows| - 1])
  }

  function Rows(orders: seq<OrderRow>, list: List, after: Option<Position>): seq<OrderRow> {
    Sort(Filter(orders, list, after))
  }

  function Query(orders: seq<OrderRow>, list: List, after: Option<Position>, limit: nat): seq<OrderRow> {
    var rows := Rows(orders, list, after);
    if |rows| <= limit then rows else rows[..limit]
  }

  // ---- cursors and pages ----

  function Encode(position: Position): Text { Encoded(position) }

  function Decode(text: Text): Result<Option<Position>> {
    match text
    case Blank => Success(None)
    case Malformed => Failure(Invalid)
    case Encoded(position) => if position.createdAt == ZERO_TIME then Failure(Invalid) else Success(Some(position))
  }

  function PageOf(rows: seq<OrderRow>): Page {
    var limit := if |rows| <= PAGE_SIZE then |rows| else PAGE_SIZE;
    Page(rows[..limit], if |rows| > limit && limit > 0 then Some(Encode(PositionOf(rows[limit - 1]))) else None)
  }

  function ListPage(orders: seq<OrderRow>, list: List, cursor: Text): Result<Page> {
    var after :- Decode(cursor);
    Success(PageOf(Query(orders, list, after, PAGE_SIZE + 1)))
  }

  // ---- the rows of a list ----

  predicate Descending(rows: seq<OrderRow>) {
    forall i, j :: 0 <= i < j < |rows| ==> Before(PositionOf(rows[j]), PositionOf(rows[i]))
  }

  lemma {:induction false} FilterSelects(orders: seq<OrderRow>, list: List, after: Option<Position>)
    ensures forall row :: row in Filter(orders, list, after) <==> row in orders && Selected(list, after, row)
  {
    if orders != [] {
      FilterSelects(orders[..|orders| - 1], list, after);
      assert orders == orders[..|orders| - 1] + [orders[|orders| - 1]];
    }
  }

  lemma {:induction false} FilterKeepsUnique(orders: seq<OrderRow>, list: List, after: Option<Position>)
    requires UniqueIds(orders)
    ensures UniqueIds(Filter(orders, list, after))
  {
    if orders != [] {
      var rest := orders[..|orders| - 1];
      FilterKeepsUnique(rest, list, after);
      FilterSelects(rest, list, after);
      forall row | row in rest ensures row.id != orders[|orders| - 1].id {
        var i :| 0 <= i < |rest| && rest[i] == row;
      }
    }
  }

  lemma {:induction false} InsertDescends(rows: seq<OrderRow>, row: OrderRow)
    requires Descending(rows) && forall other | other in rows :: other.id != row.id
    ensures Descending(Insert(rows, row))
    ensures forall other :: other in Insert(rows, row) <==> other in rows || other == row
    ensures |Insert(rows, row)| == |rows| + 1
  {
    if rows != [] {
      assert rows == [rows[0]] + rows[1..];
      if !Before(PositionOf(rows[0]), PositionOf(row)) {
        InsertDescends(rows[1..], row);
        var tail := Insert(rows[1..], row);
        forall j | 0 <= j < |tail| ensures Before(PositionOf(tail[j]), PositionOf(rows[0])) {
          assert tail[j] in tail;
          if tail[j] != row {
            var k :| 0 <= k < |rows[1..]| && rows[1..][k] == tail[j];
            assert rows[k + 1] == tail[j];
          } else {
            assert rows[0] in rows;
          }
        }
      }
    }
  }

  lemma {:induction false} SortDescends(rows: seq<OrderRow>)
    requires UniqueIds(rows)
    ensures Descending(Sort(rows)) && |Sort(rows)| == |rows|
    ensures forall row :: row in Sort(rows) <==> row in rows
  {
    if rows != [] {
      var rest, last := rows[..|rows| - 1], rows[|rows| - 1];
      SortDescends(rest);
      forall other | other in Sort(rest) ensures other.id != last.id {
        var i :| 0 <= i < |rest| && rest[i] == other;
      }
      InsertDescends(Sort(rest), last);
      assert rows == rest + [last];
    }
  }

  /** A list's rows are exactly the matching orders beyond the cursor, in strictly descending order. */
  lemma RowsAreTheMatchingOrders(orders: seq<OrderRow>, list: List, after: Option<Position>)
    requires UniqueIds(orders)
    ensures Descending(Rows(orders, list, after))
    ensures forall row :: row in Rows(orders, list, after) <==> row in orders && Selected(list, after, row)
  {
    FilterKeepsUnique(orders, list, after);
    FilterSelects(orders, list, after);
    SortDescends(Filter(orders, list, after));
  }

  lemma {:induction false} OneOrderOnly(a: seq<OrderRow>, b: seq<OrderRow>)
    requires Descending(a) && Descending(b) && forall row :: row in a <==> row in b
    ensures a == b
  {
    if a == [] {
      HoldsSomething(b);
    } else {
      assert a[0] in a;
      assert b != [] by { assert a[0] in b; }
      assert b[0] in b;
      var i :| 0 <= i < |b| && b[i] == a[0];
      var j :| 0 <= j < |a| && a[j] == b[0];
      assert a[0] == b[0];
      forall row ensures row in a[1..] <==> row in b[1..] {
        TailHolds(a, row);
        TailHolds(b, row);
      }
      OneOrderOnly(a[1..], b[1..]);
      assert a == [a[0]] + a[1..] && b == [b[0]] + b[1..];
    }
  }

  lemma HoldsSomething(rows: seq<OrderRow>)
    ensures rows == [] || exists row :: row in rows
  {
    if rows != [] { assert rows[0] in rows; }
  }

  lemma TailHolds(rows: seq<OrderRow>, row: OrderRow)
    requires rows != [] && Descending(rows)
    ensures row in rows[1..] <==> row in rows && row != rows[0]
  {
    assert rows == [rows[0]] + rows[1..];
    if row in rows[1..] {
      var k :| 0 <= k < |rows[1..]| && rows[1..][k] == row;
      assert rows[k + 1] == row;
    }
  }

  /** What lies beyond the i-th row's position is what follows the i-th row. */
  lemma BeyondIsSuffix(orders: seq<OrderRow>, list: List, after: Option<Position>, i: nat)
    requires UniqueIds(orders) && i < |Rows(orders, list, after)|
    ensures var rows := Rows(orders, list, after);
      Rows(orders, list, Some(PositionOf(rows[i]))) == rows[i + 1..]
  {
    var rows := Rows(orders, list, after);
    var beyond := Rows(orders, list, Some(PositionOf(rows[i])));
    RowsAreTheMatchingOrders(orders, list, after);
    RowsAreTheMatchingOrders(orders, list, Some(PositionOf(rows[i])));
    hide Rows;
    assert rows[i] in rows;
    forall row ensures row in beyond <==> row in rows[i + 1..] {
      SuffixHolds(rows, i, row);
      if row in beyond { assert Selected(list, after, row); }
    }
    OneOrderOnly(beyond, rows[i + 1..]);
  }

  lemma SuffixHolds(rows: seq<OrderRow>, i: nat, row: OrderRow)
    requires Descending(rows) && i < |rows|
    ensures row in rows[i + 1..] <==> row in rows && Before(PositionOf(row), PositionOf(rows[i]))
  {
    if row in rows[i + 1..] {
      var k :| 0 <= k < |rows[i + 1..]| && rows[i + 1..][k] == row;
      assert rows[i + 1 + k] == row;
    }
    if row in rows && Before(PositionOf(row), PositionOf(rows[i])) {
      var k :| 0 <= k < |rows| && rows[k] == row;
      assert k > i;
      assert rows[i + 1..][k - i - 1] == row;
    }
  }

  // ---- following cursors ----

  /** Everything a client sees that follows next cursors until there is none. */
  function Follow(orders: seq<OrderRow>, list: List, cursor: Text): Result<seq<Page>>
    requires UniqueIds(orders)
    decreases Ahead(orders, list, cursor)
  {
    var page :- ListPage(orders, list, cursor);
    match page.next
    case None => Success([page])
    case Some(next) =>
      NextIsNearer(orders, list, cursor);
      var rest :- Follow(orders, list, next);
      Success([page] + rest)
  }

  /** How many rows a cursor has ahead of it. */
  function Ahead(orders: seq<OrderRow>, list: List, cursor: Text): nat {
    match Decode(cursor)
    case Success(after) => |Rows(orders, list, after)|
    case Failure(_) => 0
  }

  lemma NextIsNearer(orders: seq<OrderRow>, list: List, cursor: Text)
    requires UniqueIds(orders) && ListPage(orders, list, cursor).Success? && ListPage(orders, list, cursor).value.next.Some?
    ensures Ahead(orders, list, ListPage(orders, list, cursor).value.next.value) < Ahead(orders, list, cursor)
  {
    var after := Decode(cursor).value;
    BeyondIsSuffix(orders, list, after, PAGE_SIZE - 1);
    hide Rows;
  }

  /** A position survives its cursor, unless its time is the zero time. */
  lemma CursorRoundTrips(position: Position)
    ensures Decode(Encode(position)) == Success(Some(position)) <==> position.createdAt != ZERO_TIME
    ensures Decode(Encode(position)).Failure? <==> position.createdAt == ZERO_TIME
  {
  }

  function Items(pages: seq<Page>): seq<OrderRow> {
    if pages == [] then [] else pages[0].items + Items(pages[1..])
  }

  /** Full pages with a cursor each, then one last page without. */
  predicate WellPaged(pages: seq<Page>) {
    && pages != []
    && (forall k :: 0 <= k < |pages| - 1 ==> |pages[k].items| == PAGE_SIZE && pages[k].next.Some?)
    && |pages[|pages| - 1].items| <= PAGE_SIZE && pages[|pages| - 1].next.None?
  }

  lemma PageAhead(orders: seq<OrderRow>, list: List, cursor: Text)
    requires Decode(cursor).Success?
    ensures var rows := Rows(orders, list, Decode(cursor).value);
      ListPage(orders, list, cursor)
        == Success(if |rows| > PAGE_SIZE then Page(rows[..PAGE_SIZE], Some(Encode(PositionOf(rows[PAGE_SIZE - 1]))))
                   else Page(rows, None))
  {
    var rows := Rows(orders, list, Decode(cursor).value);
    hide Rows;
    if |rows| <= PAGE_SIZE {
      assert rows[..|rows|] == rows;
    } else {
      assert Query(orders, list, Decode(cursor).value, PAGE_SIZE + 1)[..PAGE_SIZE] == rows[..PAGE_SIZE];
    }
  }

  lemma FirstThenRest(page: Page, rest: seq<Page>)
    requires WellPaged(rest) && |page.items| == PAGE_SIZE && page.next.Some?
    ensures WellPaged([page] + rest) && Items([page] + rest) == page.items + Items(rest)
  {
    assert ([page] + rest)[1..] == rest;
  }

  lemma OnlyPage(page: Page)
    requires |page.items| <= PAGE_SIZE && page.next.None?
    ensures WellPaged([page]) && Items([page]) == page.items
  {
    assert [page][1..] == [];
  }

  /** Over a fixed snapshot, following cursors from anywhere ends, and yields exactly the rows ahead. */
  lemma {:induction false} FollowYieldsTheRest(orders: seq<OrderRow>, list: List, cursor: Text)
    requires UniqueIds(orders) && forall row | row in orders :: row.createdAt != ZERO_TIME
    requires Decode(cursor).Success?
    ensures Follow(orders, list, cursor).Success?
    ensures WellPaged(Follow(orders, list, cursor).value)
    ensures Items(Follow(orders, list, cursor).value) == Rows(orders, list, Decode(cursor).value)
    decreases Ahead(orders, list, cursor)
  {
    var after := Decode(cursor).value;
    var rows := Rows(orders, list, after);
    RowsAreTheMatchingOrders(orders, list, after);
    PageAhead(orders, list, cursor);
    hide Rows, ListPage, WellPaged, Items, Selected;
    var page := ListPage(orders, list, cursor).value;
    if |rows| > PAGE_SIZE {
      var next := PositionOf(rows[PAGE_SIZE - 1]);
      assert rows[PAGE_SIZE - 1] in orders;
      CursorRoundTrips(next);
      NextIsNearer(orders, list, cursor);
      BeyondIsSuffix(orders, list, after, PAGE_SIZE - 1);
      FollowYieldsTheRest(orders, list, Encode(next));
      var rest := Follow(orders, list, Encode(next)).value;
      assert Follow(orders, list, cursor) == Success([page] + rest);
      FirstThenRest(page, rest);
      assert rows == rows[..PAGE_SIZE] + rows[PAGE_SIZE..];
    } else {
      assert Follow(orders, list, cursor) == Success([page]);
      OnlyPage(page);
    }
  }

  /** From the empty cursor: all matching orders, newest first, none repeated or skipped. */
  lemma FollowListsEverything(orders: seq<OrderRow>, list: List)
    requires UniqueIds(orders) && forall row | row in orders :: row.createdAt != ZERO_TIME
    ensures Follow(orders, list, Blank).Success?
    ensures var items := Items(Follow(orders, list, Blank).value);
      && Descending(items)
      && (forall row :: row in items <==> row in orders && Matches(list, row))
      && (forall i, j :: 0 <= i < j < |items| ==> items[i].id != items[j].id)
  {
    FollowYieldsTheRest(orders, list, Blank);
    RowsAreTheMatchingOrders(orders, list, None);
    var items := Items(Follow(orders, list, Blank).value);
    forall i, j | 0 <= i < j < |items| ensures items[i].id != items[j].id {
      assert items[i] in orders && items[j] in orders;
      var a :| 0 <= a < |orders| && orders[a] == items[i];
      var b :| 0 <= b < |orders| && orders[b] == items[j];
    }
  }

  /** Of the statuses orders rest in, a store's open list shows those of accepted orders that still hold its stock. */
  lemma OpenOrdersHoldStock(store: Id, row: OrderRow)
    requires Rests(row.status)
    ensures Matches(StoreOpen(store), row) <==> row.store == store && Holds(row.status) && row.status != Created
  {
  }

  // ---- the repository ----

  class OrderReader {
    var orders: seq<OrderRow>

    constructor (orders: seq<OrderRow>)
      ensures this.orders == orders
    {
      this.orders := orders;
    }

    /** orderPage: the loop that keeps the client's share of the rows and cuts the cursor. */
    method OrderPage(rows: seq<OrderRow>) returns (page: Page)
      ensures page == PageOf(rows)
    {
      var limit := if |rows| <= PAGE_SIZE then |rows| else PAGE_SIZE;
      var items := [];
      for i := 0 to limit
        invariant items == rows[..i]
      {
        items := items + [rows[i]];
      }
      var next := None;
      if |rows| > limit && limit > 0 { next := Some(Encode(PositionOf(items[limit - 1]))); }
      return Page(items, next);
    }

    method ListOrders(list: List, cursor: Text) returns (page: Result<Page>)
      ensures page == ListPage(orders, list, cursor)
    {
      match Decode(cursor)
      case Failure(error) => return Failure(error);
      case Success(after) =>
        var rows := Query(orders, list, after, PAGE_SIZE + 1);
        var p := OrderPage(rows);
        return Success(p);
    }
  }
}
