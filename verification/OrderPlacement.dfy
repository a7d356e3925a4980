/** When an order is placed, and what is stored for it: in the terms of the request, the offers and the
    products as they were. */
module OrderPlacement {
  import opened Base
  import opened OrderStatus
  import opened Money
  import opened Catalog
  import opened OrderFile
  import opened OrderStore
  import opened OrderRuns
  import opened OrderInvariant

  predicate EachOnce(wanted: seq<Wanted>) {
    forall i, j :: 0 <= i < j < |wanted| ==> wanted[i].product != wanted[j].product
  }

  /** The store sells the product, has this much of it free, and the price of it can be stored. */
  predicate Available(t: Tables, store: Id, w: Wanted) {
    && (store, w.product) in t.offers && w.product in t.products
    && var offer, product := t.offers[(store, w.product)], t.products[w.product];
    && offer.status == Published && product.active && 0 <= product.bps <= 10_000
    && 0.0 < w.qty <= offer.declared - offer.reserved
    && 0.5 <= w.qty * offer.price as real < MAX_INT64 as real + 0.5
  }

  predicate Orderable(t: Tables, cmd: PlaceCommand) {
    && cmd.gate.Open? && cmd.wanted != [] && EachOnce(cmd.wanted)
    && (forall w | w in cmd.wanted :: Available(t, cmd.store, w))
    && (cmd.delivery ==> (cmd.store, cmd.district) in t.tariffs)
  }

  // ---- sorting keeps what was asked for ----

  lemma {:induction false} InsertOnce(wanted: seq<Wanted>, w: Wanted)
    ensures EachOnce(Insert(wanted, w)) <==> EachOnce(wanted) && forall x | x in wanted :: x.product != w.product
    ensures forall x :: x in Insert(wanted, w) <==> x in wanted || x == w
  {
    hide EachOnce;
    if wanted != [] {
      var front, last := wanted[..|wanted| - 1], wanted[|wanted| - 1];
      assert wanted == front + [last];
      OnceAppended(front, last);
      if last.product <= w.product {
        OnceAppended(wanted, w);
      } else {
        InsertOnce(front, w);
        OnceAppended(Insert(front, w), last);
      }
    } else {
      OnceAppended([], w);
      assert [] + [w] == [w];
    }
  }

  lemma OnceAppended(wanted: seq<Wanted>, last: Wanted)
    ensures EachOnce(wanted + [last]) <==> EachOnce(wanted) && forall x | x in wanted :: x.product != last.product
    ensures wanted + [last] != [] && (wanted + [last])[..|wanted|] == wanted
    ensures forall x :: x in wanted + [last] <==> x in wanted || x == last
  {
    var all := wanted + [last];
    if EachOnce(all) {
      forall x | x in wanted ensures x.product != last.product {
        var i :| 0 <= i < |wanted| && wanted[i] == x;
        assert all[i].product != all[|wanted|].product;
      }
      forall i, j | 0 <= i < j < |wanted| ensures wanted[i].product != wanted[j].product {
        assert all[i].product != all[j].product;
      }
    }
  }

  lemma {:induction false} SortKeepsOnce(wanted: seq<Wanted>)
    ensures EachOnce(SortByProduct(wanted)) <==> EachOnce(wanted)
    ensures forall x :: x in SortByProduct(wanted) <==> x in wanted
  {
    SortByProductSorts(wanted);
    assert forall x :: x in SortByProduct(wanted) <==> x in multiset(SortByProduct(wanted));
    if wanted != [] {
      var front, last := wanted[..|wanted| - 1], wanted[|wanted| - 1];
      assert wanted == front + [last];
      SortKeepsOnce(front);
      InsertOnce(SortByProduct(front), last);
      OnceAppended(front, last);
    }
  }

  // ---- when the lines can be reserved ----

  /** One line's reservation succeeds. */
  predicate Offered(offers: Offers, products: Products, store: Id, w: Wanted) {
    && (store, w.product) in offers && w.product in products
    && var offer := offers[(store, w.product)];
    && offer.status == Published && products[w.product].active && w.qty <= offer.declared - offer.reserved
    && Multiply(w.qty, offer.price).Success?
  }

  lemma ReservesOneIff(offers: Offers, products: Products, store: Id, w: Wanted)
    ensures ReserveLine(offers, products, store, w).Success? <==> Offered(offers, products, store, w)
  {
    hide Multiply;
  }

  /** The lines before hold nothing of another product. */
  lemma OthersOfferedStill(offers: Offers, products: Products, store: Id, front: seq<Wanted>, last: Wanted)
    requires ReserveLines(offers, products, store, front).Success? && forall x | x in front :: x.product != last.product
    ensures Offered(ReserveLines(offers, products, store, front).value.0, products, store, last)
       <==> Offered(offers, products, store, last)
  {
    var (held, lines) := ReserveLines(offers, products, store, front).value;
    QuoteListsWanted(offers, products, store, front);
    if (store, last.product) in offers {
      ReserveHoldsQuote(offers, products, store, front, (store, last.product));
      hide ReserveLines;
      forall line | line in lines ensures line.product != last.product {
        var k :| 0 <= k < |lines| && lines[k] == line;
        assert front[k] in front;
      }
      QtyOfNone(lines, last.product);
    }
    hide ReserveLines, PricedFrom, Multiply;
  }

  lemma ReservesLast(offers: Offers, products: Products, store: Id, wanted: seq<Wanted>)
    requires wanted != []
    ensures ReserveLines(offers, products, store, wanted).Success? <==>
              && ReserveLines(offers, products, store, wanted[..|wanted| - 1]).Success?
              && var held := ReserveLines(offers, products, store, wanted[..|wanted| - 1]).value.0;
                 ReserveLine(held, products, store, wanted[|wanted| - 1]).Success?
  {
    hide ReserveLine;
  }

  /** Lines of different products are reserved together exactly when each can be by itself. */
  lemma {:induction false} ReservesIff(offers: Offers, products: Products, store: Id, wanted: seq<Wanted>)
    requires EachOnce(wanted)
    ensures ReserveLines(offers, products, store, wanted).Success? <==> forall w | w in wanted :: Offered(offers, products, store, w)
  {
    if wanted != [] {
      var front, last := wanted[..|wanted| - 1], wanted[|wanted| - 1];
      assert wanted == front + [last];
      OnceAppended(front, last);
      ReservesIff(offers, products, store, front);
      ReservesLast(offers, products, store, wanted);
      hide ReserveLines, ReserveLine, Offered, EachOnce;
      if ReserveLines(offers, products, store, front).Success? {
        ReservesOneIff(ReserveLines(offers, products, store, front).value.0, products, store, last);
        OthersOfferedStill(offers, products, store, front, last);
      }
    }
  }

  lemma {:induction false} QtyOfNone(lines: seq<Line>, product: Id)
    requires forall line | line in lines :: line.product != product
    ensures QtyOf(lines, product) == 0.0
  {
    if lines != [] {
      assert lines[|lines| - 1] in lines;
      QtyOfNone(lines[..|lines| - 1], product);
    }
  }

  lemma {:induction false} QtyOfOne(lines: seq<Line>, k: nat)
    requires DistinctProducts(lines) && k < |lines|
    ensures QtyOf(lines, lines[k].product) == lines[k].qty
  {
    var front := lines[..|lines| - 1];
    if k == |front| {
      forall line | line in front ensures line.product != lines[k].product {
        var i :| 0 <= i < |front| && front[i] == line;
        assert lines[i].product != lines[k].product;
      }
      QtyOfNone(front, lines[k].product);
    } else {
      assert front[k] == lines[k];
      QtyOfOne(front, k);
    }
  }

  /** What can be reserved and stored is what is available. */
  lemma AvailableIsOffered(t: Tables, store: Id, w: Wanted)
    requires StockBounds(t.offers)
    ensures Available(t, store, w) <==>
              && Offered(t.offers, t.products, store, w) && w.qty > 0.0 && 0 <= t.products[w.product].bps <= 10_000
              && Multiply(w.qty, t.offers[(store, w.product)].price).value > 0
  {
    if (store, w.product) in t.offers { MultiplyFits(w.qty, t.offers[(store, w.product)].price); }
    hide Multiply;
  }

  // ---- when an order is placed ----

  /** The lines of a reservation, one for each wanted product. */
  lemma LinesMatch(offers: Offers, products: Products, store: Id, wanted: seq<Wanted>)
    requires ReserveLines(offers, products, store, wanted).Success?
    ensures var lines := ReserveLines(offers, products, store, wanted).value.1;
      && (DistinctProducts(lines) <==> EachOnce(wanted))
      && (forall line | line in lines :: PricedFrom(offers, products, store, line) && Wanted(line.product, line.qty) in wanted)
      && (forall w | w in wanted :: exists line :: line in lines && Wanted(line.product, line.qty) == w)
  {
    QuoteListsWanted(offers, products, store, wanted);
    var lines := ReserveLines(offers, products, store, wanted).value.1;
    hide ReserveLines, PricedFrom;
    forall line | line in lines ensures Wanted(line.product, line.qty) in wanted {
      var k :| 0 <= k < |lines| && lines[k] == line;
      assert wanted[k] == Wanted(line.product, line.qty);
    }
    forall w | w in wanted ensures exists line :: line in lines && Wanted(line.product, line.qty) == w {
      var k :| 0 <= k < |wanted| && wanted[k] == w;
      assert lines[k] in lines;
    }
  }

  lemma StorableIff(t: Tables, store: Id, line: Line)
    requires StockBounds(t.offers) && PricedFrom(t.offers, t.products, store, line)
    requires Offered(t.offers, t.products, store, Wanted(line.product, line.qty))
    ensures Storable(line) <==> Available(t, store, Wanted(line.product, line.qty))
  {
    AvailableIsOffered(t, store, Wanted(line.product, line.qty));
    MultiplyRounds(line.qty, line.unitPrice, line.lineAmount);
    hide Multiply, RoundsTo, Available;
  }

  predicate Quotable(r: Result<Quote>) {
    r.Success? && DistinctProducts(r.value.lines) && forall line | line in r.value.lines :: Storable(line)
  }

  lemma QuotableIff(t: Tables, cmd: PlaceCommand)
    requires StockBounds(t.offers)
    ensures Quotable(ReserveOrderLines(t, cmd)) <==>
              && cmd.wanted != [] && EachOnce(cmd.wanted) && (forall w | w in cmd.wanted :: Available(t, cmd.store, w))
              && (cmd.delivery ==> (cmd.store, cmd.district) in t.tariffs)
  {
    var wanted := SortByProduct(cmd.wanted);
    SortKeepsOnce(cmd.wanted);
    forall w ensures Available(t, cmd.store, w) ==> Offered(t.offers, t.products, cmd.store, w) {
      AvailableIsOffered(t, cmd.store, w);
    }
    if EachOnce(wanted) { ReservesIff(t.offers, t.products, cmd.store, wanted); }
    var r := ReserveLines(t.offers, t.products, cmd.store, wanted);
    if r.Success? {
      var lines := r.value.1;
      LinesMatch(t.offers, t.products, cmd.store, wanted);
      if EachOnce(wanted) {
        forall line | line in lines ensures Storable(line) <==> Available(t, cmd.store, Wanted(line.product, line.qty)) {
          StorableIff(t, cmd.store, line);
        }
      }
    }
    hide ReserveLines, SortByProduct, Available, Offered, Storable, PricedFrom, Goods, Deadline, StockBounds;
  }

  /** In every reachable state a first attempt places the order exactly when the store sells, each product is
      asked for once and available, a delivery has its tariff, and the new ids are free; it is a conflict
      otherwise. */
  lemma PlaceCommitsIff(w: World, key: Key, newId: Id, cmd: PlaceCommand)
    requires Inv(w) && Fresh(w.t, key)
    ensures Place(w.t, key, newId, cmd).Success? <==>
              Orderable(w.t, cmd) && newId !in w.t.files && cmd.token !in w.t.tokens
    ensures Place(w.t, key, newId, cmd).Failure? ==> Place(w.t, key, newId, cmd).error == Conflict
  {
    hide FilesOk, LedgerOk, ReceiptsOk, TokensOk, SagaOk, StockBounds;
    QuotableIff(w.t, cmd);
    var r := ReserveOrderLines(w.t, cmd);
    if r.Success? && Quotable(r) {
      PlaceReserves(w.t, cmd);
      GoodsBound(r.value.lines);
    }
    ReserveFailsWith(w.t, cmd);
    hide ReserveOrderLines, Available, EachOnce, DistinctProducts, Storable, NewFile;
  }

  lemma ReserveFailsWith(t: Tables, cmd: PlaceCommand)
    ensures ReserveOrderLines(t, cmd).Failure? ==> ReserveOrderLines(t, cmd).error == Conflict
  {
    LinesFailWith(t.offers, t.products, cmd.store, SortByProduct(cmd.wanted));
    hide ReserveLines, SortByProduct, Deadline;
  }

  lemma {:induction false} LinesFailWith(offers: Offers, products: Products, store: Id, wanted: seq<Wanted>)
    ensures ReserveLines(offers, products, store, wanted).Failure? ==> ReserveLines(offers, products, store, wanted).error == Conflict
  {
    if wanted != [] {
      LinesFailWith(offers, products, store, wanted[..|wanted| - 1]);
      hide Multiply;
    }
  }

  // ---- what is stored ----

  /** The exact price of the goods. */
  function ExactGoods(lines: seq<Line>): real {
    if lines == [] then 0.0
    else ExactGoods(lines[..|lines| - 1]) + lines[|lines| - 1].qty * lines[|lines| - 1].unitPrice as real
  }

  /** The items: one for each wanted product, in product order, at the offer's price and the product's
      rate, each priced to the nearest tiyin, a half going up. */
  ghost predicate ItemsFor(t: Tables, cmd: PlaceCommand, items: seq<Line>) {
    && |items| == |cmd.wanted|
    && (forall i, j :: 0 <= i < j < |items| ==> items[i].product < items[j].product)
    && (forall w | w in cmd.wanted :: exists line :: line in items && line.product == w.product && line.qty == w.qty)
    && (forall line | line in items ::
          && (cmd.store, line.product) in t.offers && line.product in t.products
          && line.unitPrice == t.offers[(cmd.store, line.product)].price && line.bps == t.products[line.product].bps
          && line.lineAmount as real - 0.5 <= line.qty * line.unitPrice as real < line.lineAmount as real + 0.5)
  }

  /** The supplier has as long as the slowest of the products allows. */
  predicate DeadlineFor(products: Products, items: seq<Line>, at: Time, deadline: Time) {
    && (forall line | line in items && line.product in products :: at + 60 * products[line.product].windowMinutes <= deadline)
    && (deadline == at || exists line | line in items && line.product in products ::
                            deadline == at + 60 * products[line.product].windowMinutes)
    && at <= deadline
  }

  /** The new order's row and what is written beside it. */
  ghost predicate NewOrder(t: Tables, cmd: PlaceCommand, f: OrderFile) {
    && ItemsFor(t, cmd, f.items)
    && f.order.store == cmd.store && f.order.status == Created && f.order.createdAt == cmd.at
    && f.order.goods == Goods(f.items) && -(|f.items| as real) <= 2.0 * (f.order.goods as real - ExactGoods(f.items)) <= |f.items| as real
    && (cmd.delivery ==> (cmd.store, cmd.district) in t.tariffs)
    && f.order.fee == (if cmd.delivery then t.tariffs[(cmd.store, cmd.district)] else 0)
    && f.order.total == f.order.goods + f.order.fee
    && DeadlineFor(t.products, f.items, cmd.at, f.order.deadline)
    && f.order.paymentDue == None && f.order.closedAt == None
    && f.audit == [AuditRow(None, Created, Buyer, App, cmd.at)]
    && f.invoices == [] && f.payments == [] && f.refunds == []
    && f.events == [OrderPlaced(f.order.total, |cmd.wanted|)]
  }

  /** Exactly the wanted quantities are held, and nothing else of an offer changes. */
  ghost predicate HoldsWanted(offers: Offers, offers': Offers, cmd: PlaceCommand) {
    && offers'.Keys == offers.Keys
    && (forall w | w in cmd.wanted :: (cmd.store, w.product) in offers &&
          offers'[(cmd.store, w.product)]
          == offers[(cmd.store, w.product)].(reserved := offers[(cmd.store, w.product)].reserved + w.qty))
    && (forall key | key in offers && (forall w | w in cmd.wanted :: key != (cmd.store, w.product)) :: offers'[key] == offers[key])
  }

  lemma {:induction false} GoodsNearExact(lines: seq<Line>)
    requires forall line | line in lines ::
               line.lineAmount as real - 0.5 <= line.qty * line.unitPrice as real < line.lineAmount as real + 0.5
    ensures -(|lines| as real) <= 2.0 * (Goods(lines) as real - ExactGoods(lines)) <= |lines| as real
  {
    if lines != [] {
      assert lines[|lines| - 1] in lines;
      GoodsNearExact(lines[..|lines| - 1]);
    }
  }

  lemma {:induction false} DeadlineIsLatest(products: Products, lines: seq<Line>, at: Time)
    ensures DeadlineFor(products, lines, at, Deadline(products, lines, at))
  {
    if lines != [] {
      var front, last := lines[..|lines| - 1], lines[|lines| - 1];
      DeadlineIsLatest(products, front, at);
      assert forall line :: line in lines <==> line in front || line == last;
    }
  }

  lemma ReservedItems(t: Tables, cmd: PlaceCommand)
    requires StockBounds(t.offers) && Quotable(ReserveOrderLines(t, cmd))
    ensures ItemsFor(t, cmd, ReserveOrderLines(t, cmd).value.lines)
  {
    var wanted := SortByProduct(cmd.wanted);
    SortByProductSorts(cmd.wanted);
    SortKeepsOnce(cmd.wanted);
    LinesMatch(t.offers, t.products, cmd.store, wanted);
    QuoteListsWanted(t.offers, t.products, cmd.store, wanted);
    assert |wanted| == |cmd.wanted| by { assert |multiset(wanted)| == |multiset(cmd.wanted)|; }
    var lines := ReserveOrderLines(t, cmd).value.lines;
    hide ReserveLines, SortByProduct, Goods, Deadline, StockBounds;
    forall i, j | 0 <= i < j < |lines| ensures lines[i].product < lines[j].product {
      assert wanted[i].product <= wanted[j].product;
    }
    forall line | line in lines
      ensures line.lineAmount as real - 0.5 <= line.qty * line.unitPrice as real < line.lineAmount as real + 0.5
    {
      assert PricedFrom(t.offers, t.products, cmd.store, line) && Storable(line);
      assert line.qty * line.unitPrice as real >= 0.0;
    }
  }

  /** How much the lines ask of each product. */
  lemma QtyMatches(lines: seq<Line>, wanted: seq<Wanted>)
    requires DistinctProducts(lines)
    requires forall line | line in lines :: Wanted(line.product, line.qty) in wanted
    requires forall w | w in wanted :: exists line :: line in lines && Wanted(line.product, line.qty) == w
    ensures forall w | w in wanted :: QtyOf(lines, w.product) == w.qty
    ensures forall product | (forall w | w in wanted :: w.product != product) :: QtyOf(lines, product) == 0.0
  {
    forall w | w in wanted ensures QtyOf(lines, w.product) == w.qty {
      var line :| line in lines && Wanted(line.product, line.qty) == w;
      var k :| 0 <= k < |lines| && lines[k] == line;
      QtyOfOne(lines, k);
    }
    forall product | (forall w | w in wanted :: w.product != product) ensures QtyOf(lines, product) == 0.0 {
      QtyOfNone(lines, product);
    }
  }

  lemma ReservedHolds(t: Tables, cmd: PlaceCommand)
    requires Quotable(ReserveOrderLines(t, cmd))
    ensures HoldsWanted(t.offers, ReserveOrderLines(t, cmd).value.offers, cmd)
  {
    var wanted := SortByProduct(cmd.wanted);
    var (held, lines) := ReserveLines(t.offers, t.products, cmd.store, wanted).value;
    SortKeepsOnce(cmd.wanted);
    LinesMatch(t.offers, t.products, cmd.store, wanted);
    QuoteListsWanted(t.offers, t.products, cmd.store, wanted);
    forall key | key in t.offers
      ensures held[key] == t.offers[key].(reserved := t.offers[key].reserved + if key.0 == cmd.store then QtyOf(lines, key.1) else 0.0)
    {
      ReserveHoldsQuote(t.offers, t.products, cmd.store, wanted, key);
    }
    hide ReserveLines, SortByProduct, Goods, Deadline, Storable, QtyOf;
    QtyMatches(lines, wanted);
    forall w | w in cmd.wanted ensures (cmd.store, w.product) in t.offers {
      var line :| line in lines && Wanted(line.product, line.qty) == w;
      assert PricedFrom(t.offers, t.products, cmd.store, line);
    }
    hide PricedFrom, DistinctProducts;
    HoldsFrom(t.offers, held, cmd, lines);
  }

  lemma HoldsFrom(offers: Offers, held: Offers, cmd: PlaceCommand, lines: seq<Line>)
    requires held.Keys == offers.Keys && forall w | w in cmd.wanted :: (cmd.store, w.product) in offers && QtyOf(lines, w.product) == w.qty
    requires forall product | (forall w | w in cmd.wanted :: w.product != product) :: QtyOf(lines, product) == 0.0
    requires forall key | key in offers ::
               held[key] == offers[key].(reserved := offers[key].reserved + if key.0 == cmd.store then QtyOf(lines, key.1) else 0.0)
    ensures HoldsWanted(offers, held, cmd)
  {
    hide QtyOf;
    forall key | key in offers && (forall w | w in cmd.wanted :: key != (cmd.store, w.product)) ensures held[key] == offers[key] {
      if key.0 == cmd.store {
        assert forall w | w in cmd.wanted :: w.product != key.1;
      }
    }
  }

  lemma NewFileFits(t: Tables, cmd: PlaceCommand, quote: Quote)
    requires ItemsFor(t, cmd, quote.lines) && |quote.lines| == |cmd.wanted| && quote.goods == Goods(quote.lines)
    requires -(|quote.lines| as real) <= 2.0 * (quote.goods as real - ExactGoods(quote.lines)) <= |quote.lines| as real
    requires cmd.delivery ==> (cmd.store, cmd.district) in t.tariffs
    requires quote.fee == if cmd.delivery then t.tariffs[(cmd.store, cmd.district)] else 0
    requires DeadlineFor(t.products, quote.lines, cmd.at, quote.deadline)
    ensures NewOrder(t, cmd, NewFile(cmd, quote))
  {
    hide ItemsFor, DeadlineFor, ExactGoods, Goods;
  }

  lemma NewFileIsNew(t: Tables, cmd: PlaceCommand)
    requires StockBounds(t.offers) && Quotable(ReserveOrderLines(t, cmd))
    ensures NewOrder(t, cmd, NewFile(cmd, ReserveOrderLines(t, cmd).value))
  {
    hide ReserveOrderLines, NewOrder, Goods, ExactGoods, Deadline, Quotable, StockBounds;
    QuotableSucceeds(t, cmd);
    var quote := ReserveOrderLines(t, cmd).value;
    ReservedItems(t, cmd);
    GoodsNearExact(quote.lines);
    DeadlineIsLatest(t.products, quote.lines, cmd.at);
    QuoteAmounts(t, cmd);
    hide DeadlineFor;
    NewFileFits(t, cmd, quote);
  }

  lemma QuotableSucceeds(t: Tables, cmd: PlaceCommand)
    requires Quotable(ReserveOrderLines(t, cmd))
    ensures ReserveOrderLines(t, cmd).Success?
  {
    hide ReserveOrderLines;
  }

  /** What a placed order leaves: the order and its rows, the stock it holds, its token, valid up to the
      deadline, and its receipt; every other row stays as it was. */
  lemma PlaceStores(w: World, key: Key, newId: Id, cmd: PlaceCommand)
    requires Inv(w) && Fresh(w.t, key) && Place(w.t, key, newId, cmd).Success?
    ensures var (t', id) := Place(w.t, key, newId, cmd).value;
      && id == newId && newId in t'.files && NewOrder(w.t, cmd, t'.files[newId])
      && t'.files == w.t.files[newId := t'.files[newId]]
      && HoldsWanted(w.t.offers, t'.offers, cmd)
      && t'.tokens == w.t.tokens[cmd.token := Token(newId, t'.files[newId].order.deadline, None)]
      && t'.receipts == w.t.receipts[key := OrderRes(newId)]
      && t'.ledger == w.t.ledger && t'.products == w.t.products && t'.tariffs == w.t.tariffs
  {
    assert Quotable(ReserveOrderLines(w.t, cmd));
    NewFileIsNew(w.t, cmd);
    ReservedHolds(w.t, cmd);
    hide Inv, ReserveOrderLines, NewOrder, HoldsWanted, Storable, DistinctProducts;
  }

  lemma QuoteAmounts(t: Tables, cmd: PlaceCommand)
    requires ReserveOrderLines(t, cmd).Success?
    ensures var quote := ReserveOrderLines(t, cmd).value;
      && quote.goods == Goods(quote.lines) && quote.deadline == Deadline(t.products, quote.lines, cmd.at)
      && (cmd.delivery ==> (cmd.store, cmd.district) in t.tariffs)
      && quote.fee == if cmd.delivery then t.tariffs[(cmd.store, cmd.district)] else 0
  {
    hide ReserveLines, SortByProduct, Goods, Deadline;
  }
}
