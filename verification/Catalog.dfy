/** Store offers and the stock adjustments the order lifecycle drives. SQL statements are functions
    on the offer table; the port's loops are methods of class OrderRepository.Tx. */
module Catalog {
  import opened Base
  import opened Money

  datatype OfferStatus = Published | Hidden | Archived

  /** (store, product): unique per offer. */
  type OfferKey = (Id, Id)

  /** Quantities are exact decimals (NUMERIC). */
  datatype Offer = Offer(price: int, declared: real, reserved: real, status: OfferStatus)

  /** A product joined with its category. */
  datatype Product = Product(active: bool, windowMinutes: nat, bps: int)

  type Offers = map<OfferKey, Offer>
  type Products = map<Id, Product>

  datatype Wanted = Wanted(product: Id, qty: real)

  datatype Line = Line(product: Id, qty: real, unitPrice: int, lineAmount: int, bps: int)

  // ---- the table's CHECK constraints ----

  predicate Stocked(offer: Offer) {
    0.0 <= offer.reserved <= offer.declared && offer.price > 0
  }

  ghost predicate StockBounds(offers: Offers) {
    forall key | key in offers :: Stocked(offers[key])
  }

  // ---- totals over an order's lines ----

  /** How much of a product the lines ask for. */
  function QtyOf(lines: seq<Line>, product: Id): real {
    if lines == [] then 0.0
    else
      var last := lines[|lines| - 1];
      QtyOf(lines[..|lines| - 1], product) + if last.product == product then last.qty else 0.0
  }

  function Goods(lines: seq<Line>): int {
    if lines == [] then 0 else Goods(lines[..|lines| - 1]) + lines[|lines| - 1].lineAmount
  }

  /** Constraints on stored order items, and the snapshot the quote took. */
  predicate GoodLine(line: Line) {
    && line.qty > 0.0 && line.unitPrice > 0
    && 0 < line.lineAmount <= MAX_INT64
    && RoundsTo(line.qty * line.unitPrice as real, line.lineAmount)
    && 0 <= line.bps <= 10_000
  }

  predicate GoodLines(lines: seq<Line>) {
    forall line | line in lines :: GoodLine(line)
  }

  predicate DistinctProducts(lines: seq<Line>) {
    forall i, j :: 0 <= i < j < |lines| ==> lines[i].product != lines[j].product
  }

  lemma {:induction false} QtyOfNonNegative(lines: seq<Line>, product: Id)
    requires GoodLines(lines)
    ensures QtyOf(lines, product) >= 0.0
    ensures (exists k :: 0 <= k < |lines| && lines[k].product == product) <==> QtyOf(lines, product) > 0.0
  {
    if lines != [] {
      var rest := lines[..|lines| - 1];
      QtyOfNonNegative(rest, product);
      assert lines[|lines| - 1] in lines;
      if k :| 0 <= k < |lines| && lines[k].product == product {
        assert k < |rest| ==> rest[k] == lines[k];
      }
      if k :| 0 <= k < |rest| && rest[k].product == product {
        assert lines[k] == rest[k];
      }
    }
  }

  lemma {:induction false} GoodsBound(lines: seq<Line>)
    requires GoodLines(lines)
    ensures Goods(lines) >= |lines|
  {
    if lines != [] {
      assert lines[|lines| - 1] in lines;
      GoodsBound(lines[..|lines| - 1]);
    }
  }

  // ---- statements ----

  /** reserveOfferQuantity: holds qty if the offer is published and has that much free stock. */
  function ReserveOffer(offer: Offer, qty: real): Option<Offer> {
    if offer.status == Published && offer.declared - offer.reserved >= qty
    then Some(offer.(reserved := offer.reserved + qty))
    else None
  }

  datatype Adjustment = Release | Consume

  /** releaseOfferQuantity and consumeOfferQuantity: guarded by reserved >= qty, so a statement
      that finds no such row changes nothing. */
  function AdjustLine(op: Adjustment, offers: Offers, store: Id, line: Line): Offers {
    var key := (store, line.product);
    if key in offers && offers[key].reserved >= line.qty then
      var offer := offers[key];
      offers[key := match op
                    case Release => offer.(reserved := offer.reserved - line.qty)
                    case Consume => offer.(reserved := offer.reserved - line.qty,
                                           declared := offer.declared - line.qty)]
    else offers
  }

  function AdjustLines(op: Adjustment, offers: Offers, store: Id, lines: seq<Line>): Offers {
    if lines == [] then offers
    else AdjustLine(op, AdjustLines(op, offers, store, lines[..|lines| - 1]), store, lines[|lines| - 1])
  }

  /** One line of ReserveOrderLines: find the sellable offer, hold the stock, price the line. */
  function ReserveLine(offers: Offers, products: Products, store: Id, wanted: Wanted): Result<(Offers, Line)> {
    var key := (store, wanted.product);
    if key !in offers || wanted.product !in products
       || offers[key].status != Published || !products[wanted.product].active then Failure(Conflict)
    else
      var offer := offers[key];
      match ReserveOffer(offer, wanted.qty)
      case None => Failure(Conflict)
      case Some(held) =>
        match Multiply(wanted.qty, offer.price)
        case Failure(_) => Failure(Conflict)
        case Success(amount) =>
          Success((offers[key := held],
                   Line(wanted.product, wanted.qty, offer.price, amount, products[wanted.product].bps)))
  }

  function ReserveLines(offers: Offers, products: Products, store: Id, wanted: seq<Wanted>): Result<(Offers, seq<Line>)> {
    if wanted == [] then Success((offers, []))
    else
      var (held, lines) :- ReserveLines(offers, products, store, wanted[..|wanted| - 1]);
      var (held', line) :- ReserveLine(held, products, store, wanted[|wanted| - 1]);
      Success((held', lines + [line]))
  }

  /** UpdateOffer's statements: new values within the table's constraints, and no way out of the archive. */
  function ReviseOffer(current: Offer, price: Option<int>, declared: Option<real>, status: Option<OfferStatus>): Result<Offer> {
    var revised := current.(price := if price.Some? then price.value else current.price,
                            declared := if declared.Some? then declared.value else current.declared);
    if !Stocked(revised) then Failure(Conflict)
    else if status.Some? && status.value != current.status && current.status == Archived then Failure(Conflict)
    else Success(revised.(status := if status.Some? then status.value else current.status))
  }

  // ---- what reserving does ----

  ghost predicate StoreLines(offers: Offers, store: Id, lines: seq<Line>) {
    forall line | line in lines :: (store, line.product) in offers
  }

  /** The line snapshots its offer's price and its product's rate, and is priced to the nearest tiyin. */
  predicate PricedFrom(offers: Offers, products: Products, store: Id, line: Line) {
    && (store, line.product) in offers && line.product in products
    && line.unitPrice == offers[(store, line.product)].price && line.bps == products[line.product].bps
    && line.qty >= 0.0 && FitsInt64(line.lineAmount) && RoundsTo(line.qty * line.unitPrice as real, line.lineAmount)
  }

  lemma ReserveLineEffect(offers: Offers, products: Products, store: Id, w: Wanted, key: OfferKey)
    requires ReserveLine(offers, products, store, w).Success?
    ensures var (held, line) := ReserveLine(offers, products, store, w).value;
            && held.Keys == offers.Keys && (store, line.product) in held
            && line.product == w.product && line.qty == w.qty && PricedFrom(offers, products, store, line)
            && (key in offers ==>
                  held[key] == offers[key].(reserved := offers[key].reserved + if key == (store, w.product) then w.qty else 0.0))
  {
    var line := ReserveLine(offers, products, store, w).value.1;
    MultiplyRounds(line.qty, line.unitPrice, line.lineAmount);
  }

  lemma PricedFromHeld(offers: Offers, held: Offers, products: Products, store: Id, line: Line)
    requires held.Keys == offers.Keys && (forall key | key in offers :: held[key].price == offers[key].price)
    ensures PricedFrom(held, products, store, line) <==> PricedFrom(offers, products, store, line)
  {
  }

  /** The quote lists the wanted products and quantities, each priced from its offer as it was. */
  lemma {:induction false} QuoteListsWanted(offers: Offers, products: Products, store: Id, wanted: seq<Wanted>)
    requires ReserveLines(offers, products, store, wanted).Success?
    ensures var (held, lines) := ReserveLines(offers, products, store, wanted).value;
            && held.Keys == offers.Keys && |lines| == |wanted|
            && (forall k :: 0 <= k < |lines| ==> lines[k].product == wanted[k].product && lines[k].qty == wanted[k].qty)
            && (forall line | line in lines :: PricedFrom(offers, products, store, line))
            && (forall key | key in offers :: held[key].price == offers[key].price)
            && StoreLines(offers, store, lines)
  {
    if wanted != [] {
      var rest := wanted[..|wanted| - 1];
      QuoteListsWanted(offers, products, store, rest);
      var (held, lines) := ReserveLines(offers, products, store, rest).value;
      var (held', line) := ReserveLine(held, products, store, wanted[|wanted| - 1]).value;
      ReserveLineEffect(held, products, store, wanted[|wanted| - 1], (store, 0));
      PricedFromHeld(offers, held, products, store, line);
      forall key | key in offers ensures held'[key].price == offers[key].price {
        ReserveLineEffect(held, products, store, wanted[|wanted| - 1], key);
      }
      hide ReserveLine;
    }
  }

  /** A successful reservation holds, for every offer, exactly the quantity its quote lists. */
  lemma {:induction false} ReserveHoldsQuote(offers: Offers, products: Products, store: Id, wanted: seq<Wanted>, key: OfferKey)
    requires ReserveLines(offers, products, store, wanted).Success? && key in offers
    ensures var (held, lines) := ReserveLines(offers, products, store, wanted).value;
            key in held
            && held[key] == offers[key].(reserved := offers[key].reserved + if key.0 == store then QtyOf(lines, key.1) else 0.0)
  {
    if wanted != [] {
      var rest, last := wanted[..|wanted| - 1], wanted[|wanted| - 1];
      ReserveHoldsQuote(offers, products, store, rest, key);
      var (held, lines) := ReserveLines(offers, products, store, rest).value;
      ReserveLineEffect(held, products, store, last, key);
      var line := ReserveLine(held, products, store, last).value.1;
      assert (lines + [line])[..|lines|] == lines;
      assert QtyOf(lines + [line], key.1) == QtyOf(lines, key.1) + if line.product == key.1 then line.qty else 0.0;
    }
  }

  lemma {:induction false} ReserveKeepsBounds(offers: Offers, products: Products, store: Id, wanted: seq<Wanted>)
    requires StockBounds(offers) && ReserveLines(offers, products, store, wanted).Success?
    requires forall w | w in wanted :: w.qty >= 0.0
    ensures StockBounds(ReserveLines(offers, products, store, wanted).value.0)
    ensures forall line | line in ReserveLines(offers, products, store, wanted).value.1 :: line.unitPrice > 0
  {
    if wanted != [] {
      assert wanted[|wanted| - 1] in wanted;
      ReserveKeepsBounds(offers, products, store, wanted[..|wanted| - 1]);
    }
  }

  // ---- what adjusting does ----

  lemma {:induction false} AdjustKeepsBounds(op: Adjustment, offers: Offers, store: Id, lines: seq<Line>)
    requires StockBounds(offers) && GoodLines(lines)
    ensures StockBounds(AdjustLines(op, offers, store, lines))
    ensures AdjustLines(op, offers, store, lines).Keys == offers.Keys
  {
    if lines != [] {
      assert lines[|lines| - 1] in lines;
      AdjustKeepsBounds(op, offers, store, lines[..|lines| - 1]);
    }
  }

  function Adjusted(op: Adjustment, offer: Offer, qty: real): Offer {
    match op
    case Release => offer.(reserved := offer.reserved - qty)
    case Consume => offer.(reserved := offer.reserved - qty, declared := offer.declared - qty)
  }

  /** While an offer's reservation covers what the lines hold of it, adjusting takes off exactly
      that quantity: no statement is a zero-row no-op. */
  lemma {:induction false} AdjustTakesHeld(op: Adjustment, offers: Offers, store: Id, lines: seq<Line>, key: OfferKey)
    requires GoodLines(lines) && key in offers
    requires key.0 == store ==> offers[key].reserved >= QtyOf(lines, key.1)
    ensures var after := AdjustLines(op, offers, store, lines);
            key in after && after[key] == Adjusted(op, offers[key], if key.0 == store then QtyOf(lines, key.1) else 0.0)
  {
    if lines != [] {
      var rest := lines[..|lines| - 1];
      assert lines[|lines| - 1] in lines;
      QtyOfNonNegative(rest, key.1);
      AdjustTakesHeld(op, offers, store, rest, key);
    }
  }

  /** Does the offer still hold at least this line's quantity? */
  predicate Fits(offers: Offers, store: Id, line: Line) {
    (store, line.product) in offers && offers[(store, line.product)].reserved >= line.qty
  }

  /** Adjusting changes nothing exactly when no line fits what its offer holds. */
  lemma {:induction false} AdjustIsNoopIff(op: Adjustment, offers: Offers, store: Id, lines: seq<Line>)
    requires GoodLines(lines)
    ensures (forall line | line in lines :: !Fits(offers, store, line)) ==> AdjustLines(op, offers, store, lines) == offers
    ensures (exists line | line in lines :: Fits(offers, store, line)) ==>
              exists key :: key in offers && key in AdjustLines(op, offers, store, lines)
                            && AdjustLines(op, offers, store, lines)[key].reserved < offers[key].reserved
  {
    if lines != [] {
      var rest, last := lines[..|lines| - 1], lines[|lines| - 1];
      AdjustIsNoopIff(op, offers, store, rest);
      assert forall line :: line in lines <==> line in rest || line == last;
      assert GoodLine(last);
      var mid := AdjustLines(op, offers, store, rest);
      var after := AdjustLines(op, offers, store, lines);
      if line :| line in rest && Fits(offers, store, line) {
        var key :| key in offers && key in mid && mid[key].reserved < offers[key].reserved;
        assert key in after && after[key].reserved <= mid[key].reserved;
      } else if Fits(offers, store, last) {
        assert after[(store, last.product)].reserved < offers[(store, last.product)].reserved;
      }
    }
  }

  // ---- lock order ----

  predicate Sorted(wanted: seq<Wanted>) {
    forall i, j :: 0 <= i < j < |wanted| ==> wanted[i].product <= wanted[j].product
  }

  function Insert(wanted: seq<Wanted>, w: Wanted): seq<Wanted> {
    if wanted == [] then [w]
    else
      var front, last := wanted[..|wanted| - 1], wanted[|wanted| - 1];
      if last.product <= w.product then wanted + [w] else Insert(front, w) + [last]
  }

  lemma {:induction false} InsertKeepsAll(wanted: seq<Wanted>, w: Wanted)
    ensures multiset(Insert(wanted, w)) == multiset(wanted) + multiset{w}
    ensures forall x :: x in Insert(wanted, w) ==> x in wanted || x == w
  {
    if wanted != [] {
      assert wanted == wanted[..|wanted| - 1] + [wanted[|wanted| - 1]];
      InsertKeepsAll(wanted[..|wanted| - 1], w);
    }
  }

  lemma {:induction false} InsertSorts(wanted: seq<Wanted>, w: Wanted)
    requires Sorted(wanted)
    ensures Sorted(Insert(wanted, w))
  {
    if wanted != [] {
      var front, last := wanted[..|wanted| - 1], wanted[|wanted| - 1];
      if last.product > w.product {
        InsertSorts(front, w);
        InsertKeepsAll(front, w);
        assert forall x :: x in front ==> x.product <= last.product;
        var r := Insert(front, w);
        assert forall i :: 0 <= i < |r| ==> r[i] in r;
      }
    }
  }

  /** The request's lines in product order: the order in which offers are locked. */
  function SortByProduct(wanted: seq<Wanted>): seq<Wanted> {
    if wanted == [] then [] else Insert(SortByProduct(wanted[..|wanted| - 1]), wanted[|wanted| - 1])
  }

  lemma {:induction false} SortByProductSorts(wanted: seq<Wanted>)
    ensures multiset(SortByProduct(wanted)) == multiset(wanted) && Sorted(SortByProduct(wanted))
  {
    if wanted != [] {
      var front, last := wanted[..|wanted| - 1], wanted[|wanted| - 1];
      assert wanted == front + [last];
      SortByProductSorts(front);
      InsertKeepsAll(SortByProduct(front), last);
      InsertSorts(SortByProduct(front), last);
    }
  }
}
