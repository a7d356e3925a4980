/** A paid order whose blended commission rate may leave 64 bits: reached from an empty platform, for any
    two line amounts, and closed exactly when the rate does not come out negative. */
module WrappedRate {
  import opened Base
  import opened OrderStatus
  import opened Money
  import opened Catalog
  import opened Commission
  import opened OrderFile
  import opened OrderStore
  import opened OrderRuns
  import opened OrderInvariant

  const FULL: OfferKey := (0, 0)
  const FREE: OfferKey := (0, 1)

  /** Product 0 is charged at 100%, product 1 at nothing. */
  predicate MixedRates(products: Products) {
    && 0 in products && products[0].active && products[0].bps == 10_000
    && 1 in products && products[1].active && products[1].bps == 0
  }

  predicate Amounts(x: int, y: int) { 0 < x && 0 < y && x + y <= MAX_INT64 }

  /** Client keys of the seven operations, a confirmation token and a receipt. */
  datatype Names = Names(full: string, free: string, order: string, accept: string, pay: string, confirm: string, pickup: string,
                         token: string, receipt: string)

  predicate Usable(n: Names) {
    && n.full != "" && n.free != "" && n.order != "" && n.accept != "" && n.pay != "" && n.confirm != "" && n.pickup != ""
    && n.full !in {n.free, n.order, n.accept, n.pay, n.confirm, n.pickup} && n.free !in {n.order, n.accept, n.pay, n.confirm, n.pickup}
    && n.order !in {n.accept, n.pay, n.confirm, n.pickup} && n.accept !in {n.pay, n.confirm, n.pickup}
    && n.pay !in {n.confirm, n.pickup} && n.confirm != n.pickup && n.receipt != ""
  }

  function Cmd(receiptURL: string): Command { Command(0, receiptURL, Open(0)) }

  function Buy(n: Names): PlaceCommand {
    PlaceCommand(0, [Wanted(0, 1.0), Wanted(1, 1.0)], false, 0, n.token, 0, Open(0))
  }

  function MixedLines(x: int, y: int): seq<Line> { [Line(0, 1.0, x, x, 10_000), Line(1, 1.0, y, y, 0)] }

  /** Two offers at x and y, one order of one unit of each, accepted, paid and confirmed. */
  function Offered(products: Products, tariffs: map<(Id, Id), nat>, x: int, y: int, n: Names): World {
    Next(Next(Empty(products, tariffs), PublishOffer(n.full, FULL, x, 1.0)), PublishOffer(n.free, FREE, y, 1.0))
  }

  function PaidUp(products: Products, tariffs: map<(Id, Id), nat>, x: int, y: int, n: Names): World {
    var w3 := Next(Offered(products, tariffs, x, y, n), PlaceOrder(n.order, 1, Buy(n)));
    var w4 := Next(w3, Act(n.accept, 1, SupplierConfirm, Cmd(n.receipt)));
    var w5 := Next(w4, Act(n.pay, 1, SubmitReceipt, Cmd(n.receipt)));
    Next(w5, Act(n.confirm, 1, ConfirmPayment, Cmd(n.receipt)))
  }

  /** The one order, in this status; no other client key is used yet. */
  ghost predicate Holding(w: World, status: Status, keys: set<string>, x: int, y: int) {
    && Inv(w) && 1 in w.t.files
    && (forall key | key !in keys :: Client(key) !in w.t.receipts)
    && w.t.files[1].order.status == status && w.t.files[1].items == MixedLines(x, y)
    && w.t.files[1].order.goods == x + y
  }

  lemma UnitPrice(p: int)
    requires 0 < p <= MAX_INT64
    ensures Multiply(1.0, p) == Success(p)
  {
    assert 1.0 * p as real == p as real;
    assert (p as real + 0.5).Floor == p;
  }

  lemma EmptyInv(products: Products, tariffs: map<(Id, Id), nat>)
    ensures Inv(Empty(products, tariffs))
  {
  }

  lemma OfferAdds(w: World, key: string, offer: OfferKey, price: int)
    requires key != "" && Client(key) !in w.t.receipts && offer !in w.t.offers && price > 0
    ensures Next(w, PublishOffer(key, offer, price, 1.0)).t
         == w.t.(receipts := w.t.receipts[Client(key) := OfferRes(offer)], offers := w.t.offers[offer := Offer(price, 1.0, 0.0, Published)])
  {
  }

  lemma StockedHolds(products: Products, tariffs: map<(Id, Id), nat>, x: int, y: int, n: Names)
    requires Amounts(x, y) && Usable(n)
    ensures var w := Offered(products, tariffs, x, y, n);
      && Inv(w) && w.t.files == map[] && w.t.tokens == map[] && w.t.products == products
      && w.t.offers == map[FULL := Offer(x, 1.0, 0.0, Published), FREE := Offer(y, 1.0, 0.0, Published)]
      && w.t.receipts.Keys == {Client(n.full), Client(n.free)}
  {
    var w0 := Empty(products, tariffs);
    EmptyInv(products, tariffs);
    hide Inv, Next;
    OfferAdds(w0, n.full, FULL, x);
    var w1 := Next(w0, PublishOffer(n.full, FULL, x, 1.0));
    OfferAdds(w1, n.free, FREE, y);
    NextKeepsInv(w0, PublishOffer(n.full, FULL, x, 1.0));
    NextKeepsInv(w1, PublishOffer(n.free, FREE, y, 1.0));
  }

  lemma HoldsOne(offers: Offers, products: Products, product: Id, price: int)
    requires (0, product) in offers && offers[(0, product)] == Offer(price, 1.0, 0.0, Published) && 0 < price <= MAX_INT64
    requires product in products && products[product].active
    ensures ReserveLine(offers, products, 0, Wanted(product, 1.0))
         == Success((offers[(0, product) := Offer(price, 1.0, 1.0, Published)], Line(product, 1.0, price, price, products[product].bps)))
  {
    UnitPrice(price);
    hide Multiply;
  }

  lemma ReserveTwo(offers: Offers, products: Products, a: Wanted, b: Wanted, o1: Offers, o2: Offers, first: Line, second: Line)
    requires ReserveLine(offers, products, 0, a) == Success((o1, first)) && ReserveLine(o1, products, 0, b) == Success((o2, second))
    requires a.product <= b.product
    ensures ReserveLines(offers, products, 0, SortByProduct([a, b])) == Success((o2, [first, second]))
  {
    hide ReserveLine;
    assert [a, b][..1] == [a] && [a][..0] == [];
    assert SortByProduct([]) == [];
    assert SortByProduct([a]) == [a];
    assert SortByProduct([a, b]) == [a, b];
    assert ReserveLines(offers, products, 0, []) == Success((offers, []));
    assert [] + [first] == [first] && [first] + [second] == [first, second];
    assert ReserveLines(offers, products, 0, [a]) == Success((o1, [first]));
    assert ReserveLines(offers, products, 0, [a, b]) == Success((o2, [first] + [second]));
  }

  lemma GoodsOfTwo(first: Line, second: Line)
    ensures Goods([first, second]) == first.lineAmount + second.lineAmount
  {
    assert [first, second][..1] == [first] && [first][..0] == [];
    assert Goods([first]) == first.lineAmount;
  }

  lemma BuyReserves(t: Tables, x: int, y: int, n: Names)
    requires Amounts(x, y) && MixedRates(t.products)
    requires t.offers == map[FULL := Offer(x, 1.0, 0.0, Published), FREE := Offer(y, 1.0, 0.0, Published)]
    ensures ReserveOrderLines(t, Buy(n)).Success?
    ensures var quote := ReserveOrderLines(t, Buy(n)).value;
      quote.lines == MixedLines(x, y) && quote.goods == x + y && quote.fee == 0
  {
    var o1 := t.offers[FULL := Offer(x, 1.0, 1.0, Published)];
    var o2 := o1[FREE := Offer(y, 1.0, 1.0, Published)];
    HoldsOne(t.offers, t.products, 0, x);
    HoldsOne(o1, t.products, 1, y);
    ReserveTwo(t.offers, t.products, Wanted(0, 1.0), Wanted(1, 1.0), o1, o2, MixedLines(x, y)[0], MixedLines(x, y)[1]);
    GoodsOfTwo(MixedLines(x, y)[0], MixedLines(x, y)[1]);
    hide ReserveLine, ReserveLines, SortByProduct, Goods, Deadline;
  }

  lemma PlaceLands(t: Tables, x: int, y: int, n: Names)
    requires ReserveOrderLines(t, Buy(n)).Success? && Usable(n) && Amounts(x, y)
    requires var quote := ReserveOrderLines(t, Buy(n)).value; quote.lines == MixedLines(x, y) && quote.goods == x + y
    requires t.files == map[] && t.tokens == map[] && Client(n.order) !in t.receipts
    ensures Place(t, Client(n.order), 1, Buy(n)).Success?
    ensures var t' := Place(t, Client(n.order), 1, Buy(n)).value.0;
      && 1 in t'.files && t'.files[1].order.status == Created && t'.files[1].items == MixedLines(x, y)
      && t'.files[1].order.goods == x + y && t'.receipts.Keys == t.receipts.Keys + {Client(n.order)}
  {
    hide ReserveOrderLines;
    var quote := ReserveOrderLines(t, Buy(n)).value;
    assert DistinctProducts(quote.lines);
    assert !(exists line | line in quote.lines :: !Storable(line));
  }

  lemma PlacedHolds(products: Products, tariffs: map<(Id, Id), nat>, x: int, y: int, n: Names)
    requires Amounts(x, y) && MixedRates(products) && Usable(n)
    ensures Holding(Next(Offered(products, tariffs, x, y, n), PlaceOrder(n.order, 1, Buy(n))), Created, {n.full, n.free, n.order}, x, y)
  {
    hide Inv, Next;
    var w := Offered(products, tariffs, x, y, n);
    StockedHolds(products, tariffs, x, y, n);
    BuyReserves(w.t, x, y, n);
    PlaceLands(w.t, x, y, n);
    hide Inv, Place, Offered, ReserveOrderLines;
    PlaceApplies(w, n);
    NextKeepsInv(w, PlaceOrder(n.order, 1, Buy(n)));
  }

  lemma PlaceApplies(w: World, n: Names)
    requires Place(w.t, Client(n.order), 1, Buy(n)).Success?
    ensures Next(w, PlaceOrder(n.order, 1, Buy(n))).t == Place(w.t, Client(n.order), 1, Buy(n)).value.0
  {
    hide Place;
  }

  lemma InvFile(w: World, id: Id)
    requires Inv(w) && id in w.t.files
    ensures FileOk(w.t.files[id])
  {
  }

  lemma ActApplies(w: World, key: string, trigger: Trigger, cmd: Command)
    requires key != "" && Apply(w.t, Client(key), 1, trigger, cmd).Success?
    ensures Next(w, Act(key, 1, trigger, cmd)).t == Apply(w.t, Client(key), 1, trigger, cmd).value
  {
    hide Apply;
  }

  /** An accepted trigger that does not close the order moves it on. */
  lemma ActLands(w: World, status: Status, keys: set<string>, x: int, y: int, key: string, trigger: Trigger, cmd: Command)
    requires Holding(w, status, keys, x, y) && key != "" && key !in keys
    requires Rests(status) && Accepts(w.t.files[1], trigger, cmd) && !Closes(trigger)
    ensures Holding(Next(w, Act(key, 1, trigger, cmd)), Landing(trigger), keys + {key}, x, y)
  {
    hide Inv, Accepts, FileOk, MoveAll, Apply, Next, Landing, AdjustStock, StockOf, MixedLines, TransitionFor;
    InvFile(w, 1);
    ApplyCommitsIff(w, Client(key), 1, trigger, cmd);
    ActApplies(w, key, trigger, cmd);
    MoveAllAccepts(w.t.files[1], trigger, cmd);
    NextKeepsInv(w, Act(key, 1, trigger, cmd));
  }

  /** One of the three edges to the paid order. */
  lemma Advances(w: World, status: Status, keys: set<string>, x: int, y: int, key: string, trigger: Trigger, receipt: string)
    requires Holding(w, status, keys, x, y) && key != "" && key !in keys && receipt != ""
    requires trigger in {SupplierConfirm, SubmitReceipt, ConfirmPayment} && TransitionFor(trigger).Permits(status) && Rests(status)
    ensures Holding(Next(w, Act(key, 1, trigger, Cmd(receipt))), Landing(trigger), keys + {key}, x, y)
  {
    hide TransitionFor, Inv, Next, Landing, MixedLines;
    assert Accepts(w.t.files[1], trigger, Cmd(receipt)) && !Closes(trigger);
    hide Accepts;
    ActLands(w, status, keys, x, y, key, trigger, Cmd(receipt));
  }

  lemma Path()
    ensures Landing(SupplierConfirm) == AwaitingPayment && Landing(SubmitReceipt) == PaymentReview && Landing(ConfirmPayment) == Paid
    ensures TransitionFor(SupplierConfirm).Permits(Created) && TransitionFor(SubmitReceipt).Permits(AwaitingPayment)
    ensures TransitionFor(ConfirmPayment).Permits(PaymentReview) && TransitionFor(ConfirmPickup).Permits(Paid)
  {
  }

  lemma PaidUpHolds(products: Products, tariffs: map<(Id, Id), nat>, x: int, y: int, n: Names)
    requires Amounts(x, y) && MixedRates(products) && Usable(n)
    ensures Holding(PaidUp(products, tariffs, x, y, n), Paid, {n.full, n.free, n.order} + {n.accept} + {n.pay} + {n.confirm}, x, y)
  {
    Path();
    hide Next, Offered, Landing, TransitionFor, Holding;
    PlacedHolds(products, tariffs, x, y, n);
    var keys := {n.full, n.free, n.order};
    var w3 := Next(Offered(products, tariffs, x, y, n), PlaceOrder(n.order, 1, Buy(n)));
    Advances(w3, Created, keys, x, y, n.accept, SupplierConfirm, n.receipt);
    var w4 := Next(w3, Act(n.accept, 1, SupplierConfirm, Cmd(n.receipt)));
    Advances(w4, AwaitingPayment, keys + {n.accept}, x, y, n.pay, SubmitReceipt, n.receipt);
    var w5 := Next(w4, Act(n.pay, 1, SubmitReceipt, Cmd(n.receipt)));
    Advances(w5, PaymentReview, keys + {n.accept} + {n.pay}, x, y, n.confirm, ConfirmPayment, n.receipt);
  }

  lemma MixedCharges(x: int, y: int)
    requires Amounts(x, y)
    ensures Charges(MixedLines(x, y)) == Success(x)
    ensures RateForLines(MixedLines(x, y), x + y, x) == EffectiveRateBps(x + y, x)
  {
    var lines := MixedLines(x, y);
    assert lines[..1] == [lines[0]] && [lines[0]][..0] == [];
    BasisPointsBound(x, 10_000);
    BasisPointsBound(y, 0);
    hide ApplyBasisPoints;
    assert Charges([lines[0]]) == Success(x);
    assert lines[1] in lines;
  }

  lemma RefusalKeeps(w: World, key: string, trigger: Trigger, cmd: Command)
    ensures Outcome(w, Act(key, 1, trigger, cmd)) == Apply(w.t, Client(key), 1, trigger, cmd)
    ensures Apply(w.t, Client(key), 1, trigger, cmd).Failure? ==> Next(w, Act(key, 1, trigger, cmd)) == w
  {
    hide Apply;
    assert World(w.t, w.listed, w.cleared) == w;
  }

  /** From an empty platform, for any two amounts: picking up the paid order commits exactly when the
      blended rate of its lines, computed in 64 bits, is not negative. Otherwise nothing changes. */
  lemma PickupCommitsIff(products: Products, tariffs: map<(Id, Id), nat>, x: int, y: int, n: Names)
    requires Amounts(x, y) && MixedRates(products) && Usable(n)
    ensures var w, pickup := PaidUp(products, tariffs, x, y, n), Act(n.pickup, 1, ConfirmPickup, Cmd(n.receipt));
      && Inv(w) && 1 in w.t.files && w.t.files[1].order.status == Paid && w.t.files[1].items == MixedLines(x, y)
      && (Outcome(w, pickup).Success? <==> EffectiveRateBps(x + y, x) >= 0)
      && (Outcome(w, pickup).Failure? ==> Next(w, pickup) == w)
  {
    hide Inv, Next, Outcome, PaidUp, Apply, MoveAll;
    PaidUpHolds(products, tariffs, x, y, n);
    var w := PaidUp(products, tariffs, x, y, n);
    MixedCharges(x, y);
    Path();
    hide Charges, RateForLines, MixedLines, EffectiveRateBps, TransitionFor;
    ApplyCommitsIff(w, Client(n.pickup), 1, ConfirmPickup, Cmd(n.receipt));
    RefusalKeeps(w, n.pickup, ConfirmPickup, Cmd(n.receipt));
  }

  /** 10^15 tiyin at 100% beside 10^14 at nothing: the rate is negative, so the order cannot be closed. */
  lemma NegativeRateIsReachable(products: Products, tariffs: map<(Id, Id), nat>, x: int, y: int, n: Names)
    requires MixedRates(products) && Usable(n) && x == 1_000_000_000_000_000 && y == 100_000_000_000_000
    ensures EffectiveRateBps(x + y, x) < 0
    ensures var w := PaidUp(products, tariffs, x, y, n);
      Inv(w) && Outcome(w, Act(n.pickup, 1, ConfirmPickup, Cmd(n.receipt))).Failure?
  {
    assert EffectiveRateBps(x + y, x) < 0;
    hide PaidUp, Inv, Outcome, Next, EffectiveRateBps;
    PickupCommitsIff(products, tariffs, x, y, n);
  }
}
