/** The committed tables and the transactions on them, each a function from tables to tables: a
    transaction that fails leaves no trace, so its result carries no tables. */
module OrderStore {
  import opened Base
  import opened OrderStatus
  import opened Catalog
  import opened Commission
  import opened OrderFile

  /** Operation keys. Client keys are scoped by caller, module and action; the sweeps' keys are
      rendered from the row they act on. */
  datatype Key =
    | Client(text: string)
    | EscalationKey(order: Id, dueAt: Time)
    | ExpiryKey(order: Id, dueAt: Time)
    | PaymentExpiryKey(order: Id, dueAt: Time)
    | OrderOverdueKey(order: Id, dueAt: Time)
    | RefundOverdueKey(order: Id, dueAt: Time)

  datatype Resource = OrderRes(order: Id) | OfferRes(offer: OfferKey)

  type Receipts = map<Key, Resource>

  datatype LedgerRow = LedgerRow(order: Id, owner: Id, base: int, rate: int, accrued: int, discount: int, payable: int, at: Time)

  datatype Token = Token(order: Id, expiresAt: Time, usedAt: Option<Time>)

  datatype Tables = Tables(
    files: map<Id, OrderFile>,
    offers: Offers,
    products: Products,
    tariffs: map<(Id, Id), nat>,
    ledger: seq<LedgerRow>,
    receipts: Receipts,
    tokens: map<string, Token>)

  // ---- receipts ----

  predicate UsableKey(key: Key) { key != Client("") }

  /** ReserveFor: None for a replay of the same action, the extended receipts for a first attempt. */
  function ReserveFor(receipts: Receipts, key: Key, resource: Resource): Result<Option<Receipts>> {
    if !UsableKey(key) then Failure(Internal)
    else if key !in receipts then Success(Some(receipts[key := resource]))
    else if receipts[key] != resource then Failure(Conflict)
    else Success(None)
  }

  // ---- commission ----

  const FOUNDING_FREE_ORDERS: nat := 10

  function OwnerCount(ledger: seq<LedgerRow>, owner: Id): nat {
    if ledger == [] then 0
    else OwnerCount(ledger[..|ledger| - 1], owner) + if ledger[|ledger| - 1].owner == owner then 1 else 0
  }

  predicate Billed(ledger: seq<LedgerRow>, order: Id) {
    exists k :: 0 <= k < |ledger| && ledger[k].order == order
  }

  function Discount(completed: nat, accrued: int): int {
    if completed + 1 <= FOUNDING_FREE_ORDERS then accrued else 0
  }

  /** accrueCommission: charge the lines, resolve the owner, apply the allowance, insert the row. */
  function Accrue(ledger: seq<LedgerRow>, id: Id, f: OrderFile, cmd: Command): Result<seq<LedgerRow>> {
    var accrued :- Charges(f.items);
    if cmd.gate.Unresolved? then Failure(Conflict)
    else
      var base, owner, rate := f.order.goods, cmd.gate.owner, RateForLines(f.items, f.order.goods, accrued);
      if base < 0 || accrued < 0 || rate < 0 || accrued > base then Failure(Invalid)
      else if Billed(ledger, id) then Failure(Conflict)
      else
        var discount := Discount(OwnerCount(ledger, owner), accrued);
        Success(ledger + [LedgerRow(id, owner, base, rate, accrued, discount, accrued - discount, cmd.at)])
  }

  // ---- transitions ----

  function AdjustStock(stock: Stock, offers: Offers, store: Id, lines: seq<Line>): Offers {
    match stock
    case Keeps => offers
    case Releases => AdjustLines(Release, offers, store, lines)
    case Consumes => AdjustLines(Consume, offers, store, lines)
  }

  /** One edge, with its stock and billing consequences. */
  function Transit(t: Tables, id: Id, trigger: Trigger, cmd: Command): Result<Tables>
    requires id in t.files
  {
    var f := t.files[id];
    var moved :- Move(f, trigger, cmd);
    var ledger :- if trigger == CloseOrder then Accrue(t.ledger, id, f, cmd) else Success(t.ledger);
    Success(t.(files := t.files[id := moved],
               offers := AdjustStock(TransitionFor(trigger).stock, t.offers, f.order.store, f.items),
               ledger := ledger))
  }

  /** A trigger and the follow-on it implies, in one transaction. */
  function RunTransition(t: Tables, id: Id, trigger: Trigger, cmd: Command): Result<Tables>
    requires id in t.files
  {
    var t1 :- Transit(t, id, trigger, cmd);
    match TransitionFor(trigger).follow
    case None => Success(t1)
    case Some(next) => Transit(t1, id, next, cmd)
  }

  function Apply(t: Tables, key: Key, id: Id, trigger: Trigger, cmd: Command): Result<Tables> {
    var receipts :- ReserveFor(t.receipts, key, OrderRes(id));
    if receipts.None? then Success(t)
    else if id !in t.files then Failure(NotFound)
    else RunTransition(t.(receipts := receipts.value), id, trigger, cmd)
  }

  /** ConfirmToken: spends the single-use token and accepts its order, or does neither. */
  function ConfirmToken(t: Tables, key: Key, id: Id, token: string, cmd: Command): Result<Tables> {
    var receipts :- ReserveFor(t.receipts, key, OrderRes(id));
    if receipts.None? then Success(t)
    else if token !in t.tokens || t.tokens[token].usedAt.Some? || t.tokens[token].expiresAt <= cmd.at then Failure(Gone)
    else if t.tokens[token].order != id then Failure(Conflict)
    else if id !in t.files then Failure(NotFound)
    else RunTransition(t.(receipts := receipts.value,
                          tokens := t.tokens[token := t.tokens[token].(usedAt := Some(cmd.at))]),
                       id, TokenConfirm, cmd)
  }

  // ---- placement ----

  datatype PlaceCommand = PlaceCommand(
    store: Id, wanted: seq<Wanted>, delivery: bool, district: Id, token: string, at: Time, gate: Gate)

  function Deadline(products: Products, lines: seq<Line>, at: Time): Time {
    if lines == [] then at
    else
      var product := lines[|lines| - 1].product;
      var before := Deadline(products, lines[..|lines| - 1], at);
      if product in products then Max(before, at + products[product].windowMinutes * 60) else before
  }

  datatype Quote = Quote(offers: Offers, lines: seq<Line>, goods: int, fee: int, deadline: Time)

  function ReserveOrderLines(t: Tables, cmd: PlaceCommand): Result<Quote> {
    if cmd.wanted == [] then Failure(Conflict)
    else
      var (held, lines) :- ReserveLines(t.offers, t.products, cmd.store, SortByProduct(cmd.wanted));
      if cmd.delivery && (cmd.store, cmd.district) !in t.tariffs then Failure(Conflict)
      else
        var fee := if cmd.delivery then t.tariffs[(cmd.store, cmd.district)] else 0;
        Success(Quote(held, lines, Goods(lines), fee, Deadline(t.products, lines, cmd.at)))
  }

  /** The order_items CHECK constraints. */
  predicate Storable(line: Line) {
    line.qty > 0.0 && line.unitPrice > 0 && line.lineAmount > 0 && 0 <= line.bps <= 10_000
  }

  function NewFile(cmd: PlaceCommand, quote: Quote): OrderFile {
    OrderFile(
      Order(cmd.store, Created, quote.goods, quote.fee, quote.goods + quote.fee, quote.deadline, None, cmd.at, None),
      quote.lines,
      [AuditRow(None, Created, Buyer, App, cmd.at)],
      [], [], [],
      [OrderPlaced(quote.goods + quote.fee, |quote.lines|)])
  }

  /** Create: the tables and the order's id; for a replay, the id the first attempt created. */
  function Place(t: Tables, key: Key, newId: Id, cmd: PlaceCommand): Result<(Tables, Id)> {
    if !UsableKey(key) then Failure(Internal)
    else if key in t.receipts then
      if t.receipts[key].OrderRes? && t.receipts[key].order in t.files then Success((t, t.receipts[key].order))
      else Failure(NotFound)
    else if !cmd.gate.Open? then Failure(Conflict)
    else
      var quote :- ReserveOrderLines(t, cmd);
      if newId in t.files || quote.goods < 0 then Failure(Conflict)
      else if (exists line | line in quote.lines :: !Storable(line)) || !DistinctProducts(quote.lines) then Failure(Conflict)
      else if cmd.token in t.tokens then Failure(Conflict)
      else
        Success((t.(receipts := t.receipts[key := OrderRes(newId)],
                    offers := quote.offers,
                    files := t.files[newId := NewFile(cmd, quote)],
                    tokens := t.tokens[cmd.token := Token(newId, quote.deadline, None)]),
                 newId))
  }

  // ---- offers ----

  function CreateOffer(t: Tables, key: Key, offer: OfferKey, price: int, declared: real): Result<Tables> {
    if !UsableKey(key) then Failure(Internal)
    else if key in t.receipts then Success(t)
    else if offer in t.offers || price <= 0 || declared < 0.0 then Failure(Conflict)
    else Success(t.(receipts := t.receipts[key := OfferRes(offer)],
                    offers := t.offers[offer := Offer(price, declared, 0.0, Published)]))
  }

  /** UpdateOffer: the table's constraints refuse a declaration below what is reserved. */
  function UpdateOffer(t: Tables, key: Key, offer: OfferKey, price: Option<int>, declared: Option<real>,
                       status: Option<OfferStatus>): Result<Tables> {
    var receipts :- ReserveFor(t.receipts, key, OfferRes(offer));
    if receipts.None? then Success(t)
    else if offer !in t.offers then Failure(NotFound)
    else
      var revised :- Catalog.ReviseOffer(t.offers[offer], price, declared, status);
      Success(t.(receipts := receipts.value, offers := t.offers[offer := revised]))
  }

  // ---- the refund saga's billing half, evidence and escalation ----

  function LapseRefunds(refunds: seq<Refund>): (r: seq<Refund>)
    ensures |r| == |refunds|
    ensures forall i :: 0 <= i < |r| ==> r[i] == if Lapsable(refunds[i].status) then refunds[i].(status := Overdue) else refunds[i]
  {
    seq(|refunds|, i requires 0 <= i < |refunds| =>
      if Lapsable(refunds[i].status) then refunds[i].(status := Overdue) else refunds[i])
  }

  predicate HasLapsable(refunds: seq<Refund>) { exists r | r in refunds :: Lapsable(r.status) }

  /** markOverdue: flips the refund and writes its event; a refund that already left the listed
      statuses is left alone, and then the receipt is not kept either. */
  function MarkOverdue(t: Tables, id: Id, dueAt: Time): Result<Tables> {
    var receipts :- ReserveFor(t.receipts, RefundOverdueKey(id, dueAt), OrderRes(id));
    if receipts.None? || id !in t.files || !HasLapsable(t.files[id].refunds) then Success(t)
    else
      var f := t.files[id];
      Success(t.(receipts := receipts.value,
                 files := t.files[id := f.(refunds := LapseRefunds(f.refunds),
                                           events := f.events + [RefundBecameOverdue(f.refunds[|f.refunds| - 1].amount, dueAt)])]))
  }

  /** SubmitRefundEvidence, against the newest refund. */
  function SubmitEvidence(t: Tables, key: Key, id: Id, amount: int): Result<Tables> {
    var receipts :- ReserveFor(t.receipts, key, OrderRes(id));
    if receipts.None? then Success(t)
    else if id !in t.files || t.files[id].refunds == [] then Failure(NotFound)
    else
      var f := t.files[id];
      var n := |f.refunds| - 1;
      if f.refunds[n].status != Requested || f.refunds[n].amount != amount then Failure(Conflict)
      else Success(t.(receipts := receipts.value,
                      files := t.files[id := f.(refunds := f.refunds[n := f.refunds[n].(status := EvidenceUploaded)])]))
  }

  /** RecordEscalation: one operator queue event per overdue confirmation. */
  function Escalate(t: Tables, id: Id, dueAt: Time): Result<Tables> {
    var receipts :- ReserveFor(t.receipts, EscalationKey(id, dueAt), OrderRes(id));
    if receipts.None? then Success(t)
    else if id !in t.files then Failure(NotFound)
    else
      var f := t.files[id];
      Success(t.(receipts := receipts.value, files := t.files[id := f.(events := f.events + [Escalated(dueAt)])]))
  }
}
