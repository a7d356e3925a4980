/** Every run of the platform's transactions, in any order and with any of them failing or never
    happening, and what each committed state of such a run satisfies. */
module OrderRuns {
  import opened Base
  import opened OrderStatus
  import opened Money
  import opened Catalog
  import opened Commission
  import opened OrderFile
  import opened OrderStore

  /** The tables, plus what the refund sweeps know: the orders whose due refund some pass listed,
      and those for which the order-side half then returned without error. */
  datatype World = World(t: Tables, listed: set<Id>, cleared: set<Id>)

  datatype Step =
    | PublishOffer(key: string, offer: OfferKey, price: int, declared: real)
    | ReviseOffer(key: string, offer: OfferKey, price': Option<int>, declared': Option<real>, status: Option<OfferStatus>)
    | PlaceOrder(key: string, newId: Id, place: PlaceCommand)
    | Act(key: string, id: Id, trigger: Trigger, cmd: Command)
    | SpendToken(key: string, id: Id, token: string, cmd: Command)
    | SweepUnconfirmed(id: Id, dueAt: Time, cmd: Command)
    | SweepUnpaid(id: Id, dueAt: Time, cmd: Command)
    | SweepEscalation(id: Id, dueAt: Time)
    | UploadEvidence(key: string, id: Id, amount: int)
    | ListDueRefund(id: Id)
    | LapseOrder(id: Id, dueAt: Time, cmd: Command)
    | LapseRefundRow(id: Id, dueAt: Time)

  /** What one transaction would commit. */
  function Outcome(w: World, step: Step): Result<Tables> {
    match step
    case PublishOffer(key, offer, price, declared) => CreateOffer(w.t, Client(key), offer, price, declared)
    case ReviseOffer(key, offer, price, declared, status) => UpdateOffer(w.t, Client(key), offer, price, declared, status)
    case PlaceOrder(key, newId, place) => var placed :- Place(w.t, Client(key), newId, place); Success(placed.0)
    case Act(key, id, trigger, cmd) => Apply(w.t, Client(key), id, trigger, cmd)
    case SpendToken(key, id, token, cmd) => ConfirmToken(w.t, Client(key), id, token, cmd)
    case SweepUnconfirmed(id, dueAt, cmd) => Apply(w.t, ExpiryKey(id, dueAt), id, Trigger.Expire, cmd)
    case SweepUnpaid(id, dueAt, cmd) => Apply(w.t, PaymentExpiryKey(id, dueAt), id, PaymentExpire, cmd)
    case SweepEscalation(id, dueAt) => Escalate(w.t, id, dueAt)
    case UploadEvidence(key, id, amount) => SubmitEvidence(w.t, Client(key), id, amount)
    case ListDueRefund(_) => Success(w.t)
    case LapseOrder(id, dueAt, cmd) => Apply(w.t, OrderOverdueKey(id, dueAt), id, LapseRefund, cmd)
    case LapseRefundRow(id, dueAt) => MarkOverdue(w.t, id, dueAt)
  }

  /** The sweeps act on listed refunds only, and flip a refund only once the order half returned nil. */
  predicate Enabled(w: World, step: Step) {
    match step
    case ListDueRefund(id) => id in w.t.files && HasLapsable(w.t.files[id].refunds)
    case LapseOrder(id, _, _) => id in w.listed
    case LapseRefundRow(id, _) => id in w.cleared
    case _ => true
  }

  function Next(w: World, step: Step): World {
    if !Enabled(w, step) then w
    else
      var t := match Outcome(w, step) case Success(t) => t case Failure(_) => w.t;
      match step
      case ListDueRefund(id) => World(t, w.listed + {id}, w.cleared)
      // RefundOverdue treats a conflict or a missing order as done.
      case LapseOrder(id, dueAt, cmd) =>
        if Outcome(w, step).Success? || Outcome(w, step).error in {Conflict, NotFound}
        then World(t, w.listed, w.cleared + {id}) else World(t, w.listed, w.cleared)
      case _ => World(t, w.listed, w.cleared)
  }

  function Run(w: World, steps: seq<Step>): World {
    if steps == [] then w else Next(Run(w, steps[..|steps| - 1]), steps[|steps| - 1])
  }

  /** No orders and no offers yet; products and tariffs are set up beforehand. */
  function Empty(products: Products, tariffs: map<(Id, Id), nat>): World {
    World(Tables(map[], map[], products, tariffs, [], map[], map[]), {}, {})
  }

  // ---- the invariant ----

  ghost predicate FilesOk(t: Tables) {
    forall id | id in t.files ::
      FileOk(t.files[id]) && Rests(t.files[id].order.status) && StoreLines(t.offers, t.files[id].order.store, t.files[id].items)
  }

  predicate RowFits(row: LedgerRow, f: OrderFile) {
    && f.order.status == Closed
    && row.base == f.order.goods
    && Charges(f.items) == Success(row.accrued)
    && row.rate == RateForLines(f.items, row.base, row.accrued)
  }

  /** The founding allowance: the owner's first ten rows are free, the later ones payable in full. */
  predicate Allowance(ledger: seq<LedgerRow>) {
    forall k :: 0 <= k < |ledger| ==>
      && ledger[k].discount == Discount(OwnerCount(ledger[..k], ledger[k].owner), ledger[k].accrued)
      && ledger[k].payable == ledger[k].accrued - ledger[k].discount
  }

  /** Exactly the closed orders are on the ledger, once each. */
  predicate LedgerOk(t: Tables) {
    && (forall k :: 0 <= k < |t.ledger| ==> t.ledger[k].order in t.files && RowFits(t.ledger[k], t.files[t.ledger[k].order]))
    && (forall j, k :: 0 <= j < k < |t.ledger| ==> t.ledger[j].order != t.ledger[k].order)
    && (forall id | id in t.files :: t.files[id].order.status == Closed ==> Billed(t.ledger, id))
    && Allowance(t.ledger)
  }

  predicate Lapsed(t: Tables, id: Id) {
    id in t.files && t.files[id].order.status in {Status.RefundOverdue, Refunded}
  }

  /** The order's refund rows are past the statuses the sweep lists. */
  predicate Flipped(t: Tables, id: Id) {
    id in t.files && t.files[id].refunds != [] && !HasLapsable(t.files[id].refunds)
  }

  /** What a sweep's receipt stands for: the work its key names is done, and stays done. */
  predicate KeySettled(t: Tables, key: Key) {
    match key
    case Client(_) => true
    case EscalationKey(_, _) => true
    case ExpiryKey(id, _) => id in t.files && t.files[id].order.status != Created
    case PaymentExpiryKey(id, _) => id in t.files && t.files[id].order.status == Expired
    case OrderOverdueKey(id, _) => Lapsed(t, id)
    case RefundOverdueKey(id, _) => Flipped(t, id)
  }

  predicate ReceiptsOk(t: Tables) {
    forall key | key in t.receipts && !key.Client? ::
      t.receipts[key] == OrderRes(key.order) && KeySettled(t, key)
  }

  /** A spent token belongs to an order that was accepted. */
  predicate TokensOk(t: Tables) {
    forall token | token in t.tokens ::
      && t.tokens[token].order in t.files
      && (t.tokens[token].usedAt.Some? ==> t.files[t.tokens[token].order].order.status != Created)
  }

  predicate SagaOk(w: World) {
    && (forall id | id in w.listed :: id in w.t.files && w.t.files[id].refunds != [])
    && (forall id | id in w.cleared :: Lapsed(w.t, id))
  }

  ghost predicate Inv(w: World) {
    && FilesOk(w.t)
    && StockBounds(w.t.offers)
    && LedgerOk(w.t)
    && ReceiptsOk(w.t)
    && TokensOk(w.t)
    && SagaOk(w)
  }

  // ---- one transition in a resting order ----

  /** The order's part of a trigger and its follow-on. */
  function MoveAll(f: OrderFile, trigger: Trigger, cmd: Command): Result<OrderFile> {
    var g :- Move(f, trigger, cmd);
    match TransitionFor(trigger).follow
    case None => Success(g)
    case Some(next) => Move(g, next, cmd)
  }

  /** When a client or a sweep may move a resting order. */
  predicate Accepts(f: OrderFile, trigger: Trigger, cmd: Command) {
    && TransitionFor(trigger).Permits(f.order.status)
    && match trigger
       case SupplierConfirm | TokenConfirm => cmd.gate.Open?
       case SubmitReceipt => cmd.receiptURL != ""
       case ConfirmPickup | ConfirmDelivery => !cmd.gate.Unresolved? && RateRecordable(f)
       case _ => true
  }

  /** The rate to record did not come out negative, as a blended rate can when accrued * 10000
      leaves int64. */
  predicate RateRecordable(f: OrderFile) {
    Charges(f.items).Success? ==> RateForLines(f.items, f.order.goods, Charges(f.items).value) >= 0
  }

  predicate Closes(trigger: Trigger) { trigger in {ConfirmPickup, ConfirmDelivery} }

  function StockOf(trigger: Trigger): Stock {
    if Closes(trigger) then Consumes else TransitionFor(trigger).stock
  }

  function NewRow(t: Tables, id: Id, cmd: Command): seq<LedgerRow>
    requires id in t.files
  {
    match Accrue(t.ledger, id, t.files[id], cmd) case Success(l) => l case Failure(_) => t.ledger
  }

  lemma FollowOns(trigger: Trigger)
    ensures TransitionFor(trigger).follow == (if trigger in {SupplierConfirm, TokenConfirm} then Some(IssueInvoice)
                                              else if Closes(trigger) then Some(CloseOrder) else None)
    ensures TransitionFor(trigger).follow.Some? ==>
              TransitionFor(TransitionFor(trigger).follow.value).Permits(TransitionFor(trigger).to)
              && TransitionFor(trigger).stock == Keeps
    ensures TransitionFor(IssueInvoice).stock == Keeps && TransitionFor(CloseOrder).stock == Consumes
    ensures TransitionFor(IssueInvoice).to == AwaitingPayment && TransitionFor(CloseOrder).to == Closed
  {
  }

  lemma MoveAllAccepts(f: OrderFile, trigger: Trigger, cmd: Command)
    requires FileOk(f) && Rests(f.order.status)
    ensures MoveAll(f, trigger, cmd).Success? <==>
              TransitionFor(trigger).Permits(f.order.status) && Supplied(trigger, cmd)
              && (trigger in {SupplierConfirm, TokenConfirm} ==> cmd.gate.Open?)
    ensures MoveAll(f, trigger, cmd).Success? ==>
              var g := MoveAll(f, trigger, cmd).value;
              && FileOk(g) && g.items == f.items && g.order.store == f.order.store && g.order.goods == f.order.goods
              && g.order.status == Landing(trigger)
              && Rests(g.order.status)
  {
    hide FileOk, Move, TransitionFor;
    MoveAccepts(f, trigger, cmd);
    FollowOns(trigger);
    RestingTargets(trigger);
    if Move(f, trigger, cmd).Success? {
      var g := Move(f, trigger, cmd).value;
      MoveKeepsFile(f, trigger, cmd);
      MoveFrame(f, trigger, cmd);
      if TransitionFor(trigger).follow.Some? {
        var next := TransitionFor(trigger).follow.value;
        MoveAccepts(g, next, cmd);
        if Move(g, next, cmd).Success? {
          MoveKeepsFile(g, next, cmd);
          MoveFrame(g, next, cmd);
        }
      }
    }
  }

  /** Where a trigger leaves the order once its follow-on has run. */
  function Landing(trigger: Trigger): Status {
    match TransitionFor(trigger).follow
    case None => TransitionFor(trigger).to
    case Some(next) => TransitionFor(next).to
  }

  lemma RestingTargets(trigger: Trigger)
    ensures Rests(Landing(trigger))
  {
  }

  /** Accruing for a well-formed order is never refused as above its base, and charges the account that the
      sale gate resolved. */
  lemma AccrueAccepts(ledger: seq<LedgerRow>, id: Id, f: OrderFile, cmd: Command)
    requires Priced(f)
    ensures Accrue(ledger, id, f, cmd).Success? <==> !cmd.gate.Unresolved? && RateRecordable(f) && !Billed(ledger, id)
    ensures Accrue(ledger, id, f, cmd).Success? ==>
              var l := Accrue(ledger, id, f, cmd).value;
              && |l| == |ledger| + 1 && l[..|ledger|] == ledger && l[|ledger|].order == id
              && l[|ledger|].owner == cmd.gate.owner && l[|ledger|].at == cmd.at
              && l[|ledger|].base == f.order.goods
              && Charges(f.items) == Success(l[|ledger|].accrued)
              && l[|ledger|].rate == RateForLines(f.items, l[|ledger|].base, l[|ledger|].accrued)
              && l[|ledger|].discount == Discount(OwnerCount(ledger, l[|ledger|].owner), l[|ledger|].accrued)
              && l[|ledger|].payable == l[|ledger|].accrued - l[|ledger|].discount
  {
    ChargesBound(f.items);
  }

  /** Whatever an order's rows say: a row is only ever written with an accrual and a rate that are not negative,
      an accrual of at most the base, and nothing owed beyond it; an order above its base is refused. */
  lemma AccrueGuards(ledger: seq<LedgerRow>, id: Id, f: OrderFile, cmd: Command)
    ensures Accrue(ledger, id, f, cmd).Success? ==>
              var row := Accrue(ledger, id, f, cmd).value[|ledger|];
              0 <= row.accrued <= row.base && row.rate >= 0 && 0 <= row.payable <= row.accrued
    ensures Charges(f.items).Success? && !cmd.gate.Unresolved? && Charges(f.items).value > f.order.goods ==>
              Accrue(ledger, id, f, cmd) == Failure(Invalid)
  {
    hide RateForLines, Charges;
  }

  /** A computable rate is recordable, so only commissions beyond 9.2 * 10^14 tiyin can be refused. */
  lemma ComputableIsRecordable(f: OrderFile)
    requires Priced(f) && FitsInt64(f.order.goods)
    requires Charges(f.items).Success? && RateComputable(f.order.goods, Charges(f.items).value)
    ensures RateRecordable(f)
  {
    ChargesBound(f.items);
    EffectiveRateIsExactIff(f.order.goods, Charges(f.items).value);
    assert f.items[0] in f.items;
  }
}
