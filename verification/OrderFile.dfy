/** One order with every row that references it: items, audit rows, invoices, payments, refunds and
    outbox rows (all of these tables carry the order's id). SQL statements `WHERE order_id = $1` are
    functions on the group. */
module OrderFile {
  import opened Base
  import opened OrderStatus
  import opened Catalog

  const PAYMENT_WINDOW: Time := 72 * 3600
  const REFUND_WINDOW: Time := 72 * 3600

  datatype Order = Order(
    store: Id, status: Status, goods: int, fee: int, total: int,
    deadline: Time, paymentDue: Option<Time>, createdAt: Time, closedAt: Option<Time>)

  datatype AuditRow = AuditRow(from: Option<Status>, to: Status, actor: Actor, source: Source, at: Time)

  datatype InvoiceStatus = Issued | Settled | Returned | Voided
  datatype Invoice = Invoice(version: nat, total: int, status: InvoiceStatus, expiresAt: Time)

  datatype PaymentStatus = Undecided | PaidUp | Failed | Reversed
  datatype Payment = Payment(goods: int, fee: int, sellerAmount: int, status: PaymentStatus, receiptURL: string)

  datatype RefundStatus = Requested | EvidenceUploaded | RefundConfirmed | Overdue
  datatype Refund = Refund(amount: int, status: RefundStatus, dueAt: Time)

  datatype Event =
    | OrderPlaced(total: int, itemCount: nat)
    | StatusChanged(name: EventName, from: Status, to: Status, actor: Actor, source: Source)
    | Escalated(dueAt: Time)
    | RefundBecameOverdue(amount: int, dueAt: Time)

  datatype OrderFile = OrderFile(
    order: Order,
    items: seq<Line>,
    audit: seq<AuditRow>,
    invoices: seq<Invoice>,
    payments: seq<Payment>,
    refunds: seq<Refund>,
    events: seq<Event>)

  /** The sale gate's answer for the order's store. A suspended store or blocked owner is still
      resolved to an account. */
  datatype Gate = Open(owner: Id) | Suspended(owner: Id) | Unresolved

  datatype Command = Command(at: Time, receiptURL: string, gate: Gate)

  // ---- billing statements ----

  function MoveInvoices(invoices: seq<Invoice>, from: InvoiceStatus, to: InvoiceStatus): (r: seq<Invoice>)
    ensures |r| == |invoices|
    ensures forall i :: 0 <= i < |r| ==> r[i] == if invoices[i].status == from then invoices[i].(status := to) else invoices[i]
  {
    seq(|invoices|, i requires 0 <= i < |invoices| =>
      if invoices[i].status == from then invoices[i].(status := to) else invoices[i])
  }

  function MovePayments(payments: seq<Payment>, from: PaymentStatus, to: PaymentStatus): (r: seq<Payment>)
    ensures |r| == |payments|
    ensures forall i :: 0 <= i < |r| ==> r[i] == if payments[i].status == from then payments[i].(status := to) else payments[i]
  {
    seq(|payments|, i requires 0 <= i < |payments| =>
      if payments[i].status == from then payments[i].(status := to) else payments[i])
  }

  predicate OpenRefund(status: RefundStatus) { status in {Requested, EvidenceUploaded, Overdue} }

  /** The statuses the overdue sweep lists and flips. */
  predicate Lapsable(status: RefundStatus) { status in {Requested, EvidenceUploaded} }

  function ConfirmRefunds(refunds: seq<Refund>): (r: seq<Refund>)
    ensures |r| == |refunds|
    ensures forall i :: 0 <= i < |r| ==> r[i] == if OpenRefund(refunds[i].status) then refunds[i].(status := RefundConfirmed) else refunds[i]
  {
    seq(|refunds|, i requires 0 <= i < |refunds| =>
      if OpenRefund(refunds[i].status) then refunds[i].(status := RefundConfirmed) else refunds[i])
  }

  predicate Live(status: PaymentStatus) { status in {Undecided, PaidUp} }

  predicate HasLivePayment(f: OrderFile) { exists p | p in f.payments :: Live(p.status) }

  predicate HasUndecidedPayment(f: OrderFile) { exists p | p in f.payments :: p.status == Undecided }

  predicate HasOpenRefund(f: OrderFile) { exists r | r in f.refunds :: OpenRefund(r.status) }

  // ---- one transition, the order's part ----

  /** The billing consequence of a trigger. */
  function Settle(f: OrderFile, trigger: Trigger, cmd: Command): Result<OrderFile> {
    match trigger
    case IssueInvoice =>
      if !cmd.gate.Open? then Failure(Conflict)
      else if f.order.total < 0 then Failure(Invalid)
      else
        var due := cmd.at + PAYMENT_WINDOW;
        Success(f.(invoices := f.invoices + [Invoice(|f.invoices| + 1, f.order.total, Issued, due)],
                   order := f.order.(paymentDue := Some(due))))
    case SubmitReceipt =>
      if cmd.receiptURL == "" || f.order.goods < 0 || f.order.fee < 0 then Failure(Invalid)
      else if HasLivePayment(f) then Failure(Conflict)
      else Success(f.(payments := f.payments +
                        [Payment(f.order.goods, f.order.fee, f.order.goods + f.order.fee, Undecided, cmd.receiptURL)]))
    case ConfirmPayment =>
      if !HasUndecidedPayment(f) then Failure(Conflict)
      else Success(f.(payments := MovePayments(f.payments, Undecided, PaidUp),
                      invoices := MoveInvoices(f.invoices, Issued, Settled)))
    case RejectPayment =>
      if !HasUndecidedPayment(f) then Failure(Conflict)
      else Success(f.(payments := MovePayments(f.payments, Undecided, Failed)))
    case BuyerCancel | OperatorCancel | PaymentExpire =>
      Success(f.(invoices := MoveInvoices(f.invoices, Issued, Voided),
                 payments := MovePayments(f.payments, Undecided, Failed)))
    case RefundRequest =>
      if f.order.total <= 0 then Failure(Invalid)
      else Success(f.(refunds := f.refunds + [Refund(f.order.total, Requested, cmd.at + REFUND_WINDOW)]))
    case ConfirmRefund =>
      if !HasOpenRefund(f) then Failure(Conflict)
      else Success(f.(refunds := ConfirmRefunds(f.refunds),
                      payments := MovePayments(f.payments, PaidUp, Reversed),
                      invoices := MoveInvoices(f.invoices, Settled, Returned)))
    case _ => Success(f)
  }

  /** The status change and its audit row. */
  function Advance(f: OrderFile, edge: Transition, at: Time): OrderFile {
    f.(order := f.order.(status := edge.to, closedAt := if edge.to == Closed then Some(at) else f.order.closedAt),
       audit := f.audit + [AuditRow(Some(f.order.status), edge.to, edge.actor, edge.source, at)])
  }

  function Publish(f: OrderFile, edge: Transition, from: Status): OrderFile {
    match edge.event
    case None => f
    case Some(name) => f.(events := f.events + [StatusChanged(name, from, edge.to, edge.actor, edge.source)])
  }

  /** One edge applied to the order and its rows. */
  function Move(f: OrderFile, trigger: Trigger, cmd: Command): Result<OrderFile> {
    var edge := TransitionFor(trigger);
    if !edge.Permits(f.order.status) then Failure(Conflict)
    else
      var settled :- Settle(Advance(f, edge, cmd.at), trigger, cmd);
      Success(Publish(settled, edge, f.order.status))
  }

  // ---- what a stored order looks like ----

  /** The order was priced by its lines. */
  predicate Priced(f: OrderFile) {
    && f.items != [] && GoodLines(f.items) && DistinctProducts(f.items)
    && f.order.goods == Goods(f.items) && f.order.fee >= 0
    && f.order.total == f.order.goods + f.order.fee
  }

  predicate NothingBilled(f: OrderFile) {
    f.invoices == [] && f.payments == [] && f.refunds == [] && f.order.paymentDue == None
  }

  /** Exactly one invoice, for the order's total, whose expiry is mirrored on the order. */
  predicate Invoiced(f: OrderFile, status: InvoiceStatus) {
    && |f.invoices| == 1
    && f.invoices[0].total == f.order.total && f.invoices[0].status == status
    && f.order.paymentDue == Some(f.invoices[0].expiresAt)
  }

  predicate Amounts(f: OrderFile) {
    forall p | p in f.payments :: p.goods == f.order.goods && p.fee == f.order.fee && p.sellerAmount == f.order.total
  }

  predicate AllFailed(payments: seq<Payment>) {
    forall i :: 0 <= i < |payments| ==> payments[i].status == Failed
  }

  /** Only the newest payment did not fail. */
  predicate Decisive(payments: seq<Payment>, status: PaymentStatus) {
    |payments| > 0 && payments[|payments| - 1].status == status && AllFailed(payments[..|payments| - 1])
  }

  predicate Refunding(f: OrderFile, statuses: set<RefundStatus>) {
    |f.refunds| == 1 && f.refunds[0].amount == f.order.total && f.refunds[0].status in statuses
  }

  /** The order's status fixes its billing rows. */
  predicate BillingFits(f: OrderFile) {
    && Amounts(f)
    && match f.order.status
       case Created | BuyerDecisionPending | Accepted => NothingBilled(f)
       case AwaitingPayment => Invoiced(f, Issued) && AllFailed(f.payments) && f.refunds == []
       case PaymentReview => Invoiced(f, Issued) && Decisive(f.payments, Undecided) && f.refunds == []
       case Paid | Preparing | Ready | Delivered | PickedUpByBuyer | Closed =>
         Invoiced(f, Settled) && Decisive(f.payments, PaidUp) && f.refunds == []
       case Expired | CancelledByBuyerSLA | CancelledByOperator =>
         NothingBilled(f) || (Invoiced(f, Voided) && AllFailed(f.payments) && f.refunds == [])
       case RefundRequested =>
         Invoiced(f, Settled) && Decisive(f.payments, PaidUp) && Refunding(f, {Requested, EvidenceUploaded})
       case RefundOverdue =>
         Invoiced(f, Settled) && Decisive(f.payments, PaidUp) && Refunding(f, {Requested, EvidenceUploaded, Overdue})
       case Refunded =>
         Invoiced(f, Returned) && Decisive(f.payments, Reversed) && Refunding(f, {RefundConfirmed})
       case Declined => false
  }

  // ---- the audit trail and the published events ----

  predicate LegalRow(trigger: Trigger, row: AuditRow) {
    var edge := TransitionFor(trigger);
    row.from.Some? && edge.Permits(row.from.value) && row.to == edge.to && row.actor == edge.actor && row.source == edge.source
  }

  ghost predicate LegalStep(row: AuditRow) { exists trigger :: LegalRow(trigger, row) }

  /** The audit rows spell a path of the machine from creation to the order's status. */
  ghost predicate TrailFits(audit: seq<AuditRow>, status: Status) {
    && |audit| > 0
    && audit[0].from == None && audit[0].to == Created && audit[0].actor == Buyer
    && audit[|audit| - 1].to == status
    && (forall k :: 0 < k < |audit| ==> audit[k].from == Some(audit[k - 1].to))
    && (forall k :: 0 < k < |audit| ==> LegalStep(audit[k]))
  }

  /** The domain event announcing arrival in a status; billing announces an overdue refund. */
  function Announces(to: Status): Option<EventName> {
    match to
    case Accepted => Some(OrderAccepted)
    case BuyerDecisionPending => Some(OrderDeclined)
    case CancelledByBuyerSLA | CancelledByOperator => Some(OrderCancelled)
    case AwaitingPayment => Some(OrderAwaitingPayment)
    case PaymentReview => Some(PaymentReviewStarted)
    case Paid => Some(OrderPaid)
    case Preparing => Some(OrderPreparing)
    case Ready => Some(OrderReady)
    case PickedUpByBuyer => Some(OrderPickupConfirmed)
    case Delivered => Some(OrderDelivered)
    case Closed => Some(OrderClosed)
    case Expired => Some(OrderExpired)
    case RefundRequested => Some(RefundOpened)
    case Refunded => Some(OrderRefunded)
    case RefundOverdue | Created | Declined => None
  }

  /** The status events an audit trail calls for. */
  function Announced(audit: seq<AuditRow>): seq<Event> {
    if |audit| <= 1 then []
    else
      var row := audit[|audit| - 1];
      Announced(audit[..|audit| - 1]) +
      if row.from.Some? && Announces(row.to).Some?
      then [StatusChanged(Announces(row.to).value, row.from.value, row.to, row.actor, row.source)] else []
  }

  function StatusEvents(events: seq<Event>): seq<Event> {
    if events == [] then []
    else
      var last := events[|events| - 1];
      StatusEvents(events[..|events| - 1]) + if last.StatusChanged? then [last] else []
  }

  function OverdueEvents(events: seq<Event>): nat {
    if events == [] then 0
    else OverdueEvents(events[..|events| - 1]) + if events[|events| - 1].RefundBecameOverdue? then 1 else 0
  }

  lemma EventsAppend(events: seq<Event>, e: Event)
    ensures StatusEvents(events + [e]) == StatusEvents(events) + if e.StatusChanged? then [e] else []
    ensures OverdueEvents(events + [e]) == OverdueEvents(events) + if e.RefundBecameOverdue? then 1 else 0
  {
    assert (events + [e])[..|events|] == events;
  }

  /** Status events are written exactly for the audit rows, in order: none lost, none invented. */
  predicate EventsFit(f: OrderFile) {
    && f.events != [] && f.events[0] == OrderPlaced(f.order.total, |f.items|)
    && StatusEvents(f.events) == Announced(f.audit)
  }

  /** An overdue event was written once if the refund ever went overdue, and never otherwise. */
  predicate OverdueFits(f: OrderFile) {
    && OverdueEvents(f.events) <= |f.refunds| <= 1
    && forall r | r in f.refunds ::
         && (r.status == Overdue ==> OverdueEvents(f.events) == 1)
         && (Lapsable(r.status) ==> OverdueEvents(f.events) == 0)
  }

  ghost predicate FileOk(f: OrderFile) {
    && Priced(f)
    && BillingFits(f)
    && TrailFits(f.audit, f.order.status)
    && EventsFit(f)
    && OverdueFits(f)
    && (f.order.closedAt.Some? <==> f.order.status == Closed)
  }

  // ---- every edge keeps it ----

  /** What a trigger needs from its command, beyond a permitting status. */
  predicate Supplied(trigger: Trigger, cmd: Command) {
    match trigger
    case IssueInvoice => cmd.gate.Open?
    case SubmitReceipt => cmd.receiptURL != ""
    case _ => true
  }

  lemma EdgeEvent(trigger: Trigger)
    ensures TransitionFor(trigger).event == Announces(TransitionFor(trigger).to)
  {
  }

  lemma AdvanceKeepsTrail(f: OrderFile, trigger: Trigger, at: Time)
    requires TrailFits(f.audit, f.order.status) && TransitionFor(trigger).Permits(f.order.status)
    ensures var g := Advance(f, TransitionFor(trigger), at); TrailFits(g.audit, g.order.status)
  {
    var edge := TransitionFor(trigger);
    var row := AuditRow(Some(f.order.status), edge.to, edge.actor, edge.source, at);
    var audit := f.audit + [row];
    assert LegalRow(trigger, row);
    forall k | 0 < k < |audit|
      ensures audit[k].from == Some(audit[k - 1].to) && LegalStep(audit[k])
    {
      if k < |f.audit| { assert audit[k] == f.audit[k]; }
    }
  }

  lemma AdvanceAnnounces(f: OrderFile, edge: Transition, at: Time)
    requires f.audit != [] && edge.event == Announces(edge.to)
    ensures Announced(Advance(f, edge, at).audit)
         == Announced(f.audit) + if edge.event.Some?
                                 then [StatusChanged(edge.event.value, f.order.status, edge.to, edge.actor, edge.source)] else []
  {
    var row := AuditRow(Some(f.order.status), edge.to, edge.actor, edge.source, at);
    assert (f.audit + [row])[..|f.audit|] == f.audit;
  }

  /** The rows the settlement statements look for are there when the status says so. */
  lemma RowsForStatus(f: OrderFile)
    requires Priced(f) && BillingFits(f)
    ensures f.order.goods >= 0 && f.order.fee >= 0 && f.order.total > 0
    ensures f.order.status == AwaitingPayment ==> !HasLivePayment(f)
    ensures f.order.status == PaymentReview ==> HasUndecidedPayment(f)
    ensures f.order.status in {RefundRequested, Status.RefundOverdue} ==> HasOpenRefund(f)
  {
    GoodsBound(f.items);
    if f.payments != [] {
      assert f.payments[|f.payments| - 1] in f.payments;
    }
    if f.refunds != [] { assert f.refunds[0] in f.refunds; }
  }

  /** A well-formed order refuses an edge only for its status or its command's lack. */
  lemma MoveAccepts(f: OrderFile, trigger: Trigger, cmd: Command)
    requires FileOk(f)
    ensures Move(f, trigger, cmd).Success? <==> TransitionFor(trigger).Permits(f.order.status) && Supplied(trigger, cmd)
  {
    assert Priced(f) && BillingFits(f);
    RowsForStatus(f);
    hide FileOk, Priced, BillingFits, HasLivePayment, HasUndecidedPayment, HasOpenRefund;
    AdvanceKeepsRows(f, TransitionFor(trigger), cmd.at);
  }

  lemma AdvanceKeepsRows(f: OrderFile, edge: Transition, at: Time)
    ensures HasLivePayment(Advance(f, edge, at)) == HasLivePayment(f)
    ensures HasUndecidedPayment(Advance(f, edge, at)) == HasUndecidedPayment(f)
    ensures HasOpenRefund(Advance(f, edge, at)) == HasOpenRefund(f)
  {
  }

  /** The billing rows the new status calls for, trigger by trigger. */
  lemma InvoicingKeepsBilling(f: OrderFile, cmd: Command)
    requires BillingFits(f) && Move(f, IssueInvoice, cmd).Success?
    ensures BillingFits(Move(f, IssueInvoice, cmd).value)
  {
  }

  lemma ReceiptKeepsBilling(f: OrderFile, cmd: Command)
    requires BillingFits(f) && f.order.total == f.order.goods + f.order.fee && Move(f, SubmitReceipt, cmd).Success?
    ensures BillingFits(Move(f, SubmitReceipt, cmd).value)
  {
    var g := Move(f, SubmitReceipt, cmd).value;
    assert g.payments[..|f.payments|] == f.payments;
  }

  lemma ConfirmKeepsBilling(f: OrderFile, cmd: Command)
    requires BillingFits(f) && Move(f, ConfirmPayment, cmd).Success?
    ensures BillingFits(Move(f, ConfirmPayment, cmd).value)
  {
    AmountsKept(f, Undecided, PaidUp);
  }

  lemma RejectKeepsBilling(f: OrderFile, cmd: Command)
    requires BillingFits(f) && Move(f, RejectPayment, cmd).Success?
    ensures BillingFits(Move(f, RejectPayment, cmd).value)
  {
    AmountsKept(f, Undecided, Failed);
  }

  lemma AmountsKept(f: OrderFile, from: PaymentStatus, to: PaymentStatus)
    requires Amounts(f)
    ensures Amounts(f.(payments := MovePayments(f.payments, from, to)))
  {
    forall p | p in MovePayments(f.payments, from, to)
      ensures p.goods == f.order.goods && p.fee == f.order.fee && p.sellerAmount == f.order.total
    {
      var i :| 0 <= i < |f.payments| && MovePayments(f.payments, from, to)[i] == p;
      assert f.payments[i] in f.payments;
    }
  }

  lemma CancelKeepsBilling(f: OrderFile, trigger: Trigger, cmd: Command)
    requires trigger in {BuyerCancel, OperatorCancel, PaymentExpire}
    requires BillingFits(f) && Move(f, trigger, cmd).Success?
    ensures BillingFits(Move(f, trigger, cmd).value)
  {
    AmountsKept(f, Undecided, Failed);
    if f.invoices != [] { CancelledRows(f); }
    hide Decisive, MoveInvoices, MovePayments;
  }

  lemma CancelledRows(f: OrderFile)
    requires |f.invoices| == 1 && f.invoices[0].status == Issued
    requires AllFailed(f.payments) || Decisive(f.payments, Undecided)
    ensures MoveInvoices(f.invoices, Issued, Voided) == [f.invoices[0].(status := Voided)]
    ensures AllFailed(MovePayments(f.payments, Undecided, Failed))
  {
    var payments := MovePayments(f.payments, Undecided, Failed);
    forall i | 0 <= i < |payments| ensures payments[i].status == Failed {
      if i < |payments| - 1 && Decisive(f.payments, Undecided) {
        assert f.payments[..|f.payments| - 1][i] == f.payments[i];
      }
    }
  }

  lemma RefundRequestKeepsBilling(f: OrderFile, cmd: Command)
    requires BillingFits(f) && Move(f, RefundRequest, cmd).Success?
    ensures BillingFits(Move(f, RefundRequest, cmd).value)
  {
  }

  lemma ConfirmRefundKeepsBilling(f: OrderFile, cmd: Command)
    requires BillingFits(f) && Move(f, ConfirmRefund, cmd).Success?
    ensures BillingFits(Move(f, ConfirmRefund, cmd).value)
  {
    AmountsKept(f, PaidUp, Reversed);
  }

  lemma PlainMoveKeepsBilling(f: OrderFile, trigger: Trigger, cmd: Command)
    requires trigger in {SupplierConfirm, TokenConfirm, SupplierDecline, Expire, LapseRefund}
    requires BillingFits(f) && Move(f, trigger, cmd).Success?
    ensures BillingFits(Move(f, trigger, cmd).value)
  {
  }

  lemma FulfilmentKeepsBilling(f: OrderFile, trigger: Trigger, cmd: Command)
    requires trigger in {StartPreparing, MarkReady, ConfirmPickup, ConfirmDelivery, CloseOrder}
    requires BillingFits(f) && Move(f, trigger, cmd).Success?
    ensures BillingFits(Move(f, trigger, cmd).value)
  {
  }

  lemma MoveKeepsBilling(f: OrderFile, trigger: Trigger, cmd: Command)
    requires Priced(f) && BillingFits(f) && Move(f, trigger, cmd).Success?
    ensures BillingFits(Move(f, trigger, cmd).value)
  {
    assert f.order.total == f.order.goods + f.order.fee;
    hide Move, BillingFits, Priced;
    match trigger
    case IssueInvoice => InvoicingKeepsBilling(f, cmd);
    case SubmitReceipt => ReceiptKeepsBilling(f, cmd);
    case ConfirmPayment => ConfirmKeepsBilling(f, cmd);
    case RejectPayment => RejectKeepsBilling(f, cmd);
    case BuyerCancel | OperatorCancel | PaymentExpire => CancelKeepsBilling(f, trigger, cmd);
    case RefundRequest => RefundRequestKeepsBilling(f, cmd);
    case ConfirmRefund => ConfirmRefundKeepsBilling(f, cmd);
    case StartPreparing | MarkReady | ConfirmPickup | ConfirmDelivery | CloseOrder => FulfilmentKeepsBilling(f, trigger, cmd);
    case _ => PlainMoveKeepsBilling(f, trigger, cmd);
  }

  /** Settling touches neither the audit trail nor the published events, nor what was ordered. */
  lemma SettleFrame(f: OrderFile, trigger: Trigger, cmd: Command)
    requires Settle(f, trigger, cmd).Success?
    ensures var g := Settle(f, trigger, cmd).value;
            && g.audit == f.audit && g.events == f.events && g.items == f.items
            && g.order == f.order.(paymentDue := g.order.paymentDue)
            && (trigger !in {RefundRequest, ConfirmRefund} ==> g.refunds == f.refunds)
            && (trigger == ConfirmRefund ==> g.refunds == ConfirmRefunds(f.refunds))
            && (trigger == RefundRequest ==> exists due :: g.refunds == f.refunds + [Refund(f.order.total, Requested, due)])
  {
  }

  lemma MoveKeepsRecord(f: OrderFile, trigger: Trigger, cmd: Command)
    requires TrailFits(f.audit, f.order.status) && EventsFit(f) && Move(f, trigger, cmd).Success?
    ensures var g := Move(f, trigger, cmd).value;
            TrailFits(g.audit, g.order.status) && EventsFit(g) && OverdueEvents(g.events) == OverdueEvents(f.events)
  {
    var edge := TransitionFor(trigger);
    EdgeEvent(trigger);
    AdvanceKeepsTrail(f, trigger, cmd.at);
    AdvanceAnnounces(f, edge, cmd.at);
    SettleFrame(Advance(f, edge, cmd.at), trigger, cmd);
    if edge.event.Some? {
      EventsAppend(f.events, StatusChanged(edge.event.value, f.order.status, edge.to, edge.actor, edge.source));
    }
  }

  lemma MoveRefunds(f: OrderFile, trigger: Trigger, cmd: Command)
    requires BillingFits(f) && Move(f, trigger, cmd).Success?
    ensures trigger == RefundRequest ==> f.refunds == []
  {
    hide Settle;
  }

  lemma MoveFrame(f: OrderFile, trigger: Trigger, cmd: Command)
    requires Move(f, trigger, cmd).Success?
    ensures var g := Move(f, trigger, cmd).value;
            && g.items == f.items && g.order.status == TransitionFor(trigger).to
            && g.order.store == f.order.store && g.order.goods == f.order.goods && g.order.fee == f.order.fee
            && g.order.total == f.order.total
            && g.order.closedAt == (if trigger == CloseOrder then Some(cmd.at) else f.order.closedAt)
            && (trigger !in {RefundRequest, ConfirmRefund} ==> g.refunds == f.refunds)
            && (trigger == ConfirmRefund ==> g.refunds == ConfirmRefunds(f.refunds))
            && (trigger == RefundRequest ==> exists due :: g.refunds == f.refunds + [Refund(f.order.total, Requested, due)])
  {
    SettleFrame(Advance(f, TransitionFor(trigger), cmd.at), trigger, cmd);
  }

  lemma RefundsKeepOverdue(f: OrderFile, g: OrderFile)
    requires OverdueFits(f) && OverdueEvents(g.events) == OverdueEvents(f.events)
    requires || g.refunds == f.refunds
             || g.refunds == ConfirmRefunds(f.refunds)
             || (f.refunds == [] && |g.refunds| == 1 && g.refunds[0].status == Requested)
    ensures OverdueFits(g)
  {
    assert forall r :: r in g.refunds ==> r == g.refunds[0];
    if f.refunds != [] { assert f.refunds[0] in f.refunds; }
  }

  /** Every committed edge leaves a well-formed order. */
  lemma MoveKeepsFile(f: OrderFile, trigger: Trigger, cmd: Command)
    requires FileOk(f) && Move(f, trigger, cmd).Success?
    ensures FileOk(Move(f, trigger, cmd).value)
  {
    hide BillingFits, TrailFits, OverdueFits, EventsFit;
    assert TransitionFor(trigger).Permits(f.order.status);
    hide Move, TransitionFor;
    MoveKeepsBilling(f, trigger, cmd);
    MoveKeepsRecord(f, trigger, cmd);
    MoveFrame(f, trigger, cmd);
    MoveRefunds(f, trigger, cmd);
    RefundsKeepOverdue(f, Move(f, trigger, cmd).value);
    assert (f.order.status == Closed) ==> false by { ClosedIsFinal(trigger); }
  }

  lemma ClosedIsFinal(trigger: Trigger)
    ensures !TransitionFor(trigger).Permits(Closed)
    ensures TransitionFor(trigger).to == Closed <==> trigger == CloseOrder
  {
  }
}
