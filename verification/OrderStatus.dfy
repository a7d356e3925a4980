/** The order state machine: statuses, triggers and the constant transition table. */
module OrderStatus {
  import opened Base

  datatype Status =
    | Created | Declined | Expired | BuyerDecisionPending | Accepted | AwaitingPayment
    | Paid | PaymentReview | Preparing | Ready | Delivered | PickedUpByBuyer | Closed
    | CancelledByBuyerSLA | CancelledByOperator
    | RefundRequested | Refunded | RefundOverdue

  datatype Actor = Buyer | Seller | Operator | System

  datatype Source = App | SMSToken | Cron

  datatype Trigger =
    | SupplierConfirm | TokenConfirm | SupplierDecline | BuyerCancel | OperatorCancel | Expire
    | IssueInvoice | SubmitReceipt | ConfirmPayment | RejectPayment
    | StartPreparing | MarkReady | ConfirmPickup | ConfirmDelivery | CloseOrder
    | PaymentExpire
    | RefundRequest | LapseRefund | ConfirmRefund

  datatype EventName =
    | OrderAccepted | OrderDeclined | OrderCancelled | OrderAwaitingPayment | PaymentReviewStarted
    | OrderPaid | OrderPreparing | OrderReady | OrderPickupConfirmed | OrderDelivered | OrderClosed
    | OrderExpired | RefundOpened | OrderRefunded

  datatype Stock = Keeps | Releases | Consumes

  /** One edge of the machine. */
  datatype Transition = Transition(
    from: set<Status>,
    to: Status,
    actor: Actor,
    source: Source,
    event: Option<EventName>,
    follow: Option<Trigger>,
    stock: Stock)
  {
    predicate Permits(status: Status) { status in from }
  }

  /** The transition table. */
  function TransitionFor(trigger: Trigger): Transition {
    match trigger
    case SupplierConfirm =>
      Transition({Created}, Accepted, Seller, App, Some(OrderAccepted), Some(IssueInvoice), Keeps)
    case TokenConfirm =>
      Transition({Created}, Accepted, Seller, SMSToken, Some(OrderAccepted), Some(IssueInvoice), Keeps)
    case SupplierDecline =>
      Transition({Created}, BuyerDecisionPending, Seller, App, Some(OrderDeclined), None, Releases)
    case BuyerCancel =>
      Transition({Created, BuyerDecisionPending, AwaitingPayment}, CancelledByBuyerSLA, Buyer, App,
                 Some(OrderCancelled), None, Releases)
    case OperatorCancel =>
      Transition({Created, BuyerDecisionPending, AwaitingPayment, PaymentReview}, CancelledByOperator, Operator, App,
                 Some(OrderCancelled), None, Releases)
    case IssueInvoice =>
      Transition({Accepted}, AwaitingPayment, System, App, Some(OrderAwaitingPayment), None, Keeps)
    case SubmitReceipt =>
      Transition({AwaitingPayment}, PaymentReview, Buyer, App, Some(PaymentReviewStarted), None, Keeps)
    case ConfirmPayment =>
      Transition({PaymentReview}, Paid, Seller, App, Some(OrderPaid), None, Keeps)
    case RejectPayment =>
      Transition({PaymentReview}, AwaitingPayment, Seller, App, Some(OrderAwaitingPayment), None, Keeps)
    case StartPreparing =>
      Transition({Paid}, Preparing, Seller, App, Some(OrderPreparing), None, Keeps)
    case MarkReady =>
      Transition({Preparing}, Ready, Seller, App, Some(OrderReady), None, Keeps)
    case ConfirmPickup =>
      Transition({Ready, Paid}, PickedUpByBuyer, Buyer, App, Some(OrderPickupConfirmed), Some(CloseOrder), Keeps)
    case ConfirmDelivery =>
      Transition({Ready, Paid}, Delivered, Seller, App, Some(OrderDelivered), Some(CloseOrder), Keeps)
    case CloseOrder =>
      Transition({PickedUpByBuyer, Delivered}, Closed, System, App, Some(OrderClosed), None, Consumes)
    case Expire =>
      Transition({Created}, Expired, System, Cron, Some(OrderExpired), None, Releases)
    case PaymentExpire =>
      Transition({AwaitingPayment}, Expired, System, Cron, Some(OrderExpired), None, Releases)
    case RefundRequest =>
      Transition({Paid, Preparing, Ready}, RefundRequested, Operator, App, Some(RefundOpened), None, Releases)
    case LapseRefund =>
      Transition({RefundRequested}, RefundOverdue, System, Cron, None, None, Keeps)
    case ConfirmRefund =>
      Transition({RefundRequested, RefundOverdue}, Refunded, Buyer, App, Some(OrderRefunded), None, Keeps)
  }

  // ---- the same machine, read from the statuses and from the actors ----

  /** What can happen to an order in a status. */
  function OutOf(status: Status): set<Trigger> {
    match status
    case Created => {SupplierConfirm, TokenConfirm, SupplierDecline, BuyerCancel, OperatorCancel, Expire}
    case BuyerDecisionPending => {BuyerCancel, OperatorCancel}
    case Accepted => {IssueInvoice}
    case AwaitingPayment => {SubmitReceipt, BuyerCancel, OperatorCancel, PaymentExpire}
    case PaymentReview => {ConfirmPayment, RejectPayment, OperatorCancel}
    case Paid => {StartPreparing, ConfirmPickup, ConfirmDelivery, RefundRequest}
    case Preparing => {MarkReady, RefundRequest}
    case Ready => {ConfirmPickup, ConfirmDelivery, RefundRequest}
    case PickedUpByBuyer | Delivered => {CloseOrder}
    case RefundRequested => {LapseRefund, ConfirmRefund}
    case RefundOverdue => {ConfirmRefund}
    case Closed | Expired | Declined | CancelledByBuyerSLA | CancelledByOperator | Refunded => {}
  }

  /** What brings an order into a status. */
  function Into(status: Status): set<Trigger> {
    match status
    case Created | Declined => {}
    case Accepted => {SupplierConfirm, TokenConfirm}
    case BuyerDecisionPending => {SupplierDecline}
    case AwaitingPayment => {IssueInvoice, RejectPayment}
    case PaymentReview => {SubmitReceipt}
    case Paid => {ConfirmPayment}
    case Preparing => {StartPreparing}
    case Ready => {MarkReady}
    case PickedUpByBuyer => {ConfirmPickup}
    case Delivered => {ConfirmDelivery}
    case Closed => {CloseOrder}
    case Expired => {Expire, PaymentExpire}
    case CancelledByBuyerSLA => {BuyerCancel}
    case CancelledByOperator => {OperatorCancel}
    case RefundRequested => {RefundRequest}
    case RefundOverdue => {LapseRefund}
    case Refunded => {ConfirmRefund}
  }

  /** Whose act it is. */
  function ActsOf(actor: Actor): set<Trigger> {
    match actor
    case Buyer => {BuyerCancel, SubmitReceipt, ConfirmPickup, ConfirmRefund}
    case Seller =>
      {SupplierConfirm, TokenConfirm, SupplierDecline, ConfirmPayment, RejectPayment, StartPreparing, MarkReady, ConfirmDelivery}
    case Operator => {OperatorCancel, RefundRequest}
    case System => {IssueInvoice, CloseOrder, Expire, PaymentExpire, LapseRefund}
  }

  /** The table, status by status. */
  lemma TableByStatus(trigger: Trigger, status: Status)
    ensures TransitionFor(trigger).Permits(status) <==> trigger in OutOf(status)
    ensures TransitionFor(trigger).to == status <==> trigger in Into(status)
  {
    TableInto(trigger, status);
    hide Into, OutOf;
    if BeforePayment(status) { TableBeforePayment(trigger, status); } else { TableFromPayment(trigger, status); }
  }

  predicate BeforePayment(status: Status) {
    status in {Created, Declined, Expired, BuyerDecisionPending, Accepted, AwaitingPayment, PaymentReview}
  }

  lemma TableBeforePayment(trigger: Trigger, status: Status)
    requires BeforePayment(status)
    ensures TransitionFor(trigger).Permits(status) <==> trigger in OutOf(status)
  {
  }

  lemma TableFromPayment(trigger: Trigger, status: Status)
    requires !BeforePayment(status)
    ensures TransitionFor(trigger).Permits(status) <==> trigger in OutOf(status)
  {
  }

  lemma TableInto(trigger: Trigger, status: Status)
    ensures TransitionFor(trigger).to == status <==> trigger in Into(status)
  {
  }

  /** And actor by actor; only the sweeps act by the clock and only the token by SMS. */
  lemma TableByActor(trigger: Trigger, actor: Actor)
    ensures TransitionFor(trigger).actor == actor <==> trigger in ActsOf(actor)
    ensures TransitionFor(trigger).source == Cron <==> trigger in {Expire, PaymentExpire, LapseRefund}
    ensures TransitionFor(trigger).source == SMSToken <==> trigger == TokenConfirm
  {
  }

  /** Statuses a committed order may rest in. The two handover states and `accepted` are passed
      through inside one transaction, and no edge leads to `declined`. */
  predicate Rests(status: Status) {
    status !in {Accepted, Delivered, PickedUpByBuyer, Declined}
  }

  /** Statuses in which an order is meant to hold its lines' quantities in the catalogue. */
  predicate Holds(status: Status) {
    status in {Created, Accepted, AwaitingPayment, PaymentReview, Paid, Preparing, Ready,
               Delivered, PickedUpByBuyer}
  }
}
