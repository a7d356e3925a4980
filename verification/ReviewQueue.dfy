/** The operator queues as projections of the event log, in the form that takes the newest closing event
    of each aggregate and in the form that asks for no later closing event. */
module ReviewQueue {
  import opened Base
  import opened OrderStatus

  datatype EventType =
    | OrderEvent(name: EventName)
    | SlaEscalated
    | RefundBecameOverdue
    | CatalogRequested
    | CatalogRequestResolved
    | ChaseRequested
    | QueueItemResolved(item: Id)

  datatype Event = Event(id: Id, kind: EventType, aggregate: Id, at: Time)

  /** The event table, in no particular order. */
  type Log = seq<Event>

  datatype Queue = PaymentReviews | OverdueRefunds | Escalations | CatalogRequests | Chases

  datatype Closure = Closure(kinds: set<EventType>, strict: bool)

  const EPOCH: Time := 0

  function SourceKind(queue: Queue): EventType {
    match queue
    case PaymentReviews => OrderEvent(PaymentReviewStarted)
    case OverdueRefunds => RefundBecameOverdue
    case Escalations => SlaEscalated
    case CatalogRequests => CatalogRequested
    case Chases => ChaseRequested
  }

  function ClosureFor(queue: Queue): Option<Closure> {
    match queue
    case Escalations =>
      Some(Closure({OrderEvent(OrderAccepted), OrderEvent(OrderDeclined), OrderEvent(OrderExpired), OrderEvent(OrderCancelled)}, false))
    case PaymentReviews =>
      Some(Closure({OrderEvent(OrderPaid), OrderEvent(OrderAwaitingPayment), OrderEvent(OrderCancelled), OrderEvent(OrderExpired)}, true))
    case CatalogRequests => Some(Closure({CatalogRequestResolved}, false))
    case OverdueRefunds => Some(Closure({OrderEvent(OrderRefunded)}, false))
    case Chases => None
  }

  predicate Resolved(log: Log, item: Id) { exists e | e in log :: e.kind == QueueItemResolved(item) }

  predicate Closes(e: Event, closure: Closure, aggregate: Id) { e.aggregate == aggregate && e.kind in closure.kinds }

  // ---- the two projections ----

  /** max(occurred_at) over the aggregate's closing events; nothing when it has none. */
  function NewestClosing(log: Log, closure: Closure, aggregate: Id): Option<Time> {
    if log == [] then None
    else
      var before, e := NewestClosing(log[..|log| - 1], closure, aggregate), log[|log| - 1];
      if !Closes(e, closure, aggregate) then before
      else if before.Some? && before.value >= e.at then before else Some(e.at)
  }

  /** An unmatched row of the left join compares as the epoch. */
  function ClosedAt(log: Log, closure: Closure, aggregate: Id): Time {
    match NewestClosing(log, closure, aggregate) case None => EPOCH case Some(at) => at
  }

  predicate OpenByNewest(log: Log, queue: Queue, e: Event) {
    && e in log && e.kind == SourceKind(queue) && !Resolved(log, e.id)
    && match ClosureFor(queue)
       case None => true
       case Some(closure) =>
         if closure.strict then ClosedAt(log, closure, e.aggregate) <= e.at else ClosedAt(log, closure, e.aggregate) < e.at
  }

  predicate Later(closing: Event, e: Event, strict: bool) {
    if strict then closing.at > e.at else closing.at >= e.at
  }

  predicate OpenByNoLater(log: Log, queue: Queue, e: Event) {
    && e in log && e.kind == SourceKind(queue) && !Resolved(log, e.id)
    && match ClosureFor(queue)
       case None => true
       case Some(closure) => !exists c | c in log :: Closes(c, closure, e.aggregate) && Later(c, e, closure.strict)
  }

  lemma {:induction false} NewestIsMax(log: Log, closure: Closure, aggregate: Id)
    ensures var newest := NewestClosing(log, closure, aggregate);
      && (newest.None? <==> forall c | c in log :: !Closes(c, closure, aggregate))
      && (newest.Some? ==> exists c | c in log :: Closes(c, closure, aggregate) && c.at == newest.value)
      && (newest.Some? ==> forall c | c in log && Closes(c, closure, aggregate) :: c.at <= newest.value)
  {
    if log != [] {
      var rest, last := log[..|log| - 1], log[|log| - 1];
      NewestIsMax(rest, closure, aggregate);
      assert forall c :: c in log <==> c in rest || c == last;
    }
  }

  /** The epoch stands in for a missing closing event only for items after the epoch. */
  predicate AfterEpoch(e: Event, strict: bool) { if strict then EPOCH <= e.at else EPOCH < e.at }

  /** For any log, the newest-closing form keeps exactly the items with no later closing event, except
      that it drops a never-closed item that is not after the epoch. */
  lemma ProjectionsAgreeIff(log: Log, queue: Queue, e: Event)
    ensures OpenByNewest(log, queue, e) <==>
      OpenByNoLater(log, queue, e)
      && (ClosureFor(queue).Some? && NewestClosing(log, ClosureFor(queue).value, e.aggregate).None? ==>
            AfterEpoch(e, ClosureFor(queue).value.strict))
  {
    if ClosureFor(queue).Some? { NewestIsMax(log, ClosureFor(queue).value, e.aggregate); }
  }

  // ---- payment reviews and the order machine ----

  /** One applied edge: its trigger, and the time and id of the event it wrote. */
  datatype Edge = Edge(trigger: Trigger, at: Time, eventId: Id)

  type Path = seq<Edge>

  function StatusAfter(path: Path): Status {
    if path == [] then Created else TransitionFor(path[|path| - 1].trigger).to
  }

  predicate Legal(path: Path) {
    forall k :: 0 <= k < |path| ==> TransitionFor(path[k].trigger).Permits(StatusAfter(path[..k]))
  }

  /** Times never go back. */
  predicate Ordered(path: Path) { forall j, k :: 0 <= j < k < |path| ==> path[j].at <= path[k].at }

  /** And what follows the opening of a review is strictly later. */
  predicate Timed(path: Path) {
    Ordered(path) && forall k :: 0 < k < |path| && path[k - 1].trigger == SubmitReceipt ==> path[k - 1].at < path[k].at
  }

  function EventOf(order: Id, edge: Edge): Option<Event> {
    match TransitionFor(edge.trigger).event
    case None => None
    case Some(name) => Some(Event(edge.eventId, OrderEvent(name), order, edge.at))
  }

  /** The log holds exactly this order's history as far as the order's own events go; anything else may
      be in it too. */
  predicate Records(log: Log, order: Id, path: Path) {
    && (forall e | e in log && e.aggregate == order && e.kind.OrderEvent? ::
          exists k :: 0 <= k < |path| && EventOf(order, path[k]) == Some(e))
    && (forall k :: 0 <= k < |path| && EventOf(order, path[k]).Some? ==> EventOf(order, path[k]).value in log)
  }

  predicate NoneResolved(log: Log, path: Path) {
    forall k :: 0 <= k < |path| ==> !Resolved(log, path[k].eventId)
  }

  /** Whatever leaves payment review closes the review's item. */
  lemma ReviewIsClosedNext(path: Path, k: nat)
    requires Legal(path) && k + 1 < |path| && path[k].trigger == SubmitReceipt
    ensures TransitionFor(path[k + 1].trigger).event.Some?
    ensures OrderEvent(TransitionFor(path[k + 1].trigger).event.value) in ClosureFor(PaymentReviews).value.kinds
  {
    assert path[..k + 1][|path[..k + 1]| - 1] == path[k];
    assert StatusAfter(path[..k + 1]) == PaymentReview;
  }

  function LastReview(order: Id, path: Path): Event
    requires path != []
  {
    Event(path[|path| - 1].eventId, OrderEvent(PaymentReviewStarted), order, path[|path| - 1].at)
  }

  predicate ClosesReview(c: Event, order: Id) { Closes(c, ClosureFor(PaymentReviews).value, order) }

  /** What it takes for a recorded review to be open. */
  lemma OpenReview(log: Log, e: Event)
    ensures OpenByNoLater(log, PaymentReviews, e) <==>
      && e in log && e.kind == OrderEvent(PaymentReviewStarted) && !Resolved(log, e.id)
      && forall c | c in log && ClosesReview(c, e.aggregate) :: c.at <= e.at
  {
  }

  lemma SubmittingOpens(order: Id, edge: Edge)
    ensures edge.trigger == SubmitReceipt <==>
      EventOf(order, edge) == Some(Event(edge.eventId, OrderEvent(PaymentReviewStarted), order, edge.at))
    ensures EventOf(order, edge).Some? ==> EventOf(order, edge).value.at == edge.at && EventOf(order, edge).value.id == edge.eventId
  {
  }

  /** A review that is not the last edge was closed by the next one. */
  lemma PassedReviewIsClosed(log: Log, order: Id, path: Path, k: nat)
    requires Legal(path) && Records(log, order, path)
    requires k + 1 < |path| && path[k].trigger == SubmitReceipt
    ensures exists c | c in log :: ClosesReview(c, order) && c.at == path[k + 1].at
  {
    ReviewIsClosedNext(path, k);
    var c := EventOf(order, path[k + 1]).value;
    assert c in log && ClosesReview(c, order) && c.at == path[k + 1].at;
  }

  /** Nothing recorded is later than the last edge. */
  lemma NothingAfterLast(log: Log, order: Id, path: Path)
    requires Ordered(path) && Records(log, order, path) && path != []
    ensures forall c | c in log && ClosesReview(c, order) :: c.at <= path[|path| - 1].at
  {
    hide TransitionFor;
    forall c | c in log && ClosesReview(c, order) ensures c.at <= path[|path| - 1].at {
      var j :| 0 <= j < |path| && EventOf(order, path[j]) == Some(c);
      SubmittingOpens(order, path[j]);
    }
  }

  /** In every legal history, through any number of rejections: the payment-review queue holds the
      newest review of the order and nothing else of it while the order is in payment review, and
      nothing of it otherwise. */
  lemma QueueFollowsStatus(log: Log, order: Id, path: Path, e: Event)
    requires Legal(path) && Timed(path) && Records(log, order, path) && NoneResolved(log, path)
    requires e.aggregate == order
    ensures OpenByNoLater(log, PaymentReviews, e) <==> StatusAfter(path) == PaymentReview && e == LastReview(order, path)
  {
    OpenReview(log, e);
    hide OpenByNoLater, TransitionFor, ClosesReview;
    if e in log && e.kind == OrderEvent(PaymentReviewStarted) {
      var k :| 0 <= k < |path| && EventOf(order, path[k]) == Some(e);
      SubmittingOpens(order, path[k]);
      assert !Resolved(log, path[k].eventId);
      hide EventOf, Resolved;
      Submitted(path);
      if k + 1 < |path| {
        PassedReviewIsClosed(log, order, path, k);
        assert path[k + 1 - 1].at < path[k + 1].at <= path[|path| - 1].at;
      } else {
        NothingAfterLast(log, order, path);
      }
    } else if StatusAfter(path) == PaymentReview {
      Submitted(path);
      SubmittingOpens(order, path[|path| - 1]);
      hide Resolved, Legal, Timed;
      assert EventOf(order, path[|path| - 1]) == Some(LastReview(order, path));
    }
  }

  lemma Submitted(path: Path)
    ensures StatusAfter(path) == PaymentReview <==> |path| > 0 && path[|path| - 1].trigger == SubmitReceipt
  {
  }

  /** The same of the newest-closing form, for orders of after the epoch. */
  lemma NewestQueueFollowsStatus(log: Log, order: Id, path: Path, e: Event)
    requires Legal(path) && Timed(path) && Records(log, order, path) && NoneResolved(log, path)
    requires e.aggregate == order && forall k :: 0 <= k < |path| ==> path[k].at >= EPOCH
    ensures OpenByNewest(log, PaymentReviews, e) <==> StatusAfter(path) == PaymentReview && e == LastReview(order, path)
  {
    QueueFollowsStatus(log, order, path, e);
    ProjectionsAgreeIff(log, PaymentReviews, e);
    hide OpenByNewest, Records, NoneResolved, Legal, Timed;
  }

  /** What the strict comparison costs: when times only never go back, the edge that leaves a review takes its item out of
      the queue exactly when it is strictly later than the opening; one at the very same time leaves the
      item in the queue of an order that is no longer in review. */
  lemma LeavingClosesIffLater(log: Log, order: Id, path: Path)
    requires |path| >= 2 && Legal(path) && Ordered(path) && Records(log, order, path) && NoneResolved(log, path)
    requires path[|path| - 2].trigger == SubmitReceipt
    ensures StatusAfter(path) != PaymentReview
    ensures var review := Event(path[|path| - 2].eventId, OrderEvent(PaymentReviewStarted), order, path[|path| - 2].at);
      OpenByNoLater(log, PaymentReviews, review) <==> path[|path| - 1].at == path[|path| - 2].at
  {
    var n := |path| - 2;
    var review := Event(path[n].eventId, OrderEvent(PaymentReviewStarted), order, path[n].at);
    PassedReviewIsClosed(log, order, path, n);
    NothingAfterLast(log, order, path);
    SubmittingOpens(order, path[n]);
    OpenReview(log, review);
    LeavesReview(path);
    hide OpenByNoLater, TransitionFor, ClosesReview, Legal, Resolved;
    assert EventOf(order, path[n]).Some?;
    assert !Resolved(log, path[n].eventId);
  }

  lemma LeavesReview(path: Path)
    requires |path| >= 2 && Legal(path) && path[|path| - 2].trigger == SubmitReceipt
    ensures StatusAfter(path) != PaymentReview
  {
    var n := |path| - 2;
    assert path[..n + 1][|path[..n + 1]| - 1] == path[n];
    assert StatusAfter(path[..n + 1]) == PaymentReview;
  }

  // ---- the other queues ----

  /** What leaves `created` is an acceptance, a refusal, an expiry or a cancellation, and it is never returned to. */
  lemma FirstEdgeCloses(path: Path)
    requires Legal(path)
    ensures path == [] <==> StatusAfter(path) == Created
    ensures path != [] ==>
              TransitionFor(path[0].trigger).event in {Some(OrderAccepted), Some(OrderDeclined), Some(OrderExpired), Some(OrderCancelled)}
  {
    if path != [] { assert path[..0] == [] && TransitionFor(path[0].trigger).Permits(Created); }
  }

  /** An escalated order stands in its queue exactly as long as nobody has answered it: a supplier, the buyer,
      an operator or the sweep, at the time of the escalation or later. */
  lemma EscalationFollowsStatus(log: Log, order: Id, path: Path, e: Event)
    requires Legal(path) && Records(log, order, path)
    requires e in log && e.aggregate == order && e.kind == SlaEscalated && !Resolved(log, e.id)
    requires path != [] ==> e.at <= path[0].at
    ensures OpenByNoLater(log, Escalations, e) <==> StatusAfter(path) == Created
  {
    FirstEdgeCloses(path);
    if path != [] {
      var c := EventOf(order, path[0]).value;
      assert c in log && Closes(c, ClosureFor(Escalations).value, order) && Later(c, e, false);
    } else {
      forall c | c in log && c.aggregate == order ensures !Closes(c, ClosureFor(Escalations).value, order) {}
    }
    hide TransitionFor, Resolved;
  }

  /** Only the confirmation of a refund refunds an order and announces it, and nothing leaves that status. */
  lemma ConfirmingRefunds(trigger: Trigger)
    ensures TransitionFor(trigger).to == Refunded <==> trigger == ConfirmRefund
    ensures TransitionFor(trigger).event == Some(OrderRefunded) <==> trigger == ConfirmRefund
    ensures !TransitionFor(trigger).Permits(Refunded)
  {
  }

  lemma RefundIsLast(path: Path)
    requires Legal(path)
    ensures StatusAfter(path) == Refunded <==> path != [] && path[|path| - 1].trigger == ConfirmRefund
    ensures forall k | 0 <= k < |path| :: TransitionFor(path[k].trigger).event == Some(OrderRefunded) ==> k == |path| - 1
  {
    forall trigger { ConfirmingRefunds(trigger); }
    hide TransitionFor;
    forall k | 0 <= k < |path| - 1 ensures path[k].trigger != ConfirmRefund {
      assert path[..k + 1][|path[..k + 1]| - 1] == path[k];
      assert TransitionFor(path[k + 1].trigger).Permits(StatusAfter(path[..k + 1]));
    }
  }

  /** An overdue refund stands in its queue exactly until the buyer confirms the money. */
  lemma OverdueFollowsStatus(log: Log, order: Id, path: Path, e: Event)
    requires Legal(path) && Records(log, order, path)
    requires e in log && e.aggregate == order && e.kind == EventType.RefundBecameOverdue && !Resolved(log, e.id)
    requires StatusAfter(path) == Refunded ==> e.at <= path[|path| - 1].at
    ensures OpenByNoLater(log, OverdueRefunds, e) <==> StatusAfter(path) != Refunded
  {
    RefundIsLast(path);
    var closure := ClosureFor(OverdueRefunds).value;
    if StatusAfter(path) == Refunded {
      var c := EventOf(order, path[|path| - 1]).value;
      assert c in log && Closes(c, closure, order) && Later(c, e, false);
    } else {
      forall c | c in log && c.aggregate == order ensures !Closes(c, closure, order) {
        if c.kind.OrderEvent? { var k :| 0 <= k < |path| && EventOf(order, path[k]) == Some(c); }
      }
    }
    hide Resolved;
  }

  /** A catalogue request leaves its queue when it is resolved, then or later; a chase only by an operator. */
  lemma RequestsAndChases(log: Log, e: Event)
    requires e in log
    ensures OpenByNoLater(log, CatalogRequests, e) <==>
              && e.kind == CatalogRequested && QueueItemResolved(e.id) !in KindsOf(log)
              && !exists c | c in log :: c.kind == CatalogRequestResolved && c.aggregate == e.aggregate && c.at >= e.at
    ensures OpenByNoLater(log, Chases, e) <==> e.kind == ChaseRequested && QueueItemResolved(e.id) !in KindsOf(log)
  {
  }

  function KindsOf(log: Log): set<EventType> { set e | e in log :: e.kind }
}
