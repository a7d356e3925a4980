/** What holds of every reachable state, in the terms of the platform's own post-run checks, and
    what retries of one operation key do. */
module OrderTheorems {
  import opened Base
  import opened OrderStatus
  import opened Money
  import opened Catalog
  import opened Commission
  import opened OrderFile
  import opened OrderStore
  import opened OrderRuns
  import opened OrderSafety
  import opened OrderInvariant
  import opened Conservation

  function CountStatus(payments: seq<Payment>, statuses: set<PaymentStatus>): nat {
    if payments == [] then 0
    else CountStatus(payments[..|payments| - 1], statuses) + if payments[|payments| - 1].status in statuses then 1 else 0
  }

  lemma {:induction false} FailedCountNone(payments: seq<Payment>, statuses: set<PaymentStatus>)
    requires AllFailed(payments) && Failed !in statuses
    ensures CountStatus(payments, statuses) == 0
  {
    if payments != [] { FailedCountNone(payments[..|payments| - 1], statuses); }
  }

  lemma PaymentCounts(f: OrderFile)
    requires BillingFits(f)
    ensures CountStatus(f.payments, {Undecided, PaidUp}) <= 1
    ensures f.order.status == Closed ==> CountStatus(f.payments, {PaidUp}) == 1
  {
    if f.payments != [] {
      FailedCountNone(f.payments[..|f.payments| - 1], {Undecided, PaidUp});
      FailedCountNone(f.payments[..|f.payments| - 1], {PaidUp});
    }
  }

  const LIVE := {Undecided, PaidUp}

  lemma {:induction false} DecidingAddsNoLive(payments: seq<Payment>, from: PaymentStatus, to: PaymentStatus)
    requires from in LIVE
    ensures CountStatus(MovePayments(payments, from, to), LIVE) <= CountStatus(payments, LIVE)
  {
    if payments != [] {
      var front, moved := payments[..|payments| - 1], MovePayments(payments, from, to);
      DecidingAddsNoLive(front, from, to);
      assert moved[..|payments| - 1] == MovePayments(front, from, to);
    }
  }

  lemma {:induction false} NoneLiveCount(payments: seq<Payment>)
    requires forall p | p in payments :: !Live(p.status)
    ensures CountStatus(payments, LIVE) == 0
  {
    if payments != [] {
      assert payments[|payments| - 1] in payments;
      NoneLiveCount(payments[..|payments| - 1]);
    }
  }

  lemma SettleAddsNoLive(f: OrderFile, trigger: Trigger, cmd: Command)
    requires Settle(f, trigger, cmd).Success? && CountStatus(f.payments, LIVE) <= 1
    ensures CountStatus(Settle(f, trigger, cmd).value.payments, LIVE) <= 1
  {
    DecidingAddsNoLive(f.payments, Undecided, PaidUp);
    DecidingAddsNoLive(f.payments, Undecided, Failed);
    DecidingAddsNoLive(f.payments, PaidUp, Reversed);
    hide MovePayments, MoveInvoices, ConfirmRefunds;
    if trigger == SubmitReceipt {
      NoneLiveCount(f.payments);
      var g := Settle(f, trigger, cmd).value;
      assert g.payments[..|f.payments|] == f.payments && |g.payments| == |f.payments| + 1;
    }
  }

  /** Whatever an order's rows say, no edge gives it a second live payment. */
  lemma NoSecondLivePayment(f: OrderFile, trigger: Trigger, cmd: Command)
    requires Move(f, trigger, cmd).Success? && CountStatus(f.payments, LIVE) <= 1
    ensures CountStatus(Move(f, trigger, cmd).value.payments, LIVE) <= 1
  {
    SettleAddsNoLive(Advance(f, TransitionFor(trigger), cmd.at), trigger, cmd);
    hide Settle, TransitionFor, CountStatus;
  }

  /** The charges an order's lines owe, in the integer arithmetic of the post-run check. */
  function ChargesBySQL(lines: seq<Line>): int {
    if lines == [] then 0
    else ChargesBySQL(lines[..|lines| - 1]) + (lines[|lines| - 1].lineAmount * lines[|lines| - 1].bps + 5000) / 10000
  }

  lemma RoundingAgrees(num: int)
    requires num >= 0
    ensures Nearest(num, 10_000) == (num + 5000) / 10_000
  {
    NearestIsUnique(Nearest(num, 10_000), (num + 5000) / 10_000, num, 10_000);
  }

  lemma ChargeAgrees(line: Line)
    requires GoodLine(line)
    ensures ApplyBasisPoints(line.lineAmount, line.bps) == Success((line.lineAmount * line.bps + 5000) / 10_000)
  {
    BasisPointsBound(line.lineAmount, line.bps);
    assert line.lineAmount * line.bps >= 0;
    RoundingAgrees(line.lineAmount * line.bps);
  }

  lemma {:induction false} ChargesAgree(lines: seq<Line>)
    requires GoodLines(lines)
    ensures Charges(lines) == Success(ChargesBySQL(lines))
  {
    if lines != [] {
      var last := lines[|lines| - 1];
      assert last in lines;
      ChargesAgree(lines[..|lines| - 1]);
      ChargeAgrees(last);
      hide ApplyBasisPoints, GoodLine;
    }
  }

  /** The invariants every capacity run ends with, for every run. */
  ghost predicate CapacityInvariants(t: Tables) {
    // 2a, 2b: exactly the closed orders have a ledger row, one each.
    && (forall id | id in t.files :: t.files[id].order.status == Closed <==> Billed(t.ledger, id))
    && (forall j, k :: 0 <= j < k < |t.ledger| ==> t.ledger[j].order != t.ledger[k].order)
    // 2c, 2d: the accrual is the order's lines at their snapshotted rates, and payable is what the
    // discount leaves of it.
    && (forall k :: 0 <= k < |t.ledger| ==>
          && t.ledger[k].order in t.files
          && t.ledger[k].accrued == ChargesBySQL(t.files[t.ledger[k].order].items)
          && t.ledger[k].payable == t.ledger[k].accrued - t.ledger[k].discount)
    // 3: stock bounds.
    && (forall key | key in t.offers :: 0.0 <= t.offers[key].reserved <= t.offers[key].declared)
    // 4a, 4b: a closed order has one paid payment, and no order has two live ones.
    && (forall id | id in t.files ::
          && CountStatus(t.files[id].payments, {Undecided, PaidUp}) <= 1
          && (t.files[id].order.status == Closed ==> CountStatus(t.files[id].payments, {PaidUp}) == 1))
    // 5: pass-through states never rest.
    && (forall id | id in t.files :: t.files[id].order.status !in {Accepted, Delivered, PickedUpByBuyer})
  }

  lemma RunMeetsCapacityInvariants(products: Products, tariffs: map<(Id, Id), nat>, steps: seq<Step>)
    ensures CapacityInvariants(Run(Empty(products, tariffs), steps).t)
  {
    RunKeepsInv(products, tariffs, steps);
    InvMeansCapacity(Run(Empty(products, tariffs), steps));
  }

  lemma InvMeansCapacity(w: World)
    requires Inv(w)
    ensures CapacityInvariants(w.t)
  {
    hide FileOk, StoreLines, RateForLines, TokensOk, ReceiptsOk, SagaOk, CountStatus;
    forall id | id in w.t.files
      ensures CountStatus(w.t.files[id].payments, {Undecided, PaidUp}) <= 1
      ensures w.t.files[id].order.status == Closed ==> CountStatus(w.t.files[id].payments, {PaidUp}) == 1
    {
      assert FileOk(w.t.files[id]);
      FileBilling(w.t.files[id]);
      PaymentCounts(w.t.files[id]);
    }
    forall k | 0 <= k < |w.t.ledger|
      ensures w.t.ledger[k].order in w.t.files && w.t.ledger[k].accrued == ChargesBySQL(w.t.files[w.t.ledger[k].order].items)
    {
      FilePriced(w.t.files[w.t.ledger[k].order]);
      ChargesAgree(w.t.files[w.t.ledger[k].order].items);
    }
    forall id | id in w.t.files && w.t.files[id].order.status != Closed ensures !Billed(w.t.ledger, id) {
      OpenNotBilled(w.t, id);
    }
  }

  lemma FileBilling(f: OrderFile)
    requires FileOk(f)
    ensures BillingFits(f) && TrailFits(f.audit, f.order.status) && EventsFit(f) && OverdueFits(f)
  {
  }

  /** In every reachable state, each order: its status fixes its billing rows, its audit rows spell a
      legal path to that status, and its status events are the ones that path calls for. */
  lemma RunKeepsEachOrder(products: Products, tariffs: map<(Id, Id), nat>, steps: seq<Step>, id: Id)
    requires id in Run(Empty(products, tariffs), steps).t.files
    ensures var f := Run(Empty(products, tariffs), steps).t.files[id];
            && BillingFits(f) && TrailFits(f.audit, f.order.status) && EventsFit(f)
            && f.order.status !in {Accepted, Delivered, PickedUpByBuyer, Declined}
  {
    RunKeepsInv(products, tariffs, steps);
    FileBilling(Run(Empty(products, tariffs), steps).t.files[id]);
    hide FileOk, BillingFits, TrailFits, EventsFit, OverdueFits, Run;
  }

  /** With a crash possible between the saga's two transactions, a refund is overdue only if its
      order is, and the overdue event is written at most once, exactly once if the row is overdue. */
  lemma RunKeepsRefundSaga(products: Products, tariffs: map<(Id, Id), nat>, steps: seq<Step>, id: Id)
    requires id in Run(Empty(products, tariffs), steps).t.files
    ensures var f := Run(Empty(products, tariffs), steps).t.files[id];
            && |f.refunds| <= 1 && OverdueEvents(f.events) <= 1
            && (forall r | r in f.refunds ::
                  && (r.status == Overdue ==> f.order.status == Status.RefundOverdue && OverdueEvents(f.events) == 1)
                  && (r.status in {Requested, EvidenceUploaded} ==> OverdueEvents(f.events) == 0)
                  && (r.status == RefundConfirmed <==> f.order.status == Refunded))
  {
    RunKeepsInv(products, tariffs, steps);
    var f := Run(Empty(products, tariffs), steps).t.files[id];
    hide Run, Billed, Allowance, StoreLines;
    FileBilling(f);
    RefundRows(f);
    hide FileOk, BillingFits, TrailFits, EventsFit, OverdueFits, LedgerOk, Inv;
  }

  lemma RefundRows(f: OrderFile)
    requires BillingFits(f) && OverdueFits(f)
    ensures |f.refunds| <= 1 && OverdueEvents(f.events) <= 1
    ensures forall r | r in f.refunds ::
              && (r.status == Overdue ==> f.order.status == Status.RefundOverdue && OverdueEvents(f.events) == 1)
              && (r.status in {Requested, EvidenceUploaded} ==> OverdueEvents(f.events) == 0)
              && (r.status == RefundConfirmed <==> f.order.status == Refunded)
  {
    hide Invoiced, AllFailed, Decisive, OverdueEvents;
    if f.refunds != [] {
      assert f.refunds[0] in f.refunds;
      assert forall r :: r in f.refunds ==> r == f.refunds[0];
    }
  }

  // ---- retries ----

  /** The key a step presents, for steps that claim a receipt. */
  function KeyOf(step: Step): Option<Key> {
    match step
    case PublishOffer(key, _, _, _) => Some(Client(key))
    case ReviseOffer(key, _, _, _, _) => Some(Client(key))
    case PlaceOrder(key, _, _) => Some(Client(key))
    case Act(key, _, _, _) => Some(Client(key))
    case SpendToken(key, _, _, _) => Some(Client(key))
    case SweepUnconfirmed(id, dueAt, _) => Some(ExpiryKey(id, dueAt))
    case SweepUnpaid(id, dueAt, _) => Some(PaymentExpiryKey(id, dueAt))
    case SweepEscalation(id, dueAt) => Some(EscalationKey(id, dueAt))
    case UploadEvidence(key, _, _) => Some(Client(key))
    case ListDueRefund(_) => None
    case LapseOrder(id, dueAt, _) => Some(OrderOverdueKey(id, dueAt))
    case LapseRefundRow(id, dueAt) => Some(RefundOverdueKey(id, dueAt))
  }

  predicate Extends(t: Tables, t': Tables) {
    && (forall key | key in t.receipts :: key in t'.receipts && t'.receipts[key] == t.receipts[key])
    && t.files.Keys <= t'.files.Keys
  }

  lemma TransitionExtends(t: Tables, id: Id, trigger: Trigger, cmd: Command)
    requires id in t.files && RunTransition(t, id, trigger, cmd).Success?
    ensures RunTransition(t, id, trigger, cmd).value.receipts == t.receipts
    ensures RunTransition(t, id, trigger, cmd).value.files.Keys == t.files.Keys
  {
    hide Move, Accrue, AdjustStock, TransitionFor;
  }

  lemma OutcomeExtends(w: World, step: Step)
    requires Outcome(w, step).Success?
    ensures Extends(w.t, Outcome(w, step).value)
  {
    hide RunTransition, ReserveOrderLines, NewFile;
    match step
    case Act(key, id, trigger, cmd) => ApplyExtends(w.t, Client(key), id, trigger, cmd);
    case SweepUnconfirmed(id, dueAt, cmd) => ApplyExtends(w.t, ExpiryKey(id, dueAt), id, Trigger.Expire, cmd);
    case SweepUnpaid(id, dueAt, cmd) => ApplyExtends(w.t, PaymentExpiryKey(id, dueAt), id, PaymentExpire, cmd);
    case LapseOrder(id, dueAt, cmd) => ApplyExtends(w.t, OrderOverdueKey(id, dueAt), id, LapseRefund, cmd);
    case SpendToken(key, id, token, cmd) =>
      if Client(key) !in w.t.receipts {
        TransitionExtends(w.t.(receipts := w.t.receipts[Client(key) := OrderRes(id)],
                               tokens := w.t.tokens[token := w.t.tokens[token].(usedAt := Some(cmd.at))]), id, TokenConfirm, cmd);
      }
    case _ =>
  }

  lemma ApplyExtends(t: Tables, key: Key, id: Id, trigger: Trigger, cmd: Command)
    requires Apply(t, key, id, trigger, cmd).Success?
    ensures Extends(t, Apply(t, key, id, trigger, cmd).value)
    ensures key in Apply(t, key, id, trigger, cmd).value.receipts
         && Apply(t, key, id, trigger, cmd).value.receipts[key] == OrderRes(id)
  {
    hide RunTransition;
    if key !in t.receipts {
      TransitionExtends(t.(receipts := t.receipts[key := OrderRes(id)]), id, trigger, cmd);
    }
  }

  lemma {:induction false} RunExtends(w: World, steps: seq<Step>)
    ensures Extends(w.t, Run(w, steps).t)
  {
    hide Outcome;
    if steps != [] {
      var before := Run(w, steps[..|steps| - 1]);
      RunExtends(w, steps[..|steps| - 1]);
      if Outcome(before, steps[|steps| - 1]).Success? { OutcomeExtends(before, steps[|steps| - 1]); }
    }
  }

  /** While its receipt is kept, an operation that committed is never carried out again: after any
      further steps, presenting it once more succeeds and changes nothing, and a retried placement, which
      draws a new id each time, answers with the order the first attempt created. */
  lemma RetryHasNoEffect(w: World, step: Step, later: seq<Step>)
    requires Enabled(w, step) && Outcome(w, step).Success?
    requires KeyOf(step).Some? && KeyOf(step).value in Outcome(w, step).value.receipts
    ensures var w' := Run(Next(w, step), later);
            && Outcome(w', step) == Success(w'.t)
            && (step.PlaceOrder? ==>
                  forall newId, place ::
                    Place(w'.t, Client(step.key), newId, place)
                    == Success((w'.t, Place(w.t, Client(step.key), step.newId, step.place).value.1)))
  {
    var t1 := Outcome(w, step).value;
    var w' := Run(Next(w, step), later);
    RunExtends(Next(w, step), later);
    assert Extends(t1, w'.t);
    hide Run, Extends, Apply, ConfirmToken, Place;
    match step
    case Act(key, id, trigger, cmd) => ApplyReplays(w.t, w'.t, Client(key), id, trigger, cmd);
    case SweepUnconfirmed(id, dueAt, cmd) => ApplyReplays(w.t, w'.t, ExpiryKey(id, dueAt), id, Trigger.Expire, cmd);
    case SweepUnpaid(id, dueAt, cmd) => ApplyReplays(w.t, w'.t, PaymentExpiryKey(id, dueAt), id, PaymentExpire, cmd);
    case LapseOrder(id, dueAt, cmd) => ApplyReplays(w.t, w'.t, OrderOverdueKey(id, dueAt), id, LapseRefund, cmd);
    case SpendToken(key, id, token, cmd) => SpendReplays(w.t, w'.t, Client(key), id, token, cmd);
    case PlaceOrder(key, newId, place) => PlaceReplays(w.t, w'.t, Client(key), newId, place);
    case _ => OtherReplays(w, w', step);
  }

  lemma OtherReplays(w: World, w': World, step: Step)
    requires step.PublishOffer? || step.ReviseOffer? || step.SweepEscalation? || step.UploadEvidence? || step.LapseRefundRow?
    requires Outcome(w, step).Success? && Extends(Outcome(w, step).value, w'.t)
    requires KeyOf(step).value in Outcome(w, step).value.receipts
    ensures Outcome(w', step) == Success(w'.t)
  {
    hide Apply, ConfirmToken, Place, HasLapsable, LapseRefunds;
  }

  lemma SpendReplays(t: Tables, t': Tables, key: Key, id: Id, token: string, cmd: Command)
    requires ConfirmToken(t, key, id, token, cmd).Success? && Extends(ConfirmToken(t, key, id, token, cmd).value, t')
    ensures ConfirmToken(t', key, id, token, cmd) == Success(t')
  {
    if key !in t.receipts {
      TransitionExtends(t.(receipts := t.receipts[key := OrderRes(id)],
                           tokens := t.tokens[token := t.tokens[token].(usedAt := Some(cmd.at))]), id, TokenConfirm, cmd);
    }
    hide RunTransition;
  }

  lemma PlaceReplays(t: Tables, t': Tables, key: Key, id: Id, cmd: PlaceCommand)
    requires Place(t, key, id, cmd).Success? && Extends(Place(t, key, id, cmd).value.0, t')
    ensures forall newId, place :: Place(t', key, newId, place) == Success((t', Place(t, key, id, cmd).value.1))
  {
    hide ReserveOrderLines, NewFile, Storable, DistinctProducts;
  }

  lemma ApplyReplays(t: Tables, t': Tables, key: Key, id: Id, trigger: Trigger, cmd: Command)
    requires Apply(t, key, id, trigger, cmd).Success? && Extends(Apply(t, key, id, trigger, cmd).value, t')
    ensures Apply(t', key, id, trigger, cmd) == Success(t')
  {
    ApplyExtends(t, key, id, trigger, cmd);
    hide RunTransition;
  }

  /** The order or offer a step's key is spent on. */
  function SpentOn(step: Step): Option<Resource> {
    match step
    case PublishOffer(_, offer, _, _) => Some(OfferRes(offer))
    case ReviseOffer(_, offer, _, _, _) => Some(OfferRes(offer))
    case PlaceOrder(_, newId, _) => Some(OrderRes(newId))
    case ListDueRefund(_) => None
    case _ => Some(OrderRes(step.id))
  }

  /** The actions that check a key they find against their own resource; the two creations instead
      answer with what the key created. */
  predicate Guarded(step: Step) { step.Act? || step.SpendToken? || step.UploadEvidence? || step.ReviseOffer? }

  /** A committed step leaves its key bound to its resource, unless it is a creation answered from the receipt. */
  lemma KeyBinds(w: World, step: Step)
    requires Outcome(w, step).Success? && KeyOf(step).Some? && KeyOf(step).value in Outcome(w, step).value.receipts
    requires KeyOf(step).value !in w.t.receipts || Guarded(step)
    ensures UsableKey(KeyOf(step).value) && SpentOn(step) == Some(Outcome(w, step).value.receipts[KeyOf(step).value])
  {
    hide RunTransition, ReserveOrderLines, NewFile;
    match step
    case Act(key, id, trigger, cmd) => ApplyBinds(w.t, Client(key), id, trigger, cmd);
    case SweepUnconfirmed(id, dueAt, cmd) => ApplyBinds(w.t, ExpiryKey(id, dueAt), id, Trigger.Expire, cmd);
    case SweepUnpaid(id, dueAt, cmd) => ApplyBinds(w.t, PaymentExpiryKey(id, dueAt), id, PaymentExpire, cmd);
    case LapseOrder(id, dueAt, cmd) => ApplyBinds(w.t, OrderOverdueKey(id, dueAt), id, LapseRefund, cmd);
    case SpendToken(key, id, token, cmd) =>
      if Client(key) !in w.t.receipts {
        TransitionExtends(w.t.(receipts := w.t.receipts[Client(key) := OrderRes(id)],
                               tokens := w.t.tokens[token := w.t.tokens[token].(usedAt := Some(cmd.at))]), id, TokenConfirm, cmd);
      }
    case _ => hide Apply, ConfirmToken;
  }

  lemma ApplyBinds(t: Tables, key: Key, id: Id, trigger: Trigger, cmd: Command)
    requires Apply(t, key, id, trigger, cmd).Success?
    ensures UsableKey(key) && key in Apply(t, key, id, trigger, cmd).value.receipts
    ensures Apply(t, key, id, trigger, cmd).value.receipts[key] == OrderRes(id)
  {
    if key !in t.receipts && id in t.files {
      TransitionExtends(t.(receipts := t.receipts[key := OrderRes(id)]), id, trigger, cmd);
    }
    hide RunTransition;
  }

  /** A key spent on one order or offer, by whatever step, is refused to every transition, token spend,
      evidence upload and offer revision on any other, after any further steps; the refusal changes
      nothing. */
  lemma KeyStaysBound(w: World, step: Step, later: seq<Step>, again: Step)
    requires Enabled(w, step) && Outcome(w, step).Success?
    requires KeyOf(step).Some? && KeyOf(step).value in Outcome(w, step).value.receipts
    requires KeyOf(step).value !in w.t.receipts || Guarded(step)
    requires Guarded(again) && KeyOf(again) == KeyOf(step) && SpentOn(again) != SpentOn(step)
    ensures var w' := Run(Next(w, step), later);
            Outcome(w', again) == Failure(Conflict) && Next(w', again) == w'
  {
    var w' := Run(Next(w, step), later);
    KeyBinds(w, step);
    RunExtends(Next(w, step), later);
    assert Extends(Outcome(w, step).value, w'.t);
    hide Run, RunTransition;
    BoundRefuses(w', again);
  }

  lemma BoundRefuses(w: World, again: Step)
    requires Guarded(again) && UsableKey(KeyOf(again).value) && KeyOf(again).value in w.t.receipts
    requires SpentOn(again) != Some(w.t.receipts[KeyOf(again).value])
    ensures Outcome(w, again) == Failure(Conflict) && Next(w, again) == w
  {
    hide RunTransition;
    assert World(w.t, w.listed, w.cleared) == w;
  }

  // ---- the double release is reachable ----

  const SHELF: OfferKey := (0, 0)

  function Buy(token: string): PlaceCommand {
    PlaceCommand(0, [Wanted(0, 4.0)], false, 0, token, 0, Open(0))
  }

  /** One offer of ten units, two orders of four, and the first order declined. */
  function DeclinedBeside(products: Products, tariffs: map<(Id, Id), nat>): World {
    var w1 := Next(Empty(products, tariffs), PublishOffer("offer", SHELF, 1, 10.0));
    var w2 := Next(w1, PlaceOrder("first", 1, Buy("a")));
    var w3 := Next(w2, PlaceOrder("second", 2, Buy("b")));
    Next(w3, Act("decline", 1, SupplierDecline, Command(0, "", Unresolved)))
  }

  /** A store selling the product at any valid category rate. */
  predicate Sells(products: Products) {
    0 in products && products[0].active && 0 <= products[0].bps <= 10_000
  }

  lemma BuyReserves(t: Tables, offer: Offer)
    requires SHELF in t.offers && t.offers[SHELF] == offer && Sells(t.products)
    requires offer.status == Published && offer.price == 1 && offer.declared - offer.reserved >= 4.0
    ensures ReserveOrderLines(t, Buy("a")).Success? && ReserveOrderLines(t, Buy("b")) == ReserveOrderLines(t, Buy("a"))
    ensures var quote := ReserveOrderLines(t, Buy("a")).value;
            && quote.lines == [Line(0, 4.0, 1, 4, t.products[0].bps)] && quote.goods == 4 && quote.fee == 0
            && quote.offers == t.offers[SHELF := offer.(reserved := offer.reserved + 4.0)]
  {
    var w := Wanted(0, 4.0);
    var line := Line(0, 4.0, 1, 4, t.products[0].bps);
    assert [w][..0] == [];
    assert SortByProduct([w]) == [w];
    assert Multiply(4.0, 1) == Success(4);
    assert ReserveLine(t.offers, t.products, 0, w) == Success((t.offers[SHELF := offer.(reserved := offer.reserved + 4.0)], line));
    assert ReserveLines(t.offers, t.products, 0, []) == Success((t.offers, []));
    assert [] + [line] == [line] && [line][..0] == [];
    assert ReserveLines(t.offers, t.products, 0, [w]).value == (t.offers[SHELF := offer.(reserved := offer.reserved + 4.0)], [line]);
    assert Goods([line]) == 4;
  }

  lemma BuyPlaces(t: Tables, key: Key, id: Id, token: string)
    requires UsableKey(key) && key !in t.receipts && id !in t.files && token !in t.tokens
    requires ReserveOrderLines(t, Buy(token)).Success?
    requires var quote := ReserveOrderLines(t, Buy(token)).value;
             quote.goods >= 0 && |quote.lines| == 1 && Storable(quote.lines[0])
    ensures var quote := ReserveOrderLines(t, Buy(token)).value;
            var receipts, files := t.receipts[key := OrderRes(id)], t.files[id := NewFile(Buy(token), quote)];
            var tokens := t.tokens[token := Token(id, quote.deadline, None)];
            Place(t, key, id, Buy(token))
            == Success((t.(receipts := receipts, offers := quote.offers, files := files, tokens := tokens), id))
  {
    hide ReserveOrderLines;
    assert DistinctProducts(ReserveOrderLines(t, Buy(token)).value.lines);
  }

  lemma BuyCommits(w: World, key: string, id: Id, token: string, offer: Offer)
    requires token in {"a", "b"} && key != "" && Client(key) !in w.t.receipts && id !in w.t.files && token !in w.t.tokens
    requires SHELF in w.t.offers && w.t.offers[SHELF] == offer && Sells(w.t.products)
    requires offer.status == Published && offer.price == 1 && offer.declared - offer.reserved >= 4.0
    ensures var t' := Next(w, PlaceOrder(key, id, Buy(token))).t;
            && t'.offers == w.t.offers[SHELF := offer.(reserved := offer.reserved + 4.0)]
            && t'.files.Keys == w.t.files.Keys + {id} && (forall other | other in w.t.files :: t'.files[other] == w.t.files[other])
            && t'.files[id].order.status == Created && t'.files[id].order.store == 0
            && t'.files[id].items == [Line(0, 4.0, 1, 4, w.t.products[0].bps)]
            && t'.tokens.Keys == w.t.tokens.Keys + {token} && t'.products == w.t.products
            && t'.receipts.Keys == w.t.receipts.Keys + {Client(key)}
  {
    BuyReserves(w.t, offer);
    BuyPlaces(w.t, Client(key), id, token);
    hide ReserveOrderLines, Place;
  }

  /** The shop after both orders are placed. */
  ghost predicate BothPlaced(w: World) {
    && Inv(w) && Conserved(w.t)
    && w.t.receipts.Keys == {Client("offer"), Client("first"), Client("second")}
    && 1 in w.t.files && w.t.files[1].order.status == Created && w.t.files[1].order.store == 0
    && |w.t.files[1].items| == 1 && w.t.files[1].items[0].product == 0 && w.t.files[1].items[0].qty == 4.0
    && SHELF in w.t.offers && w.t.offers[SHELF].reserved == 8.0
  }

  lemma PublishSets(products: Products, tariffs: map<(Id, Id), nat>)
    ensures var w1 := Next(Empty(products, tariffs), PublishOffer("offer", SHELF, 1, 10.0));
            && Inv(w1) && Conserved(w1.t) && w1.t.files == map[] && w1.t.tokens == map[] && w1.t.products == products
            && w1.t.offers == map[SHELF := Offer(1, 10.0, 0.0, Published)] && w1.t.receipts.Keys == {Client("offer")}
  {
    EmptyInv(products, tariffs);
    EmptyConserved(products, tariffs);
    hide Inv, Conserved;
    StepKeepsBoth(Empty(products, tariffs), PublishOffer("offer", SHELF, 1, 10.0));
  }

  lemma PlaceBoth(products: Products, tariffs: map<(Id, Id), nat>)
    requires Sells(products)
    ensures var w1 := Next(Empty(products, tariffs), PublishOffer("offer", SHELF, 1, 10.0));
            BothPlaced(Next(Next(w1, PlaceOrder("first", 1, Buy("a"))), PlaceOrder("second", 2, Buy("b"))))
  {
    hide Inv, Conserved, Next, Buy;
    var w1 := Next(Empty(products, tariffs), PublishOffer("offer", SHELF, 1, 10.0));
    var first, second := PlaceOrder("first", 1, Buy("a")), PlaceOrder("second", 2, Buy("b"));
    PublishSets(products, tariffs);
    BuyCommits(w1, "first", 1, "a", Offer(1, 10.0, 0.0, Published));
    StepKeepsBoth(w1, first);
    var w2 := Next(w1, first);
    BuyCommits(w2, "second", 2, "b", Offer(1, 10.0, 4.0, Published));
    StepKeepsBoth(w2, second);
  }

  lemma EmptyInv(products: Products, tariffs: map<(Id, Id), nat>)
    ensures Inv(Empty(products, tariffs))
  {
  }

  lemma StepKeepsBoth(w: World, step: Step)
    requires Inv(w) && Conserved(w.t) && !DoubleRelease(w, step)
    ensures Inv(Next(w, step)) && Conserved(Next(w, step).t)
  {
    hide Inv, Conserved, DoubleRelease, Next;
    NextKeepsInv(w, step);
    NextConservesIff(w, step);
  }

  lemma DeclineReleases(w: World, cmd: Command)
    requires BothPlaced(w) && cmd == Command(0, "", Unresolved)
    ensures var t' := Next(w, Act("decline", 1, SupplierDecline, cmd)).t;
            && t'.receipts.Keys == w.t.receipts.Keys + {Client("decline")}
            && 1 in t'.files && t'.files[1].order.status == BuyerDecisionPending
            && t'.files[1].items == w.t.files[1].items && t'.files[1].order.store == 0
            && t'.offers == AdjustLines(Release, w.t.offers, 0, w.t.files[1].items)
  {
    hide Inv, MoveAll, FileOk, Conserved, AdjustLines, Apply;
    assert FileOk(w.t.files[1]) && Rests(Created) by { InvFile(w, 1); }
    MoveAllAccepts(w.t.files[1], SupplierDecline, cmd);
    ApplyCommitsIff(w, Client("decline"), 1, SupplierDecline, cmd);
  }

  lemma InvFile(w: World, id: Id)
    requires Inv(w) && id in w.t.files
    ensures FileOk(w.t.files[id])
  {
  }

  lemma ReleaseOne(offers: Offers, items: seq<Line>)
    requires |items| == 1 && items[0].product == 0 && items[0].qty == 4.0
    requires SHELF in offers && offers[SHELF].reserved == 8.0
    ensures Fits(AdjustLines(Release, offers, 0, items), 0, items[0])
  {
    assert items[..0] == [];
    assert AdjustLines(Release, offers, 0, []) == offers;
    assert AdjustLines(Release, offers, 0, items) == AdjustLine(Release, offers, 0, items[0]);
  }

  /** Cancelling the declined order then takes the other order's four units off the offer: from this
      reachable state conservation fails. */
  lemma DoubleReleaseIsReachable(products: Products, tariffs: map<(Id, Id), nat>)
    requires Sells(products)
    ensures var w := DeclinedBeside(products, tariffs);
            var cancel := Act("cancel", 1, BuyerCancel, Command(0, "", Unresolved));
            Inv(w) && Conserved(w.t) && DoubleRelease(w, cancel) && !Conserved(Next(w, cancel).t)
  {
    hide Inv, Conserved, Next, AdjustLines, Fits;
    PlaceBoth(products, tariffs);
    var w1 := Next(Empty(products, tariffs), PublishOffer("offer", SHELF, 1, 10.0));
    var w3 := Next(Next(w1, PlaceOrder("first", 1, Buy("a"))), PlaceOrder("second", 2, Buy("b")));
    var cmd := Command(0, "", Unresolved);
    DeclineReleases(w3, cmd);
    StepKeepsBoth(w3, Act("decline", 1, SupplierDecline, cmd));
    var items := w3.t.files[1].items;
    ReleaseOne(w3.t.offers, items);
    assert items[0] in items;
    NextConservesIff(DeclinedBeside(products, tariffs), Act("cancel", 1, BuyerCancel, cmd));
  }
}
