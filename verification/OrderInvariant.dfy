/** Every step keeps the invariant, so every run does. */
module OrderInvariant {
  import opened Base
  import opened OrderStatus
  import opened Catalog
  import opened Commission
  import opened OrderFile
  import opened OrderStore
  import opened OrderRuns
  import opened OrderSafety

  predicate TokenStays(t: Tables, t': Tables, id: Id, token: string) {
    && token in t.tokens && token in t'.tokens && t'.tokens[token].order == t.tokens[token].order
    && (t'.tokens[token].usedAt.Some? ==>
          t.tokens[token].usedAt.Some? || (t.tokens[token].order == id && id in t'.files && t'.files[id].order.status != Created))
  }

  predicate ReceiptStays(t: Tables, t': Tables, id: Id, key: Key) {
    key in t'.receipts && !key.Client? ==>
      || (key in t.receipts && t'.receipts[key] == t.receipts[key])
      || (t'.receipts[key] == OrderRes(key.order) && key.order == id && KeySettled(t', key))
  }

  /** A change confined to one order's rows, the stock and the ledger keeps the invariant. */
  lemma KeptKeepsInv(w: World, t': Tables, id: Id)
    requires Inv(w) && KeptBy(w.t, t', id)
    requires forall token | token in t'.tokens :: TokenStays(w.t, t', id, token)
    requires forall key | key in t'.receipts :: ReceiptStays(w.t, t', id, key)
    ensures Inv(World(t', w.listed, w.cleared))
  {
    hide FileOk, StoreLines, LedgerOk, StockBounds, KeySettled;
    forall key | key in t'.receipts && !key.Client?
      ensures t'.receipts[key] == OrderRes(key.order) && KeySettled(t', key)
    {
      assert ReceiptStays(w.t, t', id, key);
      if key in w.t.receipts && t'.receipts[key] == w.t.receipts[key] { SettledStays(w.t, t', id, key); }
    }
    forall token | token in t'.tokens
      ensures t'.tokens[token].order in t'.files
      ensures t'.tokens[token].usedAt.Some? ==> t'.files[t'.tokens[token].order].order.status != Created
    {
      assert TokenStays(w.t, t', id, token);
    }
    forall other | other in w.cleared ensures Lapsed(t', other) {
      assert Lapsed(w.t, other);
    }
  }

  /** Whether an operation key is presented for the first time. */
  predicate Fresh(t: Tables, key: Key) { UsableKey(key) && key !in t.receipts }

  /** In every reachable state a first attempt commits exactly when the order exists and accepts the
      trigger: no stock, billing or ledger statement refuses on its own account. */
  lemma ApplyCommitsIff(w: World, key: Key, id: Id, trigger: Trigger, cmd: Command)
    requires Inv(w) && Fresh(w.t, key)
    ensures Apply(w.t, key, id, trigger, cmd).Success? <==> id in w.t.files && Accepts(w.t.files[id], trigger, cmd)
    ensures id in w.t.files && Accepts(w.t.files[id], trigger, cmd) ==>
              MoveAll(w.t.files[id], trigger, cmd).Success?
              && Apply(w.t, key, id, trigger, cmd).value
                 == Moved(w.t.(receipts := w.t.receipts[key := OrderRes(id)]), id, trigger, cmd)
  {
    hide FileOk, StoreLines, RunTransition, Accepts, MoveAll, StockBounds, TokensOk, ReceiptsOk, SagaOk, RowFits, Allowance;
    if id in w.t.files {
      var t0 := w.t.(receipts := w.t.receipts[key := OrderRes(id)]);
      TransitionCommitsIff(t0, id, trigger, cmd);
    }
  }

  /** A key names the trigger it is used for, and its order. */
  predicate KeyFits(key: Key, id: Id, trigger: Trigger) {
    match key
    case Client(_) => true
    case EscalationKey(_, _) => false
    case ExpiryKey(order, _) => order == id && trigger == Trigger.Expire
    case PaymentExpiryKey(order, _) => order == id && trigger == PaymentExpire
    case OrderOverdueKey(order, _) => order == id && trigger == LapseRefund
    case RefundOverdueKey(_, _) => false
  }

  lemma ApplyKeepsInv(w: World, key: Key, id: Id, trigger: Trigger, cmd: Command)
    requires Inv(w) && Apply(w.t, key, id, trigger, cmd).Success? && KeyFits(key, id, trigger)
    ensures var t' := Apply(w.t, key, id, trigger, cmd).value;
            && Inv(World(t', w.listed, w.cleared)) && KeySettled(t', key)
            && (t' == w.t || KeptBy(w.t, t', id))
  {
    hide Apply, Moved, FileOk, StoreLines, Accepts, MoveAll, StockBounds, LedgerOk, TokensOk, SagaOk;
    if key !in w.t.receipts {
      ApplyUsesKey(w.t, key, id, trigger, cmd);
      var t0 := w.t.(receipts := w.t.receipts[key := OrderRes(id)]);
      LedgerReads(w.t, t0);
      ApplyCommitsIff(w, key, id, trigger, cmd);
      MovedKeepsTables(t0, id, trigger, cmd);
      MovedFrame(t0, id, trigger, cmd);
      var t' := Moved(t0, id, trigger, cmd);
      hide FilesOk;
      assert KeptBy(w.t, t', id);
      KeptKeepsInv(w, t', id);
    } else {
      ReplayChangesNothing(w.t, key, id, trigger, cmd);
      assert World(w.t, w.listed, w.cleared) == w;
    }
  }

  lemma ApplyUsesKey(t: Tables, key: Key, id: Id, trigger: Trigger, cmd: Command)
    requires Apply(t, key, id, trigger, cmd).Success?
    ensures UsableKey(key)
  {
  }

  lemma ReplayChangesNothing(t: Tables, key: Key, id: Id, trigger: Trigger, cmd: Command)
    requires key in t.receipts && Apply(t, key, id, trigger, cmd).Success?
    ensures Apply(t, key, id, trigger, cmd).value == t && t.receipts[key] == OrderRes(id)
  {
    hide RunTransition;
  }

  lemma MovedFrame(t: Tables, id: Id, trigger: Trigger, cmd: Command)
    requires id in t.files && MoveAll(t.files[id], trigger, cmd).Success?
    ensures Moved(t, id, trigger, cmd).receipts == t.receipts && Moved(t, id, trigger, cmd).tokens == t.tokens
  {
    hide MoveAll, AdjustStock;
  }

  lemma SpendKeepsInv(w: World, key: Key, id: Id, token: string, cmd: Command)
    requires Inv(w) && key.Client? && ConfirmToken(w.t, key, id, token, cmd).Success?
    ensures Inv(World(ConfirmToken(w.t, key, id, token, cmd).value, w.listed, w.cleared))
  {
    hide FileOk, StoreLines, RunTransition, Accepts, MoveAll, StockBounds;
    if key !in w.t.receipts {
      var t0 := w.t.(receipts := w.t.receipts[key := OrderRes(id)],
                     tokens := w.t.tokens[token := w.t.tokens[token].(usedAt := Some(cmd.at))]);
      TransitionCommitsIff(t0, id, TokenConfirm, cmd);
      MovedKeepsTables(t0, id, TokenConfirm, cmd);
      var t' := Moved(t0, id, TokenConfirm, cmd);
      assert KeptBy(w.t, t', id);
      KeptKeepsInv(w, t', id);
    } else {
      assert World(w.t, w.listed, w.cleared) == w;
    }
  }

  /** Changing rows of one order without changing its status or items. */
  lemma RowChangeIsKept(t: Tables, t': Tables, id: Id)
    requires FilesOk(t) && LedgerOk(t) && StockBounds(t.offers) && id in t.files && id in t'.files
    requires t'.files == t.files[id := t'.files[id]] && t'.offers == t.offers && t'.ledger == t.ledger
    requires FileOk(t'.files[id]) && t'.files[id].order == t.files[id].order && t'.files[id].items == t.files[id].items
    requires t.files[id].refunds != [] ==> t'.files[id].refunds != []
    requires Flipped(t, id) ==> Flipped(t', id)
    ensures KeptBy(t, t', id)
  {
    hide HasLapsable, FileOk, StoreLines, StockBounds, Allowance, RateForLines, Charges;
    forall k | 0 <= k < |t.ledger|
      ensures t.ledger[k].order in t'.files && RowFits(t.ledger[k], t'.files[t.ledger[k].order])
    {
      assert RowFits(t.ledger[k], t.files[t.ledger[k].order]);
    }
  }

  lemma EscalatedFileOk(f: OrderFile, dueAt: Time)
    requires FileOk(f)
    ensures FileOk(f.(events := f.events + [Escalated(dueAt)]))
  {
    EventsAppend(f.events, Escalated(dueAt));
    hide TrailFits, Announced, StatusEvents, OverdueEvents, GoodLines, DistinctProducts;
  }

  lemma EvidenceFileOk(f: OrderFile)
    requires FileOk(f) && f.refunds != [] && f.refunds[|f.refunds| - 1].status == Requested
    ensures FileOk(f.(refunds := f.refunds[|f.refunds| - 1 := f.refunds[|f.refunds| - 1].(status := EvidenceUploaded)]))
  {
    hide TrailFits, Announced, StatusEvents, OverdueEvents, GoodLines, DistinctProducts;
    assert |f.refunds| == 1 && f.refunds[0] in f.refunds;
    var g := f.(refunds := [f.refunds[0].(status := EvidenceUploaded)]);
    assert g.refunds == f.refunds[0 := f.refunds[0].(status := EvidenceUploaded)];
    assert forall r :: r in g.refunds ==> r == g.refunds[0];
    assert OverdueFits(g) && BillingFits(g);
  }

  /** The billing half of the refund saga, for an order whose own half is done. */
  lemma LapsedFileOk(f: OrderFile, dueAt: Time)
    requires FileOk(f) && HasLapsable(f.refunds) && f.order.status in {Status.RefundOverdue, Refunded}
    ensures FileOk(f.(refunds := LapseRefunds(f.refunds),
                      events := f.events + [RefundBecameOverdue(f.refunds[|f.refunds| - 1].amount, dueAt)]))
  {
    hide TrailFits, Announced, StatusEvents, OverdueEvents, GoodLines, DistinctProducts;
    EventsAppend(f.events, RefundBecameOverdue(f.refunds[|f.refunds| - 1].amount, dueAt));
    assert f.refunds[0] in f.refunds;
    assert |f.refunds| == 1;
    assert LapseRefunds(f.refunds)[0].status == Overdue;
  }

  lemma EscalateKeepsInv(w: World, id: Id, dueAt: Time)
    requires Inv(w) && Escalate(w.t, id, dueAt).Success?
    ensures Inv(World(Escalate(w.t, id, dueAt).value, w.listed, w.cleared))
  {
    hide FileOk, StoreLines, LedgerOk, StockBounds;
    if EscalationKey(id, dueAt) !in w.t.receipts {
      EscalatedFileOk(w.t.files[id], dueAt);
      var t' := Escalate(w.t, id, dueAt).value;
      RowChangeIsKept(w.t, t', id);
      KeptKeepsInv(w, t', id);
    } else {
      assert World(w.t, w.listed, w.cleared) == w;
    }
  }

  lemma EvidenceKeepsInv(w: World, key: Key, id: Id, amount: int)
    requires Inv(w) && key.Client? && SubmitEvidence(w.t, key, id, amount).Success?
    ensures Inv(World(SubmitEvidence(w.t, key, id, amount).value, w.listed, w.cleared))
  {
    hide FileOk, StoreLines, LedgerOk, StockBounds;
    if key !in w.t.receipts {
      EvidenceFileOk(w.t.files[id]);
      var t' := SubmitEvidence(w.t, key, id, amount).value;
      RowChangeIsKept(w.t, t', id);
      KeptKeepsInv(w, t', id);
    } else {
      assert World(w.t, w.listed, w.cleared) == w;
    }
  }

  lemma MarkKeepsInv(w: World, id: Id, dueAt: Time)
    requires Inv(w) && id in w.cleared && MarkOverdue(w.t, id, dueAt).Success?
    ensures var t' := MarkOverdue(w.t, id, dueAt).value;
            && Inv(World(t', w.listed, w.cleared)) && Flipped(t', id) && (t' == w.t || KeptBy(w.t, t', id))
  {
    hide FileOk, StoreLines, LedgerOk, StockBounds;
    var t' := MarkOverdue(w.t, id, dueAt).value;
    if t' != w.t {
      assert Lapsed(w.t, id);
      LapsedFileOk(w.t.files[id], dueAt);
      RowChangeIsKept(w.t, t', id);
      KeptKeepsInv(w, t', id);
    } else {
      LapsedHasRefund(w.t.files[id]);
      assert World(w.t, w.listed, w.cleared) == w;
    }
  }

  lemma LapsedHasRefund(f: OrderFile)
    requires FileOk(f) && f.order.status in {Status.RefundOverdue, Refunded}
    ensures f.refunds != []
  {
  }

  // ---- offers and placement ----

  lemma OffersKeepInv(w: World, t': Tables, key: Key, offer: OfferKey)
    requires Inv(w) && key.Client? && offer in t'.offers
    requires t' == w.t.(offers := t'.offers, receipts := w.t.receipts[key := OfferRes(offer)])
    requires t'.offers == w.t.offers[offer := t'.offers[offer]] && Stocked(t'.offers[offer])
    ensures Inv(World(t', w.listed, w.cleared))
  {
    hide FileOk;
    assert LedgerOk(t') by { LedgerReads(w.t, t'); }
    hide LedgerOk;
  }

  lemma LedgerReads(t: Tables, t': Tables)
    requires LedgerOk(t) && t'.files == t.files && t'.ledger == t.ledger
    ensures LedgerOk(t')
  {
    hide RowFits, Allowance;
  }

  lemma NewFileOk(cmd: PlaceCommand, quote: Quote)
    requires quote.lines != [] && GoodLines(quote.lines) && DistinctProducts(quote.lines)
    requires quote.goods == Goods(quote.lines) && quote.fee >= 0
    ensures FileOk(NewFile(cmd, quote))
  {
    var f := NewFile(cmd, quote);
    EventsAppend([], f.events[0]);
    assert [] + [f.events[0]] == f.events;
    assert Announced(f.audit) == [];
  }

  lemma PlaceReserves(t: Tables, cmd: PlaceCommand)
    requires StockBounds(t.offers) && ReserveOrderLines(t, cmd).Success?
    requires forall line | line in ReserveOrderLines(t, cmd).value.lines :: Storable(line)
    ensures var quote := ReserveOrderLines(t, cmd).value;
            && quote.lines != [] && GoodLines(quote.lines) && quote.goods == Goods(quote.lines) && quote.fee >= 0
            && StockBounds(quote.offers) && quote.offers.Keys == t.offers.Keys
            && StoreLines(quote.offers, cmd.store, quote.lines)
  {
    hide StockBounds, Goods, SortByProduct, ReserveLines;
    var wanted := SortByProduct(cmd.wanted);
    SortByProductSorts(cmd.wanted);
    assert |wanted| == |cmd.wanted| by { assert |multiset(wanted)| == |multiset(cmd.wanted)|; }
    QuoteListsWanted(t.offers, t.products, cmd.store, wanted);
    var quote := ReserveOrderLines(t, cmd).value;
    forall w | w in wanted ensures w.qty >= 0.0 {
      var k :| 0 <= k < |wanted| && wanted[k] == w;
      assert quote.lines[k] in quote.lines;
    }
    ReserveKeepsBounds(t.offers, t.products, cmd.store, wanted);
  }

  lemma PlaceKeepsInv(w: World, key: Key, newId: Id, cmd: PlaceCommand)
    requires Inv(w) && key.Client? && Place(w.t, key, newId, cmd).Success?
    ensures Inv(World(Place(w.t, key, newId, cmd).value.0, w.listed, w.cleared))
  {
    if key in w.t.receipts {
      assert World(w.t, w.listed, w.cleared) == w;
    } else {
      PlaceReserves(w.t, cmd);
      var quote := ReserveOrderLines(w.t, cmd).value;
      NewFileOk(cmd, quote);
      AdmitKeepsInv(w, key, newId, cmd, quote);
    }
  }

  /** Adding a well-formed new order and its reservations. */
  lemma AdmitKeepsInv(w: World, key: Key, newId: Id, cmd: PlaceCommand, quote: Quote)
    requires Inv(w) && newId !in w.t.files && cmd.token !in w.t.tokens && key.Client?
    requires FileOk(NewFile(cmd, quote)) && StockBounds(quote.offers) && quote.offers.Keys == w.t.offers.Keys
    requires StoreLines(quote.offers, cmd.store, quote.lines)
    ensures Inv(World(w.t.(receipts := w.t.receipts[key := OrderRes(newId)],
                           offers := quote.offers,
                           files := w.t.files[newId := NewFile(cmd, quote)],
                           tokens := w.t.tokens[cmd.token := Token(newId, quote.deadline, None)]),
                      w.listed, w.cleared))
  {
    hide FileOk, StockBounds;
    var t' := w.t.(receipts := w.t.receipts[key := OrderRes(newId)],
                   offers := quote.offers,
                   files := w.t.files[newId := NewFile(cmd, quote)],
                   tokens := w.t.tokens[cmd.token := Token(newId, quote.deadline, None)]);
    NewOrderKeepsLedger(w.t, t', newId);
    assert StoreLines(t'.offers, t'.files[newId].order.store, t'.files[newId].items);
    hide LedgerOk, StoreLines;
    NewOrderKeepsFiles(w.t, t', newId);
    hide FilesOk, NewFile;
    NewOrderKeepsRest(w, t', newId, key, cmd.token);
    hide ReceiptsOk, TokensOk, SagaOk;
  }

  lemma NewOrderKeepsRest(w: World, t': Tables, id: Id, key: Key, token: string)
    requires ReceiptsOk(w.t) && TokensOk(w.t) && SagaOk(w)
    requires id !in w.t.files && id in t'.files && key.Client? && token in t'.tokens
    requires t'.files == w.t.files[id := t'.files[id]] && t'.receipts == w.t.receipts[key := OrderRes(id)]
    requires t'.tokens == w.t.tokens[token := t'.tokens[token]]
    requires t'.tokens[token].order == id && t'.tokens[token].usedAt.None?
    ensures ReceiptsOk(t') && TokensOk(t') && SagaOk(World(t', w.listed, w.cleared))
  {
    forall k | k in t'.receipts && !k.Client?
      ensures t'.receipts[k] == OrderRes(k.order) && KeySettled(t', k)
    {
      assert KeySettled(w.t, k);
    }
    forall other | other in w.cleared ensures Lapsed(t', other) { assert Lapsed(w.t, other); }
  }

  lemma NewOrderKeepsFiles(t: Tables, t': Tables, id: Id)
    requires FilesOk(t) && id !in t.files && id in t'.files && t'.offers.Keys == t.offers.Keys
    requires t'.files == t.files[id := t'.files[id]] && FileOk(t'.files[id]) && Rests(t'.files[id].order.status)
    requires StoreLines(t'.offers, t'.files[id].order.store, t'.files[id].items)
    ensures FilesOk(t')
  {
    hide FileOk, Rests;
  }

  lemma NewOrderKeepsLedger(t: Tables, t': Tables, id: Id)
    requires LedgerOk(t) && id !in t.files && id in t'.files && t'.ledger == t.ledger
    requires t'.files == t.files[id := t'.files[id]] && t'.files[id].order.status != Closed
    ensures LedgerOk(t')
  {
    hide RowFits, Allowance;
  }

  // ---- the run theorem ----

  lemma NextKeepsInv(w: World, step: Step)
    requires Inv(w)
    ensures Inv(Next(w, step))
  {
    hide Inv, CreateOffer, UpdateOffer, Place, Apply, ConfirmToken, Escalate, SubmitEvidence, MarkOverdue, Lapsed;
    assert World(w.t, w.listed, w.cleared) == w;
    if Enabled(w, step) {
      if Outcome(w, step).Success? {
        match step
        case PublishOffer(key, offer, price, declared) => PublishKeepsInv(w, key, offer, price, declared);
        case ReviseOffer(key, offer, price, declared, status) => ReviseKeepsInv(w, key, offer, price, declared, status);
        case PlaceOrder(key, newId, place) => PlaceKeepsInv(w, Client(key), newId, place);
        case Act(key, id, trigger, cmd) => ApplyKeepsInv(w, Client(key), id, trigger, cmd);
        case SpendToken(key, id, token, cmd) => SpendKeepsInv(w, Client(key), id, token, cmd);
        case SweepUnconfirmed(id, dueAt, cmd) => ApplyKeepsInv(w, ExpiryKey(id, dueAt), id, Trigger.Expire, cmd);
        case SweepUnpaid(id, dueAt, cmd) => ApplyKeepsInv(w, PaymentExpiryKey(id, dueAt), id, PaymentExpire, cmd);
        case SweepEscalation(id, dueAt) => EscalateKeepsInv(w, id, dueAt);
        case UploadEvidence(key, id, amount) => EvidenceKeepsInv(w, Client(key), id, amount);
        case ListDueRefund(id) => ListKeepsInv(w, id);
        case LapseOrder(id, dueAt, cmd) =>
          ApplyKeepsInv(w, OrderOverdueKey(id, dueAt), id, LapseRefund, cmd);
          ClearKeepsInv(World(Apply(w.t, OrderOverdueKey(id, dueAt), id, LapseRefund, cmd).value, w.listed, w.cleared), id);
        case LapseRefundRow(id, dueAt) => MarkKeepsInv(w, id, dueAt);
      } else if step.LapseOrder? {
        RefusalMeansLapsed(w, step.id, step.dueAt, step.cmd);
        if Outcome(w, step).error in {Conflict, NotFound} { ClearKeepsInv(w, step.id); }
      }
    }
  }

  lemma ListKeepsInv(w: World, id: Id)
    requires Inv(w) && id in w.t.files && HasLapsable(w.t.files[id].refunds)
    ensures Inv(World(w.t, w.listed + {id}, w.cleared))
  {
    hide FilesOk, LedgerOk, StockBounds, TokensOk, ReceiptsOk;
  }

  lemma ClearKeepsInv(w: World, id: Id)
    requires Inv(w) && Lapsed(w.t, id)
    ensures Inv(World(w.t, w.listed, w.cleared + {id}))
  {
    hide FilesOk, LedgerOk, StockBounds, TokensOk, ReceiptsOk;
  }

  /** When the order half answers "conflict" or "not found" for a listed refund, the order has in
      fact already moved on, so treating the answer as done is sound. */
  lemma RefusalMeansLapsed(w: World, id: Id, dueAt: Time, cmd: Command)
    requires Inv(w) && id in w.listed && Apply(w.t, OrderOverdueKey(id, dueAt), id, LapseRefund, cmd).Failure?
    ensures Lapsed(w.t, id)
  {
    var key := OrderOverdueKey(id, dueAt);
    ListedIsRefunding(w, id);
    LapseAccepted(w.t.files[id], cmd);
    if key in w.t.receipts {
      OverdueReceipt(w, id, dueAt);
    } else {
      hide Inv, Apply, Accepts;
      ApplyCommitsIff(w, key, id, LapseRefund, cmd);
    }
  }

  lemma ListedIsRefunding(w: World, id: Id)
    requires Inv(w) && id in w.listed
    ensures id in w.t.files && w.t.files[id].order.status in {RefundRequested, Status.RefundOverdue, Refunded}
  {
    hide LedgerOk, StockBounds, TokensOk, ReceiptsOk, FileOk, StoreLines;
    RefundsMeanRefunding(w.t.files[id]);
  }

  lemma OverdueReceipt(w: World, id: Id, dueAt: Time)
    requires Inv(w) && OrderOverdueKey(id, dueAt) in w.t.receipts
    ensures Lapsed(w.t, id)
  {
    hide FilesOk, LedgerOk, StockBounds, TokensOk, SagaOk;
    assert KeySettled(w.t, OrderOverdueKey(id, dueAt));
  }

  lemma LapseAccepted(f: OrderFile, cmd: Command)
    ensures Accepts(f, LapseRefund, cmd) <==> f.order.status == RefundRequested
  {
    hide RateRecordable;
  }

  lemma RefundsMeanRefunding(f: OrderFile)
    requires FileOk(f) && f.refunds != []
    ensures f.order.status in {RefundRequested, Status.RefundOverdue, Refunded}
  {
  }

  lemma PublishKeepsInv(w: World, key: string, offer: OfferKey, price: int, declared: real)
    requires Inv(w) && CreateOffer(w.t, Client(key), offer, price, declared).Success?
    ensures Inv(World(CreateOffer(w.t, Client(key), offer, price, declared).value, w.listed, w.cleared))
  {
    hide FilesOk, LedgerOk, StockBounds, TokensOk, ReceiptsOk, SagaOk;
    if Client(key) in w.t.receipts {
      assert World(w.t, w.listed, w.cleared) == w;
    } else {
      OffersKeepInv(w, CreateOffer(w.t, Client(key), offer, price, declared).value, Client(key), offer);
    }
  }

  lemma ReviseKeepsInv(w: World, key: string, offer: OfferKey, price: Option<int>, declared: Option<real>, status: Option<OfferStatus>)
    requires Inv(w) && UpdateOffer(w.t, Client(key), offer, price, declared, status).Success?
    ensures Inv(World(UpdateOffer(w.t, Client(key), offer, price, declared, status).value, w.listed, w.cleared))
  {
    hide FilesOk, LedgerOk, StockBounds, TokensOk, ReceiptsOk, SagaOk;
    if Client(key) in w.t.receipts {
      assert World(w.t, w.listed, w.cleared) == w;
    } else {
      OffersKeepInv(w, UpdateOffer(w.t, Client(key), offer, price, declared, status).value, Client(key), offer);
    }
  }

  /** Every state any run commits satisfies the invariant. */
  lemma {:induction false} RunKeepsInv(products: Products, tariffs: map<(Id, Id), nat>, steps: seq<Step>)
    ensures Inv(Run(Empty(products, tariffs), steps))
  {
    if steps != [] {
      hide Inv, Next;
      RunKeepsInv(products, tariffs, steps[..|steps| - 1]);
      NextKeepsInv(Run(Empty(products, tariffs), steps[..|steps| - 1]), steps[|steps| - 1]);
    }
  }
}
