/** The repositories' procedures: statement by statement on an open transaction, whose changes reach
    the committed tables only if every statement succeeded. */
module OrderRepository {
  import opened Base
  import opened OrderStatus
  import opened Catalog
  import opened Commission
  import opened OrderFile
  import opened OrderStore
  import opened OrderRuns
  import opened OrderSafety

  /** An open transaction: the rows it sees and writes. */
  class Tx {
    const products: Products
    const tariffs: map<(Id, Id), nat>
    var files: map<Id, OrderFile>
    var offers: Offers
    var ledger: seq<LedgerRow>
    var receipts: Receipts
    var tokens: map<string, Token>

    constructor (t: Tables)
      ensures Tables() == t
    {
      products, tariffs, files, offers, ledger, receipts, tokens :=
        t.products, t.tariffs, t.files, t.offers, t.ledger, t.receipts, t.tokens;
    }

    function Tables(): Tables
      reads this
    {
      OrderStore.Tables.Tables(files, offers, products, tariffs, ledger, receipts, tokens)
    }

    // ---- dedup ----

    /** claim and ReserveFor: true for a replay. */
    method ClaimReceipt(key: Key, resource: Resource) returns (replay: Result<bool>)
      modifies `receipts
      ensures match ReserveFor(old(receipts), key, resource)
              case Failure(e) => replay == Failure(e)
              case Success(None) => replay == Success(true) && receipts == old(receipts)
              case Success(Some(extended)) => replay == Success(false) && receipts == extended
    {
      if !UsableKey(key) { return Failure(Internal); }
      if key !in receipts {
        receipts := receipts[key := resource];
        return Success(false);
      }
      if receipts[key] != resource { return Failure(Conflict); }
      return Success(true);
    }

    // ---- catalog port ----

    /** adjustOrderLines. */
    method AdjustOrderLines(op: Adjustment, store: Id, lines: seq<Line>)
      modifies `offers
      ensures offers == AdjustLines(op, old(offers), store, lines)
    {
      for i := 0 to |lines|
        invariant offers == AdjustLines(op, old(offers), store, lines[..i])
      {
        assert lines[..i + 1][..i] == lines[..i];
        offers := AdjustLine(op, offers, store, lines[i]);
      }
      assert lines[..|lines|] == lines;
    }

    /** ReserveOrderLines: locks, holds and prices the lines in product order. */
    method ReserveLinesInOrder(cmd: PlaceCommand) returns (quote: Result<Quote>)
      modifies `offers
      ensures var spec := ReserveOrderLines(old(Tables()), cmd);
              && quote.Success? == spec.Success?
              && (spec.Success? ==> quote == spec && offers == spec.value.offers)
              && (spec.Failure? ==> quote.error == spec.error)
    {
      if cmd.wanted == [] { return Failure(Conflict); }
      var wanted := SortByProduct(cmd.wanted);
      var lines, goods, deadline := [], 0, cmd.at;
      for i := 0 to |wanted|
        invariant |lines| == i
        invariant ReserveLines(old(offers), products, cmd.store, wanted[..i]) == Success((offers, lines))
        invariant goods == Goods(lines) && deadline == Deadline(products, lines, cmd.at)
      {
        assert wanted[..i + 1][..i] == wanted[..i];
        var reserved := ReserveLine(offers, products, cmd.store, wanted[i]);
        if reserved.Failure? {
          ReserveFailsEarly(old(offers), products, cmd.store, wanted, i + 1);
          return Failure(reserved.error);
        }
        var line := reserved.value.1;
        assert (lines + [line])[..i] == lines;
        offers := reserved.value.0;
        lines := lines + [line];
        goods := goods + line.lineAmount;
        deadline := Max(deadline, cmd.at + products[line.product].windowMinutes * 60);
      }
      assert wanted[..|wanted|] == wanted;
      var fee := 0;
      if cmd.delivery {
        if (cmd.store, cmd.district) !in tariffs { return Failure(Conflict); }
        fee := tariffs[(cmd.store, cmd.district)];
      }
      return Success(Quote(offers, lines, goods, fee, deadline));
    }

    /** The stock consequence of an edge. */
    method MoveStock(stock: Stock, store: Id, lines: seq<Line>)
      modifies `offers
      ensures offers == AdjustStock(stock, old(offers), store, lines)
    {
      if stock == Releases {
        AdjustOrderLines(Release, store, lines);
      }
      if stock == Consumes {
        AdjustOrderLines(Consume, store, lines);
      }
    }

    /** UpdateOffer's statements: the values, checked by the table's constraints, then the status. */
    method UpdateOfferRow(offer: OfferKey, price: Option<int>, declared: Option<real>, status: Option<OfferStatus>) returns (r: Result<()>)
      requires offer in offers
      modifies `offers
      ensures var was := old(offers)[offer];
        var revised := was.(price := if price.Some? then price.value else was.price,
                            declared := if declared.Some? then declared.value else was.declared);
        && (r.Failure? ==> r.error == Conflict)
        && (r.Success? <==> Stocked(revised) && !(status.Some? && status.value != was.status && was.status == Archived))
        && (r.Success? ==> offers == old(offers)[offer := revised.(status := if status.Some? then status.value else was.status)])
    {
      var revised := offers[offer];
      if price.Some? { revised := revised.(price := price.value); }
      if declared.Some? { revised := revised.(declared := declared.value); }
      if !Stocked(revised) { return Failure(Conflict); }
      offers := offers[offer := revised];
      if status.Some? && status.value != revised.status {
        if revised.status == Archived { return Failure(Conflict); }
        offers := offers[offer := revised.(status := status.value)];
      }
      return Success(());
    }

    // ---- settlement port ----

    /** Applies the billing consequence of a trigger to the order's rows. */
    method SettleRows(id: Id, trigger: Trigger, cmd: Command) returns (r: Result<()>)
      requires id in files && trigger != CloseOrder
      modifies `files
      ensures r.Success? == Settle(old(files)[id], trigger, cmd).Success?
      ensures r.Success? ==> files == old(files)[id := Settle(old(files)[id], trigger, cmd).value]
      ensures r.Failure? ==> r.error == Settle(old(files)[id], trigger, cmd).error
    {
      assert files == files[id := files[id]];
      match trigger
      case IssueInvoice =>
        r := IssueInvoiceFor(id, cmd);
      case SubmitReceipt =>
        r := RecordPaymentReceipt(id, cmd);
      case ConfirmPayment =>
        r := SettlePayment(id, true);
      case RejectPayment =>
        r := SettlePayment(id, false);
      case BuyerCancel | OperatorCancel | PaymentExpire =>
        CancelSettlement(id);
        r := Success(());
      case RefundRequest =>
        r := OpenRefundFor(id, cmd);
      case ConfirmRefund =>
        r := CompleteRefund(id);
      case _ =>
        r := Success(());
    }

    method IssueInvoiceFor(id: Id, cmd: Command) returns (r: Result<()>)
      requires id in files
      modifies `files
      ensures r.Success? ==> Settle(old(files)[id], IssueInvoice, cmd).Success?
                             && files == old(files)[id := Settle(old(files)[id], IssueInvoice, cmd).value]
      ensures r.Failure? ==> Settle(old(files)[id], IssueInvoice, cmd) == Failure(r.error)
    {
      if !cmd.gate.Open? { return Failure(Conflict); }
      if files[id].order.total < 0 { return Failure(Invalid); }
      var due := cmd.at + PAYMENT_WINDOW;
      var invoice := Invoice(|files[id].invoices| + 1, files[id].order.total, Issued, due);
      files := files[id := files[id].(invoices := files[id].invoices + [invoice])];
      files := files[id := files[id].(order := files[id].order.(paymentDue := Some(due)))];
      return Success(());
    }

    method RecordPaymentReceipt(id: Id, cmd: Command) returns (r: Result<()>)
      requires id in files
      modifies `files
      ensures r.Success? ==> Settle(old(files)[id], SubmitReceipt, cmd).Success?
                             && files == old(files)[id := Settle(old(files)[id], SubmitReceipt, cmd).value]
      ensures r.Failure? ==> Settle(old(files)[id], SubmitReceipt, cmd) == Failure(r.error)
    {
      var order := files[id].order;
      if cmd.receiptURL == "" || order.goods < 0 || order.fee < 0 { return Failure(Invalid); }
      // The unique index on live payments refuses a second one.
      if HasLivePayment(files[id]) { return Failure(Conflict); }
      var payment := Payment(order.goods, order.fee, order.goods + order.fee, Undecided, cmd.receiptURL);
      files := files[id := files[id].(payments := files[id].payments + [payment])];
      return Success(());
    }

    method SettlePayment(id: Id, accepted: bool) returns (r: Result<()>)
      requires id in files
      modifies `files
      ensures r.Success? == HasUndecidedPayment(old(files)[id])
      ensures r.Success? ==> files == old(files)[id :=
                if accepted
                then old(files)[id].(payments := MovePayments(old(files)[id].payments, Undecided, PaidUp),
                                     invoices := MoveInvoices(old(files)[id].invoices, Issued, Settled))
                else old(files)[id].(payments := MovePayments(old(files)[id].payments, Undecided, Failed))]
      ensures r.Failure? ==> r.error == Conflict
    {
      if !HasUndecidedPayment(files[id]) { return Failure(Conflict); }
      files := files[id := files[id].(payments := MovePayments(files[id].payments, Undecided, if accepted then PaidUp else Failed))];
      if accepted {
        files := files[id := files[id].(invoices := MoveInvoices(files[id].invoices, Issued, Settled))];
      }
      return Success(());
    }

    method CancelSettlement(id: Id)
      requires id in files
      modifies `files
      ensures files == old(files)[id := old(files)[id].(
                invoices := MoveInvoices(old(files)[id].invoices, Issued, Voided),
                payments := MovePayments(old(files)[id].payments, Undecided, Failed))]
    {
      files := files[id := files[id].(invoices := MoveInvoices(files[id].invoices, Issued, Voided))];
      files := files[id := files[id].(payments := MovePayments(files[id].payments, Undecided, Failed))];
    }

    method OpenRefundFor(id: Id, cmd: Command) returns (r: Result<()>)
      requires id in files
      modifies `files
      ensures r.Success? ==> Settle(old(files)[id], RefundRequest, cmd).Success?
                             && files == old(files)[id := Settle(old(files)[id], RefundRequest, cmd).value]
      ensures r.Failure? ==> Settle(old(files)[id], RefundRequest, cmd) == Failure(r.error)
    {
      if files[id].order.total <= 0 { return Failure(Invalid); }
      var refund := Refund(files[id].order.total, Requested, cmd.at + REFUND_WINDOW);
      files := files[id := files[id].(refunds := files[id].refunds + [refund])];
      return Success(());
    }

    method CompleteRefund(id: Id) returns (r: Result<()>)
      requires id in files
      modifies `files
      ensures r.Success? == HasOpenRefund(old(files)[id])
      ensures r.Success? ==> files == old(files)[id := old(files)[id].(
                refunds := ConfirmRefunds(old(files)[id].refunds),
                payments := MovePayments(old(files)[id].payments, PaidUp, Reversed),
                invoices := MoveInvoices(old(files)[id].invoices, Settled, Returned))]
      ensures r.Failure? ==> r.error == Conflict
    {
      if !HasOpenRefund(files[id]) { return Failure(Conflict); }
      files := files[id := files[id].(refunds := ConfirmRefunds(files[id].refunds))];
      files := files[id := files[id].(payments := MovePayments(files[id].payments, PaidUp, Reversed))];
      files := files[id := files[id].(invoices := MoveInvoices(files[id].invoices, Settled, Returned))];
      return Success(());
    }

    /** accrueCommission with its ledger port. */
    method AccrueCommission(id: Id, cmd: Command) returns (r: Result<()>)
      requires id in files
      modifies `ledger
      ensures match Accrue(old(ledger), id, files[id], cmd)
              case Success(extended) => r.Success? && ledger == extended
              case Failure(e) => r == Failure(e)
    {
      var f := files[id];
      var accrued := SumCharges(f.items);
      if accrued.Failure? { return Failure(accrued.error); }
      if cmd.gate.Unresolved? { return Failure(Conflict); }
      var rate := RateOf(f.items, f.order.goods, accrued.value);
      if f.order.goods < 0 || accrued.value < 0 || rate < 0 { return Failure(Invalid); }
      if accrued.value > f.order.goods { return Failure(Invalid); }
      var completed := OwnerCount(ledger, cmd.gate.owner);
      var sequence := completed + 1;
      var discount := 0;
      if sequence <= FOUNDING_FREE_ORDERS {
        discount := accrued.value;
      }
      var payable := accrued.value - discount;
      // The unique index on order_id refuses a second row.
      if Billed(ledger, id) { return Failure(Conflict); }
      ledger := ledger + [LedgerRow(id, cmd.gate.owner, f.order.goods, rate, accrued.value, discount, payable, cmd.at)];
      return Success(());
    }

    /** settle: billing rows, or the commission when the order closes. */
    method SettleOrder(id: Id, trigger: Trigger, cmd: Command) returns (r: Result<()>)
      requires id in files
      modifies `files, `ledger
      ensures var rows := Settle(old(files)[id], trigger, cmd);
              var billed := if trigger == CloseOrder then Accrue(old(ledger), id, old(files)[id], cmd) else Success(old(ledger));
              && r.Success? == (rows.Success? && billed.Success?)
              && (r.Success? ==> files == old(files)[id := rows.value] && ledger == billed.value)
              && (r.Failure? ==> r.error == if rows.Failure? then rows.error else billed.error)
    {
      hide Settle, Accrue;
      if trigger == CloseOrder {
        CloseSettlesElsewhere(files[id], cmd);
        assert files == files[id := files[id]];
        r := AccrueCommission(id, cmd);
      } else {
        r := SettleRows(id, trigger, cmd);
      }
    }

    // ---- transitions ----

    /** transition: status and audit row, stock, billing, domain event. */
    method TransitionOrder(id: Id, trigger: Trigger, cmd: Command) returns (r: Result<()>)
      requires id in files
      modifies `files, `offers, `ledger
      ensures match Transit(old(Tables()), id, trigger, cmd)
              case Success(t) => r.Success? && Tables() == t
              case Failure(e) => r == Failure(e)
    {
      hide Settle, Advance, Publish, Accrue, AdjustStock, TransitionFor, Transit, Move;
      TransitUnfolds(Tables(), id, trigger, cmd);
      AdvanceFrame(files[id], TransitionFor(trigger), cmd.at);
      var edge := TransitionFor(trigger);
      var from := files[id].order.status;
      if !edge.Permits(from) { return Failure(Conflict); }
      ghost var f := files[id];
      files := files[id := Advance(files[id], edge, cmd.at)];
      MoveStock(edge.stock, files[id].order.store, files[id].items);
      AccrueReads(ledger, id, f, files[id], cmd);
      r := SettleOrder(id, trigger, cmd);
      if r.Failure? { return; }
      files := files[id := Publish(files[id], edge, from)];
    }

    /** runTransition: the edge and the follow-on it declares. */
    method RunTransitionOn(id: Id, trigger: Trigger, cmd: Command) returns (r: Result<()>)
      requires id in files
      modifies `files, `offers, `ledger
      ensures match RunTransition(old(Tables()), id, trigger, cmd)
              case Success(t) => r.Success? && Tables() == t
              case Failure(e) => r == Failure(e)
    {
      hide Transit, TransitionFor;
      TransitKeepsIds(Tables(), id, trigger, cmd);
      r := TransitionOrder(id, trigger, cmd);
      if r.Failure? { return; }
      if TransitionFor(trigger).follow.Some? {
        r := TransitionOrder(id, TransitionFor(trigger).follow.value, cmd);
      }
    }
  }

  /** The committed database. */
  class Repository {
    var committed: Tables

    constructor (products: Products, tariffs: map<(Id, Id), nat>)
      ensures committed == Empty(products, tariffs).t
    {
      committed := Tables(map[], map[], products, tariffs, [], map[], map[]);
    }

    /** Applies one trigger: commits what Apply says, or changes nothing. */
    method ApplyTrigger(key: Key, id: Id, trigger: Trigger, cmd: Command) returns (r: Result<()>)
      modifies this
      ensures match Apply(old(committed), key, id, trigger, cmd)
              case Success(t) => r.Success? && committed == t
              case Failure(e) => r == Failure(e) && committed == old(committed)
    {
      var tx := new Tx(committed);
      var replay := tx.ClaimReceipt(key, OrderRes(id));
      if replay.Failure? { return Failure(replay.error); }
      if replay.value { return Success(()); }
      if id !in tx.files { return Failure(NotFound); }
      r := tx.RunTransitionOn(id, trigger, cmd);
      if r.Success? { committed := tx.Tables(); }
    }

    method SpendConfirmToken(key: Key, id: Id, token: string, cmd: Command) returns (r: Result<()>)
      modifies this
      ensures match ConfirmToken(old(committed), key, id, token, cmd)
              case Success(t) => r.Success? && committed == t
              case Failure(e) => r == Failure(e) && committed == old(committed)
    {
      var tx := new Tx(committed);
      var replay := tx.ClaimReceipt(key, OrderRes(id));
      if replay.Failure? { return Failure(replay.error); }
      if replay.value { return Success(()); }
      if token !in tx.tokens || tx.tokens[token].usedAt.Some? || tx.tokens[token].expiresAt <= cmd.at {
        return Failure(Gone);
      }
      tx.tokens := tx.tokens[token := tx.tokens[token].(usedAt := Some(cmd.at))];
      if tx.tokens[token].order != id { return Failure(Conflict); }
      if id !in tx.files { return Failure(NotFound); }
      r := tx.RunTransitionOn(id, TokenConfirm, cmd);
      if r.Success? { committed := tx.Tables(); }
    }

    /** Create: reserve, price, persist and announce, or change nothing. */
    method Create(key: Key, newId: Id, cmd: PlaceCommand) returns (r: Result<Id>)
      modifies this
      ensures match Place(old(committed), key, newId, cmd)
              case Success(placed) => r == Success(placed.1) && committed == placed.0
              case Failure(e) => r == Failure(e) && committed == old(committed)
    {
      var tx := new Tx(committed);
      if !UsableKey(key) { return Failure(Internal); }
      if key in tx.receipts {
        if tx.receipts[key].OrderRes? && tx.receipts[key].order in tx.files {
          return Success(tx.receipts[key].order);
        }
        return Failure(NotFound);
      }
      tx.receipts := tx.receipts[key := OrderRes(newId)];
      if !cmd.gate.Open? { return Failure(Conflict); }
      ghost var before := tx.Tables();
      var reserved := tx.ReserveLinesInOrder(cmd);
      assert ReserveOrderLines(before, cmd) == ReserveOrderLines(old(committed), cmd);
      if reserved.Failure? { return Failure(reserved.error); }
      var quote := reserved.value;
      if newId in tx.files || quote.goods < 0 { return Failure(Conflict); }
      if (exists line | line in quote.lines :: !Storable(line)) || !DistinctProducts(quote.lines) { return Failure(Conflict); }
      if cmd.token in tx.tokens { return Failure(Conflict); }
      tx.files := tx.files[newId := NewFile(cmd, quote)];
      tx.tokens := tx.tokens[cmd.token := Token(newId, quote.deadline, None)];
      committed := tx.Tables();
      return Success(newId);
    }

    /** UpdateOffer: read under the row lock, revise, and let the table's constraints decide. */
    method ReviseOffer(key: Key, offer: OfferKey, price: Option<int>, declared: Option<real>, status: Option<OfferStatus>)
      returns (r: Result<()>)
      modifies this
      ensures match UpdateOffer(old(committed), key, offer, price, declared, status)
              case Success(t) => r.Success? && committed == t
              case Failure(e) => r == Failure(e) && committed == old(committed)
    {
      var tx := new Tx(committed);
      var replay := tx.ClaimReceipt(key, OfferRes(offer));
      if replay.Failure? { return Failure(replay.error); }
      if replay.value { return Success(()); }
      if offer !in tx.offers { return Failure(NotFound); }
      r := tx.UpdateOfferRow(offer, price, declared, status);
      if r.Success? { committed := tx.Tables(); }
    }

    /** markOverdue. */
    method MarkRefundOverdue(id: Id, dueAt: Time) returns (r: Result<()>)
      modifies this
      ensures match MarkOverdue(old(committed), id, dueAt)
              case Success(t) => r.Success? && committed == t
              case Failure(e) => r == Failure(e) && committed == old(committed)
    {
      var tx := new Tx(committed);
      var replay := tx.ClaimReceipt(RefundOverdueKey(id, dueAt), OrderRes(id));
      if replay.Failure? { return Failure(replay.error); }
      if replay.value || id !in tx.files || !HasLapsable(tx.files[id].refunds) { return Success(()); }
      var f := tx.files[id];
      tx.files := tx.files[id := f.(refunds := LapseRefunds(f.refunds))];
      tx.files := tx.files[id := tx.files[id].(events := f.events + [RefundBecameOverdue(f.refunds[|f.refunds| - 1].amount, dueAt)])];
      committed := tx.Tables();
      return Success(());
    }
  }

  lemma CloseSettlesElsewhere(f: OrderFile, cmd: Command)
    ensures Settle(f, CloseOrder, cmd) == Success(f)
  {
  }

  /** An edge, in the order in which its statements run. */
  lemma TransitUnfolds(t: Tables, id: Id, trigger: Trigger, cmd: Command)
    requires id in t.files
    ensures var f, edge := t.files[id], TransitionFor(trigger);
      var settled := Settle(Advance(f, edge, cmd.at), trigger, cmd);
      var billed := if trigger == CloseOrder then Accrue(t.ledger, id, f, cmd) else Success(t.ledger);
      Transit(t, id, trigger, cmd) ==
        if !edge.Permits(f.order.status) then Failure(Conflict)
        else if settled.Failure? then Failure(settled.error)
        else if billed.Failure? then Failure(billed.error)
        else Success(t.(files := t.files[id := Publish(settled.value, edge, f.order.status)],
                        offers := AdjustStock(edge.stock, t.offers, f.order.store, f.items),
                        ledger := billed.value))
  {
    hide Settle, Advance, Publish, Accrue, AdjustStock, TransitionFor;
  }

  lemma TransitKeepsIds(t: Tables, id: Id, trigger: Trigger, cmd: Command)
    requires id in t.files
    ensures Transit(t, id, trigger, cmd).Success? ==> id in Transit(t, id, trigger, cmd).value.files
  {
    hide Move, Accrue, AdjustStock, TransitionFor;
  }

  lemma AdvanceFrame(f: OrderFile, edge: Transition, at: Time)
    ensures Advance(f, edge, at).items == f.items && Advance(f, edge, at).order.goods == f.order.goods
    ensures Advance(f, edge, at).order.store == f.order.store
  {
  }

  lemma {:induction false} ReserveFailsEarly(offers: Offers, products: Products, store: Id, wanted: seq<Wanted>, n: nat)
    requires n <= |wanted| && ReserveLines(offers, products, store, wanted[..n]).Failure?
    ensures ReserveLines(offers, products, store, wanted) == Failure(ReserveLines(offers, products, store, wanted[..n]).error)
    decreases |wanted|
  {
    if n == |wanted| {
      assert wanted[..n] == wanted;
    } else {
      assert wanted[..|wanted| - 1][..n] == wanted[..n];
      ReserveFailsEarly(offers, products, store, wanted[..|wanted| - 1], n);
    }
  }
}
