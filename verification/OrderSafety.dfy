/** The invariant of OrderRuns holds after every step of every run. */
module OrderSafety {
  import opened Base
  import opened OrderStatus
  import opened Catalog
  import opened Commission
  import opened OrderFile
  import opened OrderStore
  import opened OrderRuns

  // ---- one transition ----

  function Moved(t: Tables, id: Id, trigger: Trigger, cmd: Command): Tables
    requires id in t.files && MoveAll(t.files[id], trigger, cmd).Success?
  {
    var f := t.files[id];
    t.(files := t.files[id := MoveAll(f, trigger, cmd).value],
       offers := AdjustStock(StockOf(trigger), t.offers, f.order.store, f.items),
       ledger := if Closes(trigger) then NewRow(t, id, cmd) else t.ledger)
  }

  lemma FirstEdge(t: Tables, id: Id, trigger: Trigger, cmd: Command)
    requires id in t.files && trigger != CloseOrder
    ensures Transit(t, id, trigger, cmd).Success? <==> Move(t.files[id], trigger, cmd).Success?
    ensures Move(t.files[id], trigger, cmd).Success? ==>
              Transit(t, id, trigger, cmd).value
              == t.(files := t.files[id := Move(t.files[id], trigger, cmd).value],
                    offers := AdjustStock(TransitionFor(trigger).stock, t.offers, t.files[id].order.store, t.files[id].items))
  {
    hide Move, AdjustStock, TransitionFor;
  }

  lemma LastEdge(t: Tables, id: Id, cmd: Command)
    requires id in t.files && Move(t.files[id], CloseOrder, cmd).Success?
    ensures Transit(t, id, CloseOrder, cmd).Success? <==> Accrue(t.ledger, id, t.files[id], cmd).Success?
    ensures Accrue(t.ledger, id, t.files[id], cmd).Success? ==>
              Transit(t, id, CloseOrder, cmd).value
              == t.(files := t.files[id := Move(t.files[id], CloseOrder, cmd).value],
                    offers := AdjustStock(TransitionFor(CloseOrder).stock, t.offers, t.files[id].order.store, t.files[id].items),
                    ledger := Accrue(t.ledger, id, t.files[id], cmd).value)
  {
    hide Move, AdjustStock, TransitionFor, Accrue;
  }

  lemma AccepterIsOpen(trigger: Trigger, status: Status)
    requires Rests(status) && TransitionFor(trigger).Permits(status)
    ensures status != Closed && trigger !in {CloseOrder, IssueInvoice}
  {
  }

  /** What accepting comes to, for a well-formed resting order. */
  lemma AcceptsMeans(f: OrderFile, trigger: Trigger, cmd: Command)
    requires FileOk(f) && Rests(f.order.status)
    ensures Accepts(f, trigger, cmd) ==> TransitionFor(trigger).Permits(f.order.status)
    ensures TransitionFor(trigger).Permits(f.order.status) ==> trigger !in {CloseOrder, IssueInvoice}
    ensures !TransitionFor(trigger).Permits(f.order.status) ==> !Move(f, trigger, cmd).Success?
    ensures TransitionFor(trigger).Permits(f.order.status) && Closes(trigger) ==>
              Move(f, trigger, cmd).Success? && (Accepts(f, trigger, cmd) <==> !cmd.gate.Unresolved? && RateRecordable(f))
    ensures TransitionFor(trigger).Permits(f.order.status) && !Closes(trigger) ==>
              (Accepts(f, trigger, cmd) <==> MoveAll(f, trigger, cmd).Success?)
  {
    hide FileOk, Move, MoveAll, TransitionFor, RateRecordable;
    MoveAccepts(f, trigger, cmd);
    MoveAllAccepts(f, trigger, cmd);
    if TransitionFor(trigger).Permits(f.order.status) { AccepterIsOpen(trigger, f.order.status); }
  }

  /** A trigger on a resting order commits exactly when the order accepts it; then it moves that
      order, adjusts its stock once, and bills it if it closes. */
  lemma TransitionCommitsIff(t: Tables, id: Id, trigger: Trigger, cmd: Command)
    requires FilesOk(t) && LedgerOk(t) && id in t.files
    ensures RunTransition(t, id, trigger, cmd).Success? <==> Accepts(t.files[id], trigger, cmd)
    ensures Accepts(t.files[id], trigger, cmd) ==>
              MoveAll(t.files[id], trigger, cmd).Success? && RunTransition(t, id, trigger, cmd).value == Moved(t, id, trigger, cmd)
  {
    var f := t.files[id];
    assert FileOk(f) && Rests(f.order.status);
    hide FileOk, FilesOk, Move, MoveAll, Moved, TransitionFor, Accepts, LedgerOk, RunTransition, Closes;
    AcceptsMeans(f, trigger, cmd);
    if TransitionFor(trigger).Permits(f.order.status) {
      if Closes(trigger) {
        ClosingCommits(t, id, trigger, cmd);
      } else {
        PlainCommits(t, id, trigger, cmd);
      }
    } else {
      RefusedFirst(t, id, trigger, cmd);
    }
  }

  lemma RefusedFirst(t: Tables, id: Id, trigger: Trigger, cmd: Command)
    requires id in t.files && !Move(t.files[id], trigger, cmd).Success?
    ensures !RunTransition(t, id, trigger, cmd).Success?
  {
    hide Move;
  }

  lemma PlainCommits(t: Tables, id: Id, trigger: Trigger, cmd: Command)
    requires id in t.files && trigger != CloseOrder && !Closes(trigger)
    ensures RunTransition(t, id, trigger, cmd).Success? <==> MoveAll(t.files[id], trigger, cmd).Success?
    ensures MoveAll(t.files[id], trigger, cmd).Success? ==> RunTransition(t, id, trigger, cmd).value == Moved(t, id, trigger, cmd)
  {
    hide Move, AdjustStock, TransitionFor, Transit;
    var f := t.files[id];
    FollowOns(trigger);
    FirstEdge(t, id, trigger, cmd);
    if TransitionFor(trigger).follow.Some? && Move(f, trigger, cmd).Success? {
      var g := Move(f, trigger, cmd).value;
      FirstEdge(Transit(t, id, trigger, cmd).value, id, IssueInvoice, cmd);
      KeepsNothing(t.offers, f.order.store, f.items);
      KeepsNothing(t.offers, g.order.store, g.items);
      if Move(g, IssueInvoice, cmd).Success? {
        var h := Move(g, IssueInvoice, cmd).value;
        assert t.files[id := g][id := h] == t.files[id := h];
      }
    }
  }

  lemma KeepsNothing(offers: Offers, store: Id, lines: seq<Line>)
    ensures AdjustStock(Keeps, offers, store, lines) == offers
  {
  }

  lemma ClosingCommits(t: Tables, id: Id, trigger: Trigger, cmd: Command)
    requires FilesOk(t) && LedgerOk(t) && id in t.files && Closes(trigger)
    requires Move(t.files[id], trigger, cmd).Success?
    ensures RunTransition(t, id, trigger, cmd).Success? <==> !cmd.gate.Unresolved? && RateRecordable(t.files[id])
    ensures RunTransition(t, id, trigger, cmd).Success? ==>
              MoveAll(t.files[id], trigger, cmd).Success? && RunTransition(t, id, trigger, cmd).value == Moved(t, id, trigger, cmd)
  {
    hide Move, TrailFits, AdjustStock, TransitionFor, Accrue, RateRecordable, LedgerOk, StoreLines, BillingFits, EventsFit, OverdueFits, Charges, Billed, Transit;
    var f := t.files[id];
    FollowOns(trigger);
    FirstEdge(t, id, trigger, cmd);
    KeepsNothing(t.offers, f.order.store, f.items);
    var g := Move(f, trigger, cmd).value;
    var t1 := Transit(t, id, trigger, cmd).value;
    MoveFrame(f, trigger, cmd);
    MoveKeepsFile(f, trigger, cmd);
    MoveAccepts(f, trigger, cmd);
    AccepterIsOpen(trigger, f.order.status);
    MoveAccepts(g, CloseOrder, cmd);
    AccrueAccepts(t.ledger, id, f, cmd);
    OpenNotBilled(t, id);
    AccrueReads(t.ledger, id, f, g, cmd);
    LastEdge(t1, id, cmd);
    var h := Move(g, CloseOrder, cmd).value;
    assert t.files[id := g][id := h] == t.files[id := h];
  }

  lemma OpenNotBilled(t: Tables, id: Id)
    requires LedgerOk(t) && id in t.files && t.files[id].order.status != Closed
    ensures !Billed(t.ledger, id)
  {
    assert forall k :: 0 <= k < |t.ledger| ==> RowFits(t.ledger[k], t.files[t.ledger[k].order]);
  }

  lemma AccrueReads(ledger: seq<LedgerRow>, id: Id, f: OrderFile, g: OrderFile, cmd: Command)
    requires f.items == g.items && f.order.goods == g.order.goods
    ensures Accrue(ledger, id, f, cmd) == Accrue(ledger, id, g, cmd)
  {
  }

  // ---- what a move keeps ----

  lemma MovedKeepsFiles(t: Tables, id: Id, trigger: Trigger, cmd: Command)
    requires FilesOk(t) && id in t.files && MoveAll(t.files[id], trigger, cmd).Success?
    ensures FilesOk(Moved(t, id, trigger, cmd))
  {
    hide AdjustStock, MoveAll, TransitionFor;
    var f := t.files[id];
    MoveAllAccepts(f, trigger, cmd);
    AdjustKeepsKeys(StockOf(trigger), t.offers, f.order.store, f.items);
  }

  lemma AdjustKeepsKeys(stock: Stock, offers: Offers, store: Id, lines: seq<Line>)
    requires GoodLines(lines)
    ensures AdjustStock(stock, offers, store, lines).Keys == offers.Keys
    ensures StockBounds(offers) ==> StockBounds(AdjustStock(stock, offers, store, lines))
  {
    AdjustOnlyValues(Release, offers, store, lines);
    AdjustOnlyValues(Consume, offers, store, lines);
    if StockBounds(offers) {
      AdjustKeepsBounds(Release, offers, store, lines);
      AdjustKeepsBounds(Consume, offers, store, lines);
    }
  }

  lemma {:induction false} AdjustOnlyValues(op: Adjustment, offers: Offers, store: Id, lines: seq<Line>)
    ensures AdjustLines(op, offers, store, lines).Keys == offers.Keys
  {
    if lines != [] { AdjustOnlyValues(op, offers, store, lines[..|lines| - 1]); }
  }

  lemma AllowanceExtends(ledger: seq<LedgerRow>, row: LedgerRow)
    requires Allowance(ledger)
    requires row.discount == Discount(OwnerCount(ledger, row.owner), row.accrued) && row.payable == row.accrued - row.discount
    ensures Allowance(ledger + [row])
  {
    var l := ledger + [row];
    forall k | 0 <= k < |l|
      ensures l[k].discount == Discount(OwnerCount(l[..k], l[k].owner), l[k].accrued) && l[k].payable == l[k].accrued - l[k].discount
    {
      if k < |ledger| { assert l[..k] == ledger[..k]; } else { assert l[..k] == ledger; }
    }
  }

  /** Replacing an order that is not on the ledger by one that has not closed. */
  lemma OpenMoveKeepsLedger(t: Tables, t': Tables, id: Id)
    requires LedgerOk(t) && id in t.files && id in t'.files && t'.ledger == t.ledger
    requires t'.files == t.files[id := t'.files[id]]
    requires t'.files[id].order.status != Closed && t.files[id].order.status != Closed
    ensures LedgerOk(t')
  {
    forall k | 0 <= k < |t.ledger|
      ensures t.ledger[k].order in t'.files && RowFits(t.ledger[k], t'.files[t.ledger[k].order])
    {
      assert RowFits(t.ledger[k], t.files[t.ledger[k].order]);
    }
  }

  lemma CloseKeepsLedger(t: Tables, t': Tables, id: Id, row: LedgerRow)
    requires LedgerOk(t) && id in t.files && id in t'.files && t'.ledger == t.ledger + [row]
    requires t'.files == t.files[id := t'.files[id]]
    requires t.files[id].order.status != Closed && row.order == id && RowFits(row, t'.files[id])
    requires row.discount == Discount(OwnerCount(t.ledger, row.owner), row.accrued) && row.payable == row.accrued - row.discount
    ensures LedgerOk(t')
  {
    AllowanceExtends(t.ledger, row);
    OpenNotBilled(t, id);
    RowsExtend(t, t', id, row);
    hide Allowance, RowFits;
  }

  lemma RowsExtend(t: Tables, t': Tables, id: Id, row: LedgerRow)
    requires LedgerOk(t) && id in t.files && id in t'.files && t'.ledger == t.ledger + [row]
    requires t'.files == t.files[id := t'.files[id]]
    requires t.files[id].order.status != Closed && row.order == id && RowFits(row, t'.files[id]) && !Billed(t.ledger, id)
    ensures forall k :: 0 <= k < |t'.ledger| ==> t'.ledger[k].order in t'.files && RowFits(t'.ledger[k], t'.files[t'.ledger[k].order])
    ensures forall j, k :: 0 <= j < k < |t'.ledger| ==> t'.ledger[j].order != t'.ledger[k].order
    ensures forall other | other in t'.files && t'.files[other].order.status == Closed :: Billed(t'.ledger, other)
  {
    hide Allowance, RowFits;
    forall k | 0 <= k < |t'.ledger|
      ensures t'.ledger[k].order in t'.files && RowFits(t'.ledger[k], t'.files[t'.ledger[k].order])
    {
      if k < |t.ledger| { assert RowFits(t.ledger[k], t.files[t.ledger[k].order]); }
    }
    forall other | other in t'.files && t'.files[other].order.status == Closed
      ensures Billed(t'.ledger, other)
    {
      if other == id { assert t'.ledger[|t.ledger|].order == id; }
      else {
        var k :| 0 <= k < |t.ledger| && t.ledger[k].order == other;
        assert t'.ledger[k].order == other;
      }
    }
  }

  lemma MovedKeepsLedger(t: Tables, id: Id, trigger: Trigger, cmd: Command)
    requires FilesOk(t) && LedgerOk(t) && id in t.files && Accepts(t.files[id], trigger, cmd)
    requires MoveAll(t.files[id], trigger, cmd).Success?
    ensures LedgerOk(Moved(t, id, trigger, cmd))
  {
    hide Move, MoveAll, TrailFits, AdjustStock, Accrue, StoreLines, Allowance, BillingFits, EventsFit, OverdueFits, Discount, OwnerCount,
      RowFits, RateForLines, TransitionFor, Priced;
    var f := t.files[id];
    var t' := Moved(t, id, trigger, cmd);
    MoveAllAccepts(f, trigger, cmd);
    FollowOns(trigger);
    AccepterIsOpen(trigger, f.order.status);
    ClosedIsFinal(trigger);
    if Closes(trigger) {
      ClosingKeepsLedger(t, id, trigger, cmd);
    } else {
      OpenMoveKeepsLedger(t, t', id);
    }
  }

  lemma ClosingKeepsLedger(t: Tables, id: Id, trigger: Trigger, cmd: Command)
    requires FilesOk(t) && LedgerOk(t) && id in t.files && Accepts(t.files[id], trigger, cmd)
    requires MoveAll(t.files[id], trigger, cmd).Success? && Closes(trigger)
    ensures LedgerOk(Moved(t, id, trigger, cmd))
  {
    hide Move, MoveAll, TrailFits, AdjustStock, Accrue, StoreLines, Allowance, BillingFits, EventsFit, OverdueFits, Discount, OwnerCount,
      RateForLines, TransitionFor;
    var f := t.files[id];
    MoveAllAccepts(f, trigger, cmd);
    FollowOns(trigger);
    AccepterIsOpen(trigger, f.order.status);
    ClosedIsFinal(trigger);
    OpenNotBilled(t, id);
    AccrueAccepts(t.ledger, id, f, cmd);
    var l := Accrue(t.ledger, id, f, cmd).value;
    assert l == t.ledger + [l[|t.ledger|]];
    CloseKeepsLedger(t, Moved(t, id, trigger, cmd), id, l[|t.ledger|]);
  }

  /** Created is never returned to, and a lapsed or completed refund is never undone. */
  lemma NoReturn(trigger: Trigger, from: Status)
    requires TransitionFor(trigger).Permits(from)
    ensures TransitionFor(trigger).to != Created
    ensures from in {Status.RefundOverdue, Refunded} ==> TransitionFor(trigger).to == Refunded
    ensures from in {Status.RefundOverdue, Refunded} ==> TransitionFor(trigger).follow.None?
    ensures trigger == LapseRefund ==> TransitionFor(trigger).to == Status.RefundOverdue
    ensures trigger == PaymentExpire ==> TransitionFor(trigger).to == Expired
    ensures from != Expired
    ensures trigger == RefundRequest ==> from in {Paid, Preparing, Ready}
  {
  }

  lemma MoveAllFrame(f: OrderFile, trigger: Trigger, cmd: Command)
    requires FileOk(f) && Rests(f.order.status) && MoveAll(f, trigger, cmd).Success?
    ensures var g := MoveAll(f, trigger, cmd).value;
            && g.order.status != Created && f.order.status != Expired
            && (f.order.status in {Status.RefundOverdue, Refunded} ==> g.order.status in {Status.RefundOverdue, Refunded})
            && (trigger == LapseRefund ==> g.order.status == Status.RefundOverdue)
            && (trigger == PaymentExpire ==> g.order.status == Expired)
            && (f.refunds != [] ==> g.refunds != [])
            && (f.refunds != [] && !HasLapsable(f.refunds) ==> !HasLapsable(g.refunds))
  {
    if trigger == RefundRequest { NoRefundYet(f); NoReturn(trigger, f.order.status); }
    hide Move, TransitionFor, FileOk;
    MoveAllAccepts(f, trigger, cmd);
    NoReturn(trigger, f.order.status);
    FollowOns(trigger);
    MoveFrame(f, trigger, cmd);
    if TransitionFor(trigger).follow.Some? {
      MoveFrame(Move(f, trigger, cmd).value, TransitionFor(trigger).follow.value, cmd);
    }
    ConfirmLeavesNoneLapsable(f.refunds);
  }

  lemma NoRefundYet(f: OrderFile)
    requires FileOk(f)
    ensures f.order.status in {Paid, Preparing, Ready} ==> f.refunds == []
  {
  }

  lemma ConfirmLeavesNoneLapsable(refunds: seq<Refund>)
    ensures !HasLapsable(ConfirmRefunds(refunds))
  {
  }

  /** What one committed transition keeps and what it leaves alone. */
  ghost predicate KeptBy(t: Tables, t': Tables, id: Id) {
    && FilesOk(t') && LedgerOk(t') && StockBounds(t'.offers)
    && t'.files.Keys == t.files.Keys && id in t'.files
    && (forall other | other in t.files && other != id :: t'.files[other] == t.files[other])
    && (id in t.files && t.files[id].order.status != Created ==> t'.files[id].order.status != Created)
    && (id in t.files && t.files[id].order.status == Expired ==> t'.files[id].order.status == Expired)
    && (Lapsed(t, id) ==> Lapsed(t', id))
    && (Flipped(t, id) ==> Flipped(t', id))
    && (id in t.files && t.files[id].refunds != [] ==> t'.files[id].refunds != [])
  }

  lemma SettledStays(t: Tables, t': Tables, id: Id, key: Key)
    requires KeptBy(t, t', id) && KeySettled(t, key)
    ensures KeySettled(t', key)
  {
    hide FilesOk, LedgerOk, StockBounds, HasLapsable;
  }

  lemma MovedKeepsTables(t: Tables, id: Id, trigger: Trigger, cmd: Command)
    requires FilesOk(t) && LedgerOk(t) && StockBounds(t.offers) && id in t.files && Accepts(t.files[id], trigger, cmd)
    requires MoveAll(t.files[id], trigger, cmd).Success?
    ensures KeptBy(t, Moved(t, id, trigger, cmd), id)
    ensures Moved(t, id, trigger, cmd).files[id].order.status != Created
    ensures trigger == LapseRefund ==> Lapsed(Moved(t, id, trigger, cmd), id)
    ensures trigger == PaymentExpire ==> Moved(t, id, trigger, cmd).files[id].order.status == Expired
  {
    hide MoveAll, AdjustStock, StoreLines, LedgerOk, FileOk, StockBounds, Accepts, HasLapsable;
    var f := t.files[id];
    MovedKeepsFiles(t, id, trigger, cmd);
    MovedKeepsLedger(t, id, trigger, cmd);
    assert GoodLines(f.items) by { FilePriced(f); }
    AdjustKeepsKeys(StockOf(trigger), t.offers, f.order.store, f.items);
    MoveAllFrame(f, trigger, cmd);
  }

  lemma FilePriced(f: OrderFile)
    requires FileOk(f)
    ensures Priced(f)
  {
  }
}
