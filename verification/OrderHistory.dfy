/** What the ledger and the operator queue record of a whole run: which closings and overdue confirmations. */
module OrderHistory {
  import opened Base
  import opened OrderStatus
  import opened Catalog
  import opened OrderFile
  import opened OrderStore
  import opened OrderRuns
  import opened OrderSafety
  import opened OrderInvariant
  import opened OrderTheorems
  import opened OrderEffects

  // ---- closings ----

  /** History: an order that a step closed, the account the sale gate resolved for it, and when. */
  datatype Closing = Closing(order: Id, account: Id, at: Time)

  function ClosingOf(w: World, step: Step): seq<Closing> {
    if step.Act? && Closes(step.trigger) && Fresh(w.t, Client(step.key)) && Outcome(w, step).Success? && !step.cmd.gate.Unresolved?
    then [Closing(step.id, step.cmd.gate.owner, step.cmd.at)] else []
  }

  function Closings(w: World, steps: seq<Step>): seq<Closing> {
    if steps == [] then []
    else
      var before := steps[..|steps| - 1];
      Closings(w, before) + ClosingOf(Run(w, before), steps[|steps| - 1])
  }

  function Count(closings: seq<Closing>, account: Id): nat {
    if closings == [] then 0
    else Count(closings[..|closings| - 1], account) + if closings[|closings| - 1].account == account then 1 else 0
  }

  predicate RowOf(row: LedgerRow, c: Closing) { row.order == c.order && row.owner == c.account && row.at == c.at }

  predicate RowsOf(ledger: seq<LedgerRow>, closings: seq<Closing>) {
    |ledger| == |closings| && forall k :: 0 <= k < |ledger| ==> RowOf(ledger[k], closings[k])
  }

  lemma {:induction false} CountIsOwners(ledger: seq<LedgerRow>, closings: seq<Closing>, account: Id)
    requires RowsOf(ledger, closings)
    ensures OwnerCount(ledger, account) == Count(closings, account)
  {
    if ledger != [] { CountIsOwners(ledger[..|ledger| - 1], closings[..|closings| - 1], account); }
  }

  /** A transition that closes nothing bills nothing. */
  lemma ApplyBillsNothing(w: World, key: Key, id: Id, trigger: Trigger, cmd: Command)
    requires Inv(w) && Apply(w.t, key, id, trigger, cmd).Success? && (!Closes(trigger) || key in w.t.receipts)
    ensures Apply(w.t, key, id, trigger, cmd).value.ledger == w.t.ledger
  {
    hide Inv, Apply, Written, Accepts;
    if key in w.t.receipts {
      ReplayChangesNothing(w.t, key, id, trigger, cmd);
    } else {
      ApplyUsesKey(w.t, key, id, trigger, cmd);
      ApplyCommitsIff(w, key, id, trigger, cmd);
      TransitionWrites(w, key, id, trigger, cmd);
    }
  }

  lemma SpendBillsNothing(w: World, key: Key, id: Id, token: string, cmd: Command)
    requires Inv(w) && key.Client? && ConfirmToken(w.t, key, id, token, cmd).Success?
    ensures ConfirmToken(w.t, key, id, token, cmd).value.ledger == w.t.ledger
  {
    hide Inv, Apply, Accepts, RunTransition, Spendable;
    if Fresh(w.t, key) {
      hide ConfirmToken;
      SpendCommitsIff(w, key, id, token, cmd);
      ApplyBillsNothing(w, key, id, TokenConfirm, cmd);
    }
  }

  lemma ClosingBills(w: World, key: Key, id: Id, trigger: Trigger, cmd: Command)
    requires Inv(w) && Fresh(w.t, key) && Closes(trigger) && Apply(w.t, key, id, trigger, cmd).Success?
    ensures !cmd.gate.Unresolved?
    ensures var l := Apply(w.t, key, id, trigger, cmd).value.ledger;
      |l| == |w.t.ledger| + 1 && l[..|w.t.ledger|] == w.t.ledger && RowOf(l[|w.t.ledger|], Closing(id, cmd.gate.owner, cmd.at))
  {
    hide Apply, MoveAll, AdjustStock, Accrue;
    ApplyCommitsIff(w, key, id, trigger, cmd);
    var f := w.t.files[id];
    AcceptedCanBill(f, trigger, cmd);
    OrderEffects.InvFile(w, id);
    FilePriced(f);
    AccepterIsOpen(trigger, f.order.status);
    OpenNotBilled(w.t, id);
    AccrueAccepts(w.t.ledger, id, f, cmd);
    hide Inv, FileOk, Accepts;
  }

  lemma AcceptedCanBill(f: OrderFile, trigger: Trigger, cmd: Command)
    requires Accepts(f, trigger, cmd) && Closes(trigger)
    ensures !cmd.gate.Unresolved? && RateRecordable(f) && TransitionFor(trigger).Permits(f.order.status)
  {
  }

  /** The ledger goes on with the rows of these closings. */
  predicate Adds(l: seq<LedgerRow>, l': seq<LedgerRow>, c: seq<Closing>) {
    |l'| == |l| + |c| && l'[..|l|] == l && forall k :: 0 <= k < |c| ==> RowOf(l'[|l| + k], c[k])
  }

  lemma AddsNothing(l: seq<LedgerRow>)
    ensures Adds(l, l, [])
  {
  }

  lemma ActBills(w: World, step: Step)
    requires Inv(w) && step.Act? && Outcome(w, step).Success?
    ensures Adds(w.t.ledger, Outcome(w, step).value.ledger, ClosingOf(w, step))
  {
    hide Inv, Apply;
    ApplyUsesKey(w.t, Client(step.key), step.id, step.trigger, step.cmd);
    AddsNothing(w.t.ledger);
    if Fresh(w.t, Client(step.key)) && Closes(step.trigger) {
      ClosingBills(w, Client(step.key), step.id, step.trigger, step.cmd);
    } else {
      ApplyBillsNothing(w, Client(step.key), step.id, step.trigger, step.cmd);
    }
  }

  lemma OtherBillsNothing(w: World, step: Step)
    requires Inv(w) && !step.Act? && Outcome(w, step).Success?
    ensures Outcome(w, step).value.ledger == w.t.ledger
  {
    hide Inv, Apply, ConfirmToken, ReserveOrderLines;
    match step
    case SweepUnconfirmed(id, dueAt, cmd) => ApplyBillsNothing(w, ExpiryKey(id, dueAt), id, Trigger.Expire, cmd);
    case SweepUnpaid(id, dueAt, cmd) => ApplyBillsNothing(w, PaymentExpiryKey(id, dueAt), id, PaymentExpire, cmd);
    case LapseOrder(id, dueAt, cmd) => ApplyBillsNothing(w, OrderOverdueKey(id, dueAt), id, LapseRefund, cmd);
    case SpendToken(key, id, token, cmd) => SpendBillsNothing(w, Client(key), id, token, cmd);
    case _ =>
  }

  /** A step adds to the ledger exactly the row of the closing it commits, if any. */
  lemma NextBills(w: World, step: Step)
    requires Inv(w)
    ensures Adds(w.t.ledger, Next(w, step).t.ledger, ClosingOf(w, step))
  {
    AddsNothing(w.t.ledger);
    if Outcome(w, step).Success? {
      if step.Act? { ActBills(w, step); } else { OtherBillsNothing(w, step); }
    }
    hide Inv, Outcome, Adds, Closes, Fresh;
  }

  lemma RowsGoOn(l: seq<LedgerRow>, l': seq<LedgerRow>, closings: seq<Closing>, c: seq<Closing>)
    requires RowsOf(l, closings) && Adds(l, l', c)
    ensures RowsOf(l', closings + c)
  {
    hide RowOf;
    forall k | 0 <= k < |l'| ensures RowOf(l'[k], (closings + c)[k]) {
      if k < |l| { assert l'[k] == l'[..|l|][k]; } else { assert RowOf(l'[|l| + (k - |l|)], c[k - |l|]); }
    }
  }

  lemma {:induction false} LedgerFollows(products: Products, tariffs: map<(Id, Id), nat>, steps: seq<Step>)
    ensures RowsOf(Run(Empty(products, tariffs), steps).t.ledger, Closings(Empty(products, tariffs), steps))
  {
    if steps != [] {
      var before, step := steps[..|steps| - 1], steps[|steps| - 1];
      hide Inv, Next, ClosingOf, RowsOf, Adds;
      LedgerFollows(products, tariffs, before);
      RunKeepsInv(products, tariffs, before);
      var w := Run(Empty(products, tariffs), before);
      NextBills(w, step);
      RowsGoOn(w.t.ledger, Next(w, step).t.ledger, Closings(Empty(products, tariffs), before), ClosingOf(w, step));
    }
  }

  /** Whose row it is and what it charges. */
  lemma RowCharges(t: Tables, closings: seq<Closing>, k: nat)
    requires LedgerOk(t) && RowsOf(t.ledger, closings) && k < |closings|
    ensures var row := t.ledger[k];
      && row.order in t.files && row.base == t.files[row.order].order.goods
      && row.discount == (if Count(closings[..k], closings[k].account) < 10 then row.accrued else 0)
      && row.payable == row.accrued - row.discount
  {
    assert RowFits(t.ledger[k], t.files[t.ledger[k].order]) && RowOf(t.ledger[k], closings[k]);
    CountIsOwners(t.ledger[..k], closings[..k], closings[k].account);
    hide RowFits, OwnerCount, Count, Billed;
  }

  /** The ledger is the run's closings, in the order they committed: each charged to the account the sale gate
      resolved for it, at the time of its command, with the rounded charges of its lines. Of each account's
      closings the first ten are discounted in full and every later one is payable in full. */
  lemma LedgerIsClosings(products: Products, tariffs: map<(Id, Id), nat>, steps: seq<Step>)
    ensures var t, closings := Run(Empty(products, tariffs), steps).t, Closings(Empty(products, tariffs), steps);
      && RowsOf(t.ledger, closings)
      && forall k :: 0 <= k < |closings| ==>
           && var row := t.ledger[k];
           && row.order in t.files && row.base == t.files[row.order].order.goods
           && row.accrued == ChargesBySQL(t.files[row.order].items)
           && if Count(closings[..k], closings[k].account) < 10 then row.discount == row.accrued && row.payable == 0
              else row.discount == 0 && row.payable == row.accrued
  {
    LedgerFollows(products, tariffs, steps);
    RunKeepsInv(products, tariffs, steps);
    RunMeetsCapacityInvariants(products, tariffs, steps);
    var w, closings := Run(Empty(products, tariffs), steps), Closings(Empty(products, tariffs), steps);
    assert LedgerOk(w.t) by { hide LedgerOk; }
    hide Run, Inv, Closings, ChargesBySQL, LedgerOk, Count;
    forall k | 0 <= k < |closings|
      ensures w.t.ledger[k].order in w.t.files && w.t.ledger[k].base == w.t.files[w.t.ledger[k].order].order.goods
      ensures w.t.ledger[k].discount == (if Count(closings[..k], closings[k].account) < 10 then w.t.ledger[k].accrued else 0)
      ensures w.t.ledger[k].payable == w.t.ledger[k].accrued - w.t.ledger[k].discount
    {
      RowCharges(w.t, closings, k);
    }
  }

  // ---- escalations ----

  /** How often the events announce that this confirmation is overdue. */
  function EscalationsAt(events: seq<Event>, dueAt: Time): nat {
    if events == [] then 0
    else EscalationsAt(events[..|events| - 1], dueAt) + if events[|events| - 1] == Escalated(dueAt) then 1 else 0
  }

  lemma EscalationsAppend(events: seq<Event>, e: Event, dueAt: Time)
    ensures EscalationsAt(events + [e], dueAt) == EscalationsAt(events, dueAt) + if e == Escalated(dueAt) then 1 else 0
  {
    assert (events + [e])[..|events|] == events;
  }

  /** An overdue confirmation is announced once if its escalation's receipt is kept, and not otherwise. */
  ghost predicate EscalationsFit(t: Tables) {
    && (forall id, dueAt | EscalationKey(id, dueAt) in t.receipts :: id in t.files)
    && (forall id, dueAt | id in t.files ::
          EscalationsAt(t.files[id].events, dueAt) == if EscalationKey(id, dueAt) in t.receipts then 1 else 0)
  }

  ghost predicate SameEscalations(f: OrderFile, g: OrderFile) {
    forall dueAt :: EscalationsAt(g.events, dueAt) == EscalationsAt(f.events, dueAt)
  }

  /** Nothing is escalated. */
  ghost predicate Unescalated(t: Tables, t': Tables) {
    && (forall id, dueAt :: EscalationKey(id, dueAt) in t'.receipts <==> EscalationKey(id, dueAt) in t.receipts)
    && (forall id | id in t.files :: id in t'.files && SameEscalations(t.files[id], t'.files[id]))
    && (forall id, dueAt | id in t'.files && id !in t.files :: EscalationsAt(t'.files[id].events, dueAt) == 0)
  }

  lemma MoveUnescalated(f: OrderFile, trigger: Trigger, cmd: Command)
    requires Move(f, trigger, cmd).Success?
    ensures SameEscalations(f, Move(f, trigger, cmd).value)
  {
    var edge := TransitionFor(trigger);
    var a := Advance(f, edge, cmd.at);
    SettleFrame(a, trigger, cmd);
    hide Settle, TransitionFor;
    if edge.event.Some? {
      forall dueAt {
        EscalationsAppend(f.events, StatusChanged(edge.event.value, f.order.status, edge.to, edge.actor, edge.source), dueAt);
      }
    }
  }

  lemma TransitUnescalated(t: Tables, id: Id, trigger: Trigger, cmd: Command)
    requires id in t.files && Transit(t, id, trigger, cmd).Success?
    ensures Unescalated(t, Transit(t, id, trigger, cmd).value) && id in Transit(t, id, trigger, cmd).value.files
  {
    MoveUnescalated(t.files[id], trigger, cmd);
    hide Move, Accrue, AdjustStock, TransitionFor, EscalationsAt;
  }

  lemma UnescalatedOn(t: Tables, t': Tables, t'': Tables)
    requires Unescalated(t, t') && Unescalated(t', t'')
    ensures Unescalated(t, t'')
  {
    hide EscalationsAt;
    forall id | id in t.files ensures id in t''.files && SameEscalations(t.files[id], t''.files[id]) {
      assert SameEscalations(t.files[id], t'.files[id]) && SameEscalations(t'.files[id], t''.files[id]);
    }
    forall id, dueAt | id in t''.files && id !in t.files ensures EscalationsAt(t''.files[id].events, dueAt) == 0 {
      if id in t'.files { assert SameEscalations(t'.files[id], t''.files[id]); }
    }
  }

  lemma TransitionUnescalated(t: Tables, id: Id, trigger: Trigger, cmd: Command)
    requires id in t.files && RunTransition(t, id, trigger, cmd).Success?
    ensures Unescalated(t, RunTransition(t, id, trigger, cmd).value)
  {
    hide Transit, TransitionFor, Unescalated;
    TransitUnescalated(t, id, trigger, cmd);
    if TransitionFor(trigger).follow.Some? {
      var t1 := Transit(t, id, trigger, cmd).value;
      TransitUnescalated(t1, id, TransitionFor(trigger).follow.value, cmd);
      UnescalatedOn(t, t1, RunTransition(t, id, trigger, cmd).value);
    }
  }

  /** Claiming another key, or marking a token, escalates nothing. */
  lemma ClaimUnescalated(t: Tables, t': Tables, key: Key, resource: Resource)
    requires !key.EscalationKey? && t'.receipts == t.receipts[key := resource] && t'.files == t.files
    ensures Unescalated(t, t')
  {
    hide EscalationsAt;
  }

  lemma ApplyUnescalated(t: Tables, key: Key, id: Id, trigger: Trigger, cmd: Command)
    requires !key.EscalationKey? && Apply(t, key, id, trigger, cmd).Success?
    ensures Unescalated(t, Apply(t, key, id, trigger, cmd).value)
  {
    hide RunTransition, Unescalated;
    if key !in t.receipts {
      var t0 := t.(receipts := t.receipts[key := OrderRes(id)]);
      ClaimUnescalated(t, t0, key, OrderRes(id));
      TransitionUnescalated(t0, id, trigger, cmd);
      UnescalatedOn(t, t0, Apply(t, key, id, trigger, cmd).value);
    } else {
      NothingEscalated(t);
    }
  }

  lemma SpendUnescalated(t: Tables, key: Key, id: Id, token: string, cmd: Command)
    requires key.Client? && ConfirmToken(t, key, id, token, cmd).Success?
    ensures Unescalated(t, ConfirmToken(t, key, id, token, cmd).value)
  {
    hide RunTransition, Unescalated;
    if key !in t.receipts {
      var t0 := Marked(t, key, id, token, cmd);
      ClaimUnescalated(t, t0, key, OrderRes(id));
      TransitionUnescalated(t0, id, TokenConfirm, cmd);
      UnescalatedOn(t, t0, ConfirmToken(t, key, id, token, cmd).value);
    } else {
      NothingEscalated(t);
    }
  }

  lemma NothingEscalated(t: Tables)
    ensures Unescalated(t, t)
  {
  }

  lemma LapseUnescalated(t: Tables, id: Id, dueAt: Time)
    requires MarkOverdue(t, id, dueAt).Success?
    ensures Unescalated(t, MarkOverdue(t, id, dueAt).value)
  {
    if MarkOverdue(t, id, dueAt).value != t {
      var f := t.files[id];
      forall due { EscalationsAppend(f.events, RefundBecameOverdue(f.refunds[|f.refunds| - 1].amount, dueAt), due); }
    }
    hide EscalationsAt, LapseRefunds, HasLapsable;
  }

  lemma NoEscalations(dueAt: Time)
    ensures EscalationsAt([], dueAt) == 0
  {
  }

  lemma PlaceUnescalated(t: Tables, key: Key, newId: Id, cmd: PlaceCommand)
    requires key.Client? && Place(t, key, newId, cmd).Success?
    ensures Unescalated(t, Place(t, key, newId, cmd).value.0)
  {
    hide ReserveOrderLines, EscalationsAt, Storable, DistinctProducts;
    if key !in t.receipts {
      var f := Place(t, key, newId, cmd).value.0.files[newId];
      assert [] + f.events == f.events;
      forall dueAt ensures EscalationsAt(f.events, dueAt) == 0 {
        EscalationsAppend([], f.events[0], dueAt);
        NoEscalations(dueAt);
      }
    }
  }

  lemma OutcomeUnescalated(w: World, step: Step)
    requires Outcome(w, step).Success? && !step.SweepEscalation?
    ensures Unescalated(w.t, Outcome(w, step).value)
  {
    NothingEscalated(w.t);
    hide Apply, ConfirmToken, Place, MarkOverdue, EscalationsAt;
    match step
    case Act(key, id, trigger, cmd) => ApplyUnescalated(w.t, Client(key), id, trigger, cmd);
    case SweepUnconfirmed(id, dueAt, cmd) => ApplyUnescalated(w.t, ExpiryKey(id, dueAt), id, Trigger.Expire, cmd);
    case SweepUnpaid(id, dueAt, cmd) => ApplyUnescalated(w.t, PaymentExpiryKey(id, dueAt), id, PaymentExpire, cmd);
    case LapseOrder(id, dueAt, cmd) => ApplyUnescalated(w.t, OrderOverdueKey(id, dueAt), id, LapseRefund, cmd);
    case SpendToken(key, id, token, cmd) => SpendUnescalated(w.t, Client(key), id, token, cmd);
    case PlaceOrder(key, newId, place) => PlaceUnescalated(w.t, Client(key), newId, place);
    case LapseRefundRow(id, dueAt) => LapseUnescalated(w.t, id, dueAt);
    case _ =>
  }

  lemma EscalateFits(t: Tables, id: Id, dueAt: Time)
    requires EscalationsFit(t) && Escalate(t, id, dueAt).Success?
    ensures EscalationsFit(Escalate(t, id, dueAt).value)
  {
    if EscalationKey(id, dueAt) !in t.receipts {
      forall due { EscalationsAppend(t.files[id].events, Escalated(dueAt), due); }
    }
    hide EscalationsAt;
  }

  lemma UnescalatedFits(t: Tables, t': Tables)
    requires EscalationsFit(t) && Unescalated(t, t')
    ensures EscalationsFit(t')
  {
    hide EscalationsAt;
    forall id, dueAt | id in t'.files
      ensures EscalationsAt(t'.files[id].events, dueAt) == if EscalationKey(id, dueAt) in t'.receipts then 1 else 0
    {
      if id in t.files { assert SameEscalations(t.files[id], t'.files[id]); }
    }
  }

  lemma NextEscalations(w: World, step: Step)
    requires EscalationsFit(w.t)
    ensures EscalationsFit(Next(w, step).t)
  {
    hide EscalationsFit, Escalate, Unescalated;
    if Outcome(w, step).Success? {
      if step.SweepEscalation? {
        EscalateFits(w.t, step.id, step.dueAt);
      } else {
        OutcomeUnescalated(w, step);
        UnescalatedFits(w.t, Outcome(w, step).value);
      }
    }
    hide Apply, ConfirmToken, Place, MarkOverdue;
  }

  /** In every run an overdue confirmation is put before the operators exactly once if some pass escalated it,
      however many passes and crashes there were, and never otherwise. */
  lemma {:induction false} RunEscalatesOnce(products: Products, tariffs: map<(Id, Id), nat>, steps: seq<Step>)
    ensures EscalationsFit(Run(Empty(products, tariffs), steps).t)
  {
    if steps != [] {
      hide EscalationsFit, Next;
      RunEscalatesOnce(products, tariffs, steps[..|steps| - 1]);
      NextEscalations(Run(Empty(products, tariffs), steps[..|steps| - 1]), steps[|steps| - 1]);
    }
  }
}
