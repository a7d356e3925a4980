/** What the order's transactions write, row by row, and what they never rewrite. */
module OrderEffects {
  import opened Base
  import opened OrderStatus
  import opened Catalog
  import opened Commission
  import opened OrderFile
  import opened OrderStore
  import opened OrderRuns
  import opened OrderSafety
  import opened OrderInvariant

  // ---- rows are added and settled, never rewritten ----

  predicate SameInvoice(a: Invoice, b: Invoice) { b.(status := a.status) == a }

  predicate SamePayment(a: Payment, b: Payment) { b.(status := a.status) == a }

  predicate SameRefund(a: Refund, b: Refund) { b.(status := a.status) == a }

  /** The later file of an order: the items and the order's amounts, deadline and store are as they were, the
      audit trail and the events go on from where they were, and of the billing rows only statuses change. */
  predicate Grows(f: OrderFile, g: OrderFile) {
    && g.items == f.items
    && g.order.(status := f.order.status, paymentDue := f.order.paymentDue, closedAt := f.order.closedAt) == f.order
    && f.audit <= g.audit && f.events <= g.events
    && |f.invoices| <= |g.invoices| && (forall i :: 0 <= i < |f.invoices| ==> SameInvoice(f.invoices[i], g.invoices[i]))
    && |f.payments| <= |g.payments| && (forall i :: 0 <= i < |f.payments| ==> SamePayment(f.payments[i], g.payments[i]))
    && |f.refunds| <= |g.refunds| && (forall i :: 0 <= i < |f.refunds| ==> SameRefund(f.refunds[i], g.refunds[i]))
  }

  lemma GrowsOn(f: OrderFile, g: OrderFile, h: OrderFile)
    requires Grows(f, g) && Grows(g, h)
    ensures Grows(f, h)
  {
  }

  lemma SettleGrows(f: OrderFile, trigger: Trigger, cmd: Command)
    requires Settle(f, trigger, cmd).Success?
    ensures Grows(f, Settle(f, trigger, cmd).value)
  {
  }

  lemma MoveGrows(f: OrderFile, trigger: Trigger, cmd: Command)
    requires Move(f, trigger, cmd).Success?
    ensures Grows(f, Move(f, trigger, cmd).value)
  {
    var edge := TransitionFor(trigger);
    var g := Advance(f, edge, cmd.at);
    assert Grows(f, g);
    SettleGrows(g, trigger, cmd);
    GrowsOn(f, g, Settle(g, trigger, cmd).value);
    assert Grows(Settle(g, trigger, cmd).value, Publish(Settle(g, trigger, cmd).value, edge, f.order.status));
    hide Settle, TransitionFor, Advance;
    GrowsOn(f, Settle(g, trigger, cmd).value, Move(f, trigger, cmd).value);
  }

  predicate AllGrow(t: Tables, t': Tables) {
    forall id | id in t.files :: id in t'.files && Grows(t.files[id], t'.files[id])
  }

  lemma NothingGrows(t: Tables)
    ensures AllGrow(t, t)
  {
  }

  lemma TransitGrows(t: Tables, id: Id, trigger: Trigger, cmd: Command)
    requires id in t.files && Transit(t, id, trigger, cmd).Success?
    ensures AllGrow(t, Transit(t, id, trigger, cmd).value) && id in Transit(t, id, trigger, cmd).value.files
  {
    MoveGrows(t.files[id], trigger, cmd);
    NothingGrows(t);
    hide Move, Accrue, AdjustStock, TransitionFor, Grows;
  }

  lemma TransitionGrows(t: Tables, id: Id, trigger: Trigger, cmd: Command)
    requires id in t.files && RunTransition(t, id, trigger, cmd).Success?
    ensures AllGrow(t, RunTransition(t, id, trigger, cmd).value)
  {
    hide Transit, TransitionFor, Grows;
    TransitGrows(t, id, trigger, cmd);
    if TransitionFor(trigger).follow.Some? {
      var t1 := Transit(t, id, trigger, cmd).value;
      TransitGrows(t1, id, TransitionFor(trigger).follow.value, cmd);
      forall other | other in t.files ensures Grows(t.files[other], RunTransition(t, id, trigger, cmd).value.files[other]) {
        GrowsOn(t.files[other], t1.files[other], RunTransition(t, id, trigger, cmd).value.files[other]);
      }
    }
  }

  lemma ApplyGrows(t: Tables, key: Key, id: Id, trigger: Trigger, cmd: Command)
    requires Apply(t, key, id, trigger, cmd).Success?
    ensures AllGrow(t, Apply(t, key, id, trigger, cmd).value)
  {
    hide RunTransition, Grows;
    NothingGrows(t);
    if key !in t.receipts { TransitionGrows(t.(receipts := t.receipts[key := OrderRes(id)]), id, trigger, cmd); }
  }

  lemma SpendGrows(t: Tables, key: Key, id: Id, token: string, cmd: Command)
    requires ConfirmToken(t, key, id, token, cmd).Success?
    ensures AllGrow(t, ConfirmToken(t, key, id, token, cmd).value)
  {
    hide RunTransition, Grows;
    NothingGrows(t);
    if key !in t.receipts {
      TransitionGrows(t.(receipts := t.receipts[key := OrderRes(id)],
                         tokens := t.tokens[token := t.tokens[token].(usedAt := Some(cmd.at))]), id, TokenConfirm, cmd);
    }
  }

  lemma OneGrows(t: Tables, t': Tables, id: Id)
    requires id in t.files && id in t'.files && t'.files == t.files[id := t'.files[id]] && Grows(t.files[id], t'.files[id])
    ensures AllGrow(t, t')
  {
    NothingGrows(t);
    hide Grows;
  }

  lemma EvidenceGrows(t: Tables, key: Key, id: Id, amount: int)
    requires SubmitEvidence(t, key, id, amount).Success?
    ensures AllGrow(t, SubmitEvidence(t, key, id, amount).value)
  {
    NothingGrows(t);
    hide AllGrow;
    if key !in t.receipts { OneGrows(t, SubmitEvidence(t, key, id, amount).value, id); }
  }

  lemma EscalateGrows(t: Tables, id: Id, dueAt: Time)
    requires Escalate(t, id, dueAt).Success?
    ensures AllGrow(t, Escalate(t, id, dueAt).value)
  {
    NothingGrows(t);
    hide AllGrow;
    if EscalationKey(id, dueAt) !in t.receipts { OneGrows(t, Escalate(t, id, dueAt).value, id); }
  }

  lemma LapseGrows(t: Tables, id: Id, dueAt: Time)
    requires MarkOverdue(t, id, dueAt).Success?
    ensures AllGrow(t, MarkOverdue(t, id, dueAt).value)
  {
    NothingGrows(t);
    hide AllGrow;
    if MarkOverdue(t, id, dueAt).value != t { OneGrows(t, MarkOverdue(t, id, dueAt).value, id); }
  }

  lemma OutcomeGrows(w: World, step: Step)
    requires Outcome(w, step).Success?
    ensures AllGrow(w.t, Outcome(w, step).value)
  {
    NothingGrows(w.t);
    hide Apply, ConfirmToken, Grows, ReserveOrderLines, NewFile, Escalate, SubmitEvidence, MarkOverdue;
    match step
    case Act(key, id, trigger, cmd) => ApplyGrows(w.t, Client(key), id, trigger, cmd);
    case SweepUnconfirmed(id, dueAt, cmd) => ApplyGrows(w.t, ExpiryKey(id, dueAt), id, Trigger.Expire, cmd);
    case SweepUnpaid(id, dueAt, cmd) => ApplyGrows(w.t, PaymentExpiryKey(id, dueAt), id, PaymentExpire, cmd);
    case LapseOrder(id, dueAt, cmd) => ApplyGrows(w.t, OrderOverdueKey(id, dueAt), id, LapseRefund, cmd);
    case SpendToken(key, id, token, cmd) => SpendGrows(w.t, Client(key), id, token, cmd);
    case UploadEvidence(key, id, amount) => EvidenceGrows(w.t, Client(key), id, amount);
    case SweepEscalation(id, dueAt) => EscalateGrows(w.t, id, dueAt);
    case LapseRefundRow(id, dueAt) => LapseGrows(w.t, id, dueAt);
    case _ =>
  }

  lemma NextGrows(w: World, step: Step)
    ensures AllGrow(w.t, Next(w, step).t)
  {
    NothingGrows(w.t);
    if Outcome(w, step).Success? { OutcomeGrows(w, step); }
    hide Outcome, Grows;
  }

  lemma AllGrowOn(t: Tables, t': Tables, t'': Tables)
    requires AllGrow(t, t') && AllGrow(t', t'')
    ensures AllGrow(t, t'')
  {
    hide Grows;
    forall id | id in t.files ensures id in t''.files && Grows(t.files[id], t''.files[id]) {
      GrowsOn(t.files[id], t'.files[id], t''.files[id]);
    }
  }

  /** From any state to any later one: no order, item, amount, deadline, audit row, event or billing row is
      ever lost or rewritten; only an order's status and due times and a billing row's status change. */
  lemma {:induction false} RunKeepsHistory(w: World, steps: seq<Step>)
    ensures AllGrow(w.t, Run(w, steps).t)
  {
    hide AllGrow, Next;
    if steps == [] {
      NothingGrows(w.t);
    } else {
      var before := Run(w, steps[..|steps| - 1]);
      RunKeepsHistory(w, steps[..|steps| - 1]);
      NextGrows(before, steps[|steps| - 1]);
      AllGrowOn(w.t, before.t, Run(w, steps).t);
    }
  }

  // ---- what a transition adds ----

  predicate Confirms(trigger: Trigger) { trigger in {SupplierConfirm, TokenConfirm} }

  /** The order's new status and due times, and the rows a trigger with its follow-on adds, all at the time of
      the command: one audit row an edge, the invoice of an acceptance, due in 72 hours, the payment of a
      receipt, the refund of a request, to be settled in 72 hours. */
  predicate Written(f: OrderFile, g: OrderFile, trigger: Trigger, cmd: Command) {
    && Grows(f, g)
    && g.order.status == Landing(trigger)
    && g.order.paymentDue == (if Confirms(trigger) then Some(cmd.at + 259_200) else f.order.paymentDue)
    && g.order.closedAt == (if Closes(trigger) then Some(cmd.at) else f.order.closedAt)
    && |g.audit| == |f.audit| + (if Confirms(trigger) || Closes(trigger) then 2 else 1)
    && (forall k :: |f.audit| <= k < |g.audit| ==> g.audit[k].at == cmd.at)
    && g.invoices[|f.invoices|..]
       == (if Confirms(trigger) then [Invoice(|f.invoices| + 1, f.order.total, Issued, cmd.at + 259_200)] else [])
    && g.payments[|f.payments|..]
       == (if trigger == SubmitReceipt then [Payment(f.order.goods, f.order.fee, f.order.goods + f.order.fee, Undecided, cmd.receiptURL)]
           else [])
    && g.refunds[|f.refunds|..]
       == (if trigger == RefundRequest then [Refund(f.order.total, Requested, cmd.at + 259_200)] else [])
  }

  lemma SettleWrites(f: OrderFile, trigger: Trigger, cmd: Command)
    requires Settle(f, trigger, cmd).Success?
    ensures var g := Settle(f, trigger, cmd).value;
      && g.order.paymentDue == (if trigger == IssueInvoice then Some(cmd.at + 259_200) else f.order.paymentDue)
      && |f.invoices| <= |g.invoices| && |f.payments| <= |g.payments| && |f.refunds| <= |g.refunds|
      && g.invoices[|f.invoices|..]
         == (if trigger == IssueInvoice then [Invoice(|f.invoices| + 1, f.order.total, Issued, cmd.at + 259_200)] else [])
      && g.payments[|f.payments|..]
         == (if trigger == SubmitReceipt then [Payment(f.order.goods, f.order.fee, f.order.goods + f.order.fee, Undecided, cmd.receiptURL)]
             else [])
      && g.refunds[|f.refunds|..]
         == (if trigger == RefundRequest then [Refund(f.order.total, Requested, cmd.at + 259_200)] else [])
  {
  }

  /** One edge. */
  lemma MoveWrites(f: OrderFile, trigger: Trigger, cmd: Command)
    requires Move(f, trigger, cmd).Success?
    ensures var g := Move(f, trigger, cmd).value;
      && Grows(f, g) && g.order.status == TransitionFor(trigger).to
      && g.order.paymentDue == (if trigger == IssueInvoice then Some(cmd.at + 259_200) else f.order.paymentDue)
      && g.order.closedAt == (if trigger == CloseOrder then Some(cmd.at) else f.order.closedAt)
      && |g.audit| == |f.audit| + 1 && g.audit[|f.audit|].at == cmd.at
      && g.invoices[|f.invoices|..]
         == (if trigger == IssueInvoice then [Invoice(|f.invoices| + 1, f.order.total, Issued, cmd.at + 259_200)] else [])
      && g.payments[|f.payments|..]
         == (if trigger == SubmitReceipt then [Payment(f.order.goods, f.order.fee, f.order.goods + f.order.fee, Undecided, cmd.receiptURL)]
             else [])
      && g.refunds[|f.refunds|..]
         == (if trigger == RefundRequest then [Refund(f.order.total, Requested, cmd.at + 259_200)] else [])
  {
    MoveGrows(f, trigger, cmd);
    MoveFrame(f, trigger, cmd);
    var a := Advance(f, TransitionFor(trigger), cmd.at);
    SettleWrites(a, trigger, cmd);
    SettleFrame(a, trigger, cmd);
    hide Grows, Settle, TransitionFor;
  }

  lemma MoveAllWrites(f: OrderFile, trigger: Trigger, cmd: Command)
    requires MoveAll(f, trigger, cmd).Success? && trigger !in {IssueInvoice, CloseOrder}
    ensures Written(f, MoveAll(f, trigger, cmd).value, trigger, cmd)
  {
    hide Move, TransitionFor, Grows;
    FollowOns(trigger);
    MoveWrites(f, trigger, cmd);
    var g := Move(f, trigger, cmd).value;
    if TransitionFor(trigger).follow.Some? {
      var h := MoveAll(f, trigger, cmd).value;
      MoveWrites(g, TransitionFor(trigger).follow.value, cmd);
      GrowsOn(f, g, h);
      LongerRows(f, g);
      LongerRows(g, h);
    }
  }

  lemma LongerRows(f: OrderFile, g: OrderFile)
    requires Grows(f, g)
    ensures f.audit <= g.audit && |f.invoices| <= |g.invoices| && |f.payments| <= |g.payments| && |f.refunds| <= |g.refunds|
    ensures g.order.total == f.order.total && g.order.goods == f.order.goods && g.order.fee == f.order.fee
    ensures |g.invoices| == |f.invoices| ==> g.invoices[|f.invoices|..] == []
  {
  }

  lemma MovedWrites(t: Tables, id: Id, trigger: Trigger, cmd: Command)
    requires id in t.files && FileOk(t.files[id]) && Rests(t.files[id].order.status) && Accepts(t.files[id], trigger, cmd)
    requires MoveAll(t.files[id], trigger, cmd).Success?
    ensures var t', f := Moved(t, id, trigger, cmd), t.files[id];
      && id in t'.files && FileOk(t'.files[id]) && Written(f, t'.files[id], trigger, cmd)
      && t' == t.(files := t.files[id := t'.files[id]], offers := t'.offers, ledger := t'.ledger)
      && (StockOf(trigger) == Keeps ==> t'.offers == t.offers) && (!Closes(trigger) ==> t'.ledger == t.ledger)
  {
    var f := t.files[id];
    AcceptedTrigger(f, trigger, cmd);
    MoveAllAccepts(f, trigger, cmd);
    MoveAllWrites(f, trigger, cmd);
    KeepsNothing(t.offers, f.order.store, f.items);
    hide FileOk, Accepts, MoveAll, Written, AdjustStock, NewRow, TransitionFor;
  }

  lemma InvFile(w: World, id: Id)
    requires Inv(w) && id in w.t.files
    ensures FileOk(w.t.files[id]) && Rests(w.t.files[id].order.status)
  {
  }

  /** In every reachable state a first attempt that an order accepts leaves it well-formed, with exactly these
      rows added, and every other order, the tokens and the receipts of others as they were. */
  lemma TransitionWrites(w: World, key: Key, id: Id, trigger: Trigger, cmd: Command)
    requires Inv(w) && Fresh(w.t, key) && id in w.t.files && Accepts(w.t.files[id], trigger, cmd)
    ensures Apply(w.t, key, id, trigger, cmd).Success?
    ensures var t' := Apply(w.t, key, id, trigger, cmd).value;
      && id in t'.files && FileOk(t'.files[id]) && Written(w.t.files[id], t'.files[id], trigger, cmd)
      && t' == w.t.(files := w.t.files[id := t'.files[id]], receipts := w.t.receipts[key := OrderRes(id)],
                    offers := t'.offers, ledger := t'.ledger)
      && (StockOf(trigger) == Keeps ==> t'.offers == w.t.offers) && (!Closes(trigger) ==> t'.ledger == w.t.ledger)
  {
    ApplyCommitsIff(w, key, id, trigger, cmd);
    InvFile(w, id);
    hide Inv, FileOk, Accepts, MoveAll, Apply, Written, Moved, Fresh, StockOf, Closes;
    MovedWrites(w.t.(receipts := w.t.receipts[key := OrderRes(id)]), id, trigger, cmd);
  }

  lemma AcceptedTrigger(f: OrderFile, trigger: Trigger, cmd: Command)
    requires Rests(f.order.status) && Accepts(f, trigger, cmd)
    ensures trigger !in {IssueInvoice, CloseOrder}
  {
    AccepterIsOpen(trigger, f.order.status);
  }

  // ---- token confirmation ----

  /** The token is stored for this order, unused, and not yet expired. */
  predicate Spendable(t: Tables, id: Id, token: string, at: Time) {
    token in t.tokens && t.tokens[token].order == id && t.tokens[token].usedAt.None? && at < t.tokens[token].expiresAt
  }

  /** In every reachable state a first attempt spends the token exactly when it is spendable and its order
      accepts. It then does what the transition does and marks that token used, and no other. A token that
      is unknown, used or expired answers Gone, whatever else is wrong; every refusal changes nothing. */
  lemma SpendCommitsIff(w: World, key: Key, id: Id, token: string, cmd: Command)
    requires Inv(w) && Fresh(w.t, key)
    ensures ConfirmToken(w.t, key, id, token, cmd).Success? <==>
              Spendable(w.t, id, token, cmd.at) && id in w.t.files && Accepts(w.t.files[id], TokenConfirm, cmd)
    ensures ConfirmToken(w.t, key, id, token, cmd).Success? ==>
              && Apply(w.t, key, id, TokenConfirm, cmd).Success?
              && ConfirmToken(w.t, key, id, token, cmd).value
                 == Apply(w.t, key, id, TokenConfirm, cmd).value.(
                      tokens := w.t.tokens[token := Token(id, w.t.tokens[token].expiresAt, Some(cmd.at))])
    ensures ConfirmToken(w.t, key, id, token, cmd) == Failure(Gone) <==>
              token !in w.t.tokens || !Spendable(w.t, w.t.tokens[token].order, token, cmd.at)
  {
    SpendUnfolds(w.t, key, id, token, cmd);
    ApplyCommitsIff(w, key, id, TokenConfirm, cmd);
    assert token in w.t.tokens ==> w.t.tokens[token].order in w.t.files;
    if Spendable(w.t, id, token, cmd.at) {
      SpendMoves(w, key, id, token, cmd);
      TransitionNeverGone(Marked(w.t, key, id, token, cmd), id, TokenConfirm, cmd);
    }
    hide Inv, Accepts, MoveAll, RunTransition, Moved, ConfirmToken, Apply;
  }

  /** The tables once the key is claimed and the token marked. */
  function Marked(t: Tables, key: Key, id: Id, token: string, cmd: Command): Tables
    requires token in t.tokens
  {
    t.(receipts := t.receipts[key := OrderRes(id)], tokens := t.tokens[token := t.tokens[token].(usedAt := Some(cmd.at))])
  }

  lemma SpendUnfolds(t: Tables, key: Key, id: Id, token: string, cmd: Command)
    requires Fresh(t, key)
    ensures ConfirmToken(t, key, id, token, cmd) ==
      if token !in t.tokens || !Spendable(t, t.tokens[token].order, token, cmd.at) then Failure(Gone)
      else if t.tokens[token].order != id then Failure(Conflict)
      else if id !in t.files then Failure(NotFound)
      else RunTransition(Marked(t, key, id, token, cmd), id, TokenConfirm, cmd)
  {
    hide RunTransition;
  }

  lemma SpendMoves(w: World, key: Key, id: Id, token: string, cmd: Command)
    requires Inv(w) && Fresh(w.t, key) && Spendable(w.t, id, token, cmd.at) && id in w.t.files
    ensures var r := RunTransition(Marked(w.t, key, id, token, cmd), id, TokenConfirm, cmd);
      && (r.Success? <==> Accepts(w.t.files[id], TokenConfirm, cmd))
      && (r.Success? ==>
            MoveAll(w.t.files[id], TokenConfirm, cmd).Success?
            && r.value == Moved(w.t.(receipts := w.t.receipts[key := OrderRes(id)]), id, TokenConfirm, cmd).(
                            tokens := Marked(w.t, key, id, token, cmd).tokens))
  {
    hide Accepts, MoveAll, RunTransition, FileOk, StoreLines, StockBounds, ReceiptsOk, TokensOk, SagaOk;
    var t0 := Marked(w.t, key, id, token, cmd);
    assert FilesOk(t0) && LedgerOk(t0) by { LedgerReads(w.t, t0); }
    TransitionCommitsIff(t0, id, TokenConfirm, cmd);
    hide Inv, AdjustStock, FilesOk, LedgerOk;
  }

  lemma TransitionNeverGone(t: Tables, id: Id, trigger: Trigger, cmd: Command)
    requires id in t.files
    ensures RunTransition(t, id, trigger, cmd) != Failure(Gone)
  {
    TransitNeverGone(t, id, trigger, cmd);
    if Transit(t, id, trigger, cmd).Success? && TransitionFor(trigger).follow.Some? {
      TransitKeepsOrder(t, id, trigger, cmd);
      TransitNeverGone(Transit(t, id, trigger, cmd).value, id, TransitionFor(trigger).follow.value, cmd);
    }
    hide Transit, TransitionFor;
  }

  lemma TransitKeepsOrder(t: Tables, id: Id, trigger: Trigger, cmd: Command)
    requires id in t.files && Transit(t, id, trigger, cmd).Success?
    ensures id in Transit(t, id, trigger, cmd).value.files
  {
    hide Move, Accrue, AdjustStock, TransitionFor;
  }

  lemma TransitNeverGone(t: Tables, id: Id, trigger: Trigger, cmd: Command)
    requires id in t.files
    ensures Transit(t, id, trigger, cmd) != Failure(Gone)
  {
    hide Advance, Publish, TransitionFor, RateForLines, AdjustStock;
    ChargesNeverGone(t.files[id].items);
    hide Charges;
  }

  lemma {:induction false} ChargesNeverGone(lines: seq<Line>)
    ensures Charges(lines) != Failure(Gone)
  {
    if lines != [] { ChargesNeverGone(lines[..|lines| - 1]); }
  }

  // ---- tokens over runs ----

  /** Tokens are never lost, keep their order and their expiry, and once used stay used as they were. A new one
      belongs to a new order and expires at its confirmation deadline. */
  predicate TokensGo(t: Tables, t': Tables) {
    && (forall token | token in t.tokens ::
          && token in t'.tokens
          && t'.tokens[token].order == t.tokens[token].order && t'.tokens[token].expiresAt == t.tokens[token].expiresAt
          && (t.tokens[token].usedAt.Some? ==> t'.tokens[token].usedAt == t.tokens[token].usedAt))
    && (forall token | token in t'.tokens && token !in t.tokens ::
          t'.tokens[token].order in t'.files && t'.tokens[token].expiresAt == t'.files[t'.tokens[token].order].order.deadline)
  }

  lemma TransitionKeepsTokens(t: Tables, id: Id, trigger: Trigger, cmd: Command)
    requires id in t.files && RunTransition(t, id, trigger, cmd).Success?
    ensures RunTransition(t, id, trigger, cmd).value.tokens == t.tokens
  {
    hide Move, Accrue, AdjustStock, TransitionFor;
  }

  lemma ApplyKeepsTokens(t: Tables, key: Key, id: Id, trigger: Trigger, cmd: Command)
    requires Apply(t, key, id, trigger, cmd).Success?
    ensures Apply(t, key, id, trigger, cmd).value.tokens == t.tokens
  {
    if key !in t.receipts { TransitionKeepsTokens(t.(receipts := t.receipts[key := OrderRes(id)]), id, trigger, cmd); }
    hide RunTransition;
  }

  lemma SpendMarks(t: Tables, key: Key, id: Id, token: string, cmd: Command)
    requires ConfirmToken(t, key, id, token, cmd).Success? && Fresh(t, key)
    ensures Spendable(t, id, token, cmd.at) && id in t.files
    ensures ConfirmToken(t, key, id, token, cmd).value.tokens == t.tokens[token := t.tokens[token].(usedAt := Some(cmd.at))]
  {
    SpendUnfolds(t, key, id, token, cmd);
    TransitionKeepsTokens(Marked(t, key, id, token, cmd), id, TokenConfirm, cmd);
    hide RunTransition, ConfirmToken;
  }

  lemma OutcomeTokens(w: World, step: Step)
    requires Outcome(w, step).Success?
    ensures TokensGo(w.t, Outcome(w, step).value)
  {
    hide Apply, RunTransition, ReserveOrderLines;
    match step
    case Act(key, id, trigger, cmd) => ApplyKeepsTokens(w.t, Client(key), id, trigger, cmd);
    case SweepUnconfirmed(id, dueAt, cmd) => ApplyKeepsTokens(w.t, ExpiryKey(id, dueAt), id, Trigger.Expire, cmd);
    case SweepUnpaid(id, dueAt, cmd) => ApplyKeepsTokens(w.t, PaymentExpiryKey(id, dueAt), id, PaymentExpire, cmd);
    case LapseOrder(id, dueAt, cmd) => ApplyKeepsTokens(w.t, OrderOverdueKey(id, dueAt), id, LapseRefund, cmd);
    case SpendToken(key, id, token, cmd) => if Fresh(w.t, Client(key)) { SpendMarks(w.t, Client(key), id, token, cmd); }
    case _ =>
  }

  lemma NextTokens(w: World, step: Step)
    ensures TokensGo(w.t, Next(w, step).t)
  {
    if Outcome(w, step).Success? { OutcomeTokens(w, step); }
    hide Outcome;
  }

  lemma TokensGoOn(t: Tables, t': Tables, t'': Tables)
    requires TokensGo(t, t') && TokensGo(t', t'') && AllGrow(t', t'')
    ensures TokensGo(t, t'')
  {
    forall id | id in t'.files ensures id in t''.files && t''.files[id].order.deadline == t'.files[id].order.deadline {
      assert Grows(t'.files[id], t''.files[id]);
    }
    hide AllGrow;
  }

  lemma {:induction false} RunKeepsTokens(w: World, steps: seq<Step>)
    ensures TokensGo(w.t, Run(w, steps).t)
  {
    hide Next, TokensGo, AllGrow;
    if steps == [] {
      assert TokensGo(w.t, w.t) by { TokensStay(w.t); }
    } else {
      var before := Run(w, steps[..|steps| - 1]);
      RunKeepsTokens(w, steps[..|steps| - 1]);
      NextTokens(before, steps[|steps| - 1]);
      NextGrows(before, steps[|steps| - 1]);
      TokensGoOn(w.t, before.t, Run(w, steps).t);
    }
  }

  lemma TokensStay(t: Tables)
    ensures TokensGo(t, t)
  {
  }

  /** A first attempt that commits a spend of the token. */
  predicate Spends(w: World, step: Step, token: string) {
    step.SpendToken? && step.token == token && Fresh(w.t, Client(step.key)) && Outcome(w, step).Success?
  }

  lemma {:induction false} RunCat(w: World, first: seq<Step>, rest: seq<Step>)
    ensures Run(w, first + rest) == Run(Run(w, first), rest)
  {
    hide Next;
    if rest == [] {
      assert first + rest == first;
    } else {
      RunCat(w, first, rest[..|rest| - 1]);
      assert (first + rest)[..|first + rest| - 1] == first + rest[..|rest| - 1];
    }
  }

  lemma SpendIsInTime(w: World, step: Step, token: string)
    requires Inv(w) && Spends(w, step, token)
    ensures Spendable(w.t, step.id, token, step.cmd.at) && step.id in w.t.files && w.t.files[step.id].order.status == Created
  {
    hide Inv, ConfirmToken, Apply, Accepts;
    SpendCommitsIff(w, Client(step.key), step.id, token, step.cmd);
    OnlyCreatedConfirms(w.t.files[step.id], step.cmd);
  }

  lemma OnlyCreatedConfirms(f: OrderFile, cmd: Command)
    requires Accepts(f, TokenConfirm, cmd)
    ensures f.order.status == Created
  {
  }

  lemma SpentForGood(w: World, step: Step, later: seq<Step>, again: Step, token: string)
    requires Spends(w, step, token)
    ensures !Spends(Run(Next(w, step), later), again, token)
  {
    SpendIsNext(w, step, token);
    hide Next, Run, ConfirmToken, Spends;
    RunKeepsTokens(Next(w, step), later);
    var w' := Run(Next(w, step), later);
    assert token in w'.t.tokens && w'.t.tokens[token].usedAt.Some?;
    if Spends(w', again, token) { SpendIsFresh(w', again, token); }
  }

  lemma SpendIsFresh(w: World, step: Step, token: string)
    requires Spends(w, step, token)
    ensures Spendable(w.t, step.id, token, step.cmd.at)
  {
    SpendMarks(w.t, Client(step.key), step.id, token, step.cmd);
  }

  /** In every run a token confirms its order at most once, only while the order is unconfirmed, and only
      before the order's confirmation deadline. */
  lemma TokenSpendsOnce(products: Products, tariffs: map<(Id, Id), nat>, steps: seq<Step>, i: nat, token: string)
    requires i < |steps| && Spends(Run(Empty(products, tariffs), steps[..i]), steps[i], token)
    ensures var w := Run(Empty(products, tariffs), steps[..i]);
      && steps[i].id in w.t.files && w.t.files[steps[i].id].order.status == Created
      && steps[i].cmd.at < w.t.files[steps[i].id].order.deadline
    ensures forall j | i < j < |steps| :: !Spends(Run(Empty(products, tariffs), steps[..j]), steps[j], token)
  {
    var start := Empty(products, tariffs);
    var w := Run(start, steps[..i]);
    RunKeepsInv(products, tariffs, steps[..i]);
    RunKeepsTokens(start, steps[..i]);
    hide Inv, Run;
    SpendIsInTime(w, steps[i], token);
    SpendsRest(start, steps, i, token);
  }

  lemma RunSplits(start: World, steps: seq<Step>, i: nat, j: nat)
    requires i < j <= |steps|
    ensures Run(start, steps[..j]) == Run(Next(Run(start, steps[..i]), steps[i]), steps[i + 1..j])
  {
    assert steps[..i + 1][..i] == steps[..i];
    assert steps[..j] == steps[..i + 1] + steps[i + 1..j];
    RunCat(start, steps[..i + 1], steps[i + 1..j]);
    hide Next;
  }

  lemma SpendsRest(start: World, steps: seq<Step>, i: nat, token: string)
    requires i < |steps| && Spends(Run(start, steps[..i]), steps[i], token)
    ensures forall j | i < j < |steps| :: !Spends(Run(start, steps[..j]), steps[j], token)
  {
    hide Next, Run, Spends;
    forall j | i < j < |steps| ensures !Spends(Run(start, steps[..j]), steps[j], token) {
      RunSplits(start, steps, i, j);
      SpentForGood(Run(start, steps[..i]), steps[i], steps[i + 1..j], steps[j], token);
    }
  }

  lemma SpendIsNext(w: World, step: Step, token: string)
    requires Spends(w, step, token)
    ensures token in Next(w, step).t.tokens && Next(w, step).t.tokens[token].usedAt == Some(step.cmd.at)
  {
    SpendMarks(w.t, Client(step.key), step.id, token, step.cmd);
    hide ConfirmToken;
  }

  // ---- refunds ----

  lemma OneRefund(f: OrderFile)
    requires FileOk(f)
    ensures f.refunds == [] || (f.refunds == [f.refunds[0]] && f.refunds[0].amount == f.order.total)
  {
  }

  lemma OneLapsable(refunds: seq<Refund>)
    requires refunds == [] || refunds == [refunds[0]]
    ensures HasLapsable(refunds) <==> refunds != [] && refunds[0].status in {Requested, EvidenceUploaded}
    ensures HasLapsable(refunds) ==> LapseRefunds(refunds) == [Refund(refunds[0].amount, Overdue, refunds[0].dueAt)]
  {
    if refunds != [] { assert refunds[0] in refunds; }
  }

  lemma EvidenceUnfolds(t: Tables, key: Key, id: Id, amount: int)
    requires Fresh(t, key) && id in t.files && (t.files[id].refunds == [] || t.files[id].refunds == [t.files[id].refunds[0]])
    ensures var f, r := t.files[id], SubmitEvidence(t, key, id, amount);
      if f.refunds == [] || f.refunds[0].status != Requested || f.refunds[0].amount != amount then r.Failure?
      else r == Success(t.(receipts := t.receipts[key := OrderRes(id)],
                           files := t.files[id := f.(refunds := [Refund(amount, EvidenceUploaded, f.refunds[0].dueAt)])]))
  {
    var f := t.files[id];
    if f.refunds != [] {
      assert f.refunds[0 := f.refunds[0].(status := EvidenceUploaded)] == [f.refunds[0].(status := EvidenceUploaded)];
    }
  }

  /** In every reachable state evidence is accepted exactly for the amount of a refund still merely requested; it
      marks that refund and changes nothing else. */
  lemma EvidenceCommitsIff(w: World, key: Key, id: Id, amount: int)
    requires Inv(w) && Fresh(w.t, key)
    ensures SubmitEvidence(w.t, key, id, amount).Success? <==>
              id in w.t.files && w.t.files[id].refunds != []
              && w.t.files[id].refunds[0].status == Requested && w.t.files[id].refunds[0].amount == amount
    ensures SubmitEvidence(w.t, key, id, amount).Success? ==>
              var f := w.t.files[id];
              && amount == f.order.total
              && SubmitEvidence(w.t, key, id, amount).value
                 == w.t.(receipts := w.t.receipts[key := OrderRes(id)],
                         files := w.t.files[id := f.(refunds := [Refund(amount, EvidenceUploaded, f.refunds[0].dueAt)])])
  {
    hide Inv, FileOk;
    if id in w.t.files {
      InvFile(w, id);
      OneRefund(w.t.files[id]);
      EvidenceUnfolds(w.t, key, id, amount);
    }
  }

  lemma LapseUnfolds(t: Tables, id: Id, dueAt: Time)
    requires id in t.files && RefundOverdueKey(id, dueAt) !in t.receipts
    requires t.files[id].refunds == [] || t.files[id].refunds == [t.files[id].refunds[0]]
    ensures var f, r := t.files[id], MarkOverdue(t, id, dueAt);
      if f.refunds != [] && f.refunds[0].status in {Requested, EvidenceUploaded}
      then r == Success(t.(receipts := t.receipts[RefundOverdueKey(id, dueAt) := OrderRes(id)],
                           files := t.files[id := f.(refunds := [Refund(f.refunds[0].amount, Overdue, f.refunds[0].dueAt)],
                                                     events := f.events + [RefundBecameOverdue(f.refunds[0].amount, dueAt)])]))
      else r == Success(t)
  {
    hide HasLapsable, LapseRefunds;
    OneLapsable(t.files[id].refunds);
  }

  /** The billing half of the saga: a refund not yet decided becomes overdue and its event is written, with
      the order's total; otherwise nothing changes. */
  lemma LapseWrites(w: World, id: Id, dueAt: Time)
    requires Inv(w) && id in w.t.files && RefundOverdueKey(id, dueAt) !in w.t.receipts
    ensures MarkOverdue(w.t, id, dueAt).Success?
    ensures var f, t' := w.t.files[id], MarkOverdue(w.t, id, dueAt).value;
      if f.refunds != [] && f.refunds[0].status in {Requested, EvidenceUploaded}
      then t' == w.t.(receipts := w.t.receipts[RefundOverdueKey(id, dueAt) := OrderRes(id)],
                      files := w.t.files[id := f.(refunds := [Refund(f.order.total, Overdue, f.refunds[0].dueAt)],
                                                  events := f.events + [RefundBecameOverdue(f.order.total, dueAt)])])
      else t' == w.t
  {
    InvFile(w, id);
    OneRefund(w.t.files[id]);
    hide Inv, FileOk;
    LapseUnfolds(w.t, id, dueAt);
  }

  // ---- offers ----

  /** In every reachable state an offer is revised exactly when it exists, its new price is positive, its new
      declaration covers what is reserved, and it is not taken out of the archive; nothing else of it changes. */
  lemma ReviseCommitsIff(w: World, key: Key, offer: OfferKey, price: Option<int>, declared: Option<real>, status: Option<OfferStatus>)
    requires Inv(w) && Fresh(w.t, key)
    ensures UpdateOffer(w.t, key, offer, price, declared, status).Success? <==>
              && offer in w.t.offers
              && (price.Some? ==> price.value > 0) && (declared.Some? ==> declared.value >= w.t.offers[offer].reserved)
              && (w.t.offers[offer].status == Archived ==> status.None? || status == Some(Archived))
    ensures UpdateOffer(w.t, key, offer, price, declared, status).Success? ==>
              var t', was := UpdateOffer(w.t, key, offer, price, declared, status).value, w.t.offers[offer];
              && offer in t'.offers
              && t' == w.t.(receipts := w.t.receipts[key := OfferRes(offer)], offers := w.t.offers[offer := t'.offers[offer]])
              && t'.offers[offer].reserved == was.reserved
              && (if price.Some? then t'.offers[offer].price == price.value else t'.offers[offer].price == was.price)
              && (if declared.Some? then t'.offers[offer].declared == declared.value else t'.offers[offer].declared == was.declared)
              && (if status.Some? then t'.offers[offer].status == status.value else t'.offers[offer].status == was.status)
  {
    hide FilesOk, LedgerOk, ReceiptsOk, TokensOk, SagaOk;
  }

  /** A first attempt publishes an offer exactly when the store has none of the product and its values are
      allowed; it starts with nothing reserved. */
  lemma PublishCommitsIff(t: Tables, key: Key, offer: OfferKey, price: int, declared: real)
    requires Fresh(t, key)
    ensures CreateOffer(t, key, offer, price, declared).Success? <==> offer !in t.offers && price > 0 && declared >= 0.0
    ensures CreateOffer(t, key, offer, price, declared).Success? ==>
              CreateOffer(t, key, offer, price, declared).value
              == t.(receipts := t.receipts[key := OfferRes(offer)],
                    offers := t.offers[offer := Offer(price, declared, 0.0, Published)])
  {
  }
}
