/** Reserved stock against order statuses: what an offer has reserved equals what the orders that
    should be holding it hold, exactly as long as no declined order's stock is released twice. */
module Conservation {
  import opened Base
  import opened OrderStatus
  import opened Catalog
  import opened OrderFile
  import opened OrderStore
  import opened OrderRuns
  import opened OrderSafety
  import opened OrderInvariant

  /** What one order holds of an offer. */
  function HeldBy(f: OrderFile, key: OfferKey): real {
    if Holds(f.order.status) && f.order.store == key.0 then QtyOf(f.items, key.1) else 0.0
  }

  ghost function SumHeld(files: map<Id, OrderFile>, ids: set<Id>, key: OfferKey): real
    requires ids <= files.Keys
  {
    if ids == {} then 0.0
    else
      var id :| id in ids;
      HeldBy(files[id], key) + SumHeld(files, ids - {id}, key)
  }

  /** What all orders together hold of an offer. */
  ghost function Held(files: map<Id, OrderFile>, key: OfferKey): real {
    SumHeld(files, files.Keys, key)
  }

  ghost predicate Conserved(t: Tables) {
    forall key | key in t.offers :: t.offers[key].reserved == Held(t.files, key)
  }

  // ---- sums over orders ----

  lemma {:induction false} SumWithout(files: map<Id, OrderFile>, ids: set<Id>, id: Id, key: OfferKey)
    requires ids <= files.Keys && id in ids
    ensures SumHeld(files, ids, key) == HeldBy(files[id], key) + SumHeld(files, ids - {id}, key)
    decreases ids
  {
    hide HeldBy;
    var first :| first in ids && SumHeld(files, ids, key) == HeldBy(files[first], key) + SumHeld(files, ids - {first}, key);
    if first != id {
      SumWithout(files, ids - {first}, id, key);
      SumWithout(files, ids - {id}, first, key);
      assert ids - {first} - {id} == ids - {id} - {first};
    }
  }

  lemma {:induction false} SumSame(files: map<Id, OrderFile>, files': map<Id, OrderFile>, ids: set<Id>, key: OfferKey)
    requires ids <= files.Keys && ids <= files'.Keys
    requires forall id | id in ids :: HeldBy(files'[id], key) == HeldBy(files[id], key)
    ensures SumHeld(files', ids, key) == SumHeld(files, ids, key)
    decreases ids
  {
    hide HeldBy;
    if ids != {} {
      var id :| id in ids;
      SumSame(files, files', ids - {id}, key);
      SumWithout(files, ids, id, key);
      SumWithout(files', ids, id, key);
    }
  }

  lemma {:induction false} SumNonNegative(files: map<Id, OrderFile>, ids: set<Id>, key: OfferKey)
    requires ids <= files.Keys
    requires forall id | id in ids :: HeldBy(files[id], key) >= 0.0
    ensures SumHeld(files, ids, key) >= 0.0
    ensures (forall id | id in ids :: HeldBy(files[id], key) == 0.0) ==> SumHeld(files, ids, key) == 0.0
    decreases ids
  {
    hide HeldBy;
    if ids != {} {
      var id :| id in ids;
      SumNonNegative(files, ids - {id}, key);
      SumWithout(files, ids, id, key);
    }
  }

  lemma HeldAfter(files: map<Id, OrderFile>, id: Id, g: OrderFile, key: OfferKey)
    ensures Held(files[id := g], key)
         == Held(files, key) - (if id in files then HeldBy(files[id], key) else 0.0) + HeldBy(g, key)
  {
    hide HeldBy;
    var files' := files[id := g];
    SumWithout(files', files'.Keys, id, key);
    assert files'.Keys - {id} == files.Keys - {id};
    SumSame(files, files', files.Keys - {id}, key);
    if id in files {
      SumWithout(files, files.Keys, id, key);
    } else {
      assert files.Keys - {id} == files.Keys;
    }
  }

  lemma HoldsNonNegative(t: Tables, key: OfferKey)
    requires FilesOk(t)
    ensures forall id | id in t.files :: HeldBy(t.files[id], key) >= 0.0
  {
    forall id | id in t.files ensures HeldBy(t.files[id], key) >= 0.0 {
      FilePriced(t.files[id]);
      QtyOfNonNegative(t.files[id].items, key.1);
    }
  }

  /** An offer covers each holding order. */
  lemma CoversEach(t: Tables, id: Id, key: OfferKey)
    requires FilesOk(t) && Conserved(t) && id in t.files && key in t.offers
    ensures t.offers[key].reserved >= HeldBy(t.files[id], key)
  {
    hide FileOk, StoreLines, HeldBy;
    HoldsNonNegative(t, key);
    SumWithout(t.files, t.files.Keys, id, key);
    SumNonNegative(t.files, t.files.Keys - {id}, key);
  }

  // ---- one transition ----

  /** Stock moves with the status: an edge that keeps stock stays on one side, a consuming edge
      leaves the holding side, and a releasing one does too unless the order was declined before. */
  lemma StockFollowsStatus(trigger: Trigger, from: Status)
    requires Rests(from) && TransitionFor(trigger).Permits(from)
    ensures StockOf(trigger) == Keeps ==> Holds(from) == Holds(Landing(trigger))
    ensures StockOf(trigger) == Consumes ==> Holds(from) && !Holds(Landing(trigger))
    ensures StockOf(trigger) == Releases ==> !Holds(Landing(trigger)) && (Holds(from) <==> from != BuyerDecisionPending)
    ensures from == BuyerDecisionPending ==> trigger in {BuyerCancel, OperatorCancel} && StockOf(trigger) == Releases
  {
  }

  lemma HeldByAt(f: OrderFile, g: OrderFile, key: OfferKey)
    requires g.items == f.items && g.order.store == f.order.store
    ensures HeldBy(g, key) == (if Holds(g.order.status) && f.order.store == key.0 then QtyOf(f.items, key.1) else 0.0)
  {
  }

  /** A transition out of any status but the declined one conserves every offer. */
  lemma MovedConserves(t: Tables, id: Id, trigger: Trigger, cmd: Command)
    requires FilesOk(t) && Conserved(t) && id in t.files && Accepts(t.files[id], trigger, cmd)
    requires MoveAll(t.files[id], trigger, cmd).Success?
    requires t.files[id].order.status != BuyerDecisionPending
    ensures Conserved(Moved(t, id, trigger, cmd))
  {
    hide FileOk, StoreLines, MoveAll, AdjustLines, TransitionFor, Holds, Rests, StockOf, Held;
    var f := t.files[id];
    var g := MoveAll(f, trigger, cmd).value;
    var t' := Moved(t, id, trigger, cmd);
    FilePriced(f);
    MoveAllAccepts(f, trigger, cmd);
    StockFollowsStatus(trigger, f.order.status);
    AdjustKeepsKeys(StockOf(trigger), t.offers, f.order.store, f.items);
    forall key | key in t'.offers
      ensures t'.offers[key].reserved == Held(t'.files, key)
    {
      HeldAfter(t.files, id, g, key);
      CoversEach(t, id, key);
      HeldByAt(f, g, key);
      HeldByAt(f, f, key);
      match StockOf(trigger) {
        case Keeps =>
        case Releases => AdjustTakesHeld(Release, t.offers, f.order.store, f.items, key);
        case Consumes => AdjustTakesHeld(Consume, t.offers, f.order.store, f.items, key);
      }
    }
  }

  /** Cancelling a declined order releases its lines again: every offer is conserved exactly when no
      line fits what its offer has reserved, that is, when each release is a zero-row no-op. */
  lemma CancelDeclinedConservesIff(t: Tables, id: Id, trigger: Trigger, cmd: Command)
    requires FilesOk(t) && Conserved(t) && id in t.files && Accepts(t.files[id], trigger, cmd)
    requires MoveAll(t.files[id], trigger, cmd).Success?
    requires t.files[id].order.status == BuyerDecisionPending
    ensures Conserved(Moved(t, id, trigger, cmd))
       <==> forall line | line in t.files[id].items :: !Fits(t.offers, t.files[id].order.store, line)
  {
    hide FileOk, StoreLines, MoveAll, AdjustLines, TransitionFor, Holds, Rests, StockOf, Held, Fits;
    var f := t.files[id];
    var g := MoveAll(f, trigger, cmd).value;
    var t' := Moved(t, id, trigger, cmd);
    FilePriced(f);
    MoveAllAccepts(f, trigger, cmd);
    StockFollowsStatus(trigger, f.order.status);
    forall key ensures Held(t'.files, key) == Held(t.files, key) {
      HeldAfter(t.files, id, g, key);
      HeldByAt(f, g, key);
      HeldByAt(f, f, key);
    }
    AdjustIsNoopIff(Release, t.offers, f.order.store, f.items);
    AdjustKeepsKeys(Releases, t.offers, f.order.store, f.items);
  }

  /** What the second release does: each offer that still holds the line's quantity, for some other
      order, loses it, and is then short of what the holding orders hold by exactly that much. */
  lemma CancelDeclinedShorts(t: Tables, id: Id, trigger: Trigger, cmd: Command, key: OfferKey)
    requires FilesOk(t) && Conserved(t) && id in t.files && Accepts(t.files[id], trigger, cmd)
    requires MoveAll(t.files[id], trigger, cmd).Success?
    requires t.files[id].order.status == BuyerDecisionPending && key in t.offers
    ensures var f, t' := t.files[id], Moved(t, id, trigger, cmd);
            var again := if key.0 == f.order.store then QtyOf(f.items, key.1) else 0.0;
            key in t'.offers
            && t'.offers[key].reserved == Held(t'.files, key) - (if Held(t'.files, key) >= again then again else 0.0)
  {
    hide FileOk, StoreLines, MoveAll, AdjustLines, TransitionFor, Holds, Rests, StockOf, Held;
    var f := t.files[id];
    var g := MoveAll(f, trigger, cmd).value;
    FilePriced(f);
    MoveAllAccepts(f, trigger, cmd);
    StockFollowsStatus(trigger, f.order.status);
    HeldAfter(t.files, id, g, key);
    HeldByAt(f, g, key);
    HeldByAt(f, f, key);
    AdjustDistinct(Release, t.offers, f.order.store, f.items, key);
  }

  /** With one line a product, a line is taken off whole or not at all. */
  lemma {:induction false} AdjustDistinct(op: Adjustment, offers: Offers, store: Id, lines: seq<Line>, key: OfferKey)
    requires GoodLines(lines) && DistinctProducts(lines) && key in offers
    ensures var after, qty := AdjustLines(op, offers, store, lines), if key.0 == store then QtyOf(lines, key.1) else 0.0;
            key in after && after[key].reserved == offers[key].reserved - (if offers[key].reserved >= qty then qty else 0.0)
  {
    if lines != [] {
      var rest, last := lines[..|lines| - 1], lines[|lines| - 1];
      assert last in lines;
      AdjustDistinct(op, offers, store, rest, key);
      QtyOfNonNegative(rest, key.1);
      QtyOfNonNegative(lines, key.1);
      if last.product == key.1 {
        assert forall k :: 0 <= k < |rest| ==> rest[k].product != key.1;
      }
    }
  }

  // ---- every step ----

  /** A cancel of a declined order with a line that fits its offer's reservation: the branch that
      releases the same stock a second time. */
  predicate DoubleRelease(w: World, step: Step) {
    && step.Act? && step.trigger in {BuyerCancel, OperatorCancel}
    && Fresh(w.t, Client(step.key)) && step.id in w.t.files
    && w.t.files[step.id].order.status == BuyerDecisionPending
    && exists line | line in w.t.files[step.id].items :: Fits(w.t.offers, w.t.files[step.id].order.store, line)
  }

  lemma ApplyConservesIff(w: World, key: Key, id: Id, trigger: Trigger, cmd: Command)
    requires Inv(w) && Conserved(w.t) && Apply(w.t, key, id, trigger, cmd).Success?
    ensures Conserved(Apply(w.t, key, id, trigger, cmd).value)
       <==> !(Fresh(w.t, key) && w.t.files[id].order.status == BuyerDecisionPending
              && exists line | line in w.t.files[id].items :: Fits(w.t.offers, w.t.files[id].order.store, line))
  {
    hide FileOk, StoreLines, RunTransition, Accepts, MoveAll, StockBounds, Held, Fits, TokensOk, ReceiptsOk, SagaOk;
    if key !in w.t.receipts {
      var t0 := w.t.(receipts := w.t.receipts[key := OrderRes(id)]);
      LedgerReads(w.t, t0);
      hide LedgerOk;
      TransitionCommitsIff(t0, id, trigger, cmd);
      if t0.files[id].order.status == BuyerDecisionPending {
        CancelDeclinedConservesIff(t0, id, trigger, cmd);
      } else {
        MovedConserves(t0, id, trigger, cmd);
      }
    }
  }

  lemma SpendConserves(w: World, key: Key, id: Id, token: string, cmd: Command)
    requires Inv(w) && Conserved(w.t) && ConfirmToken(w.t, key, id, token, cmd).Success?
    ensures Conserved(ConfirmToken(w.t, key, id, token, cmd).value)
  {
    hide FileOk, StoreLines, RunTransition, MoveAll, StockBounds, Held, TokensOk, ReceiptsOk, SagaOk;
    if key !in w.t.receipts {
      var t0 := w.t.(receipts := w.t.receipts[key := OrderRes(id)],
                     tokens := w.t.tokens[token := w.t.tokens[token].(usedAt := Some(cmd.at))]);
      LedgerReads(w.t, t0);
      hide LedgerOk;
      TransitionCommitsIff(t0, id, TokenConfirm, cmd);
      MovedConserves(t0, id, TokenConfirm, cmd);
    }
  }

  lemma RowChangeConserves(t: Tables, t': Tables, id: Id)
    requires Conserved(t) && id in t.files && id in t'.files && t'.offers == t.offers
    requires t'.files == t.files[id := t'.files[id]]
    requires t'.files[id].order == t.files[id].order && t'.files[id].items == t.files[id].items
    ensures Conserved(t')
  {
    hide Held;
    forall key | key in t'.offers ensures t'.offers[key].reserved == Held(t'.files, key) {
      HeldAfter(t.files, id, t'.files[id], key);
      HeldByAt(t.files[id], t'.files[id], key);
      HeldByAt(t.files[id], t.files[id], key);
    }
  }

  lemma PlaceConserves(w: World, key: Key, newId: Id, cmd: PlaceCommand)
    requires Inv(w) && Conserved(w.t) && Place(w.t, key, newId, cmd).Success?
    ensures Conserved(Place(w.t, key, newId, cmd).value.0)
  {
    hide FileOk, StoreLines, StockBounds, Held, TokensOk, ReceiptsOk, SagaOk, LedgerOk, ReserveLines, SortByProduct;
    if key !in w.t.receipts {
      var wanted := SortByProduct(cmd.wanted);
      var quote := ReserveOrderLines(w.t, cmd).value;
      var t' := Place(w.t, key, newId, cmd).value.0;
      QuoteListsWanted(w.t.offers, w.t.products, cmd.store, wanted);
      forall offer | offer in t'.offers ensures t'.offers[offer].reserved == Held(t'.files, offer) {
        HeldAfter(w.t.files, newId, NewFile(cmd, quote), offer);
        ReserveHoldsQuote(w.t.offers, w.t.products, cmd.store, wanted, offer);
      }
    }
  }

  /** Nothing holds an offer that does not exist yet. */
  lemma NothingHeldUnlisted(t: Tables, key: OfferKey)
    requires FilesOk(t) && key !in t.offers
    ensures Held(t.files, key) == 0.0
  {
    forall id | id in t.files ensures HeldBy(t.files[id], key) == 0.0 {
      var f := t.files[id];
      FilePriced(f);
      hide FileOk;
      QtyOfNonNegative(f.items, key.1);
      if f.order.store == key.0 {
        forall k | 0 <= k < |f.items| ensures f.items[k].product != key.1 { assert f.items[k] in f.items; }
      }
    }
    SumNonNegative(t.files, t.files.Keys, key);
  }

  lemma OffersConserve(w: World, step: Step)
    requires Inv(w) && Conserved(w.t) && (step.PublishOffer? || step.ReviseOffer?) && Outcome(w, step).Success?
    ensures Conserved(Outcome(w, step).value)
  {
    hide FileOk, StoreLines, StockBounds, Held, TokensOk, ReceiptsOk, SagaOk, LedgerOk;
    if step.PublishOffer? && step.offer !in w.t.offers {
      NothingHeldUnlisted(w.t, step.offer);
    }
  }

  lemma OutcomeConservesIff(w: World, step: Step)
    requires Inv(w) && Conserved(w.t) && Outcome(w, step).Success?
    ensures Conserved(Outcome(w, step).value) <==> !DoubleRelease(w, step)
  {
    hide Inv, CreateOffer, UpdateOffer, Place, Apply, ConfirmToken, Conserved, Fits;
    match step
    case PublishOffer(_, _, _, _) => OffersConserve(w, step);
    case ReviseOffer(_, _, _, _, _) => OffersConserve(w, step);
    case PlaceOrder(key, newId, place) => PlaceConserves(w, Client(key), newId, place);
    case Act(key, id, trigger, cmd) =>
      ApplyConservesIff(w, Client(key), id, trigger, cmd);
      AppliedTrigger(w, Client(key), id, trigger, cmd);
    case SpendToken(key, id, token, cmd) => SpendConserves(w, Client(key), id, token, cmd);
    case SweepUnconfirmed(id, dueAt, cmd) =>
      ApplyConservesIff(w, ExpiryKey(id, dueAt), id, Trigger.Expire, cmd);
      AppliedTrigger(w, ExpiryKey(id, dueAt), id, Trigger.Expire, cmd);
    case SweepUnpaid(id, dueAt, cmd) =>
      ApplyConservesIff(w, PaymentExpiryKey(id, dueAt), id, PaymentExpire, cmd);
      AppliedTrigger(w, PaymentExpiryKey(id, dueAt), id, PaymentExpire, cmd);
    case LapseOrder(id, dueAt, cmd) =>
      ApplyConservesIff(w, OrderOverdueKey(id, dueAt), id, LapseRefund, cmd);
      AppliedTrigger(w, OrderOverdueKey(id, dueAt), id, LapseRefund, cmd);
    case SweepEscalation(id, dueAt) =>
      var t' := Outcome(w, step).value;
      if t' != w.t { RowChangeConserves(w.t, t', id); }
    case UploadEvidence(key, id, amount) =>
      var t' := Outcome(w, step).value;
      if t' != w.t { RowChangeConserves(w.t, t', id); }
    case LapseRefundRow(id, dueAt) =>
      var t' := Outcome(w, step).value;
      if t' != w.t { RowChangeConserves(w.t, t', id); }
    case ListDueRefund(_) =>
  }

  /** A first attempt that commits on a declined order is one of the two cancels. */
  lemma AppliedTrigger(w: World, key: Key, id: Id, trigger: Trigger, cmd: Command)
    requires Inv(w) && Apply(w.t, key, id, trigger, cmd).Success?
    ensures Fresh(w.t, key) ==> id in w.t.files
    ensures Fresh(w.t, key) && w.t.files[id].order.status == BuyerDecisionPending ==> trigger in {BuyerCancel, OperatorCancel}
  {
    if !Fresh(w.t, key) { return; }
    hide FileOk, StoreLines, RunTransition, MoveAll, StockBounds, TokensOk, ReceiptsOk, SagaOk, TransitionFor;
    var t0 := w.t.(receipts := w.t.receipts[key := OrderRes(id)]);
    LedgerReads(w.t, t0);
    TransitionCommitsIff(t0, id, trigger, cmd);
    StockFollowsStatus(trigger, w.t.files[id].order.status);
  }

  /** From a conserved state, a step conserves every offer exactly when it is not a double release. */
  lemma NextConservesIff(w: World, step: Step)
    requires Inv(w) && Conserved(w.t)
    ensures Conserved(Next(w, step).t) <==> !DoubleRelease(w, step)
  {
    hide Inv, Outcome, Conserved, Fits;
    if Outcome(w, step).Success? {
      OutcomeConservesIff(w, step);
    } else {
      CancelsCommit(w, step);
    }
  }

  lemma CancelsCommit(w: World, step: Step)
    requires Inv(w)
    ensures DoubleRelease(w, step) ==> Outcome(w, step).Success?
  {
    hide Inv, Apply, Fits;
    if DoubleRelease(w, step) {
      ApplyCommitsIff(w, Client(step.key), step.id, step.trigger, step.cmd);
    }
  }

  ghost predicate ConservedThroughout(w: World, steps: seq<Step>) {
    forall k | 0 <= k <= |steps| :: Conserved(Run(w, steps[..k]).t)
  }

  ghost predicate DoubleReleases(w: World, steps: seq<Step>) {
    exists k | 0 <= k < |steps| :: DoubleRelease(Run(w, steps[..k]), steps[k])
  }

  /** A run keeps every offer's reservation equal to what the holding orders hold, at every one of
      its committed states, exactly when it never releases a declined order's stock again. */
  lemma {:induction false} RunConservesIff(products: Products, tariffs: map<(Id, Id), nat>, steps: seq<Step>)
    ensures ConservedThroughout(Empty(products, tariffs), steps) <==> !DoubleReleases(Empty(products, tariffs), steps)
  {
    var w := Empty(products, tariffs);
    hide DoubleRelease, Next, Inv, Conserved;
    if steps == [] {
      assert steps[..0] == [];
      EmptyConserved(products, tariffs);
    } else {
      var n := |steps| - 1;
      var before := steps[..n];
      RunConservesIff(products, tariffs, before);
      assert forall k :: 0 <= k <= n ==> before[..k] == steps[..k];
      assert steps[..|steps|] == steps;
      RunKeepsInv(products, tariffs, before);
      if Conserved(Run(w, before).t) {
        NextConservesIff(Run(w, before), steps[n]);
      }
    }
  }

  lemma EmptyConserved(products: Products, tariffs: map<(Id, Id), nat>)
    ensures Conserved(Empty(products, tariffs).t)
  {
  }
}
