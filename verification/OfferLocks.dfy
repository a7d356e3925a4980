/** Concurrent transactions on offers: reservations, releases, consumptions and offer revisions. Each locks
    and updates its offers one by one in product order, holds every lock to its end, and sees the others
    only once they commit. A statement that matches no committed row takes no lock. */
module OfferLocks {
  import opened Base
  import opened Catalog

  /** One statement on one offer. */
  datatype Op =
    | Hold(wanted: Wanted)
    | Take(how: Adjustment, line: Line)
    | Revise(offer: Id, price: Option<int>, declared: Option<real>, status: Option<OfferStatus>)

  function ProductOf(op: Op): Id {
    match op
    case Hold(w) => w.product
    case Take(_, line) => line.product
    case Revise(product, _, _, _) => product
  }

  /** An open transaction: its statements, how many are done, the products whose adjustment matched no
      row, the offers it has locked with their new values, and the quote so far. */
  datatype Tx = Tx(store: Id, plan: seq<Op>, done: nat, missed: set<Id>, locked: Offers, lines: seq<Line>)

  /** A transaction that ended: its quote, or nothing if it was refused. */
  datatype Ended = Ended(store: Id, plan: seq<Op>, quote: Option<seq<Line>>)

  datatype System = System(offers: Offers, products: Products, open_: map<Id, Tx>, ended: seq<Ended>)

  datatype Step =
    | Reserve(tx: Id, store: Id, request: seq<Wanted>)
    | Adjust(tx: Id, how: Adjustment, store: Id, lines: seq<Line>)
    | ReviseOne(tx: Id, key: OfferKey, price: Option<int>, declared: Option<real>, status: Option<OfferStatus>)
    | Do(tx: Id)
    | Commit(tx: Id)
    | Abort(tx: Id)            // for a reason of the surrounding transaction's own

  function Holds(wanted: seq<Wanted>): seq<Op> { seq(|wanted|, i requires 0 <= i < |wanted| => Hold(wanted[i])) }

  function Takes(how: Adjustment, lines: seq<Line>): seq<Op> { seq(|lines|, i requires 0 <= i < |lines| => Take(how, lines[i])) }

  // ---- statements ----

  function DoOp(offers: Offers, products: Products, store: Id, op: Op): Result<(Offers, seq<Line>)> {
    match op
    case Hold(w) =>
      var (held, line) :- ReserveLine(offers, products, store, w);
      Success((held, [line]))
    case Take(how, line) => Success((AdjustLine(how, offers, store, line), []))
    case Revise(product, price, declared, status) =>
      if (store, product) !in offers then Failure(NotFound)
      else
        var revised :- ReviseOffer(offers[(store, product)], price, declared, status);
        Success((offers[(store, product) := revised], []))
  }

  function RunPlan(offers: Offers, products: Products, store: Id, plan: seq<Op>): Result<(Offers, seq<Line>)> {
    if plan == [] then Success((offers, []))
    else
      var before :- RunPlan(offers, products, store, plan[..|plan| - 1]);
      var after :- DoOp(before.0, products, store, plan[|plan| - 1]);
      Success((after.0, before.1 + after.1))
  }

  /** No committed row satisfies the statement's condition. */
  predicate MatchesNone(offers: Offers, products: Products, store: Id, op: Op) {
    match op
    case Hold(w) =>
      (store, w.product) !in offers || offers[(store, w.product)].status != Published
      || w.product !in products || !products[w.product].active
    case Take(_, line) => !Fits(offers, store, line)
    case Revise(product, _, _, _) => (store, product) !in offers
  }

  // ---- the system ----

  predicate HasOp(t: Tx) { t.done < |t.plan| }

  function NextKey(t: Tx): OfferKey
    requires HasOp(t)
  {
    (t.store, ProductOf(t.plan[t.done]))
  }

  function View(s: System, t: Tx): Offers { s.offers + t.locked }

  /** No other transaction has the offer locked. */
  predicate LockFree(s: System, tx: Id, key: OfferKey) {
    forall other | other in s.open_ && other != tx :: key !in s.open_[other].locked
  }

  /** The next statement need not wait. */
  predicate Unblocked(s: System, tx: Id)
    requires tx in s.open_ && HasOp(s.open_[tx])
  {
    var t := s.open_[tx];
    MatchesNone(View(s, t), s.products, t.store, t.plan[t.done]) || LockFree(s, tx, NextKey(t))
  }

  /** An order's lines, as stored: one for each product, in product order. */
  predicate StoredLines(lines: seq<Line>) {
    && (forall i, j :: 0 <= i < j < |lines| ==> lines[i].product < lines[j].product)
    && forall line | line in lines :: line.qty > 0.0
  }

  predicate Enabled(s: System, step: Step) {
    match step
    case Reserve(tx, _, _) => tx !in s.open_
    case Adjust(tx, _, _, lines) => tx !in s.open_ && StoredLines(lines)
    case ReviseOne(tx, _, _, _, _) => tx !in s.open_
    case Do(tx) => tx in s.open_ && HasOp(s.open_[tx]) && Unblocked(s, tx)
    case Commit(tx) => tx in s.open_ && !HasOp(s.open_[tx])
    case Abort(tx) => tx in s.open_
  }

  function Open(s: System, tx: Id, store: Id, plan: seq<Op>): System {
    s.(open_ := s.open_[tx := Tx(store, plan, 0, {}, map[], [])])
  }

  function Next(s: System, step: Step): System
    requires Enabled(s, step)
  {
    match step
    case Reserve(tx, store, request) => if request == [] then s else Open(s, tx, store, Holds(SortByProduct(request)))
    case Adjust(tx, how, store, lines) => Open(s, tx, store, Takes(how, lines))
    case ReviseOne(tx, key, price, declared, status) => Open(s, tx, key.0, [Revise(key.1, price, declared, status)])
    case Do(tx) => Done(s, tx)
    case Commit(tx) =>
      var t := s.open_[tx];
      s.(offers := s.offers + t.locked, open_ := s.open_ - {tx}, ended := s.ended + [Ended(t.store, t.plan, Some(t.lines))])
    case Abort(tx) => s.(open_ := s.open_ - {tx})
  }

  /** One statement: a miss, a refusal that ends the transaction, or an update of the locked row. */
  function Done(s: System, tx: Id): System
    requires tx in s.open_ && HasOp(s.open_[tx])
  {
    var t := s.open_[tx];
    var op := t.plan[t.done];
    if op.Take? && !Fits(View(s, t), t.store, op.line) then
      s.(open_ := s.open_[tx := t.(done := t.done + 1, missed := t.missed + {op.line.product})])
    else
      match DoOp(View(s, t), s.products, t.store, op)
      case Failure(_) => s.(open_ := s.open_ - {tx}, ended := s.ended + [Ended(t.store, t.plan, None)])
      case Success(r) =>
        OpLocks(View(s, t), s.products, t.store, op);
        s.(open_ := s.open_[tx := t.(done := t.done + 1, locked := t.locked[NextKey(t) := r.0[NextKey(t)]], lines := t.lines + r.1)])
  }

  /** A statement that matches a row changes that row only. */
  lemma OpLocks(offers: Offers, products: Products, store: Id, op: Op)
    requires DoOp(offers, products, store, op).Success? && (op.Take? ==> Fits(offers, store, op.line))
    ensures var after, key := DoOp(offers, products, store, op).value.0, (store, ProductOf(op));
      key in after && key in offers && after == offers[key := after[key]]
  {
  }

  function Run(s: System, steps: seq<Step>): System {
    if steps == [] then s
    else
      var before := Run(s, steps[..|steps| - 1]);
      if Enabled(before, steps[|steps| - 1]) then Next(before, steps[|steps| - 1]) else before
  }

  function Start(offers: Offers, products: Products): System { System(offers, products, map[], []) }

  // ---- plans are the catalogue's own operations ----

  lemma {:induction false} HoldsReserve(offers: Offers, products: Products, store: Id, wanted: seq<Wanted>)
    ensures RunPlan(offers, products, store, Holds(wanted)) == ReserveLines(offers, products, store, wanted)
  {
    if wanted != [] {
      assert Holds(wanted)[..|wanted| - 1] == Holds(wanted[..|wanted| - 1]);
      HoldsReserve(offers, products, store, wanted[..|wanted| - 1]);
      hide ReserveLine;
    }
  }

  lemma {:induction false} TakesAdjust(offers: Offers, products: Products, how: Adjustment, store: Id, lines: seq<Line>)
    ensures RunPlan(offers, products, store, Takes(how, lines)) == Success((AdjustLines(how, offers, store, lines), []))
  {
    if lines != [] {
      assert Takes(how, lines)[..|lines| - 1] == Takes(how, lines[..|lines| - 1]);
      TakesAdjust(offers, products, how, store, lines[..|lines| - 1]);
      var plan, none: seq<Line> := Takes(how, lines), [];
      assert plan[|plan| - 1] == Take(how, lines[|lines| - 1]) && none + none == none;
      hide AdjustLine, Takes;
    }
  }

  /** A revision's one statement changes exactly what the request names of that offer. */
  lemma ReviseRevises(offers: Offers, products: Products, key: OfferKey,
        price: Option<int>, declared: Option<real>, status: Option<OfferStatus>)
    requires key in offers
    ensures var r, was := RunPlan(offers, products, key.0, [Revise(key.1, price, declared, status)]), offers[key];
      && (r.Success? <==>
            && Stocked(was.(price := if price.Some? then price.value else was.price,
                            declared := if declared.Some? then declared.value else was.declared))
            && (was.status == Archived ==> status.None? || status == Some(Archived)))
      && (r.Success? ==>
            r.value == (offers[key := Offer(if price.Some? then price.value else was.price,
                                            if declared.Some? then declared.value else was.declared,
                                            was.reserved, if status.Some? then status.value else was.status)], []))
  {
    var op := Revise(key.1, price, declared, status);
    assert [op][..0] == [];
    assert RunPlan(offers, products, key.0, []) == Success((offers, []));
    var none: seq<Line> := [];
    assert none + none == none && key == (key.0, key.1);
  }

  // ---- one transaction after another ----

  /** The transactions run one at a time, in this order; nothing if one of them ends differently. */
  function Serial(offers: Offers, products: Products, ended: seq<Ended>): Option<Offers> {
    if ended == [] then Some(offers)
    else
      var last := ended[|ended| - 1];
      match Serial(offers, products, ended[..|ended| - 1])
      case None => None
      case Some(before) =>
        match RunPlan(before, products, last.store, last.plan)
        case Failure(_) => if last.quote.None? then Some(before) else None
        case Success(r) => if last.quote == Some(r.1) then Some(r.0) else None
  }

  // ---- a plan touches its own offers only ----

  predicate Agree(a: Offers, b: Offers, key: OfferKey) {
    (key in a <==> key in b) && (key in a ==> a[key] == b[key])
  }

  predicate AgreeOn(a: Offers, b: Offers, store: Id, plan: seq<Op>) {
    forall op | op in plan :: Agree(a, b, (store, ProductOf(op)))
  }

  predicate Touches(store: Id, plan: seq<Op>, key: OfferKey) {
    key.0 == store && exists op | op in plan :: ProductOf(op) == key.1
  }

  lemma TouchesGrows(store: Id, plan: seq<Op>, op: Op, key: OfferKey)
    ensures Touches(store, plan + [op], key) <==> Touches(store, plan, key) || key == (store, ProductOf(op))
  {
    if Touches(store, plan, key) {
      var x :| x in plan && ProductOf(x) == key.1;
      assert x in plan + [op];
    }
    assert op in plan + [op];
  }

  lemma OpFrame(a: Offers, b: Offers, products: Products, store: Id, op: Op)
    requires Agree(a, b, (store, ProductOf(op)))
    ensures var x, y := DoOp(a, products, store, op), DoOp(b, products, store, op);
      && (x.Success? <==> y.Success?)
      && (x.Success? ==>
            && x.value.1 == y.value.1
            && Agree(x.value.0, y.value.0, (store, ProductOf(op)))
            && (forall key :: key != (store, ProductOf(op)) ==> Agree(x.value.0, a, key) && Agree(y.value.0, b, key)))
  {
  }

  /** Where two catalogues agree on a plan's offers, the plan does the same in both, and nothing else. */
  lemma {:induction false} PlanFrame(a: Offers, b: Offers, products: Products, store: Id, plan: seq<Op>)
    requires AgreeOn(a, b, store, plan)
    ensures var x, y := RunPlan(a, products, store, plan), RunPlan(b, products, store, plan);
      && (x.Success? <==> y.Success?)
      && (x.Success? ==>
            && x.value.1 == y.value.1 && AgreeOn(x.value.0, y.value.0, store, plan)
            && (forall key :: !Touches(store, plan, key) ==> Agree(x.value.0, a, key))
            && (forall key :: !Touches(store, plan, key) ==> Agree(y.value.0, b, key)))
  {
    if plan != [] {
      var rest, last := plan[..|plan| - 1], plan[|plan| - 1];
      assert plan == rest + [last];
      PlanFrame(a, b, products, store, rest);
      var x, y := RunPlan(a, products, store, rest), RunPlan(b, products, store, rest);
      if x.Success? {
        var key := (store, ProductOf(last));
        assert Agree(x.value.0, y.value.0, key) by {
          if Touches(store, rest, key) {
            var w :| w in rest && ProductOf(w) == key.1;
            assert Agree(x.value.0, y.value.0, (store, ProductOf(w)));
          } else {
            assert Agree(a, b, (store, ProductOf(last)));
          }
        }
        OpFrame(x.value.0, y.value.0, products, store, last);
        forall k: OfferKey | !Touches(store, plan, k) ensures !Touches(store, rest, k) && k != key {
          TouchesGrows(store, rest, last, k);
        }
        hide DoOp;
        var x', y' := DoOp(x.value.0, products, store, last), DoOp(y.value.0, products, store, last);
        if x'.Success? {
          forall w | w in plan ensures Agree(x'.value.0, y'.value.0, (store, ProductOf(w))) {
            if w in rest { assert Agree(x.value.0, y.value.0, (store, ProductOf(w))); }
          }
        }
      }
    }
  }

  lemma SameOffers(a: Offers, b: Offers)
    requires forall key: OfferKey :: Agree(a, b, key)
    ensures a == b
  {
    assert forall key: OfferKey :: Agree(a, b, key);
    assert a.Keys == b.Keys by {
      forall key | key in a ensures key in b { assert Agree(a, b, key); }
      forall key | key in b ensures key in a { assert Agree(a, b, key); }
    }
    forall key | key in a ensures a[key] == b[key] { assert Agree(a, b, key); }
  }

  // ---- what every reachable state satisfies ----

  /** The statements that matched a row. */
  function Kept(plan: seq<Op>, missed: set<Id>): seq<Op> {
    if plan == [] then []
    else
      Kept(plan[..|plan| - 1], missed)
      + if ProductOf(plan[|plan| - 1]) in missed then [] else [plan[|plan| - 1]]
  }

  predicate SortedPlan(plan: seq<Op>) {
    forall i, j :: 0 <= i < j < |plan| ==> ProductOf(plan[i]) <= ProductOf(plan[j])
  }

  /** Adjustments only, one for each product. */
  predicate Adjusting(plan: seq<Op>) {
    && (forall op | op in plan :: op.Take? && op.line.qty > 0.0)
    && forall i, j :: 0 <= i < j < |plan| ==> ProductOf(plan[i]) < ProductOf(plan[j])
  }

  /** Only adjustments miss, and what was missed is behind. */
  predicate PlanOk(t: Tx) {
    && t.done <= |t.plan| && SortedPlan(t.plan)
    && (if Adjusting(t.plan) then forall p | p in t.missed :: exists i :: 0 <= i < t.done && ProductOf(t.plan[i]) == p
        else t.missed == {} && forall op | op in t.plan :: !op.Take?)
  }

  function DonePlan(t: Tx): seq<Op>
    requires t.done <= |t.plan|
  {
    Kept(t.plan[..t.done], t.missed)
  }

  ghost predicate LocksItsOps(t: Tx)
    requires t.done <= |t.plan|
  {
    forall key: OfferKey :: key in t.locked <==> Touches(t.store, DonePlan(t), key)
  }

  /** A transaction so far is its matching statements run on the committed offers, and has locked exactly
      their offers. */
  ghost predicate TxOk(offers: Offers, products: Products, t: Tx) {
    && PlanOk(t) && LocksItsOps(t)
    && (forall key | key in t.locked :: key in offers)
    && RunPlan(offers, products, t.store, DonePlan(t)) == Success((offers + t.locked, t.lines))
  }

  ghost predicate Inv(s: System) {
    && (forall tx | tx in s.open_ :: TxOk(s.offers, s.products, s.open_[tx]))
    && (forall a, b | a in s.open_ && b in s.open_ && a != b :: s.open_[a].locked.Keys !! s.open_[b].locked.Keys)
  }

  lemma {:induction false} KeptAll(plan: seq<Op>)
    ensures Kept(plan, {}) == plan
  {
    if plan != [] {
      KeptAll(plan[..|plan| - 1]);
      assert plan == plan[..|plan| - 1] + [plan[|plan| - 1]];
    }
  }

  lemma {:induction false} KeptIsPart(plan: seq<Op>, missed: set<Id>)
    ensures forall op :: op in Kept(plan, missed) <==> op in plan && ProductOf(op) !in missed
  {
    if plan != [] {
      KeptIsPart(plan[..|plan| - 1], missed);
      assert plan == plan[..|plan| - 1] + [plan[|plan| - 1]];
    }
  }

  lemma {:induction false} KeptWithout(plan: seq<Op>, missed: set<Id>, product: Id)
    requires forall op | op in plan :: ProductOf(op) != product
    ensures Kept(plan, missed + {product}) == Kept(plan, missed)
  {
    if plan != [] {
      assert plan[|plan| - 1] in plan;
      KeptWithout(plan[..|plan| - 1], missed, product);
    }
  }

  /** The next statement's product is not among the missed ones. */
  lemma NextIsNew(t: Tx)
    requires PlanOk(t) && HasOp(t)
    ensures ProductOf(t.plan[t.done]) !in t.missed
    ensures Adjusting(t.plan) ==> forall op | op in t.plan[..t.done] :: ProductOf(op) != ProductOf(t.plan[t.done])
  {
  }

  lemma OneMoreKept(t: Tx)
    requires PlanOk(t) && HasOp(t)
    ensures Kept(t.plan[..t.done + 1], t.missed) == DonePlan(t) + [t.plan[t.done]]
  {
    NextIsNew(t);
    assert t.plan[..t.done + 1][..t.done] == t.plan[..t.done];
  }

  lemma OneMoreMissed(t: Tx)
    requires PlanOk(t) && HasOp(t) && Adjusting(t.plan)
    ensures Kept(t.plan[..t.done + 1], t.missed + {ProductOf(t.plan[t.done])}) == DonePlan(t)
  {
    NextIsNew(t);
    assert t.plan[..t.done + 1][..t.done] == t.plan[..t.done];
    KeptWithout(t.plan[..t.done], t.missed, ProductOf(t.plan[t.done]));
  }

  lemma MissKeepsTx(offers: Offers, products: Products, t: Tx)
    requires TxOk(offers, products, t) && HasOp(t) && t.plan[t.done].Take?
    ensures TxOk(offers, products, t.(done := t.done + 1, missed := t.missed + {ProductOf(t.plan[t.done])}))
  {
    var t' := t.(done := t.done + 1, missed := t.missed + {ProductOf(t.plan[t.done])});
    assert t.plan[t.done] in t.plan;
    OneMoreMissed(t);
    hide Kept, RunPlan, Touches;
    assert DonePlan(t') == DonePlan(t);
    assert PlanOk(t') by {
      forall p | p in t'.missed ensures exists i :: 0 <= i < t'.done && ProductOf(t'.plan[i]) == p {
        if p in t.missed {
          var i :| 0 <= i < t.done && ProductOf(t.plan[i]) == p;
          assert ProductOf(t'.plan[i]) == p;
        } else {
          assert ProductOf(t'.plan[t.done]) == p;
        }
      }
    }
  }

  lemma OneMoreRun(offers: Offers, products: Products, t: Tx)
    requires TxOk(offers, products, t) && HasOp(t)
    ensures var r := DoOp(offers + t.locked, products, t.store, t.plan[t.done]);
      RunPlan(offers, products, t.store, Kept(t.plan[..t.done + 1], t.missed))
        == if r.Failure? then Failure(r.error) else Success((r.value.0, t.lines + r.value.1))
  {
    OneMoreKept(t);
    var plan := DonePlan(t) + [t.plan[t.done]];
    assert plan[..|plan| - 1] == DonePlan(t);
    hide DoOp, Kept, PlanOk, LocksItsOps;
  }

  lemma OneMoreLock(t: Tx, offer: Offer)
    requires PlanOk(t) && HasOp(t) && LocksItsOps(t)
    ensures LocksItsOps(t.(done := t.done + 1, locked := t.locked[NextKey(t) := offer]))
  {
    OneMoreKept(t);
    forall key: OfferKey ensures Touches(t.store, DonePlan(t) + [t.plan[t.done]], key) <==> key in t.locked || key == NextKey(t) {
      TouchesGrows(t.store, DonePlan(t), t.plan[t.done], key);
    }
    hide Kept, Touches;
  }

  lemma MoreDone(t: Tx, locked: Offers, lines: seq<Line>)
    requires PlanOk(t) && HasOp(t)
    ensures PlanOk(t.(done := t.done + 1, locked := locked, lines := lines))
  {
    hide SortedPlan;
    forall p | p in t.missed && Adjusting(t.plan) ensures exists i :: 0 <= i < t.done + 1 && ProductOf(t.plan[i]) == p {
      var i :| 0 <= i < t.done && ProductOf(t.plan[i]) == p;
      assert i < t.done + 1;
    }
  }

  lemma OneMoreUpdate(offers: Offers, locked: Offers, key: OfferKey, offer: Offer)
    ensures (offers + locked)[key := offer] == offers + locked[key := offer]
  {
  }

  lemma SameLocks(t: Tx, lines: seq<Line>)
    requires t.done <= |t.plan| && LocksItsOps(t)
    ensures LocksItsOps(t.(lines := lines))
  {
    hide Touches;
    assert DonePlan(t.(lines := lines)) == DonePlan(t);
  }

  lemma UpdateKeepsTx(offers: Offers, products: Products, t: Tx)
    requires TxOk(offers, products, t) && HasOp(t)
    requires t.plan[t.done].Take? ==> Fits(offers + t.locked, t.store, t.plan[t.done].line)
    requires DoOp(offers + t.locked, products, t.store, t.plan[t.done]).Success?
    ensures var r := DoOp(offers + t.locked, products, t.store, t.plan[t.done]).value;
      && NextKey(t) in r.0
      && TxOk(offers, products, t.(done := t.done + 1, locked := t.locked[NextKey(t) := r.0[NextKey(t)]], lines := t.lines + r.1))
  {
    var r, key := DoOp(offers + t.locked, products, t.store, t.plan[t.done]).value, NextKey(t);
    OpLocks(offers + t.locked, products, t.store, t.plan[t.done]);
    OneMoreRun(offers, products, t);
    OneMoreLock(t, r.0[key]);
    MoreDone(t, t.locked[key := r.0[key]], t.lines + r.1);
    OneMoreUpdate(offers, t.locked, key, r.0[key]);
    SameLocks(t.(done := t.done + 1, locked := t.locked[key := r.0[key]]), t.lines + r.1);
    hide DoOp, RunPlan, LocksItsOps, PlanOk, Kept, Fits;
  }

  /** A plan that fails on a prefix fails. */
  lemma {:induction false} PrefixFails(offers: Offers, products: Products, store: Id, plan: seq<Op>, n: nat)
    requires n <= |plan| && RunPlan(offers, products, store, plan[..n]).Failure?
    ensures RunPlan(offers, products, store, plan).Failure?
  {
    if n < |plan| {
      assert plan[..|plan| - 1][..n] == plan[..n];
      PrefixFails(offers, products, store, plan[..|plan| - 1], n);
    } else {
      assert plan[..n] == plan;
    }
  }

  lemma CommittedElsewhere(offers: Offers, t: Tx, committed: Offers)
    requires t.done <= |t.plan| && LocksItsOps(t) && t.locked.Keys !! committed.Keys
    ensures AgreeOn(offers, offers + committed, t.store, DonePlan(t))
  {
    forall op | op in DonePlan(t) ensures Agree(offers, offers + committed, (t.store, ProductOf(op))) {
      assert Touches(t.store, DonePlan(t), (t.store, ProductOf(op)));
      assert (t.store, ProductOf(op)) in t.locked.Keys;
    }
  }

  /** Somebody else's commit changes none of the offers a transaction has locked. */
  lemma CommitKeepsTx(offers: Offers, products: Products, t: Tx, committed: Offers)
    requires TxOk(offers, products, t) && t.locked.Keys !! committed.Keys
    requires forall key | key in committed :: key in offers
    ensures TxOk(offers + committed, products, t)
  {
    var plan := DonePlan(t);
    var r := RunPlan(offers + committed, products, t.store, plan);
    hide RunPlan, PlanOk, DonePlan;
    CommittedElsewhere(offers, t, committed);
    PlanFrame(offers, offers + committed, products, t.store, plan);
    forall key: OfferKey ensures Agree(r.value.0, offers + committed + t.locked, key) {
      if Touches(t.store, plan, key) {
        var op :| op in plan && ProductOf(op) == key.1;
        assert Agree(offers + t.locked, r.value.0, (t.store, ProductOf(op)));
      }
    }
    hide Touches, Agree, LocksItsOps;
    SameOffers(r.value.0, offers + committed + t.locked);
  }

  lemma CommitKeepsTxs(s: System, tx: Id)
    requires Inv(s) && tx in s.open_
    ensures forall other | other in s.open_ && other != tx :: TxOk(s.offers + s.open_[tx].locked, s.products, s.open_[other])
  {
    assert forall key | key in s.open_[tx].locked :: key in s.offers by {
      assert TxOk(s.offers, s.products, s.open_[tx]);
    }
    hide TxOk;
    forall other | other in s.open_ && other != tx ensures TxOk(s.offers + s.open_[tx].locked, s.products, s.open_[other]) {
      CommitKeepsTx(s.offers, s.products, s.open_[other], s.open_[tx].locked);
    }
  }

  lemma OpenIsOk(offers: Offers, products: Products, store: Id, plan: seq<Op>)
    requires SortedPlan(plan) && (Adjusting(plan) || forall op | op in plan :: !op.Take?)
    ensures TxOk(offers, products, Tx(store, plan, 0, {}, map[], []))
  {
    assert plan[..0] == [];
    assert offers + map[] == offers;
  }

  lemma BegunPlan(step: Step)
    requires step.Reserve? || (step.Adjust? && StoredLines(step.lines))
    ensures step.Reserve? ==>
      SortedPlan(Holds(SortByProduct(step.request))) && forall op | op in Holds(SortByProduct(step.request)) :: !op.Take?
    ensures step.Adjust? ==> SortedPlan(Takes(step.how, step.lines)) && Adjusting(Takes(step.how, step.lines))
  {
    if step.Reserve? { SortByProductSorts(step.request); }
  }

  lemma NextKeepsInv(s: System, step: Step)
    requires Inv(s) && Enabled(s, step)
    ensures Inv(Next(s, step))
  {
    hide TxOk, SortByProduct, Holds, Takes, DoOp, Fits, MatchesNone;
    match step
    case Reserve(tx, store, request) =>
      BegunPlan(step);
      OpenIsOk(s.offers, s.products, store, Holds(SortByProduct(request)));
    case Adjust(tx, how, store, lines) =>
      BegunPlan(step);
      OpenIsOk(s.offers, s.products, store, Takes(how, lines));
    case ReviseOne(tx, key, price, declared, status) =>
      OpenIsOk(s.offers, s.products, key.0, [Revise(key.1, price, declared, status)]);
    case Do(tx) => DoKeepsInv(s, tx);
    case Commit(tx) => CommitKeepsTxs(s, tx);
    case Abort(tx) =>
  }

  lemma OneTxKeepsInv(s: System, tx: Id, t: Tx)
    requires Inv(s) && TxOk(s.offers, s.products, t)
    requires forall other | other in s.open_ && other != tx :: t.locked.Keys !! s.open_[other].locked.Keys
    ensures Inv(s.(open_ := s.open_[tx := t]))
  {
    hide TxOk;
  }

  lemma DoKeepsInv(s: System, tx: Id)
    requires Inv(s) && Enabled(s, Do(tx))
    ensures Inv(Done(s, tx))
  {
    var t := s.open_[tx];
    var op := t.plan[t.done];
    hide DoOp, Fits, MatchesNone, TxOk, Inv, View;
    if op.Take? && !Fits(View(s, t), t.store, op.line) {
      MissKeepsInv(s, tx);
    } else if DoOp(View(s, t), s.products, t.store, op).Success? {
      UpdateKeepsInv(s, tx);
    } else {
      LeavingKeepsInv(s, tx, s.ended + [Ended(t.store, t.plan, None)]);
    }
  }

  lemma LeavingKeepsInv(s: System, tx: Id, ended: seq<Ended>)
    requires Inv(s)
    ensures Inv(s.(open_ := s.open_ - {tx}, ended := ended))
  {
    hide TxOk;
  }

  lemma MissKeepsInv(s: System, tx: Id)
    requires Inv(s) && Enabled(s, Do(tx))
    requires var t := s.open_[tx]; t.plan[t.done].Take? && !Fits(View(s, t), t.store, t.plan[t.done].line)
    ensures Inv(Done(s, tx))
  {
    var t := s.open_[tx];
    hide DoOp, Fits, MatchesNone, TxOk;
    MissKeepsTx(s.offers, s.products, t);
    OneTxKeepsInv(s, tx, t.(done := t.done + 1, missed := t.missed + {t.plan[t.done].line.product}));
  }

  lemma UpdateKeepsInv(s: System, tx: Id)
    requires Inv(s) && Enabled(s, Do(tx))
    requires var t := s.open_[tx];
             var op := t.plan[t.done];
             DoOp(View(s, t), s.products, t.store, op).Success? && (op.Take? ==> Fits(View(s, t), t.store, op.line))
    ensures Inv(Done(s, tx))
  {
    var t := s.open_[tx];
    var op := t.plan[t.done];
    hide DoOp, Fits, MatchesNone, TxOk;
    SuccessMatches(View(s, t), s.products, t.store, op);
    UpdateKeepsTx(s.offers, s.products, t);
    var r := DoOp(View(s, t), s.products, t.store, op).value;
    OneTxKeepsInv(s, tx, t.(done := t.done + 1, locked := t.locked[NextKey(t) := r.0[NextKey(t)]], lines := t.lines + r.1));
  }

  /** A statement that goes through matched a row, so it has the lock. */
  lemma SuccessMatches(offers: Offers, products: Products, store: Id, op: Op)
    requires DoOp(offers, products, store, op).Success? && (op.Take? ==> Fits(offers, store, op.line))
    ensures !MatchesNone(offers, products, store, op)
  {
  }

  // ---- serial, and exactly when ----

  ghost predicate Serializable(s: System, offers: Offers) { Serial(offers, s.products, s.ended) == Some(s.offers) }

  /** The commit of a transaction that missed an adjustment which would now find its quantity. */
  predicate LateFit(s: System, step: Step) {
    && step.Commit? && Enabled(s, step)
    && exists op | op in s.open_[step.tx].plan ::
         op.Take? && op.line.product in s.open_[step.tx].missed && Fits(s.offers, s.open_[step.tx].store, op.line)
  }

  /** What a plan of adjustments does to one of its offers. */
  lemma {:induction false} TakenAt(offers: Offers, products: Products, store: Id, plan: seq<Op>, op: Op)
    requires Adjusting(plan) && op in plan
    ensures RunPlan(offers, products, store, plan).Success?
    ensures Agree(RunPlan(offers, products, store, plan).value.0, AdjustLine(op.how, offers, store, op.line), (store, op.line.product))
  {
    var rest, last := plan[..|plan| - 1], plan[|plan| - 1];
    assert plan == rest + [last];
    TakesSucceed(offers, products, store, rest);
    LastTake(offers, products, store, plan);
    var before, key := RunPlan(offers, products, store, rest).value.0, (store, op.line.product);
    hide RunPlan, AdjustLine;
    if op == last {
      PlanElsewhere(offers, products, store, rest, key);
      OpFrame(before, offers, products, store, op);
    } else {
      assert op in rest;
      TakenAt(offers, products, store, rest, op);
      assert ProductOf(last) != ProductOf(op) by {
        var i :| 0 <= i < |rest| && rest[i] == op;
        assert plan[i] == op;
      }
      assert AgreeOn(before, before, store, [last]);
      OpFrame(before, before, products, store, last);
    }
  }

  lemma LastTake(offers: Offers, products: Products, store: Id, plan: seq<Op>)
    requires plan != [] && plan[|plan| - 1].Take? && RunPlan(offers, products, store, plan[..|plan| - 1]).Success?
    ensures var before, last := RunPlan(offers, products, store, plan[..|plan| - 1]).value, plan[|plan| - 1];
      RunPlan(offers, products, store, plan) == Success((AdjustLine(last.how, before.0, store, last.line), before.1 + []))
  {
    hide AdjustLine;
  }

  /** A plan leaves an offer it does not touch. */
  lemma PlanElsewhere(offers: Offers, products: Products, store: Id, plan: seq<Op>, key: OfferKey)
    requires RunPlan(offers, products, store, plan).Success? && !Touches(store, plan, key)
    ensures Agree(RunPlan(offers, products, store, plan).value.0, offers, key)
  {
    hide RunPlan;
    assert AgreeOn(offers, offers, store, plan);
    PlanFrame(offers, offers, products, store, plan);
  }

  lemma {:induction false} TakesSucceed(offers: Offers, products: Products, store: Id, plan: seq<Op>)
    requires forall op | op in plan :: op.Take?
    ensures RunPlan(offers, products, store, plan).Success? && RunPlan(offers, products, store, plan).value.1 == []
  {
    if plan != [] {
      assert plan[|plan| - 1] in plan;
      TakesSucceed(offers, products, store, plan[..|plan| - 1]);
    }
  }

  /** If the missed adjustments still miss, leaving them out makes no difference. */
  lemma {:induction false} MissesDoNothing(offers: Offers, products: Products, store: Id, plan: seq<Op>, missed: set<Id>)
    requires Adjusting(plan)
    requires forall op | op in plan && ProductOf(op) in missed :: !Fits(offers, store, op.line)
    ensures RunPlan(offers, products, store, plan) == RunPlan(offers, products, store, Kept(plan, missed))
  {
    if plan != [] {
      var rest, last := plan[..|plan| - 1], plan[|plan| - 1];
      assert last in plan;
      MissesDoNothing(offers, products, store, rest, missed);
      TakesSucceed(offers, products, store, rest);
      LastTake(offers, products, store, plan);
      var kept := Kept(rest, missed);
      if ProductOf(last) in missed {
        var before := RunPlan(offers, products, store, rest).value;
        PlanElsewhere(offers, products, store, rest, (store, ProductOf(last)));
        hide RunPlan;
        assert Kept(plan, missed) == kept + [] == kept;
        assert AdjustLine(last.how, before.0, store, last.line) == before.0;
        assert before.1 + [] == before.1;
      } else {
        assert (kept + [last])[..|kept|] == kept;
        LastTake(offers, products, store, kept + [last]);
        hide RunPlan;
        assert Kept(plan, missed) == kept + [last];
      }
    }
  }

  lemma WholePlan(offers: Offers, products: Products, t: Tx)
    requires TxOk(offers, products, t) && !HasOp(t)
    ensures RunPlan(offers, products, t.store, Kept(t.plan, t.missed)) == Success((offers + t.locked, t.lines))
    ensures !Adjusting(t.plan) ==> Kept(t.plan, t.missed) == t.plan && t.missed == {}
    ensures forall op | op in t.plan && ProductOf(op) in t.missed :: (t.store, ProductOf(op)) !in t.locked
  {
    assert t.plan[..t.done] == t.plan;
    KeptAll(t.plan);
    KeptIsPart(t.plan, t.missed);
    hide RunPlan, Kept;
  }

  /** Run whole on the committed offers, a transaction about to commit ends as it does, exactly when no
      adjustment it missed would now find its quantity. */
  lemma CommitIsSerialIff(offers: Offers, products: Products, t: Tx)
    requires TxOk(offers, products, t) && !HasOp(t)
    ensures RunPlan(offers, products, t.store, t.plan) == Success((offers + t.locked, t.lines)) <==>
      forall op | op in t.plan && op.Take? && op.line.product in t.missed :: !Fits(offers, t.store, op.line)
  {
    WholePlan(offers, products, t);
    hide RunPlan, Kept, TxOk;
    if Adjusting(t.plan) {
      if forall op | op in t.plan && op.Take? && op.line.product in t.missed :: !Fits(offers, t.store, op.line) {
        MissesDoNothing(offers, products, t.store, t.plan, t.missed);
      } else {
        var op :| op in t.plan && op.Take? && op.line.product in t.missed && Fits(offers, t.store, op.line);
        TakenAt(offers, products, t.store, t.plan, op);
        var key := (t.store, op.line.product);
        assert op.line.qty > 0.0;
        assert key !in t.locked && (offers + t.locked)[key] == offers[key];
        assert AdjustLine(op.how, offers, t.store, op.line)[key].reserved < offers[key].reserved;
      }
    }
  }

  lemma RefusalIsSerial(s: System, tx: Id, offers: Offers)
    requires Inv(s) && Serializable(s, offers) && tx in s.open_ && HasOp(s.open_[tx])
    requires DoOp(View(s, s.open_[tx]), s.products, s.open_[tx].store, s.open_[tx].plan[s.open_[tx].done]).Failure?
    ensures Serializable(Done(s, tx), offers)
  {
    var t := s.open_[tx];
    var op := t.plan[t.done];
    assert TxOk(s.offers, s.products, t);
    assert op in t.plan && !op.Take?;
    OneMoreRun(s.offers, s.products, t);
    KeptAll(t.plan[..t.done + 1]);
    hide DoOp, RunPlan, Kept, LocksItsOps, Fits;
    assert t.missed == {};
    PrefixFails(s.offers, s.products, t.store, t.plan, t.done + 1);
    EndsAppend(offers, s.products, s.ended, Ended(t.store, t.plan, None));
  }

  lemma EndsAppend(offers: Offers, products: Products, ended: seq<Ended>, last: Ended)
    requires Serial(offers, products, ended).Some?
    ensures var before := Serial(offers, products, ended).value;
      Serial(offers, products, ended + [last]) ==
        match RunPlan(before, products, last.store, last.plan)
        case Failure(_) => if last.quote.None? then Some(before) else None
        case Success(r) => if last.quote == Some(r.1) then Some(r.0) else None
  {
    assert (ended + [last])[..|ended|] == ended;
    hide RunPlan;
  }

  lemma NextIsSerialIff(s: System, step: Step, offers: Offers)
    requires Inv(s) && Enabled(s, step) && Serializable(s, offers)
    ensures Serializable(Next(s, step), offers) <==> !LateFit(s, step)
  {
    if step.Do? {
      var t := s.open_[step.tx];
      if DoOp(View(s, t), s.products, t.store, t.plan[t.done]).Failure? { RefusalIsSerial(s, step.tx, offers); }
      hide Serial, Inv, DoOp, Fits;
    } else if step.Commit? {
      var t := s.open_[step.tx];
      assert TxOk(s.offers, s.products, t);
      hide Inv, TxOk, RunPlan, Serial, Fits;
      CommitIsSerialIff(s.offers, s.products, t);
      EndsAppend(offers, s.products, s.ended, Ended(t.store, t.plan, Some(t.lines)));
    } else {
      hide Serial, Inv, Holds, Takes, SortByProduct;
    }
  }

  lemma NextKeepsProducts(s: System, step: Step)
    requires Enabled(s, step)
    ensures Next(s, step).products == s.products
  {
    hide DoOp, Fits, Holds, Takes, SortByProduct, Unblocked;
  }

  lemma {:induction false} RunKeepsInv(offers: Offers, products: Products, steps: seq<Step>)
    ensures Inv(Run(Start(offers, products), steps)) && Run(Start(offers, products), steps).products == products
  {
    if steps != [] {
      hide Inv, Enabled, Next;
      RunKeepsInv(offers, products, steps[..|steps| - 1]);
      var before := Run(Start(offers, products), steps[..|steps| - 1]);
      if Enabled(before, steps[|steps| - 1]) {
        NextKeepsInv(before, steps[|steps| - 1]);
        NextKeepsProducts(before, steps[|steps| - 1]);
      }
    }
  }

  ghost predicate SerialThroughout(offers: Offers, products: Products, steps: seq<Step>) {
    forall k :: 0 <= k <= |steps| ==> Serializable(Run(Start(offers, products), steps[..k]), offers)
  }

  ghost predicate LateFits(offers: Offers, products: Products, steps: seq<Step>) {
    exists k :: 0 <= k < |steps| && LateFit(Run(Start(offers, products), steps[..k]), steps[k])
  }

  /** In any interleaving: after every step the committed offers, and every quote and refusal so far, are
      those of the same transactions run one after another in the order in which they ended, exactly when
      none commits with a missed adjustment that would by then find its quantity. */
  lemma {:induction false} RunIsSerialIff(offers: Offers, products: Products, steps: seq<Step>)
    ensures SerialThroughout(offers, products, steps) <==> !LateFits(offers, products, steps)
  {
    hide Inv, LateFit, Next, Serializable, Enabled, Run;
    if steps == [] {
      StartIsSerial(offers, products);
      assert steps[..0] == [];
    } else {
      var before, last := steps[..|steps| - 1], steps[|steps| - 1];
      RunIsSerialIff(offers, products, before);
      RunKeepsInv(offers, products, before);
      ThroughoutGrows(offers, products, steps);
      hide SerialThroughout, LateFits;
      var s := Run(Start(offers, products), before);
      if Serializable(s, offers) {
        StepIsSerialIff(s, last, offers);
        LastStep(offers, products, steps);
      }
    }
  }

  lemma LastStep(offers: Offers, products: Products, steps: seq<Step>)
    requires steps != []
    ensures var before, last := Run(Start(offers, products), steps[..|steps| - 1]), steps[|steps| - 1];
      Run(Start(offers, products), steps) == if Enabled(before, last) then Next(before, last) else before
  {
    hide Enabled, Next;
  }

  lemma ThroughoutGrows(offers: Offers, products: Products, steps: seq<Step>)
    requires steps != []
    ensures var before := steps[..|steps| - 1];
      && (SerialThroughout(offers, products, steps) <==>
            SerialThroughout(offers, products, before) && Serializable(Run(Start(offers, products), steps), offers))
      && (LateFits(offers, products, steps) <==>
            LateFits(offers, products, before) || LateFit(Run(Start(offers, products), before), steps[|steps| - 1]))
      && (SerialThroughout(offers, products, before) ==> Serializable(Run(Start(offers, products), before), offers))
  {
    hide LateFit, Serializable, Run;
    var before := steps[..|steps| - 1];
    assert forall k :: 0 <= k <= |before| ==> before[..k] == steps[..k];
    assert before[..|before|] == before;
    assert steps[..|steps|] == steps;
  }

  lemma StartIsSerial(offers: Offers, products: Products)
    ensures Serializable(Run(Start(offers, products), []), offers)
  {
  }

  lemma StepIsSerialIff(s: System, step: Step, offers: Offers)
    requires Inv(s) && Serializable(s, offers)
    ensures Serializable(if Enabled(s, step) then Next(s, step) else s, offers) <==> !LateFit(s, step)
  {
    hide Inv, Next, Serializable, Enabled;
    if Enabled(s, step) { NextIsSerialIff(s, step, offers); }
  }

  /** Reservations and revisions alone miss nothing, so they are always serial. */
  lemma {:induction false} NothingMissed(offers: Offers, products: Products, steps: seq<Step>)
    requires forall k :: 0 <= k < |steps| ==> !steps[k].Adjust?
    ensures forall tx | tx in Run(Start(offers, products), steps).open_ ::
      forall op | op in Run(Start(offers, products), steps).open_[tx].plan :: !op.Take?
  {
    if steps != [] {
      hide DoOp, Fits, SortByProduct, Unblocked;
      NothingMissed(offers, products, steps[..|steps| - 1]);
    }
  }

  lemma RunWithoutAdjustmentsIsSerial(offers: Offers, products: Products, steps: seq<Step>)
    requires forall k :: 0 <= k < |steps| ==> !steps[k].Adjust?
    ensures SerialThroughout(offers, products, steps)
  {
    RunIsSerialIff(offers, products, steps);
    forall k | 0 <= k < |steps| ensures !LateFit(Run(Start(offers, products), steps[..k]), steps[k]) {
      NothingMissed(offers, products, steps[..k]);
      hide Run, Fits;
    }
    hide SerialThroughout;
  }

  // ---- a late fit, from the start ----

  lemma {:induction false} RunHead(s: System, step: Step, rest: seq<Step>)
    requires Enabled(s, step)
    ensures Run(s, [step] + rest) == Run(Next(s, step), rest)
  {
    hide Next, Enabled;
    if rest == [] {
      assert [step] + rest == [step] && [step][..0] == [];
    } else {
      RunHead(s, step, rest[..|rest| - 1]);
      assert ([step] + rest)[..|rest|] == [step] + rest[..|rest| - 1];
    }
  }

  /** A reservation of more than the offer holds now, and a release of as much beside it. */
  function Beside(a: Id, b: Id, store: Id, w: Wanted, line: Line): seq<Step> {
    [Reserve(a, store, [w])] + ([Do(a)] + ([Adjust(b, Release, store, [line])] + ([Do(b)] + [Commit(a)])))
  }

  predicate Sells(offers: Offers, products: Products, store: Id, w: Wanted) {
    && (store, w.product) in offers && w.product in products && products[w.product].active
    && offers[(store, w.product)].status == Published
    && 0.0 <= offers[(store, w.product)].reserved < w.qty <= offers[(store, w.product)].declared - offers[(store, w.product)].reserved
    && ReserveLine(offers, products, store, w).Success?
  }

  lemma ReserveFirst(offers: Offers, products: Products, a: Id, store: Id, w: Wanted)
    requires Sells(offers, products, store, w)
    ensures Enabled(Start(offers, products), Reserve(a, store, [w]))
    ensures var s1 := Next(Start(offers, products), Reserve(a, store, [w]));
      && Enabled(s1, Do(a))
      && var s2, offer := Next(s1, Do(a)), offers[(store, w.product)];
         && s2.offers == offers && s2.products == products && s2.ended == [] && s2.open_.Keys == {a}
         && s2.open_[a].store == store && !HasOp(s2.open_[a])
         && s2.open_[a].locked == map[(store, w.product) := offer.(reserved := offer.reserved + w.qty)]
  {
    assert [w][..0] == [];
    assert SortByProduct([w]) == [w];
    assert Holds([w]) == [Hold(w)];
    hide SortByProduct, Holds;
    assert offers + map[] == offers;
    var s1 := Next(Start(offers, products), Reserve(a, store, [w]));
    assert LockFree(s1, a, (store, w.product));
  }

  /** Beside the open reservation, a release of as much misses, and is done before the reservation commits. */
  lemma ReleaseMisses(s: System, a: Id, b: Id, store: Id, line: Line, offer: Offer)
    requires a != b && s.open_.Keys == {a} && !HasOp(s.open_[a]) && s.open_[a].locked == map[(store, line.product) := offer]
    requires line.qty > 0.0 && !Fits(s.offers, store, line) && offer.reserved >= line.qty
    ensures Enabled(s, Adjust(b, Release, store, [line]))
    ensures var s1 := Next(s, Adjust(b, Release, store, [line]));
      && Enabled(s1, Do(b))
      && var s2 := Next(s1, Do(b));
         && Enabled(s2, Commit(a))
         && LateFit(Next(s2, Commit(a)), Commit(b))
  {
    assert Takes(Release, [line]) == [Take(Release, line)];
    hide Takes, DoOp, Holds, SortByProduct;
    var s1 := Next(s, Adjust(b, Release, store, [line]));
    assert s1.offers + s1.open_[b].locked == s.offers;
    var s2 := Next(s1, Do(b));
    var s3 := Next(s2, Commit(a));
    assert Take(Release, line) in s3.open_[b].plan;
    assert s3.offers[(store, line.product)] == offer;
  }

  /** From the start: the release finds nothing to take and waits for nobody, the reservation commits, and
      the release commits with its quantity now there. In the order they ended it would have taken it. */
  lemma LateFitIsReachable(offers: Offers, products: Products, a: Id, b: Id, store: Id, w: Wanted, line: Line)
    requires a != b && Sells(offers, products, store, w) && line.product == w.product && line.qty == w.qty
    ensures var steps := Beside(a, b, store, w, line) + [Commit(b)];
      && LateFits(offers, products, steps) && !SerialThroughout(offers, products, steps)
  {
    var s0, offer := Start(offers, products), offers[(store, w.product)];
    ReserveFirst(offers, products, a, store, w);
    assert line.qty > 0.0 && !Fits(offers, store, line);
    hide Next, Enabled, Sells, LateFit, Fits;
    var s1 := Next(s0, Reserve(a, store, [w]));
    var s2 := Next(s1, Do(a));
    ReleaseMisses(s2, a, b, store, line, offer.(reserved := offer.reserved + w.qty));
    var s3 := Next(s2, Adjust(b, Release, store, [line]));
    var s4 := Next(s3, Do(b));
    var s5 := Next(s4, Commit(a));
    var t4 := [Commit(a)];
    var t3 := [Do(b)] + t4;
    var t2 := [Adjust(b, Release, store, [line])] + t3;
    var t1 := [Do(a)] + t2;
    RunHead(s0, Reserve(a, store, [w]), t1);
    RunHead(s1, Do(a), t2);
    RunHead(s2, Adjust(b, Release, store, [line]), t3);
    RunHead(s3, Do(b), t4);
    assert t4 == [Commit(a)] + [];
    RunHead(s4, Commit(a), []);
    RunNothing(s5);
    hide Run;
    var steps := Beside(a, b, store, w, line) + [Commit(b)];
    assert steps[..5] == Beside(a, b, store, w, line);
    assert LateFit(Run(s0, steps[..5]), steps[5]);
    RunIsSerialIff(offers, products, steps);
  }

  lemma RunNothing(s: System)
    ensures Run(s, []) == s
  {
  }

  // ---- no deadlock ----

  /** A transaction waits for another that has its next offer locked. */
  predicate WaitsFor(s: System, a: Id, b: Id) {
    && a in s.open_ && b in s.open_ && a != b
    && HasOp(s.open_[a]) && NextKey(s.open_[a]) in s.open_[b].locked
  }

  predicate CanStep(s: System, tx: Id) {
    Enabled(s, Do(tx)) || Enabled(s, Commit(tx))
  }

  function NextProduct(s: System, tx: Id): Id
    requires tx in s.open_ && HasOp(s.open_[tx])
  {
    ProductOf(s.open_[tx].plan[s.open_[tx].done])
  }

  /** What a transaction holds comes no later than what it touches next. */
  lemma HeldIsBehind(offers: Offers, products: Products, t: Tx, key: OfferKey)
    requires TxOk(offers, products, t) && HasOp(t) && key in t.locked
    ensures key.0 == t.store && key.1 <= NextKey(t).1
  {
    hide RunPlan;
    assert Touches(t.store, DonePlan(t), key);
    var op :| op in DonePlan(t) && ProductOf(op) == key.1;
    KeptIsPart(t.plan[..t.done], t.missed);
    var i :| 0 <= i < t.done && t.plan[i] == op;
    assert ProductOf(t.plan[i]) <= ProductOf(t.plan[t.done]);
  }

  lemma HeldIsFree(s: System, tx: Id, key: OfferKey)
    requires Inv(s) && tx in s.open_ && key in s.open_[tx].locked
    ensures LockFree(s, tx, key) && TxOk(s.offers, s.products, s.open_[tx])
  {
    hide TxOk;
  }

  /** The one waited for can go on, or is bound for a later product. */
  lemma WaitingAscends(s: System, a: Id, b: Id)
    requires Inv(s) && WaitsFor(s, a, b) && !CanStep(s, b)
    ensures HasOp(s.open_[b]) && NextProduct(s, a) < NextProduct(s, b)
  {
    hide Inv, TxOk, MatchesNone, LockFree;
    var key := NextKey(s.open_[a]);
    HeldIsFree(s, b, key);
    HeldIsBehind(s.offers, s.products, s.open_[b], key);
  }

  /** Blocked transactions that wait, each for the next, are bound for ever later products. */
  lemma {:induction false} ChainAscends(s: System, chain: seq<Id>)
    requires Inv(s) && |chain| >= 2 && forall i :: 0 <= i < |chain| - 1 ==> WaitsFor(s, chain[i], chain[i + 1])
    requires forall tx | tx in chain :: tx in s.open_ && !CanStep(s, tx)
    ensures HasOp(s.open_[chain[0]]) && HasOp(s.open_[chain[|chain| - 1]])
    ensures NextProduct(s, chain[0]) < NextProduct(s, chain[|chain| - 1])
  {
    hide Inv, CanStep;
    var n := |chain| - 1;
    assert chain[0] in chain && chain[n] in chain && chain[n - 1] in chain;
    assert WaitsFor(s, chain[n - 1], chain[n - 1 + 1]);
    WaitingAscends(s, chain[n - 1], chain[n]);
    if n > 1 { ChainAscends(s, chain[..n]); }
  }

  /** There is never a cycle of blocked transactions each waiting for the next. */
  lemma NoWaitCycle(s: System, chain: seq<Id>)
    requires Inv(s) && |chain| >= 2 && chain[0] == chain[|chain| - 1]
    requires forall i :: 0 <= i < |chain| - 1 ==> WaitsFor(s, chain[i], chain[i + 1])
    ensures exists tx | tx in chain :: CanStep(s, tx)
  {
    forall tx | tx in chain ensures tx in s.open_ {
      var i :| 0 <= i < |chain| && chain[i] == tx;
      if i > 0 { assert WaitsFor(s, chain[i - 1], chain[i - 1 + 1]); } else { assert WaitsFor(s, chain[0], chain[0 + 1]); }
    }
    hide Inv, CanStep;
    if forall tx | tx in chain :: !CanStep(s, tx) { ChainAscends(s, chain); }
  }

  /** A transaction bound for the latest product, among some that have a statement left. */
  lemma {:induction false} Furthest(s: System, among: set<Id>) returns (tx: Id)
    requires among != {} && forall a | a in among :: a in s.open_ && HasOp(s.open_[a])
    ensures tx in among && forall a | a in among :: NextProduct(s, a) <= NextProduct(s, tx)
    decreases |among|
  {
    tx :| tx in among;
    var rest := among - {tx};
    if rest != {} {
      var other := Furthest(s, rest);
      assert forall a | a in among :: a == tx || a in rest;
      if NextProduct(s, tx) < NextProduct(s, other) { tx := other; }
    }
  }

  /** While any transaction is open, one of them can go on. */
  lemma NeverStuck(s: System)
    requires Inv(s) && s.open_ != map[]
    ensures exists tx | tx in s.open_ :: CanStep(s, tx)
  {
    hide TxOk, MatchesNone;
    var waiting := set tx | tx in s.open_ && HasOp(s.open_[tx]);
    if waiting == {} {
      var tx :| tx in s.open_;
      assert tx !in waiting;
      assert CanStep(s, tx);
    } else {
      var a := Furthest(s, waiting);
      if !CanStep(s, a) {
        var b :| b in s.open_ && b != a && NextKey(s.open_[a]) in s.open_[b].locked;
        assert HasOp(s.open_[b]) ==> b in waiting;
        if !CanStep(s, b) { WaitingAscends(s, a, b); }
      }
    }
  }
}
