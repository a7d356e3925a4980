/** The founding allowance under concurrency: closing transactions lock their owner's ledger, count,
    insert and commit in any interleaving. */
module AllowanceLocks {
  import opened Base
  import opened OrderStore
  import opened OrderRuns

  datatype Request = Request(order: Id, owner: Id, base: int, rate: int, accrued: int, at: Time)

  /** How far a transaction is. `position` is the sequence number it reports to its caller. */
  datatype Phase =
    | Begun
    | Locked
    | Counted(completed: nat)
    | Inserted(row: LedgerRow, position: nat)

  datatype Tx = Tx(request: Request, phase: Phase)

  /** Committed rows with the position each was reported at, and the open transactions. */
  datatype System = System(ledger: seq<LedgerRow>, positions: seq<nat>, open_: map<Id, Tx>)

  datatype Step =
    | Begin(tx: Id, request: Request)
    | Lock(tx: Id)
    | Count(tx: Id)
    | Insert(tx: Id)
    | Commit(tx: Id)
    | Abort(tx: Id)

  predicate Admissible(r: Request) { r.base >= 0 && r.accrued >= 0 && r.rate >= 0 && r.accrued <= r.base }

  predicate HoldsLock(tx: Tx) { !tx.phase.Begun? }

  predicate LockFree(s: System, owner: Id) {
    forall other | other in s.open_ :: HoldsLock(s.open_[other]) ==> s.open_[other].request.owner != owner
  }

  /** The unique index makes an insert wait for another open transaction's row of the same order. */
  predicate OrderFree(s: System, order: Id) {
    forall other | other in s.open_ && s.open_[other].phase.Inserted? :: s.open_[other].phase.row.order != order
  }

  predicate Enabled(s: System, step: Step) {
    match step
    case Begin(tx, _) => tx !in s.open_
    case Lock(tx) => tx in s.open_ && s.open_[tx].phase.Begun?
                     && (Admissible(s.open_[tx].request) ==> LockFree(s, s.open_[tx].request.owner))
    case Count(tx) => tx in s.open_ && s.open_[tx].phase.Locked?
    case Insert(tx) => tx in s.open_ && s.open_[tx].phase.Counted? && OrderFree(s, s.open_[tx].request.order)
    case Commit(tx) => tx in s.open_ && s.open_[tx].phase.Inserted?
    case Abort(tx) => tx in s.open_
  }

  function RowFor(r: Request, completed: nat): LedgerRow {
    var discount := Discount(completed, r.accrued);
    LedgerRow(r.order, r.owner, r.base, r.rate, r.accrued, discount, r.accrued - discount, r.at)
  }

  function Next(s: System, step: Step): System
    requires Enabled(s, step)
  {
    match step
    case Begin(tx, request) => s.(open_ := s.open_[tx := Tx(request, Begun)])
    case Lock(tx) =>
      if Admissible(s.open_[tx].request) then s.(open_ := s.open_[tx := s.open_[tx].(phase := Locked)])
      else s.(open_ := s.open_ - {tx})
    case Count(tx) =>
      s.(open_ := s.open_[tx := s.open_[tx].(phase := Counted(OwnerCount(s.ledger, s.open_[tx].request.owner)))])
    case Insert(tx) =>
      var t := s.open_[tx];
      if Billed(s.ledger, t.request.order) then s.(open_ := s.open_ - {tx})
      else
        var n := t.phase.completed;
        s.(open_ := s.open_[tx := t.(phase := Inserted(RowFor(t.request, n), n + 1))])
    case Commit(tx) =>
      System(s.ledger + [s.open_[tx].phase.row], s.positions + [s.open_[tx].phase.position], s.open_ - {tx})
    case Abort(tx) => s.(open_ := s.open_ - {tx})
  }

  function Run(s: System, steps: seq<Step>): System {
    if steps == [] then s
    else
      var before := Run(s, steps[..|steps| - 1]);
      if Enabled(before, steps[|steps| - 1]) then Next(before, steps[|steps| - 1]) else before
  }

  // ---- what every reachable state satisfies ----

  predicate Positions(s: System) {
    && |s.positions| == |s.ledger|
    && forall k :: 0 <= k < |s.ledger| ==> s.positions[k] == OwnerCount(s.ledger[..k], s.ledger[k].owner) + 1
  }

  predicate RowsSound(ledger: seq<LedgerRow>) {
    && (forall k :: 0 <= k < |ledger| ==> 0 <= ledger[k].accrued <= ledger[k].base && ledger[k].rate >= 0)
    && (forall j, k :: 0 <= j < k < |ledger| ==> ledger[j].order != ledger[k].order)
  }

  predicate TxOk(ledger: seq<LedgerRow>, t: Tx) {
    match t.phase
    case Begun => true
    case Locked => Admissible(t.request)
    case Counted(n) => Admissible(t.request) && n == OwnerCount(ledger, t.request.owner)
    case Inserted(row, position) =>
      && Admissible(t.request) && row == RowFor(t.request, OwnerCount(ledger, t.request.owner))
      && position == OwnerCount(ledger, t.request.owner) + 1 && !Billed(ledger, t.request.order)
  }

  ghost predicate Inv(s: System) {
    && Allowance(s.ledger) && Positions(s) && RowsSound(s.ledger)
    && (forall tx | tx in s.open_ :: TxOk(s.ledger, s.open_[tx]))
    && (forall a, b | a in s.open_ && b in s.open_ && a != b && HoldsLock(s.open_[a]) && HoldsLock(s.open_[b]) ::
          s.open_[a].request.owner != s.open_[b].request.owner)
    && (forall a, b | a in s.open_ && b in s.open_ && a != b && s.open_[a].phase.Inserted? && s.open_[b].phase.Inserted? ::
          s.open_[a].request.order != s.open_[b].request.order)
  }

  lemma CountExtends(ledger: seq<LedgerRow>, row: LedgerRow, owner: Id)
    ensures OwnerCount(ledger + [row], owner) == OwnerCount(ledger, owner) + if row.owner == owner then 1 else 0
  {
    assert (ledger + [row])[..|ledger|] == ledger;
  }

  lemma LedgerExtends(s: System, row: LedgerRow, position: nat)
    requires Allowance(s.ledger) && Positions(s) && RowsSound(s.ledger)
    requires 0 <= row.accrued <= row.base && row.rate >= 0 && !Billed(s.ledger, row.order)
    requires row.discount == Discount(OwnerCount(s.ledger, row.owner), row.accrued) && row.payable == row.accrued - row.discount
    requires position == OwnerCount(s.ledger, row.owner) + 1
    ensures Allowance(s.ledger + [row]) && RowsSound(s.ledger + [row])
    ensures Positions(System(s.ledger + [row], s.positions + [position], s.open_))
  {
    var l := s.ledger + [row];
    assert forall k :: 0 <= k <= |s.ledger| ==> l[..k] == s.ledger[..k];
    assert s.ledger[..|s.ledger|] == s.ledger;
  }

  lemma CommitKeepsTxs(s: System, tx: Id)
    requires Inv(s) && tx in s.open_ && s.open_[tx].phase.Inserted?
    ensures forall other | other in s.open_ && other != tx :: TxOk(s.ledger + [s.open_[tx].phase.row], s.open_[other])
  {
    var row := s.open_[tx].phase.row;
    forall other | other in s.open_ && other != tx ensures TxOk(s.ledger + [row], s.open_[other]) {
      CountExtends(s.ledger, row, s.open_[other].request.owner);
      assert TxOk(s.ledger, s.open_[other]) && TxOk(s.ledger, s.open_[tx]);
      hide OwnerCount;
    }
  }

  lemma NextKeepsInv(s: System, step: Step)
    requires Inv(s) && Enabled(s, step)
    ensures Inv(Next(s, step))
  {
    hide OwnerCount, Allowance;
    match step
    case Commit(tx) =>
      hide Billed, RowsSound, Positions;
      assert TxOk(s.ledger, s.open_[tx]);
      LedgerExtends(s, s.open_[tx].phase.row, s.open_[tx].phase.position);
      CommitKeepsTxs(s, tx);
      hide TxOk;
    case _ =>
      hide Billed, RowsSound;
  }

  /** In every interleaving: the allowance holds, every commit was reported at its own position, and no
      order has two rows. */
  lemma {:induction false} RunKeepsInv(steps: seq<Step>)
    ensures Inv(Run(System([], [], map[]), steps))
  {
    if steps != [] {
      hide Inv, Enabled, Next;
      RunKeepsInv(steps[..|steps| - 1]);
      var before := Run(System([], [], map[]), steps[..|steps| - 1]);
      if Enabled(before, steps[|steps| - 1]) { NextKeepsInv(before, steps[|steps| - 1]); }
    } else {
      assert Inv(System([], [], map[]));
    }
  }

  // ---- read owner by owner ----

  function RowsOf(ledger: seq<LedgerRow>, owner: Id): seq<LedgerRow> {
    if ledger == [] then []
    else RowsOf(ledger[..|ledger| - 1], owner)
         + if ledger[|ledger| - 1].owner == owner then [ledger[|ledger| - 1]] else []
  }

  function PositionsOf(ledger: seq<LedgerRow>, positions: seq<nat>, owner: Id): seq<nat>
    requires |ledger| == |positions|
  {
    if ledger == [] then []
    else PositionsOf(ledger[..|ledger| - 1], positions[..|ledger| - 1], owner)
         + if ledger[|ledger| - 1].owner == owner then [positions[|ledger| - 1]] else []
  }

  lemma {:induction false} ReadByOwner(ledger: seq<LedgerRow>, positions: seq<nat>, owner: Id)
    requires Allowance(ledger) && Positions(System(ledger, positions, map[]))
    ensures var rows, ps := RowsOf(ledger, owner), PositionsOf(ledger, positions, owner);
      && |rows| == |ps| == OwnerCount(ledger, owner)
      && forall k :: 0 <= k < |rows| ==> (
           && ps[k] == k + 1 && rows[k].owner == owner
           && rows[k].discount == (if k < FOUNDING_FREE_ORDERS then rows[k].accrued else 0)
           && rows[k].accrued == rows[k].discount + rows[k].payable)
  {
    if ledger != [] {
      var n := |ledger| - 1;
      assert forall k :: 0 <= k <= n ==> ledger[..n][..k] == ledger[..k];
      ReadByOwner(ledger[..n], positions[..n], owner);
    }
  }

  /** For each owner, the committed rows were reported at positions 1, 2, ..., n; the first ten are free,
      the later ones payable in full. */
  lemma FirstTenAreFree(steps: seq<Step>, owner: Id)
    ensures var s := Run(System([], [], map[]), steps);
      && |s.positions| == |s.ledger|
      && var rows, ps := RowsOf(s.ledger, owner), PositionsOf(s.ledger, s.positions, owner);
         && |rows| == |ps| == OwnerCount(s.ledger, owner)
         && forall k :: 0 <= k < |rows| ==> (
              && ps[k] == k + 1
              && rows[k].discount == (if k < FOUNDING_FREE_ORDERS then rows[k].accrued else 0)
              && rows[k].accrued == rows[k].discount + rows[k].payable)
  {
    RunKeepsInv(steps);
    var s := Run(System([], [], map[]), steps);
    ReadByOwner(s.ledger, s.positions, owner);
  }

  // ---- whose rows they are ----

  /** What a row says of its request, whatever was counted. */
  predicate RowCarries(row: LedgerRow, r: Request) {
    row.order == r.order && row.owner == r.owner && row.base == r.base && row.rate == r.rate && row.accrued == r.accrued && row.at == r.at
  }

  predicate Asked(steps: seq<Step>, r: Request) { exists i :: 0 <= i < |steps| && steps[i].Begin? && steps[i].request == r }

  ghost predicate AllAsked(s: System, steps: seq<Step>) {
    && (forall tx | tx in s.open_ ::
          Asked(steps, s.open_[tx].request)
          && (s.open_[tx].phase.Inserted? ==> RowCarries(s.open_[tx].phase.row, s.open_[tx].request)))
    && (forall row | row in s.ledger :: exists r :: Asked(steps, r) && RowCarries(row, r))
  }

  lemma StillAsked(s: System, steps: seq<Step>, step: Step)
    requires AllAsked(s, steps)
    ensures AllAsked(s, steps + [step])
  {
    forall r | Asked(steps, r) ensures Asked(steps + [step], r) {
      var i :| 0 <= i < |steps| && steps[i].Begin? && steps[i].request == r;
      assert (steps + [step])[i] == steps[i];
    }
    hide Asked, RowCarries;
  }

  lemma NextAsked(s: System, steps: seq<Step>, step: Step)
    requires AllAsked(s, steps + [step]) && Enabled(s, step)
    ensures AllAsked(Next(s, step), steps + [step])
  {
    if step.Begin? { assert (steps + [step])[|steps|] == step; }
    hide OwnerCount, Billed;
  }

  /** In every interleaving each committed row is that of a request some transaction began with: its order, the
      owner it resolved, its amounts and its time. */
  lemma {:induction false} LedgerIsOfRequests(steps: seq<Step>)
    ensures AllAsked(Run(System([], [], map[]), steps), steps)
  {
    if steps != [] {
      var before, last := steps[..|steps| - 1], steps[|steps| - 1];
      assert steps == before + [last];
      hide AllAsked, Enabled, Next;
      LedgerIsOfRequests(before);
      var s := Run(System([], [], map[]), before);
      StillAsked(s, before, last);
      if Enabled(s, last) { NextAsked(s, before, last); }
    }
  }

  // ---- progress ----

  function StepOf(tx: Id, phase: Phase): Step {
    match phase
    case Begun => Lock(tx)
    case Locked => Count(tx)
    case Counted(_) => Insert(tx)
    case Inserted(_, _) => Commit(tx)
  }

  predicate CanStep(s: System, tx: Id)
    requires tx in s.open_
  {
    Enabled(s, StepOf(tx, s.open_[tx].phase))
  }

  /** Waiting for locks never ends in a deadlock: while a transaction is open, one can go on. */
  lemma NeverStuck(s: System)
    requires s.open_ != map[]
    ensures exists tx | tx in s.open_ :: CanStep(s, tx)
  {
    if a :| a in s.open_ && s.open_[a].phase.Inserted? {
      assert CanStep(s, a);
    } else if a :| a in s.open_ && s.open_[a].phase.Counted? {
      assert CanStep(s, a);
    } else if a :| a in s.open_ && s.open_[a].phase.Locked? {
      assert CanStep(s, a);
    } else {
      var a :| a in s.open_;
      assert CanStep(s, a);
    }
  }
}
