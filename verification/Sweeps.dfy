/** The background sweeps: loops over a listing, each row its own transactions. */
module Sweeps {
  import opened Base
  import opened OrderStatus
  import opened OrderFile
  import opened OrderStore
  import opened OrderRuns
  import opened OrderSafety
  import opened OrderInvariant
  import opened OrderEffects
  import opened OrderRepository

  datatype Due = Due(order: Id, dueAt: Time)

  /** The committed state, as a world in which these orders' refunds have been listed. */
  ghost function Seen(t: Tables, listed: set<Id>, cleared: set<Id>): World { World(t, listed, cleared) }

  class RefundSweeper {
    const repository: Repository

    constructor (repository: Repository)
      ensures this.repository == repository
    {
      this.repository := repository;
    }

    /** Module.RefundOverdue: an order that already moved on is not an error. */
    method RefundOverdue(id: Id, dueAt: Time, cmd: Command, ghost listed: set<Id>, ghost cleared: set<Id>) returns (done: bool)
      requires Inv(Seen(repository.committed, listed, cleared)) && id in listed
      modifies repository
      ensures done && Inv(Seen(repository.committed, listed, cleared + {id}))
      ensures repository.committed == old(repository.committed) || KeptBy(old(repository.committed), repository.committed, id)
    {
      hide Inv, KeptBy;
      ghost var w := Seen(repository.committed, listed, cleared);
      var r := repository.ApplyTrigger(OrderOverdueKey(id, dueAt), id, LapseRefund, cmd);
      if r.Success? {
        ApplyKeepsInv(w, OrderOverdueKey(id, dueAt), id, LapseRefund, cmd);
      } else {
        RefusalMeansLapsed(w, id, dueAt, cmd);
        LapseRefusals(w.t, id, dueAt, cmd);
      }
      ClearKeepsInv(Seen(repository.committed, listed, cleared), id);
      done := r.Success? || r.error in {Conflict, NotFound};
    }

    /** RunOnce, no statement failing: every listed refund ends overdue or confirmed. */
    method RunOnce(due: seq<Due>, cmd: Command, ghost listed: set<Id>, ghost cleared: set<Id>) returns (overdue: nat)
      requires Inv(Seen(repository.committed, listed, cleared))
      requires forall d | d in due :: d.order in listed
      modifies repository
      ensures exists now :: Inv(Seen(repository.committed, listed, now))
      ensures forall d | d in due :: Flipped(repository.committed, d.order)
      ensures forall id | id in old(repository.committed).files && (forall d | d in due :: d.order != id) ::
                SameFile(old(repository.committed), repository.committed, id)
      ensures overdue == |due|
    {
      hide Inv, KeptBy, Lapsed, Flipped, SameFile;
      overdue := 0;
      ghost var was := repository.committed;
      forall id | id in was.files ensures SameFile(was, was, id) { SameFileAsIs(was, id); }
      ghost var now := cleared;
      for i := 0 to |due|
        invariant Inv(Seen(repository.committed, listed, now))
        invariant forall j :: 0 <= j < i ==> Flipped(repository.committed, due[j].order)
        invariant forall id | id in was.files && (forall d | d in due :: d.order != id) :: SameFile(was, repository.committed, id)
        invariant overdue == i
      {
        assert due[i] in due;
        ghost var t0 := repository.committed;
        var _ := RefundOverdue(due[i].order, due[i].dueAt, cmd, listed, now);
        ghost var t1 := repository.committed;
        now := now + {due[i].order};
        MarkNeverRefuses(Seen(t1, listed, now), due[i].order, due[i].dueAt);
        var _ := repository.MarkRefundOverdue(due[i].order, due[i].dueAt);
        MarkKeepsInv(Seen(t1, listed, now), due[i].order, due[i].dueAt);
        forall j | 0 <= j < i ensures Flipped(repository.committed, due[j].order) {
          FlippedStays(t0, t1, due[i].order, due[j].order);
          FlippedStays(t1, repository.committed, due[i].order, due[j].order);
        }
        forall id | id in was.files && (forall d | d in due :: d.order != id) ensures SameFile(was, repository.committed, id) {
          SameFileOn(was, t0, t1, due[i].order, id);
          SameFileOn(was, t1, repository.committed, due[i].order, id);
        }
        overdue := overdue + 1;
      }
    }
  }

  /** The order and all its rows are as they were. */
  predicate SameFile(t: Tables, t': Tables, id: Id) { id in t.files && id in t'.files && t'.files[id] == t.files[id] }

  lemma SameFileAsIs(t: Tables, id: Id)
    requires id in t.files
    ensures SameFile(t, t, id)
  {
  }

  lemma SameFileOn(t: Tables, t': Tables, t'': Tables, id: Id, other: Id)
    requires SameFile(t, t', other) && other != id && (t'' == t' || KeptBy(t', t'', id))
    ensures SameFile(t, t'', other)
  {
    hide FilesOk, LedgerOk;
  }

  lemma LapseRefusals(t: Tables, id: Id, dueAt: Time, cmd: Command)
    requires Apply(t, OrderOverdueKey(id, dueAt), id, LapseRefund, cmd).Failure?
    ensures Apply(t, OrderOverdueKey(id, dueAt), id, LapseRefund, cmd).error in {Conflict, NotFound}
  {
  }

  lemma FlippedStays(t: Tables, t': Tables, id: Id, other: Id)
    requires (t' == t || KeptBy(t, t', id)) && Flipped(t, other)
    ensures Flipped(t', other)
  {
    hide FilesOk, LedgerOk;
  }

  lemma MarkNeverRefuses(w: World, id: Id, dueAt: Time)
    requires Inv(w) && id in w.cleared
    ensures MarkOverdue(w.t, id, dueAt).Success?
  {
    hide FilesOk, LedgerOk;
  }

  /** What a pass over overdue confirmations leaves and counts: an escalation is counted when it was
      written now, an expiry whenever it did not fail. */
  datatype Swept = Swept(t: Tables, escalated: nat, expired: nat)

  function SweptUnconfirmed(t: Tables, due: seq<Due>, cmd: Command, grace: nat): Swept {
    if due == [] then Swept(t, 0, 0)
    else
      var before, d := SweptUnconfirmed(t, due[..|due| - 1], cmd, grace), due[|due| - 1];
      match Escalate(before.t, d.order, d.dueAt)
      case Failure(_) => before
      case Success(t1) =>
        var escalated := before.escalated + if t1 != before.t then 1 else 0;
        if cmd.at < d.dueAt + grace then Swept(t1, escalated, before.expired)
        else
          match Apply(t1, ExpiryKey(d.order, d.dueAt), d.order, Trigger.Expire, cmd)
          case Failure(_) => Swept(t1, escalated, before.expired)
          case Success(t2) => Swept(t2, escalated, before.expired + 1)
  }

  function SweptUnpaid(t: Tables, unpaid: seq<Due>, cmd: Command): (Tables, nat) {
    if unpaid == [] then (t, 0)
    else
      var before, d := SweptUnpaid(t, unpaid[..|unpaid| - 1], cmd), unpaid[|unpaid| - 1];
      match Apply(before.0, PaymentExpiryKey(d.order, d.dueAt), d.order, PaymentExpire, cmd)
      case Failure(_) => before
      case Success(t') => (t', before.1 + 1)
  }

  class Sweeper {
    const repository: Repository
    const expiryGrace: nat

    constructor (repository: Repository, expiryGrace: nat)
      ensures this.repository == repository && this.expiryGrace == expiryGrace
    {
      this.repository, this.expiryGrace := repository, expiryGrace;
    }

    /** RecordEscalation: reports whether this call wrote the escalation. */
    method RecordEscalation(due: Due) returns (r: Result<bool>)
      modifies repository
      ensures match Escalate(old(repository.committed), due.order, due.dueAt)
              case Failure(e) => r == Failure(e) && repository.committed == old(repository.committed)
              case Success(t) => r == Success(t != old(repository.committed)) && repository.committed == t
    {
      var tx := new Tx(repository.committed);
      var replay := tx.ClaimReceipt(EscalationKey(due.order, due.dueAt), OrderRes(due.order));
      if replay.Failure? { return Failure(replay.error); }
      if replay.value { return Success(false); }
      if due.order !in tx.files { return Failure(NotFound); }
      var f := tx.files[due.order];
      tx.files := tx.files[due.order := f.(events := f.events + [Escalated(due.dueAt)])];
      assert EscalationKey(due.order, due.dueAt) in tx.Tables().receipts;
      repository.committed := tx.Tables();
      return Success(true);
    }

    /** RunOnce over the two listings, no statement failing: no listed order past its grace is still
        unconfirmed, no listed unpaid order is still payable, an order still within its grace is left alone, and
        the counts are exact. */
    method RunOnce(due: seq<Due>, unpaid: seq<Due>, cmd: Command) returns (escalated: nat, expired: nat, paymentExpired: nat)
      requires Inv(Seen(repository.committed, {}, {}))
      requires forall d | d in due :: d.order in repository.committed.files
      requires forall d | d in unpaid :: d.order in repository.committed.files
      modifies repository
      ensures Inv(Seen(repository.committed, {}, {}))
      ensures forall d | d in due && cmd.at >= d.dueAt + expiryGrace :: Left(repository.committed, d.order, Created)
      ensures forall d | d in unpaid :: Left(repository.committed, d.order, AwaitingPayment)
      ensures forall id | id in old(repository.committed).files
                          && Spared(due, id, cmd.at, expiryGrace) && (forall d | d in unpaid :: d.order != id) ::
                SameOrder(old(repository.committed), repository.committed, id)
      ensures var first := SweptUnconfirmed(old(repository.committed), due, cmd, expiryGrace);
        && (escalated, expired) == (first.escalated, first.expired)
        && (repository.committed, paymentExpired) == SweptUnpaid(first.t, unpaid, cmd)
    {
      ghost var was := repository.committed;
      escalated, expired := SweepUnconfirmed(due, cmd);
      ghost var mid := repository.committed;
      paymentExpired := SweepUnpaid(unpaid, cmd);
      hide Inv, Left, SweptUnconfirmed, SweptUnpaid, Spared, SameOrder;
      forall id | id in was.files && Spared(due, id, cmd.at, expiryGrace) && (forall d | d in unpaid :: d.order != id)
        ensures SameOrder(was, repository.committed, id)
      {
        SameOrderOn(was, mid, repository.committed, id);
      }
    }

    /** The first loop: escalate each listed confirmation, and expire it once its grace is over. */
    method SweepUnconfirmed(due: seq<Due>, cmd: Command) returns (escalated: nat, expired: nat)
      requires Inv(Seen(repository.committed, {}, {}))
      requires forall d | d in due :: d.order in repository.committed.files
      modifies repository
      ensures Inv(Seen(repository.committed, {}, {})) && repository.committed.files.Keys == old(repository.committed).files.Keys
      ensures forall d | d in due && cmd.at >= d.dueAt + expiryGrace :: Left(repository.committed, d.order, Created)
      ensures forall id | id in old(repository.committed).files && Spared(due, id, cmd.at, expiryGrace) ::
                SameOrder(old(repository.committed), repository.committed, id)
      ensures Swept(repository.committed, escalated, expired) == SweptUnconfirmed(old(repository.committed), due, cmd, expiryGrace)
    {
      hide Inv, KeptBy, Apply, Escalate, Left, SameOrKept, Spared, SameOrder;
      ghost var was := repository.committed;
      ghost var ids := was.files.Keys;
      escalated, expired := 0, 0;
      forall id | id in ids ensures SameOrder(was, was, id) { SameOrderAsIs(was, id); }
      for i := 0 to |due|
        invariant Inv(Seen(repository.committed, {}, {})) && repository.committed.files.Keys == ids
        invariant forall j :: 0 <= j < i && cmd.at >= due[j].dueAt + expiryGrace ==> Left(repository.committed, due[j].order, Created)
        invariant Swept(repository.committed, escalated, expired) == SweptUnconfirmed(was, due[..i], cmd, expiryGrace)
        invariant forall id | id in ids && Spared(due, id, cmd.at, expiryGrace) :: SameOrder(was, repository.committed, id)
      {
        assert due[i] in due;
        assert due[..i + 1][..i] == due[..i];
        ghost var t0 := repository.committed;
        EscalationKept(Seen(t0, {}, {}), due[i]);
        var written := RecordEscalation(due[i]);
        ghost var t1 := repository.committed;
        forall j | 0 <= j < i && cmd.at >= due[j].dueAt + expiryGrace ensures Left(t1, due[j].order, Created) {
          StaysLeft(t0, t1, due[i].order, due[j].order);
        }
        forall id | id in ids && Spared(due, id, cmd.at, expiryGrace) ensures SameOrder(was, t1, id) {
          if id != due[i].order { OtherOrderStays(t0, t1, due[i].order, id); }
          SameOrderOn(was, t0, t1, id);
        }
        if written == Success(true) { escalated := escalated + 1; }
        if cmd.at < due[i].dueAt + expiryGrace { continue; }
        ExpiryKept(Seen(t1, {}, {}), due[i], cmd);
        var r := repository.ApplyTrigger(ExpiryKey(due[i].order, due[i].dueAt), due[i].order, Trigger.Expire, cmd);
        forall j | 0 <= j < i && cmd.at >= due[j].dueAt + expiryGrace ensures Left(repository.committed, due[j].order, Created) {
          StaysLeft(t1, repository.committed, due[i].order, due[j].order);
        }
        forall id | id in ids && Spared(due, id, cmd.at, expiryGrace) ensures SameOrder(was, repository.committed, id) {
          assert id != due[i].order by { NotSpared(due, i, cmd.at, expiryGrace); }
          OtherOrderStays(t1, repository.committed, due[i].order, id);
          SameOrderOn(was, t1, repository.committed, id);
        }
        if r.Success? { expired := expired + 1; }
      }
      assert due[..|due|] == due;
    }

    /** The second loop: expire each listed unpaid order. */
    method SweepUnpaid(unpaid: seq<Due>, cmd: Command) returns (expired: nat)
      requires Inv(Seen(repository.committed, {}, {}))
      requires forall d | d in unpaid :: d.order in repository.committed.files
      modifies repository
      ensures Inv(Seen(repository.committed, {}, {})) && repository.committed.files.Keys == old(repository.committed).files.Keys
      ensures forall d | d in unpaid :: Left(repository.committed, d.order, AwaitingPayment)
      ensures forall id | Left(old(repository.committed), id, Created) :: Left(repository.committed, id, Created)
      ensures forall id | id in old(repository.committed).files && (forall d | d in unpaid :: d.order != id) ::
                SameOrder(old(repository.committed), repository.committed, id)
      ensures (repository.committed, expired) == SweptUnpaid(old(repository.committed), unpaid, cmd)
    {
      hide Inv, KeptBy, Apply, Left, SameOrKept, SameOrder;
      ghost var was := repository.committed;
      ghost var ids := was.files.Keys;
      expired := 0;
      forall id | id in ids ensures SameOrder(was, was, id) { SameOrderAsIs(was, id); }
      for i := 0 to |unpaid|
        invariant Inv(Seen(repository.committed, {}, {})) && repository.committed.files.Keys == ids
        invariant forall j :: 0 <= j < i ==> Left(repository.committed, unpaid[j].order, AwaitingPayment)
        invariant forall id | Left(was, id, Created) :: Left(repository.committed, id, Created)
        invariant forall id | id in ids && (forall d | d in unpaid :: d.order != id) :: SameOrder(was, repository.committed, id)
        invariant (repository.committed, expired) == SweptUnpaid(was, unpaid[..i], cmd)
      {
        assert unpaid[i] in unpaid;
        assert unpaid[..i + 1][..i] == unpaid[..i];
        ghost var t0 := repository.committed;
        PaymentExpiryKept(Seen(t0, {}, {}), unpaid[i], cmd);
        var r := repository.ApplyTrigger(PaymentExpiryKey(unpaid[i].order, unpaid[i].dueAt), unpaid[i].order, PaymentExpire, cmd);
        forall j | 0 <= j < i ensures Left(repository.committed, unpaid[j].order, AwaitingPayment) {
          OthersStay(t0, repository.committed, unpaid[i].order, unpaid[j].order);
        }
        forall id | Left(was, id, Created) ensures Left(repository.committed, id, Created) {
          StaysLeft(t0, repository.committed, unpaid[i].order, id);
        }
        forall id | id in ids && (forall d | d in unpaid :: d.order != id) ensures SameOrder(was, repository.committed, id) {
          OtherOrderStays(t0, repository.committed, unpaid[i].order, id);
          SameOrderOn(was, t0, repository.committed, id);
        }
        if r.Success? { expired := expired + 1; }
      }
      assert unpaid[..|unpaid|] == unpaid;
    }
  }

  /** No listing of the order is past its grace. */
  predicate Spared(due: seq<Due>, id: Id, at: Time, grace: nat) {
    forall d | d in due && d.order == id :: at < d.dueAt + grace
  }

  predicate SameOrder(t: Tables, t': Tables, id: Id) {
    id in t.files && id in t'.files && t'.files[id].order == t.files[id].order
  }

  /** The order exists and is not in the status the sweep listed it for. */
  predicate Left(t: Tables, id: Id, status: Status) {
    id in t.files && t.files[id].order.status != status
  }

  ghost predicate SameOrKept(t: Tables, t': Tables, id: Id) { t' == t || KeptBy(t, t', id) }

  lemma StaysLeft(t: Tables, t': Tables, id: Id, other: Id)
    requires SameOrKept(t, t', id) && Left(t, other, Created)
    ensures Left(t', other, Created)
  {
    hide FilesOk, LedgerOk;
  }

  lemma OthersStay(t: Tables, t': Tables, id: Id, other: Id)
    requires SameOrKept(t, t', id) && Left(t, other, AwaitingPayment) && Left(t', id, AwaitingPayment)
    ensures Left(t', other, AwaitingPayment)
  {
    hide FilesOk, LedgerOk;
  }

  lemma SameOrderAsIs(t: Tables, id: Id)
    requires id in t.files
    ensures SameOrder(t, t, id)
  {
  }

  lemma SameOrderOn(t: Tables, t': Tables, t'': Tables, id: Id)
    requires SameOrder(t, t', id) && SameOrder(t', t'', id)
    ensures SameOrder(t, t'', id)
  {
  }

  lemma NotSpared(due: seq<Due>, i: nat, at: Time, grace: nat)
    requires i < |due| && at >= due[i].dueAt + grace
    ensures !Spared(due, due[i].order, at, grace)
  {
    assert due[i] in due;
  }

  lemma OtherOrderStays(t: Tables, t': Tables, id: Id, other: Id)
    requires SameOrKept(t, t', id) && other != id && other in t.files
    ensures SameOrder(t, t', other)
  {
    hide FilesOk, LedgerOk;
  }

  lemma EscalationKept(w: World, due: Due)
    requires Inv(w) && due.order in w.t.files
    ensures Escalate(w.t, due.order, due.dueAt).Success?
    ensures var t' := Escalate(w.t, due.order, due.dueAt).value;
            Inv(World(t', w.listed, w.cleared)) && SameOrKept(w.t, t', due.order) && t'.files.Keys == w.t.files.Keys
            && SameOrder(w.t, t', due.order)
  {
    hide FilesOk, LedgerOk;
    assert EscalationKey(due.order, due.dueAt) in w.t.receipts ==>
        w.t.receipts[EscalationKey(due.order, due.dueAt)] == OrderRes(due.order);
    EscalateKeepsInv(w, due.order, due.dueAt);
  }

  lemma ExpiryKept(w: World, due: Due, cmd: Command)
    requires Inv(w) && due.order in w.t.files
    ensures var r := Apply(w.t, ExpiryKey(due.order, due.dueAt), due.order, Trigger.Expire, cmd);
            var t' := if r.Success? then r.value else w.t;
            && Inv(World(t', w.listed, w.cleared)) && SameOrKept(w.t, t', due.order)
            && t'.files.Keys == w.t.files.Keys && Left(t', due.order, Created)
  {
    hide Inv, Apply, FilesOk, LedgerOk;
    var key := ExpiryKey(due.order, due.dueAt);
    assert World(w.t, w.listed, w.cleared) == w;
    if Apply(w.t, key, due.order, Trigger.Expire, cmd).Success? {
      ApplyKeepsInv(w, key, due.order, Trigger.Expire, cmd);
    } else {
      RefusalIsFresh(w, key, due.order, Trigger.Expire, cmd);
      ApplyCommitsIff(w, key, due.order, Trigger.Expire, cmd);
    }
  }

  lemma PaymentExpiryKept(w: World, due: Due, cmd: Command)
    requires Inv(w) && due.order in w.t.files
    ensures var r := Apply(w.t, PaymentExpiryKey(due.order, due.dueAt), due.order, PaymentExpire, cmd);
            var t' := if r.Success? then r.value else w.t;
            && Inv(World(t', w.listed, w.cleared)) && SameOrKept(w.t, t', due.order)
            && t'.files.Keys == w.t.files.Keys && Left(t', due.order, AwaitingPayment)
  {
    hide Inv, Apply, FilesOk, LedgerOk;
    var key := PaymentExpiryKey(due.order, due.dueAt);
    assert World(w.t, w.listed, w.cleared) == w;
    if Apply(w.t, key, due.order, PaymentExpire, cmd).Success? {
      ApplyKeepsInv(w, key, due.order, PaymentExpire, cmd);
    } else {
      RefusalIsFresh(w, key, due.order, PaymentExpire, cmd);
      ApplyCommitsIff(w, key, due.order, PaymentExpire, cmd);
    }
  }

  /** A sweep's key is bound to its own order, so a refusal is never a reused key. */
  lemma RefusalIsFresh(w: World, key: Key, id: Id, trigger: Trigger, cmd: Command)
    requires Inv(w) && KeyFits(key, id, trigger) && !key.Client? && Apply(w.t, key, id, trigger, cmd).Failure?
    ensures Fresh(w.t, key)
  {
    hide FilesOk, LedgerOk, RunTransition;
  }

  // ---- what the pass counts ----

  predicate EachOrderOnce(due: seq<Due>) { forall i, j :: 0 <= i < j < |due| ==> due[i].order != due[j].order }

  /** The listed confirmations nobody escalated before. */
  function NewEscalations(t: Tables, due: seq<Due>): nat {
    if due == [] then 0
    else
      var d := due[|due| - 1];
      NewEscalations(t, due[..|due| - 1]) + if EscalationKey(d.order, d.dueAt) in t.receipts then 0 else 1
  }

  /** The listed orders past their grace that are still unconfirmed, or whose expiry is done already. */
  function Expirable(t: Tables, due: seq<Due>, at: Time, grace: nat): nat {
    if due == [] then 0
    else
      var d := due[|due| - 1];
      Expirable(t, due[..|due| - 1], at, grace)
      + if at >= d.dueAt + grace && (Unconfirmed(t, d.order) || ExpiryKey(d.order, d.dueAt) in t.receipts) then 1 else 0
  }

  predicate Unconfirmed(t: Tables, id: Id) { id in t.files && t.files[id].order.status == Created }

  /** What is not about these orders is as it was. */
  ghost predicate OnlyThese(t: Tables, t': Tables, orders: set<Id>) {
    && t'.files.Keys == t.files.Keys
    && (forall id | id in t.files && id !in orders :: t'.files[id] == t.files[id])
    && (forall key: Key | !key.Client? && key.order !in orders :: key in t'.receipts <==> key in t.receipts)
  }

  lemma EscalateOnly(t: Tables, id: Id, dueAt: Time)
    requires Escalate(t, id, dueAt).Success? && id in t.files
    ensures var t' := Escalate(t, id, dueAt).value;
      && OnlyThese(t, t', {id})
      && (t' != t <==> EscalationKey(id, dueAt) !in t.receipts)
      && (Unconfirmed(t', id) <==> Unconfirmed(t, id))
      && (ExpiryKey(id, dueAt) in t'.receipts <==> ExpiryKey(id, dueAt) in t.receipts)
  {
    var t' := Escalate(t, id, dueAt).value;
    if EscalationKey(id, dueAt) !in t.receipts { assert EscalationKey(id, dueAt) in t'.receipts; }
  }

  lemma EscalationCounts(w: World, d: Due)
    requires Inv(w) && d.order in w.t.files
    ensures Escalate(w.t, d.order, d.dueAt).Success?
    ensures var t' := Escalate(w.t, d.order, d.dueAt).value;
      && Inv(World(t', w.listed, w.cleared)) && OnlyThese(w.t, t', {d.order})
      && (t' != w.t <==> EscalationKey(d.order, d.dueAt) !in w.t.receipts)
      && (Unconfirmed(t', d.order) <==> Unconfirmed(w.t, d.order))
      && (ExpiryKey(d.order, d.dueAt) in t'.receipts <==> ExpiryKey(d.order, d.dueAt) in w.t.receipts)
  {
    hide Inv, KeptBy, Escalate, OnlyThese;
    EscalationKept(w, d);
    EscalateOnly(w.t, d.order, d.dueAt);
  }

  lemma ExpiryReceipt(w: World, d: Due)
    requires Inv(w) && ExpiryKey(d.order, d.dueAt) in w.t.receipts
    ensures w.t.receipts[ExpiryKey(d.order, d.dueAt)] == OrderRes(d.order)
  {
    hide FilesOk, LedgerOk;
  }

  lemma WrittenOnly(t: Tables, t': Tables, key: Key, id: Id)
    requires id in t.files && id in t'.files && !key.Client? && key.order == id
    requires t'.files == t.files[id := t'.files[id]] && t'.receipts == t.receipts[key := OrderRes(id)]
    ensures OnlyThese(t, t', {id})
  {
  }

  lemma OnlyNothing(t: Tables, id: Id)
    ensures OnlyThese(t, t, {id})
  {
  }

  lemma ExpiryCounts(w: World, d: Due, cmd: Command)
    requires Inv(w) && d.order in w.t.files
    ensures var key, r := ExpiryKey(d.order, d.dueAt), Apply(w.t, ExpiryKey(d.order, d.dueAt), d.order, Trigger.Expire, cmd);
      && (r.Success? <==> Unconfirmed(w.t, d.order) || key in w.t.receipts)
      && var t' := if r.Success? then r.value else w.t;
      && Inv(World(t', w.listed, w.cleared)) && OnlyThese(w.t, t', {d.order})
  {
    hide Inv, Accepts, Written, OnlyThese, RunTransition;
    var key := ExpiryKey(d.order, d.dueAt);
    OnlyNothing(w.t, d.order);
    if key in w.t.receipts {
      ExpiryReceipt(w, d);
      assert Apply(w.t, key, d.order, Trigger.Expire, cmd) == Success(w.t);
    }
    hide Apply;
    ExpiryKept(w, d, cmd);
    if key !in w.t.receipts {
      ApplyCommitsIff(w, key, d.order, Trigger.Expire, cmd);
      ExpiryAccepted(w.t.files[d.order], cmd);
      if Unconfirmed(w.t, d.order) {
        TransitionWrites(w, key, d.order, Trigger.Expire, cmd);
        WrittenOnly(w.t, Apply(w.t, key, d.order, Trigger.Expire, cmd).value, key, d.order);
      }
    }
  }

  lemma ExpiryAccepted(f: OrderFile, cmd: Command)
    ensures Accepts(f, Trigger.Expire, cmd) <==> f.order.status == Created
  {
  }

  lemma OnlyTheseOn(t: Tables, t': Tables, t'': Tables, orders: set<Id>, id: Id)
    requires OnlyThese(t, t', orders) && OnlyThese(t', t'', {id})
    ensures OnlyThese(t, t'', orders + {id})
  {
  }

  function OrdersOf(due: seq<Due>): set<Id> { set d | d in due :: d.order }

  lemma LastOrderIsNew(due: seq<Due>)
    requires due != [] && EachOrderOnce(due)
    ensures due[|due| - 1].order !in OrdersOf(due[..|due| - 1]) && EachOrderOnce(due[..|due| - 1])
    ensures OrdersOf(due) == OrdersOf(due[..|due| - 1]) + {due[|due| - 1].order}
  {
    var front, last := due[..|due| - 1], due[|due| - 1];
    forall d | d in front ensures d.order != last.order {
      var i :| 0 <= i < |front| && front[i] == d;
      assert due[i].order != due[|due| - 1].order;
    }
    assert forall d :: d in due <==> d in front || d == last;
  }

  /** Another order's escalation, expiry and status are read as they were. */
  lemma OnlyTheseReads(t: Tables, t': Tables, orders: set<Id>, d: Due)
    requires OnlyThese(t, t', orders) && d.order !in orders && d.order in t.files
    ensures d.order in t'.files && (Unconfirmed(t', d.order) <==> Unconfirmed(t, d.order))
    ensures EscalationKey(d.order, d.dueAt) in t'.receipts <==> EscalationKey(d.order, d.dueAt) in t.receipts
    ensures ExpiryKey(d.order, d.dueAt) in t'.receipts <==> ExpiryKey(d.order, d.dueAt) in t.receipts
  {
  }

  /** Over a listing of each order once, a pass counts as escalated exactly the confirmations nobody escalated
      before, and as expired exactly those past their grace that were still unconfirmed or expired by it before. */
  lemma {:induction false} SweptCounts(w: World, due: seq<Due>, cmd: Command, grace: nat)
    requires Inv(w) && EachOrderOnce(due) && forall d | d in due :: d.order in w.t.files
    ensures var swept := SweptUnconfirmed(w.t, due, cmd, grace);
      && Inv(World(swept.t, w.listed, w.cleared)) && OnlyThese(w.t, swept.t, OrdersOf(due))
      && swept.escalated == NewEscalations(w.t, due) && swept.expired == Expirable(w.t, due, cmd.at, grace)
  {
    hide Inv, Apply, Escalate;
    if due == [] {
      assert World(w.t, w.listed, w.cleared) == w;
    } else {
      var front, d := due[..|due| - 1], due[|due| - 1];
      LastOrderIsNew(due);
      assert d in due;
      SweptCounts(w, front, cmd, grace);
      hide OnlyThese, Unconfirmed, EachOrderOnce, OrdersOf;
      var t0 := SweptUnconfirmed(w.t, front, cmd, grace).t;
      OnlyTheseReads(w.t, t0, OrdersOf(front), d);
      EscalationCounts(World(t0, w.listed, w.cleared), d);
      var t1 := Escalate(t0, d.order, d.dueAt).value;
      OnlyTheseOn(w.t, t0, t1, OrdersOf(front), d.order);
      assert d.order in t1.files by { OnlyTheseHas(t0, t1, {d.order}, d.order); }
      ExpiryCounts(World(t1, w.listed, w.cleared), d, cmd);
      var r := Apply(t1, ExpiryKey(d.order, d.dueAt), d.order, Trigger.Expire, cmd);
      OnlyTheseOn(w.t, t1, if r.Success? then r.value else t1, OrdersOf(due), d.order);
      assert OrdersOf(due) + {d.order} == OrdersOf(due);
    }
  }

  lemma OnlyTheseHas(t: Tables, t': Tables, orders: set<Id>, id: Id)
    requires OnlyThese(t, t', orders)
    ensures id in t'.files <==> id in t.files
  {
  }

  // ---- unpaid orders ----

  /** The listed orders still awaiting payment, or whose payment expiry is done already. */
  function StillUnpaid(t: Tables, unpaid: seq<Due>): nat {
    if unpaid == [] then 0
    else
      var d := unpaid[|unpaid| - 1];
      StillUnpaid(t, unpaid[..|unpaid| - 1])
      + if Unpaid(t, d.order) || PaymentExpiryKey(d.order, d.dueAt) in t.receipts then 1 else 0
  }

  predicate Unpaid(t: Tables, id: Id) { id in t.files && t.files[id].order.status == AwaitingPayment }

  lemma PaymentExpiryReceipt(w: World, d: Due)
    requires Inv(w) && PaymentExpiryKey(d.order, d.dueAt) in w.t.receipts
    ensures w.t.receipts[PaymentExpiryKey(d.order, d.dueAt)] == OrderRes(d.order)
  {
    hide FilesOk, LedgerOk;
  }

  lemma PaymentExpiryAccepted(f: OrderFile, cmd: Command)
    ensures Accepts(f, PaymentExpire, cmd) <==> f.order.status == AwaitingPayment
  {
  }

  lemma PaymentExpiryCounts(w: World, d: Due, cmd: Command)
    requires Inv(w) && d.order in w.t.files
    ensures var key, r := PaymentExpiryKey(d.order, d.dueAt), Apply(w.t, PaymentExpiryKey(d.order, d.dueAt), d.order, PaymentExpire, cmd);
      && (r.Success? <==> Unpaid(w.t, d.order) || key in w.t.receipts)
      && var t' := if r.Success? then r.value else w.t;
      && Inv(World(t', w.listed, w.cleared)) && OnlyThese(w.t, t', {d.order})
  {
    hide Inv, Accepts, Written, OnlyThese, RunTransition;
    var key := PaymentExpiryKey(d.order, d.dueAt);
    OnlyNothing(w.t, d.order);
    if key in w.t.receipts {
      PaymentExpiryReceipt(w, d);
      assert Apply(w.t, key, d.order, PaymentExpire, cmd) == Success(w.t);
    }
    hide Apply;
    PaymentExpiryKept(w, d, cmd);
    if key !in w.t.receipts {
      ApplyCommitsIff(w, key, d.order, PaymentExpire, cmd);
      PaymentExpiryAccepted(w.t.files[d.order], cmd);
      if Unpaid(w.t, d.order) {
        TransitionWrites(w, key, d.order, PaymentExpire, cmd);
        WrittenOnly(w.t, Apply(w.t, key, d.order, PaymentExpire, cmd).value, key, d.order);
      }
    }
  }

  lemma UnpaidReads(t: Tables, t': Tables, orders: set<Id>, d: Due)
    requires OnlyThese(t, t', orders) && d.order !in orders && d.order in t.files
    ensures d.order in t'.files && (Unpaid(t', d.order) <==> Unpaid(t, d.order))
    ensures PaymentExpiryKey(d.order, d.dueAt) in t'.receipts <==> PaymentExpiryKey(d.order, d.dueAt) in t.receipts
  {
  }

  /** The same of the second listing: counted are exactly the orders still awaiting payment, or expired by it before. */
  lemma {:induction false} UnpaidCounts(w: World, unpaid: seq<Due>, cmd: Command)
    requires Inv(w) && EachOrderOnce(unpaid) && forall d | d in unpaid :: d.order in w.t.files
    ensures var (t', expired) := SweptUnpaid(w.t, unpaid, cmd);
      && Inv(World(t', w.listed, w.cleared)) && OnlyThese(w.t, t', OrdersOf(unpaid)) && expired == StillUnpaid(w.t, unpaid)
  {
    hide Inv, Apply;
    if unpaid == [] {
      assert World(w.t, w.listed, w.cleared) == w;
    } else {
      var front, d := unpaid[..|unpaid| - 1], unpaid[|unpaid| - 1];
      LastOrderIsNew(unpaid);
      assert d in unpaid;
      UnpaidCounts(w, front, cmd);
      hide OnlyThese, Unpaid, EachOrderOnce, OrdersOf;
      var t0 := SweptUnpaid(w.t, front, cmd).0;
      UnpaidReads(w.t, t0, OrdersOf(front), d);
      PaymentExpiryCounts(World(t0, w.listed, w.cleared), d, cmd);
      var r := Apply(t0, PaymentExpiryKey(d.order, d.dueAt), d.order, PaymentExpire, cmd);
      OnlyTheseOn(w.t, t0, if r.Success? then r.value else t0, OrdersOf(front), d.order);
    }
  }
}
