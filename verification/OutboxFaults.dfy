/** Exactly which steps of an outbox run do damage, whoever overran a lease and whenever. */
module OutboxFaults {
  import opened Base
  import opened Outbox

  // ---- what every interleaving keeps ----

  /** Dead exactly at the attempt limit. */
  predicate AttemptsOk(row: Row, cfg: Config) {
    row.attempts <= cfg.maxAttempts && (row.deadAt.Some? <==> row.attempts == cfg.maxAttempts)
  }

  function PartOf(phase: Phase): set<Record> {
    match phase case Ready => {} case Delivered(part) => part case Refused(part) => part
  }

  predicate RecordOk(rows: Rows, record: Record, cfg: Config) {
    record.id in rows && rows[record.id].aggregate == record.aggregate && record.attempts < cfg.maxAttempts
  }

  /** What a dispatcher holds, its lease over or not: one event of an aggregate, tried too few times to be dead. */
  ghost predicate LeaseOk(rows: Rows, lease: Lease, cfg: Config) {
    && PartOf(lease.phase) <= lease.held
    && (forall record | record in lease.held :: RecordOk(rows, record, cfg))
    && (forall a, b | a in lease.held && b in lease.held && a.aggregate == b.aggregate :: a == b)
  }

  ghost predicate Sound(s: System, cfg: Config) {
    && SinkHolds(s)
    && (forall id | id in s.rows :: AttemptsOk(s.rows[id], cfg))
    && (forall worker | worker in s.leases :: LeaseOk(s.rows, s.leases[worker], cfg))
    && (forall id | id in s.sink :: id in s.rows)
  }

  predicate SameRows(rows: Rows, rows': Rows) {
    forall id | id in rows :: id in rows' && rows'[id].aggregate == rows[id].aggregate
  }

  lemma LeaseStays(rows: Rows, rows': Rows, lease: Lease, lease': Lease, cfg: Config)
    requires LeaseOk(rows, lease, cfg) && SameRows(rows, rows') && PartOf(lease'.phase) <= lease'.held <= lease.held
    ensures LeaseOk(rows', lease', cfg)
  {
  }

  lemma ClaimedLeaseOk(s: System, cfg: Config, worker: Id, ids: set<Id>)
    requires Sound(s, cfg) && Enabled(s, cfg, Claim(worker, ids))
    ensures LeaseOk(s.rows, Next(s, cfg, Claim(worker, ids)).leases[worker], cfg)
  {
    var held := Next(s, cfg, Claim(worker, ids)).leases[worker].held;
    forall a, b | a in held && b in held && a.aggregate == b.aggregate ensures a == b {
      assert Claimable(s.rows, a.id, s.now, cfg) && Claimable(s.rows, b.id, s.now, cfg);
    }
  }

  lemma NextKeepsRows(s: System, cfg: Config, step: Step)
    requires Sound(s, cfg) && ValidConfig(cfg) && Enabled(s, cfg, step)
    ensures var s' := Next(s, cfg, step);
      SameRows(s.rows, s'.rows) && forall id | id in s'.rows :: AttemptsOk(s'.rows[id], cfg)
  {
    hide SinkHolds, Claimable;
    if step.RecordFailure? { assert RecordOk(s.rows, step.record, cfg); }
  }

  lemma NextKeepsSound(s: System, cfg: Config, step: Step)
    requires Sound(s, cfg) && ValidConfig(cfg) && Enabled(s, cfg, step)
    ensures Sound(Next(s, cfg, step), cfg)
  {
    var s' := Next(s, cfg, step);
    NextKeepsSink(s, cfg, step);
    NextKeepsRows(s, cfg, step);
    hide SinkHolds, AttemptsOk;
    if step.Claim? { ClaimedLeaseOk(s, cfg, step.worker, step.ids); }
    if step.SendSucceeds? || step.SendFails? { SentIsKnown(s, cfg, step.worker, step.part); }
    hide LeaseOk, Claimable, Deliver, FailRow, SameRows;
    forall worker | worker in s'.leases ensures LeaseOk(s'.rows, s'.leases[worker], cfg) {
      if worker in s.leases {
        NextHoldsLess(s, cfg, step, worker);
        LeaseStays(s.rows, s'.rows, s.leases[worker], s'.leases[worker], cfg);
      } else {
        assert step.Claim?;
        assert PartOf(s'.leases[worker].phase) <= s'.leases[worker].held <= s'.leases[worker].held;
        LeaseStays(s.rows, s'.rows, s'.leases[worker], s'.leases[worker], cfg);
      }
    }
  }

  lemma NextHoldsLess(s: System, cfg: Config, step: Step, worker: Id)
    requires Enabled(s, cfg, step) && worker in s.leases && worker in Next(s, cfg, step).leases
    requires PartOf(s.leases[worker].phase) <= s.leases[worker].held
    ensures var s' := Next(s, cfg, step);
      && PartOf(s'.leases[worker].phase) <= s'.leases[worker].held <= s.leases[worker].held
      && s'.leases[worker].since == s.leases[worker].since
  {
    hide Claimable, Deliver, FailRow, MarkRows, ClaimRows;
  }

  lemma SentIsKnown(s: System, cfg: Config, worker: Id, part: seq<Record>)
    requires Sound(s, cfg) && MaySend(s, worker, part)
    ensures forall id | id in Deliver(s.sink, part) :: id in s.rows
    ensures forall record | record in part ::
              record in s.leases[worker].held && RecordOf(s.rows, record.id).aggregate == record.aggregate
  {
    DeliverKeeps(s.sink, part);
    forall record | record in part ensures record in s.leases[worker].held && RecordOk(s.rows, record, cfg) {
      assert record in RecordSet(part);
      assert LeaseOk(s.rows, s.leases[worker], cfg);
    }
  }

  /** In every interleaving attempts stay within the limit and a row is a dead letter exactly at it; no
      dispatcher ever holds two events of an aggregate, or one without attempts left when it was claimed. */
  lemma {:induction false} RunIsSound(now: Time, cfg: Config, steps: seq<Step>)
    requires ValidConfig(cfg)
    ensures Sound(Run(Start(now), cfg, steps), cfg)
  {
    if steps != [] {
      hide Sound, Next, Enabled;
      RunIsSound(now, cfg, steps[..|steps| - 1]);
      var before := Run(Start(now), cfg, steps[..|steps| - 1]);
      if Enabled(before, cfg, steps[|steps| - 1]) { NextKeepsSound(before, cfg, steps[|steps| - 1]); }
    } else {
      StartIsSound(now, cfg);
    }
  }

  lemma StartIsSound(now: Time, cfg: Config)
    ensures Sound(Start(now), cfg)
  {
  }

  // ---- runs that keep a property, and steps that break it ----

  function After(now: Time, cfg: Config, steps: seq<Step>, k: nat): System
    requires k <= |steps|
  {
    Run(Start(now), cfg, steps[..k])
  }

  /** The property holds in every state of the run. */
  ghost predicate Throughout(p: System -> bool, now: Time, cfg: Config, steps: seq<Step>) {
    forall k | 0 <= k <= |steps| :: p(After(now, cfg, steps, k))
  }

  /** The k-th step is enabled and of this kind. */
  predicate HappensAt(kind: (System, Config, Step) -> bool, now: Time, cfg: Config, steps: seq<Step>, k: nat)
    requires k < |steps|
  {
    Enabled(After(now, cfg, steps, k), cfg, steps[k]) && kind(After(now, cfg, steps, k), cfg, steps[k])
  }

  predicate Happens(kind: (System, Config, Step) -> bool, now: Time, cfg: Config, steps: seq<Step>) {
    exists k | 0 <= k < |steps| :: HappensAt(kind, now, cfg, steps, k)
  }

  lemma AfterPrefix(now: Time, cfg: Config, steps: seq<Step>, n: nat)
    requires n <= |steps|
    ensures forall k | 0 <= k <= n :: After(now, cfg, steps[..n], k) == After(now, cfg, steps, k)
  {
    assert forall k | 0 <= k <= n :: steps[..n][..k] == steps[..k];
  }

  lemma AfterNext(now: Time, cfg: Config, steps: seq<Step>, k: nat)
    requires k < |steps|
    ensures var s := After(now, cfg, steps, k);
      After(now, cfg, steps, k + 1) == if Enabled(s, cfg, steps[k]) then Next(s, cfg, steps[k]) else s
  {
    assert steps[..k + 1][..k] == steps[..k];
    hide Enabled, Next;
  }

  lemma PrefixHappens(kind: (System, Config, Step) -> bool, now: Time, cfg: Config, steps: seq<Step>, n: nat)
    requires n <= |steps| && Happens(kind, now, cfg, steps[..n])
    ensures Happens(kind, now, cfg, steps)
  {
    AfterPrefix(now, cfg, steps, n);
    hide After;
    var k :| 0 <= k < n && HappensAt(kind, now, cfg, steps[..n], k);
    assert HappensAt(kind, now, cfg, steps, k);
  }

  /** A property that only steps of one kind break, and that they always break, holds throughout a run
      exactly when no step of the run is of that kind. */
  lemma {:induction false} ThroughoutIff(p: System -> bool, kind: (System, Config, Step) -> bool,
        now: Time, cfg: Config, steps: seq<Step>)
    requires ValidConfig(cfg) && p(Start(now))
    requires forall s, step | Sound(s, cfg) && p(s) && Enabled(s, cfg, step) :: p(Next(s, cfg, step)) <==> !kind(s, cfg, step)
    ensures Throughout(p, now, cfg, steps) <==> !Happens(kind, now, cfg, steps)
  {
    if steps == [] {
      assert After(now, cfg, steps, 0) == Start(now);
    } else {
      var n := |steps| - 1;
      ThroughoutIff(p, kind, now, cfg, steps[..n]);
      AfterPrefix(now, cfg, steps, n);
      AfterNext(now, cfg, steps, n);
      RunIsSound(now, cfg, steps[..n]);
      assert Sound(After(now, cfg, steps, n), cfg);
      hide After, Sound, Enabled, Next;
      if Happens(kind, now, cfg, steps[..n]) {
        PrefixHappens(kind, now, cfg, steps, n);
        var k :| 0 <= k <= n && !p(After(now, cfg, steps[..n], k));
        assert !p(After(now, cfg, steps, k));
      } else {
        assert p(After(now, cfg, steps[..n], n));
        assert forall k | 0 <= k < n :: !HappensAt(kind, now, cfg, steps, k) by {
          assert forall k | 0 <= k < n :: HappensAt(kind, now, cfg, steps[..n], k) == HappensAt(kind, now, cfg, steps, k);
        }
        assert Happens(kind, now, cfg, steps) <==> HappensAt(kind, now, cfg, steps, n);
        assert p(After(now, cfg, steps, n + 1)) <==> !HappensAt(kind, now, cfg, steps, n);
        assert forall k | 0 <= k <= n :: p(After(now, cfg, steps, k));
      }
    }
  }

  // ---- dispatched or dead, not both ----

  predicate OneFate(s: System) {
    forall id | id in s.rows :: s.rows[id].dispatchedAt.None? || s.rows[id].deadAt.None?
  }

  /** Marking a dead letter dispatched, or failing a dispatched row for the last time. */
  predicate Doubles(s: System, cfg: Config, step: Step) {
    match step
    case Mark(worker) =>
      worker in s.leases && exists record | record in PartOf(s.leases[worker].phase) ::
        record.id in s.rows && s.rows[record.id].deadAt.Some?
    case RecordFailure(_, record) =>
      record.id in s.rows && s.rows[record.id].dispatchedAt.Some? && record.attempts + 1 >= cfg.maxAttempts
    case _ => false
  }

  lemma NextKeepsFateIff(s: System, cfg: Config, step: Step)
    requires Sound(s, cfg) && OneFate(s) && Enabled(s, cfg, step)
    ensures OneFate(Next(s, cfg, step)) <==> !Doubles(s, cfg, step)
  {
    hide SinkHolds, Claimable, Deliver;
    var s' := Next(s, cfg, step);
    match step
    case Mark(worker) =>
      if record :| record in s.leases[worker].phase.part && s.rows[record.id].deadAt.Some? {
        assert record.id in IdSet(s.leases[worker].phase.part);
        assert s'.rows[record.id].dispatchedAt.Some? && s'.rows[record.id].deadAt.Some?;
      }
    case RecordFailure(worker, record) =>
      assert RecordOk(s.rows, record, cfg);
      assert s'.rows[record.id].dispatchedAt == s.rows[record.id].dispatchedAt;
    case _ =>
  }

  /** No row is ever both dispatched and a dead letter exactly when the run never marks a dead letter and
      never records the last failure of a dispatched row. */
  lemma RunKeepsFateIff(now: Time, cfg: Config, steps: seq<Step>)
    requires ValidConfig(cfg)
    ensures Throughout(OneFate, now, cfg, steps) <==> !Happens(Doubles, now, cfg, steps)
  {
    hide Throughout, Happens;
    forall s, step | Sound(s, cfg) && OneFate(s) && Enabled(s, cfg, step)
      ensures OneFate(Next(s, cfg, step)) <==> !Doubles(s, cfg, step)
    {
      NextKeepsFateIff(s, cfg, step);
    }
    hide Sound, Enabled, Next, Doubles;
    ThroughoutIff(OneFate, Doubles, now, cfg, steps);
  }

  // ---- settled rows ----

  /** A failure with attempts left, recorded on a dead letter that was not dispatched. */
  predicate Revives(s: System, cfg: Config, step: Step) {
    match step
    case RecordFailure(_, record) =>
      && record.id in s.rows && s.rows[record.id].deadAt.Some? && s.rows[record.id].dispatchedAt.None?
      && record.attempts + 1 < cfg.maxAttempts
    case _ => false
  }

  predicate StaySettled(rows: Rows, rows': Rows) {
    forall id | id in rows && Settled(rows[id]) :: id in rows' && Settled(rows'[id])
  }

  lemma NextKeepsSettledIff(s: System, cfg: Config, step: Step)
    requires Enabled(s, cfg, step)
    ensures StaySettled(s.rows, Next(s, cfg, step).rows) <==> !Revives(s, cfg, step)
  {
    hide NoPendingPrior, Deliver;
  }

  /** A row once dispatched or dead stays so, between any two states of a run, exactly when the run never
      revives a dead letter. */
  lemma {:induction false} RunKeepsSettledIff(now: Time, cfg: Config, steps: seq<Step>)
    ensures (forall j, k | 0 <= j <= k <= |steps| :: StaySettled(After(now, cfg, steps, j).rows, After(now, cfg, steps, k).rows))
       <==> !Happens(Revives, now, cfg, steps)
  {
    if steps != [] {
      var n := |steps| - 1;
      RunKeepsSettledIff(now, cfg, steps[..n]);
      AfterPrefix(now, cfg, steps, n);
      AfterNext(now, cfg, steps, n);
      var s, s' := After(now, cfg, steps, n), After(now, cfg, steps, n + 1);
      if Enabled(s, cfg, steps[n]) { NextKeepsSettledIff(s, cfg, steps[n]); }
      hide After, Enabled, Next, Revives;
      if Happens(Revives, now, cfg, steps[..n]) {
        PrefixHappens(Revives, now, cfg, steps, n);
        var j, k :| 0 <= j <= k <= n && !StaySettled(After(now, cfg, steps[..n], j).rows, After(now, cfg, steps[..n], k).rows);
        assert !StaySettled(After(now, cfg, steps, j).rows, After(now, cfg, steps, k).rows);
      } else {
        assert forall k | 0 <= k < n :: !HappensAt(Revives, now, cfg, steps, k) by {
          assert forall k | 0 <= k < n :: HappensAt(Revives, now, cfg, steps[..n], k) == HappensAt(Revives, now, cfg, steps, k);
        }
        assert Happens(Revives, now, cfg, steps) <==> HappensAt(Revives, now, cfg, steps, n);
        assert StaySettled(s.rows, s'.rows) <==> !HappensAt(Revives, now, cfg, steps, n);
        forall j | 0 <= j <= n ensures StaySettled(After(now, cfg, steps, j).rows, s.rows) {
          assert StaySettled(After(now, cfg, steps[..n], j).rows, After(now, cfg, steps[..n], n).rows);
        }
        forall j, k | 0 <= j <= k <= n ensures StaySettled(After(now, cfg, steps, j).rows, After(now, cfg, steps, k).rows) {
          assert StaySettled(After(now, cfg, steps[..n], j).rows, After(now, cfg, steps[..n], k).rows);
        }
      }
    }
  }

  // ---- who is first in line ----

  /** Whatever is held or delivered has every earlier event of its aggregate settled. */
  predicate First(s: System) {
    && (forall worker | worker in s.leases :: forall record | record in s.leases[worker].held ::
          NoPendingPrior(s.rows, record.id, record.aggregate))
    && (forall id | id in s.sink && id in s.rows :: NoPendingPrior(s.rows, id, s.rows[id].aggregate))
  }

  /** A later event of the aggregate is held or delivered. */
  predicate Passed(s: System, id: Id, aggregate: Id) {
    || (exists worker | worker in s.leases :: exists record | record in s.leases[worker].held ::
          record.aggregate == aggregate && id < record.id)
    || (exists later | later in s.sink && later in s.rows :: s.rows[later].aggregate == aggregate && id < later)
  }

  /** Committing an event, or reviving a dead letter, behind a later one that is held or delivered. */
  predicate Undercuts(s: System, cfg: Config, step: Step) {
    match step
    case Commit(id, aggregate) => Passed(s, id, aggregate)
    case RecordFailure(_, record) => Revives(s, cfg, step) && Passed(s, record.id, record.aggregate)
    case _ => false
  }

  /** Nothing pending that was not pending before. */
  predicate NoNewPending(rows: Rows, rows': Rows) {
    forall id | id in rows' && Pending(rows'[id]) :: id in rows && rows[id].aggregate == rows'[id].aggregate && Pending(rows[id])
  }

  lemma FewerPriors(rows: Rows, rows': Rows, id: Id, aggregate: Id)
    requires NoNewPending(rows, rows') && NoPendingPrior(rows, id, aggregate)
    ensures NoPendingPrior(rows', id, aggregate)
  {
  }

  /** One row is pending that was not: those behind it are first no more. */
  lemma OnePrior(rows: Rows, rows': Rows, id: Id, aggregate: Id, at: Id, its: Id)
    requires NoPendingPrior(rows, id, aggregate) && NoNewPending(rows, rows' - {at})
    requires at in rows' && Pending(rows'[at]) && rows'[at].aggregate == its
    ensures NoPendingPrior(rows', id, aggregate) <==> !(its == aggregate && at < id)
  {
    forall prior | prior in rows' && prior != at ensures prior in rows' - {at} {}
  }

  lemma NoNewPendingStep(s: System, cfg: Config, step: Step)
    requires Enabled(s, cfg, step) && !step.Commit? && !Revives(s, cfg, step)
    ensures NoNewPending(s.rows, Next(s, cfg, step).rows)
  {
    hide NoPendingPrior, Deliver;
  }

  lemma QuietStepKeepsFirst(s: System, cfg: Config, step: Step)
    requires Sound(s, cfg) && First(s) && Enabled(s, cfg, step) && !step.Commit? && !Revives(s, cfg, step)
    ensures First(Next(s, cfg, step))
  {
    var s' := Next(s, cfg, step);
    NoNewPendingStep(s, cfg, step);
    if step.SendSucceeds? || step.SendFails? {
      SentIsKnown(s, cfg, step.worker, step.part);
      DeliverKeeps(s.sink, step.part);
    }
    hide SinkHolds, AttemptsOk, Deliver, FailRow, NoNewPending, Revives;
    forall worker, record | worker in s'.leases && record in s'.leases[worker].held
      ensures NoPendingPrior(s'.rows, record.id, record.aggregate)
    {
      if worker in s.leases {
        assert LeaseOk(s.rows, s.leases[worker], cfg);
        NextHoldsLess(s, cfg, step, worker);
      } else {
        assert Claimable(s.rows, record.id, s.now, cfg);
      }
      FewerPriors(s.rows, s'.rows, record.id, record.aggregate);
    }
    forall id | id in s'.sink && id in s'.rows ensures NoPendingPrior(s'.rows, id, s'.rows[id].aggregate) {
      hide NoPendingPrior, LeaseOk, Claimable;
      NextKeepsAggregates(s, cfg, step);
      assert id in s.rows && NoPendingPrior(s.rows, id, s.rows[id].aggregate);
      FewerPriors(s.rows, s'.rows, id, s.rows[id].aggregate);
    }
  }

  lemma NextKeepsAggregates(s: System, cfg: Config, step: Step)
    requires Enabled(s, cfg, step)
    ensures SameRows(s.rows, Next(s, cfg, step).rows)
  {
    hide Claimable, Deliver;
  }

  /** After a row came to wait: exactly those behind it are first no more. */
  lemma NewPriorKeepsFirstIff(s: System, s': System, cfg: Config, at: Id, aggregate: Id)
    requires Sound(s, cfg) && First(s) && at in s'.rows && Pending(s'.rows[at]) && s'.rows[at].aggregate == aggregate
    requires NoNewPending(s.rows, s'.rows - {at}) && SameRows(s.rows, s'.rows) && s'.sink == s.sink
    requires s'.leases.Keys == s.leases.Keys
    requires forall worker | worker in s.leases :: s'.leases[worker].held <= s.leases[worker].held
    requires forall worker, record | worker in s.leases && record in s.leases[worker].held && record !in s'.leases[worker].held ::
               record.id == at
    ensures First(s') <==> !Passed(s, at, aggregate)
  {
    hide NoNewPending, NoPendingPrior, SinkHolds, AttemptsOk, LeaseOk;
    forall worker, record | worker in s'.leases && record in s'.leases[worker].held
      ensures NoPendingPrior(s'.rows, record.id, record.aggregate) <==> !(aggregate == record.aggregate && at < record.id)
    {
      assert record in s.leases[worker].held;
      OnePrior(s.rows, s'.rows, record.id, record.aggregate, at, aggregate);
    }
    forall id | id in s.sink
      ensures id in s.rows && id in s'.rows && s'.rows[id].aggregate == s.rows[id].aggregate
      ensures NoPendingPrior(s'.rows, id, s'.rows[id].aggregate) <==> !(aggregate == s.rows[id].aggregate && at < id)
    {
      OnePrior(s.rows, s'.rows, id, s.rows[id].aggregate, at, aggregate);
    }
    if worker, record :| worker in s.leases && record in s.leases[worker].held && record.aggregate == aggregate && at < record.id {
      assert record in s'.leases[worker].held;
    }
  }

  lemma NextKeepsFirstIff(s: System, cfg: Config, step: Step)
    requires Sound(s, cfg) && First(s) && Enabled(s, cfg, step)
    ensures First(Next(s, cfg, step)) <==> !Undercuts(s, cfg, step)
  {
    var s' := Next(s, cfg, step);
    if step.Commit? {
      hide NoPendingPrior, Sound, First;
      NextKeepsAggregates(s, cfg, step);
      NewPriorKeepsFirstIff(s, s', cfg, step.id, step.aggregate);
    } else if Revives(s, cfg, step) {
      assert RecordOk(s.rows, step.record, cfg) by {
        assert LeaseOk(s.rows, s.leases[step.worker], cfg);
      }
      hide NoPendingPrior, Sound, First;
      NextKeepsAggregates(s, cfg, step);
      NewPriorKeepsFirstIff(s, s', cfg, step.record.id, step.record.aggregate);
    } else {
      hide NoPendingPrior, Sound, First, Next, Enabled, Revives;
      QuietStepKeepsFirst(s, cfg, step);
    }
  }

  /** Throughout a run everything held or delivered has all earlier events of its aggregate dispatched or
      dead, exactly when no event is ever committed or revived behind one held or delivered. */
  lemma RunKeepsFirstIff(now: Time, cfg: Config, steps: seq<Step>)
    requires ValidConfig(cfg)
    ensures Throughout(First, now, cfg, steps) <==> !Happens(Undercuts, now, cfg, steps)
  {
    hide Throughout, Happens;
    forall s, step | Sound(s, cfg) && First(s) && Enabled(s, cfg, step)
      ensures First(Next(s, cfg, step)) <==> !Undercuts(s, cfg, step)
    {
      NextKeepsFirstIff(s, cfg, step);
    }
    hide Sound, Enabled, Next, Undercuts;
    ThroughoutIff(First, Undercuts, now, cfg, steps);
  }

  // ---- delivery order ----

  predicate SameAggregate(rows: Rows, a: Id, b: Id) {
    a in rows && b in rows && rows[a].aggregate == rows[b].aggregate
  }

  /** First deliveries of one aggregate are in id order. */
  predicate InOrder(s: System) { Ordered(s.rows, s.sink) }

  predicate Ordered(rows: Rows, sink: seq<Id>) {
    forall i, j :: 0 <= i < j < |sink| && SameAggregate(rows, sink[i], sink[j]) ==> sink[i] < sink[j]
  }

  /** The sink lacks the event and holds a later one of its aggregate. */
  predicate Behind(rows: Rows, sink: seq<Id>, id: Id) {
    id !in sink && exists later | later in sink :: SameAggregate(rows, id, later) && id < later
  }

  /** What a step leaves in the sink. */
  function Landing(step: Step): seq<Record> {
    match step
    case SendSucceeds(_, part) => part
    case SendFails(_, part, landed) => if landed then part else []
    case _ => []
  }

  /** An event reaches the sink behind a later one of its aggregate. */
  predicate Overtaken(s: System, cfg: Config, step: Step) {
    exists record | record in Landing(step) :: Behind(s.rows, s.sink, record.id)
  }

  /** The event is a dead letter besides. */
  predicate LateSend(s: System, cfg: Config, step: Step) {
    exists record | record in Landing(step) ::
      Behind(s.rows, s.sink, record.id) && record.id in s.rows && s.rows[record.id].deadAt.Some?
  }

  lemma {:induction false} DeliverKeepsOrderIff(rows: Rows, sink: seq<Id>, batch: seq<Record>)
    requires Ordered(rows, sink) && forall i, j :: 0 <= i < j < |sink| ==> sink[i] != sink[j]
    requires forall a, b | a in batch && b in batch && SameAggregate(rows, a.id, b.id) :: a.id == b.id
    ensures Ordered(rows, Deliver(sink, batch)) <==> !exists record | record in batch :: Behind(rows, sink, record.id)
  {
    if batch != [] {
      var rest, last := batch[..|batch| - 1], batch[|batch| - 1];
      assert forall record :: record in batch <==> record in rest || record == last;
      DeliverKeepsOrderIff(rows, sink, rest);
      DeliverKeeps(sink, rest);
      var before := Deliver(sink, rest);
      assert Ordered(rows, before + [last.id]) ==> Ordered(rows, before) by {
        assert forall i | 0 <= i < |before| :: (before + [last.id])[i] == before[i];
      }
      if last.id !in before && Ordered(rows, before) {
        AppendKeepsOrderIff(rows, before, last.id);
        assert Behind(rows, before, last.id) <==> Behind(rows, sink, last.id);
      }
    }
  }

  lemma AppendKeepsOrderIff(rows: Rows, sink: seq<Id>, id: Id)
    requires Ordered(rows, sink) && id !in sink
    ensures Ordered(rows, sink + [id]) <==> !Behind(rows, sink, id)
  {
    var all := sink + [id];
    assert forall i | 0 <= i < |sink| :: all[i] == sink[i];
    if Behind(rows, sink, id) {
      var i :| 0 <= i < |sink| && SameAggregate(rows, id, sink[i]) && id < sink[i];
      assert SameAggregate(rows, all[i], all[|sink|]);
    } else {
      forall i | 0 <= i < |sink| && SameAggregate(rows, all[i], id) ensures all[i] < id { assert all[i] in sink; }
    }
  }

  lemma NextKeepsOrderIff(s: System, cfg: Config, step: Step)
    requires Sound(s, cfg) && InOrder(s) && Enabled(s, cfg, step)
    ensures InOrder(Next(s, cfg, step)) <==> !Overtaken(s, cfg, step)
  {
    var s', part := Next(s, cfg, step), Landing(step);
    if part != [] {
      var held := s.leases[step.worker].held;
      SentIsKnown(s, cfg, step.worker, step.part);
      assert LeaseOk(s.rows, s.leases[step.worker], cfg);
      hide AttemptsOk, Ordered, Behind, Deliver;
      assert s'.rows == s.rows && s'.sink == Deliver(s.sink, part);
      DeliverKeepsOrderIff(s.rows, s.sink, part);
    } else {
      NextKeepsAggregates(s, cfg, step);
      hide SinkHolds, AttemptsOk, LeaseOk, Deliver, NoPendingPrior;
      assert s'.sink == s.sink;
      forall i, j | 0 <= i < j < |s.sink|
        ensures SameAggregate(s'.rows, s.sink[i], s.sink[j]) <==> SameAggregate(s.rows, s.sink[i], s.sink[j])
      {
        assert s.sink[i] in s.sink && s.sink[j] in s.sink;
      }
    }
  }

  /** Each aggregate's events first reach the sink in id order exactly when no send lands one behind a later
      one that is there already. */
  lemma RunDeliversInOrderIff(now: Time, cfg: Config, steps: seq<Step>)
    requires ValidConfig(cfg)
    ensures Throughout(InOrder, now, cfg, steps) <==> !Happens(Overtaken, now, cfg, steps)
  {
    hide Throughout, Happens;
    forall s, step | Sound(s, cfg) && InOrder(s) && Enabled(s, cfg, step)
      ensures InOrder(Next(s, cfg, step)) <==> !Overtaken(s, cfg, step)
    {
      NextKeepsOrderIff(s, cfg, step);
    }
    hide Sound, Enabled, Next, Overtaken;
    ThroughoutIff(InOrder, Overtaken, now, cfg, steps);
  }

  // ---- what this means for senders ----

  /** Committing an event behind another of its aggregate. */
  predicate CommitsBehind(s: System, cfg: Config, step: Step) {
    step.Commit? && exists other | other in s.rows :: s.rows[other].aggregate == step.aggregate && step.id < other
  }

  lemma UndercutsIsEither(s: System, cfg: Config, step: Step)
    requires Sound(s, cfg) && Undercuts(s, cfg, step)
    ensures Revives(s, cfg, step) || CommitsBehind(s, cfg, step)
  {
    if step.Commit? {
      if worker, record :| worker in s.leases && record in s.leases[worker].held
                           && record.aggregate == step.aggregate && step.id < record.id {
        assert LeaseOk(s.rows, s.leases[worker], cfg) && RecordOk(s.rows, record, cfg);
      }
    }
  }

  lemma NothingUndercuts(now: Time, cfg: Config, steps: seq<Step>)
    requires ValidConfig(cfg) && !Happens(Revives, now, cfg, steps) && !Happens(CommitsBehind, now, cfg, steps)
    ensures !Happens(Undercuts, now, cfg, steps)
  {
    forall k | 0 <= k < |steps|
      ensures HappensAt(Undercuts, now, cfg, steps, k) ==>
                HappensAt(Revives, now, cfg, steps, k) || HappensAt(CommitsBehind, now, cfg, steps, k)
    {
      RunIsSound(now, cfg, steps[..k]);
      hide Sound, Enabled, Run, Revives, CommitsBehind, Undercuts, Happens;
      var s := After(now, cfg, steps, k);
      if Undercuts(s, cfg, steps[k]) { UndercutsIsEither(s, cfg, steps[k]); }
    }
    hide HappensAt;
  }

  /** With ids in commit order and no dead letter revived, whatever a dispatcher may send, its lease over or
      not, has every earlier event of its aggregate dispatched or dead-lettered. */
  lemma RunSendsInOrder(now: Time, cfg: Config, steps: seq<Step>, worker: Id, part: seq<Record>)
    requires ValidConfig(cfg) && !Happens(Revives, now, cfg, steps) && !Happens(CommitsBehind, now, cfg, steps)
    requires MaySend(Run(Start(now), cfg, steps), worker, part)
    ensures var rows := Run(Start(now), cfg, steps).rows;
            forall record, prior | record in part && prior in rows && prior < record.id && rows[prior].aggregate == record.aggregate ::
              rows[prior].dispatchedAt.Some? || rows[prior].deadAt.Some?
  {
    NothingUndercuts(now, cfg, steps);
    RunKeepsFirstIff(now, cfg, steps);
    hide Happens, Run;
    assert steps[..|steps|] == steps;
    var s := After(now, cfg, steps, |steps|);
    assert First(s);
    forall record | record in part ensures NoPendingPrior(s.rows, record.id, record.aggregate) {
      assert record in RecordSet(part);
    }
  }

  lemma OvertakenIsLate(s: System, cfg: Config, step: Step)
    requires Sound(s, cfg) && First(s) && Enabled(s, cfg, step)
    ensures Overtaken(s, cfg, step) <==> LateSend(s, cfg, step)
  {
    if record :| record in Landing(step) && Behind(s.rows, s.sink, record.id) {
      var later :| later in s.sink && SameAggregate(s.rows, record.id, later) && record.id < later;
      assert NoPendingPrior(s.rows, later, s.rows[later].aggregate);
      assert Settled(s.rows[record.id]);
    }
  }

  /** As long as nothing is committed or revived behind an event held or delivered, deliveries are in order
      exactly when no send lands a dead letter behind a later event of its aggregate. */
  lemma RunDeliversInOrderUnlessLate(now: Time, cfg: Config, steps: seq<Step>)
    requires ValidConfig(cfg) && !Happens(Undercuts, now, cfg, steps)
    ensures Throughout(InOrder, now, cfg, steps) <==> !Happens(LateSend, now, cfg, steps)
  {
    RunKeepsFirstIff(now, cfg, steps);
    RunDeliversInOrderIff(now, cfg, steps);
    forall k | 0 <= k < |steps| ensures HappensAt(Overtaken, now, cfg, steps, k) <==> HappensAt(LateSend, now, cfg, steps, k) {
      RunIsSound(now, cfg, steps[..k]);
      hide Sound, Enabled, Run, First, Overtaken, LateSend, InOrder, Happens, Undercuts;
      assert First(After(now, cfg, steps, k));
      if Enabled(After(now, cfg, steps, k), cfg, steps[k]) { OvertakenIsLate(After(now, cfg, steps, k), cfg, steps[k]); }
    }
    hide HappensAt, InOrder;
  }
}
