/** The transactional outbox under any number of dispatchers: leases, deliveries, marks, failures,
    crashes and a clock, interleaved in any order. */
module Outbox {
  import opened Base

  datatype Config = Config(claimTTL: nat, maxAttempts: nat, retryBase: nat, batchSize: nat)

  predicate ValidConfig(cfg: Config) { cfg.maxAttempts >= 1 }

  /** One outbox row; its event id is unique, so the row's id stands for it. */
  datatype Row = Row(
    aggregate: Id, dispatchedAt: Option<Time>, deadAt: Option<Time>,
    claimedAt: Option<Time>, nextAttempt: Option<Time>, attempts: nat)

  type Rows = map<Id, Row>

  /** What a claim hands the dispatcher: attempts as they were when the row was claimed. */
  datatype Record = Record(id: Id, aggregate: Id, attempts: nat)

  predicate Pending(row: Row) { row.dispatchedAt.None? && row.deadAt.None? }

  predicate Settled(row: Row) { !Pending(row) }

  // ---- statements ----

  /** No earlier row of the aggregate is still pending. */
  predicate NoPendingPrior(rows: Rows, id: Id, aggregate: Id) {
    forall prior | prior in rows :: prior < id && rows[prior].aggregate == aggregate ==> Settled(rows[prior])
  }

  /** The claim query's candidate condition. */
  predicate Claimable(rows: Rows, id: Id, now: Time, cfg: Config) {
    && id in rows && Pending(rows[id])
    && (rows[id].nextAttempt.Some? ==> rows[id].nextAttempt.value <= now)
    && (rows[id].claimedAt.Some? ==> rows[id].claimedAt.value < now - cfg.claimTTL)
    && NoPendingPrior(rows, id, rows[id].aggregate)
  }

  function ClaimRows(rows: Rows, ids: set<Id>, now: Time): Rows {
    map id | id in rows :: if id in ids then rows[id].(claimedAt := Some(now)) else rows[id]
  }

  function RecordOf(rows: Rows, id: Id): Record
    requires id in rows
  {
    Record(id, rows[id].aggregate, rows[id].attempts)
  }

  function MarkRows(rows: Rows, ids: set<Id>, now: Time): Rows {
    map id | id in rows :: if id in ids then rows[id].(dispatchedAt := Some(now)) else rows[id]
  }

  function Pow2(n: nat): nat { if n == 0 then 1 else 2 * Pow2(n - 1) }

  const MAX_DELAY: nat := 3_600_000

  /** retryDelay, in milliseconds. */
  function RetryDelay(cfg: Config, attempt: int): nat
    requires attempt >= 1
  {
    var exponent := if attempt - 1 > 10 then 10 else attempt - 1;
    var delay := cfg.retryBase * Pow2(exponent);
    if delay > MAX_DELAY then MAX_DELAY else delay
  }

  /** recordFailure: an update by id alone, from the record's own attempt count. */
  function FailRow(rows: Rows, record: Record, now: Time, cfg: Config): Rows {
    if record.id !in rows then rows
    else
      var attempts := record.attempts + 1;
      var dead := attempts >= cfg.maxAttempts;
      rows[record.id := rows[record.id].(
        attempts := attempts,
        claimedAt := None,
        nextAttempt := if dead then None else Some(now + RetryDelay(cfg, attempts)),
        deadAt := if dead then Some(now) else None)]
  }

  /** The sink inserts the batch's events that it does not hold yet. */
  function Deliver(sink: seq<Id>, batch: seq<Record>): seq<Id> {
    if batch == [] then sink
    else
      var before := Deliver(sink, batch[..|batch| - 1]);
      var id := batch[|batch| - 1].id;
      if id in before then before else before + [id]
  }

  // ---- the system ----

  /** A dispatcher's progress with the rows it claimed: which it still has to deal with, and whether
      a part of them was just delivered or just refused. */
  datatype Phase = Ready | Delivered(part: set<Record>) | Refused(part: set<Record>)

  datatype Lease = Lease(since: Time, held: set<Record>, phase: Phase)

  datatype System = System(now: Time, rows: Rows, sink: seq<Id>, leases: map<Id, Lease>)

  datatype Step =
    | Commit(id: Id, aggregate: Id)
    | Tick(elapsed: nat)
    | Claim(worker: Id, ids: set<Id>)
    | SendSucceeds(worker: Id, part: seq<Record>)
    | SendFails(worker: Id, part: seq<Record>, landed: bool)
    | SendRejects(worker: Id, part: seq<Record>)
    | Mark(worker: Id)
    | MarkLost(worker: Id)
    | RecordFailure(worker: Id, record: Record)
    | FailureLost(worker: Id, record: Record)
    | Crash(worker: Id)

  function RecordSet(part: seq<Record>): set<Record> { set record | record in part }

  function IdSet(part: set<Record>): set<Id> { set record | record in part :: record.id }

  /** A dispatcher between sends may send any part of what it holds. The relay's own choice of parts
      is the business of module Relay. */
  predicate MaySend(s: System, worker: Id, part: seq<Record>) {
    worker in s.leases && s.leases[worker].phase.Ready? && part != [] && RecordSet(part) <= s.leases[worker].held
  }

  predicate Enabled(s: System, cfg: Config, step: Step) {
    match step
    case Commit(id, _) => id !in s.rows
    case Tick(_) => true
    case Claim(worker, ids) => worker !in s.leases && forall id | id in ids :: Claimable(s.rows, id, s.now, cfg)
    case SendSucceeds(worker, part) => MaySend(s, worker, part)
    case SendFails(worker, part, _) => MaySend(s, worker, part)
    case SendRejects(worker, part) => MaySend(s, worker, part)
    case Mark(worker) => worker in s.leases && s.leases[worker].phase.Delivered?
    case MarkLost(worker) => worker in s.leases && s.leases[worker].phase.Delivered?
    case RecordFailure(worker, record) =>
      worker in s.leases && s.leases[worker].phase.Refused? && record in s.leases[worker].phase.part
    case FailureLost(worker, record) =>
      worker in s.leases && s.leases[worker].phase.Refused? && record in s.leases[worker].phase.part
    case Crash(worker) => worker in s.leases
  }

  /** What remains after one refused record was dealt with. */
  function Without(lease: Lease, record: Record): Lease
    requires lease.phase.Refused?
  {
    var rest := lease.phase.part - {record};
    Lease(lease.since, lease.held - {record}, if rest == {} then Ready else Refused(rest))
  }

  function Next(s: System, cfg: Config, step: Step): System
    requires Enabled(s, cfg, step)
  {
    match step
    case Commit(id, aggregate) => s.(rows := s.rows[id := Row(aggregate, None, None, None, None, 0)])
    case Tick(elapsed) => s.(now := s.now + elapsed)
    case Claim(worker, ids) =>
      s.(rows := ClaimRows(s.rows, ids, s.now),
         leases := s.leases[worker := Lease(s.now, set id | id in ids :: RecordOf(s.rows, id), Ready)])
    case SendSucceeds(worker, part) =>
      s.(sink := Deliver(s.sink, part),
         leases := s.leases[worker := s.leases[worker].(phase := Delivered(RecordSet(part)))])
    // A transient error leaves it open whether the sink kept the batch.
    case SendFails(worker, part, landed) =>
      s.(sink := if landed then Deliver(s.sink, part) else s.sink,
         leases := s.leases[worker := s.leases[worker].(phase := Refused(RecordSet(part)))])
    // A permanent error names one record; a batch of several is split and tried again in parts.
    case SendRejects(worker, part) =>
      if |part| == 1 then s.(leases := s.leases[worker := s.leases[worker].(phase := Refused(RecordSet(part)))]) else s
    case Mark(worker) =>
      var lease := s.leases[worker];
      s.(rows := MarkRows(s.rows, IdSet(lease.phase.part), s.now),
         leases := s.leases[worker := Lease(lease.since, lease.held - lease.phase.part, Ready)])
    case MarkLost(worker) =>
      var lease := s.leases[worker];
      s.(leases := s.leases[worker := Lease(lease.since, lease.held - lease.phase.part, Ready)])
    case RecordFailure(worker, record) =>
      s.(rows := FailRow(s.rows, record, s.now, cfg), leases := s.leases[worker := Without(s.leases[worker], record)])
    case FailureLost(worker, record) =>
      s.(leases := s.leases[worker := Without(s.leases[worker], record)])
    case Crash(worker) => s.(leases := s.leases - {worker})
  }

  /** A run of any steps; one that is not enabled does not happen. */
  function Run(s: System, cfg: Config, steps: seq<Step>): System {
    if steps == [] then s
    else
      var before := Run(s, cfg, steps[..|steps| - 1]);
      if Enabled(before, cfg, steps[|steps| - 1]) then Next(before, cfg, steps[|steps| - 1]) else before
  }

  function Start(now: Time): System { System(now, map[], [], map[]) }

  // ---- any interleaving: nothing marked is missing from the sink ----

  predicate SinkHolds(s: System) {
    && (forall i, j :: 0 <= i < j < |s.sink| ==> s.sink[i] != s.sink[j])
    && (forall id | id in s.rows :: s.rows[id].dispatchedAt.Some? ==> id in s.sink)
    && (forall worker | worker in s.leases && s.leases[worker].phase.Delivered? ::
          forall record | record in s.leases[worker].phase.part :: record.id in s.sink)
  }

  lemma {:induction false} DeliverKeeps(sink: seq<Id>, batch: seq<Record>)
    requires forall i, j :: 0 <= i < j < |sink| ==> sink[i] != sink[j]
    ensures forall i, j :: 0 <= i < j < |Deliver(sink, batch)| ==> Deliver(sink, batch)[i] != Deliver(sink, batch)[j]
    ensures sink <= Deliver(sink, batch)
    ensures forall id :: id in Deliver(sink, batch) <==> id in sink || exists record :: record in batch && record.id == id
  {
    if batch != [] {
      var rest, last := batch[..|batch| - 1], batch[|batch| - 1];
      DeliverKeeps(sink, rest);
      assert forall record :: record in batch <==> record in rest || record == last;
    }
  }

  lemma NextKeepsSink(s: System, cfg: Config, step: Step)
    requires SinkHolds(s) && Enabled(s, cfg, step)
    ensures SinkHolds(Next(s, cfg, step))
  {
    hide Claimable, FailRow, NoPendingPrior;
    match step
    case SendSucceeds(worker, part) => DeliverKeeps(s.sink, part);
    case SendFails(worker, part, _) => DeliverKeeps(s.sink, part);
    case RecordFailure(worker, record) => FailKeepsDispatch(s.rows, record, s.now, cfg);
    case _ =>
  }

  lemma FailKeepsDispatch(rows: Rows, record: Record, now: Time, cfg: Config)
    ensures FailRow(rows, record, now, cfg).Keys == rows.Keys
    ensures forall id | id in rows :: FailRow(rows, record, now, cfg)[id].dispatchedAt == rows[id].dispatchedAt
  {
  }

  /** Under any interleaving, with crashes between send and mark and with leases overrun at will, the
      sink holds each event at most once and every row marked dispatched is in it. */
  lemma {:induction false} RunKeepsSink(now: Time, cfg: Config, steps: seq<Step>)
    ensures SinkHolds(Run(Start(now), cfg, steps))
  {
    if steps != [] {
      hide SinkHolds, Next, Enabled;
      RunKeepsSink(now, cfg, steps[..|steps| - 1]);
      var before := Run(Start(now), cfg, steps[..|steps| - 1]);
      if Enabled(before, cfg, steps[|steps| - 1]) { NextKeepsSink(before, cfg, steps[|steps| - 1]); }
    }
  }

  // ---- retry delays ----

  lemma {:induction false} Pow2Grows(a: nat, b: nat)
    requires a <= b
    ensures 1 <= Pow2(a) <= Pow2(b)
  {
    if a < b { Pow2Grows(a, b - 1); } else if a > 0 { Pow2Grows(a - 1, b - 1); }
  }

  lemma ScaleGrows(base: nat, a: nat, b: nat)
    requires a <= b
    ensures base * a <= base * b
  {
    assert base * (b - a) >= 0;
  }

  /** Delays never shrink from one attempt to the next, start at the base and stop at an hour. */
  lemma RetryDelayGrows(cfg: Config, attempt: int, later: int)
    requires 1 <= attempt <= later
    ensures Min(cfg.retryBase, MAX_DELAY) <= RetryDelay(cfg, attempt) <= RetryDelay(cfg, later) <= MAX_DELAY
  {
    var a := if attempt - 1 > 10 then 10 else attempt - 1;
    var b := if later - 1 > 10 then 10 else later - 1;
    Pow2Grows(0, a);
    Pow2Grows(a, b);
    ScaleGrows(cfg.retryBase, 1, Pow2(a));
    ScaleGrows(cfg.retryBase, Pow2(a), Pow2(b));
  }
}
