/** What dispatchers do to a row when one of them acts after its lease has ended: runs of the outbox from
    the start, for any settings. */
module LateWrites {
  import opened Base
  import opened Outbox

  /** A dispatcher claims the row, and the sink turns it away or takes it. */
  function Refusal(worker: Id, record: Record): seq<Step> {
    [Claim(worker, {record.id}), SendFails(worker, [record], false)]
  }

  function Delivery(worker: Id, record: Record): seq<Step> {
    [Claim(worker, {record.id}), SendSucceeds(worker, [record])]
  }

  /** A refusal, recorded; then the dispatcher stops and the longest delay passes. */
  function FailedTry(worker: Id, record: Record): seq<Step> {
    Refusal(worker, record) + [RecordFailure(worker, record), Crash(worker), Tick(MAX_DELAY)]
  }

  /** As many tries, from attempt count 0 on. */
  function FailedTries(worker: Id, id: Id, aggregate: Id, n: nat): seq<Step> {
    if n == 0 then [] else FailedTries(worker, id, aggregate, n - 1) + FailedTry(worker, Record(id, aggregate, n - 1))
  }

  /** The time after which a lease taken before has ended. */
  function LeaseEnds(cfg: Config): seq<Step> { [Tick(cfg.claimTTL + 1)] }

  // ---- runs ----

  lemma {:induction false} RunCat(s: System, cfg: Config, first: seq<Step>, rest: seq<Step>)
    ensures Run(s, cfg, first + rest) == Run(Run(s, cfg, first), cfg, rest)
  {
    if rest == [] {
      assert first + rest == first;
    } else {
      RunCat(s, cfg, first, rest[..|rest| - 1]);
      assert (first + rest)[..|first + rest| - 1] == first + rest[..|rest| - 1];
    }
  }

  lemma RunOne(s: System, cfg: Config, step: Step)
    ensures Run(s, cfg, [step]) == if Enabled(s, cfg, step) then Next(s, cfg, step) else s
  {
    assert [step][..0] == [];
    hide Enabled, Next;
  }

  lemma RunTwo(s: System, cfg: Config, a: Step, b: Step)
    ensures Run(s, cfg, [a, b]) == Run(Run(s, cfg, [a]), cfg, [b])
  {
    assert [a, b] == [a] + [b];
    RunCat(s, cfg, [a], [b]);
  }

  lemma RunThree(s: System, cfg: Config, a: Step, b: Step, c: Step)
    ensures Run(s, cfg, [a, b, c]) == Run(Run(Run(s, cfg, [a]), cfg, [b]), cfg, [c])
  {
    assert [a, b, c] == [a, b] + [c];
    RunCat(s, cfg, [a, b], [c]);
    RunTwo(s, cfg, a, b);
  }

  // ---- one row ----

  /** The table holds one pending row, free to claim, with this many attempts. */
  predicate Ripe(s: System, cfg: Config, record: Record) {
    && s.rows.Keys == {record.id}
    && RecordOf(s.rows, record.id) == record && Claimable(s.rows, record.id, s.now, cfg)
  }

  /** The row once claimed and sent. */
  predicate Taken(s: System, s': System, worker: Id, record: Record) {
    && s'.rows.Keys == {record.id} && s'.now == s.now
    && RecordOf(s'.rows, record.id) == record && Pending(s'.rows[record.id])
    && s'.rows[record.id].claimedAt == Some(s.now)
    && (s'.rows[record.id].nextAttempt.Some? ==> s'.rows[record.id].nextAttempt.value <= s.now)
    && worker in s'.leases && s'.leases[worker].held == {record} && s'.leases[worker].since == s.now
    && s'.leases - {worker} == s.leases
  }

  lemma ClaimTakes(s: System, cfg: Config, worker: Id, record: Record)
    requires Ripe(s, cfg, record) && worker !in s.leases
    ensures var s' := Run(s, cfg, [Claim(worker, {record.id})]);
      Taken(s, s', worker, record) && s'.leases[worker].phase.Ready? && s'.sink == s.sink
  {
    RunOne(s, cfg, Claim(worker, {record.id}));
    hide NoPendingPrior, Run;
  }

  lemma RefusalTakes(s: System, cfg: Config, worker: Id, record: Record)
    requires Ripe(s, cfg, record) && worker !in s.leases
    ensures var s' := Run(s, cfg, Refusal(worker, record));
      Taken(s, s', worker, record) && s'.leases[worker].phase == Refused({record}) && s'.sink == s.sink
  {
    ClaimTakes(s, cfg, worker, record);
    RunTwo(s, cfg, Claim(worker, {record.id}), SendFails(worker, [record], false));
    hide Ripe;
    RunOne(Run(s, cfg, [Claim(worker, {record.id})]), cfg, SendFails(worker, [record], false));
    assert RecordSet([record]) == {record};
    hide Run;
  }

  lemma DeliveryTakes(s: System, cfg: Config, worker: Id, record: Record)
    requires Ripe(s, cfg, record) && worker !in s.leases
    ensures var s' := Run(s, cfg, Delivery(worker, record));
      Taken(s, s', worker, record) && s'.leases[worker].phase == Delivered({record})
  {
    ClaimTakes(s, cfg, worker, record);
    RunTwo(s, cfg, Claim(worker, {record.id}), SendSucceeds(worker, [record]));
    hide Ripe, Deliver;
    RunOne(Run(s, cfg, [Claim(worker, {record.id})]), cfg, SendSucceeds(worker, [record]));
    assert RecordSet([record]) == {record};
    hide Run;
  }

  /** Once the lease has ended the row is free for others. */
  lemma LeaseEndFrees(s: System, s': System, cfg: Config, worker: Id, record: Record)
    requires Taken(s, s', worker, record)
    ensures var late := Run(s', cfg, LeaseEnds(cfg));
      Ripe(late, cfg, record) && late == s'.(now := s'.now + cfg.claimTTL + 1)
  {
    RunOne(s', cfg, Tick(cfg.claimTTL + 1));
    hide Run;
  }

  /** The row after its failure was recorded and the delay is over. */
  predicate Failed(s: System, cfg: Config, record: Record) {
    var next := Record(record.id, record.aggregate, record.attempts + 1);
    if next.attempts < cfg.maxAttempts then Ripe(s, cfg, next)
    else s.rows.Keys == {record.id} && RecordOf(s.rows, record.id) == next
         && s.rows[record.id].deadAt.Some? && s.rows[record.id].dispatchedAt.None?
  }

  lemma FailureRipens(s: System, cfg: Config, record: Record)
    requires s.rows.Keys == {record.id} && RecordOf(s.rows, record.id) == record && Pending(s.rows[record.id])
    ensures Failed(s.(rows := FailRow(s.rows, record, s.now, cfg), now := s.now + MAX_DELAY), cfg, record)
  {
    var attempts := record.attempts + 1;
    assert RetryDelay(cfg, attempts) <= MAX_DELAY;
    hide RetryDelay;
  }

  /** Recording the refusal, stopping, and waiting. */
  lemma RecordingFails(s: System, cfg: Config, worker: Id, record: Record)
    requires s.rows.Keys == {record.id} && RecordOf(s.rows, record.id) == record && Pending(s.rows[record.id])
    requires worker in s.leases && s.leases[worker].phase == Refused({record})
    ensures var s' := Run(s, cfg, [RecordFailure(worker, record), Crash(worker), Tick(MAX_DELAY)]);
      Failed(s', cfg, record) && s'.leases == s.leases - {worker} && s'.sink == s.sink
  {
    FailureRipens(s, cfg, record);
    RunThree(s, cfg, RecordFailure(worker, record), Crash(worker), Tick(MAX_DELAY));
    RunOne(s, cfg, RecordFailure(worker, record));
    var s1 := Run(s, cfg, [RecordFailure(worker, record)]);
    RunOne(s1, cfg, Crash(worker));
    RunOne(Run(s1, cfg, [Crash(worker)]), cfg, Tick(MAX_DELAY));
    hide Run, FailRow, Failed;
  }

  lemma FailedTryFails(s: System, cfg: Config, worker: Id, record: Record)
    requires Ripe(s, cfg, record) && worker !in s.leases
    ensures var s' := Run(s, cfg, FailedTry(worker, record));
      Failed(s', cfg, record) && s'.leases == s.leases && s'.sink == s.sink
  {
    RefusalTakes(s, cfg, worker, record);
    RunCat(s, cfg, Refusal(worker, record), [RecordFailure(worker, record), Crash(worker), Tick(MAX_DELAY)]);
    hide Run, Failed, Ripe, Refusal;
    RecordingFails(Run(s, cfg, Refusal(worker, record)), cfg, worker, record);
  }

  lemma {:induction false} FailedTriesFail(s: System, cfg: Config, worker: Id, id: Id, aggregate: Id, n: nat)
    requires Ripe(s, cfg, Record(id, aggregate, 0)) && worker !in s.leases && n <= cfg.maxAttempts
    ensures var s' := Run(s, cfg, FailedTries(worker, id, aggregate, n));
      && s'.leases == s.leases && s'.sink == s.sink
      && (if n == 0 then s' == s else Failed(s', cfg, Record(id, aggregate, n - 1)))
  {
    if n > 0 {
      FailedTriesFail(s, cfg, worker, id, aggregate, n - 1);
      var s' := Run(s, cfg, FailedTries(worker, id, aggregate, n - 1));
      RunCat(s, cfg, FailedTries(worker, id, aggregate, n - 1), FailedTry(worker, Record(id, aggregate, n - 1)));
      hide Run, FailedTry, Ripe;
      FailedTryFails(s', cfg, worker, Record(id, aggregate, n - 1));
    }
  }

  lemma CommitRipens(now: Time, cfg: Config, id: Id, aggregate: Id)
    ensures var s := Run(Start(now), cfg, [Commit(id, aggregate)]);
      Ripe(s, cfg, Record(id, aggregate, 0)) && s.leases == map[] && s.sink == []
  {
    assert [Commit(id, aggregate)][..0] == [];
  }

  // ---- a late failure revives a dead letter ----

  /** Commit; a's send is refused and its lease ends; b's tries fail until the row is a dead letter. */
  function ToDeadLetter(cfg: Config, id: Id, aggregate: Id, a: Id, b: Id): seq<Step> {
    [Commit(id, aggregate)] + Refusal(a, Record(id, aggregate, 0)) + LeaseEnds(cfg) + FailedTries(b, id, aggregate, cfg.maxAttempts)
  }

  lemma ReachDeadLetter(now: Time, cfg: Config, id: Id, aggregate: Id, a: Id, b: Id)
    requires ValidConfig(cfg) && a != b
    ensures var record, s := Record(id, aggregate, 0), Run(Start(now), cfg, ToDeadLetter(cfg, id, aggregate, a, b));
      && s.rows.Keys == {id} && s.rows[id].deadAt.Some? && s.rows[id].dispatchedAt.None? && s.rows[id].attempts == cfg.maxAttempts
      && a in s.leases && s.leases[a].phase == Refused({record})
  {
    var record := Record(id, aggregate, 0);
    var p1 := [Commit(id, aggregate)];
    var p2 := p1 + Refusal(a, record);
    var p3 := p2 + LeaseEnds(cfg);
    RunCat(Start(now), cfg, p1, Refusal(a, record));
    RunCat(Start(now), cfg, p2, LeaseEnds(cfg));
    RunCat(Start(now), cfg, p3, FailedTries(b, id, aggregate, cfg.maxAttempts));
    CommitRipens(now, cfg, id, aggregate);
    hide Run, Refusal, LeaseEnds, FailedTries, Ripe;
    var s1 := Run(Start(now), cfg, p1);
    RefusalTakes(s1, cfg, a, record);
    LeaseEndFrees(s1, Run(s1, cfg, Refusal(a, record)), cfg, a, record);
    var s3 := Run(Start(now), cfg, p3);
    assert b !in s3.leases by { assert b !in s3.leases - {a}; }
    FailedTriesFail(s3, cfg, b, id, aggregate, cfg.maxAttempts);
  }

  /** From the start, for any settings: a's late failure, from the attempt count it read, makes the dead
      letter pending again exactly when more than one attempt is allowed. */
  lemma LateFailureRevives(now: Time, cfg: Config, id: Id, aggregate: Id, a: Id, b: Id)
    requires ValidConfig(cfg) && a != b
    ensures var dead := Run(Start(now), cfg, ToDeadLetter(cfg, id, aggregate, a, b));
      id in dead.rows && dead.rows[id].deadAt.Some? && dead.rows[id].attempts == cfg.maxAttempts
    ensures var steps := ToDeadLetter(cfg, id, aggregate, a, b) + [RecordFailure(a, Record(id, aggregate, 0))];
      var late := Run(Start(now), cfg, steps);
      && id in late.rows && late.rows[id].attempts == 1
      && (Pending(late.rows[id]) <==> cfg.maxAttempts >= 2)
  {
    var record := Record(id, aggregate, 0);
    ReachDeadLetter(now, cfg, id, aggregate, a, b);
    RunCat(Start(now), cfg, ToDeadLetter(cfg, id, aggregate, a, b), [RecordFailure(a, record)]);
    hide ToDeadLetter;
    RunOne(Run(Start(now), cfg, ToDeadLetter(cfg, id, aggregate, a, b)), cfg, RecordFailure(a, record));
    hide Run;
  }

  // ---- a late write leaves a row dispatched and dead ----

  /** Commit; all tries but one fail; a's send ends as given and its lease ends. */
  function ToLastTry(cfg: Config, id: Id, aggregate: Id, a: Id, b: Id, delivered: bool): seq<Step>
    requires ValidConfig(cfg)
  {
    var record := Record(id, aggregate, cfg.maxAttempts - 1);
    [Commit(id, aggregate)] + FailedTries(b, id, aggregate, cfg.maxAttempts - 1)
    + (if delivered then Delivery(a, record) else Refusal(a, record)) + LeaseEnds(cfg)
  }

  lemma ReachLastTry(now: Time, cfg: Config, id: Id, aggregate: Id, a: Id, b: Id, delivered: bool)
    requires ValidConfig(cfg) && a != b
    ensures var record := Record(id, aggregate, cfg.maxAttempts - 1);
      var s := Run(Start(now), cfg, ToLastTry(cfg, id, aggregate, a, b, delivered));
      && Ripe(s, cfg, record) && b !in s.leases && a in s.leases && s.leases[a].held == {record}
      && s.leases[a].phase == (if delivered then Delivered({record}) else Refused({record}))
  {
    var n := cfg.maxAttempts - 1;
    var record := Record(id, aggregate, n);
    var send := if delivered then Delivery(a, record) else Refusal(a, record);
    var p1 := [Commit(id, aggregate)];
    var p2 := p1 + FailedTries(b, id, aggregate, n);
    RunCat(Start(now), cfg, p1, FailedTries(b, id, aggregate, n));
    RunCat(Start(now), cfg, p2, send);
    RunCat(Start(now), cfg, p2 + send, LeaseEnds(cfg));
    CommitRipens(now, cfg, id, aggregate);
    hide Run, Refusal, Delivery, LeaseEnds, FailedTries, Ripe;
    FailedTriesFail(Run(Start(now), cfg, p1), cfg, b, id, aggregate, n);
    var s2 := Run(Start(now), cfg, p2);
    if delivered { DeliveryTakes(s2, cfg, a, record); } else { RefusalTakes(s2, cfg, a, record); }
    LeaseEndFrees(s2, Run(s2, cfg, send), cfg, a, record);
  }

  predicate DispatchedAndDead(s: System, id: Id) {
    id in s.rows && s.rows[id].dispatchedAt.Some? && s.rows[id].deadAt.Some?
  }

  lemma MarkDispatches(s: System, cfg: Config, worker: Id, record: Record)
    requires record.id in s.rows && worker in s.leases && s.leases[worker].phase == Delivered({record})
    ensures Run(s, cfg, [Mark(worker)]).rows == s.rows[record.id := s.rows[record.id].(dispatchedAt := Some(s.now))]
    ensures Run(s, cfg, [Mark(worker)]).leases - {worker} == s.leases - {worker}
  {
    RunOne(s, cfg, Mark(worker));
    assert IdSet({record}) == {record.id} by { assert record in {record}; }
    hide Run;
  }

  /** From the start, for any settings: b delivers and marks, and a's late last failure makes the row a dead
      letter too. */
  lemma LateFailureKills(now: Time, cfg: Config, id: Id, aggregate: Id, a: Id, b: Id)
    requires ValidConfig(cfg) && a != b
    ensures var record := Record(id, aggregate, cfg.maxAttempts - 1);
      var steps := ToLastTry(cfg, id, aggregate, a, b, false) + Delivery(b, record) + [Mark(b)] + [RecordFailure(a, record)];
      DispatchedAndDead(Run(Start(now), cfg, steps), id)
  {
    var record := Record(id, aggregate, cfg.maxAttempts - 1);
    var p1 := ToLastTry(cfg, id, aggregate, a, b, false);
    var p2 := p1 + Delivery(b, record);
    ReachLastTry(now, cfg, id, aggregate, a, b, false);
    RunCat(Start(now), cfg, p1, Delivery(b, record));
    RunCat(Start(now), cfg, p2, [Mark(b)]);
    RunCat(Start(now), cfg, p2 + [Mark(b)], [RecordFailure(a, record)]);
    hide ToLastTry, Delivery, Run, Ripe;
    var s1 := Run(Start(now), cfg, p1);
    DeliveryTakes(s1, cfg, b, record);
    var s2 := Run(s1, cfg, Delivery(b, record));
    MarkDispatches(s2, cfg, b, record);
    var s3 := Run(s2, cfg, [Mark(b)]);
    assert a in s3.leases && s3.leases[a] == s1.leases[a] by {
      assert a in s3.leases - {b} && (s3.leases - {b})[a] == (s2.leases - {b})[a];
    }
    RunOne(s3, cfg, RecordFailure(a, record));
  }

  /** From the start, for any settings and with no failure recorded late: a delivers, b's last try fails in
      time, and a's late mark dispatches the dead letter. */
  lemma LateMarkDoubles(now: Time, cfg: Config, id: Id, aggregate: Id, a: Id, b: Id)
    requires ValidConfig(cfg) && a != b
    ensures var record := Record(id, aggregate, cfg.maxAttempts - 1);
      var steps := ToLastTry(cfg, id, aggregate, a, b, true) + FailedTry(b, record) + [Mark(a)];
      DispatchedAndDead(Run(Start(now), cfg, steps), id)
  {
    var record := Record(id, aggregate, cfg.maxAttempts - 1);
    var p1 := ToLastTry(cfg, id, aggregate, a, b, true);
    ReachLastTry(now, cfg, id, aggregate, a, b, true);
    RunCat(Start(now), cfg, p1, FailedTry(b, record));
    RunCat(Start(now), cfg, p1 + FailedTry(b, record), [Mark(a)]);
    hide ToLastTry, FailedTry, Run, Ripe;
    var s1 := Run(Start(now), cfg, p1);
    FailedTryFails(s1, cfg, b, record);
    MarkDispatches(Run(s1, cfg, FailedTry(b, record)), cfg, a, record);
  }

  // ---- a late send delivers out of order ----

  /** Commit and a's claim; its lease ends; b's tries fail until the row is a dead letter. */
  function ToUnsent(cfg: Config, id: Id, aggregate: Id, a: Id, b: Id): seq<Step> {
    [Commit(id, aggregate)] + [Claim(a, {id})] + LeaseEnds(cfg) + FailedTries(b, id, aggregate, cfg.maxAttempts)
  }

  lemma ReachUnsent(now: Time, cfg: Config, id: Id, aggregate: Id, a: Id, b: Id)
    requires ValidConfig(cfg) && a != b
    ensures var record, s := Record(id, aggregate, 0), Run(Start(now), cfg, ToUnsent(cfg, id, aggregate, a, b));
      && s.rows.Keys == {id} && s.rows[id].deadAt.Some? && s.sink == []
      && b !in s.leases && a in s.leases && s.leases[a].phase.Ready? && s.leases[a].held == {record}
  {
    var record := Record(id, aggregate, 0);
    var p1 := [Commit(id, aggregate)];
    var p2 := p1 + [Claim(a, {id})];
    var p3 := p2 + LeaseEnds(cfg);
    RunCat(Start(now), cfg, p1, [Claim(a, {id})]);
    RunCat(Start(now), cfg, p2, LeaseEnds(cfg));
    RunCat(Start(now), cfg, p3, FailedTries(b, id, aggregate, cfg.maxAttempts));
    CommitRipens(now, cfg, id, aggregate);
    hide Run, LeaseEnds, FailedTries, Ripe;
    var s1 := Run(Start(now), cfg, p1);
    ClaimTakes(s1, cfg, a, record);
    LeaseEndFrees(s1, Run(s1, cfg, [Claim(a, {id})]), cfg, a, record);
    var s3 := Run(Start(now), cfg, p3);
    assert b !in s3.leases by { assert b !in s3.leases - {a}; }
    FailedTriesFail(s3, cfg, b, id, aggregate, cfg.maxAttempts);
  }

  /** The next event of the aggregate is committed and delivered, since the dead letter is not in its way. */
  lemma NextIsDelivered(s: System, cfg: Config, id: Id, next: Id, aggregate: Id, b: Id)
    requires s.rows.Keys == {id} && s.rows[id].deadAt.Some? && s.sink == [] && b !in s.leases && next != id
    ensures var s' := Run(s, cfg, [Commit(next, aggregate)] + Delivery(b, Record(next, aggregate, 0)));
      s'.sink == [next] && s'.leases - {b} == s.leases
  {
    var record := Record(next, aggregate, 0);
    RunCat(s, cfg, [Commit(next, aggregate)], Delivery(b, record));
    RunOne(s, cfg, Commit(next, aggregate));
    var s1 := Run(s, cfg, [Commit(next, aggregate)]);
    RunTwo(s1, cfg, Claim(b, {next}), SendSucceeds(b, [record]));
    RunOne(s1, cfg, Claim(b, {next}));
    var s2 := Run(s1, cfg, [Claim(b, {next})]);
    assert s2.leases[b].held == {record};
    assert RecordSet([record]) == {record};
    RunOne(s2, cfg, SendSucceeds(b, [record]));
    hide Run;
    DeliverOne([], record);
  }

  lemma DeliverOne(sink: seq<Id>, record: Record)
    ensures Deliver(sink, [record]) == if record.id in sink then sink else sink + [record.id]
  {
    assert [record][..0] == [];
  }

  /** From the start, for any settings: a's send of the row it claimed, after the row became a dead letter and
      the aggregate's next event went out, lands behind that event. */
  lemma LateSendOvertaken(now: Time, cfg: Config, id: Id, next: Id, aggregate: Id, a: Id, b: Id)
    requires ValidConfig(cfg) && a != b && id < next
    ensures var steps := ToUnsent(cfg, id, aggregate, a, b) + ([Commit(next, aggregate)] + Delivery(b, Record(next, aggregate, 0)))
                         + [SendSucceeds(a, [Record(id, aggregate, 0)])];
      Run(Start(now), cfg, steps).sink == [next, id]
  {
    var record := Record(id, aggregate, 0);
    var p1 := ToUnsent(cfg, id, aggregate, a, b);
    var p2 := [Commit(next, aggregate)] + Delivery(b, Record(next, aggregate, 0));
    ReachUnsent(now, cfg, id, aggregate, a, b);
    RunCat(Start(now), cfg, p1, p2);
    RunCat(Start(now), cfg, p1 + p2, [SendSucceeds(a, [record])]);
    hide ToUnsent, Delivery, Run;
    var s1 := Run(Start(now), cfg, p1);
    NextIsDelivered(s1, cfg, id, next, aggregate, b);
    var s2 := Run(s1, cfg, p2);
    assert a in s2.leases && s2.leases[a] == s1.leases[a] by { assert a in s2.leases - {b}; }
    assert RecordSet([record]) == {record};
    RunOne(s2, cfg, SendSucceeds(a, [record]));
    DeliverOne([next], record);
  }
}
