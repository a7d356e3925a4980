/** Outbox runs in which nobody acts after its lease has ended: none of the damage of OutboxFaults is done. */
module OutboxLeases {
  import opened Base
  import opened Outbox
  import opened OutboxFaults

  predicate WithinLease(s: System, cfg: Config, worker: Id) {
    worker in s.leases && s.now <= s.leases[worker].since + cfg.claimTTL
  }

  /** Acting after one's lease ended, or committing an event behind another of its aggregate. */
  predicate Untimely(s: System, cfg: Config, step: Step) {
    match step
    case Commit(_, _) => CommitsBehind(s, cfg, step)
    case SendSucceeds(worker, _) => !WithinLease(s, cfg, worker)
    case SendFails(worker, _, _) => !WithinLease(s, cfg, worker)
    case SendRejects(worker, _) => !WithinLease(s, cfg, worker)
    case Mark(worker) => !WithinLease(s, cfg, worker)
    case MarkLost(worker) => !WithinLease(s, cfg, worker)
    case RecordFailure(worker, _) => !WithinLease(s, cfg, worker)
    case FailureLost(worker, _) => !WithinLease(s, cfg, worker)
    case _ => false
  }

  /** A record a live lease still holds is exactly its row, pending and claimed by this lease. */
  predicate Held(rows: Rows, lease: Lease, record: Record) {
    && record.id in rows && record == RecordOf(rows, record.id)
    && Pending(rows[record.id]) && rows[record.id].claimedAt == Some(lease.since)
  }

  /** Live leases hold just what they claimed, no two of them the same row. */
  ghost predicate LeasesOk(s: System, cfg: Config) {
    && (forall worker | worker in s.leases :: s.leases[worker].since <= s.now)
    && (forall worker | WithinLease(s, cfg, worker) ::
          forall record | record in s.leases[worker].held :: Held(s.rows, s.leases[worker], record))
    && (forall w1, w2 | WithinLease(s, cfg, w1) && WithinLease(s, cfg, w2) && w1 != w2 ::
          forall r1, r2 | r1 in s.leases[w1].held && r2 in s.leases[w2].held :: r1.id != r2.id)
  }

  // ---- steps in time ----

  /** Rows changed that no live lease holds any longer, and nobody holds more. */
  lemma LessKeepsLeases(s: System, s': System, cfg: Config, changed: set<Id>)
    requires LeasesOk(s, cfg) && s'.now >= s.now
    requires forall id | id in s.rows && id !in changed :: id in s'.rows && s'.rows[id] == s.rows[id]
    requires forall worker | worker in s'.leases ::
               && worker in s.leases && s'.leases[worker].since == s.leases[worker].since
               && s'.leases[worker].held <= s.leases[worker].held
    requires forall worker, record | WithinLease(s', cfg, worker) && record in s'.leases[worker].held :: record.id !in changed
    ensures LeasesOk(s', cfg)
  {
    forall worker, record | WithinLease(s', cfg, worker) && record in s'.leases[worker].held
      ensures Held(s'.rows, s'.leases[worker], record)
    {
      assert WithinLease(s, cfg, worker) && Held(s.rows, s.leases[worker], record);
    }
    hide Held;
    forall w1, w2, r1, r2 | WithinLease(s', cfg, w1) && WithinLease(s', cfg, w2) && w1 != w2
                            && r1 in s'.leases[w1].held && r2 in s'.leases[w2].held
      ensures r1.id != r2.id
    {
      assert WithinLease(s, cfg, w1) && WithinLease(s, cfg, w2);
      assert r1 in s.leases[w1].held && r2 in s.leases[w2].held;
    }
  }

  lemma ClaimKeepsLeases(s: System, cfg: Config, worker: Id, ids: set<Id>)
    requires LeasesOk(s, cfg) && Enabled(s, cfg, Claim(worker, ids))
    ensures LeasesOk(Next(s, cfg, Claim(worker, ids)), cfg)
  {
    var s' := Next(s, cfg, Claim(worker, ids));
    hide NoPendingPrior;
    forall other, record | WithinLease(s, cfg, other) && record in s.leases[other].held
      ensures record.id in s.rows && record.id !in ids
    {
      assert Held(s.rows, s.leases[other], record);
    }
    forall other, record | WithinLease(s', cfg, other) && record in s'.leases[other].held
      ensures Held(s'.rows, s'.leases[other], record)
    {
      if other != worker { assert WithinLease(s, cfg, other) && Held(s.rows, s.leases[other], record); }
    }
    hide Held, Claimable;
    forall w1, w2, r1, r2 | WithinLease(s', cfg, w1) && WithinLease(s', cfg, w2) && w1 != w2
                            && r1 in s'.leases[w1].held && r2 in s'.leases[w2].held
      ensures r1.id != r2.id
    {
      assert w1 != worker ==> WithinLease(s, cfg, w1) && r1 in s.leases[w1].held;
      assert w2 != worker ==> WithinLease(s, cfg, w2) && r2 in s.leases[w2].held;
    }
  }

  /** The rows a step writes for records its dispatcher then holds no longer. */
  function Written(s: System, step: Step): set<Id> {
    match step
    case Mark(worker) => if worker in s.leases then IdSet(PartOf(s.leases[worker].phase)) else {}
    case RecordFailure(_, record) => {record.id}
    case _ => {}
  }

  lemma WrittenIsGivenUp(s: System, cfg: Config, step: Step, worker: Id, record: Record)
    requires Sound(s, cfg) && LeasesOk(s, cfg) && Enabled(s, cfg, step) && !Untimely(s, cfg, step)
    requires WithinLease(s, cfg, worker) && worker in Next(s, cfg, step).leases && record in Next(s, cfg, step).leases[worker].held
    ensures !step.Claim? ==> record in s.leases[worker].held && record.id !in Written(s, step)
  {
    hide SinkHolds, AttemptsOk, Claimable, Deliver, FailRow, MarkRows, ClaimRows, Held, CommitsBehind;
    if step.Mark? || step.RecordFailure? {
      assert WithinLease(s, cfg, step.worker);
      assert LeaseOk(s.rows, s.leases[step.worker], cfg);
      assert forall other | other in s.leases[step.worker].held :: RecordOk(s.rows, other, cfg);
    }
  }

  lemma NextKeepsLeases(s: System, cfg: Config, step: Step)
    requires Sound(s, cfg) && LeasesOk(s, cfg) && Enabled(s, cfg, step) && !Untimely(s, cfg, step)
    ensures LeasesOk(Next(s, cfg, step), cfg)
  {
    var s' := Next(s, cfg, step);
    if step.Claim? {
      hide Sound, LeasesOk, Claimable;
      ClaimKeepsLeases(s, cfg, step.worker, step.ids);
    } else {
      forall worker, record | WithinLease(s', cfg, worker) && record in s'.leases[worker].held
        ensures record.id !in Written(s, step)
      {
        hide Sound, LeasesOk, Claimable, Deliver, FailRow, MarkRows;
        WrittenIsGivenUp(s, cfg, step, worker, record);
      }
      forall worker | worker in s'.leases
        ensures worker in s.leases && s'.leases[worker].since == s.leases[worker].since
        ensures s'.leases[worker].held <= s.leases[worker].held
      {
        assert LeaseOk(s.rows, s.leases[worker], cfg);
        NextHoldsLess(s, cfg, step, worker);
      }
      hide Sound, LeasesOk, Deliver, Claimable;
      LessKeepsLeases(s, s', cfg, Written(s, step));
    }
  }

  /** A step in time does no damage. */
  lemma TimelyIsHarmless(s: System, cfg: Config, step: Step)
    requires Sound(s, cfg) && LeasesOk(s, cfg) && First(s) && Enabled(s, cfg, step) && !Untimely(s, cfg, step)
    ensures !Doubles(s, cfg, step) && !Revives(s, cfg, step) && !Undercuts(s, cfg, step) && !Overtaken(s, cfg, step)
  {
    if step.Mark? || step.RecordFailure? || Landing(step) != [] {
      var held := s.leases[step.worker].held;
      assert LeaseOk(s.rows, s.leases[step.worker], cfg);
      assert WithinLease(s, cfg, step.worker);
      assert forall record | record in held :: Held(s.rows, s.leases[step.worker], record);
      if Landing(step) != [] {
        OvertakenIsLate(s, cfg, step);
        assert forall record | record in step.part :: record in RecordSet(step.part);
      }
    }
    hide SinkHolds, AttemptsOk, NoPendingPrior, LeasesOk, Behind;
    if Undercuts(s, cfg, step) { UndercutsIsEither(s, cfg, step); }
  }

  // ---- runs in time ----

  lemma {:induction false} TimelyRun(now: Time, cfg: Config, steps: seq<Step>)
    requires ValidConfig(cfg) && !Happens(Untimely, now, cfg, steps)
    ensures LeasesOk(Run(Start(now), cfg, steps), cfg)
    ensures !Happens(Doubles, now, cfg, steps) && !Happens(Revives, now, cfg, steps)
    ensures !Happens(Undercuts, now, cfg, steps) && !Happens(Overtaken, now, cfg, steps)
  {
    if steps != [] {
      var n := |steps| - 1;
      var s := After(now, cfg, steps, n);
      if Happens(Untimely, now, cfg, steps[..n]) { PrefixHappens(Untimely, now, cfg, steps, n); }
      TimelyRun(now, cfg, steps[..n]);
      RunIsSound(now, cfg, steps[..n]);
      RunKeepsFirstIff(now, cfg, steps[..n]);
      AfterNext(now, cfg, steps, n);
      assert steps[..|steps|] == steps;
      assert First(After(now, cfg, steps[..n], n)) && steps[..n][..n] == steps[..n];
      hide Sound, LeasesOk, First, Enabled, Next, Run, Doubles, Revives, Undercuts, Overtaken, Untimely;
      if Enabled(s, cfg, steps[n]) {
        assert !Untimely(s, cfg, steps[n]) by { assert !HappensAt(Untimely, now, cfg, steps, n); }
        NextKeepsLeases(s, cfg, steps[n]);
        TimelyIsHarmless(s, cfg, steps[n]);
      }
      NotYet(Doubles, now, cfg, steps);
      NotYet(Revives, now, cfg, steps);
      NotYet(Undercuts, now, cfg, steps);
      NotYet(Overtaken, now, cfg, steps);
    }
  }

  lemma NotYet(kind: (System, Config, Step) -> bool, now: Time, cfg: Config, steps: seq<Step>)
    requires steps != [] && !Happens(kind, now, cfg, steps[..|steps| - 1]) && !HappensAt(kind, now, cfg, steps, |steps| - 1)
    ensures !Happens(kind, now, cfg, steps)
  {
    var n := |steps| - 1;
    AfterPrefix(now, cfg, steps, n);
    hide After, Enabled;
    forall k | 0 <= k < |steps| ensures !HappensAt(kind, now, cfg, steps, k) {
      if k < n { assert !HappensAt(kind, now, cfg, steps[..n], k); }
    }
  }

  /** While nobody acts after its lease ends and ids come in commit order, in every interleaving of any number
      of dispatchers: live leases are disjoint and hold pending rows, no row is both dispatched and dead, a
      row once settled stays so, whatever is held or delivered is first of its aggregate, and first
      deliveries are in id order. */
  lemma RunIsOrderly(now: Time, cfg: Config, steps: seq<Step>)
    requires ValidConfig(cfg) && !Happens(Untimely, now, cfg, steps)
    ensures LeasesOk(Run(Start(now), cfg, steps), cfg)
    ensures Throughout(OneFate, now, cfg, steps) && Throughout(First, now, cfg, steps) && Throughout(InOrder, now, cfg, steps)
    ensures forall j, k | 0 <= j <= k <= |steps| :: StaySettled(After(now, cfg, steps, j).rows, After(now, cfg, steps, k).rows)
  {
    TimelyRun(now, cfg, steps);
    hide Run, Happens, Throughout, StaySettled, LeasesOk, After;
    RunKeepsFateIff(now, cfg, steps);
    RunKeepsSettledIff(now, cfg, steps);
    RunKeepsFirstIff(now, cfg, steps);
    RunDeliversInOrderIff(now, cfg, steps);
  }
}
