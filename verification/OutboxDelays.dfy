/** The back-off of failed deliveries: how long it is, and that a row waits it out. */
module OutboxDelays {
  import opened Base
  import opened Outbox
  import opened OutboxFaults

  /** The wait after so many failures, in milliseconds: the base after the first, twice the last one after each
      of the next ten, the same from then on, and never more than an hour. */
  function Wait(base: nat, failures: nat): nat
    requires failures >= 1
  {
    if failures == 1 then Min(base, 3_600_000)
    else if failures <= 11 then Min(2 * Wait(base, failures - 1), 3_600_000)
    else Wait(base, failures - 1)
  }

  lemma {:induction false} RetryDelayIsWait(cfg: Config, failures: nat)
    requires failures >= 1
    ensures RetryDelay(cfg, failures) == Wait(cfg.retryBase, failures)
  {
    if failures > 1 {
      RetryDelayIsWait(cfg, failures - 1);
      if failures <= 11 {
        assert Pow2(failures - 1) == 2 * Pow2(failures - 2);
        DoubleProduct(cfg.retryBase, Pow2(failures - 2));
      }
    }
  }

  lemma DoubleProduct(a: nat, b: nat)
    ensures a * (2 * b) == 2 * (a * b)
  {
  }

  /** After a failure with attempts left, a row first of its aggregate can be claimed exactly from the end of its
      wait on; after one without, never. */
  lemma FailedRowWaits(rows: Rows, record: Record, at: Time, now: Time, cfg: Config)
    requires record.id in rows && rows[record.id].dispatchedAt.None? && NoPendingPrior(rows, record.id, rows[record.id].aggregate)
    ensures Claimable(FailRow(rows, record, at, cfg), record.id, now, cfg) <==>
              record.attempts + 1 < cfg.maxAttempts && now >= at + Wait(cfg.retryBase, record.attempts + 1)
  {
    RetryDelayIsWait(cfg, record.attempts + 1);
    var rows' := FailRow(rows, record, at, cfg);
    assert forall prior | prior in rows' && prior != record.id :: prior in rows && rows'[prior] == rows[prior];
    hide RetryDelay, Wait;
  }

  /** No failure of this row is recorded between the two steps. */
  predicate NoFailureBetween(steps: seq<Step>, id: Id, i: nat, j: nat)
    requires i <= j <= |steps|
  {
    forall k | i < k < j && steps[k].RecordFailure? :: steps[k].record.id != id
  }

  lemma NextKeepsWait(s: System, cfg: Config, step: Step, id: Id)
    requires Enabled(s, cfg, step) && id in s.rows && !(step.RecordFailure? && step.record.id == id)
    ensures var s' := Next(s, cfg, step); id in s'.rows && s'.rows[id].nextAttempt == s.rows[id].nextAttempt
  {
    hide Claimable, Deliver;
  }

  lemma FailureSets(s: System, cfg: Config, worker: Id, record: Record)
    requires Sound(s, cfg) && Enabled(s, cfg, RecordFailure(worker, record)) && record.attempts + 1 < cfg.maxAttempts
    ensures var s' := Next(s, cfg, RecordFailure(worker, record));
      record.id in s'.rows && s'.rows[record.id].nextAttempt == Some(s.now + Wait(cfg.retryBase, record.attempts + 1))
  {
    RetryDelayIsWait(cfg, record.attempts + 1);
    assert LeaseOk(s.rows, s.leases[worker], cfg) && RecordOk(s.rows, record, cfg);
    hide Wait, RetryDelay, SinkHolds;
  }

  lemma {:induction false} WaitLasts(now: Time, cfg: Config, steps: seq<Step>, i: nat, j: nat, worker: Id, record: Record)
    requires ValidConfig(cfg) && i < j <= |steps| && steps[i] == RecordFailure(worker, record)
    requires Enabled(After(now, cfg, steps, i), cfg, steps[i]) && record.attempts + 1 < cfg.maxAttempts
    requires NoFailureBetween(steps, record.id, i, j)
    ensures var s := After(now, cfg, steps, j);
      record.id in s.rows
      && s.rows[record.id].nextAttempt == Some(After(now, cfg, steps, i).now + Wait(cfg.retryBase, record.attempts + 1))
    decreases j
  {
    AfterNext(now, cfg, steps, j - 1);
    if j == i + 1 {
      RunIsSound(now, cfg, steps[..i]);
      hide Sound, Enabled, Next, Run, Wait;
      FailureSets(After(now, cfg, steps, i), cfg, worker, record);
    } else {
      hide Enabled, Next, Run, Wait, After;
      WaitLasts(now, cfg, steps, i, j - 1, worker, record);
      var s := After(now, cfg, steps, j - 1);
      if Enabled(s, cfg, steps[j - 1]) { NextKeepsWait(s, cfg, steps[j - 1], record.id); }
    }
  }

  /** In every interleaving, leases overrun or not: from a failure recorded with attempts left to the next claim
      of its row at least the wait passes, unless another failure of the row was recorded in between. */
  lemma RunWaits(now: Time, cfg: Config, steps: seq<Step>, i: nat, j: nat, worker: Id, record: Record)
    requires ValidConfig(cfg) && i < j < |steps| && steps[i] == RecordFailure(worker, record)
    requires Enabled(After(now, cfg, steps, i), cfg, steps[i]) && record.attempts + 1 < cfg.maxAttempts
    requires NoFailureBetween(steps, record.id, i, j)
    requires steps[j].Claim? && record.id in steps[j].ids && Enabled(After(now, cfg, steps, j), cfg, steps[j])
    ensures After(now, cfg, steps, j).now >= After(now, cfg, steps, i).now + Wait(cfg.retryBase, record.attempts + 1)
  {
    WaitLasts(now, cfg, steps, i, j, worker, record);
    hide After, Wait, NoPendingPrior;
    assert Claimable(After(now, cfg, steps, j).rows, record.id, After(now, cfg, steps, j).now, cfg);
  }
}
