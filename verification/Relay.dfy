/** One pass of one dispatcher: the claim, the recursive relay that isolates what a sink refuses, and
    the analytics sink itself. */
module Relay {
  import opened Base
  import opened Outbox

  /** What a send comes back with. A transient error leaves it open whether the batch was kept. */
  datatype Answer = Accepted | Transient(landed: bool) | Permanent

  /** Everything outside the dispatcher, by how many sends or writes came before: the sink's answer to
      each send, which of the dispatcher's own database writes fail, and the clock it reads for each. */
  datatype Surroundings = Surroundings(answer: (nat, seq<Record>) -> Answer, writeFails: nat -> bool, clock: nat -> Time)

  datatype State = State(rows: Rows, sink: seq<Id>, sends: nat, writes: nat)

  /** What became of the records of a relay: `lost` are those whose write failed. */
  datatype Outcome = Outcome(state: State, marked: seq<Record>, failed: seq<Record>, lost: seq<Record>) {
    predicate Clean() { failed == [] && lost == [] }
  }

  function AfterSend(s: State, batch: seq<Record>, answer: Answer): State {
    s.(sends := s.sends + 1,
       sink := if answer.Accepted? || (answer.Transient? && answer.landed) then Deliver(s.sink, batch) else s.sink)
  }

  /** markDispatched: one write for the whole part. */
  function Marking(s: State, batch: seq<Record>, out: Surroundings): Outcome {
    if out.writeFails(s.writes) then Outcome(s.(writes := s.writes + 1), [], [], batch)
    else Outcome(s.(writes := s.writes + 1, rows := MarkRows(s.rows, IdSet(RecordSet(batch)), out.clock(s.writes))), batch, [], [])
  }

  /** recordBatchFailure: one write for each record, going on after a write that fails. */
  function Failing(s: State, batch: seq<Record>, cfg: Config, out: Surroundings): Outcome {
    if batch == [] then Outcome(s, [], [], [])
    else
      var done := Failing(s, batch[..|batch| - 1], cfg, out);
      var record := batch[|batch| - 1];
      var written := done.state.(writes := done.state.writes + 1);
      if out.writeFails(done.state.writes) then Outcome(written, [], done.failed, done.lost + [record])
      else Outcome(written.(rows := FailRow(written.rows, record, out.clock(done.state.writes), cfg)), [], done.failed + [record], done.lost)
  }

  function Join(left: Outcome, right: Outcome): Outcome {
    Outcome(right.state, left.marked + right.marked, left.failed + right.failed, left.lost + right.lost)
  }

  function Relayed(s: State, batch: seq<Record>, cfg: Config, out: Surroundings): Outcome
    requires batch != []
    decreases |batch|
  {
    var answer := out.answer(s.sends, batch);
    var sent := AfterSend(s, batch, answer);
    if answer.Accepted? then Marking(sent, batch, out)
    else if answer.Transient? || |batch| == 1 then Failing(sent, batch, cfg, out)
    else
      var middle := |batch| / 2;
      var left := Relayed(sent, batch[..middle], cfg, out);
      Join(left, Relayed(left.state, batch[middle..], cfg, out))
  }

  // ---- one fate for each record ----

  lemma {:induction false} FailingPartitions(s: State, batch: seq<Record>, cfg: Config, out: Surroundings)
    ensures var o := Failing(s, batch, cfg, out);
      o.marked == [] && multiset(o.failed) + multiset(o.lost) == multiset(batch)
      && o.state.sink == s.sink && o.state.sends == s.sends
  {
    if batch != [] {
      FailingPartitions(s, batch[..|batch| - 1], cfg, out);
      assert batch == batch[..|batch| - 1] + [batch[|batch| - 1]];
    }
  }

  lemma Halved(s: State, batch: seq<Record>, cfg: Config, out: Surroundings)
    requires |batch| > 1 && out.answer(s.sends, batch) == Permanent
    ensures var left := Relayed(s.(sends := s.sends + 1), batch[..|batch| / 2], cfg, out);
      Relayed(s, batch, cfg, out) == Join(left, Relayed(left.state, batch[|batch| / 2..], cfg, out))
  {
    hide Failing, Marking;
    assert AfterSend(s, batch, Permanent) == s.(sends := s.sends + 1);
  }

  lemma Whole(s: State, batch: seq<Record>, cfg: Config, out: Surroundings)
    requires batch != [] && (out.answer(s.sends, batch) == Permanent ==> |batch| == 1)
    ensures var answer := out.answer(s.sends, batch);
      Relayed(s, batch, cfg, out)
        == if answer.Accepted? then Marking(AfterSend(s, batch, answer), batch, out)
           else Failing(AfterSend(s, batch, answer), batch, cfg, out)
  {
    hide Failing, Marking;
  }

  predicate Partitions(o: Outcome, batch: seq<Record>) {
    multiset(o.marked) + multiset(o.failed) + multiset(o.lost) == multiset(batch)
  }

  lemma JoinPartitions(left: Outcome, right: Outcome, a: seq<Record>, b: seq<Record>)
    requires Partitions(left, a) && Partitions(right, b)
    ensures Partitions(Join(left, right), a + b)
  {
  }

  /** For any sink behaviour and any failing writes, every record of the batch meets exactly one fate:
      marked dispatched, one failure recorded, or its one write lost. */
  lemma {:induction false} EachRecordHasOneFate(s: State, batch: seq<Record>, cfg: Config, out: Surroundings)
    requires batch != []
    ensures Partitions(Relayed(s, batch, cfg, out), batch)
    decreases |batch|
  {
    var answer := out.answer(s.sends, batch);
    if answer.Permanent? && |batch| > 1 {
      hide Relayed, Partitions;
      var a, b := batch[..|batch| / 2], batch[|batch| / 2..];
      Halved(s, batch, cfg, out);
      EachRecordHasOneFate(s.(sends := s.sends + 1), a, cfg, out);
      var left := Relayed(s.(sends := s.sends + 1), a, cfg, out);
      EachRecordHasOneFate(left.state, b, cfg, out);
      JoinPartitions(left, Relayed(left.state, b, cfg, out), a, b);
      assert batch == a + b;
    } else {
      hide Relayed, Failing;
      Whole(s, batch, cfg, out);
      FailingPartitions(AfterSend(s, batch, answer), batch, cfg, out);
    }
  }

  lemma {:induction false} FailingLosesNothing(s: State, batch: seq<Record>, cfg: Config, out: Surroundings)
    requires forall i: nat :: !out.writeFails(i)
    ensures Failing(s, batch, cfg, out).lost == []
    ensures Failing(s, batch, cfg, out).failed == batch
  {
    if batch != [] {
      FailingLosesNothing(s, batch[..|batch| - 1], cfg, out);
      assert batch == batch[..|batch| - 1] + [batch[|batch| - 1]];
    }
  }

  // ---- what the fates mean for the rows ----

  predicate DistinctIds(batch: seq<Record>) {
    forall i, j :: 0 <= i < j < |batch| ==> batch[i].id != batch[j].id
  }

  predicate Names(batch: seq<Record>, id: Id) { exists record | record in batch :: record.id == id }

  /** The row got what `record`'s fate says, at a clock reading of this relay. */
  ghost predicate MarkedDuring(o: Outcome, s: State, id: Id, out: Surroundings)
    requires id in s.rows && id in o.state.rows
  {
    exists i: nat :: s.writes <= i < o.state.writes && o.state.rows[id] == s.rows[id].(dispatchedAt := Some(out.clock(i)))
  }

  ghost predicate FailedDuring(o: Outcome, s: State, record: Record, cfg: Config, out: Surroundings)
    requires record.id in s.rows && record.id in o.state.rows
  {
    exists i: nat :: s.writes <= i < o.state.writes && o.state.rows[record.id] == FailRow(s.rows, record, out.clock(i), cfg)[record.id]
  }

  /** How a row ends up, given the fate of its record. */
  ghost predicate RowMeets(o: Outcome, s: State, id: Id, cfg: Config, out: Surroundings)
    requires id in s.rows
  {
    && id in o.state.rows
    && (Names(o.marked, id) ==> MarkedDuring(o, s, id, out))
    && (forall record | record in o.failed && record.id == id :: FailedDuring(o, s, record, cfg, out))
    && (!Names(o.marked, id) && !Names(o.failed, id) ==> o.state.rows[id] == s.rows[id])
  }

  ghost predicate RowsMeet(o: Outcome, s: State, cfg: Config, out: Surroundings) {
    && o.state.rows.Keys == s.rows.Keys && s.writes <= o.state.writes
    && forall id | id in s.rows :: RowMeets(o, s, id, cfg, out)
  }

  /** No record outside the batch is touched. */
  predicate Within(o: Outcome, batch: seq<Record>) {
    && (forall record | record in o.marked :: record in batch)
    && (forall record | record in o.failed :: record in batch)
  }

  lemma PrefixIsDistinct(batch: seq<Record>, i: nat)
    requires DistinctIds(batch) && i <= |batch|
    ensures DistinctIds(batch[..i]) && DistinctIds(batch[i..])
    ensures forall a, b | a in batch[..i] && b in batch[i..] :: a.id != b.id
  {
  }

  lemma FailingLast(s: State, batch: seq<Record>, cfg: Config, out: Surroundings)
    requires batch != []
    ensures var done, record := Failing(s, batch[..|batch| - 1], cfg, out), batch[|batch| - 1];
      var written := done.state.(writes := done.state.writes + 1);
      Failing(s, batch, cfg, out) ==
        if out.writeFails(done.state.writes) then Outcome(written, [], done.failed, done.lost + [record])
        else Outcome(written.(rows := FailRow(written.rows, record, out.clock(done.state.writes), cfg)), [], done.failed + [record], done.lost)
  {
    hide FailRow;
  }

  lemma {:induction false} FailingRows(s: State, batch: seq<Record>, cfg: Config, out: Surroundings)
    requires DistinctIds(batch)
    ensures var o := Failing(s, batch, cfg, out); RowsMeet(o, s, cfg, out) && Within(o, batch)
  {
    if batch != [] {
      hide RowsMeet, FailRow, Failing;
      var rest, record := batch[..|batch| - 1], batch[|batch| - 1];
      PrefixIsDistinct(batch, |batch| - 1);
      FailingRows(s, rest, cfg, out);
      FailingLast(s, batch, cfg, out);
      var done := Failing(s, rest, cfg, out);
      FailingPartitions(s, rest, cfg, out);
      assert record in batch[|batch| - 1..];
      if out.writeFails(done.state.writes) {
        LostRows(done, s, record, cfg, out);
      } else {
        FailedRows(done, s, record, cfg, out);
      }
    }
  }

  /** One more write, which this row does not see. */
  lemma SeenLater(done: Outcome, o: Outcome, s: State, id: Id, cfg: Config, out: Surroundings)
    requires id in s.rows && RowMeets(done, s, id, cfg, out)
    requires id in o.state.rows && o.state.rows[id] == done.state.rows[id] && done.state.writes <= o.state.writes
    requires Names(o.marked, id) <==> Names(done.marked, id)
    requires forall record: Record | record.id == id :: record in o.failed <==> record in done.failed
    ensures RowMeets(o, s, id, cfg, out)
  {
    hide FailRow;
    forall record | record in o.failed && record.id == id ensures FailedDuring(o, s, record, cfg, out) {
      assert FailedDuring(done, s, record, cfg, out);
    }
  }

  lemma LostRows(done: Outcome, s: State, record: Record, cfg: Config, out: Surroundings)
    requires RowsMeet(done, s, cfg, out) && done.marked == []
    ensures RowsMeet(Outcome(done.state.(writes := done.state.writes + 1), [], done.failed, done.lost + [record]), s, cfg, out)
  {
    var o := Outcome(done.state.(writes := done.state.writes + 1), [], done.failed, done.lost + [record]);
    hide RowMeets;
    forall id | id in s.rows ensures RowMeets(o, s, id, cfg, out) { SeenLater(done, o, s, id, cfg, out); }
  }

  lemma FailedRow(done: Outcome, o: Outcome, s: State, record: Record, cfg: Config, out: Surroundings)
    requires record.id in s.rows && RowMeets(done, s, record.id, cfg, out) && s.writes <= done.state.writes
    requires o.marked == done.marked == [] && !Names(done.failed, record.id) && o.failed == done.failed + [record]
    requires o.state == done.state.(writes := done.state.writes + 1,
                                    rows := FailRow(done.state.rows, record, out.clock(done.state.writes), cfg))
    ensures RowMeets(o, s, record.id, cfg, out)
  {
    var t := out.clock(done.state.writes);
    FailRowElsewhere(done.state.rows, record, t, cfg);
    FailRowReads(done.state.rows, s.rows, record, t, cfg);
    hide FailRow;
    assert FailedDuring(o, s, record, cfg, out);
    assert record in o.failed;
    forall r | r in o.failed && r.id == record.id ensures r == record {
      assert r in done.failed || r == record;
    }
  }

  lemma FailedRows(done: Outcome, s: State, record: Record, cfg: Config, out: Surroundings)
    requires RowsMeet(done, s, cfg, out) && done.marked == [] && !Names(done.failed, record.id)
    ensures var t := done.state.(writes := done.state.writes + 1);
      RowsMeet(Outcome(t.(rows := FailRow(t.rows, record, out.clock(done.state.writes), cfg)), [], done.failed + [record], done.lost), s, cfg, out)
  {
    var t := done.state.(writes := done.state.writes + 1);
    var o := Outcome(t.(rows := FailRow(t.rows, record, out.clock(done.state.writes), cfg)), [], done.failed + [record], done.lost);
    FailRowElsewhere(t.rows, record, out.clock(done.state.writes), cfg);
    hide FailRow, RowMeets;
    forall id | id in s.rows ensures RowMeets(o, s, id, cfg, out) {
      if id == record.id {
        FailedRow(done, o, s, record, cfg, out);
      } else {
        assert forall r :: r in o.failed <==> r in done.failed || r == record;
        SeenLater(done, o, s, id, cfg, out);
      }
    }
  }

  lemma FailRowElsewhere(rows: Rows, record: Record, now: Time, cfg: Config)
    ensures FailRow(rows, record, now, cfg).Keys == rows.Keys
    ensures forall id | id in rows && id != record.id :: FailRow(rows, record, now, cfg)[id] == rows[id]
  {
  }

  lemma FailRowReads(rows: Rows, rows': Rows, record: Record, now: Time, cfg: Config)
    requires record.id in rows && record.id in rows' && rows[record.id] == rows'[record.id]
    ensures FailRow(rows, record, now, cfg)[record.id] == FailRow(rows', record, now, cfg)[record.id]
  {
  }

  lemma MarkingRows(s: State, batch: seq<Record>, cfg: Config, out: Surroundings)
    ensures var o := Marking(s, batch, out); RowsMeet(o, s, cfg, out) && Within(o, batch)
  {
    var o := Marking(s, batch, out);
    forall id | id in s.rows ensures RowMeets(o, s, id, cfg, out) {
      assert id in IdSet(RecordSet(batch)) <==> Names(batch, id);
      if !out.writeFails(s.writes) && Names(batch, id) {
        assert o.state.rows[id] == s.rows[id].(dispatchedAt := Some(out.clock(s.writes)));
        assert MarkedDuring(o, s, id, out);
      }
    }
  }

  /** An outcome counted from a later state, where the row was still as it was. */
  lemma SeenSince(right: Outcome, o: Outcome, mid: State, s: State, id: Id, cfg: Config, out: Surroundings)
    requires id in s.rows && id in mid.rows && mid.rows[id] == s.rows[id] && s.writes <= mid.writes
    requires RowMeets(right, mid, id, cfg, out) && o.state == right.state
    requires Names(o.marked, id) <==> Names(right.marked, id)
    requires forall record: Record | record.id == id :: record in o.failed <==> record in right.failed
    ensures RowMeets(o, s, id, cfg, out)
  {
    forall record | record in o.failed && record.id == id ensures FailedDuring(o, s, record, cfg, out) {
      assert FailedDuring(right, mid, record, cfg, out);
      var i: nat :| mid.writes <= i < right.state.writes && right.state.rows[id] == FailRow(mid.rows, record, out.clock(i), cfg)[id];
      FailRowReads(mid.rows, s.rows, record, out.clock(i), cfg);
    }
    hide FailRow;
    if Names(o.marked, id) { assert MarkedDuring(right, mid, id, out); }
    assert Names(o.failed, id) <==> Names(right.failed, id);
  }

  lemma Joined(left: Outcome, right: Outcome, id: Id)
    ensures Names(Join(left, right).marked, id) <==> Names(left.marked, id) || Names(right.marked, id)
    ensures Names(Join(left, right).failed, id) <==> Names(left.failed, id) || Names(right.failed, id)
  {
    var o := Join(left, right);
    assert forall r :: r in o.marked <==> r in left.marked || r in right.marked;
    assert forall r :: r in o.failed <==> r in left.failed || r in right.failed;
  }

  lemma JoinRow(s: State, left: Outcome, right: Outcome, lefts: seq<Record>, rights: seq<Record>, id: Id, cfg: Config, out: Surroundings)
    requires RowsMeet(left, s, cfg, out) && Within(left, lefts) && RowsMeet(right, left.state, cfg, out) && Within(right, rights)
    requires id in s.rows && forall a, b | a in lefts && b in rights :: a.id != b.id
    ensures RowMeets(Join(left, right), s, id, cfg, out)
  {
    var o := Join(left, right);
    assert RowMeets(left, s, id, cfg, out) && RowMeets(right, left.state, id, cfg, out);
    Joined(left, right, id);
    assert forall r :: r in o.failed <==> r in left.failed || r in right.failed;
    if Names(right.marked, id) || Names(right.failed, id) {
      assert !Names(left.marked, id) && !Names(left.failed, id);
      assert left.state.rows[id] == s.rows[id];
      hide RowMeets, RowsMeet;
      SeenSince(right, o, left.state, s, id, cfg, out);
    } else {
      assert right.state.rows[id] == left.state.rows[id];
      hide RowMeets, RowsMeet;
      SeenLater(left, o, s, id, cfg, out);
    }
  }

  lemma JoinRows(s: State, left: Outcome, right: Outcome, lefts: seq<Record>, rights: seq<Record>, cfg: Config, out: Surroundings)
    requires RowsMeet(left, s, cfg, out) && Within(left, lefts)
    requires RowsMeet(right, left.state, cfg, out) && Within(right, rights)
    requires forall a, b | a in lefts && b in rights :: a.id != b.id
    ensures RowsMeet(Join(left, right), s, cfg, out) && Within(Join(left, right), lefts + rights)
  {
    forall id | id in s.rows ensures RowMeets(Join(left, right), s, id, cfg, out) {
      JoinRow(s, left, right, lefts, rights, id, cfg, out);
    }
  }

  /** The rows after a relay: a marked record's row is dispatched, a failed record's row has exactly one
      failure recorded, every other row is as it was. */
  lemma {:induction false} RelayedRows(s: State, batch: seq<Record>, cfg: Config, out: Surroundings)
    requires batch != [] && DistinctIds(batch)
    ensures var o := Relayed(s, batch, cfg, out); RowsMeet(o, s, cfg, out) && Within(o, batch)
    decreases |batch|
  {
    var answer := out.answer(s.sends, batch);
    var sent := AfterSend(s, batch, answer);
    hide RowMeets;
    if answer.Permanent? && |batch| > 1 {
      hide RowsMeet, Within, Relayed;
      Halved(s, batch, cfg, out);
      var a, b := batch[..|batch| / 2], batch[|batch| / 2..];
      PrefixIsDistinct(batch, |batch| / 2);
      var sent' := s.(sends := s.sends + 1);
      RelayedRows(sent', a, cfg, out);
      var left := Relayed(sent', a, cfg, out);
      RelayedRows(left.state, b, cfg, out);
      JoinRows(sent', left, Relayed(left.state, b, cfg, out), a, b, cfg, out);
      assert batch == a + b;
      SameStart(sent', s, Relayed(s, batch, cfg, out), cfg, out);
    } else {
      hide RowsMeet, Within, Relayed, Failing, Marking;
      Whole(s, batch, cfg, out);
      if answer.Accepted? { MarkingRows(sent, batch, cfg, out); } else { FailingRows(sent, batch, cfg, out); }
      SameStart(sent, s, Relayed(s, batch, cfg, out), cfg, out);
    }
  }

  lemma SameStart(a: State, b: State, o: Outcome, cfg: Config, out: Surroundings)
    requires a.rows == b.rows && a.writes == b.writes && RowsMeet(o, a, cfg, out)
    ensures RowsMeet(o, b, cfg, out)
  {
    hide FailRow;
    forall id | id in b.rows ensures RowMeets(o, b, id, cfg, out) {
      assert RowMeets(o, a, id, cfg, out);
      forall record | record in o.failed && record.id == id ensures FailedDuring(o, b, record, cfg, out) {
        assert FailedDuring(o, a, record, cfg, out);
      }
    }
  }

  // ---- a sink that refuses exactly the bad records, and for good ----

  function Good(batch: seq<Record>, bad: set<Id>): seq<Record> {
    if batch == [] then []
    else Good(batch[..|batch| - 1], bad) + (if batch[|batch| - 1].id in bad then [] else [batch[|batch| - 1]])
  }

  function Bad(batch: seq<Record>, bad: set<Id>): seq<Record> {
    if batch == [] then []
    else Bad(batch[..|batch| - 1], bad) + (if batch[|batch| - 1].id in bad then [batch[|batch| - 1]] else [])
  }

  /** Nothing fails but a batch that holds a bad record, and that for good. */
  ghost predicate RefusesExactly(out: Surroundings, bad: set<Id>) {
    && (forall i: nat :: !out.writeFails(i))
    && (forall i: nat, batch: seq<Record> ::
          out.answer(i, batch) == if (forall r | r in batch :: r.id !in bad) then Accepted else Permanent)
  }

  lemma {:induction false} SplitGood(a: seq<Record>, b: seq<Record>, bad: set<Id>)
    ensures Good(a + b, bad) == Good(a, bad) + Good(b, bad)
    ensures Bad(a + b, bad) == Bad(a, bad) + Bad(b, bad)
  {
    if b == [] {
      assert a + b == a;
    } else {
      SplitGood(a, b[..|b| - 1], bad);
      assert (a + b)[..|a + b| - 1] == a + b[..|b| - 1];
    }
  }

  lemma {:induction false} AllGood(batch: seq<Record>, bad: set<Id>)
    ensures (Bad(batch, bad) == []) == (forall r | r in batch :: r.id !in bad)
    ensures Bad(batch, bad) == [] ==> Good(batch, bad) == batch
  {
    if batch != [] {
      AllGood(batch[..|batch| - 1], bad);
      assert batch == batch[..|batch| - 1] + [batch[|batch| - 1]];
    }
  }

  lemma {:induction false} DeliverTwice(sink: seq<Id>, a: seq<Record>, b: seq<Record>)
    ensures Deliver(Deliver(sink, a), b) == Deliver(sink, a + b)
  {
    if b == [] {
      assert a + b == a;
    } else {
      DeliverTwice(sink, a, b[..|b| - 1]);
      assert (a + b)[..|a + b| - 1] == a + b[..|b| - 1];
    }
  }

  lemma RefusedAlone(s: State, record: Record, cfg: Config, out: Surroundings, bad: set<Id>)
    requires RefusesExactly(out, bad) && record.id in bad
    ensures var o := Relayed(s, [record], cfg, out);
      && o.marked == [] && o.failed == [record] && o.lost == []
      && o.state.sink == s.sink && o.state.sends == s.sends + 1
  {
    var answer := out.answer(s.sends, [record]);
    assert record in [record];
    FailingLosesNothing(AfterSend(s, [record], answer), [record], cfg, out);
    FailingPartitions(AfterSend(s, [record], answer), [record], cfg, out);
    hide Failing, Marking;
    assert answer == Permanent;
  }

  lemma AnswerTo(out: Surroundings, bad: set<Id>, i: nat, batch: seq<Record>)
    requires RefusesExactly(out, bad)
    ensures out.answer(i, batch) == if Bad(batch, bad) == [] then Accepted else Permanent
    ensures Bad(batch, bad) == [] ==> Good(batch, bad) == batch
  {
    AllGood(batch, bad);
  }

  lemma Singleton(record: Record, bad: set<Id>)
    ensures Bad([record], bad) == (if record.id in bad then [record] else [])
    ensures Good([record], bad) == (if record.id in bad then [] else [record])
  {
    var one := [record];
    assert one[..0] == [];
  }

  /** One send to such a sink: a good batch is marked, a bad record alone is refused, a bad batch is halved. */
  lemma RefusedOrMarked(s: State, batch: seq<Record>, cfg: Config, out: Surroundings, bad: set<Id>)
    requires batch != [] && RefusesExactly(out, bad)
    ensures var o := Relayed(s, batch, cfg, out);
      && (Bad(batch, bad) == [] ==>
            o.marked == Good(batch, bad) && o.failed == [] && o.lost == []
            && o.state.sink == Deliver(s.sink, batch) && o.state.sends == s.sends + 1)
      && (Bad(batch, bad) != [] && |batch| == 1 ==>
            Good(batch, bad) == [] && o.marked == [] && o.failed == Bad(batch, bad) && o.lost == []
            && o.state.sink == s.sink && o.state.sends == s.sends + 1)
      && (Bad(batch, bad) != [] && |batch| > 1 ==>
            var left := Relayed(s.(sends := s.sends + 1), batch[..|batch| / 2], cfg, out);
            o == Join(left, Relayed(left.state, batch[|batch| / 2..], cfg, out)))
  {
    AnswerTo(out, bad, s.sends, batch);
    if Bad(batch, bad) == [] {
      hide Failing, Good, Bad, Deliver;
      assert !out.writeFails(s.writes);
    } else if |batch| == 1 {
      hide Relayed, Deliver;
      assert batch == [batch[0]];
      Singleton(batch[0], bad);
      RefusedAlone(s, batch[0], cfg, out, bad);
    } else {
      hide Relayed, Deliver, Good, Bad;
      Halved(s, batch, cfg, out);
    }
  }

  /** Exactly the good records are marked and delivered, in the batch's order; exactly the bad ones have
      a failure recorded. */
  lemma {:induction false} GoodRecordsGetThrough(s: State, batch: seq<Record>, cfg: Config, out: Surroundings, bad: set<Id>)
    requires batch != [] && RefusesExactly(out, bad)
    ensures var o := Relayed(s, batch, cfg, out);
      && o.marked == Good(batch, bad) && o.failed == Bad(batch, bad) && o.lost == []
      && o.state.sink == Deliver(s.sink, Good(batch, bad))
    decreases |batch|
  {
    hide Relayed, RefusesExactly, Good, Bad, Deliver;
    RefusedOrMarked(s, batch, cfg, out, bad);
    AllGood(batch, bad);
    if Bad(batch, bad) != [] {
      if |batch| > 1 {
        var middle := |batch| / 2;
        var a, b := batch[..middle], batch[middle..];
        assert batch == a + b;
        var left := Relayed(s.(sends := s.sends + 1), a, cfg, out);
        GoodRecordsGetThrough(s.(sends := s.sends + 1), a, cfg, out, bad);
        GoodRecordsGetThrough(left.state, b, cfg, out, bad);
        SplitGood(a, b, bad);
        DeliverTwice(s.sink, Good(a, bad), Good(b, bad));
      } else {
        DeliverNothing(s.sink);
      }
    }
  }

  lemma DeliverNothing(sink: seq<Id>)
    ensures Deliver(sink, []) == sink
  {
  }

  // ---- the cost of isolating ----

  function CeilLog2(n: nat): nat
    requires n >= 1
  {
    if n == 1 then 0 else 1 + CeilLog2((n + 1) / 2)
  }

  /** CeilLog2(n) is the least d with 2^d >= n. */
  lemma {:induction false} CeilLog2IsLeast(n: nat)
    requires n >= 1
    ensures Pow2(CeilLog2(n)) >= n && (CeilLog2(n) > 0 ==> Pow2(CeilLog2(n) - 1) < n)
  {
    if n > 1 {
      CeilLog2IsLeast((n + 1) / 2);
      if n == 2 { assert CeilLog2(1) == 0; }
    }
  }

  lemma {:induction false} CeilLog2Grows(m: nat, n: nat)
    requires 1 <= m <= n
    ensures CeilLog2(m) <= CeilLog2(n)
  {
    if m > 1 { CeilLog2Grows((m + 1) / 2, (n + 1) / 2); }
  }

  /** The most sends that k bad records may cost, when d halvings reach a single record. */
  function Budget(k: nat, d: nat): nat {
    if k == 0 then 1 else 2 * k * d + 1
  }

  lemma HalvesCost(kl: nat, kr: nat, dl: nat, dr: nat, d: nat)
    requires dl <= d && dr <= d && kl + kr >= 1
    ensures 1 + Budget(kl, dl) + Budget(kr, dr) <= Budget(kl + kr, d + 1)
  {
    assert kl * dl <= kl * d && kr * dr <= kr * d;
    assert (kl + kr) * (d + 1) == kl * d + kr * d + kl + kr;
    assert 2 * kl * dl == 2 * (kl * dl) && 2 * kr * dr == 2 * (kr * dr);
    assert 2 * (kl + kr) * (d + 1) == 2 * ((kl + kr) * (d + 1));
  }

  /** Isolating k >= 1 bad records out of n takes at most 1 + 2k * ceil(log2 n) sends; a good batch takes one. */
  lemma {:induction false} IsolationIsCheap(s: State, batch: seq<Record>, cfg: Config, out: Surroundings, bad: set<Id>)
    requires batch != [] && RefusesExactly(out, bad)
    ensures Relayed(s, batch, cfg, out).state.sends - s.sends <= Budget(|Bad(batch, bad)|, CeilLog2(|batch|))
    decreases |batch|
  {
    hide Relayed, RefusesExactly, Good, Bad, Deliver, CeilLog2;
    RefusedOrMarked(s, batch, cfg, out, bad);
    if Bad(batch, bad) != [] && |batch| > 1 {
      hide Budget;
      var middle := |batch| / 2;
      var a, b := batch[..middle], batch[middle..];
      assert batch == a + b;
      SplitGood(a, b, bad);
      var left := Relayed(s.(sends := s.sends + 1), a, cfg, out);
      IsolationIsCheap(s.(sends := s.sends + 1), a, cfg, out, bad);
      IsolationIsCheap(left.state, b, cfg, out, bad);
      Deeper(|batch|);
      HalvesCost(|Bad(a, bad)|, |Bad(b, bad)|, CeilLog2(|a|), CeilLog2(|b|), CeilLog2((|batch| + 1) / 2));
    }
  }

  lemma Deeper(n: nat)
    requires n > 1
    ensures CeilLog2(n / 2) <= CeilLog2((n + 1) / 2) && CeilLog2(n - n / 2) == CeilLog2((n + 1) / 2)
    ensures CeilLog2(n) == CeilLog2((n + 1) / 2) + 1
  {
    var half := (n + 1) / 2;
    assert n - n / 2 == half && n / 2 <= half;
    CeilLog2Grows(n / 2, half);
  }

  // ---- the analytics sink ----

  datatype CommitResult = Committed | LostBefore | LostAfter

  /** Which statements of one send fail. */
  datatype Faults = Faults(inserts: set<nat>, commit: CommitResult)

  /** The table of analytics events, and the ids of the records no event can be made of. */
  class AnalyticsSink {
    var table: seq<Id>
    const bad: set<Id>

    constructor (bad: set<Id>)
      ensures table == [] && this.bad == bad
    {
      this.table := [];
      this.bad := bad;
    }

    /** One transaction: all of the batch or none of it, refused for good at its first bad record. */
    method Send(batch: seq<Record>, faults: Faults) returns (answer: Answer, culprit: Option<Id>)
      modifies this
      ensures table == if answer.Accepted? || (answer.Transient? && answer.landed) then Deliver(old(table), batch) else old(table)
      ensures answer.Permanent? <==> culprit.Some?
      ensures answer.Permanent? ==> exists i | 0 <= i < |batch| ::
        batch[i].id in bad && culprit == Some(batch[i].id) && forall j | 0 <= j < i :: batch[j].id !in bad
      ensures !answer.Permanent? && faults.inserts == {} ==> forall record | record in batch :: record.id !in bad
      ensures answer.Accepted? ==> faults.commit.Committed?
      ensures faults == Faults({}, Committed) ==>
        answer == if (forall record | record in batch :: record.id !in bad) then Accepted else Permanent
    {
      var inserted := table;
      for i := 0 to |batch|
        invariant inserted == Deliver(table, batch[..i])
        invariant forall j | 0 <= j < i :: batch[j].id !in bad
        invariant table == old(table)
      {
        if batch[i].id in bad { return Permanent, Some(batch[i].id); }
        if i in faults.inserts { return Transient(false), None; }
        assert batch[..i + 1][..i] == batch[..i];
        if batch[i].id !in inserted { inserted := inserted + [batch[i].id]; }
      }
      assert batch[..|batch|] == batch;
      match faults.commit
      case Committed =>
        table := inserted;
        return Accepted, None;
      case LostBefore => return Transient(false), None;
      case LostAfter =>
        table := inserted;
        return Transient(true), None;
    }
  }

  // ---- the dispatcher ----

  /** One dispatcher over the outbox table, whose rows it reads in the order of `index`. */
  class Dispatcher {
    var rows: Rows
    var index: seq<Id>
    var sink: seq<Id>
    var sends: nat
    var writes: nat
    const cfg: Config
    const out: Surroundings

    ghost predicate Valid()
      reads this
    {
      && (forall i, j :: 0 <= i < j < |index| ==> index[i] < index[j])
      && (forall id :: id in index <==> id in rows)
    }

    ghost function Db(): State
      reads this
    {
      State(rows, sink, sends, writes)
    }

    constructor (rows: Rows, index: seq<Id>, sink: seq<Id>, cfg: Config, out: Surroundings)
      requires forall i, j :: 0 <= i < j < |index| ==> index[i] < index[j]
      requires forall id :: id in index <==> id in rows
      ensures Valid() && Db() == State(rows, sink, 0, 0) && this.cfg == cfg && this.out == out && this.index == index
    {
      this.rows, this.index, this.sink, this.sends, this.writes := rows, index, sink, 0, 0;
      this.cfg, this.out := cfg, out;
    }

    /** Leases up to the batch size of the earliest claimable rows that no other claim has locked, at
        most one of each aggregate. */
    method Claim(now: Time, locked: set<Id>) returns (batch: seq<Record>)
      requires Valid()
      modifies this`rows
      ensures Valid() && |batch| <= cfg.batchSize
      ensures rows == ClaimRows(old(rows), IdSet(RecordSet(batch)), now)
      ensures forall record | record in batch ::
        Claimable(old(rows), record.id, now, cfg) && record.id !in locked && record == RecordOf(old(rows), record.id)
      ensures forall id | Claimable(old(rows), id, now, cfg) && id !in locked && !Names(batch, id) ::
        |batch| == cfg.batchSize && forall record | record in batch :: record.id < id
      ensures forall i, j :: 0 <= i < j < |batch| ==> batch[i].id < batch[j].id && batch[i].aggregate != batch[j].aggregate
    {
      batch := [];
      var i := 0;
      while i < |index| && |batch| < cfg.batchSize
        invariant 0 <= i <= |index| && |batch| <= cfg.batchSize
        invariant forall record | record in batch ::
          && Claimable(rows, record.id, now, cfg) && record.id !in locked && record == RecordOf(rows, record.id)
          && record.id in index[..i]
        invariant forall k | 0 <= k < i :: Claimable(rows, index[k], now, cfg) && index[k] !in locked ==> Names(batch, index[k])
        invariant forall k, l :: 0 <= k < l < |batch| ==> batch[k].id < batch[l].id
      {
        var id := index[i];
        assert id in rows;
        if Claimable(rows, id, now, cfg) && id !in locked {
          ghost var before := batch;
          batch := batch + [RecordOf(rows, id)];
          assert batch[|batch| - 1] == RecordOf(rows, id);
          assert forall record :: record in batch <==> record in before || record == RecordOf(rows, id);
        }
        i := i + 1;
      }
      OneOfEachAggregate(rows, batch, now, cfg);
      var ids := IdSet(RecordSet(batch));
      rows := ClaimRows(rows, ids, now);
    }

    /** The relay does what its specification says, and returns how many records it marked and whether
        nothing went wrong. */
    method Relay(batch: seq<Record>) returns (count: nat, clean: bool)
      requires batch != []
      modifies this`rows, this`sink, this`sends, this`writes
      ensures var o := Relayed(old(Db()), batch, cfg, out);
        Db() == o.state && count == |o.marked| && clean == o.Clean()
      decreases |batch|
    {
      hide MarkRows, FailRow, Deliver;
      var answer := out.answer(sends, batch);
      sends := sends + 1;
      if answer.Accepted? || (answer.Transient? && answer.landed) { sink := Deliver(sink, batch); }
      if answer.Accepted? {
        clean := MarkDispatched(batch);
        return if clean then |batch| else 0, clean;
      }
      if answer.Transient? || |batch| == 1 {
        FailingMarksNone(Db(), batch, cfg, out);
        RecordBatchFailure(batch);
        return 0, false;
      }
      var middle := |batch| / 2;
      var leftCount, leftClean := Relay(batch[..middle]);
      var rightCount, rightClean := Relay(batch[middle..]);
      return leftCount + rightCount, leftClean && rightClean;
    }

    method MarkDispatched(batch: seq<Record>) returns (written: bool)
      modifies this`rows, this`writes
      ensures Db() == Marking(old(Db()), batch, out).state
      ensures written == !out.writeFails(old(writes))
    {
      written := !out.writeFails(writes);
      var now := out.clock(writes);
      writes := writes + 1;
      if written { rows := MarkRows(rows, IdSet(RecordSet(batch)), now); }
    }

    method RecordBatchFailure(batch: seq<Record>)
      modifies this`rows, this`writes
      ensures Db() == Failing(old(Db()), batch, cfg, out).state
    {
      for i := 0 to |batch|
        invariant Db() == Failing(old(Db()), batch[..i], cfg, out).state
      {
        assert batch[..i + 1][..i] == batch[..i];
        RecordFailure(batch[i]);
      }
      assert batch[..|batch|] == batch;
    }

    method RecordFailure(record: Record)
      modifies this`rows, this`writes
      ensures Db() == old(Db()).(writes := old(writes) + 1,
                                 rows := if out.writeFails(old(writes)) then old(rows) else FailRow(old(rows), record, out.clock(old(writes)), cfg))
    {
      var attempts := record.attempts + 1;
      var dead := attempts >= cfg.maxAttempts;
      var delay := RetryDelay(cfg, attempts);
      var now := out.clock(writes);
      writes := writes + 1;
      if !out.writeFails(writes - 1) && record.id in rows {
        var next := if dead then None else Some(now + delay);
        rows := rows[record.id := rows[record.id].(attempts := attempts, claimedAt := None, nextAttempt := next,
                                                   deadAt := if dead then Some(now) else None)];
      }
    }

    /** One pass: what is claimed is relayed, every row of it meets its record's one fate, and the rest
        of the table is untouched. */
    method RunOnce(now: Time, locked: set<Id>) returns (ghost batch: seq<Record>, count: nat, clean: bool)
      requires Valid()
      modifies this
      ensures forall record | record in batch :: Claimable(old(rows), record.id, now, cfg)
      ensures batch == [] ==> count == 0 && clean && Db() == old(Db()).(rows := ClaimRows(old(rows), {}, now))
      ensures batch != [] ==>
        var claimed := ClaimRows(old(rows), IdSet(RecordSet(batch)), now);
        var o := Relayed(old(Db()).(rows := claimed), batch, cfg, out);
        && Db() == o.state && count == |o.marked| && clean == o.Clean()
        && RowsMeet(o, old(Db()).(rows := claimed), cfg, out) && Partitions(o, batch)
    {
      var claimed := Claim(now, locked);
      batch := claimed;
      if claimed == [] { return batch, 0, true; }
      ghost var before := Db();
      count, clean := Relay(claimed);
      RelayedRows(before, batch, cfg, out);
      EachRecordHasOneFate(before, batch, cfg, out);
    }
  }

  /** Two claimable rows never share an aggregate: the later would have a pending prior. */
  lemma OneOfEachAggregate(rows: Rows, batch: seq<Record>, now: Time, cfg: Config)
    requires forall record | record in batch :: Claimable(rows, record.id, now, cfg) && record == RecordOf(rows, record.id)
    requires forall i, j :: 0 <= i < j < |batch| ==> batch[i].id < batch[j].id
    ensures forall i, j :: 0 <= i < j < |batch| ==> batch[i].aggregate != batch[j].aggregate
  {
  }

  lemma {:induction false} FailingMarksNone(s: State, batch: seq<Record>, cfg: Config, out: Surroundings)
    requires batch != []
    ensures var o := Failing(s, batch, cfg, out); o.marked == [] && !o.Clean()
  {
  }
}
