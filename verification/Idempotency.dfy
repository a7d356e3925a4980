/** Idempotency keys in Redis: a reservation with a short life, a response with a long one, and any
    number of callers, crashes and expiries. */
module Idempotency {
  import opened Base

  type Key = string
  type Fingerprint = string

  datatype Response = Response(status: int, body: string)

  /** A Redis value and the moment it expires. */
  datatype Entry<T> = Entry(value: T, expires: Time) {
    predicate Live(now: Time) { now < expires }
  }

  const RESERVATION_TTL := 300
  const RESPONSE_TTL := 86_400
  const LEGACY_FINGERPRINT: Fingerprint := "1"

  datatype Outcome = Acquired | Replay(response: Response) | InFlight | Mismatch

  datatype Redis = Redis(reserve: map<Key, Entry<Fingerprint>>, response: map<Key, Entry<Response>>)

  predicate Reserved(r: Redis, key: Key, now: Time) { key in r.reserve && r.reserve[key].Live(now) }

  predicate Responded(r: Redis, key: Key, now: Time) { key in r.response && r.response[key].Live(now) }

  /** Reserve, as one step. */
  function OutcomeOf(r: Redis, key: Key, fingerprint: Fingerprint, now: Time): Outcome {
    if !Reserved(r, key, now) then Acquired
    else if r.reserve[key].value != LEGACY_FINGERPRINT && r.reserve[key].value != fingerprint then Mismatch
    else if !Responded(r, key, now) then InFlight
    else Replay(r.response[key].value)
  }

  function AfterReserve(r: Redis, key: Key, fingerprint: Fingerprint, now: Time): Redis {
    if Reserved(r, key, now) then r
    else r.(reserve := r.reserve[key := Entry(fingerprint, now + RESERVATION_TTL)])
  }

  function SetResponse(r: Redis, key: Key, response: Response, now: Time): Redis {
    r.(response := r.response[key := Entry(response, now + RESPONSE_TTL)])
  }

  /** EXPIRE does nothing to a key that is gone. */
  function ExpireReservation(r: Redis, key: Key, now: Time): Redis {
    if Reserved(r, key, now) then r.(reserve := r.reserve[key := r.reserve[key].(expires := now + RESPONSE_TTL)]) else r
  }

  function Released(r: Redis, key: Key): Redis { r.(reserve := r.reserve - {key}) }

  // ---- the system ----

  /** A caller that acquired its key: its handler is running, or its response was just set. */
  datatype Phase = Running | Saved(response: Response)

  datatype Caller = Caller(key: Key, fingerprint: Fingerprint, since: Time, phase: Phase)

  /** `lastSaved` is history: for each key, the request and response of the last handler that succeeded. */
  datatype System = System(
    now: Time, redis: Redis, callers: map<Id, Caller>, lastSaved: map<Key, (Fingerprint, Response)>)

  datatype Step =
    | Tick(elapsed: nat)
    | Reserve(caller: Id, key: Key, fingerprint: Fingerprint)
    | Save(caller: Id, response: Response)     // the handler succeeded: SET the response
    | Prolong(caller: Id)                      // EXPIRE the reservation
    | Release(caller: Id)                      // the handler failed: DEL the reservation
    | Crash(caller: Id)

  predicate Enabled(s: System, step: Step) {
    match step
    case Tick(_) => true
    case Reserve(caller, _, fingerprint) => caller !in s.callers && fingerprint != LEGACY_FINGERPRINT
    case Save(caller, _) => caller in s.callers && s.callers[caller].phase.Running?
    case Prolong(caller) => caller in s.callers && s.callers[caller].phase.Saved?
    case Release(caller) => caller in s.callers && s.callers[caller].phase.Running?
    case Crash(caller) => caller in s.callers
  }

  function Next(s: System, step: Step): System
    requires Enabled(s, step)
  {
    match step
    case Tick(elapsed) => s.(now := s.now + elapsed)
    case Reserve(caller, key, fingerprint) =>
      if OutcomeOf(s.redis, key, fingerprint, s.now).Acquired? then
        s.(redis := AfterReserve(s.redis, key, fingerprint, s.now),
           callers := s.callers[caller := Caller(key, fingerprint, s.now, Running)])
      else s
    case Save(caller, response) =>
      var c := s.callers[caller];
      s.(redis := SetResponse(s.redis, c.key, response, s.now),
         callers := s.callers[caller := c.(phase := Saved(response))],
         lastSaved := s.lastSaved[c.key := (c.fingerprint, response)])
    case Prolong(caller) =>
      s.(redis := ExpireReservation(s.redis, s.callers[caller].key, s.now), callers := s.callers - {caller})
    case Release(caller) =>
      s.(redis := Released(s.redis, s.callers[caller].key), callers := s.callers - {caller})
    case Crash(caller) => s.(callers := s.callers - {caller})
  }

  function Run(s: System, steps: seq<Step>): System {
    if steps == [] then s
    else
      var before := Run(s, steps[..|steps| - 1]);
      if Enabled(before, steps[|steps| - 1]) then Next(before, steps[|steps| - 1]) else before
  }

  function Start(now: Time): System { System(now, Redis(map[], map[]), map[], map[]) }

  /** Handlers finish inside the reservation's life, and both writes of a saved response land. */
  predicate InTime(s: System, step: Step) {
    match step
    case Tick(elapsed) => forall caller | caller in s.callers :: s.now + elapsed < s.callers[caller].since + RESERVATION_TTL
    case Crash(caller) => caller in s.callers ==> s.callers[caller].phase.Running?
    case _ => true
  }

  predicate AllInTime(s: System, steps: seq<Step>) {
    if steps == [] then true
    else
      var before := Run(s, steps[..|steps| - 1]);
      AllInTime(s, steps[..|steps| - 1])
      && (Enabled(before, steps[|steps| - 1]) ==> InTime(before, steps[|steps| - 1]))
  }

  // ---- one owner, and the right response ----

  predicate CallerOk(s: System, c: Caller) {
    && c.since <= s.now < c.since + RESERVATION_TTL
    && c.key in s.redis.reserve && s.redis.reserve[c.key] == Entry(c.fingerprint, c.since + RESERVATION_TTL)
    && match c.phase
       case Running => !Responded(s.redis, c.key, s.now)
       case Saved(response) =>
         && c.key in s.redis.response && s.redis.response[c.key].value == response
         && c.since + RESPONSE_TTL <= s.redis.response[c.key].expires <= s.now + RESPONSE_TTL
         && c.key in s.lastSaved && s.lastSaved[c.key] == (c.fingerprint, response)
  }

  predicate BeingSaved(s: System, key: Key) {
    exists caller :: caller in s.callers && s.callers[caller].key == key && s.callers[caller].phase.Saved?
  }

  /** A live response belongs to its reservation, which outlives it unless it is still being prolonged. */
  predicate ResponseOk(s: System, key: Key) {
    && key in s.redis.response && Reserved(s.redis, key, s.now)
    && key in s.lastSaved && s.lastSaved[key] == (s.redis.reserve[key].value, s.redis.response[key].value)
    && (s.redis.response[key].expires <= s.redis.reserve[key].expires || BeingSaved(s, key))
  }

  ghost predicate Inv(s: System) {
    && (forall caller | caller in s.callers :: CallerOk(s, s.callers[caller]))
    && (forall a, b | a in s.callers && b in s.callers && a != b :: s.callers[a].key != s.callers[b].key)
    && (forall key | Responded(s.redis, key, s.now) :: ResponseOk(s, key))
    && (forall key | key in s.redis.reserve :: s.redis.reserve[key].value != LEGACY_FINGERPRINT)
  }

  lemma TickKeepsInv(s: System, elapsed: nat)
    requires Inv(s) && InTime(s, Tick(elapsed))
    ensures Inv(Next(s, Tick(elapsed)))
  {
    var s' := Next(s, Tick(elapsed));
    forall caller | caller in s'.callers ensures CallerOk(s', s'.callers[caller]) {
      assert CallerOk(s, s.callers[caller]);
    }
    forall key | Responded(s'.redis, key, s'.now) ensures ResponseOk(s', key) {
      assert Responded(s.redis, key, s.now);
      assert ResponseOk(s, key);
      if caller :| caller in s.callers && s.callers[caller].key == key && s.callers[caller].phase.Saved? {
        assert CallerOk(s', s'.callers[caller]);
        assert BeingSaved(s', key);
      }
    }
  }

  /** A step that leaves a key alone leaves what is known of it. */
  predicate SameKey(s: System, s': System, key: Key) {
    && s'.now == s.now
    && (key in s.redis.reserve <==> key in s'.redis.reserve)
    && (key in s.redis.reserve ==> s'.redis.reserve[key] == s.redis.reserve[key])
    && (key in s.redis.response <==> key in s'.redis.response)
    && (key in s.redis.response ==> s'.redis.response[key] == s.redis.response[key])
    && (key in s.lastSaved ==> key in s'.lastSaved && s'.lastSaved[key] == s.lastSaved[key])
  }

  lemma CallerFrame(s: System, s': System, c: Caller)
    requires CallerOk(s, c) && SameKey(s, s', c.key)
    ensures CallerOk(s', c)
  {
  }

  lemma ResponseFrame(s: System, s': System, key: Key)
    requires Responded(s.redis, key, s.now) ==> ResponseOk(s, key)
    requires SameKey(s, s', key) && (BeingSaved(s, key) ==> BeingSaved(s', key))
    ensures Responded(s'.redis, key, s'.now) ==> ResponseOk(s', key)
  {
    hide BeingSaved;
  }

  /** A caller alone on its key can change what is stored under it. */
  lemma OneKeyKeepsInv(s: System, s': System, caller: Id, key: Key)
    requires Inv(s)
    requires forall other | other in s.callers && other != caller :: s.callers[other].key != key
    requires forall other | other in s.callers && other != caller :: other in s'.callers && s'.callers[other] == s.callers[other]
    requires caller in s.callers ==> s.callers[caller].key == key
    requires forall other | other in s'.callers :: other in s.callers || other == caller
    requires forall other: Key | other != key :: SameKey(s, s', other)
    requires caller in s'.callers ==> s'.callers[caller].key == key && CallerOk(s', s'.callers[caller])
    requires Responded(s'.redis, key, s'.now) ==> ResponseOk(s', key)
    requires key in s'.redis.reserve ==> s'.redis.reserve[key].value != LEGACY_FINGERPRINT
    ensures Inv(s')
  {
    hide CallerOk, ResponseOk, Responded, SameKey;
    forall other | other in s'.callers ensures CallerOk(s', s'.callers[other]) {
      if other != caller { CallerFrame(s, s', s.callers[other]); }
    }
    forall other: Key | Responded(s'.redis, other, s'.now) ensures ResponseOk(s', other) {
      if other != key {
        assert BeingSaved(s, other) ==> BeingSaved(s', other) by {
          if c :| c in s.callers && s.callers[c].key == other && s.callers[c].phase.Saved? { assert c in s'.callers; }
        }
        ResponseFrame(s, s', other);
      }
    }
    forall other | other in s'.redis.reserve ensures s'.redis.reserve[other].value != LEGACY_FINGERPRINT {
      if other != key { SameReservation(s, s', other); }
    }
  }

  lemma SameReservation(s: System, s': System, key: Key)
    requires SameKey(s, s', key) && key in s'.redis.reserve
    ensures key in s.redis.reserve && s'.redis.reserve[key] == s.redis.reserve[key]
  {
  }

  lemma ReserveKeepsInv(s: System, caller: Id, key: Key, fingerprint: Fingerprint)
    requires Inv(s) && Enabled(s, Reserve(caller, key, fingerprint))
    ensures Inv(Next(s, Reserve(caller, key, fingerprint)))
  {
    var s' := Next(s, Reserve(caller, key, fingerprint));
    if OutcomeOf(s.redis, key, fingerprint, s.now).Acquired? {
      forall other | other in s.callers ensures s.callers[other].key != key {
        assert CallerOk(s, s.callers[other]);
      }
      assert Responded(s.redis, key, s.now) ==> ResponseOk(s, key);
      assert CallerOk(s', s'.callers[caller]);
      OneKeyKeepsInv(s, s', caller, key);
    }
  }

  lemma SaveKeepsInv(s: System, caller: Id, response: Response)
    requires Inv(s) && Enabled(s, Save(caller, response))
    ensures Inv(Next(s, Save(caller, response)))
  {
    var s' := Next(s, Save(caller, response));
    var key := s.callers[caller].key;
    assert CallerOk(s, s.callers[caller]);
    assert BeingSaved(s', key) by { assert caller in s'.callers; }
    assert ResponseOk(s', key);
    assert CallerOk(s', s'.callers[caller]);
    OneKeyKeepsInv(s, s', caller, key);
  }

  /** A caller's last step: what it leaves under its key is as it should be. */
  lemma LastStepIsOk(s: System, step: Step)
    requires Inv(s) && Enabled(s, step) && InTime(s, step) && (step.Prolong? || step.Release? || step.Crash?)
    ensures var s', key := Next(s, step), s.callers[step.caller].key; Responded(s'.redis, key, s'.now) ==> ResponseOk(s', key)
  {
    var key := s.callers[step.caller].key;
    assert CallerOk(s, s.callers[step.caller]);
    assert Responded(s.redis, key, s.now) ==> ResponseOk(s, key);
  }

  lemma LastStepKeepsInv(s: System, step: Step)
    requires Inv(s) && Enabled(s, step) && InTime(s, step) && (step.Prolong? || step.Release? || step.Crash?)
    ensures Inv(Next(s, step))
  {
    LastStepIsOk(s, step);
    hide Responded, ResponseOk, CallerOk, BeingSaved, InTime;
    OneKeyKeepsInv(s, Next(s, step), step.caller, s.callers[step.caller].key);
  }

  lemma NextKeepsInv(s: System, step: Step)
    requires Inv(s) && Enabled(s, step) && InTime(s, step)
    ensures Inv(Next(s, step))
  {
    hide Inv, InTime, Next;
    match step
    case Tick(elapsed) => TickKeepsInv(s, elapsed);
    case Reserve(caller, key, fingerprint) => ReserveKeepsInv(s, caller, key, fingerprint);
    case Save(caller, response) => SaveKeepsInv(s, caller, response);
    case _ => LastStepKeepsInv(s, step);
  }

  lemma {:induction false} RunKeepsInv(now: Time, steps: seq<Step>)
    requires AllInTime(Start(now), steps)
    ensures Inv(Run(Start(now), steps))
  {
    if steps != [] {
      hide Inv, Enabled, Next, InTime;
      RunKeepsInv(now, steps[..|steps| - 1]);
      var before := Run(Start(now), steps[..|steps| - 1]);
      if Enabled(before, steps[|steps| - 1]) { NextKeepsInv(before, steps[|steps| - 1]); }
    }
  }

  /** At any time at most one caller per key is between its acquire and its save or release. */
  lemma OneOwnerPerKey(now: Time, steps: seq<Step>, a: Id, b: Id)
    requires AllInTime(Start(now), steps)
    requires a in Run(Start(now), steps).callers && b in Run(Start(now), steps).callers
    requires Run(Start(now), steps).callers[a].key == Run(Start(now), steps).callers[b].key
    ensures a == b
  {
    RunKeepsInv(now, steps);
  }

  /** Whatever has expired, a replay returns the response saved last under the key, for a request with
      the same fingerprint; and nobody's handler is running under that key. */
  lemma ReplayIsTheSavedResponse(now: Time, steps: seq<Step>, key: Key, fingerprint: Fingerprint)
    requires AllInTime(Start(now), steps)
    ensures var s := Run(Start(now), steps);
      OutcomeOf(s.redis, key, fingerprint, s.now).Replay? ==>
        && key in s.lastSaved
        && s.lastSaved[key] == (fingerprint, OutcomeOf(s.redis, key, fingerprint, s.now).response)
        && forall caller | caller in s.callers && s.callers[caller].key == key :: s.callers[caller].phase.Saved?
  {
    RunKeepsInv(now, steps);
    var s := Run(Start(now), steps);
    hide Run, AllInTime;
    if OutcomeOf(s.redis, key, fingerprint, s.now).Replay? {
      assert ResponseOk(s, key);
      assert forall caller | caller in s.callers :: CallerOk(s, s.callers[caller]);
    }
  }

  // ---- why the hypotheses are there ----

  lemma {:induction false} RunHead(s: System, step: Step, rest: seq<Step>)
    ensures Run(s, [step] + rest) == Run(if Enabled(s, step) then Next(s, step) else s, rest)
  {
    hide Next, Enabled;
    if rest == [] {
      assert [step] + rest == [step] && [step][..0] == [];
    } else {
      RunHead(s, step, rest[..|rest| - 1]);
      assert ([step] + rest)[..|rest|] == [step] + rest[..|rest| - 1];
    }
  }

  lemma RunNothing(s: System)
    ensures Run(s, []) == s
  {
  }

  /** In every reachable state a running handler keeps others off its key exactly until the reservation's
      life is over: then anybody acquires it beside it. */
  lemma OverrunAdmitsAnother(s: System, a: Id, elapsed: nat, fingerprint: Fingerprint)
    requires Inv(s) && a in s.callers && s.callers[a].phase.Running?
    ensures var later := Next(s, Tick(elapsed));
      s.now + elapsed >= s.callers[a].since + RESERVATION_TTL <==>
        OutcomeOf(later.redis, s.callers[a].key, fingerprint, later.now).Acquired?
  {
    assert CallerOk(s, s.callers[a]);
  }

  /** In every reachable state: a crash after the response was set always costs the key. The reservation
      lapses before the response, another request acquires the key, and a retry of that one, which is
      still running, replays the first one's response. */
  lemma LostProlongMixesResponses(s: System, a: Id, b: Id, second: Fingerprint)
    requires Inv(s) && a in s.callers && s.callers[a].phase.Saved?
    requires b !in s.callers && second != LEGACY_FINGERPRINT
    ensures var key, response := s.callers[a].key, s.callers[a].phase.response;
      var lapsed := Next(Next(s, Crash(a)), Tick(s.callers[a].since + RESERVATION_TTL - s.now));
      && Enabled(lapsed, Reserve(b, key, second))
      && var mixed := Next(lapsed, Reserve(b, key, second));
         && mixed.callers[b] == Caller(key, second, mixed.now, Running)
         && OutcomeOf(mixed.redis, key, second, mixed.now) == Replay(response)
  {
    assert CallerOk(s, s.callers[a]);
  }

  /** The same as a run from the start. */
  lemma LostProlongIsReachable(now: Time, a: Id, b: Id, key: Key, first: Fingerprint, second: Fingerprint, response: Response)
    requires a != b && first != second && first != LEGACY_FINGERPRINT && second != LEGACY_FINGERPRINT
    ensures var s := Run(Start(now), [Reserve(a, key, first)] + ([Save(a, response)] + ([Crash(a)] + ([Tick(RESERVATION_TTL)]
                                     + [Reserve(b, key, second)]))));
      && b in s.callers && s.callers[b] == Caller(key, second, s.now, Running)
      && OutcomeOf(s.redis, key, second, s.now) == Replay(response)
      && key in s.lastSaved && s.lastSaved[key] == (first, response)
  {
    var s0 := Start(now);
    var s1 := Next(s0, Reserve(a, key, first));
    var s2 := Next(s1, Save(a, response));
    var s3 := Next(s2, Crash(a));
    var s4 := Next(s3, Tick(RESERVATION_TTL));
    var s5 := Next(s4, Reserve(b, key, second));
    var t4 := [Reserve(b, key, second)];
    var t3 := [Tick(RESERVATION_TTL)] + t4;
    var t2 := [Crash(a)] + t3;
    var t1 := [Save(a, response)] + t2;
    RunHead(s0, Reserve(a, key, first), t1);
    RunHead(s1, Save(a, response), t2);
    RunHead(s2, Crash(a), t3);
    RunHead(s3, Tick(RESERVATION_TTL), t4);
    assert t4 == [Reserve(b, key, second)] + [];
    RunHead(s4, Reserve(b, key, second), []);
    RunNothing(s5);
    hide Run;
  }

  // ---- Reserve as its separate commands ----

  /** The GET of the reservation found the caller's fingerprint. */
  predicate SeesOwn(s: System, key: Key, fingerprint: Fingerprint) {
    Reserved(s.redis, key, s.now) && s.redis.reserve[key].value == fingerprint
  }

  /** Between that GET and the GET of the response anything may run. The response then found is the one
      saved last under the key; it answers the caller's own request exactly when the reservation still
      carries the caller's fingerprint. */
  lemma SplitReserveIsRightIff(now: Time, before: seq<Step>, between: seq<Step>, key: Key, fingerprint: Fingerprint)
    requires AllInTime(Start(now), before + between)
    requires SeesOwn(Run(Start(now), before), key, fingerprint)
    requires Responded(Run(Start(now), before + between).redis, key, Run(Start(now), before + between).now)
    ensures var s := Run(Start(now), before + between);
      && key in s.lastSaved && s.redis.response[key].value == s.lastSaved[key].1
      && (s.lastSaved[key].0 == fingerprint <==> SeesOwn(s, key, fingerprint))
  {
    RunKeepsInv(now, before + between);
    assert ResponseOk(Run(Start(now), before + between), key);
    hide Run, AllInTime;
  }

  /** And it need not, from the start and with everything in time: the owner's handler fails and releases
      the key, another request acquires it and saves, all between the two GETs. */
  lemma SplitReserveCanMix(now: Time, a: Id, b: Id, key: Key, first: Fingerprint, second: Fingerprint, response: Response)
    requires a != b && first != second && first != LEGACY_FINGERPRINT && second != LEGACY_FINGERPRINT
    ensures var before := [Reserve(a, key, first)];
      var between := [Release(a)] + ([Reserve(b, key, second)] + [Save(b, response)]);
      && AllInTime(Start(now), before + between)
      && SeesOwn(Run(Start(now), before), key, first)
      && var s := Run(Start(now), before + between);
         && Responded(s.redis, key, s.now) && s.redis.response[key].value == response
         && key in s.lastSaved && s.lastSaved[key] == (second, response) && !SeesOwn(s, key, first)
  {
    var s0 := Start(now);
    var s1 := Next(s0, Reserve(a, key, first));
    var s2 := Next(s1, Release(a));
    assert !Reserved(s2.redis, key, now);
    var s3 := Next(s2, Reserve(b, key, second));
    var s4 := Next(s3, Save(b, response));
    var t3 := [Save(b, response)];
    var t2 := [Reserve(b, key, second)] + t3;
    var t1 := [Release(a)] + t2;
    NoTickIsInTime(s0, [Reserve(a, key, first)] + t1);
    RunHead(s0, Reserve(a, key, first), t1);
    RunHead(s1, Release(a), t2);
    RunHead(s2, Reserve(b, key, second), t3);
    assert t3 == [Save(b, response)] + [];
    RunHead(s3, Save(b, response), []);
    assert [Reserve(a, key, first)] == [Reserve(a, key, first)] + [];
    RunHead(s0, Reserve(a, key, first), []);
    RunNothing(s1);
    RunNothing(s4);
    hide Run, AllInTime;
  }

  lemma {:induction false} NoTickIsInTime(s: System, steps: seq<Step>)
    requires forall i :: 0 <= i < |steps| ==> !steps[i].Tick? && !steps[i].Crash?
    ensures AllInTime(s, steps)
  {
    if steps != [] { NoTickIsInTime(s, steps[..|steps| - 1]); }
  }

  // ---- the store and the middleware ----

  /** What a handler produced. */
  datatype Handled = Handled(status: int, body: string)

  predicate Succeeded(h: Handled) { 200 <= h.status < 300 }

  // ---- commands that may fail ----

  /** A command's fate: answered, never executed, or executed with its answer lost. */
  datatype Wire = Up | Down | Deaf

  datatype Wires = Wires(setNx: Wire, get: Wire, getResponse: Wire, store: Wire, expire: Wire, del: Wire)

  /** When each command of a request reaches Redis. */
  datatype Times = Times(setNx: Time, get: Time, getResponse: Time, save: Time)

  /** Reserve with its three commands apart: the outcome, or nothing if Redis was unavailable. */
  function ReserveIn(r: Redis, key: Key, fingerprint: Fingerprint, at: Times, wires: Wires): (Redis, Option<Outcome>) {
    var held := if wires.setNx.Down? then r else AfterReserve(r, key, fingerprint, at.setNx);
    if !wires.setNx.Up? then (held, None)
    else if !Reserved(r, key, at.setNx) then (held, Some(Acquired))
    else if !wires.get.Up? then (held, None)
    else if !Reserved(r, key, at.get) then (held, Some(InFlight))
    else if r.reserve[key].value != LEGACY_FINGERPRINT && r.reserve[key].value != fingerprint then (held, Some(Mismatch))
    else if !wires.getResponse.Up? then (held, None)
    else if !Responded(r, key, at.getResponse) then (held, Some(InFlight))
    else (held, Some(Replay(r.response[key].value)))
  }

  /** SaveResponse: the second write is not attempted when the first one's answer is missing. */
  function SaveIn(r: Redis, key: Key, response: Response, at: Times, wires: Wires): (Redis, bool) {
    var stored := if wires.store.Down? then r else SetResponse(r, key, response, at.save);
    if !wires.store.Up? then (stored, false)
    else if wires.expire.Down? then (stored, false)
    else (ExpireReservation(stored, key, at.save), wires.expire.Up?)
  }

  function ReleaseIn(r: Redis, key: Key, wires: Wires): (Redis, bool) {
    if wires.del.Down? then (r, false) else (Released(r, key), wires.del.Up?)
  }

  /** A whole request: what it leaves in Redis, the status it answers, and whether its handler ran. */
  function ServedIn(r: Redis, key: Key, fingerprint: Fingerprint, h: Handled, at: Times, wires: Wires): (Redis, int, bool) {
    var (held, outcome) := ReserveIn(r, key, fingerprint, at, wires);
    match outcome
    case None => (held, 503, false)
    case Some(Replay(stored)) => (held, stored.status, false)
    case Some(InFlight) => (held, 409, false)
    case Some(Mismatch) => (held, 422, false)
    case Some(Acquired) =>
      if Succeeded(h) then (SaveIn(held, key, Response(h.status, h.body), at, wires).0, h.status, true)
      else (ReleaseIn(held, key, wires).0, h.status, true)
  }

  const ALL_UP := Wires(Up, Up, Up, Up, Up, Up)

  /** With every command answered at one time, Reserve is the one step of the theorems above. */
  lemma AnsweredAtOnce(r: Redis, key: Key, fingerprint: Fingerprint, now: Time, later: Time)
    ensures ReserveIn(r, key, fingerprint, Times(now, now, now, later), ALL_UP)
         == (AfterReserve(r, key, fingerprint, now), Some(OutcomeOf(r, key, fingerprint, now)))
  {
  }

  /** The reservation is live when it is read, and carries this request's fingerprint or the legacy one. */
  predicate SeenOwn(r: Redis, key: Key, fingerprint: Fingerprint, at: Times) {
    Reserved(r, key, at.get) && r.reserve[key].value in {"1", fingerprint}
  }

  /** Whatever commands fail and whenever they arrive: what each answer of Reserve means for what is stored. */
  lemma ReserveMeans(r: Redis, key: Key, fingerprint: Fingerprint, at: Times, wires: Wires)
    ensures var o, taken := ReserveIn(r, key, fingerprint, at, wires).1, wires.setNx.Up? && Reserved(r, key, at.setNx);
      && (o == Some(Acquired) <==> wires.setNx.Up? && !Reserved(r, key, at.setNx))
      && (o == Some(Mismatch) <==> taken && wires.get.Up? && Reserved(r, key, at.get) && !SeenOwn(r, key, fingerprint, at))
      && (o == Some(InFlight) <==>
            taken && wires.get.Up?
            && (Reserved(r, key, at.get) ==>
                  SeenOwn(r, key, fingerprint, at) && wires.getResponse.Up? && !Responded(r, key, at.getResponse)))
      && (o.Some? && o.value.Replay? <==>
            taken && wires.get.Up? && SeenOwn(r, key, fingerprint, at) && wires.getResponse.Up? && Responded(r, key, at.getResponse))
      && (o.Some? && o.value.Replay? ==> o.value.response == r.response[key].value)
    ensures var r' := ReserveIn(r, key, fingerprint, at, wires).0;
      r' == if wires.setNx.Down? || Reserved(r, key, at.setNx) then r
            else r.(reserve := r.reserve[key := Entry(fingerprint, at.setNx + 300)])
  {
  }

  /** On every run kept in time, a request that comes next is answered: 503 when a command it needed went
      unanswered, 409 while the first request is in flight, 422 for another body under the key, the status of
      the response saved last for the same body, or its own handler's. Only the last runs a handler. */
  lemma ServedAnswers(now: Time, steps: seq<Step>, key: Key, fingerprint: Fingerprint, h: Handled, at: Times, wires: Wires)
    requires AllInTime(Start(now), steps) && Run(Start(now), steps).now <= at.getResponse
    ensures var s := Run(Start(now), steps);
      var (_, status, ran) := ServedIn(s.redis, key, fingerprint, h, at, wires);
      match ReserveIn(s.redis, key, fingerprint, at, wires).1
      case None => status == 503 && !ran
      case Some(InFlight) => status == 409 && !ran
      case Some(Mismatch) => status == 422 && !ran
      case Some(Replay(response)) => key in s.lastSaved && s.lastSaved[key] == (fingerprint, response) && status == response.status && !ran
      case Some(Acquired) => status == h.status && ran
  {
    var s := Run(Start(now), steps);
    RunKeepsInv(now, steps);
    ReserveMeans(s.redis, key, fingerprint, at, wires);
    hide Run, AllInTime, ReserveIn, SaveIn, ReleaseIn;
    assert Responded(s.redis, key, s.now) ==> ResponseOk(s, key);
  }

  /** With every command answered: a failed handler leaves the key as free as it was; a successful one makes
      every retry with the same body a replay of its response, until the response expires, and every other
      body a mismatch. */
  lemma ServingMeansReplay(r: Redis, key: Key, fingerprint: Fingerprint, h: Handled, at: Times, retry: Fingerprint, later: Time)
    requires fingerprint != LEGACY_FINGERPRINT && !Reserved(r, key, at.setNx)
    requires at.setNx <= at.save < at.setNx + 300 && at.save <= later
    ensures var r' := ServedIn(r, key, fingerprint, h, at, ALL_UP).0;
      && (!Succeeded(h) ==> OutcomeOf(r', key, retry, later) == Acquired)
      && (Succeeded(h) && later < at.save + 86_400 ==>
            OutcomeOf(r', key, retry, later) == if retry == fingerprint then Replay(Response(h.status, h.body)) else Mismatch)
      && (Succeeded(h) && later >= at.save + 86_400 ==> OutcomeOf(r', key, retry, later) == Acquired)
  {
  }

  /** What the caller that acquired the key does once its handler has finished. */
  function Finish(caller: Id, h: Handled, wires: Wires): seq<Step> {
    if !Succeeded(h) then [if wires.del.Down? then Crash(caller) else Release(caller)]
    else if wires.store.Down? then [Crash(caller)]
    else [Save(caller, Response(h.status, h.body))]
         + [if !wires.store.Up? || wires.expire.Down? then Crash(caller) else Prolong(caller)]
  }

  /** The steps a whole request takes from its first command on, whichever of its commands fail: a command
      that is not executed, and an answer that is lost, are crashes. */
  function Trace(s: System, caller: Id, key: Key, fingerprint: Fingerprint, h: Handled, at: Times, wires: Wires): seq<Step>
    requires s.now == at.setNx <= at.save
  {
    if wires.setNx.Down? then []
    else
      [Reserve(caller, key, fingerprint)]
      + if wires.setNx.Up? && !Reserved(s.redis, key, s.now) then [Tick(at.save - s.now)] + Finish(caller, h, wires)
        else [Crash(caller)]
  }

  lemma FinishEnds(s: System, caller: Id, h: Handled, at: Times, wires: Wires)
    requires caller in s.callers && s.callers[caller].phase.Running? && at.save == s.now
    ensures var key, response := s.callers[caller].key, Response(h.status, h.body);
      var s' := Run(s, Finish(caller, h, wires));
      && s'.redis == (if Succeeded(h) then SaveIn(s.redis, key, response, at, wires).0 else ReleaseIn(s.redis, key, wires).0)
      && s'.callers == s.callers - {caller}
  {
    var response := Response(h.status, h.body);
    var end := if !Succeeded(h) then if wires.del.Down? then Crash(caller) else Release(caller)
               else if !wires.store.Up? || wires.expire.Down? then Crash(caller) else Prolong(caller);
    var mid := if Succeeded(h) && !wires.store.Down? then Next(s, Save(caller, response)) else s;
    assert [end] == [end] + [];
    RunHead(s, Save(caller, response), [end]);
    RunHead(mid, end, []);
    RunNothing(Next(mid, end));
    hide Run;
    assert mid.callers - {caller} == s.callers - {caller};
  }

  /** The key was taken, or the answer is lost: nothing more is done to it. */
  lemma TurnedAway(s: System, caller: Id, key: Key, fingerprint: Fingerprint)
    requires caller !in s.callers && fingerprint != LEGACY_FINGERPRINT
    ensures var s' := Run(s, [Reserve(caller, key, fingerprint)] + [Crash(caller)]);
      s'.redis == AfterReserve(s.redis, key, fingerprint, s.now) && s'.callers == s.callers
  {
    var s1 := Next(s, Reserve(caller, key, fingerprint));
    RunHead(s, Reserve(caller, key, fingerprint), [Crash(caller)]);
    assert [Crash(caller)] == [Crash(caller)] + [];
    RunHead(s1, Crash(caller), []);
    RunNothing(if caller in s1.callers then Next(s1, Crash(caller)) else s1);
    hide Run;
    assert s1.callers - {caller} == s.callers;
  }

  lemma LetThrough(s: System, caller: Id, key: Key, fingerprint: Fingerprint, h: Handled, at: Times, wires: Wires)
    requires caller !in s.callers && fingerprint != LEGACY_FINGERPRINT && s.now <= at.save && !Reserved(s.redis, key, s.now)
    ensures var s' := Run(s, [Reserve(caller, key, fingerprint)] + ([Tick(at.save - s.now)] + Finish(caller, h, wires)));
      var held := AfterReserve(s.redis, key, fingerprint, s.now);
      && s'.redis == (if Succeeded(h) then SaveIn(held, key, Response(h.status, h.body), at, wires).0
                      else ReleaseIn(held, key, wires).0)
      && s'.callers == s.callers
  {
    var s1 := Next(s, Reserve(caller, key, fingerprint));
    var tick := Tick(at.save - s.now);
    RunHead(s, Reserve(caller, key, fingerprint), [tick] + Finish(caller, h, wires));
    RunHead(s1, tick, Finish(caller, h, wires));
    FinishEnds(Next(s1, tick), caller, h, at, wires);
    hide Run, SaveIn, ReleaseIn, Finish;
    assert s1.callers - {caller} == s.callers;
  }

  /** Whatever commands fail or lose their answers, a whole request is a run of the step system: it leaves in
      Redis what those steps leave. Its handler runs exactly when the key was free and the answer arrived. */
  lemma ServingIsARun(s: System, caller: Id, key: Key, fingerprint: Fingerprint, h: Handled, at: Times, wires: Wires)
    requires caller !in s.callers && fingerprint != LEGACY_FINGERPRINT && s.now == at.setNx <= at.save
    ensures var s' := Run(s, Trace(s, caller, key, fingerprint, h, at, wires));
      var (r, _, ran) := ServedIn(s.redis, key, fingerprint, h, at, wires);
      && s'.redis == r && s'.callers == s.callers
      && (ran <==> wires.setNx.Up? && OutcomeOf(s.redis, key, fingerprint, at.setNx).Acquired?)
  {
    if wires.setNx.Down? {
      RunNothing(s);
    } else if wires.setNx.Up? && !Reserved(s.redis, key, s.now) {
      LetThrough(s, caller, key, fingerprint, h, at, wires);
    } else {
      TurnedAway(s, caller, key, fingerprint);
    }
    hide Run, SaveIn, ReleaseIn, Finish;
  }

  class Store {
    var reserve: map<Key, Entry<Fingerprint>>
    var response: map<Key, Entry<Response>>

    ghost function Value(): Redis
      reads this
    {
      Redis(reserve, response)
    }

    constructor ()
      ensures Value() == Redis(map[], map[])
    {
      reserve, response := map[], map[];
    }

    /** SETNX: whether it stored the value, if its answer arrives. */
    method SetNx(key: Key, fingerprint: Fingerprint, now: Time, wire: Wire) returns (acquired: Option<bool>)
      modifies this`reserve
      ensures acquired == if wire.Up? then Some(!Reserved(old(Value()), key, now)) else None
      ensures Value() == if wire.Down? then old(Value()) else AfterReserve(old(Value()), key, fingerprint, now)
    {
      var free := !(key in reserve && reserve[key].Live(now));
      if !wire.Down? && free { reserve := reserve[key := Entry(fingerprint, now + RESERVATION_TTL)]; }
      return if wire.Up? then Some(free) else None;
    }

    method Reserve(key: Key, fingerprint: Fingerprint, at: Times, wires: Wires) returns (outcome: Option<Outcome>)
      modifies this`reserve
      ensures (Value(), outcome) == ReserveIn(old(Value()), key, fingerprint, at, wires)
    {
      var acquired := SetNx(key, fingerprint, at.setNx, wires.setNx);
      if acquired.None? { return None; }
      if acquired.value { return Some(Acquired); }
      if !wires.get.Up? { return None; }
      if !reserve[key].Live(at.get) { return Some(InFlight); }
      var seen := reserve[key].value;
      if seen != LEGACY_FINGERPRINT && seen != fingerprint { return Some(Mismatch); }
      if !wires.getResponse.Up? { return None; }
      if key in response && response[key].Live(at.getResponse) { return Some(Replay(response[key].value)); }
      return Some(InFlight);
    }

    method SaveResponse(key: Key, r: Response, at: Times, wires: Wires) returns (ok: bool)
      modifies this
      ensures (Value(), ok) == SaveIn(old(Value()), key, r, at, wires)
    {
      if !wires.store.Down? { response := response[key := Entry(r, at.save + RESPONSE_TTL)]; }
      if !wires.store.Up? { return false; }
      if !wires.expire.Down? && key in reserve && reserve[key].Live(at.save) {
        reserve := reserve[key := reserve[key].(expires := at.save + RESPONSE_TTL)];
      }
      return wires.expire.Up?;
    }

    method Release(key: Key, wires: Wires) returns (ok: bool)
      modifies this`reserve
      ensures (Value(), ok) == ReleaseIn(old(Value()), key, wires)
    {
      if !wires.del.Down? { reserve := reserve - {key}; }
      return wires.del.Up?;
    }

    /** serveIdempotent: reserve, run the handler, then save or release; failed bookkeeping does not change
        the answer. `h` is what the handler produces if it runs. */
    method Serve(key: Key, fingerprint: Fingerprint, h: Handled, at: Times, wires: Wires) returns (status: int, ran: bool)
      modifies this
      ensures (Value(), status, ran) == ServedIn(old(Value()), key, fingerprint, h, at, wires)
    {
      hide ReserveIn, SaveIn, ReleaseIn;
      var outcome := Reserve(key, fingerprint, at, wires);
      match outcome
      case None => return 503, false;
      case Some(Replay(stored)) => return stored.status, false;
      case Some(InFlight) => return 409, false;
      case Some(Mismatch) => return 422, false;
      case Some(Acquired) =>
        if 200 <= h.status < 300 {
          var _ := SaveResponse(key, Response(h.status, h.body), at, wires);
        } else {
          var _ := Release(key, wires);
        }
        return h.status, true;
    }
  }
}
