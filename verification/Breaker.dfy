/** The Redis circuit breaker: three atomic fields, any number of callers, one atomic operation a step. */
module Breaker {
  import opened Base

  datatype State = Closed | Open | HalfOpen

  datatype Config = Config(threshold: int, cooldown: int)

  predicate ValidConfig(cfg: Config) { cfg.threshold > 0 && cfg.cooldown > 0 }

  /** Where a caller is inside the hook; each value is the atomic operation it performs next. */
  datatype Pc =
    | LoadState                                   // allow
    | ReadClock
    | LoadUntil(clock: Time)
    | Swap(until: Time)
    | InCall(probe: bool)                         // the call to Redis
    | ClearFailures                               // succeed
    | StoreClosed
    | LoadStateOnFail                             // fail
    | AddFailure
    | ReadTripClock                               // trip
    | StoreUntil(clock: Time)
    | ClearOnTrip
    | StoreOpen

  /** Writes of `state`, in order. */
  datatype Event = Probed(caller: Id) | StoredOpen | StoredClosed

  datatype System = System(
    state: State, openUntil: Time, failures: int, now: Time,
    callers: map<Id, Pc>, log: seq<Event>)

  datatype Step =
    | Tick(elapsed: nat)
    | Enter(caller: Id)
    | Answer(caller: Id, unavailable: bool)       // Redis replies, or the call panics: no error then
    | Go(caller: Id)

  predicate Enabled(s: System, step: Step) {
    match step
    case Tick(_) => true
    case Enter(caller) => caller !in s.callers
    case Answer(caller, _) => caller in s.callers && s.callers[caller].InCall?
    case Go(caller) => caller in s.callers && !s.callers[caller].InCall?
  }

  function At(s: System, caller: Id, pc: Pc): System { s.(callers := s.callers[caller := pc]) }

  function Leave(s: System, caller: Id): System { s.(callers := s.callers - {caller}) }

  function Next(s: System, cfg: Config, step: Step): System
    requires Enabled(s, step)
  {
    match step
    case Tick(elapsed) => s.(now := s.now + elapsed)
    case Enter(caller) => At(s, caller, LoadState)
    case Answer(caller, unavailable) => At(s, caller, if unavailable then LoadStateOnFail else ClearFailures)
    case Go(caller) => Advance(s, cfg, caller)
  }

  function Advance(s: System, cfg: Config, caller: Id): System
    requires caller in s.callers && !s.callers[caller].InCall?
  {
    match s.callers[caller]
    case LoadState =>
      (match s.state
       case Closed => At(s, caller, InCall(false))
       case Open => At(s, caller, ReadClock)
       case HalfOpen => Leave(s, caller))
    case ReadClock => At(s, caller, LoadUntil(s.now))
    case LoadUntil(clock) => if clock < s.openUntil then Leave(s, caller) else At(s, caller, Swap(s.openUntil))
    case Swap(_) =>
      if s.state.Open? then At(s, caller, InCall(true)).(state := HalfOpen, log := s.log + [Probed(caller)])
      else Leave(s, caller)
    case ClearFailures => At(s, caller, StoreClosed).(failures := 0)
    case StoreClosed => Leave(s, caller).(state := Closed, log := s.log + [StoredClosed])
    case LoadStateOnFail => At(s, caller, if s.state.HalfOpen? then ReadTripClock else AddFailure)
    case AddFailure =>
      var counted := s.(failures := s.failures + 1);
      if counted.failures >= cfg.threshold then At(counted, caller, ReadTripClock) else Leave(counted, caller)
    case ReadTripClock => At(s, caller, StoreUntil(s.now))
    case StoreUntil(clock) => At(s, caller, ClearOnTrip).(openUntil := clock + cfg.cooldown)
    case ClearOnTrip => At(s, caller, StoreOpen).(failures := 0)
    case StoreOpen => Leave(s, caller).(state := Open, log := s.log + [StoredOpen])
  }

  function Run(s: System, cfg: Config, steps: seq<Step>): System {
    if steps == [] then s
    else
      var before := Run(s, cfg, steps[..|steps| - 1]);
      if Enabled(before, steps[|steps| - 1]) then Next(before, cfg, steps[|steps| - 1]) else before
  }

  function Start(now: Time): System { System(Closed, 0, 0, now, map[], []) }

  // ---- a half-open breaker is always about to leave that state ----

  function StateAfter(log: seq<Event>): State {
    if log == [] then Closed
    else
      match log[|log| - 1]
      case Probed(_) => HalfOpen
      case StoredOpen => Open
      case StoredClosed => Closed
  }

  /** Still inside the call, or bound for a store of `state` that ends the probe. */
  predicate WillEndProbe(pc: Pc) {
    match pc
    case LoadState => false
    case ReadClock => false
    case LoadUntil(_) => false
    case Swap(_) => false
    case AddFailure => false
    case _ => true
  }

  predicate ProbesFollowOpens(log: seq<Event>) {
    forall i | 0 <= i < |log| && log[i].Probed? :: i > 0 && log[i - 1] == StoredOpen
  }

  /** The caller whose swap wrote `state` last, if that was the last write. */
  function Prober(log: seq<Event>): Option<Id> {
    if log != [] && log[|log| - 1].Probed? then Some(log[|log| - 1].caller) else None
  }

  /** The caller whose swap made the breaker half-open has not finished recording. */
  predicate ProberActive(s: System) {
    Prober(s.log).Some? ==> Prober(s.log).value in s.callers && WillEndProbe(s.callers[Prober(s.log).value])
  }

  predicate ClocksRead(s: System) {
    && (forall caller | caller in s.callers && s.callers[caller].Swap? :: s.callers[caller].until <= s.now)
    && (forall caller | caller in s.callers && s.callers[caller].LoadUntil? :: s.callers[caller].clock <= s.now)
  }

  /** `state` is what was last written to it, its half-open owner is still at work, and every probe
      directly follows a store of the open state. */
  ghost predicate Inv(s: System) {
    s.state == StateAfter(s.log) && ProbesFollowOpens(s.log) && ProberActive(s) && ClocksRead(s)
  }

  lemma LogGrows(log: seq<Event>, event: Event)
    requires ProbesFollowOpens(log) && (event.Probed? ==> StateAfter(log).Open?)
    ensures ProbesFollowOpens(log + [event])
  {
  }

  lemma NextKeepsLog(s: System, cfg: Config, step: Step)
    requires s.state == StateAfter(s.log) && ProbesFollowOpens(s.log) && Enabled(s, step)
    ensures var s' := Next(s, cfg, step); s'.state == StateAfter(s'.log) && ProbesFollowOpens(s'.log)
  {
    hide ProbesFollowOpens;
    if step.Go? {
      LogGrows(s.log, StoredClosed);
      LogGrows(s.log, StoredOpen);
      if s.state.Open? { LogGrows(s.log, Probed(step.caller)); }
    }
  }

  lemma NextKeepsProber(s: System, cfg: Config, step: Step)
    requires s.state == StateAfter(s.log) && ProberActive(s) && Enabled(s, step)
    ensures ProberActive(Next(s, cfg, step))
  {
  }

  lemma NextKeepsClocks(s: System, cfg: Config, step: Step)
    requires ClocksRead(s) && Enabled(s, step)
    ensures ClocksRead(Next(s, cfg, step))
  {
  }

  lemma NextKeepsInv(s: System, cfg: Config, step: Step)
    requires Inv(s) && Enabled(s, step)
    ensures Inv(Next(s, cfg, step))
  {
    NextKeepsLog(s, cfg, step);
    NextKeepsProber(s, cfg, step);
    NextKeepsClocks(s, cfg, step);
    hide Next, ProberActive, ClocksRead, ProbesFollowOpens, StateAfter;
  }

  lemma {:induction false} RunKeepsInv(now: Time, cfg: Config, steps: seq<Step>)
    ensures Inv(Run(Start(now), cfg, steps))
  {
    if steps != [] {
      hide Inv, Enabled, Next;
      RunKeepsInv(now, cfg, steps[..|steps| - 1]);
      var before := Run(Start(now), cfg, steps[..|steps| - 1]);
      if Enabled(before, steps[|steps| - 1]) { NextKeepsInv(before, cfg, steps[|steps| - 1]); }
    }
  }

  /** A probe that returns leaves the breaker open or closed, unless another caller's probe has begun. */
  lemma ProbeEndsHalfOpen(now: Time, cfg: Config, steps: seq<Step>, caller: Id)
    ensures var s := Run(Start(now), cfg, steps);
      caller !in s.callers && s.state.HalfOpen? ==> Prober(s.log).Some? && Prober(s.log).value != caller
  {
    RunKeepsInv(now, cfg, steps);
  }

  /** The next n operations of one caller with nothing in between. */
  function Drive(s: System, cfg: Config, caller: Id, n: nat): System
    decreases n
  {
    if n == 0 || caller !in s.callers || s.callers[caller].InCall? then s
    else Drive(Advance(s, cfg, caller), cfg, caller, n - 1)
  }

  function StepsLeft(pc: Pc): nat {
    match pc
    case ClearFailures => 2
    case StoreClosed => 1
    case LoadStateOnFail => 5
    case ReadTripClock => 4
    case StoreUntil(_) => 3
    case ClearOnTrip => 2
    case StoreOpen => 1
    case _ => 0
  }

  lemma {:induction false} DriveEndsProbe(s: System, cfg: Config, caller: Id, n: nat)
    requires caller in s.callers && WillEndProbe(s.callers[caller]) && !s.callers[caller].InCall? && s.state.HalfOpen?
    requires n >= StepsLeft(s.callers[caller])
    ensures caller !in Drive(s, cfg, caller, n).callers && !Drive(s, cfg, caller, n).state.HalfOpen?
    decreases n
  {
    var s' := Advance(s, cfg, caller);
    if caller in s'.callers { DriveEndsProbe(s', cfg, caller, n - 1); }
  }

  /** A half-open breaker can always leave that state: whatever Redis answers its prober, at most five
      operations of the prober alone store open or closed and end its call. */
  lemma ProberEndsIt(s: System, cfg: Config, unavailable: bool)
    requires Inv(s) && s.state.HalfOpen?
    ensures Prober(s.log).Some? && Prober(s.log).value in s.callers
    ensures var caller := Prober(s.log).value;
      var s' := if s.callers[caller].InCall? then Next(s, cfg, Answer(caller, unavailable)) else s;
      caller !in Drive(s', cfg, caller, 5).callers && !Drive(s', cfg, caller, 5).state.HalfOpen?
  {
    var caller := Prober(s.log).value;
    var s' := if s.callers[caller].InCall? then Next(s, cfg, Answer(caller, unavailable)) else s;
    DriveEndsProbe(s', cfg, caller, 5);
  }

  /** Each store of the open state admits at most one probe before the next store of open or closed. */
  lemma OneProbePerOpen(now: Time, cfg: Config, steps: seq<Step>, i: nat, j: nat)
    requires i < j < |Run(Start(now), cfg, steps).log|
    requires Run(Start(now), cfg, steps).log[i].Probed? && Run(Start(now), cfg, steps).log[j].Probed?
    ensures i < j - 1 && Run(Start(now), cfg, steps).log[j - 1] == StoredOpen
  {
    RunKeepsInv(now, cfg, steps);
  }

  // ---- the cooldown ----

  /** The state before step k of a run from the start. */
  ghost function Before(now: Time, cfg: Config, steps: seq<Step>, k: nat): System
    requires k <= |steps|
  {
    Run(Start(now), cfg, steps[..k])
  }

  /** Step k reads `openUntil` for this caller. */
  ghost predicate Loads(now: Time, cfg: Config, steps: seq<Step>, k: nat, caller: Id)
    requires k < |steps|
  {
    var s := Before(now, cfg, steps, k);
    steps[k] == Go(caller) && caller in s.callers && s.callers[caller].LoadUntil?
  }

  /** Step k stores `openUntil`. */
  ghost predicate Stores(now: Time, cfg: Config, steps: seq<Step>, k: nat)
    requires k < |steps|
  {
    var s := Before(now, cfg, steps, k);
    steps[k].Go? && steps[k].caller in s.callers && s.callers[steps[k].caller].StoreUntil?
  }

  /** The clock reading that store is computed from. */
  ghost function StoredClock(now: Time, cfg: Config, steps: seq<Step>, k: nat): Time
    requires k < |steps| && Stores(now, cfg, steps, k)
  {
    Before(now, cfg, steps, k).callers[steps[k].caller].clock
  }

  ghost predicate LastLoad(now: Time, cfg: Config, steps: seq<Step>, caller: Id, r: nat) {
    r < |steps| && Loads(now, cfg, steps, r, caller) && forall j :: r < j < |steps| ==> !Loads(now, cfg, steps, j, caller)
  }

  /** The last store after step r. */
  ghost predicate LastStore(now: Time, cfg: Config, steps: seq<Step>, r: nat, k: nat) {
    r < k < |steps| && Stores(now, cfg, steps, k) && forall j :: k < j < |steps| ==> !Stores(now, cfg, steps, j)
  }

  /** What any step does to the clock, to `openUntil` and to a caller about to swap. */
  lemma StepEffect(s: System, cfg: Config, step: Step, caller: Id)
    requires Enabled(s, step)
    ensures var s' := Next(s, cfg, step);
      && s'.now >= s.now
      && (if step.Go? && s.callers[step.caller].StoreUntil? then s'.openUntil == s.callers[step.caller].clock + cfg.cooldown
          else s'.openUntil == s.openUntil)
      && (caller in s'.callers && s'.callers[caller].Swap? ==>
            || (caller in s.callers && s.callers[caller].Swap?)
            || (step == Go(caller) && s.callers[caller].LoadUntil? && s.callers[caller].clock >= s.openUntil))
  {
  }

  lemma OneMore(now: Time, cfg: Config, steps: seq<Step>, n: nat)
    requires n < |steps|
    ensures var s := Before(now, cfg, steps, n);
      Before(now, cfg, steps, n + 1) == if Enabled(s, steps[n]) then Next(s, cfg, steps[n]) else s
  {
    assert steps[..n + 1][..n] == steps[..n];
    hide Next, Enabled;
  }

  /** From a load on, `openUntil` is what was loaded, or what the last store since then made it; and a
      caller at its swap loaded a deadline that had passed. */
  lemma {:induction false} SinceLoad(now: Time, cfg: Config, steps: seq<Step>, caller: Id, r: nat, n: nat)
    requires r < n <= |steps| && Loads(now, cfg, steps, r, caller)
    requires forall j :: r < j < n ==> !Loads(now, cfg, steps, j, caller)
    ensures var at, s := Before(now, cfg, steps, r), Before(now, cfg, steps, n);
      && at.now <= s.now
      && (caller in s.callers && s.callers[caller].Swap? ==> at.openUntil <= at.callers[caller].clock)
      && ((s.openUntil == at.openUntil && forall j :: r < j < n ==> !Stores(now, cfg, steps, j))
          || exists k :: r < k < n && Stores(now, cfg, steps, k) && s.openUntil == StoredClock(now, cfg, steps, k) + cfg.cooldown
                         && forall j :: k < j < n ==> !Stores(now, cfg, steps, j))
  {
    var m := n - 1;
    var before := Before(now, cfg, steps, m);
    OneMore(now, cfg, steps, m);
    if Enabled(before, steps[m]) { StepEffect(before, cfg, steps[m], caller); }
    hide Next, Before;
    if m > r {
      SinceLoad(now, cfg, steps, caller, r, m);
      assert !Loads(now, cfg, steps, m, caller);
      if Stores(now, cfg, steps, m) {
        assert StoredClock(now, cfg, steps, m) == before.callers[steps[m].caller].clock;
      }
    }
  }

  /** A caller at its swap has a last load. */
  lemma {:induction false} SwapHasLoaded(now: Time, cfg: Config, steps: seq<Step>, caller: Id, n: nat)
    requires n <= |steps|
    requires caller in Before(now, cfg, steps, n).callers && Before(now, cfg, steps, n).callers[caller].Swap?
    ensures exists r: nat :: r < n && Loads(now, cfg, steps, r, caller) && forall j :: r < j < n ==> !Loads(now, cfg, steps, j, caller)
  {
    assert steps[..0] == [];
    if n > 0 {
      var m := n - 1;
      var before := Before(now, cfg, steps, m);
      OneMore(now, cfg, steps, m);
      if Enabled(before, steps[m]) { StepEffect(before, cfg, steps[m], caller); }
      hide Next, Before;
      if !Loads(now, cfg, steps, m, caller) { SwapHasLoaded(now, cfg, steps, caller, m); }
    }
  }

  /** A caller about to swap is early, inside a cooldown, exactly when some caller stored a deadline after
      it loaded one and the last deadline so stored has not passed. */
  lemma ProbeIsEarlyIff(now: Time, cfg: Config, steps: seq<Step>, caller: Id, r: nat)
    requires LastLoad(now, cfg, steps, caller, r)
    requires caller in Run(Start(now), cfg, steps).callers && Run(Start(now), cfg, steps).callers[caller].Swap?
    ensures var s := Run(Start(now), cfg, steps);
      s.now < s.openUntil <==>
        exists k :: LastStore(now, cfg, steps, r, k) && s.now < StoredClock(now, cfg, steps, k) + cfg.cooldown
  {
    assert steps[..|steps|] == steps;
    SinceLoad(now, cfg, steps, caller, r, |steps|);
    RunKeepsInv(now, cfg, steps[..r]);
    hide Before, Stores, Loads;
    forall k, k' | LastStore(now, cfg, steps, r, k) && LastStore(now, cfg, steps, r, k') ensures k == k' {
      LastStoreIsOne(now, cfg, steps, r, k, k');
    }
  }

  lemma LastStoreIsOne(now: Time, cfg: Config, steps: seq<Step>, r: nat, k: nat, k': nat)
    requires LastStore(now, cfg, steps, r, k) && LastStore(now, cfg, steps, r, k')
    ensures k == k'
  {
    hide Stores;
  }

  // ---- an early probe, from the start ----

  /** The same operation step n times over. */
  function Goes(caller: Id, n: nat): seq<Step> {
    if n == 0 then [] else [Go(caller)] + Goes(caller, n - 1)
  }

  /** A caller comes in and gets as far as its swap; a caller's call fails and is recorded. */
  function Reach(caller: Id): seq<Step> { [Enter(caller)] + Goes(caller, 3) }

  function Lose(caller: Id): seq<Step> { [Answer(caller, true)] + Goes(caller, 6) }

  function FailedCall(caller: Id): seq<Step> { ([Enter(caller)] + Goes(caller, 1)) + Lose(caller) }

  function FailedCalls(caller: Id, n: nat): seq<Step> {
    if n == 0 then [] else FailedCalls(caller, n - 1) + FailedCall(caller)
  }

  lemma {:induction false} RunCat(s: System, cfg: Config, first: seq<Step>, rest: seq<Step>)
    ensures Run(s, cfg, first + rest) == Run(Run(s, cfg, first), cfg, rest)
  {
    if rest == [] {
      assert first + rest == first;
    } else {
      RunCat(s, cfg, first, rest[..|rest| - 1]);
      assert (first + rest)[..|first + rest| - 1] == first + rest[..|rest| - 1];
    }
  }

  lemma RunOne(s: System, cfg: Config, step: Step)
    ensures Run(s, cfg, [step]) == if Enabled(s, step) then Next(s, cfg, step) else s
  {
    assert [step][..0] == [];
  }

  lemma {:induction false} GoesDrive(s: System, cfg: Config, caller: Id, n: nat)
    ensures Run(s, cfg, Goes(caller, n)) == Drive(s, cfg, caller, n)
    decreases n
  {
    if n > 0 {
      RunCat(s, cfg, [Go(caller)], Goes(caller, n - 1));
      RunOne(s, cfg, Go(caller));
      hide Run;
      if Enabled(s, Go(caller)) {
        GoesDrive(Advance(s, cfg, caller), cfg, caller, n - 1);
      } else {
        GoesDrive(s, cfg, caller, n - 1);
        DriveEnds(s, cfg, caller, n - 1);
      }
    }
  }

  lemma RunSegment(s: System, cfg: Config, step: Step, caller: Id, n: nat)
    requires Enabled(s, step)
    ensures Run(s, cfg, [step] + Goes(caller, n)) == Drive(Next(s, cfg, step), cfg, caller, n)
  {
    RunCat(s, cfg, [step], Goes(caller, n));
    RunOne(s, cfg, step);
    GoesDrive(Next(s, cfg, step), cfg, caller, n);
  }

  lemma EnterClosed(s: System, cfg: Config, caller: Id)
    requires s.state.Closed? && caller !in s.callers
    ensures Run(s, cfg, [Enter(caller)] + Goes(caller, 1)) == At(s, caller, InCall(false))
  {
    RunSegment(s, cfg, Enter(caller), caller, 1);
    hide Run;
    var inCall := Advance(At(s, caller, LoadState), cfg, caller);
    assert Drive(inCall, cfg, caller, 0) == inCall;
    assert s.callers[caller := LoadState][caller := InCall(false)] == s.callers[caller := InCall(false)];
  }

  /** Losing a call is `fail` and no more. */
  lemma LoseFails(s: System, cfg: Config, caller: Id)
    requires caller in s.callers && s.callers[caller].InCall?
    ensures var s' := Run(s, cfg, Lose(caller));
      s'.callers == s.callers - {caller} && s'.now == s.now && FieldsOf(s') == Failed(FieldsOf(s), s.now, cfg)
  {
    RunSegment(s, cfg, Answer(caller, true), caller, 6);
    var answered := At(s, caller, LoadStateOnFail);
    FailAlone(answered, cfg, caller);
    DriveKeepsRest(answered, cfg, caller, 6);
    hide Run, Drive, Failed;
    var s' := Drive(answered, cfg, caller, 6);
    assert s'.callers == s'.callers - {caller};
    assert answered.callers - {caller} == s.callers - {caller};
  }

  lemma FailedCallFails(s: System, cfg: Config, caller: Id)
    requires s.state.Closed? && caller !in s.callers
    ensures var s' := Run(s, cfg, FailedCall(caller));
      s'.callers == s.callers && s'.now == s.now && FieldsOf(s') == Failed(FieldsOf(s), s.now, cfg)
  {
    RunCat(s, cfg, [Enter(caller)] + Goes(caller, 1), Lose(caller));
    EnterClosed(s, cfg, caller);
    LoseFails(At(s, caller, InCall(false)), cfg, caller);
    hide Run, Failed, Lose;
    assert s.callers[caller := InCall(false)] - {caller} == s.callers;
  }

  /** A caller's operations leave the clock and the other callers alone. */
  lemma {:induction false} DriveKeepsRest(s: System, cfg: Config, caller: Id, n: nat)
    ensures var s' := Drive(s, cfg, caller, n); s'.now == s.now && s'.callers - {caller} == s.callers - {caller}
    decreases n
  {
    if n > 0 && caller in s.callers && !s.callers[caller].InCall? {
      AdvanceKeepsRest(s, cfg, caller);
      hide Advance;
      DriveKeepsRest(Advance(s, cfg, caller), cfg, caller, n - 1);
    }
  }

  lemma AdvanceKeepsRest(s: System, cfg: Config, caller: Id)
    requires caller in s.callers && !s.callers[caller].InCall?
    ensures Advance(s, cfg, caller).now == s.now
    ensures Advance(s, cfg, caller).callers - {caller} == s.callers - {caller}
  {
  }

  lemma {:induction false} FailedCallsCount(now: Time, cfg: Config, caller: Id, n: nat)
    requires ValidConfig(cfg) && n <= cfg.threshold
    ensures var s := Run(Start(now), cfg, FailedCalls(caller, n));
      s.callers == map[] && s.now == now && FieldsOf(s) == FailTimes(Fields(Closed, 0, 0), now, cfg, n)
  {
    if n > 0 {
      FailedCallsCount(now, cfg, caller, n - 1);
      ThresholdTrips(Fields(Closed, 0, 0), now, cfg, n - 1);
      var before := Run(Start(now), cfg, FailedCalls(caller, n - 1));
      FailedCallFails(before, cfg, caller);
      RunCat(Start(now), cfg, FailedCalls(caller, n - 1), FailedCall(caller));
      hide Run, FailedCall;
    }
  }

  lemma ReachSwaps(s: System, cfg: Config, caller: Id)
    requires s.state.Open? && caller !in s.callers && s.openUntil <= s.now
    ensures Run(s, cfg, Reach(caller)) == At(s, caller, Swap(s.openUntil))
  {
    RunSegment(s, cfg, Enter(caller), caller, 3);
    hide Run;
    var s1 := Advance(At(s, caller, LoadState), cfg, caller);
    var s2 := Advance(s1, cfg, caller);
    var s3 := Advance(s2, cfg, caller);
    assert Drive(s2, cfg, caller, 1) == Drive(s3, cfg, caller, 0) == s3;
    assert Drive(s1, cfg, caller, 2) == Drive(s2, cfg, caller, 1);
    assert s3.callers == s.callers[caller := Swap(s.openUntil)];
  }

  lemma SwapProbes(s: System, cfg: Config, caller: Id)
    requires s.state.Open? && caller in s.callers && s.callers[caller].Swap?
    ensures var s' := Run(s, cfg, Goes(caller, 1));
      s'.state.HalfOpen? && s'.callers == s.callers[caller := InCall(true)] && s'.now == s.now && s'.openUntil == s.openUntil
  {
    GoesDrive(s, cfg, caller, 1);
    assert Drive(Advance(s, cfg, caller), cfg, caller, 0) == Advance(s, cfg, caller);
  }

  /** Both callers load the same deadline and get as far as their swaps. */
  function BothReach(a: Id, b: Id, cooldown: nat): seq<Step> { [Tick(cooldown)] + Reach(a) + Reach(b) }

  lemma BothReachSwaps(s: System, cfg: Config, a: Id, b: Id)
    requires ValidConfig(cfg) && a != b && s.callers == map[] && s.state.Open? && s.openUntil == s.now + cfg.cooldown
    ensures Run(s, cfg, BothReach(a, b, cfg.cooldown))
         == s.(now := s.openUntil, callers := map[a := Swap(s.openUntil), b := Swap(s.openUntil)])
  {
    RunOne(s, cfg, Tick(cfg.cooldown));
    RunCat(s, cfg, [Tick(cfg.cooldown)], Reach(a));
    RunCat(s, cfg, [Tick(cfg.cooldown)] + Reach(a), Reach(b));
    var s1 := s.(now := s.now + cfg.cooldown);
    hide Reach;
    ReachSwaps(s1, cfg, a);
    ReachSwaps(At(s1, a, Swap(s1.openUntil)), cfg, b);
    hide Run;
  }

  /** Two callers pass the deadline check together; one probes, fails and trips the breaker anew before
      the other swaps. */
  function Race(a: Id, b: Id, cooldown: nat): seq<Step> {
    BothReach(a, b, cooldown) + Goes(b, 1) + Lose(b) + Goes(a, 1)
  }

  lemma RaceAdmitsEarly(s: System, cfg: Config, a: Id, b: Id)
    requires ValidConfig(cfg) && a != b && s.callers == map[] && s.state.Open? && s.openUntil == s.now + cfg.cooldown
    ensures var s' := Run(s, cfg, Race(a, b, cfg.cooldown));
      s'.state.HalfOpen? && s'.callers == map[a := InCall(true)] && s'.now < s'.openUntil
  {
    var p1 := BothReach(a, b, cfg.cooldown);
    var p2 := p1 + Goes(b, 1);
    var p3 := p2 + Lose(b);
    RunCat(s, cfg, p1, Goes(b, 1));
    RunCat(s, cfg, p2, Lose(b));
    RunCat(s, cfg, p3, Goes(a, 1));
    hide Run, BothReach, Goes, Lose;
    BothReachSwaps(s, cfg, a, b);
    var s1 := Run(s, cfg, p1);
    SwapProbes(s1, cfg, b);
    var s2 := Run(s1, cfg, Goes(b, 1));
    LoseFails(s2, cfg, b);
    var s3 := Run(s2, cfg, Lose(b));
    assert s3.callers == map[a := Swap(s1.openUntil)];
    SwapProbes(s3, cfg, a);
  }

  /** For any settings: after as many failed calls as the threshold, the race admits a probe inside the
      cooldown that the other prober's failure has just begun. */
  lemma EarlyProbeIsReachable(now: Time, cfg: Config, a: Id, b: Id)
    requires ValidConfig(cfg) && a != b
    ensures var s := Run(Start(now), cfg, FailedCalls(a, cfg.threshold) + Race(a, b, cfg.cooldown));
      s.state.HalfOpen? && s.callers == map[a := InCall(true)] && s.now < s.openUntil
  {
    RunCat(Start(now), cfg, FailedCalls(a, cfg.threshold), Race(a, b, cfg.cooldown));
    FailedCallsCount(now, cfg, a, cfg.threshold);
    ThresholdTrips(Fields(Closed, 0, 0), now, cfg, cfg.threshold);
    hide Run, FailTimes, Race;
    RaceAdmitsEarly(Run(Start(now), cfg, FailedCalls(a, cfg.threshold)), cfg, a, b);
  }

  // ---- one caller at a time ----

  datatype Fields = Fields(state: State, openUntil: Time, failures: int)

  function FieldsOf(s: System): Fields { Fields(s.state, s.openUntil, s.failures) }

  /** What each operation does when no other caller interferes. */
  function Allowed(f: Fields, now: Time): (Fields, bool) {
    match f.state
    case Closed => (f, true)
    case Open => if now < f.openUntil then (f, false) else (f.(state := HalfOpen), true)
    case HalfOpen => (f, false)
  }

  function Succeeded(f: Fields): Fields { f.(state := Closed, failures := 0) }

  function Tripped(now: Time, cfg: Config): Fields { Fields(Open, now + cfg.cooldown, 0) }

  function Failed(f: Fields, now: Time, cfg: Config): Fields {
    if f.state.HalfOpen? || f.failures + 1 >= cfg.threshold then Tripped(now, cfg)
    else f.(failures := f.failures + 1)
  }

  function FailTimes(f: Fields, now: Time, cfg: Config, n: nat): Fields {
    if n == 0 then f else Failed(FailTimes(f, now, cfg, n - 1), now, cfg)
  }

  lemma DriveOne(s: System, cfg: Config, caller: Id, n: nat)
    requires n > 0 && caller in s.callers && !s.callers[caller].InCall?
    ensures Drive(s, cfg, caller, n) == Drive(Advance(s, cfg, caller), cfg, caller, n - 1)
  {
  }

  lemma DriveEnds(s: System, cfg: Config, caller: Id, n: nat)
    requires caller !in s.callers || s.callers[caller].InCall?
    ensures Drive(s, cfg, caller, n) == s
  {
  }

  lemma AllowAlone(s: System, cfg: Config, caller: Id)
    requires caller in s.callers && s.callers[caller].LoadState?
    ensures var s', r := Drive(s, cfg, caller, 4), Allowed(FieldsOf(s), s.now);
      FieldsOf(s') == r.0 && (r.1 <==> caller in s'.callers) && (caller in s'.callers ==> s'.callers[caller].InCall?)
  {
    DriveOne(s, cfg, caller, 4);
    var s1 := Advance(s, cfg, caller);
    if s.state.Open? {
      DriveOne(s1, cfg, caller, 3);
      var s2 := Advance(s1, cfg, caller);
      DriveOne(s2, cfg, caller, 2);
      var s3 := Advance(s2, cfg, caller);
      if caller in s3.callers {
        DriveOne(s3, cfg, caller, 1);
        DriveEnds(Advance(s3, cfg, caller), cfg, caller, 0);
      } else {
        DriveEnds(s3, cfg, caller, 1);
      }
    } else {
      DriveEnds(s1, cfg, caller, 3);
    }
    hide Drive;
  }

  lemma SucceedAlone(s: System, cfg: Config, caller: Id)
    requires caller in s.callers && s.callers[caller].ClearFailures?
    ensures var s' := Drive(s, cfg, caller, 2); FieldsOf(s') == Succeeded(FieldsOf(s)) && caller !in s'.callers
  {
    DriveOne(s, cfg, caller, 2);
    var s1 := Advance(s, cfg, caller);
    DriveOne(s1, cfg, caller, 1);
    DriveEnds(Advance(s1, cfg, caller), cfg, caller, 0);
    hide Drive;
  }

  lemma TripAlone(s: System, cfg: Config, caller: Id, n: nat)
    requires caller in s.callers && s.callers[caller].ReadTripClock? && n >= 4
    ensures var s' := Drive(s, cfg, caller, n); FieldsOf(s') == Tripped(s.now, cfg) && caller !in s'.callers
  {
    DriveOne(s, cfg, caller, n);
    var s1 := Advance(s, cfg, caller);
    DriveOne(s1, cfg, caller, n - 1);
    var s2 := Advance(s1, cfg, caller);
    DriveOne(s2, cfg, caller, n - 2);
    var s3 := Advance(s2, cfg, caller);
    DriveOne(s3, cfg, caller, n - 3);
    DriveEnds(Advance(s3, cfg, caller), cfg, caller, n - 4);
    hide Drive;
  }

  lemma FailAlone(s: System, cfg: Config, caller: Id)
    requires caller in s.callers && s.callers[caller].LoadStateOnFail?
    ensures var s' := Drive(s, cfg, caller, 6); FieldsOf(s') == Failed(FieldsOf(s), s.now, cfg) && caller !in s'.callers
  {
    DriveOne(s, cfg, caller, 6);
    var s1 := Advance(s, cfg, caller);
    if s.state.HalfOpen? {
      TripAlone(s1, cfg, caller, 5);
    } else {
      DriveOne(s1, cfg, caller, 5);
      var s2 := Advance(s1, cfg, caller);
      if caller in s2.callers { TripAlone(s2, cfg, caller, 4); } else { DriveEnds(s2, cfg, caller, 4); }
    }
    hide Drive;
  }

  /** Run alone, the atomic steps are the sequential operations. */
  lemma StepsAreOperations(s: System, cfg: Config, caller: Id)
    requires caller in s.callers
    ensures s.callers[caller].LoadState? ==>
      var s', r := Drive(s, cfg, caller, 4), Allowed(FieldsOf(s), s.now);
      FieldsOf(s') == r.0 && (r.1 <==> caller in s'.callers) && (caller in s'.callers ==> s'.callers[caller].InCall?)
    ensures s.callers[caller].ClearFailures? ==>
      var s' := Drive(s, cfg, caller, 2); FieldsOf(s') == Succeeded(FieldsOf(s)) && caller !in s'.callers
    ensures s.callers[caller].LoadStateOnFail? ==>
      var s' := Drive(s, cfg, caller, 6); FieldsOf(s') == Failed(FieldsOf(s), s.now, cfg) && caller !in s'.callers
  {
    hide Drive, Allowed, Failed, Succeeded;
    match s.callers[caller]
    case LoadState => AllowAlone(s, cfg, caller);
    case ClearFailures => SucceedAlone(s, cfg, caller);
    case LoadStateOnFail => FailAlone(s, cfg, caller);
    case _ =>
  }

  /** From closed and clean, n failures in a row leave the breaker closed below the threshold and trip it
      at the threshold. */
  lemma {:induction false} ThresholdTrips(f: Fields, now: Time, cfg: Config, n: nat)
    requires ValidConfig(cfg) && f.state.Closed? && f.failures == 0 && n <= cfg.threshold
    ensures FailTimes(f, now, cfg, n) == if n < cfg.threshold then f.(failures := n) else Tripped(now, cfg)
  {
    if n > 0 { ThresholdTrips(f, now, cfg, n - 1); }
  }

  /** The breaker after calls with these outcomes, true for unavailable, each made and recorded at one moment. */
  function AfterCalls(f: Fields, now: Time, cfg: Config, outcomes: seq<bool>): Fields {
    if outcomes == [] then f
    else
      var before := AfterCalls(f, now, cfg, outcomes[..|outcomes| - 1]);
      if outcomes[|outcomes| - 1] then Failed(before, now, cfg) else Succeeded(before)
  }

  /** How many failures in a row come last. */
  function FailuresInARow(outcomes: seq<bool>): nat {
    if outcomes == [] || !outcomes[|outcomes| - 1] then 0 else 1 + FailuresInARow(outcomes[..|outcomes| - 1])
  }

  /** Only failures in a row count: from closed and clean, as long as there never were as many in a row as the
      threshold, the breaker is closed; the first time there are, it trips. */
  lemma {:induction false} ConsecutiveFailuresTrip(now: Time, cfg: Config, outcomes: seq<bool>)
    requires ValidConfig(cfg) && forall k :: 0 <= k < |outcomes| ==> FailuresInARow(outcomes[..k]) < cfg.threshold
    ensures AfterCalls(Fields(Closed, 0, 0), now, cfg, outcomes)
         == if FailuresInARow(outcomes) < cfg.threshold then Fields(Closed, 0, FailuresInARow(outcomes))
            else Fields(Open, now + cfg.cooldown, 0)
  {
    if outcomes != [] {
      var rest := outcomes[..|outcomes| - 1];
      assert forall k :: 0 <= k <= |rest| ==> rest[..k] == outcomes[..k];
      assert FailuresInARow(outcomes[..|rest|]) < cfg.threshold;
      ConsecutiveFailuresTrip(now, cfg, rest);
    }
  }

  /** A tripped breaker refuses everything until its cooldown is over and then admits one probe, whose outcome
      alone decides: success closes it clean, failure begins a new cooldown. */
  lemma TrippedProbesOnce(tripped: Time, now: Time, later: Time, cfg: Config)
    ensures var (f, admitted) := Allowed(Tripped(tripped, cfg), now);
      && (admitted <==> now >= tripped + cfg.cooldown)
      && (!admitted ==> f == Tripped(tripped, cfg))
      && (admitted ==> f.state.HalfOpen? && Allowed(f, later) == (f, false)
                       && Succeeded(f).state.Closed? && Succeeded(f).failures == 0 && Allowed(Succeeded(f), later) == (Succeeded(f), true)
                       && Failed(f, later, cfg) == Fields(Open, later + cfg.cooldown, 0))
  {
  }

  /** The breaker as one caller at a time uses it. */
  class CircuitBreaker {
    var state: State
    var openUntil: Time
    var failures: int
    const cfg: Config

    ghost function Value(): Fields
      reads this
    {
      Fields(state, openUntil, failures)
    }

    /** Non-positive settings fall back to five failures and two seconds. */
    constructor (threshold: int, cooldown: int)
      ensures Value() == Fields(Closed, 0, 0) && ValidConfig(cfg)
      ensures cfg == Config(if threshold > 0 then threshold else 5, if cooldown > 0 then cooldown else 2_000_000_000)
    {
      state, openUntil, failures := Closed, 0, 0;
      cfg := Config(if threshold > 0 then threshold else 5, if cooldown > 0 then cooldown else 2_000_000_000);
    }

    method Allow(now: Time) returns (admitted: bool)
      modifies this`state
      ensures (Value(), admitted) == Allowed(old(Value()), now)
    {
      match state
      case Closed => return true;
      case Open =>
        if now < openUntil { return false; }
        state := HalfOpen;
        return true;
      case HalfOpen => return false;
    }

    method Succeed()
      modifies this
      ensures Value() == Succeeded(old(Value()))
    {
      failures := 0;
      state := Closed;
    }

    method Trip(now: Time)
      modifies this
      ensures Value() == Tripped(now, cfg)
    {
      openUntil := now + cfg.cooldown;
      failures := 0;
      state := Open;
    }

    method Fail(now: Time)
      modifies this
      ensures Value() == Failed(old(Value()), now, cfg)
    {
      if state.HalfOpen? {
        Trip(now);
        return;
      }
      failures := failures + 1;
      if failures >= cfg.threshold { Trip(now); }
    }

    /** The hook around one call: refused without a call, or recorded by its outcome. `answer` is what
        the call returns if it is made: whether Redis was unavailable. */
    method Process(now: Time, answer: bool, later: Time) returns (called: bool)
      modifies this
      ensures var r := Allowed(old(Value()), now);
        called == r.1
        && Value() == if !r.1 then old(Value()) else if answer then Failed(r.0, later, cfg) else Succeeded(r.0)
    {
      called := Allow(now);
      if !called { return; }
      if answer { Fail(later); } else { Succeed(); }
    }
  }
}
