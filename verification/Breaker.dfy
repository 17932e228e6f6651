/**
 The circuit breaker of one instance. Calls overlap: each acquires, runs for as long as it
 likes, and reports exactly one verdict. Clock readings are whole ticks.
 */
module Breaker {
  import opened Prelude

  datatype Mode = Closed | Open | HalfOpen

  datatype State = State(mode: Mode, failures: nat, openedAt: int, probe: bool)

  datatype Config = Config(threshold: nat, timeout: int) {
    predicate Valid() { threshold >= 1 && timeout > 0 }
  }

  datatype Verdict = Success | Failure | Abort

  const FRESH := State(Closed, 0, 0, false)

  function Acquired(c: Config, s: State, now: int): (State, bool) {
    if s.mode.Open? && now - s.openedAt < c.timeout then (s, false)
    else
      var woken := if s.mode.Open? then s.(mode := HalfOpen) else s;
      if woken.mode.HalfOpen? then
        if woken.probe then (woken, false) else (woken.(probe := true), true)
      else (woken, true)
  }

  function Tripped(now: int): State { State(Open, 0, now, false) }

  function Judged(c: Config, s: State, verdict: Verdict, now: int): State {
    match verdict
    case Abort => s.(probe := false)
    case Success =>
      if s.mode.HalfOpen? then s.(mode := Closed, probe := false, failures := 0) else s.(failures := 0)
    case Failure =>
      if s.mode.HalfOpen? then Tripped(now)
      else if s.mode.Closed? then
        if s.failures + 1 >= c.threshold then Tripped(now) else s.(failures := s.failures + 1)
      else s
  }

  class CircuitBreaker {
    const config: Config
    var mode: Mode
    var failures: nat
    var openedAt: int
    var probeInFlight: bool

    function Value(): State
      reads this
    {
      State(mode, failures, openedAt, probeInFlight)
    }

    constructor (config: Config)
      requires config.Valid()
      ensures this.config == config && Value() == FRESH
    {
      this.config := config;
      mode, failures, openedAt, probeInFlight := Closed, 0, 0, false;
    }

    method TryAcquire(now: int) returns (admitted: bool)
      modifies this
      ensures (Value(), admitted) == Acquired(config, old(Value()), now)
    {
      if mode.Open? {
        if now - openedAt < config.timeout {
          return false;
        }
        mode := HalfOpen;
      }
      if mode.HalfOpen? {
        if probeInFlight {
          return false;
        }
        probeInFlight := true;
      }
      admitted := true;
    }

    method OnSuccess()
      modifies this
      ensures Value() == Judged(config, old(Value()), Success, 0)
    {
      if mode.HalfOpen? {
        mode := Closed;
        probeInFlight := false;
      }
      failures := 0;
    }

    method OnFailure(now: int)
      modifies this
      ensures Value() == Judged(config, old(Value()), Failure, now)
    {
      if mode.HalfOpen? {
        Trip(now);
      } else if mode.Closed? {
        failures := failures + 1;
        if failures >= config.threshold {
          Trip(now);
        }
      }
    }

    method OnAbort()
      modifies this
      ensures Value() == Judged(config, old(Value()), Abort, 0)
    {
      probeInFlight := false;
    }

    method Trip(now: int)
      modifies this
      ensures Value() == Tripped(now)
    {
      mode := Open;
      openedAt := now;
      failures := 0;
      probeInFlight := false;
    }
  }

  // ---------- overlapping calls ----------

  /** Who is in flight, who last took the probe slot, and every verdict so far. */
  datatype Traffic = Traffic(state: State, inFlight: set<nat>, holder: nat, verdicts: seq<Verdict>)

  datatype Step = Acquire(call: nat, now: int) | Report(call: nat, verdict: Verdict, now: int)

  const IDLE := Traffic(FRESH, {}, 0, [])

  function Next(c: Config, t: Traffic, step: Step): Traffic {
    match step
    case Acquire(call, now) =>
      if call in t.inFlight then t
      else
        var (after, admitted) := Acquired(c, t.state, now);
        if !admitted then t.(state := after)
        else
          t.(state := after, inFlight := t.inFlight + {call}, holder := if after.probe then call else t.holder)
    case Report(call, verdict, now) =>
      if call !in t.inFlight then t
      else t.(state := Judged(c, t.state, verdict, now), inFlight := t.inFlight - {call},
              verdicts := t.verdicts + [verdict])
  }

  function Run(c: Config, t: Traffic, steps: seq<Step>): Traffic {
    if steps == [] then t else Next(c, Run(c, t, steps[..|steps| - 1]), steps[|steps| - 1])
  }

  /** How many failures the verdicts end with, aborted calls not counting as verdicts at all. */
  function Trailing(verdicts: seq<Verdict>): nat {
    if verdicts == [] then 0
    else
      match verdicts[|verdicts| - 1]
      case Success => 0
      case Abort => Trailing(verdicts[..|verdicts| - 1])
      case Failure => Trailing(verdicts[..|verdicts| - 1]) + 1
  }

  ghost predicate Sound(c: Config, t: Traffic) {
    && (t.state.probe ==> t.state.mode.HalfOpen? && t.holder in t.inFlight)
    && (t.state.mode.Closed? ==> t.state.failures < c.threshold && t.state.failures == Trailing(t.verdicts))
    && (!t.state.mode.Closed? ==> t.state.failures == 0)
  }

  lemma StepIsSound(c: Config, t: Traffic, step: Step)
    requires c.Valid() && Sound(c, t)
    ensures Sound(c, Next(c, t, step))
  {
    if step.Report? && step.call in t.inFlight {
      assert (t.verdicts + [step.verdict])[..|t.verdicts|] == t.verdicts;
    }
  }

  /**
   Under any overlap of calls: a taken probe slot means half-open, and the call that took it is
   still in flight; a closed breaker counts exactly the failures its verdicts end with, and
   they are fewer than the threshold.
   */
  lemma {:induction false} AlwaysSound(c: Config, steps: seq<Step>)
    requires c.Valid()
    ensures Sound(c, Run(c, IDLE, steps))
  {
    if steps != [] {
      AlwaysSound(c, steps[..|steps| - 1]);
      StepIsSound(c, Run(c, IDLE, steps[..|steps| - 1]), steps[|steps| - 1]);
    }
  }

  /**
   An open breaker is left only by an acquire that comes a full timeout after it opened. Until
   then nothing changes it: no late verdict extends the wait or shortens it.
   */
  lemma OpenIsLeftByWaiting(c: Config, steps: seq<Step>, step: Step)
    requires c.Valid() && Run(c, IDLE, steps).state.mode.Open?
    ensures
      var before, after := Run(c, IDLE, steps), Next(c, Run(c, IDLE, steps), step);
      && (after.state != before.state <==>
            step.Acquire? && step.call !in before.inFlight && step.now - before.state.openedAt >= c.timeout)
      && (after.state != before.state ==> after.state.mode.HalfOpen? && step.call in after.inFlight)
  {
    AlwaysSound(c, steps);
  }

  /**
   An acquire is refused exactly while the timeout runs, or while the call that took the probe
   slot is still in flight; so with no call in flight, a breaker that is not waiting out its
   timeout always admits, and cannot wedge.
   */
  lemma RefusalsHaveACause(c: Config, steps: seq<Step>, call: nat, now: int)
    requires c.Valid() && call !in Run(c, IDLE, steps).inFlight
    ensures
      var t := Run(c, IDLE, steps);
      var waiting := t.state.mode.Open? && now - t.state.openedAt < c.timeout;
      var admitted := call in Next(c, t, Acquire(call, now)).inFlight;
      && (!admitted <==> waiting || (t.state.mode.HalfOpen? && t.state.probe))
      && (!admitted && !waiting ==> t.holder in t.inFlight)
      && (t.inFlight == {} && !waiting ==> admitted)
  {
    AlwaysSound(c, steps);
  }

  // ---------- when there is one probe, and when there are two ----------

  ghost predicate NoReportBy(call: nat, steps: seq<Step>) {
    forall n :: 0 <= n < |steps| && steps[n].Report? ==> steps[n].call != call
  }

  /** Any verdict of any call in flight frees a taken slot, whoever took it. */
  lemma AnyVerdictFreesTheSlot(c: Config, history: seq<Step>, call: nat, verdict: Verdict, now: int)
    requires c.Valid() && Run(c, IDLE, history).state.probe && call in Run(c, IDLE, history).inFlight
    ensures !Next(c, Run(c, IDLE, history), Report(call, verdict, now)).state.probe
  {
    AlwaysSound(c, history);
  }

  /** A lone probe stays alone: nobody else is admitted before it reports. */
  lemma {:induction false} LoneProbeStaysAlone(c: Config, t: Traffic, steps: seq<Step>)
    requires t.state.mode.HalfOpen? && t.state.probe && t.inFlight == {t.holder} && NoReportBy(t.holder, steps)
    ensures Run(c, t, steps) == t
  {
    if steps != [] {
      var before := steps[..|steps| - 1];
      assert NoReportBy(t.holder, before) by {
        assert forall n :: 0 <= n < |before| ==> before[n] == steps[n];
      }
      LoneProbeStaysAlone(c, t, before);
    }
  }

  lemma {:induction false} AnotherCall(calls: set<nat>) returns (another: nat)
    ensures another !in calls && forall call :: call in calls ==> call < another
  {
    if calls == {} {
      another := 0;
    } else {
      var call :| call in calls;
      var rest := AnotherCall(calls - {call});
      another := Max(rest, call + 1);
      assert calls == (calls - {call}) + {call};
      assert forall one :: one in calls ==> one == call || one in calls - {call};
    }
  }

  /** A call in flight beside the probe can report, and a second probe is admitted at once. */
  lemma StragglerLetsASecondProbeIn(c: Config, t: Traffic, straggler: nat) returns (steps: seq<Step>, second: nat)
    requires t.state.mode.HalfOpen? && t.state.probe && straggler in t.inFlight && straggler != t.holder
    ensures NoReportBy(t.holder, steps)
    ensures second !in t.inFlight && Run(c, t, steps).inFlight == t.inFlight - {straggler} + {second}
  {
    second := AnotherCall(t.inFlight);
    var report, acquire := Report(straggler, Abort, 0), Acquire(second, 0);
    steps := [] + [report] + [acquire];
    RunConcat(c, t, [], report);
    RunConcat(c, t, [] + [report], acquire);
  }

  /**
   In every reachable state whose probe slot is taken: nobody is admitted before the call that
   took it reports, whatever the others do, exactly when that call is the only one in flight.
   */
  lemma OneProbeIffNobodyElseIsInFlight(c: Config, history: seq<Step>)
    requires c.Valid() && Run(c, IDLE, history).state.probe
    ensures
      var t := Run(c, IDLE, history);
      (forall steps :: NoReportBy(t.holder, steps) ==> Run(c, t, steps).inFlight <= t.inFlight)
      <==> t.inFlight == {t.holder}
  {
    AlwaysSound(c, history);
    var t := Run(c, IDLE, history);
    if t.inFlight == {t.holder} {
      forall steps | NoReportBy(t.holder, steps)
        ensures Run(c, t, steps).inFlight <= t.inFlight
      {
        LoneProbeStaysAlone(c, t, steps);
      }
    } else {
      assert t.inFlight == (t.inFlight - {t.holder}) + {t.holder};
      var straggler :| straggler in t.inFlight - {t.holder};
      var steps, second := StragglerLetsASecondProbeIn(c, t, straggler);
      assert second in Run(c, t, steps).inFlight;
    }
  }

  /** Such a state is reached: a call from before the circuit opened outlives it, and two probes fly at once. */
  lemma StragglerFreesTheSlot(c: Config)
    requires c.threshold == 1 && c.timeout > 0
    ensures
      var t := Run(c, IDLE, [] + [Acquire(0, 0)] + [Acquire(1, 0)] + [Report(1, Failure, 0)] + [Acquire(2, c.timeout)]
                            + [Report(0, Abort, c.timeout)] + [Acquire(3, c.timeout)]);
      t.state.mode.HalfOpen? && t.inFlight == {2, 3}
  {
    var s1 := [] + [Acquire(0, 0)];
    var s2 := s1 + [Acquire(1, 0)];
    var s3 := s2 + [Report(1, Failure, 0)];
    var s4 := s3 + [Acquire(2, c.timeout)];
    var s5 := s4 + [Report(0, Abort, c.timeout)];
    RunConcat(c, IDLE, [], Acquire(0, 0));
    RunConcat(c, IDLE, s1, Acquire(1, 0));
    RunConcat(c, IDLE, s2, Report(1, Failure, 0));
    RunConcat(c, IDLE, s3, Acquire(2, c.timeout));
    RunConcat(c, IDLE, s4, Report(0, Abort, c.timeout));
    RunConcat(c, IDLE, s5, Acquire(3, c.timeout));
    assert Run(c, IDLE, s3) == Traffic(Tripped(0), {0}, 0, [Failure]);
    assert Run(c, IDLE, s4) == Traffic(State(HalfOpen, 0, 0, true), {0, 2}, 2, [Failure]);
  }

  lemma RunConcat(c: Config, t: Traffic, steps: seq<Step>, step: Step)
    ensures Run(c, t, steps + [step]) == Next(c, Run(c, t, steps), step)
  {
    assert (steps + [step])[..|steps|] == steps;
  }

  // ---------- how often a dead instance is reached ----------

  /** One call after another to an instance that always fails: when each asks, and when it fails. */
  datatype Attempt = Attempt(asked: int, failed: int)

  ghost predicate InOrder(from: int, attempts: seq<Attempt>)
    decreases |attempts|
  {
    attempts != [] ==>
      && from <= attempts[0].asked <= attempts[0].failed
      && InOrder(attempts[0].failed, attempts[1..])
  }

  /** How many of the calls reach the instance. */
  function Reached(c: Config, s: State, attempts: seq<Attempt>): nat
    decreases |attempts|
  {
    if attempts == [] then 0
    else
      var (after, admitted) := Acquired(c, s, attempts[0].asked);
      if admitted then 1 + Reached(c, Judged(c, after, Failure, attempts[0].failed), attempts[1..])
      else Reached(c, after, attempts[1..])
  }

  /** How many calls asked between `now` and `end` a breaker can still admit. */
  function Budget(c: Config, s: State, now: int, end: int): int
    requires c.Valid()
  {
    if now > end then 0
    else
      match s.mode
      case Closed => c.threshold - s.failures + (end - now) / c.timeout
      case HalfOpen => if s.probe then 0 else 1 + (end - now) / c.timeout
      case Open =>
        var ready := Max(now, s.openedAt + c.timeout);
        if ready > end then 0 else 1 + (end - ready) / c.timeout
  }

  lemma MoreTimeMoreTurns(c: Config, x: int, y: int)
    requires c.Valid() && x <= y
    ensures x / c.timeout <= y / c.timeout
    ensures (x + c.timeout) / c.timeout == x / c.timeout + 1
  {
    var p, d := x / c.timeout, c.timeout;
    DivisionBounds(x, d);
    DivisionIsLargest(y, d, p);
    DivisionIsLargest(x + d, d, p + 1);
    DivisionIsLargest(x + d, d, p + 2);
    assert p * d == d * p && (p + 1) * d == d * p + d && (p + 2) * d == d * p + 2 * d;
  }

  lemma TrippingFitsTheBudget(c: Config, failed: int, end: int)
    requires c.Valid()
    ensures Budget(c, Tripped(failed), failed, end) == if failed > end then 0 else (end - failed) / c.timeout
  {
    if failed <= end {
      MoreTimeMoreTurns(c, end - failed - c.timeout, end - failed);
      if failed + c.timeout > end {
        DivisionBounds(end - failed, c.timeout);
      }
    }
  }

  /** Time passing and refusals only shrink the budget; each admission spends one of it. */
  lemma OneAttempt(c: Config, s: State, from: int, a: Attempt, end: int)
    requires c.Valid() && from <= a.asked <= a.failed && a.asked <= end
    requires s.mode.Closed? ==> s.failures < c.threshold
    ensures
      var (after, admitted) := Acquired(c, s, a.asked);
      if admitted then Budget(c, Judged(c, after, Failure, a.failed), a.failed, end) + 1 <= Budget(c, s, from, end)
      else Budget(c, after, a.failed, end) <= Budget(c, s, from, end)
  {
    MoreTimeMoreTurns(c, end - a.asked, end - from);
    TrippingFitsTheBudget(c, a.failed, end);
    if a.failed <= end {
      MoreTimeMoreTurns(c, end - a.failed, end - a.asked);
      MoreTimeMoreTurns(c, 0, end - a.failed);
    }
    MoreTimeMoreTurns(c, 0, end - a.asked);
    if s.mode.Open? {
      var sooner, later := Max(from, s.openedAt + c.timeout), Max(a.failed, s.openedAt + c.timeout);
      if later <= end {
        MoreTimeMoreTurns(c, end - later, end - sooner);
        MoreTimeMoreTurns(c, 0, end - later);
      }
      if sooner <= end {
        MoreTimeMoreTurns(c, 0, end - sooner);
      }
      if a.asked >= s.openedAt + c.timeout {
        MoreTimeMoreTurns(c, end - a.asked, end - sooner);
      }
    }
  }

  lemma {:induction false} ReachedWithinBudget(c: Config, s: State, from: int, attempts: seq<Attempt>, end: int)
    requires c.Valid() && InOrder(from, attempts)
    requires s.mode.Closed? ==> s.failures < c.threshold
    requires forall i :: 0 <= i < |attempts| ==> attempts[i].asked <= end
    requires from <= end || attempts == []
    ensures Reached(c, s, attempts) <= Max(0, Budget(c, s, from, end))
    decreases |attempts|
  {
    if attempts != [] {
      var a := attempts[0];
      OneAttempt(c, s, from, a, end);
      var (after, admitted) := Acquired(c, s, a.asked);
      var next := if admitted then Judged(c, after, Failure, a.failed) else after;
      if attempts[1..] != [] {
        assert attempts[1..][0].asked <= end;
      }
      ReachedWithinBudget(c, next, a.failed, attempts[1..], end);
      MoreTimeMoreTurns(c, 0, end - from);
    }
  }

  /**
   From any state a history can leave it in, an instance that always fails is reached within
   any window no more often than the threshold plus the whole timeouts the window holds.
   */
  lemma DeadInstanceIsRarelyReached(c: Config, history: seq<Step>, attempts: seq<Attempt>, from: int, window: nat)
    requires c.Valid() && InOrder(from, attempts)
    requires forall i :: 0 <= i < |attempts| ==> attempts[i].asked <= from + window
    ensures Reached(c, Run(c, IDLE, history).state, attempts) <= c.threshold + window / c.timeout
  {
    AlwaysSound(c, history);
    var s := Run(c, IDLE, history).state;
    ReachedWithinBudget(c, s, from, attempts, from + window);
    MoreTimeMoreTurns(c, 0, window);
    if s.mode.Open? {
      var ready := Max(from, s.openedAt + c.timeout);
      if ready <= from + window {
        MoreTimeMoreTurns(c, from + window - ready, window);
      }
    }
  }
}
