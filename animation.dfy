/**
 * The progress state machine: one record, replaced on every transition, that carries the
 * progress scalar `tEnd` through a forward run, a pause, and a backward run to the end of
 * the lifecycle. Timestamps are milliseconds; `dt` is in seconds.
 */
module Animation {
  import opened Wrappers
  import opened Types
  import opened MathUtils
  import opened Configuration

  datatype AnimState = AnimState(
    running: bool,
    direction: Direction,
    tEnd: real,
    lastTime: Option<real>,
    runId: int,
    hasStartedLifecycle: bool,
    hasCompletedForwardRun: bool,
    lifecycleCompleted: bool)

  datatype TickResult = TickResult(
    state: AnimState,
    didStop: bool,
    didCompleteForward: bool,
    didCompleteLifecycle: bool)

  /** The state at session start: not running, nothing started or completed, at progress 0. */
  const Initial := AnimState(false, Forward, 0.0, None, 0, false, false, false)

  /** Begin a run in the state's current direction, nudging `tEnd` off the boundary it leaves. */
  function StartRun(cfg: Config, s: AnimState): (r: AnimState)
    ensures r.running && r.runId == s.runId + 1 && r.lastTime == None && r.hasStartedLifecycle
    ensures r.direction == s.direction
    ensures r.hasCompletedForwardRun == s.hasCompletedForwardRun
    ensures r.lifecycleCompleted == s.lifecycleCompleted
    ensures s.direction == Forward ==> r.tEnd == if s.tEnd <= cfg.eps then cfg.eps else s.tEnd
    ensures s.direction == Backward ==> r.tEnd == if s.tEnd >= 1.0 - cfg.eps then 1.0 - cfg.eps else s.tEnd
  {
    var next := s.(running := true, runId := s.runId + 1, lastTime := None, hasStartedLifecycle := true);
    if next.direction == Forward then
      if next.tEnd <= cfg.eps then next.(tEnd := cfg.eps) else next
    else
      if next.tEnd >= 1.0 - cfg.eps then next.(tEnd := 1.0 - cfg.eps) else next
  }

  /** End a run (a pause, or the step after a completion). */
  function StopRun(s: AnimState): (r: AnimState)
    ensures !r.running && r.runId == s.runId + 1 && r.lastTime == None
    ensures r.direction == s.direction && r.tEnd == s.tEnd
    ensures r.hasStartedLifecycle == s.hasStartedLifecycle
    ensures r.hasCompletedForwardRun == s.hasCompletedForwardRun
    ensures r.lifecycleCompleted == s.lifecycleCompleted
  {
    s.(running := false, runId := s.runId + 1, lastTime := None)
  }

  /** The direction of the next run: backward exactly once a forward run has completed. */
  function ChooseDirection(s: AnimState): (d: Direction)
    ensures d == Backward <==> s.hasCompletedForwardRun
  {
    if s.hasCompletedForwardRun then Backward else Forward
  }

  /** Seconds elapsed since the previous tick of the run, capped at `maxDeltaTime`. */
  function DeltaTime(cfg: Config, s: AnimState, now: real): (dt: real)
    ensures dt <= cfg.maxDeltaTime
    ensures dt == cfg.maxDeltaTime || dt == (now - s.lastTime.GetOr(now)) / 1000.0
    ensures s.lastTime.Some? && (now - s.lastTime.value) / 1000.0 <= cfg.maxDeltaTime ==>
              dt == (now - s.lastTime.value) / 1000.0
    ensures s.lastTime.Some? && (now - s.lastTime.value) / 1000.0 >= cfg.maxDeltaTime ==>
              dt == cfg.maxDeltaTime
    ensures s.lastTime.None? && cfg.maxDeltaTime >= 0.0 ==> dt == 0.0
    ensures s.lastTime.Some? && now >= s.lastTime.value && cfg.maxDeltaTime >= 0.0 ==> dt >= 0.0
  {
    var last := s.lastTime.GetOr(now);
    Min(cfg.maxDeltaTime, (now - last) / 1000.0)
  }

  function Sign(d: Direction): real {
    if d == Forward then 1.0 else -1.0
  }

  /** The integrated and clamped progress a tick of a running state reaches before snapping. */
  function Advanced(cfg: Config, s: AnimState, now: real): (t: real)
    ensures 0.0 <= t <= 1.0
    ensures var step := Sign(s.direction) * DeltaTime(cfg, s, now) * cfg.speed;
            && (0.0 <= s.tEnd + step <= 1.0 ==> t == s.tEnd + step)
            && (s.tEnd + step <= 0.0 ==> t == 0.0)
            && (1.0 <= s.tEnd + step ==> t == 1.0)
  {
    Clamp(s.tEnd + Sign(s.direction) * DeltaTime(cfg, s, now) * cfg.speed, 0.0, 1.0)
  }

  predicate CompletesForward(cfg: Config, s: AnimState, now: real) {
    s.running && s.direction == Forward && Advanced(cfg, s, now) >= 1.0 - cfg.eps
  }

  predicate CompletesBackward(cfg: Config, s: AnimState, now: real) {
    s.running && s.direction == Backward && Advanced(cfg, s, now) <= cfg.eps
  }

  /** One time-based step of the state machine at timestamp `now`. */
  function TickStep(cfg: Config, s: AnimState, now: real): (r: TickResult)
    // a tick of a stopped state is a no-op that reports a stop
    ensures !s.running ==> r == TickResult(s, true, false, false)
    // progress stays within [0,1]
    ensures s.running ==> 0.0 <= r.state.tEnd <= 1.0
    // each completion fires exactly when its test holds, never both
    ensures r.didCompleteForward <==> CompletesForward(cfg, s, now)
    ensures r.didCompleteLifecycle <==> CompletesBackward(cfg, s, now)
    ensures !(r.didCompleteForward && r.didCompleteLifecycle)
    // runId grows by one exactly on a completion
    ensures r.state.runId == if r.didCompleteForward || r.didCompleteLifecycle then s.runId + 1 else s.runId
    // a running state stops exactly on a completion
    ensures s.running ==> (r.didStop <==> r.didCompleteForward || r.didCompleteLifecycle)
    ensures s.running ==> r.state.running == !r.didStop
    ensures r.didCompleteForward ==>
      r.state == s.(tEnd := 1.0, running := false, runId := s.runId + 1, lastTime := None,
                    hasCompletedForwardRun := true)
    ensures r.didCompleteLifecycle ==>
      r.state == s.(tEnd := 0.0, running := false, runId := s.runId + 1, lastTime := None,
                    lifecycleCompleted := true)
    ensures s.running && !r.didStop ==>
      r.state == s.(tEnd := Advanced(cfg, s, now), lastTime := Some(now))
  {
    if !s.running then
      TickResult(s, true, false, false)
    else
      var next := s.(tEnd := Advanced(cfg, s, now), lastTime := Some(now));
      if next.direction == Forward && next.tEnd >= 1.0 - cfg.eps then
        var done := next.(tEnd := 1.0, running := false, runId := next.runId + 1,
                          lastTime := None, hasCompletedForwardRun := true);
        TickResult(done, true, true, false)
      else if next.direction == Backward && next.tEnd <= cfg.eps then
        var done := next.(tEnd := 0.0, running := false, runId := next.runId + 1,
                          lastTime := None, lifecycleCompleted := true);
        TickResult(done, true, false, true)
      else
        TickResult(next, false, false, false)
  }

  // ---------------------------------------------------------------------------------------
  // Properties of single transitions

  /** The first run of a session is forward. */
  lemma FirstRunIsForward()
    ensures ChooseDirection(Initial) == Forward
    ensures !Initial.running && !Initial.hasStartedLifecycle && Initial.tEnd == 0.0
  {
  }

  /** After a forward completion the next run is backward. */
  lemma BackwardAfterForwardCompletion(cfg: Config, s: AnimState, now: real)
    requires TickStep(cfg, s, now).didCompleteForward
    ensures ChooseDirection(TickStep(cfg, s, now).state) == Backward
  {
  }

  /** With non-decreasing timestamps and a non-negative speed, a tick moves `tEnd` only in the run's direction. */
  lemma TickMovesInDirection(cfg: Config, s: AnimState, now: real)
    requires s.running && 0.0 <= s.tEnd <= 1.0
    requires cfg.speed >= 0.0 && cfg.maxDeltaTime >= 0.0
    requires s.lastTime.Some? ==> now >= s.lastTime.value
    ensures s.direction == Forward ==> TickStep(cfg, s, now).state.tEnd >= s.tEnd
    ensures s.direction == Backward ==> TickStep(cfg, s, now).state.tEnd <= s.tEnd
  {
    var dt := DeltaTime(cfg, s, now);
    assert dt >= 0.0;
    assert dt * cfg.speed >= 0.0;
    if s.direction == Forward {
      ClampMonotone(s.tEnd, s.tEnd + dt * cfg.speed, 0.0, 1.0);
    } else {
      ClampMonotone(s.tEnd - dt * cfg.speed, s.tEnd, 0.0, 1.0);
    }
  }

  /**
   * The first tick after a start advances by zero, so a run that starts anywhere short of
   * its target boundary does not complete on that tick; in particular a forward run from 0
   * and a backward run from 1 do not.
   */
  lemma FirstTickAfterStartDoesNotComplete(cfg: Config, s: AnimState, now: real)
    requires 0.0 < cfg.eps < 0.5 && cfg.maxDeltaTime >= 0.0
    requires s.direction == Forward ==> s.tEnd < 1.0 - cfg.eps
    requires s.direction == Backward ==> s.tEnd > cfg.eps
    ensures var started := StartRun(cfg, s);
            var r := TickStep(cfg, started, now);
            && !r.didStop && !r.didCompleteForward && !r.didCompleteLifecycle
            && r.state == started.(lastTime := Some(now))
  {
    var started := StartRun(cfg, s);
    assert DeltaTime(cfg, started, now) == 0.0;
    assert 0.0 < started.tEnd < 1.0;
  }

  /** A running forward state within `eps` of the end completes on its next tick. */
  lemma ForwardCompletesNearEnd(cfg: Config, s: AnimState, now: real)
    requires s.running && s.direction == Forward && 0.0 <= s.tEnd <= 1.0 && 1.0 - cfg.eps <= s.tEnd
    requires cfg.speed >= 0.0 && cfg.maxDeltaTime >= 0.0
    requires s.lastTime.Some? ==> now >= s.lastTime.value
    ensures var r := TickStep(cfg, s, now);
            r.didCompleteForward && r.state.tEnd == 1.0 && !r.state.running && r.state.hasCompletedForwardRun
  {
    TickMovesInDirection(cfg, s, now);
  }

  /** A running backward state within `eps` of the start completes the lifecycle on its next tick. */
  lemma BackwardCompletesNearStart(cfg: Config, s: AnimState, now: real)
    requires s.running && s.direction == Backward && 0.0 <= s.tEnd <= 1.0 && s.tEnd <= cfg.eps
    requires cfg.speed >= 0.0 && cfg.maxDeltaTime >= 0.0
    requires s.lastTime.Some? ==> now >= s.lastTime.value
    ensures var r := TickStep(cfg, s, now);
            r.didCompleteLifecycle && r.state.tEnd == 0.0 && !r.state.running && r.state.lifecycleCompleted
  {
    TickMovesInDirection(cfg, s, now);
  }

  /** Within the cap, the step of a tick is exactly the elapsed time since the previous tick. */
  lemma DeltaTimeWithinCap(cfg: Config, s: AnimState, now: real)
    requires s.lastTime.Some? && (now - s.lastTime.value) / 1000.0 <= cfg.maxDeltaTime
    ensures DeltaTime(cfg, s, now) == (now - s.lastTime.value) / 1000.0
  {
  }

  /** A running tick whose signed step `delta` lands strictly between the completion thresholds. */
  lemma TickByStep(cfg: Config, s: AnimState, now: real, delta: real)
    requires s.running && delta == Sign(s.direction) * DeltaTime(cfg, s, now) * cfg.speed
    requires 0.0 <= s.tEnd + delta <= 1.0
    requires s.direction == Forward ==> s.tEnd + delta < 1.0 - cfg.eps
    requires s.direction == Backward ==> s.tEnd + delta > cfg.eps
    ensures TickStep(cfg, s, now) == TickResult(s.(tEnd := s.tEnd + delta, lastTime := Some(now)), false, false, false)
  {
    assert Advanced(cfg, s, now) == s.tEnd + delta;
  }

  /**
   * An ordinary tick (elapsed time within the cap, and no boundary reached) moves `tEnd`
   * by the elapsed seconds times the speed, in the run's direction.
   */
  lemma TickAdvancesByElapsedTime(cfg: Config, s: AnimState, now: real)
    requires s.running && s.lastTime.Some?
    requires 0.0 <= (now - s.lastTime.value) / 1000.0 <= cfg.maxDeltaTime
    requires var step := Sign(s.direction) * ((now - s.lastTime.value) / 1000.0) * cfg.speed;
             && 0.0 <= s.tEnd + step <= 1.0
             && (s.direction == Forward ==> s.tEnd + step < 1.0 - cfg.eps)
             && (s.direction == Backward ==> s.tEnd + step > cfg.eps)
    ensures var r := TickStep(cfg, s, now);
            && !r.didStop && r.state.running && r.state.runId == s.runId
            && r.state.lastTime == Some(now)
            && r.state.tEnd == s.tEnd + Sign(s.direction) * ((now - s.lastTime.value) / 1000.0) * cfg.speed
  {
    DeltaTimeWithinCap(cfg, s, now);
    var delta := Sign(s.direction) * DeltaTime(cfg, s, now) * cfg.speed;
    assert delta == Sign(s.direction) * ((now - s.lastTime.value) / 1000.0) * cfg.speed;
    TickByStep(cfg, s, now, delta);
    assert TickStep(cfg, s, now).state == s.(tEnd := s.tEnd + delta, lastTime := Some(now));
  }

  /**
   * With the shipped configuration, a forward tick 100 ms after the previous one advances
   * by the capped step 1/30, not by 0.1.
   */
  lemma ShippedConfigCapsStep(sw: ScreenWidth, t0: real)
    ensures var cfg := MakeConfig(sw);
            var s := AnimState(true, Forward, cfg.eps, Some(t0), 1, true, false, false);
            var r := TickStep(cfg, s, t0 + 100.0);
            !r.didStop && r.state.running && r.state.tEnd == cfg.eps + 1.0 / 30.0
  {
    var cfg := MakeConfig(sw);
    var s := AnimState(true, Forward, cfg.eps, Some(t0), 1, true, false, false);
    assert DeltaTime(cfg, s, t0 + 100.0) == 1.0 / 30.0;
  }

  // ---------------------------------------------------------------------------------------
  // Properties of any sequence of calls

  /** One call of the state machine's interface. */
  datatype Call = Start | Stop | Tick(now: real)

  function Apply(cfg: Config, s: AnimState, c: Call): AnimState {
    match c
    case Start => StartRun(cfg, s)
    case Stop => StopRun(s)
    case Tick(now) => TickStep(cfg, s, now).state
  }

  /** The state after applying `calls` in order. */
  function Run(cfg: Config, s: AnimState, calls: seq<Call>): AnimState
    decreases |calls|
  {
    if calls == [] then s else Run(cfg, Apply(cfg, s, calls[0]), calls[1..])
  }

  /** The number of starts and stops in `calls`. */
  function StartStopCount(calls: seq<Call>): nat
    decreases |calls|
  {
    if calls == [] then 0
    else (if calls[0].Tick? then 0 else 1) + StartStopCount(calls[1..])
  }

  /** `runId` never decreases, and grows by at least one for every start and every stop. */
  lemma {:induction false} RunIdNeverDecreases(cfg: Config, s: AnimState, calls: seq<Call>)
    ensures Run(cfg, s, calls).runId >= s.runId + StartStopCount(calls)
    decreases |calls|
  {
    if calls != [] {
      RunIdNeverDecreases(cfg, Apply(cfg, s, calls[0]), calls[1..]);
    }
  }

  /** Starting from progress in [0,1], every reachable state keeps progress in [0,1]. */
  lemma {:induction false} RunKeepsProgressInRange(cfg: Config, s: AnimState, calls: seq<Call>)
    requires 0.0 <= cfg.eps <= 1.0 && 0.0 <= s.tEnd <= 1.0
    ensures 0.0 <= Run(cfg, s, calls).tEnd <= 1.0
    decreases |calls|
  {
    if calls != [] {
      RunKeepsProgressInRange(cfg, Apply(cfg, s, calls[0]), calls[1..]);
    }
  }
  /** Under a well-formed configuration a session that begins at `Initial` keeps `tEnd` in [0,1], whatever it is asked to do. */
  lemma {:induction false} WellFormedSessionKeepsProgressInRange(cfg: Config, calls: seq<Call>)
    requires WellFormed(cfg)
    ensures 0.0 <= Run(cfg, Initial, calls).tEnd <= 1.0
  {
    RunKeepsProgressInRange(cfg, Initial, calls);
  }

  /** The shipped configuration is well formed, so every session under it keeps `tEnd` in [0,1]. */
  lemma {:induction false} ShippedSessionKeepsProgressInRange(sw: ScreenWidth, calls: seq<Call>)
    ensures 0.0 <= Run(MakeConfig(sw), Initial, calls).tEnd <= 1.0
  {
    WellFormedSessionKeepsProgressInRange(MakeConfig(sw), calls);
  }


  /**
   * Completion flags are never cleared: once the lifecycle has completed it stays completed,
   * and once a forward run has completed every later run is chosen backward.
   */
  lemma {:induction false} RunKeepsCompletionFlags(cfg: Config, s: AnimState, calls: seq<Call>)
    ensures s.lifecycleCompleted ==> Run(cfg, s, calls).lifecycleCompleted
    ensures s.hasCompletedForwardRun ==> ChooseDirection(Run(cfg, s, calls)) == Backward
    ensures s.hasStartedLifecycle ==> Run(cfg, s, calls).hasStartedLifecycle
    decreases |calls|
  {
    if calls != [] {
      RunKeepsCompletionFlags(cfg, Apply(cfg, s, calls[0]), calls[1..]);
    }
  }
}
