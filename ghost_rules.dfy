/**
 * The value-level rules of a ghost's state machine (GhostAI.cs): the armed
 * state change, the Scatter/Chase schedule, the frightened timers and the
 * score for eating a ghost. The GhostAI class applies these to its fields.
 */
module GhostRules {
  import opened Levels

  datatype GhostState = Chase | Scatter | Flee | Blinking | Eaten

  /** The state, the previous state and the request flag ChangeState works on. */
  datatype Fsm = Fsm(state: GhostState, previous: GhostState, request: bool)

  /**
   * ChangeState: the move to `to` happens only when a change was requested
   * and `to` differs from the current state; the request is always consumed.
   */
  function Changed(f: Fsm, to: GhostState): (r: Fsm)
    ensures !r.request
    ensures f.request && f.state != to ==> r.state == to && r.previous == f.state
    ensures !(f.request && f.state != to) ==> r.state == f.state && r.previous == f.previous
  {
    if f.state == to then f.(request := false)
    else if f.request then Fsm(to, f.state, false)
    else f.(request := false)
  }

  /** The request-then-change pattern every caller of ChangeState uses. */
  function Requested(f: Fsm, to: GhostState): (r: Fsm)
    ensures r.state == to && !r.request
    ensures f.state != to ==> r.previous == f.state
  {
    Changed(f.(request := true), to)
  }

  /**
   * A ChangeState that is not re-armed does nothing: after any change, a
   * second one to any state leaves the machine as it is.
   */
  lemma ChangeNeedsRearming(f: Fsm, to: GhostState, other: GhostState)
    ensures Changed(Changed(f, to), other) == Changed(f, to)
  {
  }

  /** Position in the Scatter/Chase schedule. */
  datatype ModeClock = ModeClock(fsm: Fsm, modeIndex: int, timer: real)

  predicate Scheduled(c: ModeClock, modes: seq<GhostMode>)
  {
    && (c.fsm.state == Chase || c.fsm.state == Scatter)
    && 0 <= c.modeIndex < |modes|
  }

  /**
   * UpdateChaseScatterTimers for a frame of `dt`: Scatter ends once the timer
   * exceeds the entry's scatter time; Chase ends once it exceeds the chase
   * time, moving to the next entry, except at the last entry, where only the
   * timer restarts.
   */
  function ModeStep(c: ModeClock, modes: seq<GhostMode>, dt: real): (r: ModeClock)
    requires Scheduled(c, modes)
    ensures Scheduled(r, modes)
    ensures r.modeIndex == c.modeIndex || r.modeIndex == c.modeIndex + 1
    // Scatter ends exactly once the timer passes the entry's scatter time; the
    // timer restarts and the entry stays (for a non-negative chase time, which
    // the fresh timer cannot pass in the same frame).
    ensures (c.fsm.state == Scatter && c.timer + dt > modes[c.modeIndex].scatterModeTime
             && modes[c.modeIndex].chaseModeTime >= 0.0) ==>
      r.fsm == Requested(c.fsm, Chase) && r.timer == 0.0 && r.modeIndex == c.modeIndex
    ensures c.fsm.state == Scatter && c.timer + dt <= modes[c.modeIndex].scatterModeTime ==>
      r == c.(timer := c.timer + dt)
    // Chase ends exactly once the timer passes the chase time: the next entry
    // scatters, while at the last entry only the timer restarts.
    ensures c.fsm.state == Chase && c.timer + dt > modes[c.modeIndex].chaseModeTime ==>
      if c.modeIndex != |modes| - 1
      then r.fsm == Requested(c.fsm, Scatter) && r.timer == 0.0 && r.modeIndex == c.modeIndex + 1
      else r == c.(timer := 0.0)
    ensures c.fsm.state == Chase && c.timer + dt <= modes[c.modeIndex].chaseModeTime ==>
      r == c.(timer := c.timer + dt)
  {
    var t := c.timer + dt;
    var afterScatter :=
      if c.fsm.state == Scatter && t > modes[c.modeIndex].scatterModeTime
      then ModeClock(Requested(c.fsm, Chase), c.modeIndex, 0.0)
      else c.(timer := t);
    if afterScatter.fsm.state == Chase && afterScatter.timer > modes[c.modeIndex].chaseModeTime then
      if c.modeIndex != |modes| - 1 then
        ModeClock(Requested(afterScatter.fsm, Scatter), c.modeIndex + 1, 0.0)
      else
        afterScatter.(timer := 0.0)
    else
      afterScatter
  }

  /** The schedule over a sequence of frame deltas. */
  function ModeRun(c: ModeClock, modes: seq<GhostMode>, dts: seq<real>): (r: ModeClock)
    requires Scheduled(c, modes)
    ensures Scheduled(r, modes)
    decreases |dts|
  {
    if |dts| == 0 then c else ModeRun(ModeStep(c, modes, dts[0]), modes, dts[1..])
  }

  /**
   * Within a round the mode index never decreases, never leaves the table,
   * and grows by at most one per frame.
   */
  lemma {:induction false} ModeIndexMonotone(c: ModeClock, modes: seq<GhostMode>, dts: seq<real>)
    requires Scheduled(c, modes)
    ensures c.modeIndex <= ModeRun(c, modes, dts).modeIndex <= c.modeIndex + |dts|
    ensures ModeRun(c, modes, dts).modeIndex < |modes|
    decreases |dts|
  {
    if |dts| > 0 {
      ModeIndexMonotone(ModeStep(c, modes, dts[0]), modes, dts[1..]);
    }
  }

  /** Once Chase is reached at the table's last entry, the ghost chases for the rest of the round. */
  lemma {:induction false} LastEntryChasesForever(c: ModeClock, modes: seq<GhostMode>, dts: seq<real>)
    requires Scheduled(c, modes) && c.fsm.state == Chase && c.modeIndex == |modes| - 1
    ensures ModeRun(c, modes, dts).fsm.state == Chase
    ensures ModeRun(c, modes, dts).modeIndex == |modes| - 1
    decreases |dts|
  {
    if |dts| > 0 {
      LastEntryChasesForever(ModeStep(c, modes, dts[0]), modes, dts[1..]);
    }
  }

  /**
   * With non-negative mode times a frame makes at most one transition: a
   * Scatter that turns to Chase restarts the timer and stays in Chase.
   */
  lemma OneTransitionPerFrame(c: ModeClock, modes: seq<GhostMode>, dt: real)
    requires Scheduled(c, modes) && c.fsm.state == Scatter
    requires modes[c.modeIndex].chaseModeTime >= 0.0
    ensures ModeStep(c, modes, dt).fsm.state == Chase ==>
      ModeStep(c, modes, dt).timer == 0.0 && ModeStep(c, modes, dt).modeIndex == c.modeIndex
    ensures ModeStep(c, modes, dt).fsm.state == Scatter ==>
      ModeStep(c, modes, dt).timer == c.timer + dt
  {
  }

  /**
   * The thresholds are strict: with the default table (seven seconds of
   * Scatter), a Scatter timer that reaches exactly seven keeps scattering,
   * and any frame that takes it past seven turns the ghost to Chase.
   */
  lemma ScatterThresholdIsStrict(f: Fsm, dt: real)
    requires f.state == Scatter && dt > 0.0
    ensures ModeStep(ModeClock(f, 0, 6.0), DefaultGhostModes, 1.0).fsm.state == Scatter
    ensures ModeStep(ModeClock(f, 0, 7.0), DefaultGhostModes, dt).fsm.state == Chase
  {
  }

  /** Frightened timers and the Pacman kill streak they reset. */
  datatype Scare = Scare(fsm: Fsm, scaredTimer: real, killStreak: int)

  /**
   * UpdateScaredTimers for a frame of `dt`: Blinking starts once the timer
   * reaches `startBlinkingAt` (if not already Blinking); otherwise, once it
   * exceeds `duration`, the ghost returns to Chase, the timer restarts and
   * Pacman's kill streak goes back to 1.
   */
  function ScaredStep(s: Scare, startBlinkingAt: real, duration: real, dt: real): (r: Scare)
    requires s.fsm.state == Flee || s.fsm.state == Blinking
    ensures r.fsm.state == Flee || r.fsm.state == Blinking || r.fsm.state == Chase
    // Blinking starts once the timer reaches startBlinkingAt; timer and streak run on.
    ensures s.scaredTimer + dt >= startBlinkingAt && s.fsm.state != Blinking ==>
      r.fsm == Requested(s.fsm, Blinking) && r.scaredTimer == s.scaredTimer + dt
      && r.killStreak == s.killStreak
    // Otherwise the fright ends once the timer passes the duration.
    ensures (!(s.scaredTimer + dt >= startBlinkingAt && s.fsm.state != Blinking)
             && s.scaredTimer + dt > duration) ==>
      r.fsm == Requested(s.fsm, Chase) && r.scaredTimer == 0.0 && r.killStreak == 1
    // Otherwise only the timer advances.
    ensures (!(s.scaredTimer + dt >= startBlinkingAt && s.fsm.state != Blinking)
             && s.scaredTimer + dt <= duration) ==>
      r == s.(scaredTimer := s.scaredTimer + dt)
  {
    var t := s.scaredTimer + dt;
    if t >= startBlinkingAt && s.fsm.state != Blinking then
      Scare(Requested(s.fsm, Blinking), t, s.killStreak)
    else if t > duration then
      Scare(Requested(s.fsm, Chase), 0.0, 1)
    else
      s.(scaredTimer := t)
  }

  /**
   * The two scared transitions never happen in the same frame: a frame that
   * starts Blinking keeps the timer running and the kill streak, and a frame
   * that ends the fright does not pass through Blinking.
   */
  lemma ScaredTransitionsExclusive(s: Scare, startBlinkingAt: real, duration: real, dt: real)
    requires s.fsm.state == Flee || s.fsm.state == Blinking
    ensures var r := ScaredStep(s, startBlinkingAt, duration, dt);
      (r.fsm.state == Blinking && s.fsm.state == Flee ==>
         r.scaredTimer == s.scaredTimer + dt && r.killStreak == s.killStreak)
      && (r.fsm.state == Chase ==>
         r.scaredTimer == 0.0 && r.killStreak == 1 && r.fsm.previous == s.fsm.state
         && (s.fsm.state == Flee ==> s.scaredTimer + dt < startBlinkingAt)
         && s.scaredTimer + dt > duration)
  {
  }

  /**
   * The frightened lifecycle with the default timings (blinking at 7 s,
   * back to Chase after 10 s): a ghost frightened at time 0 flees for
   * 7 s, blinks until the timer exceeds 10 s, then chases with a kill
   * streak of 1.
   */
  lemma FrightenedLifecycle(f: Fsm, k: int)
    requires f.state == Flee
    ensures var a := ScaredStep(Scare(f, 0.0, k), 7.0, 10.0, 6.0);
      a.fsm.state == Flee && a.scaredTimer == 6.0
    ensures var b := ScaredStep(Scare(f, 6.0, k), 7.0, 10.0, 1.0);
      b.fsm.state == Blinking && b.killStreak == k
    ensures var c := ScaredStep(Scare(f.(state := Blinking), 7.0, k), 7.0, 10.0, 3.0);
      c.fsm.state == Blinking && c.scaredTimer == 10.0
    ensures var d := ScaredStep(Scare(f.(state := Blinking), 10.0, k), 7.0, 10.0, 0.5);
      d.fsm.state == Chase && d.scaredTimer == 0.0 && d.killStreak == 1
  {
  }

  /**
   * StartFleeState: an eaten ghost ignores it; any other ghost restarts its
   * scared timer and is Flee afterwards (already fleeing or blinking ghosts
   * keep or take Flee without a previous-state change when already Flee).
   */
  function FleeStarted(f: Fsm, scaredTimer: real): (r: (Fsm, real))
    ensures f.state == Eaten ==> r == (f, scaredTimer)
    ensures f.state != Eaten ==> r.0.state == Flee && r.1 == 0.0 && !r.0.request
    ensures f.state == Flee ==> r.0.previous == f.previous
    ensures f.state != Eaten && f.state != Flee ==> r.0.previous == f.state
  {
    if f.state == Eaten then (f, scaredTimer) else (Requested(f, Flee), 0.0)
  }

  /** Eating a second super pacpoint while frightened changes nothing further. */
  lemma FleeStartIdempotent(f: Fsm, scaredTimer: real)
    ensures var once := FleeStarted(f, scaredTimer);
      FleeStarted(once.0, once.1) == once
  {
  }

  function Pow2(n: nat): (p: nat)
    ensures p >= 1
  {
    if n == 0 then 1 else 2 * Pow2(n - 1)
  }

  /** The base value of a ghost (ghostScoreValue). */
  const GhostScoreValue := 200

  /** CalculateScore: 200 * 2^(KillStreak - 1). */
  function GhostScore(killStreak: int): (score: int)
    requires killStreak >= 1
    ensures score >= GhostScoreValue
  {
    GhostScoreValue * Pow2(killStreak - 1)
  }

  /**
   * The scoring part of OnEaten: a streak above 4 wraps to 1, the ghost
   * scores for the (wrapped) streak, and the streak then grows by one.
   * Result: (points, new streak).
   */
  function EatGhost(killStreak: int): (r: (int, int))
    requires killStreak >= 1
    ensures 2 <= r.1 <= 5
    ensures killStreak <= 4 ==> r.1 == killStreak + 1
    ensures killStreak > 4 ==> r.1 == 2
    ensures r.0 == GhostScore(r.1 - 1)
  {
    var k := if killStreak > 4 then 1 else killStreak;
    (GhostScore(k), k + 1)
  }

  /** No single ghost is worth more than 1600 points, nor less than 200. */
  lemma GhostScoreBounded(killStreak: int)
    requires killStreak >= 1
    ensures 200 <= EatGhost(killStreak).0 <= 1600
    ensures 2 <= EatGhost(killStreak).1 <= 5
  {
    var k := if killStreak > 4 then 1 else killStreak;
    assert k == 1 || k == 2 || k == 3 || k == 4;
  }

  /** The scores of `n` consecutive eats from a kill streak of `k`. */
  function EatScores(k: int, n: nat): (scores: seq<int>)
    requires k >= 1
    ensures |scores| == n
    decreases n
  {
    if n == 0 then [] else [EatGhost(k).0] + EatScores(EatGhost(k).1, n - 1)
  }

  /** Five consecutive ghosts after a super pacpoint score 200, 400, 800, 1600 and then 200 again. */
  lemma FifthGhostScoresTwoHundred()
    ensures EatScores(1, 5) == [200, 400, 800, 1600, 200]
  {
    assert EatGhost(1) == (200, 2);
    assert EatGhost(2) == (400, 3);
    assert EatGhost(3) == (800, 4);
    assert EatGhost(4) == (1600, 5);
    assert EatGhost(5) == (200, 2);
  }

  /** The streak cycles with period four: eating four ghosts from 2 leads back to 2. */
  lemma {:induction false} ScoresCycle(k: int, n: nat)
    requires 2 <= k <= 5
    ensures EatScores(k, n + 4)[..n] == EatScores(k, n)
    ensures EatScores(k, n + 4)[n..] == EatScores(Cycle(k, n), 4)
    decreases n
  {
    if n > 0 {
      ScoresCycle(EatGhost(k).1, n - 1);
    }
  }

  /** The kill streak after `n` eats from `k`. */
  function Cycle(k: int, n: nat): (r: int)
    requires 2 <= k <= 5
    ensures 2 <= r <= 5
    decreases n
  {
    if n == 0 then k else Cycle(EatGhost(k).1, n - 1)
  }

  /** The streak has period four: four eats from any streak in 2..5 lead back to it. */
  lemma StreakPeriodFour(k: int)
    requires 2 <= k <= 5
    ensures Cycle(k, 4) == k
  {
    assert Cycle(k, 4) == Cycle(EatGhost(EatGhost(EatGhost(EatGhost(k).1).1).1).1, 0);
  }
}
