/**
 * ChutluV10V3 (declared by both ChutluV10V3.java and ChutluV10V2.java,
 * whose code differs only in layout and comments): records updated in
 * place, the switch rule with an 80 margin and a 20-tick staleness limit,
 * a history reset when the target changes, the doubling radar lock against
 * a single opponent, the dodge step on a detected shot, the tiered gun with
 * a distance-graded aim allowance, and the smooth movement of the run loop.
 */
module ChutluV10V3 {
  import opened Common
  import opened Angles
  import opened Host
  import opened Tracks
  import opened History
  import opened Targeting
  import opened Gunnery
  import opened Radar
  import opened Movement
  import opened Engine

  const GUN: Gun := Gun(Tiered,
                        Predictor(WallSpinSpeed(true), 1.4, RingWindow(Some(5)), Some(50.0)),
                        Gate(Cold, true, AfterTurn(ByRange)))

  const SMOOTH: SmoothConfig := SmoothConfig(true, Some(60.0))

  /** run() opens with GoToWall(start, WALL_MARGIN): the point 18 off the nearest wall. */
  const WALL_MARGIN: real := 18.0

  /** updateRadarLock's overshoot with several opponents. */
  const LOCK_OVERSHOOT: real := 8.0

  /** keepRadarOnTarget's overshoot with several opponents. */
  const KEEP_OVERSHOOT: real := 6.0

  /**
   * The first half of onScannedRobot: the sighting updates the record, the
   * switch rule may retarget (clearing the history when the new target is
   * not the last-scanned robot), and the sighted robot becomes lastTarget.
   */
  function Retarget(st: BotState, s: Scan, m: Moments, trig: Trig): (pre: BotState)
    requires Consistent(st, Full)
    ensures Consistent(pre, Full) && s.name in pre.tracks
  {
    var tracks := Sighted(st.tracks, s, m.start, trig);
    var switching := ShouldSwitchTarget(st.currentTarget, s.name, tracks[s.name], tracks, m.start.time);
    st.(tracks := tracks,
        currentTarget := if switching then Some(s.name) else st.currentTarget,
        lastTarget := Some(s.name),
        ring := if switching && st.lastTarget.Some? && st.lastTarget.value != s.name then Cleared(st.ring) else st.ring)
  }

  /**
   * Lock the radar on the target and dodge a detected shot: moveDirection
   * flips and a 30-unit step goes the new way.
   */
  function LockAndDodge(pre: BotState, s: Scan, m: Moments): Outcome
    requires s.name in pre.tracks
  {
    var enemy := pre.tracks[s.name];
    var locked := pre.currentTarget == Some(s.name);
    var radar := if locked then [TurnRadarRight(SwitchingLockTurn(m.start.heading + s.bearing - m.start.radarHeading,
                                                                  m.start.others, LOCK_OVERSHOOT))] else [];
    if locked && ShotDetected(AboveTenth, enemy.lastEnergy - enemy.energy) then
      var direction := Flip(pre.moveDirection);
      Outcome(pre.(moveDirection := direction), radar + (if direction > 0 then [Ahead(30.0)] else [Back(30.0)]))
    else
      Outcome(pre, radar)
  }

  /** Record the sighting in the history, then aim and maybe fire at the target. */
  function RecordAndFire(mid: BotState, s: Scan, m: Moments, trig: Trig): Outcome
    requires Consistent(mid, Full) && s.name in mid.tracks
  {
    var enemy := mid.tracks[s.name];
    var recorded := Recorded(mid.ring, s.heading, s.velocity, enemy.x, enemy.y);
    Outcome(mid.(ring := recorded),
            if mid.currentTarget == Some(s.name) then FireCommands(GUN, recorded, enemy, m.aim, m.turned, trig) else [])
  }

  /** The second half of onScannedRobot. */
  function Engage(pre: BotState, s: Scan, m: Moments, trig: Trig): Outcome
    requires Consistent(pre, Full) && s.name in pre.tracks
  {
    var dodged := LockAndDodge(pre, s, m);
    var fired := RecordAndFire(dodged.state, s, m, trig);
    Outcome(fired.state, dodged.cmds + fired.cmds)
  }

  /** onScannedRobot as a function of the state before the event. */
  function ScanOutcome(st: BotState, s: Scan, m: Moments, trig: Trig): Outcome
    requires Consistent(st, Full)
  {
    Engage(Retarget(st, s, m, trig), s, m, trig)
  }

  method RetargetStep(bot: Bot, s: Scan, m: Moments, trig: Trig)
    requires bot.Valid() && bot.Kind() == Full
    modifies bot, bot.headings, bot.velocities, bot.xs, bot.ys, bot.enemies.Values
    ensures bot.Valid() && bot.Kind() == Full
    ensures bot.State() == Retarget(old(bot.State()), s, m, trig)
  {
    var enemy := bot.ObserveInPlace(s, m.start, trig);
    if ShouldSwitchTarget(bot.currentTarget, s.name, enemy, bot.Tracks(), m.start.time) {
      if bot.lastTarget.Some? && bot.lastTarget.value != s.name {
        bot.ResetHistory();
      }
      bot.SetTarget(Some(s.name));
    }
    bot.SetLastTarget(Some(s.name));
  }

  method LockAndDodgeStep(bot: Bot, s: Scan, m: Moments) returns (cmds: seq<Command>)
    requires bot.Valid() && s.name in bot.enemies
    modifies bot
    ensures bot.Valid() && s.name in bot.enemies
    ensures Outcome(bot.State(), cmds) == LockAndDodge(old(bot.State()), s, m)
  {
    var enemy := bot.enemies[s.name].Value();
    var locked := bot.currentTarget == Some(s.name);
    cmds := if locked then [TurnRadarRight(SwitchingLockTurn(m.start.heading + s.bearing - m.start.radarHeading,
                                                             m.start.others, LOCK_OVERSHOOT))] else [];
    if locked && ShotDetected(AboveTenth, enemy.lastEnergy - enemy.energy) {
      bot.SetMoveDirection(Flip(bot.moveDirection));
      cmds := cmds + if bot.moveDirection > 0 then [Ahead(30.0)] else [Back(30.0)];
    }
  }

  method RecordAndFireStep(bot: Bot, s: Scan, m: Moments, trig: Trig) returns (cmds: seq<Command>)
    requires bot.Valid() && bot.Kind() == Full && s.name in bot.enemies
    modifies bot, bot.headings, bot.velocities, bot.xs, bot.ys
    ensures bot.Valid() && bot.Kind() == Full
    ensures Outcome(bot.State(), cmds) == RecordAndFire(old(bot.State()), s, m, trig)
  {
    var enemy := bot.enemies[s.name].Value();
    bot.RecordHistory(s.heading, s.velocity, enemy.x, enemy.y);
    cmds := if bot.currentTarget == Some(s.name) then FireCommands(GUN, bot.HistoryRing(), enemy, m.aim, m.turned, trig) else [];
  }

  /** onScannedRobot: update the record, retarget, lock, dodge, record the history, fire. */
  method OnScannedRobot(bot: Bot, s: Scan, m: Moments, trig: Trig) returns (cmds: seq<Command>)
    requires bot.Valid() && bot.Kind() == Full
    modifies bot, bot.headings, bot.velocities, bot.xs, bot.ys, bot.enemies.Values
    ensures bot.Valid()
    ensures Outcome(bot.State(), cmds) == ScanOutcome(old(bot.State()), s, m, trig)
  {
    RetargetStep(bot, s, m, trig);
    var dodged := LockAndDodgeStep(bot, s, m);
    var fired := RecordAndFireStep(bot, s, m, trig);
    cmds := dodged + fired;
  }

  /**
   * A sighting keeps the state consistent, leaves a record for the sighted
   * robot that reflects the scan (and no other new record), and makes the
   * sighted robot the last target.
   */
  lemma ScanKeepsConsistent(st: BotState, s: Scan, m: Moments, trig: Trig)
    requires Consistent(st, Full)
    ensures var o := ScanOutcome(st, s, m, trig);
      Consistent(o.state, Full)
      && o.state.tracks.Keys == st.tracks.Keys + {s.name}
      && Reflects(o.state.tracks[s.name], s, m.start, trig)
      && o.state.lastTarget == Some(s.name)
  {
  }

  /**
   * The switch rule in terms of the state before the sighting: the target
   * is kept or becomes the sighted robot; it becomes the sighted robot when
   * there is no target, or the target is the sighted robot or has no record;
   * otherwise exactly when the target was last seen more than 20 ticks ago
   * or the sighted robot is more than 80 closer.
   */
  lemma ScanTargetRule(st: BotState, s: Scan, m: Moments, trig: Trig)
    requires Consistent(st, Full)
    ensures var o := ScanOutcome(st, s, m, trig);
      var c := st.currentTarget;
      (o.state.currentTarget == c || o.state.currentTarget == Some(s.name))
      && (c.None? || c.value == s.name || c.value !in st.tracks ==> o.state.currentTarget == Some(s.name))
      && (c.Some? && c.value != s.name && c.value in st.tracks ==>
            (o.state.currentTarget == Some(s.name) <==>
               m.start.time - st.tracks[c.value].time > STALE_TICKS || s.distance + SWITCH_MARGIN < st.tracks[c.value].distance))
  {
    var tracks := Sighted(st.tracks, s, m.start, trig);
    SwitchReasons(st.currentTarget, s.name, tracks[s.name], tracks, m.start.time);
  }

  /**
   * Taking a target other than the last-scanned robot clears the history,
   * so the ring then holds only this sighting; otherwise the sighting is
   * written over the oldest slot and the rest of the history stays.
   */
  lemma ScanHistoryRule(st: BotState, s: Scan, m: Moments, trig: Trig)
    requires Consistent(st, Full)
    ensures var o := ScanOutcome(st, s, m, trig);
      var q := o.state.ring;
      var e := o.state.tracks[s.name];
      if o.state.currentTarget == Some(s.name) && st.lastTarget.Some? && st.lastTarget.value != s.name then
        q.index == 1 && q.heading[0] == s.heading && q.velocity[0] == s.velocity && q.xs[0] == e.x && q.ys[0] == e.y
        && forall i :: 1 <= i < SLOTS ==> q.heading[i] == 0.0 && q.velocity[i] == 0.0 && q.xs[i] == 0.0 && q.ys[i] == 0.0
      else
        q == Recorded(st.ring, s.heading, s.velocity, e.x, e.y)
  {
    var tracks := Sighted(st.tracks, s, m.start, trig);
    OneSampleAfterReset(st.ring, s.heading, s.velocity, tracks[s.name].x, tracks[s.name].y);
  }

  /**
   * The dodge: moveDirection flips exactly when the target's energy fell by
   * more than 0.1 and at most 3 since its last sighting.
   */
  lemma ScanDodgeRule(st: BotState, s: Scan, m: Moments, trig: Trig)
    requires Consistent(st, Full)
    ensures var o := ScanOutcome(st, s, m, trig);
      var drop := if s.name in st.tracks then st.tracks[s.name].energy - s.energy else 0.0;
      var flipped := o.state.moveDirection != st.moveDirection;
      (flipped <==> o.state.currentTarget == Some(s.name) && 0.1 < drop <= 3.0)
      && (flipped ==> o.state.moveDirection == -st.moveDirection)
  {
    var pre := Retarget(st, s, m, trig);
    assert pre.tracks[s.name].lastEnergy - pre.tracks[s.name].energy
        == if s.name in st.tracks then st.tracks[s.name].energy - s.energy else 0.0;
  }

  /** The 30-unit dodge step is taken exactly on a flip, in the new direction. */
  lemma ScanDodgeStep(st: BotState, s: Scan, m: Moments, trig: Trig)
    requires Consistent(st, Full)
    ensures var o := ScanOutcome(st, s, m, trig);
      var flipped := o.state.moveDirection != st.moveDirection;
      (Ahead(30.0) in o.cmds <==> flipped && o.state.moveDirection == 1)
      && (Back(30.0) in o.cmds <==> flipped && o.state.moveDirection == -1)
  {
    var pre := Retarget(st, s, m, trig);
    var dodged := LockAndDodge(pre, s, m);
    var fired := RecordAndFire(dodged.state, s, m, trig);
    assert Ahead(30.0) !in fired.cmds && Back(30.0) !in fired.cmds;
  }

  /**
   * The gun fires only at the target it just locked, and never with more
   * than 3 or than the energy left once the gun has turned.
   */
  lemma ScanFireRule(st: BotState, s: Scan, m: Moments, trig: Trig)
    requires Consistent(st, Full)
    ensures var o := ScanOutcome(st, s, m, trig);
      forall c :: c in o.cmds && c.Fire? ==>
        o.state.currentTarget == Some(s.name) && c.power <= 3.0 && c.power <= m.turned.energy
  {
    var pre := Retarget(st, s, m, trig);
    var dodged := LockAndDodge(pre, s, m);
    assert forall c :: c in dodged.cmds ==> !c.Fire?;
  }

  /** onRobotDeath: the nearest survivor becomes the target and the history is reset when the target dies. */
  const DEATH: DeathPolicy := Reselect(true)

  /**
   * keepRadarOnTarget and executeSmoothMovement for a tracked target (turn
   * 20 and drive 80 without one): the first half of a run-loop pass.
   */
  function TrackAndMove(st: BotState, m: LoopMoments, trig: Trig, draws: Draws): Outcome
    requires Consistent(st, Full)
  {
    if st.currentTarget.Some? && st.currentTarget.value in st.tracks then
      var e := st.tracks[st.currentTarget.value];
      var r := st.ring;
      var hugger := WallHuggerDetected(r.xs, r.ys, r.velocity, r.index, m.moving.width, m.moving.height);
      var steer := SmoothMovement(SMOOTH, m.moving, e, hugger, st.moveDirection, trig, draws);
      var radar := TurnRadarRight(SwitchingLockTurn(ToDegrees(AimAt((e.x, e.y), m.start, trig)) - m.start.radarHeading,
                                                    m.start.others, KEEP_OVERSHOOT));
      Outcome(st.(moveDirection := if steer.flip then Flip(st.moveDirection) else st.moveDirection),
              [radar] + steer.cmds)
    else
      Outcome(st, [TurnRight(20.0), Ahead(80.0)])
  }

  /**
   * The sweep rule closing a pass: a full turn of the radar when more than
   * 40 ticks have passed since the last one with several opponents left
   * (recording the time), or when there is no target.
   */
  function SweepOutcome(st: BotState, swept: SelfState): (o: Outcome)
    ensures o.state.(lastRadarSweepTime := st.lastRadarSweepTime) == st
  {
    var due := swept.others > 1 && swept.time - st.lastRadarSweepTime > 40;
    Outcome(st.(lastRadarSweepTime := if due then swept.time else st.lastRadarSweepTime),
            if due || st.currentTarget.None? then [TurnRadarRight(360.0)] else [])
  }

  /** One pass of the run loop. */
  function LoopOutcome(st: BotState, m: LoopMoments, trig: Trig, draws: Draws): Outcome
    requires Consistent(st, Full)
  {
    var moved := TrackAndMove(st, m, trig, draws);
    var swept := SweepOutcome(moved.state, m.swept);
    Outcome(swept.state, moved.cmds + swept.cmds)
  }

  method TrackAndMoveStep(bot: Bot, m: LoopMoments, trig: Trig, draws: Draws) returns (cmds: seq<Command>)
    requires bot.Valid() && bot.Kind() == Full
    modifies bot
    ensures bot.Valid()
    ensures Outcome(bot.State(), cmds) == TrackAndMove(old(bot.State()), m, trig, draws)
  {
    if bot.currentTarget.Some? && bot.currentTarget.value in bot.enemies {
      var e := bot.enemies[bot.currentTarget.value].Value();
      var radar := TurnRadarRight(SwitchingLockTurn(ToDegrees(AimAt((e.x, e.y), m.start, trig)) - m.start.radarHeading,
                                                    m.start.others, KEEP_OVERSHOOT));
      var hugger := DetectWallHugger(bot.xs, bot.ys, bot.velocities, bot.historyIndex, m.moving.width, m.moving.height);
      var steer := SmoothMovement(SMOOTH, m.moving, e, hugger, bot.moveDirection, trig, draws);
      cmds := [radar] + steer.cmds;
      if steer.flip {
        bot.SetMoveDirection(Flip(bot.moveDirection));
      }
    } else {
      cmds := [TurnRight(20.0), Ahead(80.0)];
    }
  }

  method SweepStep(bot: Bot, swept: SelfState) returns (cmds: seq<Command>)
    requires bot.Valid()
    modifies bot
    ensures bot.Valid()
    ensures Outcome(bot.State(), cmds) == SweepOutcome(old(bot.State()), swept)
  {
    cmds := [];
    if swept.others > 1 && swept.time - bot.lastRadarSweepTime > 40 {
      bot.SetLastRadarSweepTime(swept.time);
      cmds := [TurnRadarRight(360.0)];
    } else if bot.currentTarget.None? {
      cmds := [TurnRadarRight(360.0)];
    }
  }

  method RunLoopPass(bot: Bot, m: LoopMoments, trig: Trig, draws: Draws) returns (cmds: seq<Command>)
    requires bot.Valid() && bot.Kind() == Full
    modifies bot
    ensures bot.Valid()
    ensures Outcome(bot.State(), cmds) == LoopOutcome(old(bot.State()), m, trig, draws)
  {
    var moved := TrackAndMoveStep(bot, m, trig, draws);
    var swept := SweepStep(bot, m.swept);
    cmds := moved + swept;
  }

  /**
   * A pass of the run loop changes nothing but moveDirection (flipped by the
   * movement's draw) and the sweep time (set exactly when a sweep is due);
   * it ends with a full sweep exactly when one is due or there is no target,
   * and with a target it drives at most 60 after turning at most 90 degrees.
   */
  lemma LoopSweepRule(st: BotState, m: LoopMoments, trig: Trig, draws: Draws)
    requires Consistent(st, Full)
    ensures var o := LoopOutcome(st, m, trig, draws);
      var due := m.swept.others > 1 && m.swept.time - st.lastRadarSweepTime > 40;
      var tracked := st.currentTarget.Some? && st.currentTarget.value in st.tracks;
      o.state.(moveDirection := st.moveDirection, lastRadarSweepTime := st.lastRadarSweepTime) == st
      && (o.state.lastRadarSweepTime != st.lastRadarSweepTime ==> due && o.state.lastRadarSweepTime == m.swept.time)
      && (due ==> o.state.lastRadarSweepTime == m.swept.time)
      && (o.state.moveDirection != st.moveDirection ==> tracked && draws.second < 0.15)
      && (o.cmds[|o.cmds| - 1] == TurnRadarRight(360.0) <==> due || st.currentTarget.None?)
      && (tracked ==> |o.cmds| >= 3 && Abs(o.cmds[1].degrees) <= 90.0 && o.cmds[2].distance <= 60.0)
  {
    if st.currentTarget.Some? && st.currentTarget.value in st.tracks {
      var e := st.tracks[st.currentTarget.value];
      var r := st.ring;
      SmoothMovementShape(SMOOTH, m.moving, e, WallHuggerDetected(r.xs, r.ys, r.velocity, r.index, m.moving.width, m.moving.height),
                          st.moveDirection, trig, draws);
    }
  }
}
