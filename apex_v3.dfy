/**
 * ApexV3: every sighting makes the sighted robot the target (clearing the
 * history whenever it is not the last-scanned robot), records are rebuilt
 * on each sighting with the heading carried over, the radar locks with
 * the raw-sign 10-degree overshoot, the gun fires when the commanded turn is under
 * 10 degrees, a detected shot triggers a 100-unit perpendicular dodge, and
 * the smooth movement (without the wall-hugger bands) runs at most once
 * every five ticks. The run loop sweeps the radar a full turn without a
 * target and 45 degrees with one.
 */
module ApexV3 {
  import opened Common
  import opened Angles
  import opened Host
  import opened Tracks
  import opened History
  import opened Gunnery
  import opened Movement
  import opened Engine
  import opened Handlers

  const GUN: Gun := Gun(Conservative,
                        Predictor(WallSpinSpeed(false), 1.0, RingWindow(Some(5)), None),
                        Gate(Cold, true, BeforeTurn(10.0)))

  /** lastTarget kept, the heading carried over, the sighted robot always taken, energy noted. */
  const SIGHTING: Sighting := Sighting(true, CarryHeading, false, true)

  /** executeSmoothMovement without the wall-hugger bands and with no distance cap. */
  const SMOOTH: SmoothConfig := SmoothConfig(false, None)

  /** The radar lock's overshoot. */
  const LOCK_OVERSHOOT: real := 10.0

  /** The distance of the shot dodge and of the onHitByBullet dodge (Collisions.BulletDodge). */
  const DODGE_DISTANCE: real := 100.0

  /** onRobotDeath: the nearest survivor becomes the target and the history is reset when the target dies. */
  const DEATH: DeathPolicy := Reselect(true)

  /** The rest of onScannedRobot once the sighting is recorded: radar lock, fire, then dodge and move. */
  function Engage(recorded: BotState, s: Scan, m: Moments, drop: real, trig: Trig, draws: Draws): Outcome
    requires Consistent(recorded, Full) && s.name in recorded.tracks
  {
    var evaded := DodgeAndMove(SMOOTH, recorded, s, m, drop, DODGE_DISTANCE, trig, draws);
    Outcome(evaded.state, [LockRadarAsWritten(s, m.start, LOCK_OVERSHOOT)] + FireAt(GUN, recorded, Full, s, m, trig) + evaded.cmds)
  }

  /** onScannedRobot as a function of the state before the event. */
  function ScanOutcome(st: BotState, s: Scan, m: Moments, trig: Trig, draws: Draws): Outcome
    requires Consistent(st, Full)
  {
    Engage(Prepared(st, Full, s, m, trig, SIGHTING), s, m, st.lastEnemyEnergy - s.energy, trig, draws)
  }

  method EngageStep(bot: Bot, s: Scan, m: Moments, drop: real, trig: Trig, draws: Draws) returns (cmds: seq<Command>)
    requires bot.Valid() && bot.Kind() == Full && s.name in bot.enemies
    modifies bot
    ensures bot.Valid()
    ensures Outcome(bot.State(), cmds) == Engage(old(bot.State()), s, m, drop, trig, draws)
  {
    var radar := LockRadarAsWritten(s, m.start, LOCK_OVERSHOOT);
    var fired := FireStep(bot, GUN, s, m, trig);
    var evaded := DodgeAndMoveStep(bot, SMOOTH, s, m, drop, DODGE_DISTANCE, trig, draws);
    cmds := [radar] + fired + evaded;
  }

  /** onScannedRobot: take the sighting in, lock the radar, record, fire, dodge, move. */
  method OnScannedRobot(bot: Bot, s: Scan, m: Moments, trig: Trig, draws: Draws) returns (cmds: seq<Command>)
    requires bot.Valid() && bot.Kind() == Full
    modifies bot, bot.headings, bot.velocities, bot.xs, bot.ys
    ensures bot.Valid()
    ensures Outcome(bot.State(), cmds) ==
              Engage(Prepared(old(bot.State()), Full, s, m, trig, SIGHTING), s, m, old(bot.lastEnemyEnergy) - s.energy, trig, draws)
  {
    var drop := bot.lastEnemyEnergy - s.energy;
    PrepareStep(bot, s, m, trig, SIGHTING);
    cmds := EngageStep(bot, s, m, drop, trig, draws);
  }


  /**
   * Every sighting makes the sighted robot both the target and lastTarget,
   * rebuilds its record from the scan with only the old heading as the
   * previous snapshot (lastX and lastY are the new position), leaves the
   * other records alone and notes its energy.
   */
  lemma ScanTakesSighted(st: BotState, s: Scan, m: Moments, trig: Trig, draws: Draws)
    requires Consistent(st, Full)
    ensures var o := ScanOutcome(st, s, m, trig, draws);
      var e := o.state.tracks[s.name];
      Consistent(o.state, Full)
      && o.state.currentTarget == Some(s.name) && o.state.lastTarget == Some(s.name)
      && o.state.tracks.Keys == st.tracks.Keys + {s.name}
      && (forall n :: n in st.tracks && n != s.name ==> o.state.tracks[n] == st.tracks[n])
      && Reflects(e, s, m.start, trig)
      && e.lastX == e.x && e.lastY == e.y
      && (s.name in st.tracks ==> e.lastHeading == st.tracks[s.name].heading)
      && o.state.lastEnemyEnergy == s.energy
  {
    var recorded := Prepared(st, Full, s, m, trig, SIGHTING);
    DodgeAndMoveRule(SMOOTH, recorded, s, m, st.lastEnemyEnergy - s.energy, DODGE_DISTANCE, trig, draws);
  }

  /**
   * A sighting of any robot but the last-scanned one clears the history, so
   * the ring then holds only this sighting; otherwise the sighting is
   * written over the oldest slot.
   */
  lemma ScanHistoryRule(st: BotState, s: Scan, m: Moments, trig: Trig, draws: Draws)
    requires Consistent(st, Full)
    ensures var o := ScanOutcome(st, s, m, trig, draws);
      var q := o.state.ring;
      var e := o.state.tracks[s.name];
      if st.lastTarget.Some? && st.lastTarget.value != s.name then
        q.index == 1 && q.heading[0] == s.heading && q.velocity[0] == s.velocity && q.xs[0] == e.x && q.ys[0] == e.y
        && forall i :: 1 <= i < SLOTS ==> q.heading[i] == 0.0 && q.velocity[i] == 0.0 && q.xs[i] == 0.0 && q.ys[i] == 0.0
      else
        q == Recorded(st.ring, s.heading, s.velocity, e.x, e.y)
  {
    var sighted := Sight(st, Full, s, m, trig, SIGHTING);
    var recorded := Record(sighted, Full, s);
    DodgeAndMoveRule(SMOOTH, recorded, s, m, st.lastEnemyEnergy - s.energy, DODGE_DISTANCE, trig, draws);
    OneSampleAfterReset(st.ring, s.heading, s.velocity, sighted.tracks[s.name].x, sighted.tracks[s.name].y);
  }

  /** Once the sighting is recorded, the radar lock comes first and the gun turn by the normalised aim next. */
  lemma EngageOrder(recorded: BotState, s: Scan, m: Moments, drop: real, trig: Trig, draws: Draws)
    requires Consistent(recorded, Full) && s.name in recorded.tracks
    ensures var o := Engage(recorded, s, m, drop, trig, draws);
      var aim := AimDegrees(GUN, recorded.ring, recorded.tracks[s.name], m.aim, trig);
      o.cmds[0] == LockRadarAsWritten(s, m.start, LOCK_OVERSHOOT)
      && o.cmds[1] == TurnGunRight(NormalizeBearing(aim - m.aim.gunHeading))
  {
  }

  /**
   * Once the sighting is recorded, the conservative power is fired once
   * exactly when the commanded gun turn is under 10 degrees, the gun is
   * cold, own energy after the turn exceeds the power and the robot has
   * energy left.
   */
  lemma EngageFireRule(recorded: BotState, s: Scan, m: Moments, drop: real, trig: Trig, draws: Draws)
    requires Consistent(recorded, Full) && s.name in recorded.tracks
    ensures var o := Engage(recorded, s, m, drop, trig, draws);
      var e := recorded.tracks[s.name];
      var power := BulletPower(Conservative, e.distance, e.energy, m.aim.energy);
      var aim := AimDegrees(GUN, recorded.ring, e, m.aim, trig);
      ((exists c :: c in o.cmds && c.Fire?) <==>
         Abs(NormalizeBearing(aim - m.aim.gunHeading)) < 10.0 && m.turned.gunHeat == 0.0
         && m.turned.energy > power && e.energy > 0.0)
      && (forall c :: c in o.cmds && c.Fire? ==> c == Fire(power))
  {
    var evaded := DodgeAndMove(SMOOTH, recorded, s, m, drop, DODGE_DISTANCE, trig, draws);
    var gun := FireAt(GUN, recorded, Full, s, m, trig);
    LockLeadsGun(LockRadarAsWritten(s, m.start, LOCK_OVERSHOOT), gun, evaded.cmds);
  }

  /**
   * The evasion once the sighting is recorded: a drop in [0.1, 3] flips
   * moveDirection and ends the calls with the 100-unit dodge square to the
   * robot; without one a due movement ends them with a turn of at most 90
   * degrees; otherwise only the radar and the gun move.
   */
  lemma EngageEvasionRule(recorded: BotState, s: Scan, m: Moments, drop: real, trig: Trig, draws: Draws)
    requires Consistent(recorded, Full) && s.name in recorded.tracks
    ensures var o := Engage(recorded, s, m, drop, trig, draws);
      var n := |o.cmds|;
      o.state == recorded.(moveDirection := o.state.moveDirection, lastMoveTime := o.state.lastMoveTime)
      && if 0.1 <= drop <= 3.0 then
        o.state.moveDirection == -recorded.moveDirection && o.state.lastMoveTime == m.settled.time
        && n >= 4 && o.cmds[n - 2..] == [TurnRight(DodgeTurn(s.bearing, -recorded.moveDirection, 0.0)), Ahead(DODGE_DISTANCE)]
      else if m.settled.time - recorded.lastMoveTime >= MOVE_COOLDOWN then
        o.state.lastMoveTime == m.moved.time
        && n >= 4 && o.cmds[n - 2].TurnRight? && Abs(o.cmds[n - 2].degrees) <= 90.0
        && (o.state.moveDirection != recorded.moveDirection <==> draws.second < 0.15)
      else
        o.state == recorded
        && forall c :: c in o.cmds ==> c.TurnRadarRight? || c.TurnGunRight? || c.Fire?
  {
    DodgeAndMoveRule(SMOOTH, recorded, s, m, drop, DODGE_DISTANCE, trig, draws);
  }

  /** One pass of the run loop: a full radar sweep without a target, 45 degrees with one; nothing changes. */
  method RunLoopPass(bot: Bot) returns (cmds: seq<Command>)
    requires bot.Valid()
    ensures cmds == [TurnRadarRight(if bot.currentTarget.None? then 360.0 else 45.0)]
  {
    if bot.currentTarget == None {
      cmds := [TurnRadarRight(360.0)];
    } else {
      cmds := [TurnRadarRight(45.0)];
    }
  }
}
