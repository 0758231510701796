/**
 * ApexV2Fixed: ApexV2 with blocking calls only. A sighting is taken in,
 * locked onto, recorded and fired at exactly as in ApexV2 (its gun,
 * sighting rule and constants are ApexV2's), a drop in [0.1, 3] flips
 * moveDirection, and the smart movement then runs at once inside the
 * handler: 30 units towards the centre near a wall, else away, towards or
 * square to the robot by range, flipping moveDirection on a draw below
 * 0.08. The run loop only sweeps the radar 45 degrees.
 */
module ApexV2Fixed {
  import opened Common
  import opened Angles
  import opened Host
  import opened Tracks
  import opened Gunnery
  import opened Movement
  import opened Engine
  import opened Handlers
  import ApexV2

  /** onHitWall: moveDirection flips, back 50, then a quarter turn right. */
  const HIT_WALL: Steer := Steer([Back(50.0), TurnRight(90.0)], true)

  /** executeSmartMovement from where the robot stands, with moveDirection flipped by its draw. */
  function Moved(mid: BotState, s: Scan, me: SelfState, trig: Trig, draws: Draws): (o: Outcome)
    requires s.name in mid.tracks
    ensures |o.cmds| == 2 && forall c :: c in o.cmds ==> c.TurnRight? || c.Ahead? || c.Back?
  {
    var smart := SmartMovement(me, mid.tracks[s.name], mid.moveDirection, trig, draws);
    Outcome(mid.(moveDirection := if smart.flip then Flip(mid.moveDirection) else mid.moveDirection), smart.cmds)
  }

  /** The rest of onScannedRobot once the sighting is recorded: radar lock, fire, the shot flip, the smart movement. */
  function Engage(recorded: BotState, s: Scan, m: Moments, drop: real, trig: Trig, draws: Draws): Outcome
    requires Consistent(recorded, MotionOnly) && s.name in recorded.tracks
  {
    var moved := Moved(ShotFlip(recorded, FromTenth, drop), s, m.settled, trig, draws);
    Outcome(moved.state,
            [LockRadarAsWritten(s, m.start, ApexV2.LOCK_OVERSHOOT)] + FireAt(ApexV2.GUN, recorded, MotionOnly, s, m, trig) + moved.cmds)
  }

  /** onScannedRobot as a function of the state before the event. */
  function ScanOutcome(st: BotState, s: Scan, m: Moments, trig: Trig, draws: Draws): Outcome
    requires Consistent(st, MotionOnly)
  {
    Engage(Prepared(st, MotionOnly, s, m, trig, ApexV2.SIGHTING), s, m, st.lastEnemyEnergy - s.energy, trig, draws)
  }

  method MoveStep(bot: Bot, s: Scan, me: SelfState, trig: Trig, draws: Draws) returns (cmds: seq<Command>)
    requires bot.Valid() && s.name in bot.enemies
    modifies bot
    ensures bot.Valid()
    ensures Outcome(bot.State(), cmds) == Moved(old(bot.State()), s, me, trig, draws)
  {
    var enemy := bot.enemies[s.name].Value();
    assert enemy == bot.State().tracks[s.name];
    var smart := SmartMovement(me, enemy, bot.moveDirection, trig, draws);
    cmds := smart.cmds;
    if smart.flip {
      bot.SetMoveDirection(Flip(bot.moveDirection));
    }
  }

  method EngageStep(bot: Bot, s: Scan, m: Moments, drop: real, trig: Trig, draws: Draws) returns (cmds: seq<Command>)
    requires bot.Valid() && bot.Kind() == MotionOnly && s.name in bot.enemies
    modifies bot
    ensures bot.Valid()
    ensures Outcome(bot.State(), cmds) == Engage(old(bot.State()), s, m, drop, trig, draws)
  {
    var radar := LockRadarAsWritten(s, m.start, ApexV2.LOCK_OVERSHOOT);
    var fired := FireStep(bot, ApexV2.GUN, s, m, trig);
    ShotFlipStep(bot, s, FromTenth, drop);
    var moved := MoveStep(bot, s, m.settled, trig, draws);
    cmds := [radar] + fired + moved;
  }

  /** onScannedRobot: take the sighting in, lock the radar, record, fire, react to a shot, move. */
  method OnScannedRobot(bot: Bot, s: Scan, m: Moments, trig: Trig, draws: Draws) returns (cmds: seq<Command>)
    requires bot.Valid() && bot.Kind() == MotionOnly
    modifies bot, bot.headings, bot.velocities, bot.xs, bot.ys
    ensures bot.Valid()
    ensures Outcome(bot.State(), cmds) ==
              Engage(Prepared(old(bot.State()), MotionOnly, s, m, trig, ApexV2.SIGHTING), s, m, old(bot.lastEnemyEnergy) - s.energy, trig, draws)
  {
    var drop := bot.lastEnemyEnergy - s.energy;
    PrepareStep(bot, s, m, trig, ApexV2.SIGHTING);
    cmds := EngageStep(bot, s, m, drop, trig, draws);
  }


  /**
   * The calls of a recorded sighting open with the radar lock and the gun
   * turn by the normalised pattern-blend aim; the energy-scaled power is
   * fired once exactly when that turn is under 10 degrees, the gun is cold,
   * own energy after the turn exceeds the power and the robot has energy
   * left.
   */
  lemma EngageFireRule(recorded: BotState, s: Scan, m: Moments, drop: real, trig: Trig, draws: Draws)
    requires Consistent(recorded, MotionOnly) && s.name in recorded.tracks
    ensures var o := Engage(recorded, s, m, drop, trig, draws);
      var e := recorded.tracks[s.name];
      var power := BulletPower(EnergyScaled, e.distance, e.energy, m.aim.energy);
      var aim := ToDegrees(PredictAngle(ApexV2.GUN.predictor, recorded.ring, e, power, m.aim, trig));
      o.cmds[0] == LockRadarAsWritten(s, m.start, ApexV2.LOCK_OVERSHOOT)
      && o.cmds[1] == TurnGunRight(NormalizeBearing(aim - m.aim.gunHeading))
      && ((exists c :: c in o.cmds && c.Fire?) <==>
            Abs(NormalizeBearing(aim - m.aim.gunHeading)) < 10.0 && m.turned.gunHeat == 0.0
            && m.turned.energy > power && e.energy > 0.0)
      && (forall c :: c in o.cmds && c.Fire? ==> c == Fire(power))
  {
    var moved := Moved(ShotFlip(recorded, FromTenth, drop), s, m.settled, trig, draws);
    LockLeadsGun(LockRadarAsWritten(s, m.start, ApexV2.LOCK_OVERSHOOT), FireAt(ApexV2.GUN, recorded, MotionOnly, s, m, trig), moved.cmds);
  }

  /**
   * The movement of a recorded sighting: only moveDirection changes,
   * flipping once for a drop in [0.1, 3] and once more on a first draw
   * below 0.08. The closing turn is at most 90 degrees, the drive 30, and
   * the robot travels towards the centre within 50 of a wall, else straight
   * away under 150, straight at the robot beyond 350, and square to it in
   * the (possibly flipped) direction in between.
   */
  lemma EngageMoveRule(recorded: BotState, s: Scan, m: Moments, drop: real, trig: Trig, draws: Draws)
    requires Consistent(recorded, MotionOnly) && s.name in recorded.tracks
    ensures var o := Engage(recorded, s, m, drop, trig, draws);
      var e := recorded.tracks[s.name];
      var me := m.settled;
      var dir := if ShotDetected(FromTenth, drop) then -recorded.moveDirection else recorded.moveDirection;
      var moves := o.cmds[|o.cmds| - 2..];
      var travel := TravelHeading(me.heading, moves);
      var enemyDegrees := ToDegrees(EnemyAngle(me, e, trig));
      Consistent(o.state, MotionOnly)
      && o.state == recorded.(moveDirection := o.state.moveDirection)
      && o.state.moveDirection == (if draws.first < 0.08 then -dir else dir)
      && Abs(moves[0].degrees) <= 90.0 && (moves[1] == Ahead(30.0) || moves[1] == Back(30.0))
      && (NearWall(me, 50.0) ==> NormalizeBearing(travel - CentreAngle(me, trig)) == 0.0)
      && (!NearWall(me, 50.0) && e.distance < 150.0 ==> NormalizeBearing(travel - (enemyDegrees + 180.0)) == 0.0)
      && (!NearWall(me, 50.0) && e.distance > 350.0 ==> NormalizeBearing(travel - enemyDegrees) == 0.0)
      && (!NearWall(me, 50.0) && 150.0 <= e.distance <= 350.0 ==>
            NormalizeBearing(travel - (enemyDegrees + 90.0 * dir as real)) == 0.0)
  {
    var braced := ShotFlip(recorded, FromTenth, drop);
    var moved := Moved(braced, s, m.settled, trig, draws);
    var o := Engage(recorded, s, m, drop, trig, draws);
    SmartMovementShape(m.settled, braced.tracks[s.name], braced.moveDirection, trig, draws);
    assert o.cmds[|o.cmds| - 2..] == moved.cmds;
  }

  /** One pass of the run loop: a 45-degree radar sweep, whatever the state. */
  method RunLoopPass(bot: Bot) returns (cmds: seq<Command>)
    requires bot.Valid()
    ensures cmds == [TurnRadarRight(45.0)]
  {
    cmds := [TurnRadarRight(ApexV2.SEARCH_SWEEP)];
  }
}
