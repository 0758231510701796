/**
 * ApexV2: every sighting makes the sighted robot the target (clearing the
 * heading and velocity history whenever it is not the last-scanned robot),
 * rebuilds its record with the old heading carried over, locks the radar
 * with the raw-sign 5-degree overshoot and fires an energy-scaled shot, aimed by the pattern
 * blend, when the commanded gun turn is under 10 degrees. A drop in
 * [0.1, 3] flips moveDirection, and calculateMovement stores the movement
 * plan (moveAngle, moveDistance) that the run loop executes: each pass
 * sweeps the radar 45 degrees without a target and then either executes
 * the plan or steps 20 towards the centre.
 */
module ApexV2 {
  import opened Common
  import opened Angles
  import opened Host
  import opened Tracks
  import opened History
  import opened Gunnery
  import opened Movement
  import opened Engine
  import opened Handlers

  const GUN: Gun := Gun(EnergyScaled,
                        Predictor(PatternMix, 1.0, TrackDelta, None),
                        Gate(Cold, true, BeforeTurn(10.0)))

  /** lastTarget kept, the heading carried over, the sighted robot always taken, energy noted. */
  const SIGHTING: Sighting := Sighting(true, CarryHeading, false, true)

  /** The radar lock's overshoot. */
  const LOCK_OVERSHOOT: real := 5.0

  /** The run loop's radar sweep without a target. */
  const SEARCH_SWEEP: real := 45.0

  /** The run loop's step towards the centre without a tracked target. */
  const CENTRE_STEP: real := 20.0

  /** onHitByBullet: moveDirection flips and nothing moves. */
  const HIT_BY_BULLET: Steer := Steer([], true)

  /** onHitRobot is Collisions.HitRobot(rammed energy, own energy, HIT_ROBOT_BACK_OFF). */
  const HIT_ROBOT_BACK_OFF: real := 50.0

  /** onRobotDeath: the nearest survivor becomes the target and the history is reset when the target dies. */
  const DEATH: DeathPolicy := Reselect(true)

  /**
   * What a sighting leaves behind before anything turns: the sighted robot
   * is the target and lastTarget, its record is rebuilt from the scan with
   * only the old heading as the previous snapshot, the other records and
   * the movement fields are untouched, its energy is noted, and its heading
   * and velocity go into the history: alone after a reset when another
   * robot was scanned last, over the oldest slot otherwise.
   */
  lemma SightingRule(st: BotState, s: Scan, m: Moments, trig: Trig)
    requires Consistent(st, MotionOnly)
    ensures var r := Prepared(st, MotionOnly, s, m, trig, SIGHTING);
      var e := r.tracks[s.name];
      var q := r.ring;
      r.currentTarget == Some(s.name) && r.lastTarget == Some(s.name)
      && r.tracks.Keys == st.tracks.Keys + {s.name}
      && (forall n :: n in st.tracks && n != s.name ==> r.tracks[n] == st.tracks[n])
      && Reflects(e, s, m.start, trig) && e.lastX == e.x && e.lastY == e.y
      && e.lastHeading == (if s.name in st.tracks then st.tracks[s.name].heading else s.heading)
      && r.lastEnemyEnergy == s.energy
      && r.moveDirection == st.moveDirection && r.moveAngle == st.moveAngle && r.moveDistance == st.moveDistance
      && if st.lastTarget.Some? && st.lastTarget.value != s.name then
           q.index == 1 && q.heading[0] == s.heading && q.velocity[0] == s.velocity
           && forall i :: 1 <= i < SLOTS ==> q.heading[i] == 0.0 && q.velocity[i] == 0.0
         else
           q == Recorded(st.ring, s.heading, s.velocity, e.x, e.y)
  {
    var sighted := Sight(st, MotionOnly, s, m, trig, SIGHTING);
    OneSampleAfterReset(st.ring, s.heading, s.velocity, sighted.tracks[s.name].x, sighted.tracks[s.name].y);
  }

  /**
   * calculateMovement stored: the plan for the sighted robot, seen from
   * where the robot stands after firing, with moveDirection flipped by the
   * plan's draw.
   */
  function Planned(mid: BotState, s: Scan, me: SelfState, trig: Trig, draws: Draws): (r: BotState)
    requires s.name in mid.tracks
  {
    var plan := CalculateMovement(me, mid.tracks[s.name], mid.moveDirection, trig, draws);
    mid.(moveAngle := plan.angle, moveDistance := plan.distance,
         moveDirection := if plan.flip then Flip(mid.moveDirection) else mid.moveDirection)
  }

  /** The rest of onScannedRobot once the sighting is recorded: radar lock, fire, the shot flip, the plan. */
  function Engage(recorded: BotState, s: Scan, m: Moments, drop: real, trig: Trig, draws: Draws): Outcome
    requires Consistent(recorded, MotionOnly) && s.name in recorded.tracks
  {
    Outcome(Planned(ShotFlip(recorded, FromTenth, drop), s, m.settled, trig, draws),
            [LockRadarAsWritten(s, m.start, LOCK_OVERSHOOT)] + FireAt(GUN, recorded, MotionOnly, s, m, trig))
  }

  /** onScannedRobot as a function of the state before the event. */
  function ScanOutcome(st: BotState, s: Scan, m: Moments, trig: Trig, draws: Draws): Outcome
    requires Consistent(st, MotionOnly)
  {
    Engage(Prepared(st, MotionOnly, s, m, trig, SIGHTING), s, m, st.lastEnemyEnergy - s.energy, trig, draws)
  }

  method PlanStep(bot: Bot, s: Scan, me: SelfState, trig: Trig, draws: Draws)
    requires bot.Valid() && s.name in bot.enemies
    modifies bot
    ensures bot.Valid()
    ensures bot.State() == Planned(old(bot.State()), s, me, trig, draws)
  {
    var enemy := bot.enemies[s.name].Value();
    assert enemy == bot.State().tracks[s.name];
    var plan := CalculateMovement(me, enemy, bot.moveDirection, trig, draws);
    bot.SetMovePlan(plan.angle, plan.distance);
    if plan.flip {
      bot.SetMoveDirection(Flip(bot.moveDirection));
    }
  }

  method EngageStep(bot: Bot, s: Scan, m: Moments, drop: real, trig: Trig, draws: Draws) returns (cmds: seq<Command>)
    requires bot.Valid() && bot.Kind() == MotionOnly && s.name in bot.enemies
    modifies bot
    ensures bot.Valid()
    ensures Outcome(bot.State(), cmds) == Engage(old(bot.State()), s, m, drop, trig, draws)
  {
    var radar := LockRadarAsWritten(s, m.start, LOCK_OVERSHOOT);
    var fired := FireStep(bot, GUN, s, m, trig);
    ShotFlipStep(bot, s, FromTenth, drop);
    PlanStep(bot, s, m.settled, trig, draws);
    cmds := [radar] + fired;
  }

  /** onScannedRobot: take the sighting in, lock the radar, record, fire, react to a shot, plan the move. */
  method OnScannedRobot(bot: Bot, s: Scan, m: Moments, trig: Trig, draws: Draws) returns (cmds: seq<Command>)
    requires bot.Valid() && bot.Kind() == MotionOnly
    modifies bot, bot.headings, bot.velocities, bot.xs, bot.ys
    ensures bot.Valid()
    ensures Outcome(bot.State(), cmds) ==
              Engage(Prepared(old(bot.State()), MotionOnly, s, m, trig, SIGHTING), s, m, old(bot.lastEnemyEnergy) - s.energy, trig, draws)
  {
    var drop := bot.lastEnemyEnergy - s.energy;
    PrepareStep(bot, s, m, trig, SIGHTING);
    cmds := EngageStep(bot, s, m, drop, trig, draws);
  }


  /**
   * The calls of a recorded sighting: the radar lock, the gun turn by the
   * normalised pattern-blend aim, and the energy-scaled power fired once
   * exactly when that turn is under 10 degrees, the gun is cold, own energy
   * after the turn exceeds the power and the robot has energy left; the
   * body itself never moves here.
   */
  lemma EngageFireRule(recorded: BotState, s: Scan, m: Moments, drop: real, trig: Trig, draws: Draws)
    requires Consistent(recorded, MotionOnly) && s.name in recorded.tracks
    ensures var o := Engage(recorded, s, m, drop, trig, draws);
      var e := recorded.tracks[s.name];
      var power := BulletPower(EnergyScaled, e.distance, e.energy, m.aim.energy);
      var aim := ToDegrees(PredictAngle(GUN.predictor, recorded.ring, e, power, m.aim, trig));
      o.cmds[0] == LockRadarAsWritten(s, m.start, LOCK_OVERSHOOT)
      && o.cmds[1] == TurnGunRight(NormalizeBearing(aim - m.aim.gunHeading))
      && ((exists c :: c in o.cmds && c.Fire?) <==>
            Abs(NormalizeBearing(aim - m.aim.gunHeading)) < 10.0 && m.turned.gunHeat == 0.0
            && m.turned.energy > power && e.energy > 0.0)
      && (forall c :: c in o.cmds && c.Fire? ==> c == Fire(power))
      && (forall c :: c in o.cmds ==> c.TurnRadarRight? || c.TurnGunRight? || c.Fire?)
  {
    var radar := LockRadarAsWritten(s, m.start, LOCK_OVERSHOOT);
    var gun := FireAt(GUN, recorded, MotionOnly, s, m, trig);
    GunCommandsLead(gun, []);
    assert forall c: Command :: c in [radar] + gun && c.Fire? ==> c in gun;
    if |gun| == 2 {
      assert gun[1] in [radar] + gun;
    }
  }

  /**
   * The movement plan of a sighting: only moveDirection, moveAngle and
   * moveDistance change; the direction flips once for a drop in [0.1, 3]
   * and once more on a second draw below 0.08; the distance is 30; the
   * angle runs straight away from the robot under 150, straight at it
   * beyond 350, and in between square to it in the (possibly flipped)
   * direction, turned away from the walls and jittered by the first draw.
   */
  lemma EngagePlanRule(recorded: BotState, s: Scan, m: Moments, drop: real, trig: Trig, draws: Draws)
    requires Consistent(recorded, MotionOnly) && s.name in recorded.tracks
    ensures var o := Engage(recorded, s, m, drop, trig, draws);
      var e := recorded.tracks[s.name];
      var shot := ShotDetected(FromTenth, drop);
      var dir := if shot then -recorded.moveDirection else recorded.moveDirection;
      var enemyAngle := EnemyAngle(m.settled, e, trig);
      Consistent(o.state, MotionOnly)
      && o.state == recorded.(moveDirection := o.state.moveDirection, moveAngle := o.state.moveAngle,
                              moveDistance := o.state.moveDistance)
      && o.state.moveDirection == (if draws.second < 0.08 then -dir else dir)
      && o.state.moveDistance == 30.0
      && (e.distance < 150.0 ==> o.state.moveAngle == ToDegrees(enemyAngle + PI))
      && (e.distance > 350.0 ==> o.state.moveAngle == ToDegrees(enemyAngle))
      && (150.0 <= e.distance <= 350.0 && Abs(WallDanger(m.settled.x, m.settled.width)) <= 0.3
          && Abs(WallDanger(m.settled.y, m.settled.height)) <= 0.3 ==>
            o.state.moveAngle == ToDegrees(enemyAngle + PI + (PI / 2.0) * dir as real + (draws.first - 0.5) * 0.3))
  {
    var braced := ShotFlip(recorded, FromTenth, drop);
    CalculateMovementOverrides(m.settled, braced.tracks[s.name], braced.moveDirection, trig, draws);
  }

  /**
   * One pass of the run loop: a 45-degree radar sweep without a target;
   * then, from where the sweep left the robot, the stored plan executed by
   * turn-and-move when the target is tracked, else the turn towards the
   * centre and a 20-unit step.
   */
  function LoopCommands(st: BotState, m: LoopMoments, trig: Trig): seq<Command>
  {
    (if st.currentTarget.None? then [TurnRadarRight(SEARCH_SWEEP)] else [])
    + if st.currentTarget.Some? && st.currentTarget.value in st.tracks then
        TurnAndMove(st.moveAngle, m.moving.heading, st.moveDistance)
      else
        [TurnRight(NormalizeBearing(CentreAngle(m.moving, trig) - m.moving.heading)), Ahead(CENTRE_STEP)]
  }

  method RunLoopPass(bot: Bot, m: LoopMoments, trig: Trig) returns (cmds: seq<Command>)
    requires bot.Valid()
    ensures cmds == LoopCommands(bot.State(), m, trig)
  {
    cmds := [];
    if bot.currentTarget == None {
      cmds := [TurnRadarRight(SEARCH_SWEEP)];
    }
    if bot.currentTarget.Some? && bot.currentTarget.value in bot.enemies {
      assert bot.currentTarget.value in bot.State().tracks;
      var move := TurnAndMove(bot.moveAngle, m.moving.heading, bot.moveDistance);
      cmds := cmds + move;
    } else {
      assert !(bot.currentTarget.Some? && bot.currentTarget.value in bot.State().tracks);
      cmds := cmds + [TurnRight(NormalizeBearing(CentreAngle(m.moving, trig) - m.moving.heading)), Ahead(CENTRE_STEP)];
    }
  }

  /**
   * A pass of the run loop sweeps the radar only without a target, and then
   * moves exactly once: with a tracked target by the stored distance along
   * the stored angle, turning at most 90 degrees; otherwise it turns
   * straight onto the centre and steps 20.
   */
  lemma LoopRule(st: BotState, m: LoopMoments, trig: Trig)
    ensures var cmds := LoopCommands(st, m, trig);
      var n := |cmds|;
      var moves := cmds[n - 2..];
      n == (if st.currentTarget.None? then 3 else 2)
      && (st.currentTarget.None? <==> cmds[0] == TurnRadarRight(45.0))
      && moves[0].TurnRight?
      && if st.currentTarget.Some? && st.currentTarget.value in st.tracks then
           Abs(moves[0].degrees) <= 90.0
           && (moves[1] == Ahead(st.moveDistance) || moves[1] == Back(st.moveDistance))
           && NormalizeBearing(TravelHeading(m.moving.heading, moves) - st.moveAngle) == 0.0
         else
           moves[1] == Ahead(20.0)
           && NormalizeBearing(CentreAngle(m.moving, trig) - (m.moving.heading + moves[0].degrees)) == 0.0
  {
    ExactTurnLeavesNoResidual(CentreAngle(m.moving, trig), m.moving.heading);
    TurnAndMoveTravelsAlong(st.moveAngle, m.moving.heading, st.moveDistance);
  }

  /** onHitWall: moveDirection flips, back 50, then turn by normalize(bearing + 90). */
  function HitWall(bearing: real): (r: Steer)
    ensures r.flip && |r.cmds| == 2 && r.cmds[0] == Back(50.0) && r.cmds[1].TurnRight?
  {
    Steer([Back(50.0), TurnRight(NormalizeBearing(bearing + 90.0))], true)
  }

  /** After the onHitWall turn the wall lies square on the left: its bearing is -90 degrees. */
  lemma HitWallTurnsSideOn(bearing: real)
    ensures NormalizeBearing(bearing - HitWall(bearing).cmds[1].degrees) == -90.0
  {
    NormalizeBearingProperties(bearing + 90.0);
    NormalizeWholeTurnsAway(-90.0, WholeTurns(bearing + 90.0, 180.0));
  }
}
