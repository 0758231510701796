/**
 * ChutluV15: every sighting makes the sighted robot the target (clearing
 * the history when it is not the last-scanned one) and locks the radar with
 * the raw-sign 10-degree overshoot. Any drop in (0, 3] flips moveDirection; the robot then
 * turns square to the enemy with up to 10 degrees of jitter and, away from
 * the walls, steps 80 to 180 forwards or back, or near them drives to the
 * centre. The history is written after the movement, and the gun fires when
 * it is not hot under a 10-degree allowance. run() opens with the chunked
 * drive to the centre; each pass sweeps the radar a full turn and takes
 * one jittery step forwards.
 */
module ChutluV15 {
  import opened Common
  import opened Angles
  import opened Host
  import opened Tracks
  import opened History
  import opened Gunnery
  import opened Radar
  import opened Movement
  import opened Engine
  import opened Handlers

  const GUN: Gun := Gun(Tiered,
                        Predictor(WallSpinSpeed(true), 1.4, RingWindow(Some(5)), None),
                        Gate(NotHot, true, AfterTurn(Within(10.0))))

  /** lastTarget kept, heading and position carried over, the sighted robot always taken, energy noted. */
  const SIGHTING: Sighting := Sighting(true, CarryHeadingAndPosition, false, true)

  /** MARGIN: the wall distance of isNearWall. */
  const MARGIN: real := 200.0

  /** The radar lock's overshoot. */
  const LOCK_OVERSHOOT: real := 10.0

  /** The radar scan after each chunk of a goTo. */
  const CHUNK_SCAN: real := 90.0

  /** onHitWall: back 80, a quarter turn right, ahead 140; moveDirection is not touched. */
  const HIT_WALL: Steer := Steer([Back(80.0), TurnRight(90.0), Ahead(140.0)], false)

  /** onHitByBullet is Collisions.BulletSwerve(moveDirection, HIT_SWERVE). */
  const HIT_SWERVE: real := 160.0

  /** onRobotDeath: the nearest survivor becomes the target and the history is reset when the target dies. */
  const DEATH: DeathPolicy := Reselect(true)

  /** The shot reaction: a drop in (0, 3] flips moveDirection, whatever the number of opponents. */
  function Flipped(pre: BotState, drop: real): (r: BotState)
    requires Consistent(pre, Full)
    ensures Consistent(r, Full) && r == pre.(moveDirection := r.moveDirection)
    ensures r.moveDirection == if ShotDetected(AnyPositive, drop) then -pre.moveDirection else pre.moveDirection
  {
    if ShotDetected(AnyPositive, drop) then pre.(moveDirection := Flip(pre.moveDirection)) else pre
  }

  /** The sighting taken in, the shot reaction, and the history write. */
  function Registered(st: BotState, s: Scan, m: Moments, trig: Trig): (recorded: BotState)
    requires Consistent(st, Full)
    ensures Consistent(recorded, Full) && s.name in recorded.tracks
  {
    Record(Flipped(Sight(st, Full, s, m, trig, SIGHTING), st.lastEnemyEnergy - s.energy), Full, s)
  }

  /**
   * The evasion of a sighting: turn square to the enemy the current way
   * with a jitter of first * 20 - 10; then, from where the turn left the
   * robot (steering), near a wall the chunked goTo to the centre, else a
   * step of 80 + second * 100, ahead on a third draw below 0.5 and back
   * otherwise.
   */
  function Evade(dir: int, s: Scan, steering: SelfState, trig: Trig, draws: Draws): seq<Command>
  {
    [TurnRight(DodgeTurn(s.bearing, dir, draws.first * 20.0 - 10.0))]
    + if NearWall(steering, MARGIN) then ChunkedGoTo(steering, Centre(steering), CHUNK_SCAN, trig)
      else
        var step := 80.0 + draws.second * 100.0;
        [if draws.third < 0.5 then Ahead(step) else Back(step)]
  }

  /** The calls of a recorded sighting: the radar lock, the evasion, fire control. */
  function Engage(recorded: BotState, s: Scan, m: Moments, steering: SelfState, trig: Trig, draws: Draws): seq<Command>
    requires Consistent(recorded, Full) && s.name in recorded.tracks
  {
    [LockRadarAsWritten(s, m.start, LOCK_OVERSHOOT)] + Evade(recorded.moveDirection, s, steering, trig, draws)
    + FireAt(GUN, recorded, Full, s, m, trig)
  }

  /** onScannedRobot as a function of the state before the event. */
  function ScanOutcome(st: BotState, s: Scan, m: Moments, steering: SelfState, trig: Trig, draws: Draws): Outcome
    requires Consistent(st, Full)
  {
    var recorded := Registered(st, s, m, trig);
    Outcome(recorded, Engage(recorded, s, m, steering, trig, draws))
  }

  method FlipStep(bot: Bot, s: Scan, drop: real)
    requires bot.Valid() && bot.Kind() == Full && s.name in bot.enemies
    modifies bot
    ensures bot.Valid() && bot.Kind() == Full && s.name in bot.enemies
    ensures bot.State() == Flipped(old(bot.State()), drop)
  {
    if ShotDetected(AnyPositive, drop) {
      bot.SetMoveDirection(Flip(bot.moveDirection));
    }
    assert s.name in bot.Tracks();
  }

  /** The sighting taken in and the shot reaction, for the drop read when the event arrived. */
  method SightFlipStep(bot: Bot, s: Scan, m: Moments, trig: Trig, drop: real)
    requires bot.Valid() && bot.Kind() == Full && drop == bot.lastEnemyEnergy - s.energy
    modifies bot, bot.headings, bot.velocities, bot.xs, bot.ys
    ensures bot.Valid() && bot.Kind() == Full && s.name in bot.enemies
    ensures bot.State() == Flipped(Sight(old(bot.State()), Full, s, m, trig, SIGHTING), old(bot.State()).lastEnemyEnergy - s.energy)
  {
    SightStep(bot, s, m, trig, SIGHTING);
    FlipStep(bot, s, drop);
  }

  method RegisterStep(bot: Bot, s: Scan, m: Moments, trig: Trig)
    requires bot.Valid() && bot.Kind() == Full
    modifies bot, bot.headings, bot.velocities, bot.xs, bot.ys
    ensures bot.Valid() && bot.Kind() == Full && s.name in bot.enemies
    ensures bot.State() == Registered(old(bot.State()), s, m, trig)
  {
    var drop := bot.lastEnemyEnergy - s.energy;
    SightFlipStep(bot, s, m, trig, drop);
    RecordStep(bot, s);
  }

  method EvadeStep(dir: int, s: Scan, steering: SelfState, trig: Trig, draws: Draws) returns (cmds: seq<Command>)
    ensures cmds == Evade(dir, s, steering, trig, draws)
  {
    cmds := [TurnRight(DodgeTurn(s.bearing, dir, draws.first * 20.0 - 10.0))];
    if NearWall(steering, MARGIN) {
      var go := ChunkedGoToLoop(steering, Centre(steering), CHUNK_SCAN, trig);
      cmds := cmds + go;
    } else {
      var step := 80.0 + draws.second * 100.0;
      if draws.third < 0.5 {
        cmds := cmds + [Ahead(step)];
      } else {
        cmds := cmds + [Back(step)];
      }
    }
  }

  method EngageStep(bot: Bot, s: Scan, m: Moments, steering: SelfState, trig: Trig, draws: Draws) returns (cmds: seq<Command>)
    requires bot.Valid() && bot.Kind() == Full && s.name in bot.enemies
    ensures bot.Valid() && bot.State() == old(bot.State())
    ensures cmds == Engage(bot.State(), s, m, steering, trig, draws)
  {
    var radar := LockRadarAsWritten(s, m.start, LOCK_OVERSHOOT);
    var moves := EvadeStep(bot.moveDirection, s, steering, trig, draws);
    var fired := FireStep(bot, GUN, s, m, trig);
    cmds := [radar] + moves + fired;
  }

  /** onScannedRobot: take the sighting in, lock the radar, react to a shot, evade, record, fire. */
  method OnScannedRobot(bot: Bot, s: Scan, m: Moments, steering: SelfState, trig: Trig, draws: Draws)
    returns (cmds: seq<Command>)
    requires bot.Valid() && bot.Kind() == Full
    modifies bot, bot.headings, bot.velocities, bot.xs, bot.ys
    ensures bot.Valid()
    ensures Outcome(bot.State(), cmds) == ScanOutcome(old(bot.State()), s, m, steering, trig, draws)
  {
    RegisterStep(bot, s, m, trig);
    cmds := EngageStep(bot, s, m, steering, trig, draws);
  }

  /**
   * Every sighting makes the sighted robot both the target and lastTarget,
   * rebuilds its record from the scan with the old heading and position as
   * the previous snapshot, and notes its energy; moveDirection flips
   * exactly when the robot's energy dropped by (0, 3].
   */
  lemma ScanTakesSighted(st: BotState, s: Scan, m: Moments, steering: SelfState, trig: Trig, draws: Draws)
    requires Consistent(st, Full)
    ensures var o := ScanOutcome(st, s, m, steering, trig, draws);
      var e := o.state.tracks[s.name];
      var drop := st.lastEnemyEnergy - s.energy;
      Consistent(o.state, Full)
      && o.state.currentTarget == Some(s.name) && o.state.lastTarget == Some(s.name)
      && o.state.lastEnemyEnergy == s.energy
      && o.state.tracks.Keys == st.tracks.Keys + {s.name}
      && Reflects(e, s, m.start, trig)
      && (s.name in st.tracks ==> e.lastHeading == st.tracks[s.name].heading
                                  && e.lastX == st.tracks[s.name].x && e.lastY == st.tracks[s.name].y)
      && (o.state.moveDirection == -st.moveDirection <==> 0.0 < drop <= 3.0)
      && (o.state.moveDirection == st.moveDirection <==> !(0.0 < drop <= 3.0))
  {
  }

  /**
   * The evasion starts with the jittered perpendicular turn; near a wall it
   * continues with the whole chunked drive to the centre, otherwise with one
   * step ahead or back by the third draw, of 80 to 180 for a second draw in
   * [0, 1). It never fires.
   */
  lemma EvadeRule(dir: int, s: Scan, steering: SelfState, trig: Trig, draws: Draws)
    ensures var cmds := Evade(dir, s, steering, trig, draws);
      |cmds| >= 1
      && cmds[0] == TurnRight(DodgeTurn(s.bearing, dir, draws.first * 20.0 - 10.0))
      && (NearWall(steering, MARGIN) ==>
            cmds[1..] == ChunkedGoTo(steering, Centre(steering), CHUNK_SCAN, trig)
            && AheadTotal(cmds[1..]) == Driven(LegLength(steering, Centre(steering), trig)))
      && (!NearWall(steering, MARGIN) ==>
            |cmds| == 2 && (cmds[1].Ahead? <==> draws.third < 0.5) && (cmds[1].Ahead? || cmds[1].Back?)
            && (0.0 <= draws.second < 1.0 ==> 80.0 <= cmds[1].distance < 180.0))
      && forall c :: c in cmds ==> !c.Fire?
  {
    var cmds := Evade(dir, s, steering, trig, draws);
    if NearWall(steering, MARGIN) {
      var go := ChunkedGoTo(steering, Centre(steering), CHUNK_SCAN, trig);
      ChunkedGoToDrives(steering, Centre(steering), CHUNK_SCAN, trig);
      assert cmds[1..] == go;
      forall c | c in cmds
        ensures !c.Fire?
      {
        var i :| 0 <= i < |cmds| && cmds[i] == c;
        if i >= 1 {
          assert c == go[i - 1];
        }
      }
    }
  }

  /**
   * The order of the calls of a recorded sighting: the radar lock first,
   * the evasion next, then the gun turn by the normalised aim.
   */
  lemma EngageOrder(recorded: BotState, s: Scan, m: Moments, steering: SelfState, trig: Trig, draws: Draws)
    requires Consistent(recorded, Full) && s.name in recorded.tracks
    ensures var cmds := Engage(recorded, s, m, steering, trig, draws);
      var moves := Evade(recorded.moveDirection, s, steering, trig, draws);
      var aim := AimDegrees(GUN, recorded.ring, recorded.tracks[s.name], m.aim, trig);
      var k := |moves| + 1;
      |cmds| > k
      && cmds[0] == LockRadarAsWritten(s, m.start, LOCK_OVERSHOOT)
      && cmds[1..k] == moves
      && cmds[k] == TurnGunRight(NormalizeBearing(aim - m.aim.gunHeading))
  {
    var head := [LockRadarAsWritten(s, m.start, LOCK_OVERSHOOT)] + Evade(recorded.moveDirection, s, steering, trig, draws);
    var gun := FireAt(GUN, recorded, Full, s, m, trig);
    assert (head + gun)[1..|head|] == head[1..];
    assert (head + gun)[|head|] == gun[0];
  }

  /**
   * The tiered power is fired once exactly when the gun is not hot, own
   * energy covers the power, the robot has energy and the residual after
   * the turn is under 10 degrees.
   */
  lemma EngageFireRule(recorded: BotState, s: Scan, m: Moments, steering: SelfState, trig: Trig, draws: Draws)
    requires Consistent(recorded, Full) && s.name in recorded.tracks
    ensures var cmds := Engage(recorded, s, m, steering, trig, draws);
      var e := recorded.tracks[s.name];
      var power := BulletPower(Tiered, e.distance, e.energy, m.aim.energy);
      var aim := AimDegrees(GUN, recorded.ring, e, m.aim, trig);
      ((exists c :: c in cmds && c.Fire?) <==>
         m.turned.gunHeat <= 0.0 && m.turned.energy >= power && e.energy > 0.0
         && Abs(NormalizeBearing(aim - m.turned.gunHeading)) < 10.0)
      && (forall c :: c in cmds && c.Fire? ==> c == Fire(power))
  {
    var moves := Evade(recorded.moveDirection, s, steering, trig, draws);
    var head := [LockRadarAsWritten(s, m.start, LOCK_OVERSHOOT)] + moves;
    var gun := FireAt(GUN, recorded, Full, s, m, trig);
    EvadeRule(recorded.moveDirection, s, steering, trig, draws);
    assert forall c: Command :: c in head ==> !c.Fire?;
    GunCommandsLead(gun, []);
    assert forall c: Command :: c in head + gun && c.Fire? ==> c in gun;
    if |gun| == 2 {
      assert gun[1] in head + gun;
    }
  }

  /** run() opens with the chunked goTo to the centre. */
  function Opening(me: SelfState, trig: Trig): seq<Command>
  {
    ChunkedGoTo(me, Centre(me), CHUNK_SCAN, trig)
  }

  /**
   * The step of the run loop: near a wall the chunked goTo to the centre;
   * otherwise a turn of first * 60 - 30 and a drive ahead of 70 + second *
   * 110.
   */
  function JitterStep(me: SelfState, trig: Trig, draws: Draws): seq<Command>
  {
    if NearWall(me, MARGIN) then ChunkedGoTo(me, Centre(me), CHUNK_SCAN, trig)
    else [TurnRight(draws.first * 60.0 - 30.0), Ahead(70.0 + draws.second * 110.0)]
  }

  /** One pass of the run loop: a full radar sweep, then the jittery step. */
  function LoopCommands(m: LoopMoments, trig: Trig, draws: Draws): seq<Command>
  {
    [TurnRadarRight(360.0)] + JitterStep(m.moving, trig, draws)
  }

  method RunLoopPass(m: LoopMoments, trig: Trig, draws: Draws) returns (cmds: seq<Command>)
    ensures cmds == LoopCommands(m, trig, draws)
  {
    cmds := [TurnRadarRight(360.0)];
    if NearWall(m.moving, MARGIN) {
      var go := ChunkedGoToLoop(m.moving, Centre(m.moving), CHUNK_SCAN, trig);
      cmds := cmds + go;
    } else {
      cmds := cmds + [TurnRight(draws.first * 60.0 - 30.0), Ahead(70.0 + draws.second * 110.0)];
    }
  }

  /**
   * The step for draws in [0, 1): near a wall it turns the short way to the
   * centre and drives the whole way there; otherwise it turns at most 30
   * degrees either way and drives ahead between 70 and 180, never back.
   */
  lemma JitterStepBounds(me: SelfState, trig: Trig, draws: Draws)
    requires 0.0 <= draws.first < 1.0 && 0.0 <= draws.second < 1.0
    ensures var cmds := JitterStep(me, trig, draws);
      cmds[0].TurnRight? && -180.0 <= cmds[0].degrees <= 180.0
      && if NearWall(me, MARGIN) then
           AheadTotal(cmds) == Driven(LegLength(me, Centre(me), trig))
         else
           |cmds| == 2 && -30.0 <= cmds[0].degrees < 30.0
           && cmds[1].Ahead? && 70.0 <= cmds[1].distance < 180.0
  {
    if NearWall(me, MARGIN) {
      ChunkedGoToDrives(me, Centre(me), CHUNK_SCAN, trig);
    }
  }
}
