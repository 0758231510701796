/**
 * ChutluV16: every sighting makes the sighted robot the target (clearing
 * the history when it is not the last-scanned one) and locks the radar with
 * the raw-sign 5-degree overshoot. Against a single opponent a drop in (0, 3] flips
 * moveDirection, and the robot turns square to the opponent with up to 8
 * degrees of jitter and, away from the walls, steps 60 forwards or back.
 * The gun fires when it is not hot under a 12-degree allowance. The run
 * loop sweeps the radar a full turn, then either takes one random 1v1 step
 * or drives the X between corners 200 in from the walls in 140-unit
 * chunks.
 */
module ChutluV16 {
  import opened Common
  import opened Angles
  import opened Host
  import opened Tracks
  import opened History
  import opened Gunnery
  import opened Radar
  import opened Movement
  import opened Engine
  import opened Handlers

  const GUN: Gun := Gun(Tiered,
                        Predictor(WallSpinSpeed(true), 1.4, RingWindow(Some(5)), None),
                        Gate(NotHot, true, AfterTurn(Within(12.0))))

  /** lastTarget kept, heading and position carried over, the sighted robot always taken, energy noted. */
  const SIGHTING: Sighting := Sighting(true, CarryHeadingAndPosition, false, true)

  /** MARGIN: the wall distance of isNearWall, of the corners and of the opening wall point. */
  const MARGIN: real := 200.0

  /** The radar lock's overshoot. */
  const LOCK_OVERSHOOT: real := 5.0

  /** The length of the 1v1 side step. */
  const SIDESTEP: real := 60.0

  /** The radar scan after each chunk of a goTo. */
  const CHUNK_SCAN: real := 45.0

  /** onHitWall: back 80, a quarter turn right, ahead 140; moveDirection is not touched. */
  const HIT_WALL: Steer := Steer([Back(80.0), TurnRight(90.0), Ahead(140.0)], false)

  /** onHitByBullet is Collisions.BulletSwerve(moveDirection, HIT_SWERVE). */
  const HIT_SWERVE: real := 120.0

  /** onRobotDeath: the nearest survivor becomes the target and the history is reset when the target dies. */
  const DEATH: DeathPolicy := Reselect(true)

  /**
   * The 1v1 shot reaction: a drop in (0, 3] flips moveDirection. The
   * opponent count is read after the blocking radar turn (locked).
   */
  function Flipped(pre: BotState, locked: SelfState, drop: real): (r: BotState)
    requires Consistent(pre, Full)
    ensures Consistent(r, Full) && r == pre.(moveDirection := r.moveDirection)
    ensures r.moveDirection == if locked.others == 1 && ShotDetected(AnyPositive, drop) then -pre.moveDirection else pre.moveDirection
  {
    if locked.others == 1 && ShotDetected(AnyPositive, drop) then pre.(moveDirection := Flip(pre.moveDirection)) else pre
  }

  /** The sighting taken in, the shot reaction, and the history write. */
  function Registered(st: BotState, s: Scan, m: Moments, locked: SelfState, trig: Trig): (recorded: BotState)
    requires Consistent(st, Full)
    ensures Consistent(recorded, Full) && s.name in recorded.tracks
  {
    Record(Flipped(Sight(st, Full, s, m, trig, SIGHTING), locked, st.lastEnemyEnergy - s.energy), Full, s)
  }

  /**
   * The 1v1 side step: turn square to the opponent the current way with a
   * jitter of first * 16 - 8, then, away from the walls, 60 ahead on a
   * second draw below 0.5 and 60 back otherwise. The opponent count is
   * read after the radar turn (locked), the wall test after the side-step
   * turn (steering).
   */
  function Sidestep(dir: int, s: Scan, locked: SelfState, steering: SelfState, draws: Draws): seq<Command>
  {
    if locked.others == 1 then
      [TurnRight(DodgeTurn(s.bearing, dir, draws.first * 16.0 - 8.0))]
      + (if NearWall(steering, MARGIN) then [] else [if draws.second < 0.5 then Ahead(SIDESTEP) else Back(SIDESTEP)])
    else []
  }

  /** The calls of a recorded sighting: the radar lock, the side step, fire control. */
  function Engage(recorded: BotState, s: Scan, m: Moments, locked: SelfState, steering: SelfState, trig: Trig, draws: Draws): seq<Command>
    requires Consistent(recorded, Full) && s.name in recorded.tracks
  {
    [LockRadarAsWritten(s, m.start, LOCK_OVERSHOOT)] + Sidestep(recorded.moveDirection, s, locked, steering, draws)
    + FireAt(GUN, recorded, Full, s, m, trig)
  }

  /**
   * onScannedRobot as a function of the state before the event; locked is
   * own telemetry once the radar turn returns, steering once the side-step
   * turn returns.
   */
  function ScanOutcome(st: BotState, s: Scan, m: Moments, locked: SelfState, steering: SelfState, trig: Trig, draws: Draws): Outcome
    requires Consistent(st, Full)
  {
    var recorded := Registered(st, s, m, locked, trig);
    Outcome(recorded, Engage(recorded, s, m, locked, steering, trig, draws))
  }

  method FlipStep(bot: Bot, s: Scan, locked: SelfState, drop: real)
    requires bot.Valid() && bot.Kind() == Full && s.name in bot.enemies
    modifies bot
    ensures bot.Valid() && bot.Kind() == Full && s.name in bot.enemies
    ensures bot.State() == Flipped(old(bot.State()), locked, drop)
  {
    if locked.others == 1 && ShotDetected(AnyPositive, drop) {
      bot.SetMoveDirection(Flip(bot.moveDirection));
    }
    assert s.name in bot.Tracks();
  }

  /** The sighting taken in and the shot reaction, for the drop read when the event arrived. */
  method SightFlipStep(bot: Bot, s: Scan, m: Moments, locked: SelfState, trig: Trig, drop: real)
    requires bot.Valid() && bot.Kind() == Full && drop == bot.lastEnemyEnergy - s.energy
    modifies bot, bot.headings, bot.velocities, bot.xs, bot.ys
    ensures bot.Valid() && bot.Kind() == Full && s.name in bot.enemies
    ensures bot.State() == Flipped(Sight(old(bot.State()), Full, s, m, trig, SIGHTING), locked, old(bot.State()).lastEnemyEnergy - s.energy)
  {
    SightStep(bot, s, m, trig, SIGHTING);
    FlipStep(bot, s, locked, drop);
  }

  method RegisterStep(bot: Bot, s: Scan, m: Moments, locked: SelfState, trig: Trig)
    requires bot.Valid() && bot.Kind() == Full
    modifies bot, bot.headings, bot.velocities, bot.xs, bot.ys
    ensures bot.Valid() && bot.Kind() == Full && s.name in bot.enemies
    ensures bot.State() == Registered(old(bot.State()), s, m, locked, trig)
  {
    var drop := bot.lastEnemyEnergy - s.energy;
    SightFlipStep(bot, s, m, locked, trig, drop);
    RecordStep(bot, s);
  }

  method EngageStep(bot: Bot, s: Scan, m: Moments, locked: SelfState, steering: SelfState, trig: Trig, draws: Draws)
    returns (cmds: seq<Command>)
    requires bot.Valid() && bot.Kind() == Full && s.name in bot.enemies
    ensures bot.Valid() && bot.State() == old(bot.State())
    ensures cmds == Engage(bot.State(), s, m, locked, steering, trig, draws)
  {
    var radar := LockRadarAsWritten(s, m.start, LOCK_OVERSHOOT);
    var step := Sidestep(bot.moveDirection, s, locked, steering, draws);
    var fired := FireStep(bot, GUN, s, m, trig);
    cmds := [radar] + step + fired;
  }

  /** onScannedRobot: take the sighting in, lock the radar, react to a shot, record, side-step, fire. */
  method OnScannedRobot(bot: Bot, s: Scan, m: Moments, locked: SelfState, steering: SelfState, trig: Trig, draws: Draws)
    returns (cmds: seq<Command>)
    requires bot.Valid() && bot.Kind() == Full
    modifies bot, bot.headings, bot.velocities, bot.xs, bot.ys
    ensures bot.Valid()
    ensures Outcome(bot.State(), cmds) == ScanOutcome(old(bot.State()), s, m, locked, steering, trig, draws)
  {
    RegisterStep(bot, s, m, locked, trig);
    cmds := EngageStep(bot, s, m, locked, steering, trig, draws);
  }

  /**
   * Every sighting makes the sighted robot both the target and lastTarget,
   * rebuilds its record from the scan with the old heading and position as
   * the previous snapshot, and notes its energy; moveDirection flips
   * exactly against a single opponent whose energy dropped by (0, 3].
   */
  lemma ScanTakesSighted(st: BotState, s: Scan, m: Moments, locked: SelfState, steering: SelfState, trig: Trig, draws: Draws)
    requires Consistent(st, Full)
    ensures var o := ScanOutcome(st, s, m, locked, steering, trig, draws);
      var e := o.state.tracks[s.name];
      var drop := st.lastEnemyEnergy - s.energy;
      Consistent(o.state, Full)
      && o.state.currentTarget == Some(s.name) && o.state.lastTarget == Some(s.name)
      && o.state.lastEnemyEnergy == s.energy
      && o.state.tracks.Keys == st.tracks.Keys + {s.name}
      && Reflects(e, s, m.start, trig)
      && (s.name in st.tracks ==> e.lastHeading == st.tracks[s.name].heading
                                  && e.lastX == st.tracks[s.name].x && e.lastY == st.tracks[s.name].y)
      && (o.state.moveDirection == -st.moveDirection <==> locked.others == 1 && 0.0 < drop <= 3.0)
      && (o.state.moveDirection == st.moveDirection <==> !(locked.others == 1 && 0.0 < drop <= 3.0))
  {
  }

  /**
   * The side step: none against several opponents; against one, a turn
   * that differs from the perpendicular by the jitter, then away from the
   * walls the 60-unit step ahead or back by the second draw.
   */
  lemma SidestepRule(dir: int, s: Scan, locked: SelfState, steering: SelfState, draws: Draws)
    ensures var cmds := Sidestep(dir, s, locked, steering, draws);
      |cmds| == (if locked.others != 1 then 0 else if NearWall(steering, MARGIN) then 1 else 2)
      && (locked.others == 1 ==> cmds[0] == TurnRight(DodgeTurn(s.bearing, dir, draws.first * 16.0 - 8.0)))
      && (|cmds| == 2 ==> cmds[1] == if draws.second < 0.5 then Ahead(SIDESTEP) else Back(SIDESTEP))
      && forall c :: c in cmds ==> c.TurnRight? || c.Ahead? || c.Back?
  {
  }

  /**
   * The order of the calls of a recorded sighting: the radar lock first,
   * the side step next, then the gun turn by the normalised aim.
   */
  lemma EngageOrder(recorded: BotState, s: Scan, m: Moments, locked: SelfState, steering: SelfState, trig: Trig, draws: Draws)
    requires Consistent(recorded, Full) && s.name in recorded.tracks
    ensures var cmds := Engage(recorded, s, m, locked, steering, trig, draws);
      var step := Sidestep(recorded.moveDirection, s, locked, steering, draws);
      var aim := AimDegrees(GUN, recorded.ring, recorded.tracks[s.name], m.aim, trig);
      var k := |step| + 1;
      |cmds| > k
      && cmds[0] == LockRadarAsWritten(s, m.start, LOCK_OVERSHOOT)
      && cmds[1..k] == step
      && cmds[k] == TurnGunRight(NormalizeBearing(aim - m.aim.gunHeading))
  {
    var head := [LockRadarAsWritten(s, m.start, LOCK_OVERSHOOT)] + Sidestep(recorded.moveDirection, s, locked, steering, draws);
    var gun := FireAt(GUN, recorded, Full, s, m, trig);
    assert (head + gun)[1..|head|] == head[1..];
    assert (head + gun)[|head|] == gun[0];
  }

  /**
   * The tiered power is fired once exactly when the gun is not hot, own
   * energy covers the power, the robot has energy and the residual after
   * the turn is under 12 degrees.
   */
  lemma EngageFireRule(recorded: BotState, s: Scan, m: Moments, locked: SelfState, steering: SelfState, trig: Trig, draws: Draws)
    requires Consistent(recorded, Full) && s.name in recorded.tracks
    ensures var cmds := Engage(recorded, s, m, locked, steering, trig, draws);
      var e := recorded.tracks[s.name];
      var power := BulletPower(Tiered, e.distance, e.energy, m.aim.energy);
      var aim := AimDegrees(GUN, recorded.ring, e, m.aim, trig);
      ((exists c :: c in cmds && c.Fire?) <==>
         m.turned.gunHeat <= 0.0 && m.turned.energy >= power && e.energy > 0.0
         && Abs(NormalizeBearing(aim - m.turned.gunHeading)) < 12.0)
      && (forall c :: c in cmds && c.Fire? ==> c == Fire(power))
  {
    var step := Sidestep(recorded.moveDirection, s, locked, steering, draws);
    var head := [LockRadarAsWritten(s, m.start, LOCK_OVERSHOOT)] + step;
    var gun := FireAt(GUN, recorded, Full, s, m, trig);
    SidestepRule(recorded.moveDirection, s, locked, steering, draws);
    assert forall c: Command :: c in head ==> !c.Fire?;
    GunCommandsLead(gun, []);
    assert forall c: Command :: c in head + gun && c.Fire? ==> c in gun;
    if |gun| == 2 {
      assert gun[1] in head + gun;
    }
  }

  /** run() opens with the chunked goTo to the point MARGIN off the nearest wall. */
  function Opening(me: SelfState, trig: Trig): seq<Command>
  {
    ChunkedGoTo(me, NearestWallPoint(me, MARGIN), CHUNK_SCAN, trig)
  }

  /**
   * The opening drive heads for the nearest wall (ties going to the wall
   * tested first: left, right, bottom, top) and covers the whole distance
   * to the point 200 off it in chunks of at most 140, sweeping the radar 45
   * degrees after each.
   */
  lemma OpeningRule(me: SelfState, trig: Trig) returns (w: Wall)
    ensures var cmds := Opening(me, trig);
      var target := WallPoint(w, me, MARGIN);
      IsChosenWall(w, me)
      && cmds == ChunkedGoTo(me, target, CHUNK_SCAN, trig)
      && AheadTotal(cmds) == Driven(LegLength(me, target, trig))
      && forall i :: 1 <= i < |cmds| ==>
           if i % 2 == 1 then cmds[i].Ahead? && 0.0 < cmds[i].distance <= CHUNK else cmds[i] == TurnRadarRight(CHUNK_SCAN)
  {
    w := NearestWallIsChosen(me, MARGIN);
    ChunkedGoToDrives(me, WallPoint(w, me, MARGIN), CHUNK_SCAN, trig);
  }

  /**
   * The 1v1 step of the run loop: near a wall the chunked goTo to the
   * centre; otherwise a turn of first * 60 - 30, a drive of 90 + second *
   * 120 (ahead on a third draw below 0.5, back otherwise), and a 90-degree
   * radar sweep.
   */
  function OneOnOneStep(me: SelfState, trig: Trig, draws: Draws): seq<Command>
  {
    if NearWall(me, MARGIN) then ChunkedGoTo(me, Centre(me), CHUNK_SCAN, trig)
    else
      var step := 90.0 + draws.second * 120.0;
      [TurnRight(draws.first * 60.0 - 30.0), if draws.third < 0.5 then Ahead(step) else Back(step), TurnRadarRight(90.0)]
  }

  /** One pass of the run loop: a full radar sweep, then the 1v1 step or the chunked X between corners 200 in. */
  function LoopCommands(m: LoopMoments, legs: Legs, trig: Trig, draws: Draws): seq<Command>
  {
    [TurnRadarRight(360.0)] + if m.moving.others == 1 then OneOnOneStep(m.moving, trig, draws) else ChunkedTour(legs, MARGIN, CHUNK_SCAN, trig)
  }

  method RunLoopPass(m: LoopMoments, legs: Legs, trig: Trig, draws: Draws) returns (cmds: seq<Command>)
    ensures cmds == LoopCommands(m, legs, trig, draws)
  {
    cmds := [TurnRadarRight(360.0)];
    if m.moving.others == 1 {
      if NearWall(m.moving, MARGIN) {
        var go := ChunkedGoToLoop(m.moving, Centre(m.moving), CHUNK_SCAN, trig);
        cmds := cmds + go;
      } else {
        var step := 90.0 + draws.second * 120.0;
        var move := if draws.third < 0.5 then Ahead(step) else Back(step);
        cmds := cmds + [TurnRight(draws.first * 60.0 - 30.0), move, TurnRadarRight(90.0)];
      }
    } else {
      var tour := ChunkedTourLoops(legs, MARGIN, CHUNK_SCAN, trig);
      cmds := cmds + tour;
    }
  }

  /**
   * The 1v1 step for draws in [0, 1): near a wall it turns the short way
   * to the centre and drives the whole way there; otherwise it turns at
   * most 30 degrees either way and drives between 90 and 210.
   */
  lemma OneOnOneStepBounds(me: SelfState, trig: Trig, draws: Draws)
    requires 0.0 <= draws.first < 1.0 && 0.0 <= draws.second < 1.0
    ensures var cmds := OneOnOneStep(me, trig, draws);
      cmds[0].TurnRight? && -180.0 <= cmds[0].degrees <= 180.0
      && if NearWall(me, MARGIN) then
           AheadTotal(cmds) == Driven(LegLength(me, Centre(me), trig))
         else
           -30.0 <= cmds[0].degrees < 30.0
           && (cmds[1].Ahead? <==> draws.third < 0.5) && (cmds[1].Ahead? || cmds[1].Back?)
           && 90.0 <= cmds[1].distance < 210.0
  {
    if NearWall(me, MARGIN) {
      ChunkedGoToDrives(me, Centre(me), CHUNK_SCAN, trig);
    }
  }
}
