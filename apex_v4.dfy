/**
 * ApexV4: every sighting makes the sighted robot the target (clearing the
 * history whenever it is not the last-scanned robot), records are rebuilt
 * on each sighting with heading and position carried over, the gun fires on
 * the commanded turn being under 20 degrees, a detected shot triggers a
 * 100-unit perpendicular dodge, and the smooth movement runs at most once
 * every five ticks. The run loop holds the radar on the last absolute
 * bearing with a 0.05 radian overshoot.
 */
module ApexV4 {
  import opened Common
  import opened Angles
  import opened Host
  import opened Tracks
  import opened History
  import opened Targeting
  import opened Gunnery
  import opened Radar
  import opened Movement
  import opened Engine
  import opened Handlers

  const GUN: Gun := Gun(Tiered,
                        Predictor(WallSpinSpeed(true), 1.3, RingWindow(Some(5)), None),
                        Gate(Cold, true, BeforeTurn(20.0)))

  /** executeSmoothMovement with the wall-hugger bands and no distance cap. */
  const SMOOTH: SmoothConfig := SmoothConfig(true, None)

  /** The distance of the shot dodge and of the onHitByBullet dodge. */
  const DODGE_DISTANCE: real := 100.0

  /**
   * The first part of onScannedRobot: clear the history when the sighted
   * robot is not the last-scanned one, rebuild its record, make it both
   * lastTarget and the target, and note its absolute bearing and energy.
   */
  function Adopt(st: BotState, s: Scan, m: Moments, trig: Trig): (pre: BotState)
    requires Consistent(st, Full)
    ensures Consistent(pre, Full) && s.name in pre.tracks
  {
    st.(tracks := Replaced(st.tracks, s, m.start, trig, CarryHeadingAndPosition),
        currentTarget := Some(s.name),
        lastTarget := Some(s.name),
        enemyAbsoluteBearing := AbsoluteBearing(s, m.start),
        lastEnemyEnergy := s.energy,
        ring := if st.lastTarget.Some? && st.lastTarget.value != s.name then Cleared(st.ring) else st.ring)
  }

  /** onScannedRobot as a function of the state before the event: adopt, record, fire, dodge, move. */
  function ScanOutcome(st: BotState, s: Scan, m: Moments, trig: Trig, draws: Draws): Outcome
    requires Consistent(st, Full)
  {
    Engage(Registered(st, s, m, trig), s, m, st.lastEnemyEnergy - s.energy, trig, draws)
  }

  /** The sighting adopted and written into the history. */
  function Registered(st: BotState, s: Scan, m: Moments, trig: Trig): (recorded: BotState)
    requires Consistent(st, Full)
    ensures Consistent(recorded, Full) && s.name in recorded.tracks
  {
    Record(Adopt(st, s, m, trig), Full, s)
  }

  /** The rest of onScannedRobot once the sighting is recorded: fire, then evade. */
  function Engage(recorded: BotState, s: Scan, m: Moments, drop: real, trig: Trig, draws: Draws): Outcome
    requires Consistent(recorded, Full) && s.name in recorded.tracks
  {
    var evaded := DodgeAndMove(SMOOTH, recorded, s, m, drop, DODGE_DISTANCE, trig, draws);
    Outcome(evaded.state, FireAt(GUN, recorded, Full, s, m, trig) + evaded.cmds)
  }

  method AdoptStep(bot: Bot, s: Scan, m: Moments, trig: Trig)
    requires bot.Valid() && bot.Kind() == Full
    modifies bot, bot.headings, bot.velocities, bot.xs, bot.ys
    ensures bot.Valid() && s.name in bot.enemies
    ensures bot.State() == Adopt(old(bot.State()), s, m, trig)
  {
    if bot.lastTarget.Some? && bot.lastTarget.value != s.name {
      bot.ResetHistory();
    }
    bot.SetLastTarget(Some(s.name));
    var enemy := bot.ObserveReplacing(s, m.start, trig, CarryHeadingAndPosition);
    bot.SetTarget(Some(s.name));
    bot.SetEnemyAbsoluteBearing(AbsoluteBearing(s, m.start));
    bot.SetLastEnemyEnergy(s.energy);
  }

  method AdoptAndRecordStep(bot: Bot, s: Scan, m: Moments, trig: Trig)
    requires bot.Valid() && bot.Kind() == Full
    modifies bot, bot.headings, bot.velocities, bot.xs, bot.ys
    ensures bot.Valid() && bot.Kind() == Full && s.name in bot.enemies
    ensures bot.State() == Registered(old(bot.State()), s, m, trig)
  {
    AdoptStep(bot, s, m, trig);
    RecordStep(bot, s);
  }

  method EngageStep(bot: Bot, s: Scan, m: Moments, drop: real, trig: Trig, draws: Draws) returns (cmds: seq<Command>)
    requires bot.Valid() && bot.Kind() == Full && s.name in bot.enemies
    modifies bot
    ensures bot.Valid()
    ensures Outcome(bot.State(), cmds) == Engage(old(bot.State()), s, m, drop, trig, draws)
  {
    var fired := FireStep(bot, GUN, s, m, trig);
    var evaded := DodgeAndMoveStep(bot, SMOOTH, s, m, drop, DODGE_DISTANCE, trig, draws);
    cmds := fired + evaded;
  }

  /** onScannedRobot: adopt the target, record, fire, dodge, move. */
  method OnScannedRobot(bot: Bot, s: Scan, m: Moments, trig: Trig, draws: Draws) returns (cmds: seq<Command>)
    requires bot.Valid() && bot.Kind() == Full
    modifies bot, bot.headings, bot.velocities, bot.xs, bot.ys
    ensures bot.Valid()
    ensures Outcome(bot.State(), cmds) ==
              Engage(Registered(old(bot.State()), s, m, trig), s, m, old(bot.lastEnemyEnergy) - s.energy, trig, draws)
  {
    var drop := bot.lastEnemyEnergy - s.energy;
    AdoptAndRecordStep(bot, s, m, trig);
    cmds := EngageStep(bot, s, m, drop, trig, draws);
  }


  /**
   * Every sighting makes the sighted robot both the target and lastTarget,
   * rebuilds its record from the scan with the old heading and position
   * as the previous snapshot, and notes its absolute bearing and energy.
   */
  lemma ScanAlwaysTakesSighted(st: BotState, s: Scan, m: Moments, trig: Trig, draws: Draws)
    requires Consistent(st, Full)
    ensures var o := ScanOutcome(st, s, m, trig, draws);
      var e := o.state.tracks[s.name];
      Consistent(o.state, Full)
      && o.state.currentTarget == Some(s.name) && o.state.lastTarget == Some(s.name)
      && o.state.tracks.Keys == st.tracks.Keys + {s.name}
      && Reflects(e, s, m.start, trig)
      && (s.name in st.tracks ==> e.lastHeading == st.tracks[s.name].heading
                                  && e.lastX == st.tracks[s.name].x && e.lastY == st.tracks[s.name].y)
      && o.state.enemyAbsoluteBearing == ToRadians(m.start.heading) + ToRadians(s.bearing)
      && o.state.lastEnemyEnergy == s.energy
  {
  }

  /**
   * A sighting of any robot but the last-scanned one clears the history, so
   * the ring then holds only this sighting; otherwise the sighting is
   * written over the oldest slot.
   */
  lemma ScanHistoryRule(st: BotState, s: Scan, m: Moments, trig: Trig, draws: Draws)
    requires Consistent(st, Full)
    ensures var o := ScanOutcome(st, s, m, trig, draws);
      var q := o.state.ring;
      var e := o.state.tracks[s.name];
      if st.lastTarget.Some? && st.lastTarget.value != s.name then
        q.index == 1 && q.heading[0] == s.heading && q.velocity[0] == s.velocity && q.xs[0] == e.x && q.ys[0] == e.y
        && forall i :: 1 <= i < SLOTS ==> q.heading[i] == 0.0 && q.velocity[i] == 0.0 && q.xs[i] == 0.0 && q.ys[i] == 0.0
      else
        q == Recorded(st.ring, s.heading, s.velocity, e.x, e.y)
  {
    var pre := Adopt(st, s, m, trig);
    OneSampleAfterReset(st.ring, s.heading, s.velocity, pre.tracks[s.name].x, pre.tracks[s.name].y);
  }

  /**
   * The pre-turn gate: the handler's first call turns the gun, and it fires
   * (once, at the tiered power) exactly when the commanded turn is under
   * 20 degrees, the gun is cold, own energy exceeds the power and the
   * enemy has energy left.
   */
  lemma ScanFireRule(st: BotState, s: Scan, m: Moments, trig: Trig, draws: Draws)
    requires Consistent(st, Full)
    ensures var o := ScanOutcome(st, s, m, trig, draws);
      var e := o.state.tracks[s.name];
      var power := BulletPower(Tiered, e.distance, e.energy, m.aim.energy);
      o.cmds[0].TurnGunRight?
      && ((exists c :: c in o.cmds && c.Fire?) <==>
            Abs(o.cmds[0].degrees) < 20.0 && m.turned.gunHeat == 0.0 && m.turned.energy > power && e.energy > 0.0)
      && (forall c :: c in o.cmds && c.Fire? ==> c == Fire(power))
  {
    EngageFireRule(Registered(st, s, m, trig), s, m, st.lastEnemyEnergy - s.energy, trig, draws);
  }

  /** The fire rule once the sighting is recorded, whatever the drop. */
  lemma EngageFireRule(recorded: BotState, s: Scan, m: Moments, drop: real, trig: Trig, draws: Draws)
    requires Consistent(recorded, Full) && s.name in recorded.tracks
    ensures var o := Engage(recorded, s, m, drop, trig, draws);
      var e := o.state.tracks[s.name];
      var power := BulletPower(Tiered, e.distance, e.energy, m.aim.energy);
      o.cmds[0].TurnGunRight?
      && ((exists c :: c in o.cmds && c.Fire?) <==>
            Abs(o.cmds[0].degrees) < 20.0 && m.turned.gunHeat == 0.0 && m.turned.energy > power && e.energy > 0.0)
      && (forall c :: c in o.cmds && c.Fire? ==> c == Fire(power))
  {
    var evaded := DodgeAndMove(SMOOTH, recorded, s, m, drop, DODGE_DISTANCE, trig, draws);
    var gun := FireAt(GUN, recorded, Full, s, m, trig);
    GunCommandsLead(gun, evaded.cmds);
    assert evaded.state.tracks == recorded.tracks;
  }

  /**
   * The evasion rule for a whole sighting, with the drop measured against
   * the single lastEnemyEnergy shared by all opponents: the dodge ends the
   * handler's calls, a due movement ends them with a turn of at most 90
   * degrees, and otherwise only the gun moves.
   */
  lemma ScanEvasionRule(st: BotState, s: Scan, m: Moments, trig: Trig, draws: Draws)
    requires Consistent(st, Full)
    ensures var o := ScanOutcome(st, s, m, trig, draws);
      var drop := st.lastEnemyEnergy - s.energy;
      var n := |o.cmds|;
      if 0.1 <= drop <= 3.0 then
        o.state.moveDirection == -st.moveDirection && o.state.lastMoveTime == m.settled.time
        && n >= 3 && o.cmds[n - 2..] == [TurnRight(DodgeTurn(s.bearing, -st.moveDirection, 0.0)), Ahead(DODGE_DISTANCE)]
      else if m.settled.time - st.lastMoveTime >= MOVE_COOLDOWN then
        o.state.lastMoveTime == m.moved.time
        && n >= 3 && o.cmds[n - 2].TurnRight? && Abs(o.cmds[n - 2].degrees) <= 90.0
        && (o.state.moveDirection != st.moveDirection <==> draws.second < 0.15)
      else
        o.state.lastMoveTime == st.lastMoveTime && o.state.moveDirection == st.moveDirection
        && forall c :: c in o.cmds ==> c.TurnGunRight? || c.Fire?
  {
    var recorded := Registered(st, s, m, trig);
    assert recorded.moveDirection == st.moveDirection && recorded.lastMoveTime == st.lastMoveTime;
    EngageEvasionRule(recorded, s, m, st.lastEnemyEnergy - s.energy, trig, draws);
  }

  /** The evasion rule once the sighting is recorded, for a given drop. */
  lemma EngageEvasionRule(recorded: BotState, s: Scan, m: Moments, drop: real, trig: Trig, draws: Draws)
    requires Consistent(recorded, Full) && s.name in recorded.tracks
    ensures var o := Engage(recorded, s, m, drop, trig, draws);
      var n := |o.cmds|;
      if 0.1 <= drop <= 3.0 then
        o.state.moveDirection == -recorded.moveDirection && o.state.lastMoveTime == m.settled.time
        && n >= 3 && o.cmds[n - 2..] == [TurnRight(DodgeTurn(s.bearing, -recorded.moveDirection, 0.0)), Ahead(DODGE_DISTANCE)]
      else if m.settled.time - recorded.lastMoveTime >= MOVE_COOLDOWN then
        o.state.lastMoveTime == m.moved.time
        && n >= 3 && o.cmds[n - 2].TurnRight? && Abs(o.cmds[n - 2].degrees) <= 90.0
        && (o.state.moveDirection != recorded.moveDirection <==> draws.second < 0.15)
      else
        o.state.lastMoveTime == recorded.lastMoveTime && o.state.moveDirection == recorded.moveDirection
        && forall c :: c in o.cmds ==> c.TurnGunRight? || c.Fire?
  {
    DodgeAndMoveRule(SMOOTH, recorded, s, m, drop, DODGE_DISTANCE, trig, draws);
  }

  /**
   * The radar step of the run loop: 45 degrees while there is no target,
   * otherwise the radians lock on the last absolute bearing, which passes
   * the target by 0.05 radians.
   */
  function RadarLock(st: BotState, me: SelfState): (cmd: Command)
    ensures cmd.TurnRadarRight?
    ensures st.currentTarget.None? ==> cmd.degrees == 45.0
    ensures st.currentTarget.Some? ==>
              PassesTarget(NormalizeRadians(st.enemyAbsoluteBearing - ToRadians(me.radarHeading)), ToRadians(cmd.degrees))
              && Abs(ToRadians(cmd.degrees) - NormalizeRadians(st.enemyAbsoluteBearing - ToRadians(me.radarHeading))) == RADIAN_OVERSHOOT
  {
    if st.currentTarget.None? then TurnRadarRight(45.0)
    else
      RadiansLockPassesTarget(st.enemyAbsoluteBearing, me.radarHeading);
      TurnRadarRight(RadiansLockTurn(st.enemyAbsoluteBearing, me.radarHeading))
  }

  /** One pass of the run loop: it only turns the radar and changes nothing. */
  method RunLoopPass(bot: Bot, me: SelfState) returns (cmds: seq<Command>)
    requires bot.Valid()
    ensures cmds == [RadarLock(bot.State(), me)]
  {
    if bot.currentTarget.None? {
      cmds := [TurnRadarRight(45.0)];
    } else {
      var radarTurn := NormalizeRadians(bot.enemyAbsoluteBearing - ToRadians(me.radarHeading));
      radarTurn := if radarTurn < 0.0 then radarTurn - RADIAN_OVERSHOOT else radarTurn + RADIAN_OVERSHOOT;
      cmds := [TurnRadarRight(ToDegrees(radarTurn))];
    }
  }

  /** onRobotDeath: the nearest survivor becomes the target and the history is reset when the target dies. */
  const DEATH: DeathPolicy := Reselect(true)
}
