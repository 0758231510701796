/**
 * ChutluV17: the shared corner-bot handlers (CornerBots) with a fresh
 * record that carries nothing over and an energy that is never noted, a
 * gun that aims circularly at fast robots and linearly at the rest and
 * fires when it is cold and own energy exceeds the power, corners 165 in
 * from the walls, and a dead robot's record simply dropped (the target name
 * is kept). run() opens with GoToWall(start, MARGIN), and each pass is
 * CornerBots.LoopCommands(state, MARGIN, legs).
 */
module ChutluV17 {
  import opened Common
  import opened Angles
  import opened Host
  import opened Tracks
  import opened History
  import opened Gunnery
  import opened Movement
  import opened Engine
  import opened Handlers
  import CornerBots

  const GUN: Gun := Gun(Tiered,
                        Predictor(CircularIfFast, 1.0, RingWindow(None), None),
                        Gate(Cold, true, AfterTurn(Within(12.0))))

  /** previousTargetName kept, nothing carried over, the sighted robot always taken, lastEnemyEnergy never written. */
  const SIGHTING: Sighting := Sighting(true, CarryNothing, false, false)

  /** WALL_MARGIN_DISTANCE: how far in from the walls the corners and the opening wall point lie. */
  const MARGIN: real := 165.0

  /** onRobotDeath: the record is removed and nothing else changes. */
  const DEATH: DeathPolicy := RemoveOnly

  /** onHitWall: back 50, then a quarter turn right. */
  const HIT_WALL: Steer := Steer([Back(50.0), TurnRight(90.0)], false)

  /**
   * Every sighting makes the sighted robot both the target and the
   * previous target and replaces its record by a first sighting built from
   * the scan, so the previous snapshot is the scan itself; the other
   * records, lastEnemyEnergy and the movement fields are untouched.
   */
  lemma ScanTakesSighted(st: BotState, s: Scan, m: Moments, trig: Trig)
    requires Consistent(st, Full)
    ensures var o := CornerBots.ScanOutcome(GUN, SIGHTING, st, s, m, trig);
      Consistent(o.state, Full)
      && o.state.currentTarget == Some(s.name) && o.state.lastTarget == Some(s.name)
      && o.state.tracks == st.tracks[s.name := FirstSighting(s, m.start, trig)]
      && o.state.lastEnemyEnergy == st.lastEnemyEnergy
      && o.state.moveDirection == st.moveDirection && o.state.lastMoveTime == st.lastMoveTime
  {
  }

  /**
   * The calls of a recorded sighting: after the radar lock the gun turns
   * towards the circular estimate when the mean speed over the whole ring
   * exceeds 7 and the linear one otherwise, and the tiered power is fired
   * once exactly when the gun heat is 0, own energy after the turn exceeds
   * the power, the robot has energy and the residual after the turn is
   * under 12 degrees.
   */
  lemma AimFireRule(recorded: BotState, s: Scan, m: Moments, trig: Trig)
    requires Consistent(recorded, Full) && s.name in recorded.tracks
    ensures var cmds := CornerBots.Aim(GUN, recorded, s, m, trig);
      var e := recorded.tracks[s.name];
      var power := BulletPower(Tiered, e.distance, e.energy, m.aim.energy);
      var est := Estimate(GUN.predictor, recorded.ring, e, TravelTime(e.distance, BulletSpeed(power)), m.aim, trig);
      var aim := ToDegrees(if MeanSpeed(recorded.ring.velocity) > 7.0 then est.circular else est.linear);
      cmds[1] == TurnGunRight(NormalizeBearing(aim - m.aim.gunHeading))
      && ((exists c :: c in cmds && c.Fire?) <==>
            m.turned.gunHeat == 0.0 && m.turned.energy > power && e.energy > 0.0
            && Abs(NormalizeBearing(aim - m.turned.gunHeading)) < 12.0)
      && (forall c :: c in cmds && c.Fire? ==> c == Fire(power))
  {
    var cmds := CornerBots.Aim(GUN, recorded, s, m, trig);
    CornerBots.AimRule(GUN, recorded, s, m, trig);
    if |cmds| == 3 {
      assert cmds[2] in cmds;
    }
    assert forall c :: c in cmds && c.Fire? ==> c == cmds[2];
  }
}
