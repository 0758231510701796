/**
 * ChutluV6: the shared corner-bot handlers with a gun that fires when it
 * is cold and own energy exceeds the power, corners 18 in from the
 * walls, and a dead target simply forgotten. run() opens
 * with GoToWall(start, MARGIN): the point 18 off the nearest wall.
 */
module ChutluV6 {
  import opened Common
  import opened Angles
  import opened Host
  import opened Tracks
  import opened Gunnery
  import opened Movement
  import opened Engine
  import opened Handlers
  import CornerBots

  const GUN: Gun := Gun(Tiered,
                        Predictor(WallSpinSpeed(true), 1.4, RingWindow(Some(5)), None),
                        Gate(Cold, true, AfterTurn(Within(12.0))))

  /** MARGIN: how far in from the walls the corners and the opening wall point lie. */
  const MARGIN: real := 18.0

  /** onRobotDeath: when the target dies there is no target and the history is reset. */
  const DEATH: DeathPolicy := Forget

  /** onHitWall: back 50, then a quarter turn right; moveDirection is not touched. */
  const HIT_WALL: Steer := Steer([Back(50.0), TurnRight(90.0)], false)

  /**
   * The calls of a recorded sighting: after the radar lock the gun turns,
   * and the tiered power is fired once exactly when the gun heat is 0, own
   * energy after the turn exceeds the power, the robot has
   * energy and the residual after the turn is under 12 degrees.
   */
  lemma AimFireRule(recorded: BotState, s: Scan, m: Moments, trig: Trig)
    requires Consistent(recorded, Full) && s.name in recorded.tracks
    ensures var cmds := CornerBots.Aim(GUN, recorded, s, m, trig);
      var e := recorded.tracks[s.name];
      var power := BulletPower(Tiered, e.distance, e.energy, m.aim.energy);
      var aim := AimDegrees(GUN, recorded.ring, e, m.aim, trig);
      cmds[1] == TurnGunRight(NormalizeBearing(aim - m.aim.gunHeading))
      && ((exists c :: c in cmds && c.Fire?) <==>
            m.turned.gunHeat == 0.0 && m.turned.energy > power && e.energy > 0.0
            && Abs(NormalizeBearing(aim - m.turned.gunHeading)) < 12.0)
      && (forall c :: c in cmds && c.Fire? ==> c == Fire(power))
  {
    var cmds := CornerBots.Aim(GUN, recorded, s, m, trig);
    CornerBots.AimRule(GUN, recorded, s, m, trig);
    if |cmds| == 3 {
      assert cmds[2] in cmds;
    }
    assert forall c :: c in cmds && c.Fire? ==> c == cmds[2];
  }
}
