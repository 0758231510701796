/**
 * ChutluV5: every sighting replaces the robot's record by a first sighting
 * and makes it the target; the radar locks with the raw-sign 5-degree
 * overshoot (Handlers.LockRadarAsWritten), heading and velocity go into a ring that is never cleared, and a gun aiming linearly
 * with range-only power fires when it is cold and aligned within 12
 * degrees, whatever the robot's energy. The run loop sweeps the radar,
 * bounces the diagonal course (dirX, dirY) off the margin 35 from the
 * walls and drives 200 along it; hitting a wall reverses both directions.
 */
module ChutluV5 {
  import opened Common
  import opened Angles
  import opened Host
  import opened Tracks
  import opened History
  import opened Gunnery
  import opened Movement
  import opened Engine
  import opened Handlers

  const GUN: Gun := Gun(ByRangeOnly,
                        Predictor(LinearOnly, 1.0, RingWindow(None), None),
                        Gate(Cold, false, AfterTurn(Within(12.0))))

  /** No lastTarget, nothing carried over, the sighted robot always taken, the energy never noted. */
  const SIGHTING: Sighting := Sighting(false, CarryNothing, false, false)

  /** The radar lock's overshoot. */
  const LOCK_OVERSHOOT: real := 5.0

  /** The run loop's radar sweep without a target, and with one. */
  const SEARCH_SWEEP: real := 60.0
  const TRACK_SWEEP: real := 25.0

  /** onHitWall's drive along the reversed diagonal. */
  const WALL_DRIVE: real := 150.0

  /** The calls of a recorded sighting: the radar lock, then fire control. */
  function Aim(recorded: BotState, s: Scan, m: Moments, trig: Trig): seq<Command>
    requires Consistent(recorded, MotionOnly) && s.name in recorded.tracks
  {
    [LockRadarAsWritten(s, m.start, LOCK_OVERSHOOT)] + FireAt(GUN, recorded, MotionOnly, s, m, trig)
  }

  /** onScannedRobot as a function of the state before the event. */
  function ScanOutcome(st: BotState, s: Scan, m: Moments, trig: Trig): Outcome
    requires Consistent(st, MotionOnly)
  {
    var recorded := Prepared(st, MotionOnly, s, m, trig, SIGHTING);
    Outcome(recorded, Aim(recorded, s, m, trig))
  }

  /** onScannedRobot: take the sighting in, lock the radar, record, fire. */
  method OnScannedRobot(bot: Bot, s: Scan, m: Moments, trig: Trig) returns (cmds: seq<Command>)
    requires bot.Valid() && bot.Kind() == MotionOnly
    modifies bot, bot.headings, bot.velocities, bot.xs, bot.ys
    ensures bot.Valid()
    ensures Outcome(bot.State(), cmds) == ScanOutcome(old(bot.State()), s, m, trig)
  {
    PrepareStep(bot, s, m, trig, SIGHTING);
    var radar := LockRadarAsWritten(s, m.start, LOCK_OVERSHOOT);
    var fired := FireStep(bot, GUN, s, m, trig);
    cmds := [radar] + fired;
  }

  /**
   * Every sighting makes the sighted robot the target and replaces its
   * record by a first sighting built from the scan; the other records,
   * lastTarget, lastEnemyEnergy and the course are untouched, and the
   * sighting is written over the oldest slot of a ring that is never
   * cleared, whichever robot it is.
   */
  lemma ScanTakesSighted(st: BotState, s: Scan, m: Moments, trig: Trig)
    requires Consistent(st, MotionOnly)
    ensures var o := ScanOutcome(st, s, m, trig);
      var e := FirstSighting(s, m.start, trig);
      Consistent(o.state, MotionOnly)
      && o.state.currentTarget == Some(s.name) && o.state.lastTarget == st.lastTarget
      && o.state.tracks == st.tracks[s.name := e]
      && o.state.lastEnemyEnergy == st.lastEnemyEnergy
      && o.state.ring == Recorded(st.ring, s.heading, s.velocity, e.x, e.y)
      && o.state.dirX == st.dirX && o.state.dirY == st.dirY
  {
  }

  /**
   * The calls of a recorded sighting: the radar lock, then the gun turn
   * towards the linear estimate, and the range-only power (3 under 200, 2
   * under 400, else 1.5) fired once exactly when the gun heat is 0, own
   * energy after the turn exceeds the power and the residual after the turn
   * is under 12 degrees; the sighted robot's energy is not consulted.
   */
  lemma AimFireRule(recorded: BotState, s: Scan, m: Moments, trig: Trig)
    requires Consistent(recorded, MotionOnly) && s.name in recorded.tracks
    ensures var cmds := Aim(recorded, s, m, trig);
      var e := recorded.tracks[s.name];
      var power := if e.distance < 200.0 then 3.0 else if e.distance < 400.0 then 2.0 else 1.5;
      var est := Estimate(GUN.predictor, recorded.ring, e, TravelTime(e.distance, BulletSpeed(power)), m.aim, trig);
      var aim := ToDegrees(est.linear);
      cmds[0] == LockRadarAsWritten(s, m.start, LOCK_OVERSHOOT)
      && cmds[1] == TurnGunRight(NormalizeBearing(aim - m.aim.gunHeading))
      && ((exists c :: c in cmds && c.Fire?) <==>
            m.turned.gunHeat == 0.0 && m.turned.energy > power
            && Abs(NormalizeBearing(aim - m.turned.gunHeading)) < 12.0)
      && (forall c :: c in cmds && c.Fire? ==> c == Fire(power))
  {
    var radar := LockRadarAsWritten(s, m.start, LOCK_OVERSHOOT);
    var gun := FireAt(GUN, recorded, MotionOnly, s, m, trig);
    GunCommandsLead(gun, []);
    assert forall c: Command :: c in [radar] + gun && c.Fire? ==> c in gun;
    if |gun| == 2 {
      assert gun[1] in [radar] + gun;
    }
  }

  /** bounceIfNeeded: each direction turns inwards at its margin, as seen from where the robot is. */
  function Bounced(st: BotState, me: SelfState): (r: BotState)
    requires Consistent(st, MotionOnly)
    ensures Consistent(r, MotionOnly)
  {
    st.(dirX := Bounce(me.x, me.width, st.dirX), dirY := Bounce(me.y, me.height, st.dirY))
  }

  /**
   * One pass of the run loop: the radar sweep (60 without a target, 25 with
   * one), then, from where the robot stands, the bounce, the turn onto the
   * diagonal of the new quadrant and the 200-unit drive.
   */
  function LoopOutcome(st: BotState, m: LoopMoments): Outcome
    requires Consistent(st, MotionOnly)
  {
    var bounced := Bounced(st, m.moving);
    Outcome(bounced, [TurnRadarRight(if st.currentTarget.None? then SEARCH_SWEEP else TRACK_SWEEP),
                      DiagonalTurn(bounced.dirX, bounced.dirY, m.moving.heading),
                      Ahead(DVD_STEP)])
  }

  method RunLoopPass(bot: Bot, m: LoopMoments) returns (cmds: seq<Command>)
    requires bot.Valid() && bot.Kind() == MotionOnly
    modifies bot
    ensures bot.Valid() && bot.Kind() == MotionOnly
    ensures Outcome(bot.State(), cmds) == LoopOutcome(old(bot.State()), m)
  {
    var radar := if bot.currentTarget == None then TurnRadarRight(SEARCH_SWEEP) else TurnRadarRight(TRACK_SWEEP);
    bot.SetDiagonal(Bounce(m.moving.x, m.moving.width, bot.dirX), Bounce(m.moving.y, m.moving.height, bot.dirY));
    cmds := [radar, DiagonalTurn(bot.dirX, bot.dirY, m.moving.heading), Ahead(DVD_STEP)];
  }

  /**
   * A pass heads east after the robot reaches the west margin and west
   * after it reaches the east one, north after the south margin and south
   * after the north one, and keeps the course in between; it turns the
   * short way onto the diagonal and drives 200.
   */
  lemma LoopRule(st: BotState, m: LoopMoments)
    requires Consistent(st, MotionOnly)
    ensures var o := LoopOutcome(st, m);
      var me := m.moving;
      var course := DiagonalHeading(o.state.dirX, o.state.dirY);
      Consistent(o.state, MotionOnly)
      && |o.cmds| == 3 && o.cmds[0] == TurnRadarRight(if st.currentTarget.None? then 60.0 else 25.0)
      && o.cmds[1].TurnRight? && -180.0 <= o.cmds[1].degrees <= 180.0 && o.cmds[2] == Ahead(200.0)
      && (me.x <= DVD_MARGIN ==> 0.0 < course < 180.0)
      && (DVD_MARGIN < me.x && me.x >= me.width - DVD_MARGIN ==> !(0.0 < course < 180.0))
      && (me.y <= DVD_MARGIN ==> course < 90.0 || course > 270.0)
      && (DVD_MARGIN < me.y && me.y >= me.height - DVD_MARGIN ==> !(course < 90.0 || course > 270.0))
      && (DVD_MARGIN < me.x < me.width - DVD_MARGIN && DVD_MARGIN < me.y < me.height - DVD_MARGIN ==>
            o.state == st)
  {
    var o := LoopOutcome(st, m);
    DiagonalHeadingQuadrant(o.state.dirX, o.state.dirY);
  }

  /** run() opens with setDiagonalHeading for the initial course (1, 1): the turn onto north-east. */
  function Opening(me: SelfState): Command
  {
    DiagonalTurn(1, 1, me.heading)
  }

  /** onHitWall: both directions reversed, the turn onto the new diagonal and a 150-unit drive. */
  function HitWall(st: BotState, me: SelfState): Outcome
    requires Consistent(st, MotionOnly)
  {
    Outcome(st.(dirX := -st.dirX, dirY := -st.dirY), [DiagonalTurn(-st.dirX, -st.dirY, me.heading), Ahead(WALL_DRIVE)])
  }

  method OnHitWall(bot: Bot, me: SelfState) returns (cmds: seq<Command>)
    requires bot.Valid() && bot.Kind() == MotionOnly
    modifies bot
    ensures bot.Valid() && bot.Kind() == MotionOnly
    ensures Outcome(bot.State(), cmds) == HitWall(old(bot.State()), me)
  {
    bot.SetDiagonal(-bot.dirX, -bot.dirY);
    cmds := [DiagonalTurn(bot.dirX, bot.dirY, me.heading), Ahead(WALL_DRIVE)];
  }

  /**
   * Hitting a wall reverses the course: the new diagonal heading lies
   * exactly opposite the old one, the directions stay in {-1, 1}, and the
   * robot turns the short way onto it and drives 150.
   */
  lemma HitWallReverses(st: BotState, me: SelfState)
    requires Consistent(st, MotionOnly)
    ensures var o := HitWall(st, me);
      Consistent(o.state, MotionOnly)
      && Abs(DiagonalHeading(o.state.dirX, o.state.dirY) - DiagonalHeading(st.dirX, st.dirY)) == 180.0
      && |o.cmds| == 2 && o.cmds[0].TurnRight? && -180.0 <= o.cmds[0].degrees <= 180.0
      && o.cmds[1] == Ahead(150.0)
  {
    DiagonalHeadingQuadrant(st.dirX, st.dirY);
  }
}
