/**
 * ChutluV9: every sighting rebuilds the record (carrying heading and
 * position over), clears the history when the sighted robot is not the
 * last-scanned one, and takes the sighted robot as the target when there is
 * none or when it is nearer. The radar locks with the raw-sign 5-degree
 * overshoot (Handlers.LockRadarAsWritten), the gun fires at it under an 18-degree post-turn allowance, and a detected shot
 * triggers a 60-unit perpendicular dodge. With no target the run loop tours
 * the four corners in 120-unit steps; with one it strafes.
 */
module ChutluV9 {
  import opened Common
  import opened Angles
  import opened Host
  import opened Tracks
  import opened History
  import opened Targeting
  import opened Gunnery
  import opened Radar
  import opened Movement
  import opened Engine
  import opened Handlers

  const GUN: Gun := Gun(Tiered,
                        Predictor(WallSpinSpeed(true), 1.4, RingWindow(Some(5)), None),
                        Gate(Cold, true, AfterTurn(Within(18.0))))

  /** lastTarget kept, heading and position carried over, the nearer robot taken, energy noted. */
  const SIGHTING: Sighting := Sighting(true, CarryHeadingAndPosition, true, true)

  /** The radar lock's overshoot. */
  const LOCK_OVERSHOOT: real := 5.0

  /** The distance of the shot dodge. */
  const DODGE_DISTANCE: real := 60.0

  /** MARGIN: how far in from the walls the corner tour turns. */
  const MARGIN: real := 18.0

  /** The radar sweep between steps while there is no target, and while there is one. */
  const SEARCH_SWEEP: real := 60.0
  const TRACK_SWEEP: real := 20.0

  /**
   * The rest of onScannedRobot once the sighting is recorded: the radar
   * lock, the fire control against the sighted robot, and the dodge of a
   * shot the drop reveals.
   */
  function Engage(recorded: BotState, s: Scan, m: Moments, drop: real, trig: Trig): Outcome
    requires Consistent(recorded, Full) && s.name in recorded.tracks
  {
    var dodged := Dodge(recorded, s, FromTenth, drop, DODGE_DISTANCE, m.settled.time);
    Outcome(dodged.state, [LockRadarAsWritten(s, m.start, LOCK_OVERSHOOT)] + FireAt(GUN, recorded, Full, s, m, trig) + dodged.cmds)
  }

  /** onScannedRobot as a function of the state before the event. */
  function ScanOutcome(st: BotState, s: Scan, m: Moments, trig: Trig): Outcome
    requires Consistent(st, Full)
  {
    Engage(Prepared(st, Full, s, m, trig, SIGHTING), s, m, st.lastEnemyEnergy - s.energy, trig)
  }

  method EngageStep(bot: Bot, s: Scan, m: Moments, drop: real, trig: Trig) returns (cmds: seq<Command>)
    requires bot.Valid() && bot.Kind() == Full && s.name in bot.enemies
    modifies bot
    ensures bot.Valid()
    ensures Outcome(bot.State(), cmds) == Engage(old(bot.State()), s, m, drop, trig)
  {
    var radar := LockRadarAsWritten(s, m.start, LOCK_OVERSHOOT);
    var fired := FireStep(bot, GUN, s, m, trig);
    var dodged := DodgeStep(bot, s, FromTenth, drop, DODGE_DISTANCE, m.settled.time);
    cmds := [radar] + fired + dodged;
  }

  /** onScannedRobot: take the sighting in, record it, lock the radar, fire, dodge. */
  method OnScannedRobot(bot: Bot, s: Scan, m: Moments, trig: Trig) returns (cmds: seq<Command>)
    requires bot.Valid() && bot.Kind() == Full
    modifies bot, bot.headings, bot.velocities, bot.xs, bot.ys
    ensures bot.Valid()
    ensures Outcome(bot.State(), cmds) ==
              Engage(Prepared(old(bot.State()), Full, s, m, trig, SIGHTING), s, m, old(bot.lastEnemyEnergy) - s.energy, trig)
  {
    var drop := bot.lastEnemyEnergy - s.energy;
    PrepareStep(bot, s, m, trig, SIGHTING);
    cmds := EngageStep(bot, s, m, drop, trig);
  }

  /**
   * The sighting as taken in: the record is rebuilt from the scan with the
   * old heading and position as the previous snapshot, the sighted robot
   * becomes lastTarget, its energy is noted, and it becomes the target
   * exactly when there is none, the target's record is gone, or it is
   * strictly nearer than the target.
   */
  lemma ScanTargetRule(st: BotState, s: Scan, m: Moments, trig: Trig)
    requires Consistent(st, Full)
    ensures var o := ScanOutcome(st, s, m, trig);
      var e := o.state.tracks[s.name];
      Consistent(o.state, Full)
      && o.state.lastTarget == Some(s.name) && o.state.lastEnemyEnergy == s.energy
      && o.state.tracks.Keys == st.tracks.Keys + {s.name}
      && Reflects(e, s, m.start, trig)
      && (s.name in st.tracks ==> e.lastHeading == st.tracks[s.name].heading
                                  && e.lastX == st.tracks[s.name].x && e.lastY == st.tracks[s.name].y)
      && (st.currentTarget != Some(s.name) ==>
            (o.state.currentTarget == Some(s.name) <==>
               st.currentTarget.None? || st.currentTarget.value !in o.state.tracks
               || e.distance < o.state.tracks[st.currentTarget.value].distance))
      && (st.currentTarget == Some(s.name) ==> o.state.currentTarget == Some(s.name))
  {
    var noted := Noted(st, Full, s, SIGHTING);
    var pre := Prepared(st, Full, s, m, trig, SIGHTING);
    EngageKeepsTracks(pre, s, m, st.lastEnemyEnergy - s.energy, trig);
    if st.currentTarget != Some(s.name) {
      NearerTargetReasons(st.currentTarget, s.name, pre.tracks[s.name], pre.tracks);
    }
  }

  /** The dodge changes only the movement fields: the records, the target and lastTarget stay as recorded. */
  lemma EngageKeepsTracks(recorded: BotState, s: Scan, m: Moments, drop: real, trig: Trig)
    requires Consistent(recorded, Full) && s.name in recorded.tracks
    ensures var o := Engage(recorded, s, m, drop, trig);
      Consistent(o.state, Full)
      && o.state == recorded.(moveDirection := o.state.moveDirection, lastMoveTime := o.state.lastMoveTime)
  {
  }

  /**
   * A sighting of any robot but the last-scanned one clears the history, so
   * the ring then holds only this sighting; otherwise the sighting is
   * written over the oldest slot.
   */
  lemma ScanHistoryRule(st: BotState, s: Scan, m: Moments, trig: Trig)
    requires Consistent(st, Full)
    ensures var o := ScanOutcome(st, s, m, trig);
      var q := o.state.ring;
      var e := o.state.tracks[s.name];
      if st.lastTarget.Some? && st.lastTarget.value != s.name then
        q.index == 1 && q.heading[0] == s.heading && q.velocity[0] == s.velocity && q.xs[0] == e.x && q.ys[0] == e.y
        && forall i :: 1 <= i < SLOTS ==> q.heading[i] == 0.0 && q.velocity[i] == 0.0 && q.xs[i] == 0.0 && q.ys[i] == 0.0
      else
        q == Recorded(st.ring, s.heading, s.velocity, e.x, e.y)
  {
    var sighted := Sight(st, Full, s, m, trig, SIGHTING);
    var pre := Prepared(st, Full, s, m, trig, SIGHTING);
    EngageKeepsTracks(pre, s, m, st.lastEnemyEnergy - s.energy, trig);
    OneSampleAfterReset(st.ring, s.heading, s.velocity, sighted.tracks[s.name].x, sighted.tracks[s.name].y);
  }

  /**
   * The gun of one sighting, once it is recorded: the radar lock comes
   * first, with the raw-sign 5-degree overshoot, the gun turn follows, and it
   * fires (once, at the tiered power) exactly when the gun is cold, own
   * energy after the turn exceeds the power, the robot has energy and the
   * residual after the turn is under 18 degrees.
   */
  lemma EngageFireRule(recorded: BotState, s: Scan, m: Moments, drop: real, trig: Trig)
    requires Consistent(recorded, Full) && s.name in recorded.tracks
    ensures var o := Engage(recorded, s, m, drop, trig);
      var e := recorded.tracks[s.name];
      var power := BulletPower(Tiered, e.distance, e.energy, m.aim.energy);
      var aim := AimDegrees(GUN, recorded.ring, e, m.aim, trig);
      o.cmds[0] == LockRadarAsWritten(s, m.start, LOCK_OVERSHOOT)
      && o.cmds[1] == TurnGunRight(NormalizeBearing(aim - m.aim.gunHeading))
      && ((exists c :: c in o.cmds && c.Fire?) <==>
            m.turned.gunHeat == 0.0 && m.turned.energy > power && e.energy > 0.0
            && Abs(NormalizeBearing(aim - m.turned.gunHeading)) < 18.0)
      && (forall c :: c in o.cmds && c.Fire? ==> c == Fire(power))
  {
    var dodged := Dodge(recorded, s, FromTenth, drop, DODGE_DISTANCE, m.settled.time);
    var gun := FireAt(GUN, recorded, Full, s, m, trig);
    var radar := LockRadarAsWritten(s, m.start, LOCK_OVERSHOOT);
    GunCommandsLead(gun, dodged.cmds);
    assert [radar] + gun + dodged.cmds == [radar] + (gun + dodged.cmds);
    if |gun| == 2 {
      assert gun[1] in [radar] + (gun + dodged.cmds);
    }
    assert forall c :: c in [radar] + (gun + dodged.cmds) && c.Fire? ==> c in gun + dodged.cmds;
  }

  /**
   * The dodge of one sighting, once it is recorded: a drop in [0.1, 3]
   * flips moveDirection, notes the time and ends the calls with the
   * 60-unit turn square to the robot; any other drop leaves the state as
   * recorded and the calls to the radar and the gun.
   */
  lemma EngageDodgeRule(recorded: BotState, s: Scan, m: Moments, drop: real, trig: Trig)
    requires Consistent(recorded, Full) && s.name in recorded.tracks
    ensures var o := Engage(recorded, s, m, drop, trig);
      var n := |o.cmds|;
      if 0.1 <= drop <= 3.0 then
        o.state.moveDirection == -recorded.moveDirection && o.state.lastMoveTime == m.settled.time
        && n >= 4 && o.cmds[n - 2..] == [TurnRight(DodgeTurn(s.bearing, -recorded.moveDirection, 0.0)), Ahead(DODGE_DISTANCE)]
      else
        o.state == recorded && forall c :: c in o.cmds[1..] ==> c.TurnGunRight? || c.Fire?
  {
    var o := Engage(recorded, s, m, drop, trig);
    var gun := FireAt(GUN, recorded, Full, s, m, trig);
    var radar := LockRadarAsWritten(s, m.start, LOCK_OVERSHOOT);
    if !(0.1 <= drop <= 3.0) {
      assert o.cmds[1..] == gun;
    }
  }

  /** The dodge of one whole sighting, with the drop measured against the shared lastEnemyEnergy. */
  lemma ScanDodgeRule(st: BotState, s: Scan, m: Moments, trig: Trig)
    requires Consistent(st, Full)
    ensures var o := ScanOutcome(st, s, m, trig);
      var n := |o.cmds|;
      if 0.1 <= st.lastEnemyEnergy - s.energy <= 3.0 then
        o.state.moveDirection == -st.moveDirection && o.state.lastMoveTime == m.settled.time
        && n >= 4 && o.cmds[n - 2..] == [TurnRight(DodgeTurn(s.bearing, -st.moveDirection, 0.0)), Ahead(DODGE_DISTANCE)]
      else
        o.state.moveDirection == st.moveDirection && o.state.lastMoveTime == st.lastMoveTime
  {
    var pre := Prepared(st, Full, s, m, trig, SIGHTING);
    assert pre.moveDirection == st.moveDirection && pre.lastMoveTime == st.lastMoveTime;
    EngageDodgeRule(pre, s, m, st.lastEnemyEnergy - s.energy, trig);
  }

  /** onRobotDeath: the nearest survivor becomes the target and the history is reset when the target dies. */
  const DEATH: DeathPolicy := Reselect(true)

  /**
   * One pass of the run loop: with no target the corner tour (bottom left,
   * top right, top left, bottom right) in steps sweeping the radar 60
   * degrees; with one the strafe, 35 degrees the current way, 120 ahead,
   * the direction flipped on a draw below 0.12, then a 20-degree sweep.
   */
  function LoopOutcome(st: BotState, legs: Legs, trig: Trig, draws: Draws): Outcome
  {
    if st.currentTarget.None? then
      Outcome(st, SteppingTour(legs, MARGIN, SEARCH_SWEEP, trig))
    else
      Outcome(st.(moveDirection := if draws.first < 0.12 then Flip(st.moveDirection) else st.moveDirection),
              [TurnRight(35.0 * st.moveDirection as real), Ahead(120.0), TurnRadarRight(TRACK_SWEEP)])
  }

  method RunLoopPass(bot: Bot, legs: Legs, trig: Trig, draws: Draws) returns (cmds: seq<Command>)
    requires bot.Valid()
    modifies bot
    ensures bot.Valid()
    ensures Outcome(bot.State(), cmds) == LoopOutcome(old(bot.State()), legs, trig, draws)
  {
    if bot.currentTarget.None? {
      cmds := SteppingTourLoops(legs, MARGIN, SEARCH_SWEEP, trig);
    } else {
      cmds := [TurnRight(35.0 * bot.moveDirection as real), Ahead(120.0)];
      if draws.first < 0.12 {
        bot.SetMoveDirection(Flip(bot.moveDirection));
      }
      cmds := cmds + [TurnRadarRight(TRACK_SWEEP)];
    }
  }

  /**
   * Without a target the pass changes nothing and each leg of the tour
   * stops within 25 of its corner without passing it; with one it turns
   * 35 degrees, drives 120, and flips moveDirection exactly on a draw
   * below 0.12, keeping it a direction.
   */
  lemma LoopRule(st: BotState, legs: Legs, trig: Trig, draws: Draws)
    requires Consistent(st, Full)
    ensures var o := LoopOutcome(st, legs, trig, draws);
      var c := Corners(legs.first.width, legs.first.height, MARGIN);
      Consistent(o.state, Full)
      && if st.currentTarget.None? then
           o.state == st
           && Arrives(AheadTotal(SteppingGoTo(legs.first, c[0], SEARCH_SWEEP, trig)), LegLength(legs.first, c[0], trig))
           && Arrives(AheadTotal(SteppingGoTo(legs.second, c[1], SEARCH_SWEEP, trig)), LegLength(legs.second, c[1], trig))
           && Arrives(AheadTotal(SteppingGoTo(legs.third, c[2], SEARCH_SWEEP, trig)), LegLength(legs.third, c[2], trig))
           && Arrives(AheadTotal(SteppingGoTo(legs.fourth, c[3], SEARCH_SWEEP, trig)), LegLength(legs.fourth, c[3], trig))
         else
           AheadTotal(o.cmds) == 120.0 && Abs(o.cmds[0].degrees) == 35.0
           && (o.state.moveDirection != st.moveDirection <==> draws.first < 0.12)
  {
    if st.currentTarget.None? {
      SteppingTourArrives(legs, MARGIN, SEARCH_SWEEP, trig);
    } else {
      var o := LoopOutcome(st, legs, trig, draws);
      var tail := [TurnRadarRight(TRACK_SWEEP)];
      assert tail[1..] == [];
      assert AheadTotal(tail) == 0.0;
      assert o.cmds[1..] == [Ahead(120.0)] + tail;
      assert o.cmds[1..][1..] == tail;
    }
  }
}
