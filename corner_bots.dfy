/**
 * The handlers ChutluV10, ChutluV6 and ChutluV17 share: every sighting
 * clears the history when the sighted robot is not the last-scanned one,
 * rebuilds its record, makes it the target, locks the radar with the raw-sign 5-degree
 * overshoot (Handlers.LockRadarAsWritten), writes the history and runs fire control against it. The run loop
 * sweeps the radar and drives an X across the field between corners margin
 * in from the walls. They differ in what the fresh record carries over and
 * whether the energy is noted (the sighting), their gun, the margin and
 * what a target's death does; those are parameters here.
 */
module CornerBots {
  import opened Common
  import opened Angles
  import opened Host
  import opened Tracks
  import opened History
  import opened Targeting
  import opened Gunnery
  import opened Radar
  import opened Movement
  import opened Engine
  import opened Handlers

  /** The sighting of ChutluV10 and ChutluV6: lastTarget kept, heading and position carried over, the sighted robot always taken, energy noted. */
  const SIGHTING: Sighting := Sighting(true, CarryHeadingAndPosition, false, true)

  /** The radar lock's overshoot. */
  const LOCK_OVERSHOOT: real := 5.0

  /** The run loop's radar sweep without a target, and with one. */
  const SEARCH_SWEEP: real := 45.0
  const TRACK_SWEEP: real := 20.0

  /** The calls of a recorded sighting: the radar lock, then fire control. */
  function Aim(gun: Gun, recorded: BotState, s: Scan, m: Moments, trig: Trig): (cmds: seq<Command>)
    requires Consistent(recorded, Full) && s.name in recorded.tracks
  {
    [LockRadarAsWritten(s, m.start, LOCK_OVERSHOOT)] + FireAt(gun, recorded, Full, s, m, trig)
  }

  /** onScannedRobot as a function of the state before the event. */
  function ScanOutcome(gun: Gun, p: Sighting, st: BotState, s: Scan, m: Moments, trig: Trig): Outcome
    requires Consistent(st, Full)
  {
    var recorded := Prepared(st, Full, s, m, trig, p);
    Outcome(recorded, Aim(gun, recorded, s, m, trig))
  }

  /** onScannedRobot: take the sighting in, lock the radar, record, fire. */
  method OnScannedRobot(bot: Bot, gun: Gun, p: Sighting, s: Scan, m: Moments, trig: Trig) returns (cmds: seq<Command>)
    requires bot.Valid() && bot.Kind() == Full
    modifies bot, bot.headings, bot.velocities, bot.xs, bot.ys
    ensures bot.Valid()
    ensures Outcome(bot.State(), cmds) == ScanOutcome(gun, p, old(bot.State()), s, m, trig)
  {
    PrepareStep(bot, s, m, trig, p);
    var radar := LockRadarAsWritten(s, m.start, LOCK_OVERSHOOT);
    var fired := FireStep(bot, gun, s, m, trig);
    cmds := [radar] + fired;
  }

  /**
   * Under the sighting of ChutluV10 and ChutluV6, every sighting makes the
   * sighted robot both the target and lastTarget, rebuilds its record from
   * the scan with the old heading and position as the previous snapshot,
   * leaves the other records alone, notes its energy, and keeps the
   * movement fields.
   */
  lemma ScanTakesSighted(gun: Gun, st: BotState, s: Scan, m: Moments, trig: Trig)
    requires Consistent(st, Full)
    ensures var o := ScanOutcome(gun, SIGHTING, st, s, m, trig);
      var e := o.state.tracks[s.name];
      Consistent(o.state, Full)
      && o.state.currentTarget == Some(s.name) && o.state.lastTarget == Some(s.name)
      && o.state.lastEnemyEnergy == s.energy
      && o.state.tracks.Keys == st.tracks.Keys + {s.name}
      && (forall n :: n in st.tracks && n != s.name ==> o.state.tracks[n] == st.tracks[n])
      && Reflects(e, s, m.start, trig)
      && (s.name in st.tracks ==> e.lastHeading == st.tracks[s.name].heading
                                  && e.lastX == st.tracks[s.name].x && e.lastY == st.tracks[s.name].y)
      && o.state.moveDirection == st.moveDirection && o.state.lastMoveTime == st.lastMoveTime
  {
  }

  /**
   * A sighting of any robot but the last-scanned one clears the history, so
   * the ring then holds only this sighting; otherwise the sighting is
   * written over the oldest slot.
   */
  lemma ScanHistoryRule(gun: Gun, p: Sighting, st: BotState, s: Scan, m: Moments, trig: Trig)
    requires Consistent(st, Full) && p.keepsLast
    ensures var o := ScanOutcome(gun, p, st, s, m, trig);
      var q := o.state.ring;
      var e := o.state.tracks[s.name];
      if st.lastTarget.Some? && st.lastTarget.value != s.name then
        q.index == 1 && q.heading[0] == s.heading && q.velocity[0] == s.velocity && q.xs[0] == e.x && q.ys[0] == e.y
        && forall i :: 1 <= i < SLOTS ==> q.heading[i] == 0.0 && q.velocity[i] == 0.0 && q.xs[i] == 0.0 && q.ys[i] == 0.0
      else
        q == Recorded(st.ring, s.heading, s.velocity, e.x, e.y)
  {
    var sighted := Sight(st, Full, s, m, trig, p);
    OneSampleAfterReset(st.ring, s.heading, s.velocity, sighted.tracks[s.name].x, sighted.tracks[s.name].y);
  }

  /**
   * The calls of a recorded sighting: the radar lock with the raw-sign 5-degree
   * overshoot, the gun turns by the normalised aim, and the chosen power is
   * fired once exactly when the gun's gate opens after the turn.
   */
  lemma AimRule(gun: Gun, recorded: BotState, s: Scan, m: Moments, trig: Trig)
    requires Consistent(recorded, Full) && s.name in recorded.tracks
    ensures var cmds := Aim(gun, recorded, s, m, trig);
      var e := recorded.tracks[s.name];
      var power := BulletPower(gun.power, e.distance, e.energy, m.aim.energy);
      var aim := AimDegrees(gun, recorded.ring, e, m.aim, trig);
      (|cmds| == 2 || |cmds| == 3)
      && cmds[0] == LockRadarAsWritten(s, m.start, LOCK_OVERSHOOT)
      && cmds[1] == TurnGunRight(NormalizeBearing(aim - m.aim.gunHeading))
      && (|cmds| == 3 <==> GateOpen(gun.gate, m.turned, e, power, cmds[1].degrees, NormalizeBearing(aim - m.turned.gunHeading)))
      && (|cmds| == 3 ==> cmds[2] == Fire(power))
  {
  }

  /** One pass of the run loop: the radar sweep, then the four legs of the X, each turn-and-drive. */
  function LoopCommands(st: BotState, margin: real, legs: Legs, trig: Trig): seq<Command>
  {
    [TurnRadarRight(if st.currentTarget.None? then SEARCH_SWEEP else TRACK_SWEEP)] + CornerTour(legs, margin, trig)
  }

  method RunLoopPass(bot: Bot, margin: real, legs: Legs, trig: Trig) returns (cmds: seq<Command>)
    requires bot.Valid()
    ensures cmds == LoopCommands(bot.State(), margin, legs, trig)
  {
    if bot.currentTarget == None {
      cmds := [TurnRadarRight(SEARCH_SWEEP)];
    } else {
      cmds := [TurnRadarRight(TRACK_SWEEP)];
    }
    var c := Corners(legs.first.width, legs.first.height, margin);
    cmds := cmds + GoToCommands(legs.first, c[0], trig) + GoToCommands(legs.second, c[1], trig);
    cmds := cmds + GoToCommands(legs.third, c[2], trig) + GoToCommands(legs.fourth, c[3], trig);
  }

  /**
   * A pass sweeps the radar 45 degrees without a target and 20 with one,
   * then turns the short way towards each corner in turn and drives the
   * whole way there: nine calls, driving the sum of the four legs.
   */
  lemma LoopRule(st: BotState, margin: real, legs: Legs, trig: Trig)
    ensures var cmds := LoopCommands(st, margin, legs, trig);
      var c := Corners(legs.first.width, legs.first.height, margin);
      |cmds| == 9
      && cmds[0] == TurnRadarRight(if st.currentTarget.None? then 45.0 else 20.0)
      && (forall i :: 1 <= i < 9 && i % 2 == 1 ==> cmds[i].TurnRight? && -180.0 <= cmds[i].degrees <= 180.0)
      && AheadTotal(cmds) == LegLength(legs.first, c[0], trig) + LegLength(legs.second, c[1], trig)
                            + LegLength(legs.third, c[2], trig) + LegLength(legs.fourth, c[3], trig)
  {
    var tour := CornerTour(legs, margin, trig);
    CornerTourDrives(legs, margin, trig);
    var radar := [TurnRadarRight(if st.currentTarget.None? then SEARCH_SWEEP else TRACK_SWEEP)];
    AheadTotalAppend(radar, tour);
    assert radar[1..] == [];
    assert forall i :: 1 <= i < 9 ==> (radar + tour)[i] == tour[i - 1];
  }
}
