/**
 * ApexusBot: the ChutluV10V3 engine without a movement history. Records are
 * updated in place, the switch rule and the doubling radar lock are the
 * same, the shot dodge is the same 30-unit step, and the gun aims at a fixed
 * 0.6 / 0.4 mix of the linear and circular estimates with the circular turn
 * rate taken from the record's own previous heading.
 */
module ApexusBot {
  import opened Common
  import opened Angles
  import opened Host
  import opened Tracks
  import opened Targeting
  import opened Gunnery
  import opened Radar
  import opened Movement
  import opened Engine
  import ChutluV10V3

  const GUN: Gun := Gun(Tiered,
                        Predictor(FixedMix, 1.4, TrackDelta, Some(50.0)),
                        Gate(Cold, true, AfterTurn(ByRange)))

  /** executeSmoothMovement without the wall-hugger bands, capped at 60. */
  const SMOOTH: SmoothConfig := SmoothConfig(false, Some(60.0))

  /** run() opens with GoToWall(start, WALL_MARGIN): the point 175 off the nearest wall. */
  const WALL_MARGIN: real := 175.0

  /** The sighting updates the record, the switch rule may retarget, and the sighted robot becomes lastTarget. */
  function Retarget(st: BotState, s: Scan, m: Moments, trig: Trig): (pre: BotState)
    requires Consistent(st, NoRing)
    ensures Consistent(pre, NoRing) && s.name in pre.tracks
  {
    var tracks := Sighted(st.tracks, s, m.start, trig);
    var switching := ShouldSwitchTarget(st.currentTarget, s.name, tracks[s.name], tracks, m.start.time);
    st.(tracks := tracks,
        currentTarget := if switching then Some(s.name) else st.currentTarget,
        lastTarget := Some(s.name))
  }

  /** onScannedRobot as a function of the state before the event. */
  function ScanOutcome(st: BotState, s: Scan, m: Moments, trig: Trig): Outcome
    requires Consistent(st, NoRing)
  {
    var pre := Retarget(st, s, m, trig);
    var dodged := ChutluV10V3.LockAndDodge(pre, s, m);
    var enemy := pre.tracks[s.name];
    var fire := if pre.currentTarget == Some(s.name) then FireCommands(GUN, pre.ring, enemy, m.aim, m.turned, trig) else [];
    Outcome(dodged.state, dodged.cmds + fire)
  }

  method RetargetStep(bot: Bot, s: Scan, m: Moments, trig: Trig)
    requires bot.Valid() && bot.Kind() == NoRing
    modifies bot, bot.enemies.Values
    ensures bot.Valid() && s.name in bot.enemies
    ensures bot.State() == Retarget(old(bot.State()), s, m, trig)
  {
    var enemy := bot.ObserveInPlace(s, m.start, trig);
    if ShouldSwitchTarget(bot.currentTarget, s.name, enemy, bot.Tracks(), m.start.time) {
      bot.SetTarget(Some(s.name));
    }
    bot.SetLastTarget(Some(s.name));
  }

  /** onScannedRobot: update the record, retarget, lock, dodge, fire. */
  method OnScannedRobot(bot: Bot, s: Scan, m: Moments, trig: Trig) returns (cmds: seq<Command>)
    requires bot.Valid() && bot.Kind() == NoRing
    modifies bot, bot.enemies.Values
    ensures bot.Valid()
    ensures Outcome(bot.State(), cmds) == ScanOutcome(old(bot.State()), s, m, trig)
  {
    RetargetStep(bot, s, m, trig);
    var enemy := bot.enemies[s.name].Value();
    var locked := bot.currentTarget == Some(s.name);
    var dodged := ChutluV10V3.LockAndDodgeStep(bot, s, m);
    var fire := if locked then FireCommands(GUN, bot.HistoryRing(), enemy, m.aim, m.turned, trig) else [];
    cmds := dodged + fire;
  }

  /**
   * The target rule of a sighting: the target is kept or becomes the
   * sighted robot, and it becomes the sighted robot exactly on one of the
   * switch rule's reasons.
   */
  lemma ScanTargetRule(st: BotState, s: Scan, m: Moments, trig: Trig)
    requires Consistent(st, NoRing)
    ensures var o := ScanOutcome(st, s, m, trig);
      var c := st.currentTarget;
      Consistent(o.state, NoRing) && o.state.lastTarget == Some(s.name)
      && (o.state.currentTarget == c || o.state.currentTarget == Some(s.name))
      && (c.None? || c.value == s.name || c.value !in st.tracks ==> o.state.currentTarget == Some(s.name))
      && (c.Some? && c.value != s.name && c.value in st.tracks ==>
            (o.state.currentTarget == Some(s.name) <==>
               m.start.time - st.tracks[c.value].time > STALE_TICKS || s.distance + SWITCH_MARGIN < st.tracks[c.value].distance))
  {
    var tracks := Sighted(st.tracks, s, m.start, trig);
    SwitchReasons(st.currentTarget, s.name, tracks[s.name], tracks, m.start.time);
  }

  /**
   * The dodge and the gun: moveDirection flips exactly when the target's
   * energy fell by more than 0.1 and at most 3, and the gun fires only at
   * the target, with at most 3 and at most the energy left.
   */
  lemma ScanDodgeAndFire(st: BotState, s: Scan, m: Moments, trig: Trig)
    requires Consistent(st, NoRing)
    ensures var o := ScanOutcome(st, s, m, trig);
      var drop := if s.name in st.tracks then st.tracks[s.name].energy - s.energy else 0.0;
      (o.state.moveDirection != st.moveDirection <==> o.state.currentTarget == Some(s.name) && 0.1 < drop <= 3.0)
      && (forall c :: c in o.cmds && c.Fire? ==>
            o.state.currentTarget == Some(s.name) && c.power <= 3.0 && c.power <= m.turned.energy)
  {
    var pre := Retarget(st, s, m, trig);
    assert pre.tracks[s.name].lastEnergy - pre.tracks[s.name].energy
        == if s.name in st.tracks then st.tracks[s.name].energy - s.energy else 0.0;
    var dodged := ChutluV10V3.LockAndDodge(pre, s, m);
    assert forall c :: c in dodged.cmds ==> !c.Fire?;
  }

  /** onRobotDeath: the nearest survivor becomes the target when the target dies; nothing is reset. */
  const DEATH: DeathPolicy := Reselect(false)

  /** keepRadarOnTarget and executeSmoothMovement for a tracked target (turn 20 and drive 80 without one). */
  function TrackAndMove(st: BotState, m: LoopMoments, trig: Trig, draws: Draws): Outcome
  {
    if st.currentTarget.Some? && st.currentTarget.value in st.tracks then
      var e := st.tracks[st.currentTarget.value];
      var steer := SmoothMovement(SMOOTH, m.moving, e, false, st.moveDirection, trig, draws);
      var radar := TurnRadarRight(SwitchingLockTurn(ToDegrees(AimAt((e.x, e.y), m.start, trig)) - m.start.radarHeading,
                                                    m.start.others, ChutluV10V3.KEEP_OVERSHOOT));
      Outcome(st.(moveDirection := if steer.flip then Flip(st.moveDirection) else st.moveDirection),
              [radar] + steer.cmds)
    else
      Outcome(st, [TurnRight(20.0), Ahead(80.0)])
  }

  /** One pass of the run loop: track and move, then the sweep rule. */
  function LoopOutcome(st: BotState, m: LoopMoments, trig: Trig, draws: Draws): Outcome
  {
    var moved := TrackAndMove(st, m, trig, draws);
    var swept := ChutluV10V3.SweepOutcome(moved.state, m.swept);
    Outcome(swept.state, moved.cmds + swept.cmds)
  }

  method TrackAndMoveStep(bot: Bot, m: LoopMoments, trig: Trig, draws: Draws) returns (cmds: seq<Command>)
    requires bot.Valid()
    modifies bot
    ensures bot.Valid()
    ensures Outcome(bot.State(), cmds) == TrackAndMove(old(bot.State()), m, trig, draws)
  {
    if bot.currentTarget.Some? && bot.currentTarget.value in bot.enemies {
      var e := bot.enemies[bot.currentTarget.value].Value();
      var radar := TurnRadarRight(SwitchingLockTurn(ToDegrees(AimAt((e.x, e.y), m.start, trig)) - m.start.radarHeading,
                                                    m.start.others, ChutluV10V3.KEEP_OVERSHOOT));
      var steer := SmoothMovement(SMOOTH, m.moving, e, false, bot.moveDirection, trig, draws);
      cmds := [radar] + steer.cmds;
      if steer.flip {
        bot.SetMoveDirection(Flip(bot.moveDirection));
      }
    } else {
      cmds := [TurnRight(20.0), Ahead(80.0)];
    }
  }

  method RunLoopPass(bot: Bot, m: LoopMoments, trig: Trig, draws: Draws) returns (cmds: seq<Command>)
    requires bot.Valid()
    modifies bot
    ensures bot.Valid()
    ensures Outcome(bot.State(), cmds) == LoopOutcome(old(bot.State()), m, trig, draws)
  {
    var moved := TrackAndMoveStep(bot, m, trig, draws);
    var swept := ChutluV10V3.SweepStep(bot, m.swept);
    cmds := moved + swept;
  }

  /**
   * A pass of the run loop moves at most 60 after turning at most 90
   * degrees when it has a tracked target, keeps every other field but
   * moveDirection and the sweep time, and flips only on a draw below 0.15.
   */
  lemma LoopMovesWithinCap(st: BotState, m: LoopMoments, trig: Trig, draws: Draws)
    ensures var o := LoopOutcome(st, m, trig, draws);
      var tracked := st.currentTarget.Some? && st.currentTarget.value in st.tracks;
      o.state.(moveDirection := st.moveDirection, lastRadarSweepTime := st.lastRadarSweepTime) == st
      && (o.state.moveDirection != st.moveDirection ==> tracked && draws.second < 0.15)
      && (tracked ==> |o.cmds| >= 3 && Abs(o.cmds[1].degrees) <= 90.0 && o.cmds[2].distance <= 60.0)
  {
    if st.currentTarget.Some? && st.currentTarget.value in st.tracks {
      SmoothMovementShape(SMOOTH, m.moving, st.tracks[st.currentTarget.value], false, st.moveDirection, trig, draws);
    }
  }
}
