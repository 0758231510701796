/**
 * The stages onScannedRobot is built from in several variants, each as a
 * function on BotState and a step method on Bot proved to follow it: the
 * history write of a sighting, fireControlSystem against the sighted
 * robot, the perpendicular dodge of a detected shot, and the smooth
 * movement behind a cooldown.
 */
module Handlers {
  import opened Common
  import opened Angles
  import opened Host
  import opened Tracks
  import opened History
  import opened Targeting
  import opened Gunnery
  import opened Radar
  import opened Movement
  import opened Engine

  /**
   * How a variant takes in a sighting before it turns anything: whether it
   * keeps lastTarget (clearing the history when the sighted robot is
   * another), what the fresh record carries over from the old one, whether
   * the target becomes the sighted robot only when it is nearer, and
   * whether the sighted energy is noted in the shared lastEnemyEnergy.
   */
  datatype Sighting = Sighting(keepsLast: bool, carry: Carry, nearer: bool, notesEnergy: bool)

  /** The opening of onScannedRobot: history reset, lastTarget, the fresh record, the target, lastEnemyEnergy. */
  function Sight(st: BotState, k: RingKind, s: Scan, m: Moments, trig: Trig, p: Sighting): (pre: BotState)
    requires Consistent(st, k)
    ensures Consistent(pre, k) && s.name in pre.tracks
  {
    Observed(Noted(st, k, s, p), s, m, trig, p)
  }

  /** The history reset when the sighted robot is not lastTarget, and lastTarget noted, for variants that keep it. */
  function Noted(st: BotState, k: RingKind, s: Scan, p: Sighting): (r: BotState)
    requires Consistent(st, k)
    ensures Consistent(r, k)
  {
    if p.keepsLast then
      st.(lastTarget := Some(s.name),
          ring := if st.lastTarget.Some? && st.lastTarget.value != s.name then Cleared(st.ring) else st.ring)
    else st
  }

  /** The fresh record of the sighted robot, the target rule, and lastEnemyEnergy. */
  function Observed(st: BotState, s: Scan, m: Moments, trig: Trig, p: Sighting): (r: BotState)
    ensures s.name in r.tracks && r.ring == st.ring
    ensures r.moveDirection == st.moveDirection && r.dirX == st.dirX && r.dirY == st.dirY
  {
    var tracks := Replaced(st.tracks, s, m.start, trig, p.carry);
    st.(tracks := tracks,
        currentTarget := if p.nearer then NearerTarget(st.currentTarget, s.name, tracks[s.name], tracks) else Some(s.name),
        lastEnemyEnergy := if p.notesEnergy then s.energy else st.lastEnemyEnergy)
  }

  method NoteStep(bot: Bot, s: Scan, p: Sighting)
    requires bot.Valid()
    modifies bot, bot.headings, bot.velocities, bot.xs, bot.ys
    ensures bot.Valid()
    ensures bot.State() == Noted(old(bot.State()), bot.Kind(), s, p)
  {
    if p.keepsLast {
      if bot.lastTarget.Some? && bot.lastTarget.value != s.name {
        bot.ResetHistory();
      }
      bot.SetLastTarget(Some(s.name));
    }
  }

  method ObserveStep(bot: Bot, s: Scan, m: Moments, trig: Trig, p: Sighting)
    requires bot.Valid()
    modifies bot
    ensures bot.Valid() && s.name in bot.enemies
    ensures bot.State() == Observed(old(bot.State()), s, m, trig, p)
  {
    var enemy := bot.ObserveReplacing(s, m.start, trig, p.carry);
    if p.nearer {
      bot.SetTarget(NearerTarget(bot.currentTarget, s.name, enemy, bot.Tracks()));
    } else {
      bot.SetTarget(Some(s.name));
    }
    if p.notesEnergy {
      bot.SetLastEnemyEnergy(s.energy);
    }
    assert s.name in bot.Tracks();
  }

  method SightStep(bot: Bot, s: Scan, m: Moments, trig: Trig, p: Sighting)
    requires bot.Valid()
    modifies bot, bot.headings, bot.velocities, bot.xs, bot.ys
    ensures bot.Valid() && s.name in bot.enemies
    ensures bot.State() == Sight(old(bot.State()), bot.Kind(), s, m, trig, p)
  {
    NoteStep(bot, s, p);
    ObserveStep(bot, s, m, trig, p);
  }

  /** The sighting taken in and written into the history. */
  function Prepared(st: BotState, k: RingKind, s: Scan, m: Moments, trig: Trig, p: Sighting): (recorded: BotState)
    requires Consistent(st, k) && k != NoRing
    ensures Consistent(recorded, k) && s.name in recorded.tracks
  {
    Record(Sight(st, k, s, m, trig, p), k, s)
  }

  method PrepareStep(bot: Bot, s: Scan, m: Moments, trig: Trig, p: Sighting)
    requires bot.Valid() && bot.Kind() != NoRing
    modifies bot, bot.headings, bot.velocities, bot.xs, bot.ys
    ensures bot.Valid() && s.name in bot.enemies
    ensures bot.State() == Prepared(old(bot.State()), bot.Kind(), s, m, trig, p)
  {
    SightStep(bot, s, m, trig, p);
    RecordStep(bot, s);
  }

  /**
   * The radar lock of onScannedRobot, as corrected: the normalised
   * difference between the sighted robot's absolute bearing and the radar
   * heading, extended by overshoot in its own direction. Whenever the
   * overshoot fits in the half turn the radar sweeps exactly overshoot
   * degrees past the robot.
   */
  function LockRadar(s: Scan, me: SelfState, overshoot: real): (cmd: Command)
    ensures cmd.TurnRadarRight? && -180.0 <= cmd.degrees <= 180.0
    ensures var target := NormalizeBearing(me.heading + s.bearing - me.radarHeading);
      overshoot > 0.0 && Abs(target) + overshoot <= 180.0 ==>
        PassesTarget(target, cmd.degrees) && Abs(cmd.degrees - target) == overshoot
  {
    var raw := me.heading + s.bearing - me.radarHeading;
    LockTurnPassesTarget(raw, overshoot);
    TurnRadarRight(LockTurn(raw, overshoot))
  }

  /**
   * The radar lock of onScannedRobot as the raw-sign variants write it: the
   * overshoot takes the sign of the unnormalised difference heading +
   * bearing - radarHeading, and only the sum is normalised.
   */
  function LockRadarAsWritten(s: Scan, me: SelfState, overshoot: real): (cmd: Command)
    ensures cmd.TurnRadarRight? && -180.0 <= cmd.degrees <= 180.0
  {
    TurnRadarRight(RawSignLockTurn(me.heading + s.bearing - me.radarHeading, overshoot))
  }

  /**
   * The raw-sign lock is the corrected lock while the unnormalised
   * difference lies in [-180, 180]; beyond it, up to a full turn either
   * way, the radar stops overshoot degrees short of the robot instead of
   * passing it.
   */
  lemma LockRadarAsWrittenFallsShort(s: Scan, me: SelfState, overshoot: real)
    ensures -180.0 <= me.heading + s.bearing - me.radarHeading <= 180.0 ==>
      LockRadarAsWritten(s, me, overshoot) == LockRadar(s, me, overshoot)
    ensures var raw := me.heading + s.bearing - me.radarHeading;
      var cmd := LockRadarAsWritten(s, me, overshoot);
      0.0 < overshoot < 180.0 && 180.0 < raw <= 360.0 - overshoot ==>
        cmd.degrees == NormalizeBearing(raw) + overshoot && !PassesTarget(NormalizeBearing(raw), cmd.degrees)
    ensures var raw := me.heading + s.bearing - me.radarHeading;
      var cmd := LockRadarAsWritten(s, me, overshoot);
      0.0 < overshoot < 180.0 && -360.0 + overshoot <= raw < -180.0 ==>
        cmd.degrees == NormalizeBearing(raw) - overshoot && !PassesTarget(NormalizeBearing(raw), cmd.degrees)
  {
    var raw := me.heading + s.bearing - me.radarHeading;
    RawSignLockAgreesInRange(raw, overshoot);
    RawSignLockFallsShort(raw, overshoot);
    RawSignLockFallsShortNegative(raw, overshoot);
  }

  /** The predictors a ring of kind k can feed: the wall-hugger branch needs positions. */
  predicate Feeds(k: RingKind, p: Predictor)
  {
    match k
    case Full => true
    case MotionOnly => !(p.blend.WallSpinSpeed? && p.blend.wallBranch)
    case NoRing => p.turns.TrackDelta? && (p.blend.FixedMix? || p.blend.LinearOnly?)
  }

  /** The history write of a sighting: heading, velocity and the record's position go into the ring. */
  function Record(st: BotState, k: RingKind, s: Scan): (r: BotState)
    requires Consistent(st, k) && k != NoRing && s.name in st.tracks
    ensures Consistent(r, k) && r == st.(ring := r.ring)
    ensures r.ring == Recorded(st.ring, s.heading, s.velocity, st.tracks[s.name].x, st.tracks[s.name].y)
  {
    st.(ring := Recorded(st.ring, s.heading, s.velocity, st.tracks[s.name].x, st.tracks[s.name].y))
  }

  /** fireControlSystem against the record of the sighted robot, on the ring as it stands. */
  function FireAt(gun: Gun, st: BotState, k: RingKind, s: Scan, m: Moments, trig: Trig): (cmds: seq<Command>)
    requires Consistent(st, k) && Feeds(k, gun.predictor) && s.name in st.tracks
    ensures forall c :: c in cmds ==> c.TurnGunRight? || c.Fire?
    ensures forall c :: c in cmds && c.Fire? ==> c.power <= 3.0 && c.power <= m.turned.energy
  {
    FireCommands(gun, st.ring, st.tracks[s.name], m.aim, m.turned, trig)
  }

  method RecordStep(bot: Bot, s: Scan)
    requires bot.Valid() && bot.Kind() != NoRing && s.name in bot.enemies
    modifies bot, bot.headings, bot.velocities, bot.xs, bot.ys
    ensures bot.Valid() && s.name in bot.enemies
    ensures bot.State() == Record(old(bot.State()), bot.Kind(), s)
  {
    var enemy := bot.enemies[s.name].Value();
    bot.RecordHistory(s.heading, s.velocity, enemy.x, enemy.y);
    assert s.name in bot.Tracks();
  }

  method FireStep(bot: Bot, gun: Gun, s: Scan, m: Moments, trig: Trig) returns (cmds: seq<Command>)
    requires bot.Valid() && Feeds(bot.Kind(), gun.predictor) && s.name in bot.enemies
    ensures bot.Valid() && bot.State() == old(bot.State())
    ensures cmds == FireAt(gun, bot.State(), bot.Kind(), s, m, trig)
  {
    cmds := FireCommands(gun, bot.HistoryRing(), bot.enemies[s.name].Value(), m.aim, m.turned, trig);
  }

  /**
   * The dodge of a detected shot: when the drop falls in the window,
   * moveDirection flips, the robot turns square to the enemy the new way,
   * drives distance and notes the time; otherwise nothing happens.
   */
  function Dodge(mid: BotState, s: Scan, window: DropWindow, drop: real, distance: real, time: int): (o: Outcome)
    ensures o.state == mid.(moveDirection := o.state.moveDirection, lastMoveTime := o.state.lastMoveTime)
    ensures IsDirection(mid.moveDirection) ==> IsDirection(o.state.moveDirection)
    ensures ShotDetected(window, drop) ==>
              o.state.moveDirection == -mid.moveDirection && o.state.lastMoveTime == time
              && o.cmds == [TurnRight(DodgeTurn(s.bearing, -mid.moveDirection, 0.0)), Ahead(distance)]
    ensures !ShotDetected(window, drop) ==> o == Outcome(mid, [])
  {
    if ShotDetected(window, drop) then
      var direction := Flip(mid.moveDirection);
      Outcome(mid.(moveDirection := direction, lastMoveTime := time),
              [TurnRight(DodgeTurn(s.bearing, direction, 0.0)), Ahead(distance)])
    else
      Outcome(mid, [])
  }

  method DodgeStep(bot: Bot, s: Scan, window: DropWindow, drop: real, distance: real, time: int) returns (cmds: seq<Command>)
    requires bot.Valid() && s.name in bot.enemies
    modifies bot
    ensures bot.Valid() && s.name in bot.enemies
    ensures Outcome(bot.State(), cmds) == Dodge(old(bot.State()), s, window, drop, distance, time)
  {
    cmds := [];
    if ShotDetected(window, drop) {
      bot.SetMoveDirection(Flip(bot.moveDirection));
      cmds := [TurnRight(DodgeTurn(s.bearing, bot.moveDirection, 0.0)), Ahead(distance)];
      bot.SetLastMoveTime(time);
    }
    assert s.name in bot.Tracks();
  }

  /** MOVE_COOLDOWN: ticks between two smooth movements. */
  const MOVE_COOLDOWN: int := 5

  /**
   * The cooldown-gated smooth movement, read at the telemetry after the
   * dodge: at least 5 ticks after lastMoveTime it moves, may flip
   * moveDirection and notes the time after moving; otherwise nothing.
   */
  function CooldownMove(cfg: SmoothConfig, mid: BotState, s: Scan, m: Moments, trig: Trig, draws: Draws): (o: Outcome)
    requires Consistent(mid, Full) && s.name in mid.tracks
    ensures o.state == mid.(moveDirection := o.state.moveDirection, lastMoveTime := o.state.lastMoveTime)
    ensures IsDirection(o.state.moveDirection)
    ensures forall c :: c in o.cmds ==> c.TurnRight? || c.Ahead? || c.Back?
  {
    if m.settled.time - mid.lastMoveTime >= MOVE_COOLDOWN then
      var r := mid.ring;
      var hugger := WallHuggerDetected(r.xs, r.ys, r.velocity, r.index, m.settled.width, m.settled.height);
      var steer := SmoothMovement(cfg, m.settled, mid.tracks[s.name], hugger, mid.moveDirection, trig, draws);
      Outcome(mid.(moveDirection := if steer.flip then Flip(mid.moveDirection) else mid.moveDirection,
                   lastMoveTime := m.moved.time),
              steer.cmds)
    else
      Outcome(mid, [])
  }

  /**
   * When the movement is due it notes the time after moving, turns at
   * most 90 degrees, drives at most 120, and flips exactly on a second
   * draw below 0.15; when it is not, nothing changes.
   */
  lemma CooldownMoveRule(cfg: SmoothConfig, mid: BotState, s: Scan, m: Moments, trig: Trig, draws: Draws)
    requires Consistent(mid, Full) && s.name in mid.tracks
    ensures var o := CooldownMove(cfg, mid, s, m, trig, draws);
      if m.settled.time - mid.lastMoveTime >= MOVE_COOLDOWN then
        o.state.lastMoveTime == m.moved.time
        && |o.cmds| == 2 && o.cmds[0].TurnRight? && Abs(o.cmds[0].degrees) <= 90.0
        && (o.cmds[1].Ahead? || o.cmds[1].Back?) && o.cmds[1].distance <= 120.0
        && (o.state.moveDirection != mid.moveDirection <==> draws.second < 0.15)
      else
        o == Outcome(mid, [])
  {
    if m.settled.time - mid.lastMoveTime >= MOVE_COOLDOWN {
      var r := mid.ring;
      SmoothMovementShape(cfg, m.settled, mid.tracks[s.name],
                          WallHuggerDetected(r.xs, r.ys, r.velocity, r.index, m.settled.width, m.settled.height),
                          mid.moveDirection, trig, draws);
    }
  }

  method CooldownMoveStep(bot: Bot, cfg: SmoothConfig, s: Scan, m: Moments, trig: Trig, draws: Draws) returns (cmds: seq<Command>)
    requires bot.Valid() && bot.Kind() == Full && s.name in bot.enemies
    modifies bot
    ensures bot.Valid()
    ensures Outcome(bot.State(), cmds) == CooldownMove(cfg, old(bot.State()), s, m, trig, draws)
  {
    cmds := [];
    if m.settled.time - bot.lastMoveTime >= MOVE_COOLDOWN {
      var hugger := DetectWallHugger(bot.xs, bot.ys, bot.velocities, bot.historyIndex, m.settled.width, m.settled.height);
      var steer := SmoothMovement(cfg, m.settled, bot.enemies[s.name].Value(), hugger, bot.moveDirection, trig, draws);
      cmds := steer.cmds;
      if steer.flip {
        bot.SetMoveDirection(Flip(bot.moveDirection));
      }
      bot.SetLastMoveTime(m.moved.time);
    }
  }

  /** The shot dodge (drops in [0.1, 3], distance units), then the cooldown-gated smooth movement. */
  function DodgeAndMove(cfg: SmoothConfig, mid: BotState, s: Scan, m: Moments, drop: real, distance: real,
                        trig: Trig, draws: Draws): Outcome
    requires Consistent(mid, Full) && s.name in mid.tracks
  {
    var dodged := Dodge(mid, s, FromTenth, drop, distance, m.settled.time);
    var moved := CooldownMove(cfg, dodged.state, s, m, trig, draws);
    Outcome(moved.state, dodged.cmds + moved.cmds)
  }

  method DodgeAndMoveStep(bot: Bot, cfg: SmoothConfig, s: Scan, m: Moments, drop: real, distance: real,
                          trig: Trig, draws: Draws) returns (cmds: seq<Command>)
    requires bot.Valid() && bot.Kind() == Full && s.name in bot.enemies
    modifies bot
    ensures bot.Valid()
    ensures Outcome(bot.State(), cmds) == DodgeAndMove(cfg, old(bot.State()), s, m, drop, distance, trig, draws)
  {
    var dodged := DodgeStep(bot, s, FromTenth, drop, distance, m.settled.time);
    var moved := CooldownMoveStep(bot, cfg, s, m, trig, draws);
    cmds := dodged + moved;
  }

  /**
   * A drop in [0.1, 3] flips moveDirection, notes the time after the dodge
   * and makes the perpendicular dodge the only move, since the cooldown
   * then cannot have passed; without one the smooth movement runs exactly
   * when at least 5 ticks have passed since lastMoveTime; otherwise
   * nothing moves. Only moveDirection and lastMoveTime ever change.
   */
  lemma DodgeAndMoveRule(cfg: SmoothConfig, mid: BotState, s: Scan, m: Moments, drop: real, distance: real,
                         trig: Trig, draws: Draws)
    requires Consistent(mid, Full) && s.name in mid.tracks
    ensures var o := DodgeAndMove(cfg, mid, s, m, drop, distance, trig, draws);
      o.state == mid.(moveDirection := o.state.moveDirection, lastMoveTime := o.state.lastMoveTime)
      && if 0.1 <= drop <= 3.0 then
           o.state.moveDirection == -mid.moveDirection && o.state.lastMoveTime == m.settled.time
           && o.cmds == [TurnRight(DodgeTurn(s.bearing, -mid.moveDirection, 0.0)), Ahead(distance)]
         else if m.settled.time - mid.lastMoveTime >= MOVE_COOLDOWN then
           o.state.lastMoveTime == m.moved.time
           && |o.cmds| == 2 && o.cmds[0].TurnRight? && Abs(o.cmds[0].degrees) <= 90.0
           && (o.state.moveDirection != mid.moveDirection <==> draws.second < 0.15)
         else
           o == Outcome(mid, [])
  {
    var dodged := Dodge(mid, s, FromTenth, drop, distance, m.settled.time);
    CooldownMoveRule(cfg, dodged.state, s, m, trig, draws);
  }

  /** The bare shot reaction: a drop in the window flips moveDirection, and nothing else changes or moves. */
  function ShotFlip(mid: BotState, window: DropWindow, drop: real): (r: BotState)
    ensures r == mid.(moveDirection := r.moveDirection)
    ensures r.moveDirection == if ShotDetected(window, drop) then -mid.moveDirection else mid.moveDirection
  {
    if ShotDetected(window, drop) then mid.(moveDirection := Flip(mid.moveDirection)) else mid
  }

  method ShotFlipStep(bot: Bot, s: Scan, window: DropWindow, drop: real)
    requires bot.Valid() && s.name in bot.enemies
    modifies bot
    ensures bot.Valid() && s.name in bot.enemies
    ensures bot.State() == ShotFlip(old(bot.State()), window, drop)
  {
    if ShotDetected(window, drop) {
      bot.SetMoveDirection(Flip(bot.moveDirection));
    }
    assert s.name in bot.Tracks();
  }

  /** Gun commands followed by commands that do not fire: the gun turn leads, and any shot is the gun's. */
  lemma GunCommandsLead(gun: seq<Command>, rest: seq<Command>)
    requires (|gun| == 1 || |gun| == 2) && gun[0].TurnGunRight? && (|gun| == 2 ==> gun[1].Fire?)
    requires forall c :: c in rest ==> !c.Fire?
    ensures (gun + rest)[0] == gun[0]
    ensures (exists c :: c in gun + rest && c.Fire?) <==> |gun| == 2
    ensures forall c :: c in gun + rest && c.Fire? ==> c == gun[1]
  {
    if |gun| == 2 {
      assert gun[1] in gun + rest;
    }
  }

  /** A radar lock, then gun commands, then commands that do not fire: the gun turn comes second and any shot is the gun's. */
  lemma LockLeadsGun(radar: Command, gun: seq<Command>, rest: seq<Command>)
    requires radar.TurnRadarRight?
    requires (|gun| == 1 || |gun| == 2) && gun[0].TurnGunRight? && (|gun| == 2 ==> gun[1].Fire?)
    requires forall c :: c in rest ==> !c.Fire?
    ensures var cmds := [radar] + gun + rest;
      cmds[0] == radar && cmds[1] == gun[0] && |cmds| == 1 + |gun| + |rest|
      && ((exists c :: c in cmds && c.Fire?) <==> |gun| == 2)
      && (forall c :: c in cmds && c.Fire? ==> c == gun[1])
  {
    var cmds := [radar] + gun + rest;
    assert forall c: Command :: c in cmds ==> c == radar || c in gun || c in rest;
    if |gun| == 2 {
      assert cmds[2] == gun[1];
    }
  }
}
