/**
 * Movement decisions: the energy-drop shot detector and the moveDirection
 * flip, the turn-then-move primitive that reverses instead of turning more
 * than 90 degrees, the band tables of the smooth and smart movements, the
 * nearest-wall choice, the stepping and chunked goTo loops, and the
 * diagonal bounce of the DVD movement.
 *
 * Every function returns the actuator calls it makes (and, where the
 * source flips moveDirection on a random draw, whether it flips).
 */
module Movement {
  import opened Common
  import opened Angles
  import opened Host
  import opened Tracks

  // ---------------------------------------------------------------- direction

  /** A direction field: 1 or -1. */
  predicate IsDirection(d: int)
  {
    d == 1 || d == -1
  }

  /** moveDirection *= -1 */
  function Flip(d: int): (r: int)
    ensures IsDirection(d) ==> IsDirection(r)
    ensures IsDirection(d) ==> r != d
    ensures -r == d
  {
    -d
  }

  /** The energy-drop windows that count as "the enemy just fired". */
  datatype DropWindow =
    | AboveTenth   // 0.1 < drop <= 3
    | FromTenth    // 0.1 <= drop <= 3
    | AnyPositive  // 0 < drop <= 3

  function ShotDetected(w: DropWindow, drop: real): bool
  {
    match w
    case AboveTenth => drop > 0.1 && drop <= 3.0
    case FromTenth => drop >= 0.1 && drop <= 3.0
    case AnyPositive => drop > 0.0 && drop <= 3.0
  }

  /** Legal bullet powers are 0.1 to 3: a shot of power p drains p. The windows nest and all exclude non-drops and drops above 3. */
  lemma ShotWindowsNest(drop: real)
    ensures ShotDetected(AboveTenth, drop) ==> ShotDetected(FromTenth, drop)
    ensures ShotDetected(FromTenth, drop) ==> ShotDetected(AnyPositive, drop)
    ensures ShotDetected(AnyPositive, drop) ==> 0.0 < drop <= 3.0
    ensures ShotDetected(FromTenth, drop) && !ShotDetected(AboveTenth, drop) <==> drop == 0.1
  {
  }

  // ---------------------------------------------------------------- turn then move

  /**
   * The shared tail of the movements: turn = normalize(moveAngle - heading);
   * beyond 90 degrees turn by normalize(turn + 180) and drive backwards,
   * otherwise turn by turn and drive forwards.
   */
  function TurnAndMove(moveAngle: real, heading: real, distance: real): (cmds: seq<Command>)
    ensures |cmds| == 2 && cmds[0].TurnRight?
    ensures cmds[1] == Ahead(distance) || cmds[1] == Back(distance)
  {
    var turn := NormalizeBearing(moveAngle - heading);
    if Abs(turn) > 90.0 then [TurnRight(NormalizeBearing(turn + 180.0)), Back(distance)]
    else [TurnRight(turn), Ahead(distance)]
  }

  /** The heading along which a [turn, drive] pair travels: the new heading, reversed when driving backwards. */
  function TravelHeading(heading: real, cmds: seq<Command>): real
    requires |cmds| == 2 && cmds[0].TurnRight?
  {
    heading + cmds[0].degrees + (if cmds[1].Back? then 180.0 else 0.0)
  }

  /**
   * The reversal trick: the body never turns more than 90 degrees, and the
   * robot still travels along moveAngle (up to whole turns).
   */
  lemma TurnAndMoveTravelsAlong(moveAngle: real, heading: real, distance: real)
    ensures Abs(TurnAndMove(moveAngle, heading, distance)[0].degrees) <= 90.0
    ensures NormalizeBearing(TravelHeading(heading, TurnAndMove(moveAngle, heading, distance)) - moveAngle) == 0.0
  {
    var turn := NormalizeBearing(moveAngle - heading);
    var k := WholeTurns(moveAngle - heading, 180.0);
    NormalizeBearingProperties(moveAngle - heading);
    if Abs(turn) > 90.0 {
      var back := NormalizeBearing(turn + 180.0);
      if turn > 90.0 {
        assert ReduceAbove(turn + 180.0, 180.0) == turn - 180.0;
        assert back == turn - 180.0;
        assert heading + back + 180.0 - moveAngle == 360.0 * (-k) as real;
        WholeTurnsVanish(-k);
      } else {
        NormalizeIdentity(turn + 180.0, 180.0);
        assert back == turn + 180.0;
        assert heading + back + 180.0 - moveAngle == 360.0 * (1 - k) as real;
        WholeTurnsVanish(1 - k);
      }
    } else {
      assert heading + turn - moveAngle == 360.0 * (-k) as real;
      WholeTurnsVanish(-k);
    }
  }

  /** Whether the robot is within margin of any side. */
  predicate NearWall(me: SelfState, margin: real)
  {
    me.x < margin || me.x > me.width - margin || me.y < margin || me.y > me.height - margin
  }

  /** The middle of the battlefield. */
  function Centre(me: SelfState): (real, real)
  {
    (me.width / 2.0, me.height / 2.0)
  }

  /** The absolute angle (radians) from the robot to the tracked position of the enemy. */
  function EnemyAngle(me: SelfState, enemy: Track, trig: Trig): real
  {
    trig.atan2(enemy.x - me.x, enemy.y - me.y)
  }

  /** The absolute angle (degrees) from the robot to the centre of the field. */
  function CentreAngle(me: SelfState, trig: Trig): real
  {
    ToDegrees(trig.atan2(me.width / 2.0 - me.x, me.height / 2.0 - me.y))
  }

  /** A movement decision: the actuator calls and whether moveDirection flips afterwards. */
  datatype Steer = Steer(cmds: seq<Command>, flip: bool)

  // ---------------------------------------------------------------- smooth movement

  /** The bands of executeSmoothMovement, in the order they are tested. */
  datatype Band =
    | TowardCentre        // near a wall (50)
    | CentreVersusHugger  // hugger detected, farther than 150 from the centre
    | CircleHugger        // hugger detected, within 150 of the centre
    | BackOff             // enemy closer than 150
    | CloseIn             // enemy farther than 400
    | Strafe

  function SmoothBand(nearWall: bool, hugger: bool, centreDistance: real, enemyDistance: real): Band
  {
    if nearWall then TowardCentre
    else if hugger then (if centreDistance > 150.0 then CentreVersusHugger else CircleHugger)
    else if enemyDistance < 150.0 then BackOff
    else if enemyDistance > 400.0 then CloseIn
    else Strafe
  }

  /** The course (degrees) and distance of each band; enemyDegrees is the angle to the enemy. */
  function BandCourse(band: Band, centreDegrees: real, enemyDegrees: real, dir: int): (real, real)
  {
    match band
    case TowardCentre => (centreDegrees, 100.0)
    case CentreVersusHugger => (centreDegrees, 80.0)
    case CircleHugger => (enemyDegrees + 45.0 * dir as real, 60.0)
    case BackOff => (enemyDegrees + 180.0 + 45.0 * dir as real, 120.0)
    case CloseIn => (enemyDegrees + 30.0 * dir as real, 100.0)
    case Strafe => (enemyDegrees + 90.0 * dir as real, 80.0)
  }

  /** The per-variant shape of executeSmoothMovement: whether it has the wall-hugger bands, and the distance cap. */
  datatype SmoothConfig = SmoothConfig(huggerBands: bool, cap: Option<real>)

  /**
   * executeSmoothMovement: choose a band, add (first draw - 0.5) * 40 of
   * jitter (20 against a detected hugger), cap the distance, turn-and-move,
   * and flip moveDirection when the second draw is below 0.15.
   */
  function SmoothMovement(cfg: SmoothConfig, me: SelfState, enemy: Track, hugger: bool, dir: int,
                          trig: Trig, draws: Draws): Steer
  {
    var detected := cfg.huggerBands && hugger;
    var centreDistance := trig.hypot(me.x - me.width / 2.0, me.y - me.height / 2.0);
    var band := SmoothBand(NearWall(me, 50.0), detected, centreDistance, enemy.distance);
    var course := BandCourse(band, CentreAngle(me, trig), ToDegrees(EnemyAngle(me, enemy, trig)), dir);
    var jitter := (draws.first - 0.5) * (if detected then 20.0 else 40.0);
    var distance := if cfg.cap.Some? then Min(course.1, cfg.cap.value) else course.1;
    Steer(TurnAndMove(course.0 + jitter, me.heading, distance), draws.second < 0.15)
  }

  /**
   * The smooth movement drives at most min(band distance, cap), never turns
   * more than 90 degrees, travels along the band's course plus jitter, heads
   * for the centre whenever it is near a wall, and flips on a draw below 0.15.
   */
  lemma SmoothMovementShape(cfg: SmoothConfig, me: SelfState, enemy: Track, hugger: bool, dir: int,
                            trig: Trig, draws: Draws)
    ensures var s := SmoothMovement(cfg, me, enemy, hugger, dir, trig, draws);
      |s.cmds| == 2 && Abs(s.cmds[0].degrees) <= 90.0
      && (cfg.cap.Some? ==> s.cmds[1].distance <= cfg.cap.value)
      && s.cmds[1].distance <= 120.0
      && (NearWall(me, 50.0) ==>
            s.cmds[1].distance == (if cfg.cap.Some? then Min(100.0, cfg.cap.value) else 100.0)
            && NormalizeBearing(TravelHeading(me.heading, s.cmds)
                                - (CentreAngle(me, trig) + (draws.first - 0.5) * (if cfg.huggerBands && hugger then 20.0 else 40.0))) == 0.0)
      && (s.flip <==> draws.second < 0.15)
  {
    var detected := cfg.huggerBands && hugger;
    var centreDistance := trig.hypot(me.x - me.width / 2.0, me.y - me.height / 2.0);
    var band := SmoothBand(NearWall(me, 50.0), detected, centreDistance, enemy.distance);
    var course := BandCourse(band, CentreAngle(me, trig), ToDegrees(EnemyAngle(me, enemy, trig)), dir);
    var jitter := (draws.first - 0.5) * (if detected then 20.0 else 40.0);
    var distance := if cfg.cap.Some? then Min(course.1, cfg.cap.value) else course.1;
    TurnAndMoveTravelsAlong(course.0 + jitter, me.heading, distance);
  }

  // ---------------------------------------------------------------- calculateMovement / executeSmartMovement

  /** The repulsion of one axis: negative within 50 of the low side, positive within 50 of the high side. */
  function WallDanger(position: real, size: real): real
  {
    (if position < 50.0 then -(50.0 - position) / 50.0 else 0.0)
    + (if position > size - 50.0 then (position - (size - 50.0)) / 50.0 else 0.0)
  }

  /** The stored movement plan: moveAngle (degrees), moveDistance, and whether moveDirection flips. */
  datatype Plan = Plan(angle: real, distance: real, flip: bool)

  /**
   * calculateMovement: away from the enemy plus a quarter turn in
   * moveDirection, plus the wall repulsion when either axis' danger exceeds
   * 0.3, plus (first draw - 0.5) * 0.3 radians of jitter; all of it replaced
   * by "away" under 150 and by "toward" beyond 350. The distance is 30; a
   * second draw below 0.08 flips moveDirection.
   */
  function CalculateMovement(me: SelfState, enemy: Track, dir: int, trig: Trig, draws: Draws): Plan
  {
    var enemyAngle := EnemyAngle(me, enemy, trig);
    var dx := WallDanger(me.x, me.width);
    var dy := WallDanger(me.y, me.height);
    var base := enemyAngle + PI + (PI / 2.0) * dir as real;
    var repelled := if Abs(dx) > 0.3 || Abs(dy) > 0.3 then base + trig.atan2(dx, dy) else base;
    var jittered := repelled + (draws.first - 0.5) * 0.3;
    var chosen := if enemy.distance < 150.0 then enemyAngle + PI
                  else if enemy.distance > 350.0 then enemyAngle
                  else jittered;
    Plan(ToDegrees(chosen), 30.0, draws.second < 0.08)
  }

  /** Under 150 the plan runs straight away and beyond 350 straight at the enemy, whatever the walls; the step is always 30. */
  lemma CalculateMovementOverrides(me: SelfState, enemy: Track, dir: int, trig: Trig, draws: Draws)
    ensures CalculateMovement(me, enemy, dir, trig, draws).distance == 30.0
    ensures enemy.distance < 150.0 ==>
      CalculateMovement(me, enemy, dir, trig, draws).angle == ToDegrees(EnemyAngle(me, enemy, trig) + PI)
    ensures enemy.distance > 350.0 ==>
      CalculateMovement(me, enemy, dir, trig, draws).angle == ToDegrees(EnemyAngle(me, enemy, trig))
    ensures CalculateMovement(me, enemy, dir, trig, draws).flip <==> draws.second < 0.08
  {
  }

  /**
   * executeSmartMovement: perpendicular to the enemy in moveDirection,
   * overridden by the centre near a wall (50), else by away under 150,
   * else by toward beyond 350; turn-and-move 30; flip on a draw below 0.08.
   */
  function SmartMovement(me: SelfState, enemy: Track, dir: int, trig: Trig, draws: Draws): Steer
  {
    var enemyDegrees := ToDegrees(EnemyAngle(me, enemy, trig));
    var moveAngle :=
      if NearWall(me, 50.0) then CentreAngle(me, trig)
      else if enemy.distance < 150.0 then enemyDegrees + 180.0
      else if enemy.distance > 350.0 then enemyDegrees
      else enemyDegrees + 90.0 * dir as real;
    Steer(TurnAndMove(moveAngle, me.heading, 30.0), draws.first < 0.08)
  }

  /**
   * The smart movement always moves 30, turns at most 90 degrees, and
   * travels along the course its bands choose: the centre near a wall, else
   * away under 150, towards beyond 350, and square to the enemy in
   * moveDirection in between.
   */
  lemma SmartMovementShape(me: SelfState, enemy: Track, dir: int, trig: Trig, draws: Draws)
    ensures var s := SmartMovement(me, enemy, dir, trig, draws);
      var travel := TravelHeading(me.heading, s.cmds);
      var enemyDegrees := ToDegrees(EnemyAngle(me, enemy, trig));
      |s.cmds| == 2 && s.cmds[0].TurnRight? && Abs(s.cmds[0].degrees) <= 90.0
      && (s.cmds[1] == Ahead(30.0) || s.cmds[1] == Back(30.0))
      && (s.flip <==> draws.first < 0.08)
      && (NearWall(me, 50.0) ==> NormalizeBearing(travel - CentreAngle(me, trig)) == 0.0)
      && (!NearWall(me, 50.0) && enemy.distance < 150.0 ==> NormalizeBearing(travel - (enemyDegrees + 180.0)) == 0.0)
      && (!NearWall(me, 50.0) && enemy.distance > 350.0 ==> NormalizeBearing(travel - enemyDegrees) == 0.0)
      && (!NearWall(me, 50.0) && 150.0 <= enemy.distance <= 350.0 ==>
            NormalizeBearing(travel - (enemyDegrees + 90.0 * dir as real)) == 0.0)
  {
    var enemyDegrees := ToDegrees(EnemyAngle(me, enemy, trig));
    var moveAngle :=
      if NearWall(me, 50.0) then CentreAngle(me, trig)
      else if enemy.distance < 150.0 then enemyDegrees + 180.0
      else if enemy.distance > 350.0 then enemyDegrees
      else enemyDegrees + 90.0 * dir as real;
    TurnAndMoveTravelsAlong(moveAngle, me.heading, 30.0);
  }

  // ---------------------------------------------------------------- dodges

  /** The perpendicular dodge turn: normalize(bearing + 90 * moveDirection + jitter). */
  function DodgeTurn(bearing: real, dir: int, jitter: real): (turn: real)
    ensures -180.0 <= turn <= 180.0
  {
    NormalizeBearingProperties(bearing + 90.0 * dir as real + jitter);
    NormalizeBearing(bearing + 90.0 * dir as real + jitter)
  }

  /** With no jitter, a dodge from a robot straight ahead turns a right angle in moveDirection. */
  lemma DodgeIsPerpendicular(dir: int)
    ensures IsDirection(dir) ==> DodgeTurn(0.0, dir, 0.0) == 90.0 * dir as real
  {
    if IsDirection(dir) {
      NormalizeIdentity(90.0 * dir as real, 180.0);
    }
  }

  // ---------------------------------------------------------------- walls

  datatype Wall = Left | Right | Bottom | Top

  /** The gap between the robot and a wall. */
  function Gap(w: Wall, me: SelfState): real
  {
    match w
    case Left => me.x
    case Right => me.width - me.x
    case Bottom => me.y
    case Top => me.height - me.y
  }

  /** Position in the order the walls are tested: left, right, bottom, top. */
  function Rank(w: Wall): int
  {
    match w
    case Left => 0
    case Right => 1
    case Bottom => 2
    case Top => 3
  }

  /** The point margin off a wall, keeping the other coordinate. */
  function WallPoint(w: Wall, me: SelfState, margin: real): (real, real)
  {
    match w
    case Left => (margin, me.y)
    case Right => (me.width - margin, me.y)
    case Bottom => (me.x, margin)
    case Top => (me.x, me.height - margin)
  }

  /** goToWall / moveToNearestWall's choice: start at left, take each later wall only when strictly closer. */
  function NearestWallPoint(me: SelfState, margin: real): (real, real)
  {
    var left := me.x;
    var right := me.width - me.x;
    var bottom := me.y;
    var top := me.height - me.y;
    var min1, point1 := left, (margin, me.y);
    var min2, point2 := if right < min1 then right else min1, if right < min1 then (me.width - margin, me.y) else point1;
    var min3, point3 := if bottom < min2 then bottom else min2, if bottom < min2 then (me.x, margin) else point2;
    if top < min3 then (me.x, me.height - margin) else point3
  }

  /** A wall is the nearest one, and strictly nearer than every wall tested before it. */
  predicate IsChosenWall(w: Wall, me: SelfState)
  {
    (forall v: Wall :: Gap(w, me) <= Gap(v, me))
    && (forall v: Wall :: Rank(v) < Rank(w) ==> Gap(v, me) > Gap(w, me))
  }

  /** The sequential scan picks the wall of smallest gap, resolving ties in test order. */
  lemma NearestWallIsChosen(me: SelfState, margin: real) returns (w: Wall)
    ensures IsChosenWall(w, me)
    ensures NearestWallPoint(me, margin) == WallPoint(w, me, margin)
  {
    var left := me.x;
    var right := me.width - me.x;
    var bottom := me.y;
    var top := me.height - me.y;
    if top < Min(Min(left, right), bottom) {
      w := Top;
    } else if bottom < Min(left, right) {
      w := Bottom;
    } else if right < left {
      w := Right;
    } else {
      w := Left;
    }
  }

  /** Exactly one wall satisfies the choice. */
  lemma ChosenWallIsUnique(w: Wall, v: Wall, me: SelfState)
    requires IsChosenWall(w, me) && IsChosenWall(v, me)
    ensures w == v
  {
    assert Gap(w, me) <= Gap(v, me) && Gap(v, me) <= Gap(w, me);
    assert Rank(v) == Rank(w);
  }

  /** The absolute heading, in degrees, from own position to the target. */
  function HeadingTo(me: SelfState, target: (real, real), trig: Trig): real
  {
    ToDegrees(trig.atan2(target.0 - me.x, target.1 - me.y))
  }

  /** The distance from own position to the target. */
  function LegLength(me: SelfState, target: (real, real), trig: Trig): real
  {
    trig.sqrt((target.0 - me.x) * (target.0 - me.x) + (target.1 - me.y) * (target.1 - me.y))
  }

  /** goTo of the single-move variants: one turn towards the point, then drive the whole distance. */
  function GoToCommands(me: SelfState, target: (real, real), trig: Trig): (cmds: seq<Command>)
    ensures |cmds| == 2 && cmds[0].TurnRight? && -180.0 <= cmds[0].degrees <= 180.0 && cmds[1].Ahead?
  {
    var turn := NormalizeBearing(HeadingTo(me, target, trig) - me.heading);
    NormalizeBearingProperties(HeadingTo(me, target, trig) - me.heading);
    [TurnRight(turn), Ahead(LegLength(me, target, trig))]
  }

  /** goToWall / moveToNearestWall: drive to the point margin off the nearest wall. */
  function GoToWall(me: SelfState, margin: real, trig: Trig): seq<Command>
  {
    GoToCommands(me, NearestWallPoint(me, margin), trig)
  }

  /** The wall goToWall drives to is the nearest one, ties going to the wall tested first. */
  lemma GoToWallHeadsForNearestWall(me: SelfState, margin: real, trig: Trig) returns (w: Wall)
    ensures IsChosenWall(w, me)
    ensures GoToWall(me, margin, trig) == GoToCommands(me, WallPoint(w, me, margin), trig)
  {
    w := NearestWallIsChosen(me, margin);
  }

  // ---------------------------------------------------------------- chunked goTo

  const CHUNK: real := 140.0

  /** A bound on the chunks left for a distance. */
  function ChunksLeft(distance: real): nat
  {
    if distance > 0.0 then (distance / CHUNK).Floor as nat + 1 else 0
  }

  lemma ChunksShrink(distance: real)
    requires distance > 0.0
    ensures ChunksLeft(distance - Min(CHUNK, distance)) < ChunksLeft(distance)
  {
    if distance > CHUNK {
      assert (distance - CHUNK) / CHUNK == distance / CHUNK - 1.0;
    }
  }

  /** The chunk loop of goTo: ahead(min(140, distance)) then a radar scan, until the distance is used up. */
  function Chunks(distance: real, scan: real): seq<Command>
    decreases ChunksLeft(distance)
  {
    if distance > 0.0 then
      ChunksShrink(distance);
      [Ahead(Min(CHUNK, distance)), TurnRadarRight(scan)] + Chunks(distance - Min(CHUNK, distance), scan)
    else []
  }

  /** The loop itself, proved to issue Chunks. */
  method ChunkedAdvance(distance: real, scan: real) returns (cmds: seq<Command>)
    ensures cmds == Chunks(distance, scan)
  {
    var left := distance;
    cmds := [];
    while left > 0.0
      invariant cmds + Chunks(left, scan) == Chunks(distance, scan)
      decreases ChunksLeft(left)
    {
      var step := Min(CHUNK, left);
      ChunksShrink(left);
      cmds := cmds + [Ahead(step), TurnRadarRight(scan)];
      left := left - step;
    }
  }

  /** The total distance of the Ahead calls in a command list. */
  function AheadTotal(cmds: seq<Command>): real
  {
    if cmds == [] then 0.0
    else (if cmds[0].Ahead? then cmds[0].distance else 0.0) + AheadTotal(cmds[1..])
  }

  lemma {:induction false} AheadTotalAppend(a: seq<Command>, b: seq<Command>)
    ensures AheadTotal(a + b) == AheadTotal(a) + AheadTotal(b)
  {
    if a != [] {
      assert a + b != [] && (a + b)[0] == a[0];
      assert (a + b)[1..] == a[1..] + b;
      AheadTotalAppend(a[1..], b);
    } else {
      assert a + b == b;
    }
  }

  /** The chunks add up to the whole distance, each is in (0, 140], and one scan follows each. */
  lemma {:induction false} ChunksCoverDistance(distance: real, scan: real)
    ensures AheadTotal(Chunks(distance, scan)) == if distance > 0.0 then distance else 0.0
    ensures |Chunks(distance, scan)| % 2 == 0
    ensures forall i :: 0 <= i < |Chunks(distance, scan)| && i % 2 == 0 ==>
              Chunks(distance, scan)[i].Ahead? && 0.0 < Chunks(distance, scan)[i].distance <= CHUNK
    ensures forall i :: 0 <= i < |Chunks(distance, scan)| && i % 2 == 1 ==> Chunks(distance, scan)[i] == TurnRadarRight(scan)
    decreases ChunksLeft(distance)
  {
    if distance > 0.0 {
      var step := Min(CHUNK, distance);
      ChunksShrink(distance);
      ChunksCoverDistance(distance - step, scan);
      var head := [Ahead(step), TurnRadarRight(scan)];
      AheadTotalAppend(head, Chunks(distance - step, scan));
      assert AheadTotal(head) == step by {
        assert head[1..] == [TurnRadarRight(scan)];
        assert head[1..][1..] == [];
      }
      var tail := Chunks(distance - step, scan);
      assert Chunks(distance, scan) == head + tail;
      forall i | 0 <= i < |head + tail|
        ensures i % 2 == 0 ==> (head + tail)[i].Ahead? && 0.0 < (head + tail)[i].distance <= CHUNK
        ensures i % 2 == 1 ==> (head + tail)[i] == TurnRadarRight(scan)
      {
        if i >= 2 {
          assert (head + tail)[i] == tail[i - 2];
        }
      }
    }
  }

  /** goTo of the chunked variants: one turn towards the point, then the chunks. */
  function ChunkedGoTo(me: SelfState, target: (real, real), scan: real, trig: Trig): seq<Command>
  {
    [TurnRight(NormalizeBearing(HeadingTo(me, target, trig) - me.heading))] + Chunks(LegLength(me, target, trig), scan)
  }

  /** How far the chunk loop drives for a distance: all of it when positive, nothing otherwise. */
  function Driven(distance: real): real
  {
    if distance > 0.0 then distance else 0.0
  }

  /** The chunked goTo as the turn and the loop it is. */
  method ChunkedGoToLoop(me: SelfState, target: (real, real), scan: real, trig: Trig) returns (cmds: seq<Command>)
    ensures cmds == ChunkedGoTo(me, target, scan, trig)
  {
    var turn := NormalizeBearing(HeadingTo(me, target, trig) - me.heading);
    var chunks := ChunkedAdvance(LegLength(me, target, trig), scan);
    cmds := [TurnRight(turn)] + chunks;
  }

  /**
   * The chunked goTo turns the short way towards the point and then drives
   * exactly the distance there (nothing when it is not positive), in
   * chunks of at most 140 each followed by a radar scan.
   */
  lemma ChunkedGoToDrives(me: SelfState, target: (real, real), scan: real, trig: Trig)
    ensures var cmds := ChunkedGoTo(me, target, scan, trig);
      var length := LegLength(me, target, trig);
      cmds[0].TurnRight? && -180.0 <= cmds[0].degrees <= 180.0
      && AheadTotal(cmds) == Driven(length)
      && forall i :: 1 <= i < |cmds| ==>
           if i % 2 == 1 then cmds[i].Ahead? && 0.0 < cmds[i].distance <= CHUNK else cmds[i] == TurnRadarRight(scan)
  {
    NormalizeBearingProperties(HeadingTo(me, target, trig) - me.heading);
    TurnThenChunks(TurnRight(NormalizeBearing(HeadingTo(me, target, trig) - me.heading)), LegLength(me, target, trig), scan);
  }

  /** A turn followed by the chunks: the chunks drive the whole distance, in (0, 140] steps each followed by a scan. */
  lemma TurnThenChunks(turn: Command, length: real, scan: real)
    requires turn.TurnRight?
    ensures var cmds := [turn] + Chunks(length, scan);
      cmds[0] == turn && AheadTotal(cmds) == Driven(length)
      && forall i :: 1 <= i < |cmds| ==>
           if i % 2 == 1 then cmds[i].Ahead? && 0.0 < cmds[i].distance <= CHUNK else cmds[i] == TurnRadarRight(scan)
  {
    var chunks := Chunks(length, scan);
    var cmds := [turn] + chunks;
    ChunksCoverDistance(length, scan);
    AheadTotalAppend([turn], chunks);
    assert AheadTotal([turn]) == 0.0 by {
      assert [turn][1..] == [];
    }
    forall i | 1 <= i < |cmds|
      ensures if i % 2 == 1 then cmds[i].Ahead? && 0.0 < cmds[i].distance <= CHUNK else cmds[i] == TurnRadarRight(scan)
    {
      assert cmds[i] == chunks[i - 1];
    }
  }

  /** The tour with the chunked goTo. */
  function ChunkedTour(legs: Legs, margin: real, scan: real, trig: Trig): seq<Command>
  {
    var c := Corners(legs.first.width, legs.first.height, margin);
    ChunkedGoTo(legs.first, c[0], scan, trig) + ChunkedGoTo(legs.second, c[1], scan, trig)
      + ChunkedGoTo(legs.third, c[2], scan, trig) + ChunkedGoTo(legs.fourth, c[3], scan, trig)
  }

  /** The chunked tour as the four loops it runs. */
  method ChunkedTourLoops(legs: Legs, margin: real, scan: real, trig: Trig) returns (cmds: seq<Command>)
    ensures cmds == ChunkedTour(legs, margin, scan, trig)
  {
    var c := Corners(legs.first.width, legs.first.height, margin);
    var a := ChunkedGoToLoop(legs.first, c[0], scan, trig);
    var b := ChunkedGoToLoop(legs.second, c[1], scan, trig);
    var d := ChunkedGoToLoop(legs.third, c[2], scan, trig);
    var e := ChunkedGoToLoop(legs.fourth, c[3], scan, trig);
    cmds := a + b + d + e;
  }

  /** The chunked tour drives in all the sum of the four legs' lengths. */
  lemma ChunkedTourDrives(legs: Legs, margin: real, scan: real, trig: Trig)
    ensures var c := Corners(legs.first.width, legs.first.height, margin);
      AheadTotal(ChunkedTour(legs, margin, scan, trig))
        == Driven(LegLength(legs.first, c[0], trig)) + Driven(LegLength(legs.second, c[1], trig))
           + Driven(LegLength(legs.third, c[2], trig)) + Driven(LegLength(legs.fourth, c[3], trig))
  {
    var c := Corners(legs.first.width, legs.first.height, margin);
    var a := ChunkedGoTo(legs.first, c[0], scan, trig);
    var b := ChunkedGoTo(legs.second, c[1], scan, trig);
    var d := ChunkedGoTo(legs.third, c[2], scan, trig);
    var e := ChunkedGoTo(legs.fourth, c[3], scan, trig);
    ChunkedGoToDrives(legs.first, c[0], scan, trig);
    ChunkedGoToDrives(legs.second, c[1], scan, trig);
    ChunkedGoToDrives(legs.third, c[2], scan, trig);
    ChunkedGoToDrives(legs.fourth, c[3], scan, trig);
    AheadTotalAppend(a, b);
    AheadTotalAppend(a + b, d);
    AheadTotalAppend(a + b + d, e);
  }

  // ---------------------------------------------------------------- stepping goTo

  const ARRIVE: real := 25.0
  const STEP: real := 120.0

  function StepsLeft(distance: real): nat
  {
    if distance > 0.0 then (distance / STEP).Floor as nat + 1 else 0
  }

  lemma StepsShrink(distance: real)
    requires distance > 0.0
    ensures StepsLeft(distance - Min(STEP, distance)) < StepsLeft(distance)
  {
    if distance > STEP {
      assert (distance - STEP) / STEP == distance / STEP - 1.0;
    }
  }

  /**
   * The stepping goTo with an exact host: while farther than 25 from the
   * point, aim (normalize(angle - heading)), scan, and drive
   * min(120, remaining); the host is taken to move the robot exactly that
   * far along the aimed heading, so the angle to the point does not change.
   */
  function Approach(angle: real, heading: real, remaining: real, scan: real): seq<Command>
    decreases StepsLeft(remaining)
  {
    if remaining > ARRIVE then
      StepsShrink(remaining);
      var turn := NormalizeBearing(angle - heading);
      [TurnRight(turn), TurnRadarRight(scan), Ahead(Min(STEP, remaining))]
        + Approach(angle, heading + turn, remaining - Min(STEP, remaining), scan)
    else []
  }

  /** One step of Approach beyond the arrival radius, after the calls already issued. */
  lemma ApproachUnfolds(done: seq<Command>, angle: real, heading: real, remaining: real, scan: real)
    requires remaining > ARRIVE
    ensures var turn := NormalizeBearing(angle - heading);
      var step := Min(STEP, remaining);
      done + Approach(angle, heading, remaining, scan)
        == done + [TurnRight(turn), TurnRadarRight(scan), Ahead(step)] + Approach(angle, heading + turn, remaining - step, scan)
  {
    var turn := NormalizeBearing(angle - heading);
    var step := Min(STEP, remaining);
    var next := [TurnRight(turn), TurnRadarRight(scan), Ahead(step)];
    var rest := Approach(angle, heading + turn, remaining - step, scan);
    assert Approach(angle, heading, remaining, scan) == next + rest;
    assert done + (next + rest) == done + next + rest;
  }

  /** The stepping loop, proved to issue Approach. */
  method ApproachInSteps(angle: real, heading: real, distance: real, scan: real) returns (cmds: seq<Command>)
    ensures cmds == Approach(angle, heading, distance, scan)
  {
    var remaining := distance;
    var facing := heading;
    cmds := [];
    while remaining > ARRIVE
      invariant cmds + Approach(angle, facing, remaining, scan) == Approach(angle, heading, distance, scan)
      decreases StepsLeft(remaining)
    {
      var turn := NormalizeBearing(angle - facing);
      var step := Min(STEP, remaining);
      StepsShrink(remaining);
      ApproachUnfolds(cmds, angle, facing, remaining, scan);
      cmds := cmds + [TurnRight(turn), TurnRadarRight(scan), Ahead(step)];
      facing := facing + turn;
      remaining := remaining - step;
    }
  }

  /**
   * The steps stop the robot within 25 of the point without overshooting
   * it, each step is at most 120, and only the first turn is non-zero;
   * within 25 nothing is issued.
   */
  lemma {:induction false} ApproachArrives(angle: real, heading: real, distance: real, scan: real)
    ensures distance <= ARRIVE ==> Approach(angle, heading, distance, scan) == []
    ensures distance - ARRIVE <= AheadTotal(Approach(angle, heading, distance, scan))
    ensures AheadTotal(Approach(angle, heading, distance, scan)) <= if distance > ARRIVE then distance else 0.0
    ensures forall i :: 3 <= i < |Approach(angle, heading, distance, scan)| && i % 3 == 0 ==>
              Approach(angle, heading, distance, scan)[i] == TurnRight(0.0)
    ensures forall i :: 0 <= i < |Approach(angle, heading, distance, scan)| && i % 3 == 2 ==>
              Approach(angle, heading, distance, scan)[i].Ahead? && Approach(angle, heading, distance, scan)[i].distance <= STEP
    decreases StepsLeft(distance)
  {
    if distance > ARRIVE {
      var turn := NormalizeBearing(angle - heading);
      var step := Min(STEP, distance);
      StepsShrink(distance);
      var rest := Approach(angle, heading + turn, distance - step, scan);
      ApproachArrives(angle, heading + turn, distance - step, scan);
      ExactTurnLeavesNoResidual(angle, heading);
      var head := [TurnRight(turn), TurnRadarRight(scan), Ahead(step)];
      assert Approach(angle, heading, distance, scan) == head + rest;
      AheadTotalAppend(head, rest);
      assert AheadTotal(head) == step by {
        var last := [Ahead(step)];
        assert last[1..] == [];
        assert AheadTotal(last) == step;
        assert head[1..][1..] == last;
        assert head[1..] == [TurnRadarRight(scan)] + last;
      }
      forall i | 3 <= i < |head + rest| && i % 3 == 0
        ensures (head + rest)[i] == TurnRight(0.0)
      {
        assert (head + rest)[i] == rest[i - 3];
        if i - 3 == 0 {
          assert rest[0] == TurnRight(NormalizeBearing(angle - (heading + turn)));
        }
      }
      forall i | 0 <= i < |head + rest| && i % 3 == 2
        ensures (head + rest)[i].Ahead? && (head + rest)[i].distance <= STEP
      {
        if i >= 3 {
          assert (head + rest)[i] == rest[i - 3];
        }
      }
    }
  }

  /** goTo of the stepping variant: the steps towards the point, aimed from where the call starts. */
  function SteppingGoTo(me: SelfState, target: (real, real), scan: real, trig: Trig): seq<Command>
  {
    Approach(HeadingTo(me, target, trig), me.heading, LegLength(me, target, trig), scan)
  }

  /** The stepping goTo as the loop it is. */
  method SteppingGoToLoop(me: SelfState, target: (real, real), scan: real, trig: Trig) returns (cmds: seq<Command>)
    ensures cmds == SteppingGoTo(me, target, scan, trig)
  {
    cmds := ApproachInSteps(HeadingTo(me, target, trig), me.heading, LegLength(me, target, trig), scan);
  }

  // ---------------------------------------------------------------- corner tour

  /** Own telemetry at the start of each of the four goTo calls of a corner tour. */
  datatype Legs = Legs(first: SelfState, second: SelfState, third: SelfState, fourth: SelfState)

  /**
   * The corners of the X tour, margin in from the walls, in the order they
   * are visited: bottom left, top right, top left, bottom right. Each lies
   * margin from two walls; on a field wider and taller than two margins the
   * four are distinct and the first and second legs, like the third and
   * fourth, cross the field diagonally.
   */
  function Corners(width: real, height: real, margin: real): (c: seq<(real, real)>)
    ensures |c| == 4
    ensures forall i :: 0 <= i < 4 ==>
              (c[i].0 == margin || c[i].0 == width - margin) && (c[i].1 == margin || c[i].1 == height - margin)
    ensures margin < width - margin && margin < height - margin ==>
              (forall i, j :: 0 <= i < j < 4 ==> c[i] != c[j])
              && c[0].0 != c[1].0 && c[0].1 != c[1].1 && c[2].0 != c[3].0 && c[2].1 != c[3].1
  {
    [(margin, margin), (width - margin, height - margin), (margin, height - margin), (width - margin, margin)]
  }

  /** The tour with the single-move goTo: turn towards each corner, then drive the whole distance. */
  function CornerTour(legs: Legs, margin: real, trig: Trig): (cmds: seq<Command>)
  {
    var c := Corners(legs.first.width, legs.first.height, margin);
    GoToCommands(legs.first, c[0], trig) + GoToCommands(legs.second, c[1], trig)
      + GoToCommands(legs.third, c[2], trig) + GoToCommands(legs.fourth, c[3], trig)
  }

  /** A turn-and-drive goTo drives exactly the distance to its target. */
  lemma GoToDrivesLeg(me: SelfState, target: (real, real), trig: Trig)
    ensures AheadTotal(GoToCommands(me, target, trig)) == LegLength(me, target, trig)
  {
    var cmds := GoToCommands(me, target, trig);
    assert cmds[1..][1..] == [];
    assert AheadTotal(cmds[1..]) == cmds[1].distance + AheadTotal([]);
  }

  /**
   * The single-move tour is four turn-and-drive pairs, every turn the short
   * way round, and it drives in all the sum of the four legs' lengths.
   */
  lemma CornerTourDrives(legs: Legs, margin: real, trig: Trig)
    ensures var cmds := CornerTour(legs, margin, trig);
      var c := Corners(legs.first.width, legs.first.height, margin);
      |cmds| == 8
      && (forall i :: 0 <= i < 8 && i % 2 == 0 ==> cmds[i].TurnRight? && -180.0 <= cmds[i].degrees <= 180.0)
      && (forall i :: 0 <= i < 8 && i % 2 == 1 ==> cmds[i].Ahead?)
      && AheadTotal(cmds) == LegLength(legs.first, c[0], trig) + LegLength(legs.second, c[1], trig)
                            + LegLength(legs.third, c[2], trig) + LegLength(legs.fourth, c[3], trig)
  {
    var c := Corners(legs.first.width, legs.first.height, margin);
    var a := GoToCommands(legs.first, c[0], trig);
    var b := GoToCommands(legs.second, c[1], trig);
    var d := GoToCommands(legs.third, c[2], trig);
    var e := GoToCommands(legs.fourth, c[3], trig);
    GoToDrivesLeg(legs.first, c[0], trig);
    GoToDrivesLeg(legs.second, c[1], trig);
    GoToDrivesLeg(legs.third, c[2], trig);
    GoToDrivesLeg(legs.fourth, c[3], trig);
    AheadTotalAppend(a, b);
    AheadTotalAppend(a + b, d);
    AheadTotalAppend(a + b + d, e);
  }

  /** The tour with the stepping goTo. */
  function SteppingTour(legs: Legs, margin: real, scan: real, trig: Trig): seq<Command>
  {
    var c := Corners(legs.first.width, legs.first.height, margin);
    SteppingGoTo(legs.first, c[0], scan, trig) + SteppingGoTo(legs.second, c[1], scan, trig)
      + SteppingGoTo(legs.third, c[2], scan, trig) + SteppingGoTo(legs.fourth, c[3], scan, trig)
  }

  /** The stepping tour as the four loops it runs. */
  method SteppingTourLoops(legs: Legs, margin: real, scan: real, trig: Trig) returns (cmds: seq<Command>)
    ensures cmds == SteppingTour(legs, margin, scan, trig)
  {
    var c := Corners(legs.first.width, legs.first.height, margin);
    var a := SteppingGoToLoop(legs.first, c[0], scan, trig);
    var b := SteppingGoToLoop(legs.second, c[1], scan, trig);
    var d := SteppingGoToLoop(legs.third, c[2], scan, trig);
    var e := SteppingGoToLoop(legs.fourth, c[3], scan, trig);
    cmds := a + b + d + e;
  }

  /** How far a leg drives under an exact host: within 25 short of the corner, never past it. */
  predicate Arrives(drive: real, length: real)
  {
    length - ARRIVE <= drive <= if length > ARRIVE then length else 0.0
  }

  /** One stepping goTo stops within 25 of its target without overshooting it. */
  lemma SteppingGoToArrives(me: SelfState, target: (real, real), scan: real, trig: Trig)
    ensures Arrives(AheadTotal(SteppingGoTo(me, target, scan, trig)), LegLength(me, target, trig))
  {
    ApproachArrives(HeadingTo(me, target, trig), me.heading, LegLength(me, target, trig), scan);
  }

  /** Each leg of the stepping tour stops within 25 of its corner without overshooting it. */
  lemma SteppingTourArrives(legs: Legs, margin: real, scan: real, trig: Trig)
    ensures var c := Corners(legs.first.width, legs.first.height, margin);
      Arrives(AheadTotal(SteppingGoTo(legs.first, c[0], scan, trig)), LegLength(legs.first, c[0], trig))
      && Arrives(AheadTotal(SteppingGoTo(legs.second, c[1], scan, trig)), LegLength(legs.second, c[1], trig))
      && Arrives(AheadTotal(SteppingGoTo(legs.third, c[2], scan, trig)), LegLength(legs.third, c[2], trig))
      && Arrives(AheadTotal(SteppingGoTo(legs.fourth, c[3], scan, trig)), LegLength(legs.fourth, c[3], trig))
  {
    var c := Corners(legs.first.width, legs.first.height, margin);
    SteppingGoToArrives(legs.first, c[0], scan, trig);
    SteppingGoToArrives(legs.second, c[1], scan, trig);
    SteppingGoToArrives(legs.third, c[2], scan, trig);
    SteppingGoToArrives(legs.fourth, c[3], scan, trig);
  }

  // ---------------------------------------------------------------- DVD bounce

  const DVD_MARGIN: real := 35.0
  const DVD_STEP: real := 200.0

  /** bounceIfNeeded on one axis: towards increasing values at the low edge, decreasing at the high edge. */
  function Bounce(position: real, size: real, dir: int): (r: int)
    ensures IsDirection(dir) ==> IsDirection(r)
    ensures position <= DVD_MARGIN ==> r == 1
    ensures DVD_MARGIN < position && position >= size - DVD_MARGIN ==> r == -1
    ensures DVD_MARGIN < position < size - DVD_MARGIN ==> r == dir
  {
    if position <= DVD_MARGIN then 1
    else if position >= size - DVD_MARGIN then -1
    else dir
  }

  /** setDiagonalHeading's target heading for the quadrant (dirX, dirY). */
  function DiagonalHeading(dirX: int, dirY: int): real
  {
    if dirX > 0 && dirY > 0 then 45.0
    else if dirX > 0 && dirY < 0 then 135.0
    else if dirX < 0 && dirY < 0 then 225.0
    else 315.0
  }

  /**
   * The diagonal heading points into the quadrant (dirX, dirY): east of
   * north exactly when dirX > 0 and into the northern half exactly when
   * dirY > 0; negating both directions (onHitWall) reverses the course.
   */
  lemma DiagonalHeadingQuadrant(dirX: int, dirY: int)
    requires IsDirection(dirX) && IsDirection(dirY)
    ensures (0.0 < DiagonalHeading(dirX, dirY) < 180.0) <==> dirX > 0
    ensures (DiagonalHeading(dirX, dirY) < 90.0 || DiagonalHeading(dirX, dirY) > 270.0) <==> dirY > 0
    ensures Abs(DiagonalHeading(-dirX, -dirY) - DiagonalHeading(dirX, dirY)) == 180.0
  {
  }

  /** setDiagonalHeading: turn by normalize(target - heading). */
  function DiagonalTurn(dirX: int, dirY: int, heading: real): (cmd: Command)
    ensures cmd.TurnRight? && -180.0 <= cmd.degrees <= 180.0
  {
    NormalizeBearingProperties(DiagonalHeading(dirX, dirY) - heading);
    TurnRight(NormalizeBearing(DiagonalHeading(dirX, dirY) - heading))
  }
}
