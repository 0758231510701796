/**
 * The robot's own tracking state and the operations every variant performs
 * on it: the map of EnemyData records, the target fields, moveDirection and
 * the other movement fields, and the history arrays with historyIndex.
 *
 * BotState is the value of all of it; Bot is the object whose fields and
 * arrays the handlers update in place. Each Bot method states its new state
 * as a function of its old one.
 */
module Engine {
  import opened Common
  import opened Host
  import opened Tracks
  import opened History
  import opened Targeting
  import opened Movement

  /** Which history arrays a variant allocates with ten slots. */
  datatype RingKind =
    | Full        // heading, velocity, x and y
    | MotionOnly  // heading and velocity
    | NoRing      // none

  /** The shape of a ring for a kind: the arrays of length 10, the others empty, the index inside. */
  predicate Shaped(r: Ring, k: RingKind)
  {
    match k
    case Full => HasPositions(r)
    case MotionOnly => HasMotion(r) && |r.xs| == 0 && |r.ys| == 0
    case NoRing => |r.heading| == 0 && |r.velocity| == 0 && |r.xs| == 0 && |r.ys| == 0 && r.index == 0
  }

  /** The value of a bot's tracking and movement state. */
  datatype BotState = BotState(
    tracks: map<string, Track>,
    currentTarget: Option<string>,
    lastTarget: Option<string>,
    moveDirection: int,
    lastEnemyEnergy: real,
    lastMoveTime: int,
    lastRadarSweepTime: int,
    enemyAbsoluteBearing: real,
    moveAngle: real,
    moveDistance: real,
    dirX: int,
    dirY: int,
    ring: Ring)

  /** What every handler keeps: the ring's shape and the three direction fields in {-1, 1}. */
  predicate Consistent(st: BotState, k: RingKind)
  {
    Shaped(st.ring, k) && IsDirection(st.moveDirection) && IsDirection(st.dirX) && IsDirection(st.dirY)
  }

  /**
   * Own telemetry at the points of a handler where the source reads it:
   * at the event, when fire control starts, after the gun turn, after
   * firing and dodging, and after the movement.
   */
  datatype Moments = Moments(start: SelfState, aim: SelfState, turned: SelfState, settled: SelfState, moved: SelfState)

  /** Own telemetry at the points of one pass of a run loop: at the start, once the radar has turned, and after moving. */
  datatype LoopMoments = LoopMoments(start: SelfState, moving: SelfState, swept: SelfState)

  /** What a handler leaves behind: the new state and the actuator calls it made, in order. */
  datatype Outcome = Outcome(state: BotState, cmds: seq<Command>)

  /** What onRobotDeath does when the current target dies. */
  datatype DeathPolicy =
    | Reselect(resets: bool)  // nearest survivor, then reset the history if resets
    | Forget                  // no target, reset the history
    | RemoveOnly              // leave target and history alone

  function ResetsOnDeath(p: DeathPolicy): bool
  {
    match p
    case Reselect(resets) => resets
    case Forget => true
    case RemoveOnly => false
  }

  class Bot {
    var enemies: map<string, EnemyData>
    var currentTarget: Option<string>
    var lastTarget: Option<string>
    var moveDirection: int
    var lastEnemyEnergy: real
    var lastMoveTime: int
    var lastRadarSweepTime: int
    var enemyAbsoluteBearing: real
    var moveAngle: real
    var moveDistance: real
    var dirX: int
    var dirY: int
    var historyIndex: int
    const headings: array<real>
    const velocities: array<real>
    const xs: array<real>
    const ys: array<real>

    /** The kind of ring, read off the array lengths. */
    function Kind(): RingKind
    {
      if xs.Length == SLOTS then Full else if headings.Length == SLOTS then MotionOnly else NoRing
    }

    /** The values of the records. */
    function Tracks(): map<string, Track>
      reads this, enemies.Values
    {
      map n | n in enemies :: enemies[n].Value()
    }

    /** The contents of the history arrays and historyIndex. */
    function HistoryRing(): Ring
      reads this, headings, velocities, xs, ys
    {
      Ring(headings[..], velocities[..], xs[..], ys[..], historyIndex)
    }

    function State(): BotState
      reads this, enemies.Values, headings, velocities, xs, ys
    {
      BotState(Tracks(), currentTarget, lastTarget, moveDirection, lastEnemyEnergy, lastMoveTime,
               lastRadarSweepTime, enemyAbsoluteBearing, moveAngle, moveDistance, dirX, dirY, HistoryRing())
    }

    ghost predicate Valid()
      reads this, enemies.Values, headings, velocities, xs, ys
      ensures Valid() ==> Consistent(State(), Kind())
    {
      headings != velocities && headings != xs && headings != ys
      && velocities != xs && velocities != ys && xs != ys
      && (forall a, b :: a in enemies && b in enemies && a != b ==> enemies[a] != enemies[b])
      && Shaped(HistoryRing(), Kind())
      && IsDirection(moveDirection) && IsDirection(dirX) && IsDirection(dirY)
    }

    /** A robot as it starts a battle: no records, no target, direction 1, last enemy energy 100, empty history. */
    constructor (kind: RingKind)
      ensures Valid() && Kind() == kind
      ensures fresh(headings) && fresh(velocities) && fresh(xs) && fresh(ys)
      ensures State() == BotState(map[], None, None, 1, 100.0, 0, 0, 0.0, 0.0, 0.0, 1, 1,
                                  Ring(Zeros(headings.Length), Zeros(velocities.Length), Zeros(xs.Length), Zeros(ys.Length), 0))
    {
      var motion := if kind == NoRing then 0 else SLOTS;
      var positions := if kind == Full then SLOTS else 0;
      enemies := map[];
      currentTarget := None;
      lastTarget := None;
      moveDirection := 1;
      lastEnemyEnergy := 100.0;
      lastMoveTime := 0;
      lastRadarSweepTime := 0;
      enemyAbsoluteBearing := 0.0;
      moveAngle := 0.0;
      moveDistance := 0.0;
      dirX := 1;
      dirY := 1;
      historyIndex := 0;
      headings := new real[motion](_ => 0.0);
      velocities := new real[motion](_ => 0.0);
      xs := new real[positions](_ => 0.0);
      ys := new real[positions](_ => 0.0);
      new;
      assert headings[..] == Zeros(motion);
      assert velocities[..] == Zeros(motion);
      assert xs[..] == Zeros(positions);
      assert ys[..] == Zeros(positions);
    }

    /** resetPatternHistory: the loop zeroing every array, then historyIndex = 0. */
    method ResetHistory()
      requires Valid()
      modifies this, headings, velocities, xs, ys
      ensures Valid() && enemies == old(enemies)
      ensures State() == old(State()).(ring := Cleared(old(State().ring)))
    {
      ghost var before := Tracks();
      historyIndex := 0;
      ZeroSlots();
      assert Tracks() == before;
    }

    /** The loop of resetPatternHistory: one pass over the slots zeroing each array's slot. */
    method ZeroSlots()
      requires headings != velocities && headings != xs && headings != ys
      requires velocities != xs && velocities != ys && xs != ys
      requires velocities.Length == headings.Length && xs.Length == ys.Length <= headings.Length
      modifies headings, velocities, xs, ys
      ensures headings[..] == Zeros(headings.Length) && velocities[..] == Zeros(velocities.Length)
      ensures xs[..] == Zeros(xs.Length) && ys[..] == Zeros(ys.Length)
    {
      for i := 0 to headings.Length
        invariant forall j :: 0 <= j < i ==> headings[j] == 0.0 && velocities[j] == 0.0
        invariant forall j :: 0 <= j < i && j < xs.Length ==> xs[j] == 0.0 && ys[j] == 0.0
        invariant forall j :: i <= j < xs.Length ==> xs[j] == old(xs[j]) && ys[j] == old(ys[j])
      {
        headings[i] := 0.0;
        velocities[i] := 0.0;
        if i < xs.Length {
          xs[i] := 0.0;
          ys[i] := 0.0;
        }
      }
      assert headings[..] == Zeros(headings.Length);
      assert velocities[..] == Zeros(velocities.Length);
      assert xs[..] == Zeros(xs.Length);
      assert ys[..] == Zeros(ys.Length);
    }

    /** The history write of a sighting, then historyIndex = (historyIndex + 1) % 10. */
    method RecordHistory(heading: real, velocity: real, x: real, y: real)
      requires Valid() && Kind() != NoRing
      modifies this, headings, velocities, xs, ys
      ensures Valid() && enemies == old(enemies)
      ensures State() == old(State()).(ring := Recorded(old(State().ring), heading, velocity, x, y))
    {
      ghost var before := Tracks();
      var i := historyIndex;
      headings[i] := heading;
      velocities[i] := velocity;
      if xs.Length == SLOTS {
        xs[i] := x;
        ys[i] := y;
      }
      historyIndex := (i + 1) % SLOTS;
      assert Tracks() == before;
    }

    /** A sighting that updates the existing record in place, or puts a new record for an unknown name. */
    method ObserveInPlace(s: Scan, me: SelfState, trig: Trig) returns (enemy: Track)
      requires Valid()
      modifies this, enemies.Values
      ensures Valid()
      ensures State() == old(State()).(tracks := Sighted(old(Tracks()), s, me, trig))
      ensures enemy == Tracks()[s.name]
    {
      if s.name in enemies {
        enemy := Resight(s, me, trig);
      } else {
        var e := new EnemyData(s, me, trig);
        Put(s.name, e);
        enemy := e.Value();
      }
    }

    /** e.update(scan, time, bot, false) on the record the name already holds. */
    method Resight(s: Scan, me: SelfState, trig: Trig) returns (enemy: Track)
      requires Valid() && s.name in enemies
      modifies enemies[s.name]
      ensures Valid()
      ensures State() == old(State()).(tracks := old(Tracks())[s.name := Resighting(old(Tracks())[s.name], s, me, trig)])
      ensures enemy == Tracks()[s.name]
    {
      ghost var before := Tracks();
      var e := enemies[s.name];
      e.Update(s, me, trig, false);
      assert Tracks() == before[s.name := e.Value()];
      enemy := e.Value();
    }

    /** enemies.put(name, e) for a record no other name holds. */
    method Put(name: string, e: EnemyData)
      requires Valid()
      requires forall n :: n in enemies && n != name ==> enemies[n] != e
      modifies this
      ensures Valid()
      ensures State() == old(State()).(tracks := old(Tracks())[name := e.Value()])
    {
      ghost var before := Tracks();
      enemies := enemies[name := e];
      assert Tracks() == before[name := e.Value()];
    }

    /** A sighting that always puts a freshly built record, carrying over what carry says. */
    method ObserveReplacing(s: Scan, me: SelfState, trig: Trig, carry: Carry) returns (enemy: Track)
      requires Valid()
      modifies this
      ensures Valid()
      ensures State() == old(State()).(tracks := Replaced(old(Tracks()), s, me, trig, carry))
      ensures enemy == Tracks()[s.name]
    {
      var prev := if s.name in enemies then Some(enemies[s.name].Value()) else None;
      var e := NewRecord(prev, s, me, trig, carry);
      Put(s.name, e);
      enemy := e.Value();
    }

    /** enemies.remove(name). */
    method RemoveRecord(name: string)
      requires Valid()
      modifies this
      ensures Valid()
      ensures State() == old(State()).(tracks := old(Tracks()) - {name})
    {
      ghost var before := Tracks();
      enemies := enemies - {name};
      assert Tracks() == before - {name};
    }

    /**
     * onRobotDeath: remove the record; if it was the current target, apply
     * the policy: reselect the nearest survivor (any of the nearest when
     * several tie, as the map's order decides), or drop the target, and
     * reset the history when the policy says so.
     */
    method OnRobotDeath(name: string, policy: DeathPolicy)
      requires Valid()
      modifies this, headings, velocities, xs, ys
      ensures Valid()
      ensures var dead := old(currentTarget) == Some(name);
        State() == old(State()).(tracks := old(Tracks()) - {name}, currentTarget := currentTarget,
                                 ring := if dead && ResetsOnDeath(policy) then Cleared(old(State().ring)) else old(State().ring))
      ensures old(currentTarget) != Some(name) || policy == RemoveOnly ==> currentTarget == old(currentTarget)
      ensures old(currentTarget) == Some(name) && policy == Forget ==> currentTarget == None
      ensures old(currentTarget) == Some(name) && policy.Reselect? ==> IsNearest(Tracks(), currentTarget)
    {
      RemoveRecord(name);
      if currentTarget == Some(name) && policy != RemoveOnly {
        if policy.Reselect? {
          var survivors := Tracks();
          var nearest := NearestSurvivor(survivors);
          SetTarget(nearest);
        } else {
          SetTarget(None);
        }
        if ResetsOnDeath(policy) {
          ResetHistory();
        }
      }
    }

    /** currentTarget = target */
    method SetTarget(target: Option<string>)
      requires Valid()
      modifies this
      ensures Valid()
      ensures State() == old(State()).(currentTarget := target)
    {
      currentTarget := target;
    }

    /** lastTarget = name (previousTargetName in one variant) */
    method SetLastTarget(name: Option<string>)
      requires Valid()
      modifies this
      ensures Valid()
      ensures State() == old(State()).(lastTarget := name)
    {
      lastTarget := name;
    }

    /** moveDirection = direction */
    method SetMoveDirection(direction: int)
      requires Valid() && IsDirection(direction)
      modifies this
      ensures Valid()
      ensures State() == old(State()).(moveDirection := direction)
    {
      moveDirection := direction;
    }

    /** lastEnemyEnergy = energy */
    method SetLastEnemyEnergy(energy: real)
      requires Valid()
      modifies this
      ensures Valid()
      ensures State() == old(State()).(lastEnemyEnergy := energy)
    {
      lastEnemyEnergy := energy;
    }

    /** lastMoveTime = time */
    method SetLastMoveTime(time: int)
      requires Valid()
      modifies this
      ensures Valid()
      ensures State() == old(State()).(lastMoveTime := time)
    {
      lastMoveTime := time;
    }

    /** lastRadarSweepTime = time */
    method SetLastRadarSweepTime(time: int)
      requires Valid()
      modifies this
      ensures Valid()
      ensures State() == old(State()).(lastRadarSweepTime := time)
    {
      lastRadarSweepTime := time;
    }

    /** enemyAbsoluteBearing = bearing */
    method SetEnemyAbsoluteBearing(bearing: real)
      requires Valid()
      modifies this
      ensures Valid()
      ensures State() == old(State()).(enemyAbsoluteBearing := bearing)
    {
      enemyAbsoluteBearing := bearing;
    }

    /** moveAngle = angle; moveDistance = distance */
    method SetMovePlan(angle: real, distance: real)
      requires Valid()
      modifies this
      ensures Valid()
      ensures State() == old(State()).(moveAngle := angle, moveDistance := distance)
    {
      moveAngle := angle;
      moveDistance := distance;
    }

    /** dirX = x; dirY = y */
    method SetDiagonal(x: int, y: int)
      requires Valid() && IsDirection(x) && IsDirection(y)
      modifies this
      ensures Valid()
      ensures State() == old(State()).(dirX := x, dirY := y)
    {
      ghost var before := Tracks();
      dirX := x;
      dirY := y;
      assert Tracks() == before;
    }
  }

  /** new EnemyData(e, time, bot), then the previous snapshot copied from the old record as carry says. */
  method NewRecord(prev: Option<Track>, s: Scan, me: SelfState, trig: Trig, carry: Carry) returns (e: EnemyData)
    ensures fresh(e)
    ensures e.Value() == Replacement(prev, s, me, trig, carry)
  {
    e := new EnemyData(s, me, trig);
    if prev.Some? && carry != CarryNothing {
      e.lastHeading := prev.value.heading;
      if carry == CarryHeadingAndPosition {
        e.lastX := prev.value.x;
        e.lastY := prev.value.y;
      }
    }
  }
}
