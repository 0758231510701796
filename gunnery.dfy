/**
 * The gun: bullet power, the estimators of the target's future position,
 * the blend that combines them, and the fire gate.
 *
 * Every variant follows the same fire-control shape: choose a power from
 * the range and the energies, predict an absolute angle (radians) to the
 * target, convert it to degrees, turn the gun by the normalised difference
 * from the gun heading, then fire if a gate passes. The variants differ in
 * the power table, the estimators and their blend, and the gate; each is a
 * value of the corresponding datatype below.
 */
module Gunnery {
  import opened Common
  import opened Angles
  import opened Host
  import opened Tracks
  import opened History

  // ---------------------------------------------------------------- power

  datatype PowerPolicy =
    | Tiered        // energy < 15 -> 1; then 3 / 2.5 / 2 / 1.5 at 200 / 350 / 500
    | EnergyScaled  // energy < 15 -> 1; min(3, E/10) under 100; min(2.5, e/4, E/8) under 300; 1.5; 1
    | Conservative  // energy < 20 -> 1; min(3, E/10) under 150; 2 under 300; 1.5 under 500; 1
    | ByRangeOnly   // 3 under 200, 2 under 400, else 1.5

  /** calculateBulletPower of each variant; distance and enemyEnergy come from the track, energy is own energy. */
  function BulletPower(policy: PowerPolicy, distance: real, enemyEnergy: real, energy: real): real
  {
    match policy
    case Tiered =>
      if energy < 15.0 then 1.0
      else if distance < 200.0 then 3.0
      else if distance < 350.0 then 2.5
      else if distance < 500.0 then 2.0
      else 1.5
    case EnergyScaled =>
      if energy < 15.0 then 1.0
      else if distance < 100.0 then Min(3.0, energy / 10.0)
      else if distance < 300.0 then Min(Min(2.5, enemyEnergy / 4.0), energy / 8.0)
      else if distance < 500.0 then 1.5
      else 1.0
    case Conservative =>
      if energy < 20.0 then 1.0
      else if distance < 150.0 then Min(3.0, energy / 10.0)
      else if distance < 300.0 then 2.0
      else if distance < 500.0 then 1.5
      else 1.0
    case ByRangeOnly =>
      if distance < 200.0 then 3.0
      else if distance < 400.0 then 2.0
      else 1.5
  }

  /** Every table except EnergyScaled gives a power in [1, 3]; low own energy always fires a 1. */
  lemma PowerWithinLegalRange(policy: PowerPolicy, distance: real, enemyEnergy: real, energy: real)
    requires policy != EnergyScaled
    ensures 1.0 <= BulletPower(policy, distance, enemyEnergy, energy) <= 3.0
    ensures policy == Tiered && energy < 15.0 ==> BulletPower(policy, distance, enemyEnergy, energy) == 1.0
    ensures policy == Conservative && energy < 20.0 ==> BulletPower(policy, distance, enemyEnergy, energy) == 1.0
  {
  }

  /**
   * EnergyScaled never exceeds 3, never exceeds 2.5 beyond 100 units, never
   * spends more than an eighth of own energy at mid range, and is at least
   * 1 whenever it does not scale (far, or own energy low).
   */
  lemma EnergyScaledPowerBounds(distance: real, enemyEnergy: real, energy: real)
    ensures BulletPower(EnergyScaled, distance, enemyEnergy, energy) <= 3.0
    ensures distance >= 100.0 ==> BulletPower(EnergyScaled, distance, enemyEnergy, energy) <= 2.5
    ensures energy >= 15.0 && 100.0 <= distance < 300.0 ==>
              BulletPower(EnergyScaled, distance, enemyEnergy, energy) <= energy / 8.0
              && BulletPower(EnergyScaled, distance, enemyEnergy, energy) <= enemyEnergy / 4.0
    ensures energy < 15.0 || distance >= 300.0 ==> BulletPower(EnergyScaled, distance, enemyEnergy, energy) >= 1.0
    ensures enemyEnergy >= 0.0 && energy >= 0.0 ==> BulletPower(EnergyScaled, distance, enemyEnergy, energy) >= 0.0
  {
  }

  /** The tiered tables never raise the power as the range grows (energies fixed). */
  lemma {:induction false} TieredPowerFallsWithRange(policy: PowerPolicy, near: real, far: real, enemyEnergy: real, energy: real)
    requires policy == Tiered || policy == ByRangeOnly || policy == Conservative
    requires near <= far
    ensures BulletPower(policy, far, enemyEnergy, energy) <= BulletPower(policy, near, enemyEnergy, energy)
  {
    if policy == Conservative && energy >= 20.0 && near < 150.0 {
      assert Min(3.0, energy / 10.0) >= 2.0;
    }
  }

  // ---------------------------------------------------------------- flight time

  /** Robocode's bullet speed for a power: 20 - 3 * power. */
  function BulletSpeed(power: real): (speed: real)
    ensures power <= 3.0 ==> speed >= 11.0
    ensures 1.0 <= power ==> speed <= 17.0
  {
    20.0 - 3.0 * power
  }

  /** (long)(distance / bulletSpeed): the whole ticks a bullet needs to cover the distance. */
  function TravelTime(distance: real, speed: real): (ticks: int)
    requires speed > 0.0
    ensures distance >= 0.0 ==> ticks >= 0
    ensures distance >= 0.0 ==> ticks as real * speed <= distance < (ticks + 1) as real * speed
  {
    WholeTicks(distance, speed);
    Trunc(distance / speed)
  }

  lemma ScaleBelow(a: real, b: real, s: real)
    requires a < b && s > 0.0
    ensures a * s < b * s
  {
    assert b * s - a * s == (b - a) * s;
  }

  /** The truncated quotient counts the whole steps of length speed that fit in distance. */
  lemma WholeTicks(distance: real, speed: real)
    requires speed > 0.0
    ensures distance >= 0.0 ==> Trunc(distance / speed) >= 0
    ensures distance >= 0.0 ==> Trunc(distance / speed) as real * speed <= distance < (Trunc(distance / speed) + 1) as real * speed
  {
    if distance >= 0.0 {
      var q := distance / speed;
      var t := Trunc(q);
      assert q * speed == distance;
      assert q >= 0.0 by { if q < 0.0 { ScaleBelow(q, 0.0, speed); } }
      assert q < (t + 1) as real;
      ScaleBelow(q, (t + 1) as real, speed);
      assert distance < (t + 1) as real * speed;
      assert t as real <= q;
      if t as real < q { ScaleBelow(t as real, q, speed); }
      assert t as real * speed <= distance;
    }
  }

  /** (long)(time * factor): the stretched horizon of the lead estimator. */
  function LeadTicks(ticks: int, factor: real): int
  {
    Trunc(ticks as real * factor)
  }

  /** A factor of at least 1 never shortens a non-negative horizon, and stays within time * factor. */
  lemma LeadReachesFurther(ticks: int, factor: real)
    requires ticks >= 0 && factor >= 1.0
    ensures ticks <= LeadTicks(ticks, factor)
    ensures LeadTicks(ticks, factor) as real <= ticks as real * factor
  {
    assert ticks as real <= ticks as real * factor;
  }

  // ---------------------------------------------------------------- estimators

  /** Where the target would be after ticks ticks at its velocity along heading (degrees). */
  function Advance(t: Track, heading: real, ticks: int, trig: Trig): (real, real)
  {
    (t.x + trig.sin(ToRadians(heading)) * t.velocity * ticks as real,
     t.y + trig.cos(ToRadians(heading)) * t.velocity * ticks as real)
  }

  /** The optional clamp of a predicted point into [margin, size - margin] on both axes. */
  function KeepInField(p: (real, real), margin: Option<real>, me: SelfState): (q: (real, real))
    ensures margin.Some? && margin.value <= me.width - margin.value ==> margin.value <= q.0 <= me.width - margin.value
    ensures margin.Some? && margin.value <= me.height - margin.value ==> margin.value <= q.1 <= me.height - margin.value
    ensures margin.None? ==> q == p
  {
    match margin
    case None => p
    case Some(m) => (Clamp(p.0, m, me.width - m), Clamp(p.1, m, me.height - m))
  }

  /** Math.atan2(px - getX(), py - getY()): the absolute angle (radians, clockwise from north) to a point. */
  function AimAt(p: (real, real), me: SelfState, trig: Trig): real
  {
    trig.atan2(p.0 - me.x, p.1 - me.y)
  }

  /** Where the circular estimator's turn rate comes from. */
  datatype TurnSource =
    | RingWindow(cap: Option<int>)  // mean heading change over the ring, window capped by cap
    | TrackDelta                    // normalised heading - lastHeading of the track

  /** How the estimators are combined. */
  datatype Blend =
    | WallSpinSpeed(wallBranch: bool) // wall hugger -> lead; spinbot -> circular; else by mean speed 7 / 1
    | FixedMix                        // 0.6 linear + 0.4 circular
    | PatternMix                      // by mean speed 7.5 / 2, with the pattern estimator
    | CircularIfFast                  // circular above mean speed 7, else linear
    | LinearOnly

  datatype Predictor = Predictor(blend: Blend, leadFactor: real, turns: TurnSource, clampMargin: Option<real>)

  /** The ring a predictor reads holds what it needs. */
  predicate Supports(p: Predictor, r: Ring)
  {
    (p.turns.RingWindow? ==> HasMotion(r))
    && (p.blend.WallSpinSpeed? || p.blend.PatternMix? || p.blend.CircularIfFast? ==> HasMotion(r))
    && (p.blend.WallSpinSpeed? && p.blend.wallBranch ==> HasPositions(r))
  }

  /** The four estimates: absolute angles (radians) to the predicted points. */
  datatype Estimates = Estimates(linear: real, lead: real, circular: real, pattern: real)

  /** The circular estimator's turn rate in degrees per tick. */
  function CircularRate(p: Predictor, r: Ring, t: Track): real
    requires Supports(p, r)
  {
    match p.turns
    case RingWindow(cap) => TurnRate(r.heading, r.index, cap)
    case TrackDelta => NormalizeBearing(t.heading - t.lastHeading)
  }

  /** predictLinear, predictLinearWithLead, predictCircular and predictPattern for a flight of ticks ticks. */
  function Estimate(p: Predictor, r: Ring, t: Track, ticks: int, me: SelfState, trig: Trig): Estimates
    requires Supports(p, r)
  {
    var m := p.clampMargin;
    Estimates(
      AimAt(KeepInField(Advance(t, t.heading, ticks, trig), m, me), me, trig),
      AimAt(KeepInField(Advance(t, t.heading, LeadTicks(ticks, p.leadFactor), trig), m, me), me, trig),
      AimAt(KeepInField(Advance(t, t.heading + CircularRate(p, r, t) * ticks as real, ticks, trig), m, me), me, trig),
      AimAt(KeepInField(Advance(t, PatternHeading(r.heading, t.heading), ticks, trig), m, me), me, trig))
  }

  /** predictEnemyPosition: the estimates for the bullet's flight time, blended. */
  function PredictAngle(p: Predictor, r: Ring, t: Track, power: real, me: SelfState, trig: Trig): real
    requires Supports(p, r) && BulletSpeed(power) > 0.0
  {
    Blended(p.blend, r, me.width, me.height, Estimate(p, r, t, TravelTime(t.distance, BulletSpeed(power)), me, trig))
  }

  /** The blend of predictEnemyPosition, branch by branch as each variant writes it. */
  function Blended(b: Blend, r: Ring, width: real, height: real, e: Estimates): real
    requires b.WallSpinSpeed? || b.PatternMix? || b.CircularIfFast? ==> HasMotion(r)
    requires b.WallSpinSpeed? && b.wallBranch ==> HasPositions(r)
  {
    match b
    case WallSpinSpeed(wallBranch) =>
      if wallBranch && WallHuggerDetected(r.xs, r.ys, r.velocity, r.index, width, height) then e.lead
      else if SpinDetected(r.heading, r.velocity, r.index) then e.circular
      else
        var speed := MeanSpeed(r.velocity);
        if speed > 7.0 then e.circular * 0.7 + e.linear * 0.3
        else if speed < 1.0 then e.linear
        else e.linear * 0.5 + e.circular * 0.5
    case FixedMix => e.linear * 0.6 + e.circular * 0.4
    case PatternMix =>
      var speed := MeanSpeed(r.velocity);
      if speed > 7.5 then e.circular * 0.7 + e.pattern * 0.3
      else if speed < 2.0 then e.linear
      else e.linear * 0.3 + e.circular * 0.4 + e.pattern * 0.3
    case CircularIfFast => if MeanSpeed(r.velocity) > 7.0 then e.circular else e.linear
    case LinearOnly => e.linear
  }

  // ---------------------------------------------------------------- weights

  datatype Weights = Weights(linear: real, lead: real, circular: real, pattern: real)

  /** The weights of a convex combination: non-negative and summing to 1. */
  predicate Convex(w: Weights)
  {
    w.linear >= 0.0 && w.lead >= 0.0 && w.circular >= 0.0 && w.pattern >= 0.0
    && w.linear + w.lead + w.circular + w.pattern == 1.0
  }

  /** The weight each blend gives each estimator, written as a table over the classification. */
  function BlendWeights(b: Blend, r: Ring, width: real, height: real): (w: Weights)
    requires b.WallSpinSpeed? || b.PatternMix? || b.CircularIfFast? ==> HasMotion(r)
    requires b.WallSpinSpeed? && b.wallBranch ==> HasPositions(r)
    ensures Convex(w)
    ensures b.LinearOnly? ==> w == Weights(1.0, 0.0, 0.0, 0.0)
    ensures !b.WallSpinSpeed? ==> w.lead == 0.0
    ensures !b.PatternMix? ==> w.pattern == 0.0
  {
    var spin := b.WallSpinSpeed? && SpinDetected(r.heading, r.velocity, r.index);
    var hugger := b.WallSpinSpeed? && b.wallBranch && WallHuggerDetected(r.xs, r.ys, r.velocity, r.index, width, height);
    if b.LinearOnly? then Weights(1.0, 0.0, 0.0, 0.0)
    else if b.FixedMix? then Weights(0.6, 0.0, 0.4, 0.0)
    else if hugger then Weights(0.0, 1.0, 0.0, 0.0)
    else if spin then Weights(0.0, 0.0, 1.0, 0.0)
    else
      var speed := MeanSpeed(r.velocity);
      if b.CircularIfFast? then (if speed > 7.0 then Weights(0.0, 0.0, 1.0, 0.0) else Weights(1.0, 0.0, 0.0, 0.0))
      else if b.PatternMix? then
        (if speed > 7.5 then Weights(0.0, 0.0, 0.7, 0.3)
         else if speed < 2.0 then Weights(1.0, 0.0, 0.0, 0.0)
         else Weights(0.3, 0.0, 0.4, 0.3))
      else if speed > 7.0 then Weights(0.3, 0.0, 0.7, 0.0)
      else if speed < 1.0 then Weights(1.0, 0.0, 0.0, 0.0)
      else Weights(0.5, 0.0, 0.5, 0.0)
  }

  function Combine(w: Weights, e: Estimates): real
  {
    w.linear * e.linear + w.lead * e.lead + w.circular * e.circular + w.pattern * e.pattern
  }

  /** Every blend is the convex combination of the four estimates under BlendWeights. */
  lemma BlendIsConvexCombination(b: Blend, r: Ring, width: real, height: real, e: Estimates)
    requires b.WallSpinSpeed? || b.PatternMix? || b.CircularIfFast? ==> HasMotion(r)
    requires b.WallSpinSpeed? && b.wallBranch ==> HasPositions(r)
    ensures Blended(b, r, width, height, e) == Combine(BlendWeights(b, r, width, height), e)
  {
  }

  /** A convex combination of equal estimates is that estimate. */
  lemma CombineEqual(w: Weights, a: real)
    requires Convex(w)
    ensures Combine(w, Estimates(a, a, a, a)) == a
  {
    calc {
      Combine(w, Estimates(a, a, a, a));
      (w.linear + w.lead + w.circular + w.pattern) * a;
    }
  }

  /** Against a stopped target every variant aims at the target's current (clamped) position. */
  lemma StoppedTargetIsAimedAtDirectly(p: Predictor, r: Ring, t: Track, power: real, me: SelfState, trig: Trig)
    requires Supports(p, r) && BulletSpeed(power) > 0.0
    requires t.velocity == 0.0
    ensures PredictAngle(p, r, t, power, me, trig) == AimAt(KeepInField((t.x, t.y), p.clampMargin, me), me, trig)
  {
    var ticks := TravelTime(t.distance, BulletSpeed(power));
    var a := AimAt(KeepInField((t.x, t.y), p.clampMargin, me), me, trig);
    assert Estimate(p, r, t, ticks, me, trig) == Estimates(a, a, a, a);
    BlendIsConvexCombination(p.blend, r, me.width, me.height, Estimates(a, a, a, a));
    CombineEqual(BlendWeights(p.blend, r, me.width, me.height), a);
  }

  // ---------------------------------------------------------------- gate

  datatype Readiness =
    | Cold      // getGunHeat() == 0 && getEnergy() > power
    | NotHot    // getGunHeat() <= 0 && getEnergy() >= power

  datatype Tolerance =
    | ByRange           // 4 beyond 500, 6 beyond 300, else 8 degrees
    | Within(degrees: real)

  datatype Alignment =
    | AfterTurn(tolerance: Tolerance)  // |remaining| measured after the gun turn
    | BeforeTurn(limit: real)          // |gunTurn| as commanded

  datatype Gate = Gate(readiness: Readiness, checksEnemyEnergy: bool, alignment: Alignment)

  datatype Gun = Gun(power: PowerPolicy, predictor: Predictor, gate: Gate)

  /** The aim allowance in degrees. */
  function Allowance(tolerance: Tolerance, distance: real): real
  {
    match tolerance
    case ByRange => if distance > 500.0 then 4.0 else if distance > 300.0 then 6.0 else 8.0
    case Within(d) => d
  }

  /** Whether a variant fires: after the turn, heat and energy are read again from the host. */
  predicate GateOpen(g: Gate, after: SelfState, enemy: Track, power: real, gunTurn: real, remaining: real)
  {
    (match g.readiness
     case Cold => after.gunHeat == 0.0 && after.energy > power
     case NotHot => after.gunHeat <= 0.0 && after.energy >= power)
    && (g.checksEnemyEnergy ==> enemy.energy > 0.0)
    && (match g.alignment
        case AfterTurn(tolerance) => Abs(remaining) < Allowance(tolerance, enemy.distance)
        case BeforeTurn(limit) => Abs(gunTurn) < limit)
  }

  /** The power a gun chooses against a track, given own energy before the turn. */
  function ChosenPower(gun: Gun, enemy: Track, me: SelfState): real
  {
    BulletPower(gun.power, enemy.distance, enemy.energy, me.energy)
  }

  /** Every gun in the model chooses a power its bullet speed can carry. */
  predicate Carries(gun: Gun, enemy: Track, me: SelfState)
  {
    ChosenPower(gun, enemy, me) <= 3.0
  }

  lemma PowersAreCarried(gun: Gun, enemy: Track, me: SelfState)
    ensures Carries(gun, enemy, me)
  {
    if gun.power == EnergyScaled {
      EnergyScaledPowerBounds(enemy.distance, enemy.energy, me.energy);
    } else {
      PowerWithinLegalRange(gun.power, enemy.distance, enemy.energy, me.energy);
    }
  }

  /** The predicted angle of a gun, in degrees. */
  function AimDegrees(gun: Gun, r: Ring, enemy: Track, me: SelfState, trig: Trig): real
    requires Supports(gun.predictor, r)
  {
    PowersAreCarried(gun, enemy, me);
    ToDegrees(PredictAngle(gun.predictor, r, enemy, ChosenPower(gun, enemy, me), me, trig))
  }

  /**
   * fireControlSystem: turn the gun by the normalised difference between
   * the predicted angle and the gun heading, then fire the chosen power if
   * the gate passes. me is the telemetry before the turn, after the
   * telemetry once the blocking turn has returned.
   */
  function FireCommands(gun: Gun, r: Ring, enemy: Track, me: SelfState, after: SelfState, trig: Trig): (cmds: seq<Command>)
    requires Supports(gun.predictor, r)
    ensures |cmds| == 1 || |cmds| == 2
    ensures cmds[0].TurnGunRight? && -180.0 <= cmds[0].degrees <= 180.0
    ensures cmds[0].degrees == NormalizeBearing(AimDegrees(gun, r, enemy, me, trig) - me.gunHeading)
    ensures |cmds| == 2 <==> GateOpen(gun.gate, after, enemy, ChosenPower(gun, enemy, me), cmds[0].degrees,
                                      NormalizeBearing(AimDegrees(gun, r, enemy, me, trig) - after.gunHeading))
    ensures |cmds| == 2 ==> cmds[1] == Fire(ChosenPower(gun, enemy, me)) && cmds[1].power <= 3.0
    ensures |cmds| == 2 ==> cmds[1].power <= after.energy
    ensures forall c :: c in cmds ==> c.TurnGunRight? || c.Fire?
  {
    var power := ChosenPower(gun, enemy, me);
    var degrees := AimDegrees(gun, r, enemy, me, trig);
    var gunTurn := NormalizeBearing(degrees - me.gunHeading);
    var remaining := NormalizeBearing(degrees - after.gunHeading);
    NormalizeBearingProperties(degrees - me.gunHeading);
    PowersAreCarried(gun, enemy, me);
    [TurnGunRight(gunTurn)] + (if GateOpen(gun.gate, after, enemy, power, gunTurn, remaining) then [Fire(power)] else [])
  }

  /**
   * Under an exact host, a gate that measures alignment after the turn
   * reduces to readiness and the enemy-energy check: the aim test always
   * passes because every allowance is positive.
   */
  lemma AfterTurnGateUnderExactHost(gun: Gun, r: Ring, enemy: Track, me: SelfState, after: SelfState, trig: Trig)
    requires Supports(gun.predictor, r)
    requires gun.gate.alignment.AfterTurn?
    requires gun.gate.alignment.tolerance.Within? ==> gun.gate.alignment.tolerance.degrees > 0.0
    requires after.gunHeading == me.gunHeading + NormalizeBearing(AimDegrees(gun, r, enemy, me, trig) - me.gunHeading)
    ensures |FireCommands(gun, r, enemy, me, after, trig)| == 2 <==>
              (match gun.gate.readiness
               case Cold => after.gunHeat == 0.0 && after.energy > ChosenPower(gun, enemy, me)
               case NotHot => after.gunHeat <= 0.0 && after.energy >= ChosenPower(gun, enemy, me))
              && (gun.gate.checksEnemyEnergy ==> enemy.energy > 0.0)
  {
    ExactTurnLeavesNoResidual(AimDegrees(gun, r, enemy, me, trig), me.gunHeading);
  }

  /** A gate that checks the commanded turn never fires on a tick whose turn is at or beyond its limit. */
  lemma BeforeTurnGateRefusesWideSwings(gun: Gun, r: Ring, enemy: Track, me: SelfState, after: SelfState, trig: Trig)
    requires Supports(gun.predictor, r)
    requires gun.gate.alignment.BeforeTurn?
    requires Abs(FireCommands(gun, r, enemy, me, after, trig)[0].degrees) >= gun.gate.alignment.limit
    ensures FireCommands(gun, r, enemy, me, after, trig) == [TurnGunRight(FireCommands(gun, r, enemy, me, after, trig)[0].degrees)]
  {
  }
}
