/**
 * Angle arithmetic of the bots: normalizeBearing (degrees), normalizeRadians,
 * clamp and the degree/radian conversions.
 *
 * Both normalisers are two while loops over a local: first subtract a full
 * turn while the angle exceeds half a turn, then add a full turn while it is
 * below minus half a turn. The two loops are mirrored by the recursive
 * functions ReduceAbove and RaiseBelow, parameterised by the half turn
 * (180 degrees or PI radians).
 */
module Angles {
  import opened Common

  /** Math.PI */
  const PI: real := 3.141592653589793

  /** The first loop: while angle > half, angle -= 2 * half. */
  function ReduceAbove(angle: real, half: real): real
    requires half >= 1.0
    decreases angle
  {
    if angle > half then ReduceAbove(angle - 2.0 * half, half) else angle
  }

  /** The second loop: while angle < -half, angle += 2 * half. */
  function RaiseBelow(angle: real, half: real): real
    requires half >= 1.0
    decreases -angle
  {
    if angle < -half then RaiseBelow(angle + 2.0 * half, half) else angle
  }

  /** Both loops, one after the other. */
  function Normalize(angle: real, half: real): real
    requires half >= 1.0
  {
    RaiseBelow(ReduceAbove(angle, half), half)
  }

  /** normalizeBearing: an angle in degrees brought into [-180, 180]. */
  function NormalizeBearing(angle: real): real
  {
    Normalize(angle, 180.0)
  }

  /** normalizeRadians: an angle in radians brought into [-PI, PI]. */
  function NormalizeRadians(angle: real): real
  {
    Normalize(angle, PI)
  }

  /** The number of full turns the first loop subtracts. */
  function TurnsAbove(angle: real, half: real): nat
    requires half >= 1.0
    decreases angle
  {
    if angle > half then 1 + TurnsAbove(angle - 2.0 * half, half) else 0
  }

  /** The number of full turns the second loop adds. */
  function TurnsBelow(angle: real, half: real): nat
    requires half >= 1.0
    decreases -angle
  {
    if angle < -half then 1 + TurnsBelow(angle + 2.0 * half, half) else 0
  }

  /** The net number of full turns removed by both loops. */
  function WholeTurns(angle: real, half: real): int
    requires half >= 1.0
  {
    TurnsAbove(angle, half) - TurnsBelow(ReduceAbove(angle, half), half)
  }

  /** normalizeBearing, as the two loops over a local. */
  method NormalizeBearingByLoops(angle: real) returns (r: real)
    ensures r == NormalizeBearing(angle)
  {
    r := angle;
    while r > 180.0
      invariant ReduceAbove(r, 180.0) == ReduceAbove(angle, 180.0)
      decreases r
    {
      r := r - 360.0;
    }
    while r < -180.0
      invariant RaiseBelow(r, 180.0) == NormalizeBearing(angle)
      decreases -r
    {
      r := r + 360.0;
    }
  }

  /** normalizeRadians, as the two loops over a local. */
  method NormalizeRadiansByLoops(angle: real) returns (r: real)
    ensures r == NormalizeRadians(angle)
  {
    r := angle;
    while r > PI
      invariant ReduceAbove(r, PI) == ReduceAbove(angle, PI)
      decreases r
    {
      r := r - 2.0 * PI;
    }
    while r < -PI
      invariant RaiseBelow(r, PI) == NormalizeRadians(angle)
      decreases -r
    {
      r := r + 2.0 * PI;
    }
  }

  lemma {:induction false} ReduceAboveBounds(angle: real, half: real)
    requires half >= 1.0
    ensures ReduceAbove(angle, half) <= half
    ensures angle > half ==> ReduceAbove(angle, half) > -half
    ensures angle <= half ==> ReduceAbove(angle, half) == angle
    decreases angle
  {
    if angle > half {
      ReduceAboveBounds(angle - 2.0 * half, half);
    }
  }

  lemma {:induction false} RaiseBelowBounds(angle: real, half: real)
    requires half >= 1.0
    ensures RaiseBelow(angle, half) >= -half
    ensures angle < -half ==> RaiseBelow(angle, half) < half
    ensures angle >= -half ==> RaiseBelow(angle, half) == angle
    decreases -angle
  {
    if angle < -half {
      RaiseBelowBounds(angle + 2.0 * half, half);
    }
  }

  /** The result of the normalisers lies in the closed range [-half, half]. */
  lemma NormalizeInRange(angle: real, half: real)
    requires half >= 1.0
    ensures -half <= Normalize(angle, half) <= half
  {
    ReduceAboveBounds(angle, half);
    RaiseBelowBounds(ReduceAbove(angle, half), half);
  }

  /** Inputs already in range come back unchanged (both ends included). */
  lemma NormalizeIdentity(angle: real, half: real)
    requires half >= 1.0
    requires -half <= angle <= half
    ensures Normalize(angle, half) == angle
  {
  }

  /** Normalising twice is normalising once. */
  lemma NormalizeIdempotent(angle: real, half: real)
    requires half >= 1.0
    ensures Normalize(Normalize(angle, half), half) == Normalize(angle, half)
  {
    NormalizeInRange(angle, half);
    NormalizeIdentity(Normalize(angle, half), half);
  }

  lemma {:induction false} ReduceAboveTurns(angle: real, half: real)
    requires half >= 1.0
    ensures ReduceAbove(angle, half) == angle - 2.0 * half * TurnsAbove(angle, half) as real
    decreases angle
  {
    if angle > half {
      ReduceAboveTurns(angle - 2.0 * half, half);
    }
  }

  lemma {:induction false} RaiseBelowTurns(angle: real, half: real)
    requires half >= 1.0
    ensures RaiseBelow(angle, half) == angle + 2.0 * half * TurnsBelow(angle, half) as real
    decreases -angle
  {
    if angle < -half {
      RaiseBelowTurns(angle + 2.0 * half, half);
    }
  }

  /** The result differs from the input by a whole number of full turns. */
  lemma NormalizeCongruent(angle: real, half: real)
    requires half >= 1.0
    ensures Normalize(angle, half) == angle - 2.0 * half * WholeTurns(angle, half) as real
  {
    ReduceAboveTurns(angle, half);
    RaiseBelowTurns(ReduceAbove(angle, half), half);
  }

  /** normalizeBearing: in [-180, 180], a whole number of turns away, identity in range, idempotent. */
  lemma NormalizeBearingProperties(angle: real)
    ensures -180.0 <= NormalizeBearing(angle) <= 180.0
    ensures NormalizeBearing(angle) == angle - 360.0 * WholeTurns(angle, 180.0) as real
    ensures -180.0 <= angle <= 180.0 ==> NormalizeBearing(angle) == angle
    ensures NormalizeBearing(NormalizeBearing(angle)) == NormalizeBearing(angle)
  {
    NormalizeInRange(angle, 180.0);
    NormalizeCongruent(angle, 180.0);
    NormalizeIdempotent(angle, 180.0);
  }

  /** normalizeRadians: in [-PI, PI], a whole number of turns away, identity in range, idempotent. */
  lemma NormalizeRadiansProperties(angle: real)
    ensures -PI <= NormalizeRadians(angle) <= PI
    ensures NormalizeRadians(angle) == angle - 2.0 * PI * WholeTurns(angle, PI) as real
    ensures -PI <= angle <= PI ==> NormalizeRadians(angle) == angle
    ensures NormalizeRadians(NormalizeRadians(angle)) == NormalizeRadians(angle)
  {
    NormalizeInRange(angle, PI);
    NormalizeCongruent(angle, PI);
    NormalizeIdempotent(angle, PI);
  }

  /** A whole number of full turns normalises to 0. */
  lemma {:induction false} WholeTurnsVanish(k: int)
    ensures NormalizeBearing(360.0 * k as real) == 0.0
    decreases if k < 0 then -k else k
  {
    if k > 0 {
      WholeTurnsVanish(k - 1);
      assert ReduceAbove(360.0 * k as real, 180.0) == ReduceAbove(360.0 * (k - 1) as real, 180.0);
    } else if k < 0 {
      WholeTurnsVanish(k + 1);
      assert ReduceAbove(360.0 * k as real, 180.0) == 360.0 * k as real;
      assert RaiseBelow(360.0 * k as real, 180.0) == RaiseBelow(360.0 * (k + 1) as real, 180.0);
      assert ReduceAbove(360.0 * (k + 1) as real, 180.0) == 360.0 * (k + 1) as real;
    }
  }

  /** An angle strictly inside the half turns, moved by whole turns, normalises back to itself. */
  lemma NormalizeWholeTurnsAway(angle: real, k: int)
    requires -180.0 < angle < 180.0
    ensures NormalizeBearing(angle + 360.0 * k as real) == angle
  {
    var x := angle + 360.0 * k as real;
    NormalizeBearingProperties(x);
    var d := k - WholeTurns(x, 180.0);
    assert NormalizeBearing(x) == angle + 360.0 * d as real;
  }

  /**
   * A turn by exactly the normalised difference leaves nothing to turn: a
   * gun turned by the commanded amount has a residual of 0, and a robot
   * that faced its target keeps asking for a turn of 0.
   */
  lemma ExactTurnLeavesNoResidual(target: real, heading: real)
    ensures NormalizeBearing(target - (heading + NormalizeBearing(target - heading))) == 0.0
  {
    var k := WholeTurns(target - heading, 180.0);
    NormalizeBearingProperties(target - heading);
    assert target - (heading + NormalizeBearing(target - heading)) == 360.0 * k as real;
    WholeTurnsVanish(k);
  }

  /** clamp(value, min, max). */
  function Clamp(value: real, min: real, max: real): (r: real)
    ensures min <= max ==> min <= r <= max
    ensures min <= value <= max ==> r == value
    ensures value < min ==> r == min
  {
    if value < min then min else if value > max then max else value
  }

  /** Math.toRadians */
  function ToRadians(degrees: real): real
  {
    degrees * PI / 180.0
  }

  /** Math.toDegrees */
  function ToDegrees(radians: real): real
  {
    radians * 180.0 / PI
  }
}
