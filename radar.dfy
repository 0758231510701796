/**
 * Radar lock arithmetic.
 *
 * A lock turns the radar towards the target and a few degrees beyond it,
 * so that the scan arc crosses the target again on the next turn. Given
 * raw = absolute bearing of the target - radar heading (degrees), the
 * intended turn is the normalised raw difference extended by the overshoot
 * in its own direction.
 */
module Radar {
  import opened Common
  import opened Angles

  /** A radar turn sweeps across the target direction: it has the target's sign and goes strictly beyond it. */
  predicate PassesTarget(target: real, turn: real)
  {
    if target >= 0.0 then 0.0 <= target < turn else turn < target < 0.0
  }

  /**
   * The lock of updateRadarLock (multi-opponent case) and keepRadarOnTarget:
   * normalise raw, extend it by overshoot in its own direction, normalise again.
   */
  function LockTurn(raw: real, overshoot: real): (turn: real)
    ensures -180.0 <= turn <= 180.0
  {
    var target := NormalizeBearing(raw);
    NormalizeBearingProperties(if target < 0.0 then target - overshoot else target + overshoot);
    NormalizeBearing(if target < 0.0 then target - overshoot else target + overshoot)
  }

  /** Whenever the overshoot fits in the half turn, the lock sweeps exactly overshoot degrees past the target. */
  lemma LockTurnPassesTarget(raw: real, overshoot: real)
    ensures overshoot > 0.0 && Abs(NormalizeBearing(raw)) + overshoot <= 180.0 ==>
      PassesTarget(NormalizeBearing(raw), LockTurn(raw, overshoot))
      && Abs(LockTurn(raw, overshoot) - NormalizeBearing(raw)) == overshoot
  {
    var target := NormalizeBearing(raw);
    NormalizeBearingProperties(raw);
    NormalizeBearingProperties(if target < 0.0 then target - overshoot else target + overshoot);
  }

  /**
   * updateRadarLock and keepRadarOnTarget of the switching variants: twice
   * the normalised difference against a single opponent, otherwise LockTurn.
   */
  function SwitchingLockTurn(raw: real, others: int, overshoot: real): (turn: real)
    ensures others != 1 ==> -180.0 <= turn <= 180.0
    ensures others == 1 ==> -360.0 <= turn <= 360.0
  {
    NormalizeBearingProperties(raw);
    if others == 1 then NormalizeBearing(raw) * 2.0 else LockTurn(raw, overshoot)
  }

  /** Against a single opponent the doubled turn also sweeps past the target, unless it is dead ahead of the radar. */
  lemma DoubledTurnPassesTarget(raw: real, overshoot: real)
    requires NormalizeBearing(raw) != 0.0
    ensures PassesTarget(NormalizeBearing(raw), SwitchingLockTurn(raw, 1, overshoot))
  {
  }

  /**
   * The lock as ten of the variants write it: the overshoot takes the sign
   * of the raw, unnormalised difference, and the sum is normalised.
   */
  function RawSignLockTurn(raw: real, overshoot: real): (turn: real)
    ensures -180.0 <= turn <= 180.0
  {
    NormalizeBearingProperties(if raw < 0.0 then raw - overshoot else raw + overshoot);
    NormalizeBearing(if raw < 0.0 then raw - overshoot else raw + overshoot)
  }

  /** When the raw difference is already within the half turn the written lock and the corrected lock agree. */
  lemma RawSignLockAgreesInRange(raw: real, overshoot: real)
    ensures -180.0 <= raw <= 180.0 ==> RawSignLockTurn(raw, overshoot) == LockTurn(raw, overshoot)
  {
    NormalizeBearingProperties(raw);
  }

  /**
   * When the raw difference is positive but the target lies to the left
   * (raw in (180, 360 - overshoot]), the written lock stops overshoot
   * degrees short of the target instead of passing it.
   */
  lemma RawSignLockFallsShort(raw: real, overshoot: real)
    ensures 0.0 < overshoot < 180.0 && 180.0 < raw <= 360.0 - overshoot ==>
      NormalizeBearing(raw) == raw - 360.0
      && RawSignLockTurn(raw, overshoot) == NormalizeBearing(raw) + overshoot
      && !PassesTarget(NormalizeBearing(raw), RawSignLockTurn(raw, overshoot))
  {
    if 0.0 < overshoot < 180.0 && 180.0 < raw <= 360.0 - overshoot {
      assert ReduceAbove(raw, 180.0) == raw - 360.0;
      assert RaiseBelow(raw - 360.0, 180.0) == raw - 360.0;
      assert ReduceAbove(raw + overshoot, 180.0) == raw + overshoot - 360.0;
      assert RaiseBelow(raw + overshoot - 360.0, 180.0) == raw + overshoot - 360.0;
    }
  }

  /**
   * The mirror image: when the raw difference is negative but the target
   * lies to the right (raw in [-360 + overshoot, -180)), the written lock
   * again stops overshoot degrees short of the target.
   */
  lemma RawSignLockFallsShortNegative(raw: real, overshoot: real)
    ensures 0.0 < overshoot < 180.0 && -360.0 + overshoot <= raw < -180.0 ==>
      NormalizeBearing(raw) == raw + 360.0
      && RawSignLockTurn(raw, overshoot) == NormalizeBearing(raw) - overshoot
      && !PassesTarget(NormalizeBearing(raw), RawSignLockTurn(raw, overshoot))
  {
    if 0.0 < overshoot < 180.0 && -360.0 + overshoot <= raw < -180.0 {
      assert ReduceAbove(raw, 180.0) == raw;
      assert RaiseBelow(raw + 360.0, 180.0) == raw + 360.0;
      assert ReduceAbove(raw - overshoot, 180.0) == raw - overshoot;
      assert RaiseBelow(raw - overshoot + 360.0, 180.0) == raw - overshoot + 360.0;
    }
  }

  /**
   * The concrete case: own heading 350, scan bearing 5, radar heading 0.
   * The target is 5 degrees to the left of the radar; the written lock
   * leaves the radar where it is, the corrected lock turns it 10 degrees left.
   */
  lemma RawSignLockStandsStill()
    ensures NormalizeBearing(350.0 + 5.0 - 0.0) == -5.0
    ensures RawSignLockTurn(350.0 + 5.0 - 0.0, 5.0) == 0.0
    ensures !PassesTarget(-5.0, RawSignLockTurn(350.0 + 5.0 - 0.0, 5.0))
    ensures LockTurn(350.0 + 5.0 - 0.0, 5.0) == -10.0
  {
    RawSignLockFallsShort(355.0, 5.0);
    LockTurnPassesTarget(355.0, 5.0);
  }

  /** The overshoot of the radians lock, in radians. */
  const RADIAN_OVERSHOOT: real := 0.05

  /**
   * The radians lock: normalise the difference of the absolute bearing and
   * the radar heading (both in radians) into [-PI, PI], extend it by 0.05 in
   * its own direction and convert the turn to degrees.
   */
  function RadiansLockTurn(absoluteBearing: real, radarHeading: real): real
  {
    var target := NormalizeRadians(absoluteBearing - ToRadians(radarHeading));
    ToDegrees(if target < 0.0 then target - RADIAN_OVERSHOOT else target + RADIAN_OVERSHOOT)
  }

  /** The radians lock sweeps 0.05 radians past a target that is at most PI away. */
  lemma RadiansLockPassesTarget(absoluteBearing: real, radarHeading: real)
    ensures -PI <= NormalizeRadians(absoluteBearing - ToRadians(radarHeading)) <= PI
    ensures PassesTarget(NormalizeRadians(absoluteBearing - ToRadians(radarHeading)),
                         ToRadians(RadiansLockTurn(absoluteBearing, radarHeading)))
    ensures Abs(ToRadians(RadiansLockTurn(absoluteBearing, radarHeading))
                - NormalizeRadians(absoluteBearing - ToRadians(radarHeading))) == RADIAN_OVERSHOOT
  {
    NormalizeRadiansProperties(absoluteBearing - ToRadians(radarHeading));
  }
}
