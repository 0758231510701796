/**
 * Target selection: the switch rule applied on every sighting, the
 * nearest-is-better rule of one variant, and the nearest-survivor
 * reselection run when the current target dies.
 */
module Targeting {
  import opened Common
  import opened Tracks

  /** A current target unseen for more than this many ticks may be dropped. */
  const STALE_TICKS: int := 20

  /** A different robot must be this much closer than the current target to take over. */
  const SWITCH_MARGIN: real := 80.0

  /**
   * shouldSwitchTarget(enemyName, enemy), evaluated once the sighting has
   * been stored in tracks.
   */
  function ShouldSwitchTarget(current: Option<string>, name: string, enemy: Track,
                              tracks: map<string, Track>, now: int): bool
  {
    if current.None? then true
    else if name == current.value then true
    else if current.value !in tracks then true
    else if now - tracks[current.value].time > STALE_TICKS then true
    else enemy.distance + SWITCH_MARGIN < tracks[current.value].distance
  }

  /** The switch rule as a disjunction of its five reasons, in both directions. */
  lemma {:induction false} SwitchReasons(current: Option<string>, name: string, enemy: Track,
                                          tracks: map<string, Track>, now: int)
    ensures ShouldSwitchTarget(current, name, enemy, tracks, now) <==>
      current.None?
      || name == current.value
      || current.value !in tracks
      || now - tracks[current.value].time > 20
      || enemy.distance + 80.0 < tracks[current.value].distance
  {
  }

  /**
   * Hysteresis: while the current target is tracked and was seen within 20
   * ticks, another robot takes over only if it is more than 80 closer.
   */
  lemma {:induction false} FreshTargetIsSticky(current: string, name: string, enemy: Track,
                                               tracks: map<string, Track>, now: int)
    requires current in tracks && name != current
    requires now - tracks[current].time <= STALE_TICKS
    requires enemy.distance + SWITCH_MARGIN >= tracks[current].distance
    ensures !ShouldSwitchTarget(Some(current), name, enemy, tracks, now)
  {
  }

  /** A current target unseen for more than 20 ticks gives way to any sighting, however far. */
  lemma {:induction false} StaleTargetGivesWay(current: string, name: string, enemy: Track,
                                               tracks: map<string, Track>, now: int)
    requires current in tracks
    requires now - tracks[current].time > STALE_TICKS
    ensures ShouldSwitchTarget(Some(current), name, enemy, tracks, now)
  {
  }

  /**
   * The rule of the nearest-is-better variant, evaluated after the sighting
   * has been stored: take the sighted robot when there is no target, when
   * the target's track is gone, or when the sighted robot is strictly closer.
   */
  function NearerTarget(current: Option<string>, name: string, enemy: Track,
                        tracks: map<string, Track>): (r: Option<string>)
    ensures r == current || r == Some(name)
  {
    if current.None? then Some(name)
    else if current.value !in tracks || enemy.distance < tracks[current.value].distance then Some(name)
    else current
  }

  /** The nearest-is-better rule takes the sighted robot exactly on one of its three reasons. */
  lemma {:induction false} NearerTargetReasons(current: Option<string>, name: string, enemy: Track,
                                               tracks: map<string, Track>)
    requires current.Some? ==> current.value != name
    ensures NearerTarget(current, name, enemy, tracks) == Some(name) <==>
      current.None? || current.value !in tracks || enemy.distance < tracks[current.value].distance
  {
  }

  /**
   * What a nearest-survivor search may answer over the remaining tracks: a
   * track of minimal distance (any one of equally near ones, as HashMap
   * order decides), provided its distance is below Double.MAX_VALUE; or
   * nothing when no track is nearer than that.
   */
  ghost predicate IsNearest(tracks: map<string, Track>, target: Option<string>)
  {
    (target.Some? ==>
      target.value in tracks
      && tracks[target.value].distance < DOUBLE_MAX
      && forall n :: n in tracks ==> tracks[target.value].distance <= tracks[n].distance)
    && (target.None? ==> forall n :: n in tracks ==> tracks[n].distance >= DOUBLE_MAX)
  }

  /**
   * onRobotDeath's argmin loop: starting from Double.MAX_VALUE, keep the name
   * of every track strictly nearer than the best so far. The keys are taken
   * in an unspecified order.
   */
  method NearestSurvivor(tracks: map<string, Track>) returns (target: Option<string>)
    ensures target.Some? ==> target.value in tracks && tracks[target.value].distance < DOUBLE_MAX
    ensures target.Some? ==> forall n :: n in tracks ==> tracks[target.value].distance <= tracks[n].distance
    ensures target.None? <==> forall n :: n in tracks ==> tracks[n].distance >= DOUBLE_MAX
  {
    target := None;
    if |tracks| > 0 {
      var minDistance := DOUBLE_MAX;
      var remaining := tracks.Keys;
      while remaining != {}
        invariant remaining <= tracks.Keys
        invariant minDistance <= DOUBLE_MAX
        invariant target.Some? ==> target.value in tracks && tracks[target.value].distance == minDistance < DOUBLE_MAX
        invariant target.None? ==> minDistance == DOUBLE_MAX
        invariant forall n :: n in tracks && n !in remaining ==> minDistance <= tracks[n].distance
        decreases remaining
      {
        var name :| name in remaining;
        if tracks[name].distance < minDistance {
          minDistance := tracks[name].distance;
          target := Some(name);
        }
        remaining := remaining - {name};
      }
    }
  }

  /** With no survivors the search answers nothing; with one at a finite distance it answers a name. */
  lemma {:induction false} NearestOfNone(tracks: map<string, Track>, target: Option<string>)
    requires IsNearest(tracks, target)
    ensures tracks == map[] ==> target.None?
    ensures (exists n :: n in tracks && tracks[n].distance < DOUBLE_MAX) ==> target.Some?
  {
  }
}
