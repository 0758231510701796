/**
 * The per-opponent track record (EnemyData) and its "previous snapshot".
 *
 * Track is the value of one record. The variants declare different subsets
 * of these fields; a field a variant does not declare is filled as at a
 * first sighting and is never read by that variant's model.
 */
module Tracks {
  import opened Common
  import opened Angles
  import opened Host

  datatype Track = Track(
    bearing: real,
    distance: real,
    energy: real,
    lastEnergy: real,
    heading: real,
    velocity: real,
    time: int,
    lastSeen: int,
    x: real,
    y: real,
    lastHeading: real,
    lastX: real,
    lastY: real)

  /** Absolute bearing of the scanned robot in radians: own heading plus the scan's bearing. */
  function AbsoluteBearing(s: Scan, me: SelfState): real
  {
    ToRadians(me.heading) + ToRadians(s.bearing)
  }

  /** The scanned robot's x: own x plus sin(absolute bearing) times distance. */
  function ScannedX(s: Scan, me: SelfState, trig: Trig): real
  {
    me.x + trig.sin(AbsoluteBearing(s, me)) * s.distance
  }

  /** The scanned robot's y: own y plus cos(absolute bearing) times distance. */
  function ScannedY(s: Scan, me: SelfState, trig: Trig): real
  {
    me.y + trig.cos(AbsoluteBearing(s, me)) * s.distance
  }

  /** Whether a record's current fields are those of scan s taken at me.time. */
  predicate Reflects(t: Track, s: Scan, me: SelfState, trig: Trig)
  {
    t.bearing == s.bearing && t.distance == s.distance && t.energy == s.energy
    && t.heading == s.heading && t.velocity == s.velocity
    && t.time == me.time && t.lastSeen == me.time
    && t.x == ScannedX(s, me, trig) && t.y == ScannedY(s, me, trig)
  }

  /** A record created from a first sighting (the EnemyData constructor, or update with isNew). */
  function FirstSighting(s: Scan, me: SelfState, trig: Trig): (t: Track)
    ensures Reflects(t, s, me, trig)
    ensures t.lastHeading == t.heading && t.lastX == t.x && t.lastY == t.y
    ensures t.lastEnergy == t.energy
  {
    var x := ScannedX(s, me, trig);
    var y := ScannedY(s, me, trig);
    Track(s.bearing, s.distance, s.energy, s.energy, s.heading, s.velocity,
          me.time, me.time, x, y, s.heading, x, y)
  }

  /** A record updated in place by a later sighting (update with isNew = false). */
  function Resighting(prev: Track, s: Scan, me: SelfState, trig: Trig): (t: Track)
    ensures Reflects(t, s, me, trig)
    ensures t.lastHeading == prev.heading && t.lastX == prev.x && t.lastY == prev.y
    ensures t.lastEnergy == prev.energy
  {
    Track(s.bearing, s.distance, s.energy, prev.energy, s.heading, s.velocity,
          me.time, me.time, ScannedX(s, me, trig), ScannedY(s, me, trig),
          prev.heading, prev.x, prev.y)
  }

  /** How much of the old record a freshly built record copies into its previous snapshot. */
  datatype Carry = CarryNothing | CarryHeading | CarryHeadingAndPosition

  /**
   * A fresh record built for every sighting, copying (according to carry)
   * the old record's heading, x and y into lastHeading, lastX and lastY when
   * the name was already tracked.
   */
  function Replacement(prev: Option<Track>, s: Scan, me: SelfState, trig: Trig, carry: Carry): (t: Track)
    ensures Reflects(t, s, me, trig)
    ensures prev.Some? && carry != CarryNothing ==> t.lastHeading == prev.value.heading
    ensures prev.Some? && carry == CarryHeadingAndPosition ==> t.lastX == prev.value.x && t.lastY == prev.value.y
    ensures prev.None? || carry == CarryNothing ==> t == FirstSighting(s, me, trig)
  {
    var t := FirstSighting(s, me, trig);
    if prev.None? || carry == CarryNothing then t
    else if carry == CarryHeading then t.(lastHeading := prev.value.heading)
    else t.(lastHeading := prev.value.heading, lastX := prev.value.x, lastY := prev.value.y)
  }

  /** One EnemyData record, whose fields update() overwrites in place. */
  class EnemyData {
    var bearing: real
    var distance: real
    var energy: real
    var lastEnergy: real
    var heading: real
    var velocity: real
    var time: int
    var lastSeen: int
    var x: real
    var y: real
    var lastHeading: real
    var lastX: real
    var lastY: real

    function Value(): Track
      reads this
    {
      Track(bearing, distance, energy, lastEnergy, heading, velocity, time, lastSeen,
            x, y, lastHeading, lastX, lastY)
    }

    /** new EnemyData(e, time, bot): a first sighting. */
    constructor (s: Scan, me: SelfState, trig: Trig)
      ensures Value() == FirstSighting(s, me, trig)
    {
      bearing := s.bearing;
      distance := s.distance;
      energy := s.energy;
      heading := s.heading;
      velocity := s.velocity;
      time := me.time;
      lastSeen := me.time;
      x := ScannedX(s, me, trig);
      y := ScannedY(s, me, trig);
      lastHeading := s.heading;
      lastX := ScannedX(s, me, trig);
      lastY := ScannedY(s, me, trig);
      lastEnergy := s.energy;
    }

    /**
     * update(e, time, bot, isNew): when the record is not new, the current
     * heading, position and energy become the previous snapshot before the
     * scan overwrites them; when it is new, the snapshot is the scan itself.
     */
    method Update(s: Scan, me: SelfState, trig: Trig, isNew: bool)
      modifies this
      ensures !isNew ==> lastHeading == old(heading) && lastX == old(x) && lastY == old(y)
      ensures !isNew ==> lastEnergy == old(energy)
      ensures isNew ==> lastHeading == heading && lastX == x && lastY == y && lastEnergy == energy
      ensures Value() == if isNew then FirstSighting(s, me, trig) else Resighting(old(Value()), s, me, trig)
    {
      if !isNew {
        lastHeading := heading;
        lastX := x;
        lastY := y;
        lastEnergy := energy;
      }
      bearing := s.bearing;
      distance := s.distance;
      energy := s.energy;
      heading := s.heading;
      velocity := s.velocity;
      time := me.time;
      lastSeen := me.time;
      x := ScannedX(s, me, trig);
      y := ScannedY(s, me, trig);
      if isNew {
        lastHeading := heading;
        lastX := x;
        lastY := y;
        lastEnergy := energy;
      }
    }
  }

  /** The map after a sighting updates the record in place, or puts a new one for an unknown name. */
  function Sighted(tracks: map<string, Track>, s: Scan, me: SelfState, trig: Trig): (r: map<string, Track>)
    ensures r.Keys == tracks.Keys + {s.name}
    ensures Reflects(r[s.name], s, me, trig)
    ensures forall n :: n in tracks && n != s.name ==> r[n] == tracks[n]
    ensures s.name in tracks ==> r[s.name].lastEnergy == tracks[s.name].energy
  {
    tracks[s.name := if s.name in tracks then Resighting(tracks[s.name], s, me, trig) else FirstSighting(s, me, trig)]
  }

  /** The map after a sighting puts a freshly built record, carrying over what carry says. */
  function Replaced(tracks: map<string, Track>, s: Scan, me: SelfState, trig: Trig, carry: Carry): (r: map<string, Track>)
    ensures r.Keys == tracks.Keys + {s.name}
    ensures Reflects(r[s.name], s, me, trig)
    ensures forall n :: n in tracks && n != s.name ==> r[n] == tracks[n]
  {
    tracks[s.name := Replacement(if s.name in tracks then Some(tracks[s.name]) else None, s, me, trig, carry)]
  }
}
