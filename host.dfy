/**
 * What the Robocode host gives a handler and what a handler gives back.
 *
 * Telemetry is an immutable SelfState read at the start of an event; the
 * scanned robot is a Scan; the blocking actuator calls a handler makes are
 * returned, in order, as a list of Commands. Trigonometry and Math.random()
 * are not computed by the model: the values of sin, cos, atan2, hypot and
 * sqrt come from a Trig parameter and the random draws from a Draws
 * parameter.
 */
module Host {

  /** Own robot telemetry: getX, getY, getHeading, getGunHeading, getRadarHeading,
    * getEnergy, getGunHeat, getBattleFieldWidth/Height, getTime, getOthers. */
  datatype SelfState = SelfState(
    x: real,
    y: real,
    heading: real,
    gunHeading: real,
    radarHeading: real,
    energy: real,
    gunHeat: real,
    width: real,
    height: real,
    time: int,
    others: int)

  /** A ScannedRobotEvent: name, bearing (degrees, relative to own heading),
    * distance, energy, heading (degrees) and velocity of the scanned robot. */
  datatype Scan = Scan(
    name: string,
    bearing: real,
    distance: real,
    energy: real,
    heading: real,
    velocity: real)

  /** The actuator calls of robocode.Robot that the bots use. */
  datatype Command =
    | TurnRight(degrees: real)
    | TurnGunRight(degrees: real)
    | TurnRadarRight(degrees: real)
    | Ahead(distance: real)
    | Back(distance: real)
    | Fire(power: real)

  /** Math.sin, Math.cos, Math.atan2, Math.hypot and Math.sqrt, supplied from outside. */
  datatype Trig = Trig(
    sin: real -> real,
    cos: real -> real,
    atan2: (real, real) -> real,
    hypot: (real, real) -> real,
    sqrt: real -> real)

  /** The successive values Math.random() returns during one handler call. */
  datatype Draws = Draws(first: real, second: real, third: real)
}
