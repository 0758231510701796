/**
 * The collision handlers: onHitByBullet, onHitWall and onHitRobot. Each
 * variant's handler is one of the reactions below, a command list paired
 * with whether it flips moveDirection; the commands are written with the
 * direction as it is after the flip, as the handlers issue them.
 */
module Collisions {
  import opened Common
  import opened Angles
  import opened Host
  import opened Movement
  import opened Engine

  /** onHitByBullet that flips and dodges square to the shooter: turn normalize(bearing + 90 * new direction), then drive. */
  function BulletDodge(dir: int, bearing: real, distance: real): (r: Steer)
    ensures r.flip && |r.cmds| == 2 && r.cmds[1] == Ahead(distance)
    ensures r.cmds[0].TurnRight? && -180.0 <= r.cmds[0].degrees <= 180.0
    ensures IsDirection(dir) && bearing == 0.0 ==> r.cmds[0] == TurnRight(-90.0 * dir as real)
  {
    DodgeIsPerpendicular(Flip(dir));
    Steer([TurnRight(DodgeTurn(bearing, Flip(dir), 0.0)), Ahead(distance)], true)
  }

  /** onHitByBullet that flips and swerves 30 degrees the new way, then drives. */
  function BulletSwerve(dir: int, distance: real): (r: Steer)
    ensures r.flip && r.cmds == [TurnRight(-30.0 * dir as real), Ahead(distance)]
  {
    Steer([TurnRight(30.0 * Flip(dir) as real), Ahead(distance)], true)
  }

  /** onHitWall that reverses: flip, back 100, then a quarter turn the new way. */
  function WallReverse(dir: int): (r: Steer)
    ensures r.flip && r.cmds == [Back(100.0), TurnRight(-90.0 * dir as real)]
  {
    Steer([Back(100.0), TurnRight(90.0 * Flip(dir) as real)], true)
  }

  /**
   * onHitRobot: ram-fire at full power (then close in 50) when the rammed
   * robot is below 20 energy and own energy above 30; otherwise back off and
   * flip.
   */
  function HitRobot(enemyEnergy: real, energy: real, backOff: real): (r: Steer)
    ensures r.flip <==> !(enemyEnergy < 20.0 && energy > 30.0)
    ensures Fire(3.0) in r.cmds <==> enemyEnergy < 20.0 && energy > 30.0
    ensures r.flip ==> r.cmds == [Back(backOff)]
  {
    if enemyEnergy < 20.0 && energy > 30.0 then Steer([Fire(3.0), Ahead(50.0)], false)
    else Steer([Back(backOff)], true)
  }

  /** Apply a reaction: flip moveDirection when it says so and issue its commands. */
  method Collide(bot: Bot, reaction: Steer) returns (cmds: seq<Command>)
    requires bot.Valid()
    modifies bot
    ensures bot.Valid()
    ensures bot.State() == old(bot.State()).(moveDirection := if reaction.flip then -old(bot.moveDirection) else old(bot.moveDirection))
    ensures cmds == reaction.cmds
  {
    if reaction.flip {
      bot.SetMoveDirection(Flip(bot.moveDirection));
    }
    cmds := reaction.cmds;
  }
}
