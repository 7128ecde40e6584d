/** The shooter and its bullets, kept abstract: shooter.h is not part of this
    model, so only the geometry the game reads is a field, and the behaviour
    (the starting shooter, moving, shooting, a bullet's step) is handed in as
    function values. */
module Shooters {

  /** A bullet: its centre and its width. */
  datatype Bullet = Bullet(x: real, y: real, width: real)

  /** The shooter: a head circle on top of a rectangular body. */
  datatype Shooter = Shooter(
    headX: real, headY: real, headRadius: real,
    bodyX: real, bodyY: real, bodyWidth: real, bodyHeight: real)

  /** A bullet after one step, and whether it is still inside the field. */
  datatype BulletMove = BulletMove(bullet: Bullet, alive: bool)

  /** What shooter.h provides.
      - `start`: the shooter every level begins with;
      - `move(s, t, leftward)`: the shooter after moving for `t` seconds;
      - `shoot(s)`: the bullet a shot from `s` creates;
      - `bulletStep(b, t)`: the bullet after `t` seconds, with its liveness flag. */
  datatype ShooterKit = ShooterKit(
    start: Shooter,
    move: (Shooter, real, bool) -> Shooter,
    shoot: Shooter -> Bullet,
    bulletStep: (Bullet, real) -> BulletMove)
}
