/** The bombs released each time every star has been collected, and the
    heuristic that places them away from the player. */
module Hazards {

  /** A released bomb: its spawn position, its initial velocity and its bounce. */
  datatype Bomb = Bomb(x: int, y: int, vx: int, vy: int, bounce: int)

  /** The horizontal midpoint of the 800-pixel-wide level. */
  const Midpoint: int := 400
  const WorldWidth: int := 800
  /** Fixed spawn height, downward drift and bounce of every bomb. */
  const BombY: int := 16
  const BombVy: int := 20
  const BombBounce: int := 1
  /** The horizontal kick is drawn from [-MaxKick, MaxKick]. */
  const MaxKick: int := 200

  /** The inclusive range `Between` draws the spawn x from, given the player's x:
      the half of the level that the player is not in. */
  function SpawnRange(playerX: int): (r: (int, int))
    ensures 0 <= r.0 <= r.1 <= WorldWidth
    ensures r.1 - r.0 == WorldWidth - Midpoint
    ensures playerX < Midpoint ==> Midpoint <= r.0
    ensures playerX >= Midpoint ==> r.1 <= Midpoint
    ensures r.0 <= Midpoint <= r.1
  {
    if playerX < Midpoint then (Midpoint, WorldWidth) else (0, Midpoint)
  }

  /** Every bomb of `bs` was released at the fixed height, drift and bounce. */
  predicate AllReleased(bs: seq<Bomb>)
  {
    forall b :: b in bs ==> b.y == BombY && b.vy == BombVy && b.bounce == BombBounce
  }

  /** `b` is a bomb `releaseBomb` can create while the player stands at `playerX`. */
  predicate SpawnedFor(b: Bomb, playerX: int)
  {
    && SpawnRange(playerX).0 <= b.x <= SpawnRange(playerX).1
    && b.y == BombY
    && -MaxKick <= b.vx <= MaxKick
    && b.vy == BombVy
    && b.bounce == BombBounce
  }
}
