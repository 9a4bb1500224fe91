/** The playfield, the images the game draws and the pixel-mask collision test.
    Images are loaded from files by the game; here they are a value of type
    Assets handed to every operation that needs a size or a mask. */
module Screen {

  /** Window size (main.py, WIDTH and HEIGHT). */
  const WIDTH: int := 750
  const HEIGHT: int := 750

  /** The three enemy variants. */
  datatype Color = Red | Green | Blue

  /** Every image whose size or mask the game logic consults. */
  datatype Sprite = PlayerShip | PlayerLaser | EnemyShip(shipColor: Color) | EnemyLaser(laserColor: Color)

  /** What the collision test sees of an object: its top-left corner and its image. */
  datatype Body = Body(x: int, y: int, sprite: Sprite)

  /** The loaded images: their sizes, and the mask overlap test
      `mask_a.overlap(mask_b, (dx, dy)) is not None`. Nothing is assumed about
      `overlap` (not even symmetry). */
  datatype Assets = Assets(
    width: Sprite -> nat,
    height: Sprite -> nat,
    overlap: (Sprite, Sprite, int, int) -> bool)

  /** `collide(obj1, obj2)`: the mask of `a` tested against the mask of `b`
      shifted by the offset of `b` relative to `a`. */
  predicate Collide(a: Body, b: Body, assets: Assets)
  {
    assets.overlap(a.sprite, b.sprite, b.x - a.x, b.y - a.y)
  }

  /** Only the relative position of the two objects matters: moving both by
      the same amount does not change whether they collide. */
  lemma CollideByOffset(a: Body, b: Body, dx: int, dy: int, assets: Assets)
    ensures Collide(a, b, assets) <==>
      Collide(a.(x := a.x + dx, y := a.y + dy), b.(x := b.x + dx, y := b.y + dy), assets)
  {
  }
}
