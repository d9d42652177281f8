/** The playfield: boxes, the overlap test, the clamp, the player's hitbox and
    the platforms of the current map (game/game.js). */
module Geometry {

  /** Logical width of the playfield (ORIGINAL_WIDTH); every horizontal bound uses it. */
  const WorldWidth: real := 960.0

  /** The player's sprite box, the box used for touch damage and the attack origin. */
  const PlayerW: real := 50.0
  const PlayerH: real := 70.0

  /** The shrunk collision box of the player (PLAYER_HITBOX) and the foot pad used on landing. */
  const HitboxOffsetX: real := 16.0
  const HitboxOffsetY: real := 10.0
  const HitboxW: real := 22.0
  const HitboxH: real := 58.0
  const FootPad: real := 2.0

  /** An axis-aligned box: left edge x, top edge y (y grows downward), width and height. */
  datatype Rect = Rect(x: real, y: real, w: real, h: real)

  /** A JavaScript number as far as positions need it: a finite value, or NaN. */
  datatype Num = Finite(v: real) | NaN

  /** Where the player stands. The source keeps this in `player.onPlatform`:
      `undefined` while airborne, `null` on the ground plane, otherwise a platform
      object, here the index of that platform in the map's list. */
  datatype Footing = Airborne | OnGround | OnPlatform(index: nat)

  /** A loaded map: the ground level and the platforms, the first of which is the ground plane. */
  datatype Stage = Stage(groundY: real, platforms: seq<Rect>)

  function Min(a: real, b: real): real { if a <= b then a else b }

  function Max(a: real, b: real): real { if a >= b then a else b }

  /** `clamp(v, a, b) = Math.max(a, Math.min(b, v))`. */
  function Clamp(v: real, lo: real, hi: real): (r: real)
    ensures lo <= hi ==> lo <= r <= hi
    ensures lo <= v <= hi ==> r == v
    ensures v < lo ==> r == lo
    ensures lo <= hi && hi < v ==> r == hi
    ensures hi < lo ==> r == lo
  {
    Max(lo, Min(hi, v))
  }

  /** `intersects(a, b)`: overlap with strict inequalities on all four sides. */
  predicate Intersects(a: Rect, b: Rect)
  {
    a.x < b.x + b.w &&
    a.x + a.w > b.x &&
    a.y < b.y + b.h &&
    a.y + a.h > b.y
  }

  /** A point strictly inside a box. */
  predicate Inside(px: real, py: real, r: Rect)
  {
    r.x < px < r.x + r.w && r.y < py < r.y + r.h
  }

  /** For boxes of positive size, the strict overlap test holds exactly when the two
      boxes share an interior point: touching edges do not count as contact. */
  lemma IntersectsIffSharedPoint(a: Rect, b: Rect)
    requires a.w > 0.0 && a.h > 0.0 && b.w > 0.0 && b.h > 0.0
    ensures Intersects(a, b) <==> exists px, py :: Inside(px, py, a) && Inside(px, py, b)
  {
    if Intersects(a, b) {
      var px := (Max(a.x, b.x) + Min(a.x + a.w, b.x + b.w)) / 2.0;
      var py := (Max(a.y, b.y) + Min(a.y + a.h, b.y + b.h)) / 2.0;
      assert Inside(px, py, a) && Inside(px, py, b);
    }
  }

  /** The overlap test does not depend on the order of its arguments. */
  lemma IntersectsSymmetric(a: Rect, b: Rect)
    ensures Intersects(a, b) == Intersects(b, a)
  {
  }

  /** `playerBoxAt(x, y)`: the collision box of a player whose sprite is at (x, y). */
  function PlayerBoxAt(x: real, y: real): (r: Rect)
    ensures x < r.x && r.x + r.w < x + PlayerW
    ensures y < r.y && r.y + r.h < y + PlayerH
    ensures r.w > 0.0 && r.h > 0.0
  {
    Rect(x + HitboxOffsetX, y + HitboxOffsetY, HitboxW, HitboxH)
  }

  /** The y-coordinate of the bottom edge of a box. */
  function Bottom(r: Rect): real { r.y + r.h }
}
