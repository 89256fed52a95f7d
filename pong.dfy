/** Definitions shared by the paddles, the ball and the game driver: the
    build-time constants, the direction enumeration, points and rectangles,
    the rectangle-overlap test and the `as i32` cast used by the bounds
    checks. The game's `f32` coordinates are modelled as `real`. */
module Pong {

  const PAD_SPEED: real := 7.5
  /** Length of the ball's per-tick displacement; the displacement itself is
      an input of the ball's update (see Balls.BallUpdate). */
  const BALL_SPEED: real := 9.0
  const SCREEN_WIDTH: int := 800
  const SCREEN_HEIGHT: int := 600

  const I32_MIN: int := -0x8000_0000
  const I32_MAX: int := 0x7fff_ffff

  datatype Option<T> = None | Some(value: T)

  /** One enumeration serves both entities: a paddle's intent is Up, Down or
      Still, a ball's horizontal sense is Left or Right. */
  datatype Direction = Up | Down | Left | Right | Still

  /** A position (x, y) or a size (width, height). */
  datatype Vec = Vec(x: real, y: real)

  function Abs(x: real): real {
    if x < 0.0 then -x else x
  }

  /** `offset_pos`: translate a position by an offset. The result lies at
      displacement o from p, so a purely vertical offset keeps x. */
  function Offset(p: Vec, o: Vec): (r: Vec)
    ensures r.x - p.x == o.x && r.y - p.y == o.y
    ensures o.x == 0.0 ==> r.x == p.x
  {
    Vec(p.x + o.x, p.y + o.y)
  }

  /** An axis-aligned rectangle: top-left corner and extent. */
  datatype Rect = Rect(pos: Vec, size: Vec)

  /** The strict four-way intersection test of the ball against a paddle:
      rectangles that merely touch along an edge do not overlap, and two
      rectangles can only overlap if their widths and their heights add up
      to something positive. */
  predicate Overlaps(a: Rect, b: Rect)
    ensures a.pos.x + a.size.x == b.pos.x || b.pos.x + b.size.x == a.pos.x ==> !Overlaps(a, b)
    ensures a.pos.y + a.size.y == b.pos.y || b.pos.y + b.size.y == a.pos.y ==> !Overlaps(a, b)
    ensures Overlaps(a, b) ==> a.size.x + b.size.x > 0.0 && a.size.y + b.size.y > 0.0
  {
    a.pos.x + a.size.x > b.pos.x && a.pos.x < b.pos.x + b.size.x &&
    a.pos.y + a.size.y > b.pos.y && a.pos.y < b.pos.y + b.size.y
  }

  /** Rust's `x as i32` for a finite `f32`: truncation toward zero, saturating
      at the bounds of `i32`. */
  function AsI32(x: real): (r: int)
    ensures I32_MIN <= r <= I32_MAX
    ensures 0.0 <= x ==> 0.0 <= r as real <= x
    ensures x <= 0.0 ==> x <= r as real <= 0.0
  {
    var t := if x >= 0.0 then x.Floor else -((-x).Floor);
    if t < I32_MIN then I32_MIN else if t > I32_MAX then I32_MAX else t
  }

  /** `x as i32 > k` holds exactly when x reaches k + 1: the fractional part
      above k is cut off. */
  lemma AsI32Above(x: real, k: nat)
    requires k < I32_MAX
    ensures AsI32(x) > k <==> x >= (k + 1) as real
  {
  }

  /** `x as i32 < -k` holds exactly when x reaches -(k + 1): truncation goes
      toward zero, so values in (-(k + 1), -k] still cast to -k or above. */
  lemma AsI32Below(x: real, k: int)
    requires 0 <= k < -I32_MIN
    ensures AsI32(x) < -k <==> x <= -((k + 1) as real)
  {
  }
}
