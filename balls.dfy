/** The ball: each tick it bounces off the first paddle it overlaps, moves by
    its displacement, and, once it has left the field, awards a point and
    respawns in the middle. The displacement (sin and cos of the angle,
    times BALL_SPEED) and the random draws of the respawn are inputs. */
module Balls {
  import opened Pong
  import opened Scores
  import opened Paddles

  /** The value of a ball's fields; lastHit is the index, in the paddle list,
      of the paddle that touched the ball last. */
  datatype BallState = BallState(pos: Vec, size: Vec, angle: real, direction: Direction, lastHit: nat)
  {
    function Bounds(): Rect {
      Rect(pos, size)
    }
  }

  /** Every paddle of the list has a positive height. */
  predicate PositiveHeights(pads: seq<Rect>) {
    forall i :: 0 <= i < |pads| ==> pads[i].size.y > 0.0
  }

  // ---------------------------------------------------------------- collision

  /** The index of the first paddle, in list order, that the ball overlaps. */
  function FirstHit(ball: Rect, pads: seq<Rect>): (r: Option<nat>)
    ensures r.Some? ==> r.value < |pads| && Overlaps(ball, pads[r.value])
    ensures r.Some? ==> forall j :: 0 <= j < r.value ==> !Overlaps(ball, pads[j])
    ensures r.None? ==> forall j :: 0 <= j < |pads| ==> !Overlaps(ball, pads[j])
  {
    if |pads| == 0 then None
    else if Overlaps(ball, pads[0]) then Some(0)
    else match FirstHit(ball, pads[1..])
      case None => None
      case Some(i) => Some(i + 1)
  }

  /** The outgoing angle, in degrees, for a ball that hits pad: 112.5 when the
      ball's top is level with the paddle's top, falling by 45 over the
      paddle's height. */
  function HitAngle(b: BallState, pad: Rect): real
    requires pad.size.y > 0.0
  {
    112.5 - 45.0 * ((b.pos.y - pad.pos.y) / pad.size.y)
  }

  /** For a ball that overlaps the paddle, the angle lies strictly between
      67.5 and 112.5 + 45 * (ball height / paddle height). */
  lemma HitAngleRange(b: BallState, pad: Rect)
    requires pad.size.y > 0.0 && Overlaps(b.Bounds(), pad)
    ensures 67.5 < HitAngle(b, pad) < 112.5 + 45.0 * (b.size.y / pad.size.y)
  {
    var h := pad.size.y;
    var t := (b.pos.y - pad.pos.y) / h;
    assert t * h == b.pos.y - pad.pos.y;
    assert t * h < 1.0 * h;
    assert t < 1.0;
    var u := b.size.y / h;
    assert u * h == b.size.y;
    assert (t + u) * h > 0.0;
    assert t + u > 0.0;
  }

  /** The bounce off pad: the ball turns around, its angle is set from where
      it met the paddle, and its x is moved. A ball travelling right is put
      flush against the paddle's left edge; any other ball is put at x =
      pad.x + pad.x, which clears the paddle only when the paddle stands at
      least its own width from the left edge (or the ball is level with x =
      0 or further left). */
  function Bounce(b: BallState, pad: Rect): (r: BallState)
    requires pad.size.y > 0.0 && Overlaps(b.Bounds(), pad)
    ensures r.pos.y == b.pos.y && r.size == b.size && r.lastHit == b.lastHit
    ensures r.direction == if b.direction == Right then Left else Right
    ensures Abs(r.angle) == HitAngle(b, pad)
    ensures 67.5 < Abs(r.angle) < 112.5 + 45.0 * (b.size.y / pad.size.y)
    ensures r.angle < 0.0 <==> r.direction == Left
    ensures b.direction == Right ==> r.pos.x + r.size.x == pad.pos.x && !Overlaps(r.Bounds(), pad)
    ensures b.direction != Right ==> r.pos.x == pad.pos.x + pad.pos.x
    ensures b.direction != Right ==>
              (Overlaps(r.Bounds(), pad) <==> pad.pos.x < pad.size.x && pad.pos.x + b.size.x > 0.0)
  {
    HitAngleRange(b, pad);
    var a := HitAngle(b, pad);
    if b.direction == Right then
      b.(angle := -a, direction := Left, pos := b.pos.(x := pad.pos.x - b.size.x))
    else
      b.(angle := a, direction := Right, pos := b.pos.(x := pad.pos.x + pad.pos.x))
  }

  /** `collision_update` on values: the ball after the collision phase and
      the index of the paddle hit, if any. */
  function Collide(b: BallState, pads: seq<Rect>): (r: (BallState, Option<nat>))
    requires PositiveHeights(pads)
    ensures r.1 == FirstHit(b.Bounds(), pads)
    ensures r.1.None? ==> r.0 == b
    ensures r.1.Some? ==> r.0.direction != b.direction && r.0.pos.y == b.pos.y &&
                          r.0.size == b.size && r.0.lastHit == b.lastHit
  {
    match FirstHit(b.Bounds(), pads)
    case None => (b, None)
    case Some(i) => (Bounce(b, pads[i]), Some(i))
  }

  // ------------------------------------------------------------------- motion

  /** Collision phase, then the record of the hit, then the move by d. A hit
      this tick decides lastHit; with no hit the ball only moves. */
  function Advance(b: BallState, pads: seq<Rect>, d: Vec): (m: BallState)
    requires PositiveHeights(pads)
    ensures m.size == b.size && m.pos.y == b.pos.y + d.y
    ensures m.lastHit == match FirstHit(b.Bounds(), pads) case Some(i) => i case None => b.lastHit
    ensures FirstHit(b.Bounds(), pads).None? ==>
              m == b.(pos := Vec(b.pos.x + d.x, b.pos.y + d.y))
    ensures FirstHit(b.Bounds(), pads).Some? ==>
              m.direction != b.direction && (m.direction == Left || m.direction == Right)
  {
    var (c, hit) := Collide(b, pads);
    var c' := if hit.Some? then c.(lastHit := hit.value) else c;
    c'.(pos := Vec(c'.pos.x + d.x, c'.pos.y + d.y))
  }

  // ----------------------------------------------------------- bounds, respawn

  datatype Exit = Inside | SideExit | EndExit

  /** The bounds test after the move, on the truncated coordinates: the ball
      leaves by a side once x as i32 passes SCREEN_WIDTH + 50 or (x + width)
      as i32 passes -50, and otherwise by the top or bottom once y as i32
      passes SCREEN_HEIGHT + 20 or (y + height) as i32 passes -20. Because
      the cast truncates toward zero, the thresholds on the real coordinates
      are one unit further out. */
  function ExitOf(pos: Vec, size: Vec): (e: Exit)
    ensures e == SideExit <==>
              pos.x >= (SCREEN_WIDTH + 51) as real || pos.x + size.x <= -51.0
    ensures e == EndExit <==>
              !(pos.x >= (SCREEN_WIDTH + 51) as real || pos.x + size.x <= -51.0) &&
              (pos.y >= (SCREEN_HEIGHT + 21) as real || pos.y + size.y <= -21.0)
  {
    AsI32Above(pos.x, SCREEN_WIDTH + 50);
    AsI32Below(pos.x + size.x, 50);
    AsI32Above(pos.y, SCREEN_HEIGHT + 20);
    AsI32Below(pos.y + size.y, 20);
    if AsI32(pos.x) > SCREEN_WIDTH + 50 || AsI32(pos.x + size.x) < -50 then SideExit
    else if AsI32(pos.y) > SCREEN_HEIGHT + 20 || AsI32(pos.y + size.y) < -20 then EndExit
    else Inside
  }

  /** Who is credited for an exit, from the index of the paddle that touched
      the ball last: a side exit credits pad one when that index is 0, a
      top or bottom exit credits pad two when it is 0; the two kinds of exit
      credit opposite players for the same index. */
  function Scorer(e: Exit, lastHit: nat): (r: Option<Player>)
    ensures r.None? <==> e == Inside
    ensures e != Inside ==> (r == Some(PadOne) <==> (e == SideExit <==> lastHit == 0))
  {
    match e
    case Inside => None
    case SideExit => if lastHit == 0 then Some(PadOne) else Some(PadTwo)
    case EndExit => if lastHit == 0 then Some(PadTwo) else Some(PadOne)
  }

  /** `spawn_in_middle`, with the uniform draw from [60, 120) given as r and
      the coin flip as coin: the ball is centred on the screen and heads left
      (negative angle, blame index 1) on heads, right (positive angle, blame
      index 0) on tails. */
  function Spawn(b: BallState, r: real, coin: bool): (s: BallState)
    requires 60.0 <= r < 120.0
    ensures s.size == b.size
    ensures s.pos.x + s.size.x / 2.0 == SCREEN_WIDTH as real / 2.0
    ensures s.pos.y + s.size.y / 2.0 == SCREEN_HEIGHT as real / 2.0
    ensures 60.0 <= Abs(s.angle) < 120.0 && Abs(s.angle) == r
    ensures s.direction == Left <==> coin
    ensures s.direction == Left || s.direction == Right
    ensures s.direction == Left <==> s.angle < 0.0
    ensures s.lastHit <= 1 && (s.lastHit == 1 <==> s.direction == Left)
  {
    var centre := Vec(SCREEN_WIDTH as real / 2.0 - b.size.x / 2.0,
                      SCREEN_HEIGHT as real / 2.0 - b.size.y / 2.0);
    if coin then BallState(centre, b.size, -r, Left, 1)
    else BallState(centre, b.size, r, Right, 0)
  }

  // --------------------------------------------------------------------- tick

  /** The ball after a tick, and the player credited, if any. */
  datatype Outcome = Outcome(ball: BallState, scorer: Option<Player>)

  /** `Ball::update` on values. A point is awarded exactly when the moved
      ball is out of the field; the ball keeps its size; a scoring tick
      leaves the ball centred on the screen, and any other tick leaves it
      where it moved to. */
  function BallUpdate(b: BallState, pads: seq<Rect>, d: Vec, r: real, coin: bool): (o: Outcome)
    requires PositiveHeights(pads)
    requires 60.0 <= r < 120.0
    ensures var m := Advance(b, pads, d);
            o.scorer.Some? <==>
              m.pos.x >= (SCREEN_WIDTH + 51) as real || m.pos.x + m.size.x <= -51.0 ||
              m.pos.y >= (SCREEN_HEIGHT + 21) as real || m.pos.y + m.size.y <= -21.0
    ensures o.ball.size == b.size
    ensures o.scorer.Some? ==> o.ball.pos.x + o.ball.size.x / 2.0 == SCREEN_WIDTH as real / 2.0 &&
                               o.ball.pos.y + o.ball.size.y / 2.0 == SCREEN_HEIGHT as real / 2.0
    ensures o.scorer.None? ==> o.ball == Advance(b, pads, d)
  {
    var m := Advance(b, pads, d);
    var s := Scorer(ExitOf(m.pos, m.size), m.lastHit);
    Outcome(if s.Some? then Spawn(m, r, coin) else m, s)
  }

  /** The scoreboard after a tick's outcome. */
  function Award(s: Score, scorer: Option<Player>): Score {
    match scorer
    case None => s
    case Some(p) => Credit(s, p)
  }

  /** A point is awarded exactly when the moved ball is out of the field. A
      side exit credits pad one when the last paddle to touch the ball (the
      one hit this tick, if any) has index 0 and pad two otherwise; a top or
      bottom exit credits the other player. */
  lemma ScoringAttribution(b: BallState, pads: seq<Rect>, d: Vec, r: real, coin: bool)
    requires PositiveHeights(pads) && 60.0 <= r < 120.0
    ensures var m := Advance(b, pads, d);
            var o := BallUpdate(b, pads, d, r, coin);
            var h := match FirstHit(b.Bounds(), pads) case Some(i) => i case None => b.lastHit;
            var side := m.pos.x >= (SCREEN_WIDTH + 51) as real || m.pos.x + m.size.x <= -51.0;
            var end := m.pos.y >= (SCREEN_HEIGHT + 21) as real || m.pos.y + m.size.y <= -21.0;
            (side ==> o.scorer == Some(if h == 0 then PadOne else PadTwo)) &&
            (!side && end ==> o.scorer == Some(if h == 0 then PadTwo else PadOne)) &&
            (!side && !end ==> o.scorer == None)
  {
  }

  /** A tick that awards a point adds exactly one to the total and respawns
      the moved ball (centred, with blame index 0 or 1 and the angle and
      direction the draws pick); a tick that awards none leaves the
      scoreboard alone and the ball where it moved to. */
  lemma TickScoresAtMostOnce(b: BallState, pads: seq<Rect>, d: Vec, r: real, coin: bool, s: Score)
    requires PositiveHeights(pads) && 60.0 <= r < 120.0
    ensures var o := BallUpdate(b, pads, d, r, coin);
            var s' := Award(s, o.scorer);
            (o.scorer.Some? ==> s'.one + s'.two == s.one + s.two + 1 &&
                                o.ball.pos.x + o.ball.size.x / 2.0 == SCREEN_WIDTH as real / 2.0 &&
                                o.ball.pos.y + o.ball.size.y / 2.0 == SCREEN_HEIGHT as real / 2.0 &&
                                o.ball.lastHit <= 1 &&
                                o.ball == Spawn(Advance(b, pads, d), r, coin)) &&
            (o.scorer.None? ==> s' == s && o.ball == Advance(b, pads, d))
  {
  }

  /** The game's ball invariant survives a tick against at most two paddles:
      its size is kept, it travels left or right, and the blame index stays
      0 or 1. */
  lemma BallInvariant(b: BallState, pads: seq<Rect>, d: Vec, r: real, coin: bool)
    requires PositiveHeights(pads) && 60.0 <= r < 120.0 && |pads| <= 2
    requires b.lastHit <= 1 && (b.direction == Left || b.direction == Right)
    ensures var o := BallUpdate(b, pads, d, r, coin);
            o.ball.size == b.size && o.ball.lastHit <= 1 &&
            (o.ball.direction == Left || o.ball.direction == Right)
  {
  }

  // -------------------------------------------------------------------- class

  /** The rectangles of a list of paddles, in order. */
  function Rects(pads: seq<Pad>): (r: seq<Rect>)
    reads pads
    ensures |r| == |pads| && forall i :: 0 <= i < |pads| ==> r[i] == pads[i].Bounds()
  {
    if pads == [] then [] else [pads[0].Bounds()] + Rects(pads[1..])
  }

  class Ball {
    var pos: Vec
    var size: Vec
    var angle: real
    var direction: Direction
    var lastHitIndex: nat

    function State(): BallState
      reads this
    {
      BallState(pos, size, angle, direction, lastHitIndex)
    }

    function Bounds(): Rect
      reads this
    {
      Rect(pos, size)
    }

    /** `Ball::new`: heading right at 90 degrees, blame index 0. */
    constructor (pos: Vec, size: Vec)
      ensures State() == BallState(pos, size, 90.0, Right, 0)
    {
      this.pos := pos;
      this.size := size;
      angle := 90.0;
      direction := Right;
      lastHitIndex := 0;
    }

    /** `Ball::update`: collide, record the hit, move by d, then test the
        sides before the top and bottom; on an exit credit one counter of
        the scoreboard, respawn, and report the change. */
    method Update(pads: seq<Pad>, scoreboard: ScoreBoard, d: Vec, r: real, coin: bool)
      returns (scoreChanged: bool)
      requires PositiveHeights(Rects(pads))
      requires 60.0 <= r < 120.0
      modifies this, scoreboard
      ensures var o := BallUpdate(old(State()), old(Rects(pads)), d, r, coin);
              State() == o.ball && scoreChanged == o.scorer.Some? &&
              scoreboard.Value() == Award(old(scoreboard.Value()), o.scorer)
    {
      ghost var rects := Rects(pads);
      ghost var b := State();
      ghost var m := Advance(b, rects, d);

      var hit := CollisionUpdate(pads);
      assert (State(), hit) == Collide(b, rects);
      if hit.Some? {
        lastHitIndex := hit.value;
      }

      var x := pos.x + d.x;
      var y := pos.y + d.y;
      pos := Vec(x, y);
      assert State() == m;
      AsI32Above(x, SCREEN_WIDTH + 50);
      AsI32Below(x + size.x, 50);
      AsI32Above(y, SCREEN_HEIGHT + 20);
      AsI32Below(y + size.y, 20);

      if AsI32(x) > SCREEN_WIDTH + 50 || AsI32(x + size.x) < -50 {
        ghost var p := if lastHitIndex == 0 then PadOne else PadTwo;
        assert BallUpdate(b, rects, d, r, coin) == Outcome(Spawn(m, r, coin), Some(p));
        if lastHitIndex == 0 {
          scoreboard.padOne := scoreboard.padOne + 1;
        } else {
          scoreboard.padTwo := scoreboard.padTwo + 1;
        }
        assert scoreboard.Value() == Credit(old(scoreboard.Value()), p);
        SpawnInMiddle(r, coin);
        return true;
      } else if AsI32(y) > SCREEN_HEIGHT + 20 || AsI32(y + size.y) < -20 {
        ghost var p := if lastHitIndex == 0 then PadTwo else PadOne;
        assert BallUpdate(b, rects, d, r, coin) == Outcome(Spawn(m, r, coin), Some(p));
        if lastHitIndex == 0 {
          scoreboard.padTwo := scoreboard.padTwo + 1;
        } else {
          scoreboard.padOne := scoreboard.padOne + 1;
        }
        assert scoreboard.Value() == Credit(old(scoreboard.Value()), p);
        SpawnInMiddle(r, coin);
        return true;
      }
      assert BallUpdate(b, rects, d, r, coin) == Outcome(m, None);
      return false;
    }

    /** `spawn_in_middle`, with the random draws given as r and coin. */
    method SpawnInMiddle(r: real, coin: bool)
      requires 60.0 <= r < 120.0
      modifies this
      ensures State() == Spawn(old(State()), r, coin)
    {
      var x := SCREEN_WIDTH as real / 2.0 - size.x / 2.0;
      var y := SCREEN_HEIGHT as real / 2.0 - size.y / 2.0;
      pos := Vec(x, y);
      angle := r;
      if coin {
        direction := Left;
        angle := -angle;
        lastHitIndex := 1;
      } else {
        direction := Right;
        lastHitIndex := 0;
      }
    }

    /** `collision_update`: scan the paddles in order, stop at the first one
        the ball overlaps, and bounce off it. */
    method CollisionUpdate(pads: seq<Pad>) returns (hit: Option<nat>)
      requires PositiveHeights(Rects(pads))
      modifies this
      ensures hit == FirstHit(old(Bounds()), old(Rects(pads)))
      ensures (State(), hit) == Collide(old(State()), old(Rects(pads)))
    {
      ghost var b := State();
      ghost var rects := Rects(pads);
      var collider: Option<Pad> := None;
      hit := None;
      var i := 0;
      while i < |pads|
        invariant 0 <= i <= |pads|
        invariant collider == None && hit == None
        invariant forall j :: 0 <= j < i ==> !Overlaps(b.Bounds(), rects[j])
      {
        var pad := pads[i];
        if pos.x + size.x > pad.pos.x && pos.x < pad.pos.x + pad.size.x &&
           pos.y + size.y > pad.pos.y && pos.y < pad.pos.y + pad.size.y
        {
          assert Overlaps(b.Bounds(), rects[i]);
          collider := Some(pad);
          hit := Some(i);
          break;
        }
        i := i + 1;
      }
      assert hit == FirstHit(b.Bounds(), rects);
      assert collider.Some? <==> hit.Some?;
      assert collider.Some? ==> hit.value < |pads| && collider.value == pads[hit.value];

      if collider.Some? {
        var pad := collider.value;
        assert pad.Bounds() == rects[hit.value];
        angle := 112.5 - 45.0 * ((pos.y - pad.pos.y) / pad.size.y);
        assert angle == HitAngle(b, pad.Bounds());
        if direction == Right {
          angle := -angle;
          direction := Left;
          pos := pos.(x := pad.pos.x - size.x);
        } else {
          direction := Right;
          pos := pos.(x := pad.pos.x + pad.pos.x);
        }
        assert State() == Bounce(b, pad.Bounds());
      }
    }
  }
}
