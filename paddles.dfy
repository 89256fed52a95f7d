/** A player's paddle: a rectangle that moves vertically by PAD_SPEED per
    tick in the direction its player holds, and is clamped so that at most
    half of it leaves the screen at the top or at the bottom. */
module Paddles {
  import opened Pong

  /** The value of a paddle's fields. */
  datatype PadState = PadState(pos: Vec, size: Vec, direction: Direction)

  /** The band of y-coordinates the clamp keeps a paddle of height h in. */
  predicate InRange(y: real, h: real) {
    0.0 - h / 2.0 <= y <= SCREEN_HEIGHT as real - h / 2.0
  }

  /** The vertical offset of one tick: Up and Down move by PAD_SPEED, every
      other direction leaves the paddle where it is. */
  function Displacement(d: Direction): real {
    match d
    case Up => -PAD_SPEED
    case Down => PAD_SPEED
    case _ => 0.0
  }

  /** The clamp to the screen borders: the result always lies in the band; a
      y above the top stop -h/2 is put on it, a y whose bottom edge passes
      SCREEN_HEIGHT + h/2 is put on the bottom stop SCREEN_HEIGHT - h/2, and
      a y inside the band is kept. */
  function Clamp(y: real, h: real): (r: real)
    ensures InRange(r, h)
    ensures y < 0.0 - h / 2.0 ==> r == 0.0 - h / 2.0
    ensures y + h > SCREEN_HEIGHT as real + h / 2.0 ==> r == SCREEN_HEIGHT as real - h / 2.0
    ensures InRange(y, h) ==> r == y
  {
    if y < 0.0 - h / 2.0 then 0.0 - h / 2.0
    else if y + h > SCREEN_HEIGHT as real + h / 2.0 then SCREEN_HEIGHT as real - h / 2.0
    else y
  }

  /** `movement_update`: move by the held direction, then clamp. Only y can
      change and the result always lies in the clamp band: a move past the
      top stop ends on it, a move past the bottom stop ends on that, and a
      move that ends in the band is kept as is. */
  function MovementStep(s: PadState): (r: PadState)
    ensures r.pos.x == s.pos.x && r.size == s.size && r.direction == s.direction
    ensures InRange(r.pos.y, r.size.y)
    ensures var moved := s.pos.y + Displacement(s.direction);
            var h := s.size.y;
            (moved < 0.0 - h / 2.0 ==> r.pos.y == 0.0 - h / 2.0) &&
            (moved + h > SCREEN_HEIGHT as real + h / 2.0 ==> r.pos.y == SCREEN_HEIGHT as real - h / 2.0) &&
            (InRange(moved, h) ==> r.pos.y == moved)
  {
    var moved := Offset(s.pos, Vec(0.0, Displacement(s.direction)));
    PadState(Vec(moved.x, Clamp(moved.y, s.size.y)), s.size, s.direction)
  }

  /** The paddle's state after n ticks. */
  function Ticks(s: PadState, n: nat): PadState {
    if n == 0 then s else MovementStep(Ticks(s, n - 1))
  }

  /** A paddle that is not moving up or down is only clamped, so a second
      tick changes nothing; one already inside the band does not change at
      all. */
  lemma StillIdempotent(s: PadState)
    requires s.direction != Up && s.direction != Down
    ensures MovementStep(MovementStep(s)) == MovementStep(s)
    ensures InRange(s.pos.y, s.size.y) ==> MovementStep(s) == s
  {
  }

  /** Any number of ticks of a paddle that is not moving up or down give the
      state of the first tick. */
  lemma {:induction false} StillTicks(s: PadState, n: nat)
    requires s.direction != Up && s.direction != Down
    requires n >= 1
    ensures Ticks(s, n) == MovementStep(s)
  {
    if n > 1 {
      StillTicks(s, n - 1);
      StillIdempotent(s);
    }
  }

  /** Holding Up for n ticks from inside the band lowers y by n * PAD_SPEED
      until the paddle stops at the top stop -h/2, which it never passes. */
  lemma {:induction false} UpTicks(s: PadState, n: nat)
    requires s.direction == Up && s.size.y >= 0.0
    requires InRange(s.pos.y, s.size.y)
    ensures var y := s.pos.y - n as real * PAD_SPEED;
            Ticks(s, n).pos.y == if y < 0.0 - s.size.y / 2.0 then 0.0 - s.size.y / 2.0 else y
    ensures Ticks(s, n).size == s.size && Ticks(s, n).direction == Up
  {
    if n > 0 {
      UpTicks(s, n - 1);
    }
  }

  /** Holding Down for n ticks from inside the band raises y by
      n * PAD_SPEED until the paddle stops at SCREEN_HEIGHT - h/2. */
  lemma {:induction false} DownTicks(s: PadState, n: nat)
    requires s.direction == Down && s.size.y >= 0.0
    requires InRange(s.pos.y, s.size.y)
    ensures var y := s.pos.y + n as real * PAD_SPEED;
            var top := SCREEN_HEIGHT as real - s.size.y / 2.0;
            Ticks(s, n).pos.y == if y > top then top else y
    ensures Ticks(s, n).size == s.size && Ticks(s, n).direction == Down
  {
    if n > 0 {
      DownTicks(s, n - 1);
    }
  }

  class Pad {
    var pos: Vec
    var size: Vec
    var direction: Direction

    function State(): PadState
      reads this
    {
      PadState(pos, size, direction)
    }

    function Bounds(): Rect
      reads this
    {
      Rect(pos, size)
    }

    /** `Pad::new`: a paddle starts still. */
    constructor (pos: Vec, size: Vec)
      ensures State() == PadState(pos, size, Still)
    {
      this.pos := pos;
      this.size := size;
      direction := Still;
    }

    /** `Pad::update`: one tick of the paddle. */
    method Update()
      modifies this
      ensures State() == MovementStep(old(State()))
    {
      MovementUpdate();
    }

    /** `Pad::movement_update`: move by the held direction, then clamp y. */
    method MovementUpdate()
      modifies this
      ensures State() == MovementStep(old(State()))
    {
      match direction {
        case Up => pos := Offset(pos, Vec(0.0, -PAD_SPEED));
        case Down => pos := Offset(pos, Vec(0.0, PAD_SPEED));
        case _ =>
      }
      if pos.y < 0.0 - size.y / 2.0 {
        pos := pos.(y := 0.0 - size.y / 2.0);
      } else if pos.y + size.y > SCREEN_HEIGHT as real + size.y / 2.0 {
        pos := pos.(y := SCREEN_HEIGHT as real - size.y / 2.0);
      }
    }
  }
}
