/** The game state: two paddles, the ball and the scoreboard; the key
    handlers that set the paddles' intents; and the tick that advances
    paddle one, paddle two and then the ball. */
module Game {
  import opened Pong
  import opened Scores
  import opened Paddles
  import opened Balls

  const PAD_SIZE: Vec := Vec(10.0, 50.0)
  const BALL_SIZE: Vec := Vec(10.0, 10.0)
  const PAD_ONE_START: Vec := Vec(20.0, 275.0)
  const PAD_TWO_START: Vec := Vec(770.0, 275.0)
  const BALL_START: Vec := Vec(400.0, 300.0)

  // ------------------------------------------------------------- key handling

  /** The keys the game reacts to; every other key is Other. */
  datatype Keycode = ArrowUp | ArrowDown | W | S | Other

  /** The key map: the arrow keys drive pad two, W and S drive pad one;
      every bound key sets Up or Down, and each (player, direction) pair has
      exactly one key. */
  function Binding(k: Keycode): (r: Option<(Player, Direction)>)
    ensures r.Some? <==> k != Other
    ensures r.Some? ==> (r.value.1 == Up || r.value.1 == Down)
    ensures r.Some? ==> (r.value.0 == PadOne <==> (k == W || k == S))
    ensures r.Some? ==> (r.value.1 == Up <==> (k == W || k == ArrowUp))
  {
    match k
    case ArrowUp => Some((PadTwo, Up))
    case ArrowDown => Some((PadTwo, Down))
    case W => Some((PadOne, Up))
    case S => Some((PadOne, Down))
    case Other => None
  }

  /** The intents a paddle can hold. */
  predicate IsIntent(d: Direction) {
    d == Up || d == Down || d == Still
  }

  /** Player p's intent after key k goes down: a key bound to p sets the
      bound direction whatever p held before; any other key leaves it. */
  function Pressed(k: Keycode, p: Player, current: Direction): (r: Direction)
    ensures (Binding(k).Some? && Binding(k).value.0 == p) ==> r == Binding(k).value.1
    ensures !(Binding(k).Some? && Binding(k).value.0 == p) ==> r == current
    ensures IsIntent(current) ==> IsIntent(r)
  {
    match Binding(k)
    case Some((q, d)) => if q == p then d else current
    case None => current
  }

  /** Player p's intent after key k comes up: it changes exactly when k is
      bound to p and to the direction p currently holds, and then it becomes
      Still; releasing a key whose direction has since been overridden
      changes nothing. */
  function Lifted(k: Keycode, p: Player, current: Direction): (r: Direction)
    ensures r == Still || r == current
    ensures r != current <==> Binding(k) == Some((p, current))
  {
    match Binding(k)
    case Some((q, d)) => if q == p && current == d then Still else current
    case None => current
  }

  datatype KeyEvent = KeyDown(key: Keycode) | KeyUp(key: Keycode)

  /** Player p's intent after a sequence of key events, starting from d0. */
  function Intent(evs: seq<KeyEvent>, p: Player, d0: Direction): Direction
    decreases |evs|
  {
    if evs == [] then d0
    else
      var prev := Intent(evs[..|evs| - 1], p, d0);
      match evs[|evs| - 1]
      case KeyDown(k) => Pressed(k, p, prev)
      case KeyUp(k) => Lifted(k, p, prev)
  }

  /** Event i presses a key bound to p. */
  predicate PressAt(evs: seq<KeyEvent>, i: nat, p: Player)
    requires i < |evs|
  {
    evs[i].KeyDown? && Binding(evs[i].key).Some? && Binding(evs[i].key).value.0 == p
  }

  /** Event i releases the key bound to p and u. */
  predicate ReleaseAt(evs: seq<KeyEvent>, i: nat, p: Player, u: Direction)
    requires i < |evs|
  {
    evs[i].KeyUp? && Binding(evs[i].key) == Some((p, u))
  }

  /** The index of the last event that presses a key bound to p. */
  function LastPress(evs: seq<KeyEvent>, p: Player): (r: Option<nat>)
    ensures r.Some? ==> r.value < |evs| && PressAt(evs, r.value, p)
    ensures r.Some? ==> forall i :: r.value < i < |evs| ==> !PressAt(evs, i, p)
    ensures r.None? ==> forall i :: 0 <= i < |evs| ==> !PressAt(evs, i, p)
    decreases |evs|
  {
    if evs == [] then None
    else if PressAt(evs, |evs| - 1, p) then Some(|evs| - 1)
    else
      var pre := evs[..|evs| - 1];
      assert forall i :: 0 <= i < |pre| ==> PressAt(pre, i, p) == PressAt(evs, i, p);
      LastPress(pre, p)
  }

  /** Some event from index k on releases the key bound to p and u. */
  ghost predicate ReleasedFrom(evs: seq<KeyEvent>, k: nat, p: Player, u: Direction) {
    exists i :: k <= i < |evs| && ReleaseAt(evs, i, p, u)
  }

  /** The direction p holds, read off the event history directly: that of
      the most recent key press for p, as long as that key has not been
      released since; Still once it has; d0 if p pressed nothing and d0's
      key has not been released. */
  ghost function Held(evs: seq<KeyEvent>, p: Player, d0: Direction): Direction {
    match LastPress(evs, p)
    case None => if ReleasedFrom(evs, 0, p, d0) then Still else d0
    case Some(k) =>
      var u := Binding(evs[k].key).value.1;
      if ReleasedFrom(evs, k + 1, p, u) then Still else u
  }

  /** Splitting the last event off a history splits the releases. */
  lemma ReleasedFromSnoc(evs: seq<KeyEvent>, k: nat, p: Player, u: Direction)
    requires evs != []
    ensures var pre := evs[..|evs| - 1];
            ReleasedFrom(evs, k, p, u) <==>
              ReleasedFrom(pre, k, p, u) || (k < |evs| && ReleaseAt(evs, |evs| - 1, p, u))
  {
    var pre := evs[..|evs| - 1];
    if ReleasedFrom(evs, k, p, u) {
      var i :| k <= i < |evs| && ReleaseAt(evs, i, p, u);
      if i < |pre| {
        assert ReleaseAt(pre, i, p, u);
      }
    }
    if ReleasedFrom(pre, k, p, u) {
      var i :| k <= i < |pre| && ReleaseAt(pre, i, p, u);
      assert ReleaseAt(evs, i, p, u);
    }
  }

  /** The key handlers implement "move while the most recently pressed key
      is held": folding the events through Pressed and Lifted gives the
      direction Held reads off the history. */
  lemma {:induction false} IntentIsHeld(evs: seq<KeyEvent>, p: Player, d0: Direction)
    requires IsIntent(d0)
    ensures Intent(evs, p, d0) == Held(evs, p, d0)
    decreases |evs|
  {
    if evs == [] {
      assert !ReleasedFrom(evs, 0, p, d0);
    } else {
      var n := |evs| - 1;
      var pre := evs[..n];
      IntentIsHeld(pre, p, d0);
      var e := evs[n];
      if PressAt(evs, n, p) {
        assert LastPress(evs, p) == Some(n);
        assert !ReleasedFrom(evs, n + 1, p, Binding(e.key).value.1);
      } else {
        assert LastPress(evs, p) == LastPress(pre, p);
        match LastPress(pre, p)
        case None =>
          ReleasedFromSnoc(evs, 0, p, d0);
        case Some(k) =>
          assert evs[k] == pre[k];
          ReleasedFromSnoc(evs, k + 1, p, Binding(pre[k].key).value.1);
      }
    }
  }

  // ---------------------------------------------------------------- the game

  class MainState {
    const padOne: Pad
    const padTwo: Pad
    const ball: Ball
    const scoreboard: ScoreBoard

    /** What every handler and tick keeps: the two paddles are distinct
        objects of the game's sizes, fixed in x and inside the clamp band,
        each holding Up, Down or Still; the ball keeps its size, travels left
        or right, and blames paddle 0 or 1. */
    ghost predicate Valid()
      reads this, padOne, padTwo, ball
    {
      padOne != padTwo &&
      padOne.size == PAD_SIZE && padTwo.size == PAD_SIZE && ball.size == BALL_SIZE &&
      padOne.pos.x == PAD_ONE_START.x && padTwo.pos.x == PAD_TWO_START.x &&
      InRange(padOne.pos.y, PAD_SIZE.y) && InRange(padTwo.pos.y, PAD_SIZE.y) &&
      IsIntent(padOne.direction) && IsIntent(padTwo.direction) &&
      (ball.direction == Left || ball.direction == Right) && ball.lastHitIndex <= 1
    }

    /** `MainState::new`, with the first respawn's random draws as r and coin. */
    constructor (r: real, coin: bool)
      requires 60.0 <= r < 120.0
      ensures Valid()
      ensures fresh(padOne) && fresh(padTwo) && fresh(ball) && fresh(scoreboard)
      ensures padOne.State() == PadState(PAD_ONE_START, PAD_SIZE, Still)
      ensures padTwo.State() == PadState(PAD_TWO_START, PAD_SIZE, Still)
      ensures ball.State() == Spawn(BallState(BALL_START, BALL_SIZE, 90.0, Right, 0), r, coin)
      ensures scoreboard.Value() == Score(0, 0)
    {
      padOne := new Pad(PAD_ONE_START, PAD_SIZE);
      padTwo := new Pad(PAD_TWO_START, PAD_SIZE);
      ball := new Ball(BALL_START, BALL_SIZE);
      scoreboard := new ScoreBoard();
      new;
      ball.SpawnInMiddle(r, coin);
    }

    /** One tick (`EventHandler::update`): paddle one, then paddle two, then
        the ball against both paddles in their new positions. The result
        tells the caller to refresh the score text. */
    method Update(d: Vec, r: real, coin: bool) returns (scoreChanged: bool)
      requires Valid() && 60.0 <= r < 120.0
      modifies padOne, padTwo, ball, scoreboard
      ensures Valid()
      ensures padOne.State() == MovementStep(old(padOne.State()))
      ensures padTwo.State() == MovementStep(old(padTwo.State()))
      ensures var o := BallUpdate(old(ball.State()), [padOne.Bounds(), padTwo.Bounds()], d, r, coin);
              ball.State() == o.ball && scoreChanged == o.scorer.Some? &&
              scoreboard.Value() == Award(old(scoreboard.Value()), o.scorer)
      ensures old(scoreboard.padOne) <= scoreboard.padOne && old(scoreboard.padTwo) <= scoreboard.padTwo
    {
      padOne.Update();
      padTwo.Update();
      ghost var b := ball.State();
      ghost var rects := [padOne.Bounds(), padTwo.Bounds()];
      assert Rects([padOne, padTwo]) == rects;
      scoreChanged := ball.Update([padOne, padTwo], scoreboard, d, r, coin);
      BallInvariant(b, rects, d, r, coin);
    }

    /** `key_down_event`: the bound paddle takes the key's direction. */
    method KeyDownEvent(k: Keycode)
      requires Valid()
      modifies padOne, padTwo
      ensures Valid()
      ensures padOne.State() == old(padOne.State()).(direction := Pressed(k, PadOne, old(padOne.direction)))
      ensures padTwo.State() == old(padTwo.State()).(direction := Pressed(k, PadTwo, old(padTwo.direction)))
    {
      match k {
        case ArrowUp => padTwo.direction := Up;
        case ArrowDown => padTwo.direction := Down;
        case W => padOne.direction := Up;
        case S => padOne.direction := Down;
        case Other =>
      }
    }

    /** `key_up_event`: the bound paddle stops if it is still moving in the
        released key's direction. */
    method KeyUpEvent(k: Keycode)
      requires Valid()
      modifies padOne, padTwo
      ensures Valid()
      ensures padOne.State() == old(padOne.State()).(direction := Lifted(k, PadOne, old(padOne.direction)))
      ensures padTwo.State() == old(padTwo.State()).(direction := Lifted(k, PadTwo, old(padTwo.direction)))
    {
      match k {
        case ArrowUp =>
          if padTwo.direction == Up {
            padTwo.direction := Still;
          }
        case ArrowDown =>
          if padTwo.direction == Down {
            padTwo.direction := Still;
          }
        case W =>
          if padOne.direction == Up {
            padOne.direction := Still;
          }
        case S =>
          if padOne.direction == Down {
            padOne.direction := Still;
          }
        case Other =>
      }
    }
  }
}
