/** The scoreboard: one counter per player, starting at zero, each raised by
    one per point the ball awards. */
module Scores {

  datatype Player = PadOne | PadTwo

  /** The value of the two counters. */
  datatype Score = Score(one: nat, two: nat)

  /** Award one point to p: exactly one counter rises, by one, and it is p's. */
  function Credit(s: Score, p: Player): (r: Score)
    ensures r.one + r.two == s.one + s.two + 1
    ensures s.one <= r.one && s.two <= r.two
    ensures p == PadOne <==> r.one == s.one + 1
    ensures p == PadTwo <==> r.two == s.two + 1
  {
    match p
    case PadOne => s.(one := s.one + 1)
    case PadTwo => s.(two := s.two + 1)
  }

  class ScoreBoard {
    var padOne: nat
    var padTwo: nat

    function Value(): Score
      reads this
    {
      Score(padOne, padTwo)
    }

    constructor ()
      ensures Value() == Score(0, 0)
    {
      padOne, padTwo := 0, 0;
    }
  }
}
