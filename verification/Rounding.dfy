/** Python's `round` and fixed-point formatting over exact numbers: to the nearest
    multiple, ties to the even one. */
module Rounding {

  function RoundHalfEven(x: real): int {
    var below := x.Floor;
    if x - below as real < 0.5 then below
    else if x - below as real > 0.5 then below + 1
    else if below % 2 == 0 then below else below + 1
  }

  lemma RoundsToNearestTiesToEven(x: real)
    ensures -0.5 <= RoundHalfEven(x) as real - x <= 0.5
    ensures RoundHalfEven(x) as real - x in {-0.5, 0.5} ==> RoundHalfEven(x) % 2 == 0
  {}
}
