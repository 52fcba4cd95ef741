/** Vocabulary shared by all modules: optional and failing results, bounded
    tails of a sequence, and the two roundings the program uses. */
module Basics {

  datatype Option<+T> = None | Some(value: T)

  datatype Result<+T, +E> = Ok(value: T) | Err(error: E)

  // ----- bounded tails -----

  /** The last n elements of s, or all of s when it is shorter. */
  function LastN<T>(s: seq<T>, n: nat): (r: seq<T>)
    ensures |r| == if |s| <= n then |s| else n
  {
    if |s| <= n then s else s[|s| - n..]
  }

  /** Trimming before appending changes nothing that survives the final trim. */
  lemma LastNAppend<T>(s: seq<T>, x: T, n: nat, m: nat)
    requires n <= m + 1
    ensures LastN(LastN(s, m) + [x], n) == LastN(s + [x], n)
  {
  }

  /** Some element of a non-empty set. */
  ghost function Any<T>(s: set<T>): (x: T)
    requires s != {}
    ensures x in s
  {
    var x :| x in s;
    x
  }

  // ----- roundings -----

  /** Python's round() to an integer: nearest, ties to the even neighbour. */
  function RoundHalfEven(x: real): int {
    var f := x.Floor;
    var d := x - f as real;
    if d < 0.5 then f
    else if d > 0.5 then f + 1
    else if f % 2 == 0 then f
    else f + 1
  }

  /** Decimal's ROUND_HALF_UP: nearest, ties away from zero. */
  function RoundHalfUp(x: real): int {
    if x >= 0.0 then (x + 0.5).Floor else -((-x + 0.5).Floor)
  }

  lemma RoundHalfEvenIsNearest(x: real)
    ensures -0.5 <= RoundHalfEven(x) as real - x <= 0.5
  {
  }

  /** Nearest integer; of two that are equally near, the even one. */
  predicate IsRounded(x: real, n: int) {
    -0.5 <= n as real - x <= 0.5 && (n as real - x == 0.5 || n as real - x == -0.5 ==> n % 2 == 0)
  }

  lemma RoundHalfEvenMeaning(x: real, n: int)
    ensures RoundHalfEven(x) == n <==> IsRounded(x, n)
  {
  }

  lemma RoundHalfEvenMonotone(x: real, y: real)
    requires x <= y
    ensures RoundHalfEven(x) <= RoundHalfEven(y)
  {
  }

  lemma RoundHalfUpIsNearest(x: real)
    ensures -0.5 <= RoundHalfUp(x) as real - x <= 0.5
  {
  }

  /** Of two integers that are equally near, the one farther from zero. */
  lemma RoundHalfUpMeaning(x: real, n: int)
    ensures RoundHalfUp(x) == n <==>
      if x >= 0.0 then -0.5 < n as real - x <= 0.5 else -0.5 <= n as real - x < 0.5
  {
  }

  lemma RoundHalfUpMonotone(x: real, y: real)
    requires x <= y
    ensures RoundHalfUp(x) <= RoundHalfUp(y)
  {
  }

  // ----- reals -----

  function Min(x: real, y: real): real { if x <= y then x else y }

  function Max(x: real, y: real): real { if x >= y then x else y }

  lemma ProductNonNegative(x: real, y: real)
    requires x >= 0.0 && y >= 0.0
    ensures x * y >= 0.0
  {
  }

  function Abs(x: real): real { if x < 0.0 then -x else x }
}
