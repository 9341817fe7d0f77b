/** The dependency-injection sample's score keeper: an int accumulator. */
module Scoring {

  const Modulus: int := 0x1_0000_0000
  const IntMin: int := -0x8000_0000
  const IntMax: int := 0x7FFF_FFFF

  /** C#'s 32-bit int. */
  type Int32 = x: int | IntMin <= x <= IntMax

  /** Unchecked 32-bit addition wraps: the result is x reduced into int range modulo 2^32. */
  function Wrap(x: int): (r: Int32)
    ensures IntMin <= x <= IntMax ==> r == x
    ensures (x - r) % Modulus == 0
  {
    (x - IntMin) % Modulus + IntMin
  }

  /** Wrapping a partial result does not change later wrapped sums. */
  lemma WrapAbsorbs(a: int, b: int)
    ensures Wrap(Wrap(a) + b) == Wrap(a + b)
  {
    var k := (a - Wrap(a)) / Modulus;
    assert a - Wrap(a) == k * Modulus;
    assert (Wrap(a) + b - IntMin) == (a + b - IntMin) - k * Modulus;
    ModShift(a + b - IntMin, k);
  }

  lemma ModShift(x: int, k: int)
    ensures (x - k * Modulus) % Modulus == x % Modulus
  {
  }

  class ScoreManager {
    var score: Int32

    constructor ()
      ensures score == 0
    {
      score := 0;
    }

    /** AddScore(score): unchecked `_score += score`, with no bound or sign check. */
    method AddScore(s: Int32)
      modifies this
      ensures score == Wrap(old(score) + s)
    {
      score := Wrap(score + s);
    }

    /** GetScore(): reads the score and changes nothing. */
    method GetScore() returns (r: Int32)
      ensures r == score
    {
      r := score;
    }
  }

  function Sum(xs: seq<Int32>): int
    decreases |xs|
  {
    if xs == [] then 0 else xs[0] + Sum(xs[1..])
  }

  /** The score after AddScore is called with each of adds in turn. */
  function ScoreAfter(start: Int32, adds: seq<Int32>): Int32
    decreases |adds|
  {
    if adds == [] then start else ScoreAfter(Wrap(start + adds[0]), adds[1..])
  }

  /** Any sequence of AddScore calls leaves the wrapped sum of their arguments. */
  lemma {:induction false} ScoreAfterIsWrappedSum(start: Int32, adds: seq<Int32>)
    ensures ScoreAfter(start, adds) == Wrap(start + Sum(adds))
    decreases |adds|
  {
    if adds != [] {
      ScoreAfterIsWrappedSum(Wrap(start + adds[0]), adds[1..]);
      WrapAbsorbs(start + adds[0], Sum(adds[1..]));
    }
  }

  /** From a fresh manager, the score is exactly the sum of the added scores whenever that sum
      is within int range, even if partial sums overflowed on the way. */
  lemma ScoreIsSum(adds: seq<Int32>)
    requires IntMin <= Sum(adds) <= IntMax
    ensures ScoreAfter(0, adds) == Sum(adds)
  {
    ScoreAfterIsWrappedSum(0, adds);
  }
}
