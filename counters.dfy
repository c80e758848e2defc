/**
 * The kill and death counters of a player are C# `int` fields, incremented
 * with `++` in an unchecked context: they are 32-bit two's-complement
 * integers that wrap from int.MaxValue to int.MinValue.
 */
module Counters {

  newtype int32 = x: int | -0x8000_0000 <= x < 0x8000_0000

  const MinInt32: int32 := -0x8000_0000
  const MaxInt32: int32 := 0x7FFF_FFFF

  /** `x++` on a 32-bit signed integer: the result is x + 1 modulo 2^32. */
  function Increment(x: int32): (r: int32)
    ensures (r as int - x as int - 1) % 0x1_0000_0000 == 0
  {
    if x == MaxInt32 then MinInt32 else x + 1
  }

  /** Below the maximum, an increment adds exactly one, so a non-negative counter stays non-negative and grows. */
  lemma IncrementBelowMax(x: int32)
    requires x < MaxInt32
    ensures Increment(x) as int == x as int + 1
    ensures 0 <= x ==> 0 < Increment(x)
  {
  }

  /** At the maximum, an increment wraps to the most negative value. */
  lemma IncrementWrapsAtMax()
    ensures Increment(MaxInt32) == MinInt32
    ensures Increment(MaxInt32) < 0
  {
  }
}
