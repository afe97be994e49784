/**
 * The inputs a script reads one after another from the outside world
 * (clock readings, resident-memory readings, probe outcomes).
 */
module Streams {
  /**
   * A stream of inputs: the ones `listed`, in order, then `rest` for ever
   * after.  A script reads finitely many inputs, so every sequence of
   * inputs it can observe is a prefix of some `Stream`.
   */
  datatype Stream<T> = Stream(listed: seq<T>, rest: T)

  /** Input number `i` (from 0) of stream `s`. */
  function At<T>(s: Stream<T>, i: nat): T {
    if i < |s.listed| then s.listed[i] else s.rest
  }

  /** A clock that never runs backwards. */
  ghost predicate Monotone(clock: Stream<int>) {
    forall a, b :: a <= b ==> At(clock, a) <= At(clock, b)
  }
}
