/** Small shared pieces. The maps of the agent and of the control plane use absence, and the
    zero time, to say "not set"; those values are optional here. */
module Wrappers {

  /** Durations are in nanoseconds. */
  const SECOND: int := 1_000_000_000

  function Min(a: int, b: int): int {
    if a < b then a else b
  }

  type Byte = b: int | 0 <= b < 256

  datatype Option<+T> = None | Some(value: T) {

    function Or(default: T): T {
      if Some? then value else default
    }
  }

  lemma SubsetSize<T>(a: set<T>, b: set<T>)
    requires a <= b
    ensures |a| <= |b|
  {
    assert b == a + (b - a);
  }
}
