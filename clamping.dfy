/**
 * `Comparable.clamped(to:)` and its mutating twin `clamp(to:)`, instantiated
 * at `CGFloat` (modelled as `real`), the type the picker clamps its indicator
 * offset in.
 */
module Clamping {

  /** Swift's `max(_:_:)`: the second argument when it is not smaller. */
  function Max(x: real, y: real): real
  {
    if y >= x then y else x
  }

  /** Swift's `min(_:_:)`: the second argument when it is smaller. */
  function Min(x: real, y: real): real
  {
    if y < x then y else x
  }

  /** `clamped(to: lo...hi)`; the closed range can only be formed when `lo <= hi`. */
  function Clamped(x: real, lo: real, hi: real): real
    requires lo <= hi
  {
    var minClamped := Max(x, lo);
    Min(minClamped, hi)
  }

  /** The result lies in the range: unchanged inside it, the nearer bound outside it. */
  lemma ClampedWithin(x: real, lo: real, hi: real)
    requires lo <= hi
    ensures lo <= Clamped(x, lo, hi) <= hi
    ensures lo <= x <= hi ==> Clamped(x, lo, hi) == x
    ensures x < lo ==> Clamped(x, lo, hi) == lo
    ensures x > hi ==> Clamped(x, lo, hi) == hi
  {
  }

  /** Clamping twice is clamping once. */
  lemma ClampedIdempotent(x: real, lo: real, hi: real)
    requires lo <= hi
    ensures Clamped(Clamped(x, lo, hi), lo, hi) == Clamped(x, lo, hi)
  {
  }

  /** Clamping preserves order. */
  lemma ClampedMonotone(x: real, y: real, lo: real, hi: real)
    requires lo <= hi && x <= y
    ensures Clamped(x, lo, hi) <= Clamped(y, lo, hi)
  {
  }

  /** A mutable `CGFloat` variable, the receiver of the mutating `clamp(to:)`. */
  class Variable {
    var value: real

    constructor (value: real)
      ensures this.value == value
    {
      this.value := value;
    }

    /** `clamp(to: lo...hi)`: replace the value by its clamped version, changing nothing else. */
    method Clamp(lo: real, hi: real)
      requires lo <= hi
      modifies this
      ensures value == Clamped(old(value), lo, hi)
      ensures lo <= value <= hi
      ensures lo <= old(value) <= hi ==> value == old(value)
    {
      ClampedWithin(value, lo, hi);
      value := Clamped(value, lo, hi);
    }
  }
}
