/** The running minimum and maximum of a stream of altitudes (the ExtremityMonitor collaborator). */
module Extremity {

  /** `NoData` is the monitor before its first update, when the Java object holds the
      sentinels min = +infinity and max = -infinity; `Range` holds the finite bounds. */
  datatype ExtremityMonitor = NoData | Range(min: real, max: real)
  {
    /** Bounds reached through updates never cross. */
    predicate Valid() {
      Range? ==> min <= max
    }

    /** True once at least one value was seen: neither bound is still infinite. */
    predicate HasData() {
      Range?
    }

    /** The closed interval covered by the bounds. */
    predicate Covers(x: real) {
      Range? && min <= x <= max
    }

    /** Widens the bounds so that they include `value`. */
    function Update(value: real): (r: ExtremityMonitor)
      ensures r.Valid() && r.Covers(value)
      ensures forall x :: Covers(x) ==> r.Covers(x)
      ensures r.min == value || (Range? && r.min == min)
      ensures r.max == value || (Range? && r.max == max)
    {
      match this
      case NoData => Range(value, value)
      case Range(lo, hi) =>
        Range(if value < lo then value else lo, if value > hi then value else hi)
    }

    /** Folds another monitor's bounds into this one, as `merge` does: nothing when the
        other has no data, otherwise an update with its minimum and then its maximum. */
    function Union(other: ExtremityMonitor): (r: ExtremityMonitor)
      requires Valid() && other.Valid()
      ensures r.Valid()
      ensures !other.HasData() ==> r == this
      ensures !HasData() ==> r == other
      ensures HasData() && other.HasData() ==>
        r == Range(if min <= other.min then min else other.min,
                   if max >= other.max then max else other.max)
    {
      if other.HasData() then Update(other.min).Update(other.max) else this
    }
  }
}
