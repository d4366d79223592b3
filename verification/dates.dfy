/**
 * Foundation `Date` values as seconds (a `real`) since the reference date,
 * and `ClosedRange<Date>` as a pair of bounds with lower <= upper (Swift
 * traps when a closed range is built with the bounds reversed).
 */
module Dates {

  type Date = real

  /** `Date.distantPast` (0001-01-01T00:00:00Z). */
  const DistantPast: Date := -63114076800.0

  /** `Date.distantFuture` (4001-01-01T00:00:00Z). */
  const DistantFuture: Date := 63113904000.0

  datatype DateRange = DateRange(lower: Date, upper: Date)

  type ClosedRange = r: DateRange | r.lower <= r.upper witness DateRange(0.0, 0.0)

  /** `ClosedRange.contains`: inclusive at both ends. */
  predicate Contains(r: ClosedRange, d: Date) {
    r.lower <= d <= r.upper
  }

  /** `d...d`: the range holding a single instant. */
  function Point(d: Date): (r: ClosedRange)
    ensures Contains(r, d)
    ensures forall e: Date :: Contains(r, e) ==> e == d
  {
    DateRange(d, d)
  }

  /** `Date.distantPast...Date.distantFuture`. */
  const Unbounded: ClosedRange := DateRange(DistantPast, DistantFuture)

  /** `upperBound.timeIntervalSince(lowerBound)`. */
  function Duration(r: ClosedRange): (t: real)
    ensures t >= 0.0
    ensures t == 0.0 <==> forall e: Date :: Contains(r, e) ==> e == r.lower
  {
    if r.upper == r.lower then 0.0
    else
      assert Contains(r, r.upper);
      r.upper - r.lower
  }
}
