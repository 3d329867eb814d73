/**
 * The second copy of `ClosedRange<Date>.scale(to:)` (Extension.swift). It performs the
 * same arithmetic as the copy in ClosedRange.swift; the model keeps it separate and
 * proves that the two agree on every input, so every property of one holds of the other.
 */
module DateRangeExtension {
  import opened DateRanges

  function DuplicateScale(r: DateRange, factor: real): (s: DateRange)
    requires CanJoin(ScaledBounds(r, factor))
    ensures s == Scale(r, factor)
    ensures Width(s) == Width(r) * factor && Midpoint(s) == Midpoint(r)
  {
    var start := r.lower;
    var end := r.upper;
    var interval := end - start;
    var scaledInterval := interval * factor;
    var scaledStart := start + (interval - scaledInterval) / 2.0;
    var scaledEnd := end + -(interval - scaledInterval) / 2.0;
    Bounds(scaledStart, scaledEnd)
  }

  /** The duplicate is the identity at factor 1 and traps on a negative factor exactly
      when the range is wider than an instant, like the original. */
  lemma DuplicateScaleEdges(r: DateRange, factor: real)
    ensures CanJoin(ScaledBounds(r, 1.0)) && DuplicateScale(r, 1.0) == r
    ensures factor < 0.0 ==> (CanJoin(ScaledBounds(r, factor)) <==> Width(r) == 0.0)
  {
    ScaleIdentity(r);
    ScaleDefinedIff(r, factor);
  }
}
