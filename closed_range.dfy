/**
 * `ClosedRange<Date>.scale(to:)` and `suggestScale()`: zooming a date range about its
 * midpoint and the zoom scale suggested for a range. Dates are seconds (`real`); the
 * arithmetic is exact.
 */
module DateRanges {

  /** A pair of bounds before Swift's `...` has checked them. */
  datatype Bounds = Bounds(lower: real, upper: real)

  /** `ClosedRange<Date>`: bounds with lower <= upper. */
  type DateRange = b: Bounds | b.lower <= b.upper witness Bounds(0.0, 0.0)

  function Width(b: Bounds): real {
    b.upper - b.lower
  }

  function Midpoint(b: Bounds): real {
    (b.lower + b.upper) / 2.0
  }

  /** Swift's `lower ... upper` traps unless lower <= upper. */
  predicate CanJoin(b: Bounds) {
    b.lower <= b.upper
  }

  /** The two dates `scale(to:)` computes: half of the lost (or gained) width is taken
      from (or added to) each end. */
  function ScaledBounds(r: DateRange, factor: real): (b: Bounds)
    ensures Width(b) == Width(r) * factor
    ensures Midpoint(b) == Midpoint(r)
  {
    var interval := r.upper - r.lower;
    var scaledInterval := interval * factor;
    Bounds(r.lower + (interval - scaledInterval) / 2.0, r.upper + -(interval - scaledInterval) / 2.0)
  }

  /** `scale(to:)`; its precondition is the one `...` imposes on the computed bounds. */
  function Scale(r: DateRange, factor: real): (s: DateRange)
    requires CanJoin(ScaledBounds(r, factor))
    ensures Width(s) == Width(r) * factor
    ensures Midpoint(s) == Midpoint(r)
  {
    ScaledBounds(r, factor)
  }

  /** The range can be built exactly when the factor is non-negative or the range is a
      single instant; a negative factor on a wider range would trap. */
  lemma ScaleDefinedIff(r: DateRange, factor: real)
    ensures CanJoin(ScaledBounds(r, factor)) <==> factor >= 0.0 || Width(r) == 0.0
  {
    var b := ScaledBounds(r, factor);
    assert Width(b) == Width(r) * factor;
    if factor < 0.0 && Width(r) > 0.0 {
      assert Width(r) * factor < 0.0;
    }
  }

  /** A factor of 1 gives back the same bounds. */
  lemma ScaleIdentity(r: DateRange)
    ensures CanJoin(ScaledBounds(r, 1.0)) && Scale(r, 1.0) == r
  {
  }

  /** The product of two non-negative reals is non-negative. */
  lemma MulNonNegative(a: real, b: real)
    requires a >= 0.0 && b >= 0.0
    ensures a * b >= 0.0
  {
  }

  /** Each end moves inward by half of what the width lost, or outward by half of what it
      gained. */
  lemma ScaledEnds(r: DateRange, factor: real)
    ensures ScaledBounds(r, factor).lower == r.lower + (Width(r) - Width(r) * factor) / 2.0
    ensures ScaledBounds(r, factor).upper == r.upper - (Width(r) - Width(r) * factor) / 2.0
  {
  }

  /** A factor in [0, 1] zooms in: the result lies inside the original range. */
  lemma ScaleNested(r: DateRange, factor: real)
    requires 0.0 <= factor <= 1.0
    ensures CanJoin(ScaledBounds(r, factor))
    ensures r.lower <= Scale(r, factor).lower && Scale(r, factor).upper <= r.upper
  {
    var w := Width(r);
    MulNonNegative(w, factor);
    MulNonNegative(w, 1.0 - factor);
    assert w - w * factor == w * (1.0 - factor);
    ScaledEnds(r, factor);
  }

  /** A factor of at least 1 zooms out: the result contains the original range. */
  lemma ScaleContains(r: DateRange, factor: real)
    requires factor >= 1.0
    ensures CanJoin(ScaledBounds(r, factor))
    ensures Scale(r, factor).lower <= r.lower && r.upper <= Scale(r, factor).upper
  {
    var w := Width(r);
    MulNonNegative(w, factor);
    MulNonNegative(w, factor - 1.0);
    assert w * factor - w == w * (factor - 1.0);
    ScaledEnds(r, factor);
  }

  /** The unit tests: a one-minute range becomes 48 s wide at 0.8 and 72 s wide at 1.2. */
  lemma ZoomTestWidths(start: real)
    ensures CanJoin(ScaledBounds(Bounds(start, start + 60.0), 0.8))
    ensures Width(Scale(Bounds(start, start + 60.0), 0.8)) == 48.0
    ensures Width(Scale(Bounds(start, start + 60.0), 1.2)) == 72.0
  {
    ScaleNested(Bounds(start, start + 60.0), 0.8);
    ScaleContains(Bounds(start, start + 60.0), 1.2);
  }

  /** `suggestScale()`: the duration in minutes divided by 30. */
  function SuggestScale(r: DateRange): (s: real)
    ensures s * 1800.0 == Width(r)
    ensures s >= 0.0
  {
    var durationSeconds := r.upper - r.lower;
    var durationMinutes := durationSeconds / 60.0;
    durationMinutes / 30.0
  }
}
