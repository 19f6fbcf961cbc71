/**
 * `EffortScorePicker` of the Apple module: a horizontal strip of four
 * segment backgrounds separated by `segmentSpacing`, with a capsule
 * indicator over the selected score whose height grows linearly with its
 * offset (a triangle opening at angle alpha from the bottom left). Scores
 * are picked by tapping, by dragging the indicator, or by the digital crown.
 *
 * Layout places step `rank - 1` at `(rank - 1) * stepWidth` plus one spacing
 * per segment boundary passed, while the hit test divides the whole width
 * into ten equal bands, ignoring the spacings; the two are kept as written.
 * `tan(openingAlpha)` is the parameter `tanAlpha`, taken to be positive.
 */
module Picker {
  import opened Wrappers
  import opened AppleScore
  import AppleSegment
  import Clamping
  import AppleShape

  /** `range.count` for `range = easy1 ... allOut2`: the distance between the bounds plus one. */
  function RangeCount(): (n: nat)
    ensures n == 10 && n == |AllCases()| - 1
  {
    Distance(Easy1, AllOut2) + 1
  }

  /** `stepWidth`: the width left after the spacings between the four segments, shared by the ten steps. */
  function StepWidth(totalWidth: real, spacing: real): (sw: real)
    ensures sw >= 0.0
    ensures totalWidth >= 3.0 * spacing ==> 10.0 * sw + 3.0 * spacing == totalWidth
    ensures totalWidth <= 3.0 * spacing ==> sw == 0.0
  {
    var numberOfSegmentSpacings := |AllSegments()| - 1;
    var totalSegmentSpacing := numberOfSegmentSpacings as real * spacing;
    var stepWidth := (totalWidth - totalSegmentSpacing) / RangeCount() as real;
    Clamping.Max(stepWidth, 0.0)
  }

  /** `indicatorOffset(at:)`: one step per rank below the score plus one spacing per segment before its own. */
  function OffsetAt(s: Score, totalWidth: real, spacing: real): real
    requires s != Skipped
  {
    var step := RawValue(s) - 1;
    var offset := step as real * StepWidth(totalWidth, spacing);
    var segmentSpacingAtOffset := spacing * SegmentIndex(s).value as real;
    offset + segmentSpacingAtOffset
  }

  /** `a * b <= a * c` for a non-negative factor `a`. */
  lemma MulLeft(a: real, b: real, c: real)
    requires 0.0 <= a && b <= c
    ensures a * b <= a * c
  {
  }

  /** `a * b < a * c` for a positive factor `a`. */
  lemma MulStrict(a: real, b: real, c: real)
    requires 0.0 < a && b < c
    ensures a * b < a * c
  {
  }

  /** Scaling both sides by a positive factor keeps a comparison. */
  lemma ScaledCompare(q: real, w: real, c: real)
    requires w > 0.0
    ensures q <= c <==> q * w <= c * w
    ensures q < c <==> q * w < c * w
  {
    if q <= c {
      MulLeft(w, q, c);
    } else {
      MulStrict(w, c, q);
    }
    if q < c {
      MulStrict(w, q, c);
    } else {
      MulLeft(w, c, q);
    }
  }

  /**
   * When the width leaves room for the spacings, every ranked score's offset
   * lies in `0 ... totalWidth - stepWidth`, the range the indicator is clamped
   * to, and `allOut2` lands exactly on its upper end.
   */
  lemma OffsetWithinBounds(s: Score, totalWidth: real, spacing: real)
    requires s != Skipped
    requires spacing >= 0.0 && totalWidth >= 3.0 * spacing
    ensures 0.0 <= OffsetAt(s, totalWidth, spacing) <= totalWidth - StepWidth(totalWidth, spacing)
    ensures OffsetAt(AllOut2, totalWidth, spacing) == totalWidth - StepWidth(totalWidth, spacing)
  {
    var sw := StepWidth(totalWidth, spacing);
    SegmentIndexByRank(s);
    SegmentIndexByRank(AllOut2);
    MulLeft(sw, 0.0, (RawValue(s) - 1) as real);
    MulLeft(sw, (RawValue(s) - 1) as real, 9.0);
    MulLeft(spacing, 0.0, SegmentIndex(s).value as real);
    MulLeft(spacing, SegmentIndex(s).value as real, 3.0);
  }

  /** `OffsetAt` unfolded, for proofs that compare offsets. */
  lemma OffsetAtForm(s: Score, totalWidth: real, spacing: real)
    requires s != Skipped
    ensures OffsetAt(s, totalWidth, spacing) == (RawValue(s) - 1) as real * StepWidth(totalWidth, spacing) + spacing * SegmentIndex(s).value as real
  {
  }

  /** With a positive step width, a higher rank always sits further right. */
  lemma OffsetStrictlyIncreasing(a: Score, b: Score, totalWidth: real, spacing: real)
    requires a != Skipped && b != Skipped && Less(a, b)
    requires spacing >= 0.0 && StepWidth(totalWidth, spacing) > 0.0
    ensures OffsetAt(a, totalWidth, spacing) < OffsetAt(b, totalWidth, spacing)
  {
    var sw := StepWidth(totalWidth, spacing);
    var ra, rb := (RawValue(a) - 1) as real, (RawValue(b) - 1) as real;
    var ia, ib := SegmentIndex(a).value as real, SegmentIndex(b).value as real;
    assert OffsetAt(a, totalWidth, spacing) == ra * sw + spacing * ia by { OffsetAtForm(a, totalWidth, spacing); }
    assert OffsetAt(b, totalWidth, spacing) == rb * sw + spacing * ib by { OffsetAtForm(b, totalWidth, spacing); }
    assert ra < rb && ia <= ib by { SegmentIndexMonotone(a, b); }
    OffsetsOrdered(ra, rb, ia, ib, sw, spacing);
  }

  /** The arithmetic behind `OffsetStrictlyIncreasing`. */
  lemma OffsetsOrdered(ra: real, rb: real, ia: real, ib: real, sw: real, sp: real)
    requires 0.0 < sw && 0.0 <= sp && ra < rb && ia <= ib
    ensures ra * sw + sp * ia < rb * sw + sp * ib
  {
    MulStrict(sw, ra, rb);
    MulLeft(sp, ia, ib);
  }

  /**
   * `indicatorOffset`: 0 without a score; otherwise the score's offset moved
   * by the drag translation and clamped to `0 ... totalWidth - stepWidth`
   * (a closed range Swift can only form when that bound is not negative).
   */
  function IndicatorOffset(score: Option<Score>, draggingOffset: Option<real>, totalWidth: real, spacing: real): (r: real)
    requires totalWidth >= 0.0 && spacing >= 0.0
    requires score != Some(Skipped)
    ensures 0.0 <= r <= totalWidth - StepWidth(totalWidth, spacing)
    ensures score.None? ==> r == 0.0
  {
    match score
    case None => 0.0
    case Some(s) =>
      var offset := OffsetAt(s, totalWidth, spacing) + (if draggingOffset.Some? then draggingOffset.value else 0.0);
      var maxValue := totalWidth - StepWidth(totalWidth, spacing);
      Clamping.ClampedWithin(offset, 0.0, maxValue);
      Clamping.Clamped(offset, 0.0, maxValue)
  }

  /** At rest the clamp never moves the indicator: it sits at its score's offset. */
  lemma RestingOffsetUnclamped(s: Score, totalWidth: real, spacing: real)
    requires s != Skipped
    requires spacing >= 0.0 && totalWidth >= 3.0 * spacing
    ensures IndicatorOffset(Some(s), None, totalWidth, spacing) == OffsetAt(s, totalWidth, spacing)
  {
    OffsetWithinBounds(s, totalWidth, spacing);
    Clamping.ClampedWithin(OffsetAt(s, totalWidth, spacing), 0.0, totalWidth - StepWidth(totalWidth, spacing));
  }

  /** `indicatorHeight(at offsetX:)`: a step width at the left edge, rising by `tan(alpha)` per point. */
  function HeightAtOffset(offsetX: real, totalWidth: real, spacing: real, tanAlpha: real): real
  {
    var height := offsetX * tanAlpha;
    var min := StepWidth(totalWidth, spacing);
    min + height
  }

  /** The height ramp starts at one step width and never falls as the offset grows. */
  lemma HeightRamp(x: real, y: real, totalWidth: real, spacing: real, tanAlpha: real)
    requires tanAlpha > 0.0 && x <= y
    ensures HeightAtOffset(0.0, totalWidth, spacing, tanAlpha) == StepWidth(totalWidth, spacing)
    ensures HeightAtOffset(x, totalWidth, spacing, tanAlpha) <= HeightAtOffset(y, totalWidth, spacing, tanAlpha)
  {
    MulLeft(tanAlpha, x, y);
  }

  /** `indicatorHeight(at score:)`: 0 without a score, else the ramp at the score's unspaced step offset. */
  function HeightAt(score: Option<Score>, totalWidth: real, spacing: real, tanAlpha: real): (h: real)
    ensures score.None? ==> h == 0.0
  {
    match score
    case None => 0.0
    case Some(s) =>
      var offsetX := StepWidth(totalWidth, spacing) * (RawValue(s) - 1) as real;
      HeightAtOffset(offsetX, totalWidth, spacing, tanAlpha)
  }

  /** A higher ranked score is never drawn lower, and none is lower than a step width. */
  lemma HeightAtMonotone(a: Score, b: Score, totalWidth: real, spacing: real, tanAlpha: real)
    requires a != Skipped && !Less(b, a) && tanAlpha > 0.0
    ensures StepWidth(totalWidth, spacing) <= HeightAt(Some(a), totalWidth, spacing, tanAlpha) <= HeightAt(Some(b), totalWidth, spacing, tanAlpha)
  {
    var ra, rb := (RawValue(a) - 1) as real, (RawValue(b) - 1) as real;
    assert 0.0 <= ra <= rb;
    RampOrdered(ra, rb, totalWidth, spacing, tanAlpha);
  }

  /** The ramp at `x` and `y` steps, for `0 <= x <= y`: at least a step width, and ordered. */
  lemma RampOrdered(x: real, y: real, totalWidth: real, spacing: real, tanAlpha: real)
    requires 0.0 <= x <= y && tanAlpha > 0.0
    ensures StepWidth(totalWidth, spacing) <= HeightAtOffset(StepWidth(totalWidth, spacing) * x, totalWidth, spacing, tanAlpha)
    ensures HeightAtOffset(StepWidth(totalWidth, spacing) * x, totalWidth, spacing, tanAlpha) <= HeightAtOffset(StepWidth(totalWidth, spacing) * y, totalWidth, spacing, tanAlpha)
  {
    var sw := StepWidth(totalWidth, spacing);
    MulLeft(sw, 0.0, x);
    MulLeft(sw, x, y);
    HeightRamp(0.0, sw * x, totalWidth, spacing, tanAlpha);
    HeightRamp(sw * x, sw * y, totalWidth, spacing, tanAlpha);
  }

  /** `indicatorHeight`: the ramp at the dragged offset while dragging, else at the score; never negative. */
  function IndicatorHeight(score: Option<Score>, draggingOffset: Option<real>, totalWidth: real, spacing: real, tanAlpha: real): (h: real)
    requires totalWidth >= 0.0 && spacing >= 0.0
    requires score != Some(Skipped)
    ensures h >= 0.0
    ensures draggingOffset.None? && score.None? ==> h == 0.0
  {
    var height :=
      if draggingOffset.Some? then HeightAtOffset(IndicatorOffset(score, draggingOffset, totalWidth, spacing), totalWidth, spacing, tanAlpha)
      else HeightAt(score, totalWidth, spacing, tanAlpha);
    Clamping.Max(0.0, height)
  }

  /**
   * The moment a drag starts (translation 0) the indicator's height jumps up
   * by `tan(alpha)` times the spacings before its segment: the dragging height
   * is measured at the spaced offset, the resting height at the unspaced one.
   */
  lemma DragStartHeightJump(s: Score, totalWidth: real, spacing: real, tanAlpha: real)
    requires s != Skipped && tanAlpha > 0.0
    requires spacing >= 0.0 && totalWidth >= 3.0 * spacing
    ensures IndicatorHeight(Some(s), Some(0.0), totalWidth, spacing, tanAlpha)
         == IndicatorHeight(Some(s), None, totalWidth, spacing, tanAlpha) + tanAlpha * (spacing * SegmentIndex(s).value as real)
  {
    var i := SegmentIndex(s).value as real;
    DraggingHeightAtStart(s, totalWidth, spacing, tanAlpha);
    RestingHeight(s, totalWidth, spacing, tanAlpha);
    SpacedHeight(s, totalWidth, spacing, tanAlpha);
    MulLeft(spacing, 0.0, i);
    MulLeft(tanAlpha, 0.0, spacing * i);
  }

  /** At the start of a drag the height is the ramp at the score's spaced offset. */
  lemma DraggingHeightAtStart(s: Score, totalWidth: real, spacing: real, tanAlpha: real)
    requires s != Skipped && tanAlpha > 0.0
    requires spacing >= 0.0 && totalWidth >= 3.0 * spacing
    ensures IndicatorHeight(Some(s), Some(0.0), totalWidth, spacing, tanAlpha)
         == HeightAtOffset(OffsetAt(s, totalWidth, spacing), totalWidth, spacing, tanAlpha)
  {
    var spaced := OffsetAt(s, totalWidth, spacing);
    OffsetWithinBounds(s, totalWidth, spacing);
    Clamping.ClampedWithin(spaced + 0.0, 0.0, totalWidth - StepWidth(totalWidth, spacing));
    assert IndicatorOffset(Some(s), Some(0.0), totalWidth, spacing) == spaced;
    HeightRamp(0.0, spaced, totalWidth, spacing, tanAlpha);
  }

  /** At rest the height is the ramp at the score's unspaced offset. */
  lemma RestingHeight(s: Score, totalWidth: real, spacing: real, tanAlpha: real)
    requires s != Skipped && tanAlpha > 0.0
    requires spacing >= 0.0 && totalWidth >= 0.0
    ensures IndicatorHeight(Some(s), None, totalWidth, spacing, tanAlpha) == HeightAt(Some(s), totalWidth, spacing, tanAlpha)
  {
    HeightAtMonotone(s, s, totalWidth, spacing, tanAlpha);
  }

  /** The ramp at the spaced offset exceeds the ramp at the unspaced one by `tan(alpha)` per point of spacing. */
  lemma SpacedHeight(s: Score, totalWidth: real, spacing: real, tanAlpha: real)
    requires s != Skipped
    ensures HeightAtOffset(OffsetAt(s, totalWidth, spacing), totalWidth, spacing, tanAlpha)
         == HeightAt(Some(s), totalWidth, spacing, tanAlpha) + tanAlpha * (spacing * SegmentIndex(s).value as real)
  {
    var sw := StepWidth(totalWidth, spacing);
    var r, i := (RawValue(s) - 1) as real, SegmentIndex(s).value as real;
    OffsetAtForm(s, totalWidth, spacing);
    HeightAtForm(s, totalWidth, spacing, tanAlpha);
    RampShift(r * sw, spacing * i, totalWidth, spacing, tanAlpha);
  }

  /** `HeightAt` of a ranked score: the ramp at one step per rank below it. */
  lemma HeightAtForm(s: Score, totalWidth: real, spacing: real, tanAlpha: real)
    ensures HeightAt(Some(s), totalWidth, spacing, tanAlpha) == HeightAtOffset((RawValue(s) - 1) as real * StepWidth(totalWidth, spacing), totalWidth, spacing, tanAlpha)
  {
    var sw, r := StepWidth(totalWidth, spacing), (RawValue(s) - 1) as real;
    assert sw * r == r * sw;
  }

  /** Moving along the ramp by `d` raises it by `d * tan(alpha)`. */
  lemma RampShift(x: real, d: real, totalWidth: real, spacing: real, tanAlpha: real)
    ensures HeightAtOffset(x + d, totalWidth, spacing, tanAlpha) == HeightAtOffset(x, totalWidth, spacing, tanAlpha) + tanAlpha * d
  {
    Distribute(x, d, tanAlpha);
  }

  /** Multiplication distributes over a sum. */
  lemma Distribute(a: real, b: real, t: real)
    ensures (a + b) * t == a * t + t * b
  {
  }

  /** The background of a segment: `leftHeight` at its first score, `rightHeight` at its last. */
  function Background(segment: Segment, totalWidth: real, spacing: real, tanAlpha: real): AppleShape.SegmentBackground
  {
    var scores := AppleSegment.Scores(segment);
    AppleSegment.ScoresSizes(segment);
    AppleShape.SegmentBackground(
      segment,
      StepWidth(totalWidth, spacing),
      HeightAt(Some(scores[0]), totalWidth, spacing, tanAlpha),
      HeightAt(Some(scores[|scores| - 1]), totalWidth, spacing, tanAlpha))
  }

  /**
   * Each background rises from left to right, and both sides are tall enough
   * for two corners, so the outline's left edge runs up and its right edge down.
   */
  lemma BackgroundHeights(segment: Segment, totalWidth: real, spacing: real, tanAlpha: real)
    requires tanAlpha > 0.0
    ensures var bg := Background(segment, totalWidth, spacing, tanAlpha);
      2.0 * AppleShape.CornerRadius(bg) <= bg.leftHeight <= bg.rightHeight == AppleShape.Frame(bg).height
  {
    var scores := AppleSegment.Scores(segment);
    AppleSegment.ScoresSizes(segment);
    AppleSegment.ScoresAscending(segment);
    HeightAtMonotone(scores[0], scores[|scores| - 1], totalWidth, spacing, tanAlpha);
  }

  /** The left edge of the `i`-th background in the `HStack`: the earlier backgrounds' widths, each followed by a spacing. */
  function BackgroundStart(i: nat, totalWidth: real, spacing: real, tanAlpha: real): real
    requires i <= |AllSegments()|
  {
    if i == 0 then 0.0
    else (BackgroundStart(i - 1, totalWidth, spacing, tanAlpha)
      + AppleShape.TotalWidth(Background(AllSegments()[i - 1], totalWidth, spacing, tanAlpha)) + spacing)
  }

  /** The backgrounds start 0, 3, 6 and 8 steps in, plus a spacing per segment before. */
  lemma BackgroundStarts(totalWidth: real, spacing: real, tanAlpha: real)
    ensures var sw := StepWidth(totalWidth, spacing);
      && BackgroundStart(1, totalWidth, spacing, tanAlpha) == 3.0 * sw + spacing
      && BackgroundStart(2, totalWidth, spacing, tanAlpha) == 6.0 * sw + 2.0 * spacing
      && BackgroundStart(3, totalWidth, spacing, tanAlpha) == 8.0 * sw + 3.0 * spacing
      && BackgroundStart(4, totalWidth, spacing, tanAlpha) == 10.0 * sw + 4.0 * spacing
  {
  }

  /** The four backgrounds and the three spacings between them fill the picker's width exactly. */
  lemma BackgroundsFillWidth(totalWidth: real, spacing: real, tanAlpha: real)
    requires totalWidth >= 3.0 * spacing
    ensures BackgroundStart(4, totalWidth, spacing, tanAlpha) - spacing == totalWidth
  {
    BackgroundStarts(totalWidth, spacing, tanAlpha);
  }

  /** At rest the indicator of every ranked score lies within its own segment's background. */
  lemma IndicatorOverOwnSegment(s: Score, totalWidth: real, spacing: real, tanAlpha: real)
    requires s != Skipped
    ensures var i := SegmentIndex(s).value;
      && BackgroundStart(i, totalWidth, spacing, tanAlpha) <= OffsetAt(s, totalWidth, spacing)
      && OffsetAt(s, totalWidth, spacing) + StepWidth(totalWidth, spacing)
         <= BackgroundStart(i, totalWidth, spacing, tanAlpha) + AppleShape.TotalWidth(Background(AllSegments()[i], totalWidth, spacing, tanAlpha))
  {
    var sw := StepWidth(totalWidth, spacing);
    SegmentIndexByRank(s);
    BackgroundStarts(totalWidth, spacing, tanAlpha);
    AppleSegment.ScoresSizes(AllSegments()[SegmentIndex(s).value]);
    match s
    case Easy1 =>
    case Easy2 =>
    case Easy3 =>
    case Moderate1 =>
    case Moderate2 =>
    case Moderate3 =>
    case Hard1 =>
    case Hard2 =>
    case AllOut1 =>
    case AllOut2 =>
  }

  /** Swift's `Int(_:)` on a floating-point value: truncation toward zero. */
  function Trunc(x: real): (r: int)
    ensures 0.0 <= x ==> r as real <= x < r as real + 1.0
    ensures x < 0.0 ==> r as real - 1.0 < x <= r as real
  {
    if x >= 0.0 then x.Floor else -((-x).Floor)
  }

  /** Swift's `rounded()`: to the nearest integer, ties away from zero. */
  function Round(x: real): (r: int)
    ensures 0.0 <= x ==> r as real - 0.5 <= x < r as real + 0.5
    ensures x < 0.0 ==> r as real - 0.5 < x <= r as real + 0.5
  {
    if x >= 0.0 then (x + 0.5).Floor else -((-x + 0.5).Floor)
  }

  /** `score(at:)`: the offset in units of a tenth of the width, truncated, plus one, clamped to a score. */
  function ScoreAt(offset: real, totalWidth: real): Score
    requires totalWidth > 0.0
  {
    var scoreWidth := totalWidth / RangeCount() as real;
    var scoreValue := Trunc(offset / scoreWidth) + 1;
    FromSafeValue(scoreValue)
  }

  /** Truncation never decreases as its argument grows. */
  lemma TruncMonotone(x: real, y: real)
    requires x <= y
    ensures Trunc(x) <= Trunc(y)
  {
  }

  /** `score(at:)` unfolded: `q`, the offset over a tenth of the width, truncated, plus one. */
  lemma ScoreAtQuotient(offset: real, totalWidth: real) returns (q: real)
    requires totalWidth > 0.0
    ensures q * totalWidth == 10.0 * offset
    ensures ScoreAt(offset, totalWidth) == FromSafeValue(Trunc(q) + 1)
  {
    assert RangeCount() as real == 10.0;
    q := offset / (totalWidth / 10.0);
  }

  /** Where a quotient `q = 10 * offset / totalWidth` truncates to, told by comparing `offset` with tenths of the width. */
  lemma TenthsTruncation(offset: real, totalWidth: real, q: real, k: int)
    requires totalWidth > 0.0 && q * totalWidth == 10.0 * offset && k >= 0
    ensures Trunc(q) + 1 <= 0 <==> 10.0 * offset <= -totalWidth
    ensures 0.0 <= offset ==> (k as real * totalWidth <= 10.0 * offset <==> k <= Trunc(q))
    ensures 0.0 <= offset ==> 0 <= Trunc(q) && 10.0 * offset < (Trunc(q) + 1) as real * totalWidth
  {
    assert Trunc(q) + 1 <= 0 <==> 10.0 * offset <= -totalWidth by {
      ScaledCompare(q, totalWidth, -1.0);
    }
    if 0.0 <= offset {
      assert 0.0 <= q by {
        ScaledCompare(q, totalWidth, 0.0);
      }
      assert k as real * totalWidth <= 10.0 * offset <==> k <= Trunc(q) by {
        ScaledCompare(q, totalWidth, k as real);
      }
      assert 10.0 * offset < (Trunc(q) + 1) as real * totalWidth by {
        ScaledCompare(q, totalWidth, (Trunc(q) + 1) as real);
      }
    }
  }

  /** An offset in the `k`-th tenth of the width (or beyond the last) picks the score of rank `k + 1` (at most 10). */
  lemma ScoreAtBand(offset: real, totalWidth: real, k: nat)
    requires totalWidth > 0.0
    requires k as real * totalWidth <= 10.0 * offset
    requires k < 9 ==> 10.0 * offset < (k + 1) as real * totalWidth
    ensures RawValue(ScoreAt(offset, totalWidth)) == if k < 9 then k + 1 else 10
  {
    var q := ScoreAtQuotient(offset, totalWidth);
    BandTruncation(offset, totalWidth, q, k);
    FromSafeValueRank(Trunc(q) + 1);
  }

  /** The arithmetic behind `ScoreAtBand`. */
  lemma BandTruncation(offset: real, totalWidth: real, q: real, k: nat)
    requires totalWidth > 0.0 && q * totalWidth == 10.0 * offset
    requires k as real * totalWidth <= 10.0 * offset
    requires k < 9 ==> 10.0 * offset < (k + 1) as real * totalWidth
    ensures k <= Trunc(q)
    ensures k < 9 ==> Trunc(q) == k
  {
    MulLeft(totalWidth, 0.0, k as real);
    TenthsTruncation(offset, totalWidth, q, k);
    TenthsTruncation(offset, totalWidth, q, k + 1);
  }

  /**
   * A non-negative offset picks the rank `min(10, floor(10 * offset / totalWidth) + 1)`:
   * never `skipped`.
   */
  lemma ScoreAtRank(offset: real, totalWidth: real)
    requires totalWidth > 0.0 && offset >= 0.0
    ensures var t := (10.0 * offset / totalWidth).Floor;
      t >= 0 && RawValue(ScoreAt(offset, totalWidth)) == if t < 10 then t + 1 else 10
    ensures ScoreAt(offset, totalWidth) != Skipped
  {
    var q := ScoreAtQuotient(offset, totalWidth);
    QuotientIsTenths(offset, totalWidth, q);
    FromSafeValueRank(Trunc(q) + 1);
  }

  /** The quotient `score(at:)` truncates is ten times the offset over the width; for a non-negative offset it truncates like `floor`. */
  lemma QuotientIsTenths(offset: real, totalWidth: real, q: real)
    requires totalWidth > 0.0 && q * totalWidth == 10.0 * offset && offset >= 0.0
    ensures q == 10.0 * offset / totalWidth
    ensures q >= 0.0 && Trunc(q) == q.Floor
  {
    ScaledCompare(q, totalWidth, 0.0);
  }

  /** Tapping or releasing further left than a tenth of the width picks `skipped`, and only then. */
  lemma ScoreAtSkipped(offset: real, totalWidth: real)
    requires totalWidth > 0.0
    ensures ScoreAt(offset, totalWidth) == Skipped <==> 10.0 * offset <= -totalWidth
  {
    var q := ScoreAtQuotient(offset, totalWidth);
    FromSafeValueRank(Trunc(q) + 1);
    TenthsTruncation(offset, totalWidth, q, 0);
  }

  /** Further right never picks a lower score. */
  lemma ScoreAtMonotone(x: real, y: real, totalWidth: real)
    requires totalWidth > 0.0 && x <= y
    ensures !Less(ScoreAt(y, totalWidth), ScoreAt(x, totalWidth))
  {
    var qx := ScoreAtQuotient(x, totalWidth);
    var qy := ScoreAtQuotient(y, totalWidth);
    QuotientsOrdered(x, y, totalWidth, qx, qy);
    FromSafeValueMonotone(Trunc(qx) + 1, Trunc(qy) + 1);
  }

  /** Quotients by the same positive width truncate in the order of their dividends. */
  lemma QuotientsOrdered(x: real, y: real, totalWidth: real, qx: real, qy: real)
    requires totalWidth > 0.0 && x <= y
    requires qx * totalWidth == 10.0 * x && qy * totalWidth == 10.0 * y
    ensures Trunc(qx) <= Trunc(qy)
  {
    ScaledCompare(qx, totalWidth, qy);
    TruncMonotone(qx, qy);
  }

  /**
   * Releasing a drag without moving puts the indicator half a step to the
   * right of its score and re-selects that same score, provided each step is
   * at least 1.2 spacings wide (a width of at least 15 spacings).
   */
  lemma DragEndSnapsBack(s: Score, totalWidth: real, spacing: real)
    requires s != Skipped
    requires totalWidth > 0.0 && spacing >= 0.0 && totalWidth >= 15.0 * spacing
    ensures ScoreAt(IndicatorOffset(Some(s), Some(StepWidth(totalWidth, spacing) / 2.0), totalWidth, spacing), totalWidth) == s
  {
    var sw := StepWidth(totalWidth, spacing);
    SnapOffset(s, totalWidth, spacing);
    SnapsBackAt(s, IndicatorOffset(Some(s), Some(sw / 2.0), totalWidth, spacing), totalWidth, spacing);
  }

  /** The score under the released indicator, told segment by segment. */
  lemma SnapsBackAt(s: Score, offset: real, totalWidth: real, spacing: real)
    requires s != Skipped
    requires totalWidth > 0.0 && spacing >= 0.0 && totalWidth >= 15.0 * spacing
    requires offset == if s == AllOut2 then totalWidth - StepWidth(totalWidth, spacing) else OffsetAt(s, totalWidth, spacing) + StepWidth(totalWidth, spacing) / 2.0
    ensures ScoreAt(offset, totalWidth) == s
  {
    match SegmentOf(s).value
    case Easy => SnapsBackEasy(s, offset, totalWidth, spacing);
    case Moderate => SnapsBackModerate(s, offset, totalWidth, spacing);
    case Hard => SnapsBackHard(s, offset, totalWidth, spacing);
    case AllOut => SnapsBackAllOut(s, offset, totalWidth, spacing);
  }

  /** The snap of `easy1` ... `easy3`: half a step past 0, 1 or 2 steps. */
  lemma SnapsBackEasy(s: Score, offset: real, totalWidth: real, spacing: real)
    requires SegmentOf(s) == Some(Easy)
    requires totalWidth > 0.0 && spacing >= 0.0 && totalWidth >= 15.0 * spacing
    requires offset == OffsetAt(s, totalWidth, spacing) + StepWidth(totalWidth, spacing) / 2.0
    ensures ScoreAt(offset, totalWidth) == s
  {
    var sw := StepWidth(totalWidth, spacing);
    if s == Easy1 {
      assert offset == sw / 2.0;
      ScoreAtBand(offset, totalWidth, 0);
    } else if s == Easy2 {
      assert offset == sw + sw / 2.0;
      ScoreAtBand(offset, totalWidth, 1);
    } else {
      assert offset == 2.0 * sw + sw / 2.0;
      ScoreAtBand(offset, totalWidth, 2);
    }
    RawValueInjective(ScoreAt(offset, totalWidth), s);
  }

  /** The snap of `moderate1` ... `moderate3`: one spacing further right. */
  lemma SnapsBackModerate(s: Score, offset: real, totalWidth: real, spacing: real)
    requires SegmentOf(s) == Some(Moderate)
    requires totalWidth > 0.0 && spacing >= 0.0 && totalWidth >= 15.0 * spacing
    requires offset == OffsetAt(s, totalWidth, spacing) + StepWidth(totalWidth, spacing) / 2.0
    ensures ScoreAt(offset, totalWidth) == s
  {
    var sw := StepWidth(totalWidth, spacing);
    if s == Moderate1 {
      assert offset == 3.0 * sw + spacing + sw / 2.0;
      ScoreAtBand(offset, totalWidth, 3);
    } else if s == Moderate2 {
      assert offset == 4.0 * sw + spacing + sw / 2.0;
      ScoreAtBand(offset, totalWidth, 4);
    } else {
      assert offset == 5.0 * sw + spacing + sw / 2.0;
      ScoreAtBand(offset, totalWidth, 5);
    }
    RawValueInjective(ScoreAt(offset, totalWidth), s);
  }

  /** The snap of `hard1` and `hard2`: two spacings further right. */
  lemma SnapsBackHard(s: Score, offset: real, totalWidth: real, spacing: real)
    requires SegmentOf(s) == Some(Hard)
    requires totalWidth > 0.0 && spacing >= 0.0 && totalWidth >= 15.0 * spacing
    requires offset == OffsetAt(s, totalWidth, spacing) + StepWidth(totalWidth, spacing) / 2.0
    ensures ScoreAt(offset, totalWidth) == s
  {
    var sw := StepWidth(totalWidth, spacing);
    if s == Hard1 {
      assert offset == 6.0 * sw + 2.0 * spacing + sw / 2.0;
      ScoreAtBand(offset, totalWidth, 6);
    } else {
      assert offset == 7.0 * sw + 2.0 * spacing + sw / 2.0;
      ScoreAtBand(offset, totalWidth, 7);
    }
    RawValueInjective(ScoreAt(offset, totalWidth), s);
  }

  /** The snap of `allOut1` (three spacings further right) and of `allOut2` (clamped to the right end). */
  lemma SnapsBackAllOut(s: Score, offset: real, totalWidth: real, spacing: real)
    requires SegmentOf(s) == Some(AllOut)
    requires totalWidth > 0.0 && spacing >= 0.0 && totalWidth >= 15.0 * spacing
    requires s == AllOut1 ==> offset == OffsetAt(s, totalWidth, spacing) + StepWidth(totalWidth, spacing) / 2.0
    requires s == AllOut2 ==> offset == totalWidth - StepWidth(totalWidth, spacing)
    ensures ScoreAt(offset, totalWidth) == s
  {
    var sw := StepWidth(totalWidth, spacing);
    if s == AllOut1 {
      assert offset == 8.0 * sw + 3.0 * spacing + sw / 2.0;
      ScoreAtBand(offset, totalWidth, 8);
    } else {
      ScoreAtBand(offset, totalWidth, 9);
    }
    RawValueInjective(ScoreAt(offset, totalWidth), s);
  }

  /** Released without moving, the indicator sits half a step right of its score, or at the right end for `allOut2`. */
  lemma SnapOffset(s: Score, totalWidth: real, spacing: real)
    requires s != Skipped
    requires spacing >= 0.0 && totalWidth >= 3.0 * spacing
    ensures var sw := StepWidth(totalWidth, spacing);
      IndicatorOffset(Some(s), Some(sw / 2.0), totalWidth, spacing)
      == if s == AllOut2 then totalWidth - sw else OffsetAt(s, totalWidth, spacing) + sw / 2.0
  {
    var sw := StepWidth(totalWidth, spacing);
    OffsetWithinBounds(s, totalWidth, spacing);
    OffsetAtForm(s, totalWidth, spacing);
    OffsetAtForm(AllOut2, totalWidth, spacing);
    SegmentIndexByRank(s);
    SegmentIndexByRank(AllOut2);
    if s != AllOut2 {
      var r, i := (RawValue(s) - 1) as real, SegmentIndex(s).value as real;
      assert r <= 8.0 && i <= 3.0;
      MulLeft(sw, r, 8.0);
      MulLeft(spacing, i, 3.0);
    }
    Clamping.ClampedWithin(OffsetAt(s, totalWidth, spacing) + sw / 2.0, 0.0, totalWidth - sw);

  }

  /** With steps narrower than that it fails: at width 100 and spacing 8, releasing `easy3` selects `easy2`. */
  lemma DragEndSnapsBackFailsForNarrowSteps()
    ensures ScoreAt(IndicatorOffset(Some(Easy3), Some(StepWidth(100.0, 8.0) / 2.0), 100.0, 8.0), 100.0) == Easy2
  {
    assert StepWidth(100.0, 8.0) == 7.6;
    SegmentIndexByRank(Easy3);
    assert OffsetAt(Easy3, 100.0, 8.0) == 15.2;
    Clamping.ClampedWithin(19.0, 0.0, 92.4);
    assert IndicatorOffset(Some(Easy3), Some(3.8), 100.0, 8.0) == 19.0;
    ScoreAtBand(19.0, 100.0, 1);
    RawValueInjective(ScoreAt(19.0, 100.0), Easy2);
  }

  /** The left end of the picker, where the indicator sits without a score, selects `easy1`. */
  lemma LeftEndSelectsEasy1(totalWidth: real)
    requires totalWidth > 0.0
    ensures ScoreAt(0.0, totalWidth) == Easy1
  {
    ScoreAtBand(0.0, totalWidth, 0);
    RawValueInjective(ScoreAt(0.0, totalWidth), Easy1);
  }

  /** A picker 330 points wide with spacing 8 has steps of 30.6, and a tap at 200 selects `hard1`. */
  lemma PhoneLayout()
    ensures StepWidth(330.0, 8.0) == 30.6
    ensures ScoreAt(200.0, 330.0) == Hard1
  {
    ScoreAtBand(200.0, 330.0, 6);
    RawValueInjective(ScoreAt(200.0, 330.0), Hard1);
  }

  /** The crown binding's getter: the score's raw value, or that of `easy1` without a score. */
  function CrownValue(score: Option<Score>): (v: real)
    ensures 0.0 <= v <= 10.0
    ensures score.Some? ==> v == RawValue(score.value) as real
    ensures score.None? ==> v == 1.0
  {
    (if score.Some? then RawValue(score.value) else RawValue(Easy1)) as real
  }

  /** The crown binding's setter: round to an integer, then clamp through `init(safeScoreValue:)`. */
  function CrownScore(v: real): Score
  {
    var scoreValue := Round(v);
    FromSafeValue(scoreValue)
  }

  /**
   * Writing back what the crown read leaves every score unchanged and turns
   * no score into `easy1`; inside the crown's range `1 ... 10` the setter
   * picks the nearest rank (halves rounding up) and never `skipped`.
   */
  lemma CrownRoundTrip(score: Option<Score>, v: real)
    ensures CrownScore(CrownValue(score)) == if score.Some? then score.value else Easy1
    ensures 1.0 <= v <= 10.0 ==> CrownScore(v) != Skipped && RawValue(CrownScore(v)) == Round(v)
  {
    var s := if score.Some? then score.value else Easy1;
    assert Round(RawValue(s) as real) == RawValue(s);
    RawValueInjective(CrownScore(CrownValue(score)), s);
  }

  /**
   * The picker's state: the bound score, the measured width and the current
   * drag translation. The spacing and `tan(openingAlpha)` are constants of a
   * platform.
   */
  class EffortScorePicker {
    var score: Option<Score>
    var totalWidth: real
    var draggingOffset: Option<real>
    const segmentSpacing: real
    const tanAlpha: real

    ghost predicate Valid()
      reads this
    {
      totalWidth >= 0.0 && segmentSpacing >= 0.0 && tanAlpha > 0.0
    }

    constructor (score: Option<Score>, totalWidth: real, segmentSpacing: real, tanAlpha: real)
      requires totalWidth >= 0.0 && segmentSpacing >= 0.0 && tanAlpha > 0.0
      ensures Valid()
      ensures this.score == score && this.totalWidth == totalWidth && this.draggingOffset.None?
      ensures this.segmentSpacing == segmentSpacing && this.tanAlpha == tanAlpha
    {
      this.score := score;
      this.totalWidth := totalWidth;
      this.draggingOffset := None;
      this.segmentSpacing := segmentSpacing;
      this.tanAlpha := tanAlpha;
    }

    /** `stepWidth` of the current width. */
    function CurrentStepWidth(): (sw: real)
      reads this
      requires Valid()
      ensures 0.0 <= sw <= totalWidth
    {
      StepWidth(totalWidth, segmentSpacing)
    }

    /** `indicatorOffset` of the current state. */
    function CurrentOffset(): (r: real)
      reads this
      requires Valid() && score != Some(Skipped)
      ensures 0.0 <= r && r + CurrentStepWidth() <= totalWidth
    {
      IndicatorOffset(score, draggingOffset, totalWidth, segmentSpacing)
    }

    /** `indicatorHeight` of the current state. */
    function CurrentHeight(): (h: real)
      reads this
      requires Valid() && score != Some(Skipped)
      ensures h >= 0.0
      ensures draggingOffset.None? && score.Some? ==> h >= CurrentStepWidth()
    {
      var h := IndicatorHeight(score, draggingOffset, totalWidth, segmentSpacing, tanAlpha);
      assert draggingOffset.None? && score.Some? ==> h >= CurrentStepWidth() by {
        if draggingOffset.None? && score.Some? {
          HeightAtMonotone(score.value, score.value, totalWidth, segmentSpacing, tanAlpha);
        }
      }
      h
    }

    /** The drag gesture's `onChanged`: record the translation. */
    method OnDragChanged(translationWidth: real)
      requires Valid()
      modifies this
      ensures Valid()
      ensures draggingOffset == Some(translationWidth)
      ensures score == old(score) && totalWidth == old(totalWidth)
    {
      draggingOffset := Some(translationWidth);
    }

    /**
     * `handleDragEnded(value:)`: move the drag half a step further so the
     * release snaps to the nearest score, select the score under the clamped
     * indicator, and end the drag.
     */
    method HandleDragEnded(translationWidth: real)
      requires Valid() && totalWidth > 0.0 && score != Some(Skipped)
      modifies this
      ensures Valid() && totalWidth == old(totalWidth)
      ensures score == Some(ScoreAt(IndicatorOffset(old(score), Some(translationWidth + CurrentStepWidth() / 2.0), totalWidth, segmentSpacing), totalWidth))
      ensures score.Some? && score.value != Skipped && draggingOffset.None?
      ensures old(score).None? ==> score == Some(Easy1)
    {
      draggingOffset := Some(translationWidth + CurrentStepWidth() / 2.0);
      var offset := CurrentOffset();
      var newScore := ScoreAt(offset, totalWidth);
      ScoreAtRank(offset, totalWidth);
      if score.None? {
        LeftEndSelectsEasy1(totalWidth);
      }
      score := Some(newScore);
      draggingOffset := None;
    }

    /** `onTapGesture`: select the score under the tap. */
    method Tap(x: real)
      requires Valid() && totalWidth > 0.0
      modifies this
      ensures Valid()
      ensures draggingOffset == old(draggingOffset) && totalWidth == old(totalWidth)
      ensures score == Some(ScoreAt(x, totalWidth))
      ensures x >= 0.0 ==> score.value != Skipped
    {
      score := Some(ScoreAt(x, totalWidth));
      if x >= 0.0 {
        ScoreAtRank(x, totalWidth);
      }
    }

    /** The crown binding's getter. */
    function CrownReading(): (v: real)
      reads this
      ensures 1.0 <= v <= 10.0 ==> CrownScore(v) != Skipped
      ensures CrownScore(v) == if score.Some? then score.value else Easy1
    {
      CrownRoundTrip(score, CrownValue(score));
      CrownValue(score)
    }

    /** The crown binding's setter, for a value the crown reports in `1 ... 10`. */
    method SetCrownValue(newValue: real)
      requires Valid()
      modifies this
      ensures Valid()
      ensures score == Some(CrownScore(newValue))
      ensures 1.0 <= newValue <= 10.0 ==> score.value != Skipped && RawValue(score.value) == Round(newValue)
      ensures draggingOffset == old(draggingOffset) && totalWidth == old(totalWidth)
    {
      var scoreValue := Round(newValue);
      score := Some(FromSafeValue(scoreValue));
      CrownRoundTrip(score, newValue);
    }
  }
}
