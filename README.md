# Effort score picker

A Dafny model of the core of WorkoutEffortPicker, a SwiftUI package in which a
user rates the effort of a workout on a 1–10 scale, or marks it as skipped.
The model covers:

- the two effort score enums (`AppleEffortScore`, `WorkoutEffortScore`): raw
  values, ordering, the `Strideable` conformance (`distance(to:)`,
  `advanced(by:)`), the clamping initializer `init(safeScoreValue:)`, the
  segment each score belongs to and its index;
- `AppleEffortScoreSegment`: its ids, its ordered `scores` (the filter of
  `allCases`) and its localisation keys;
- `Comparable.clamped(to:)` and the mutating `clamp(to:)`;
- the Apple picker `EffortScorePicker`:
  - its layout arithmetic: the step width, the indicator offset and height, and the background segments;
  - its gestures: tap, drag and release;
  - the watch crown binding, as a class whose fields are the view's state;
- the two `SlantedTopShape` paths as sequences of path commands built step by step;
- `EffortScoreLabel` / `EffortScoreIcon`: the title key and the SF Symbol name.

Modules:

- `Wrappers` holds `Option`.
- `Collections` holds `firstIndex(of:)` and `filter`.
- `Geometry` holds points, rectangles and path commands.
- `AppleScore`, `AppleSegment`, `WorkoutScore` and `Clamping` model the score types and the clamp.
- `AppleShape` and `WorkoutShape` model the two segment backgrounds.
- `Picker` models the Apple picker.
- `Label` models the label and the icon.

Screen coordinates are `real`; `tan(openingAlpha)` is a positive parameter
`tanAlpha` (the source uses 20.1°), and the platform's segment spacing (8 on
iOS, 2 on watchOS) is a parameter `spacing`. Swift's `Int(x)` truncates toward
zero (`Picker.Trunc`), `rounded()` rounds half away from zero (`Picker.Round`).

## Model

| member | source | states |
|---|---|---|
| AppleScore.RawValue | Sources/AppleEffortScorePicker/AppleEffortScore.swift:6-18 | raw values lie in 0…10 and are 0 only for `skipped` |
| AppleScore.FromRawValue | Sources/AppleEffortScorePicker/AppleEffortScore.swift:6-18 | the synthesised `init(rawValue:)` succeeds exactly on 0…10 and returns the case with that raw value |
| AppleScore.RawValueRoundTrip | Sources/AppleEffortScorePicker/AppleEffortScore.swift:6-18 | `init(rawValue: s.rawValue) == s` for every case |
| AppleScore.RawValueInjective | Sources/AppleEffortScorePicker/AppleEffortScore.swift:6-18 | two cases have the same raw value iff they are equal |
| AppleScore.AllCases | Sources/AppleEffortScorePicker/AppleEffortScore.swift:6-18 | the eleven cases in declaration order; `AllCasesBounds` and `AppleSegment.AllCasesComplete` state what is proved about it |
| AppleScore.Less | Sources/AppleEffortScorePicker/AppleEffortScore.swift:20-22 | `<` compares raw values; `LessIsStrictTotalOrder` states the order it gives |
| AppleScore.LessIsStrictTotalOrder | Sources/AppleEffortScorePicker/AppleEffortScore.swift:20-22 | `<` by raw value is irreflexive, transitive, asymmetric and total on distinct cases |
| AppleScore.Minimum | Sources/AppleEffortScorePicker/AppleEffortScore.swift:40 | `min()` returns an element that no element is below |
| AppleScore.Maximum | Sources/AppleEffortScorePicker/AppleEffortScore.swift:41 | `max()` returns an element that no element is above |
| AppleScore.AllCasesBounds | Sources/AppleEffortScorePicker/AppleEffortScore.swift:39-41 | the minimum of `allCases` is `skipped` and the maximum is `allOut2`, so the force-unwraps cannot trap |
| AppleScore.FromSafeValue | Sources/AppleEffortScorePicker/AppleEffortScore.swift:35-44 | a value in 0…10 gives the case with that raw value, below gives `skipped`, above gives `allOut2` |
| AppleScore.FromSafeValueRank | Sources/AppleEffortScorePicker/AppleEffortScore.swift:35-44 | the result's raw value is the input pulled into 0…10; it is `skipped` iff the input is ≤ 0 |
| AppleScore.FromSafeValueMonotone | Sources/AppleEffortScorePicker/AppleEffortScore.swift:35-44 | the clamping initializer is monotone |
| AppleScore.Distance | Sources/AppleEffortScorePicker/AppleEffortScore.swift:26-28 | `distance(to:)` between two cases lies in −10…10 |
| AppleScore.Advanced | Sources/AppleEffortScorePicker/AppleEffortScore.swift:30-32 | when `rawValue + n` lies in 0…10, the result is the case with that raw value |
| AppleScore.DistanceAntisymmetric | Sources/AppleEffortScorePicker/AppleEffortScore.swift:26-28 | `a.distance(to: b) == -b.distance(to: a)`, and the distance is 0 iff a == b |
| AppleScore.AdvancedByDistance | Sources/AppleEffortScorePicker/AppleEffortScore.swift:26-32 | `a.advanced(by: a.distance(to: b)) == b` for all a, b; advancing by 0 is the identity |
| AppleScore.AdvancedMonotoneSaturating | Sources/AppleEffortScorePicker/AppleEffortScore.swift:30-32 | `advanced(by:)` is monotone in the step, and it saturates at `skipped` below and at `allOut2` above |
| AppleScore.SegmentOf | Sources/AppleEffortScorePicker/AppleEffortScore.swift:54-62 | `segment` is nil exactly for `skipped` |
| AppleScore.AllSegments | Sources/AppleEffortScorePicker/AppleEffortScoreSegment.swift:5-10 | `AppleEffortScoreSegment.allCases`: the four segments in declaration order; `SegmentIndex` and `SegmentIndexIsFirstIndex` are stated against it |
| AppleScore.SegmentRanges | Sources/AppleEffortScorePicker/AppleEffortScore.swift:54-62 | `segment` is nil only for `skipped`; easy, moderate, hard and allOut hold raw values 1–3, 4–6, 7–8 and 9–10 |
| AppleScore.SegmentIndex | Sources/AppleEffortScorePicker/AppleEffortScore.swift:64-71 | the index is nil iff the score is `skipped`; otherwise `allCases[index]` is the score's segment |
| AppleScore.SegmentIndexIsFirstIndex | Sources/AppleEffortScorePicker/AppleEffortScore.swift:64-71 | the written-out index of a ranked score is `Segment.allCases.firstIndex(of: segment)` |
| AppleScore.SegmentIndexMonotone | Sources/AppleEffortScorePicker/AppleEffortScore.swift:64-71 | the segment index is at most 3 and does not decrease as the raw value grows |
| AppleScore.SegmentIndexByRank | Sources/AppleEffortScorePicker/AppleEffortScore.swift:64-71 | the segment index is 0, 1, 2, 3 for raw values 1–3, 4–6, 7–8, 9–10 |
| AppleSegment.IdInjective | Sources/AppleEffortScorePicker/AppleEffortScoreSegment.swift:12-16 | distinct segments have distinct `id`s, as `Identifiable` in `ForEach` requires |
| AppleSegment.Id | Sources/AppleEffortScorePicker/AppleEffortScoreSegment.swift:12-16 | the id is the raw value: `easy`, `moderate`, `hard`, `allOut`; `IdInjective` proves the ids distinct |
| AppleSegment.Scores | Sources/AppleEffortScorePicker/AppleEffortScoreSegment.swift:20-23 | each segment's scores written out; `ScoresAreFilter` proves it equals the filter of `allCases` |
| AppleSegment.Member | Sources/AppleEffortScorePicker/AppleEffortScoreSegment.swift:22 | the filter condition `$0.segment == self` of `scores`; `ScoresAreFilter` is stated with it |
| AppleSegment.ScoresAreFilter | Sources/AppleEffortScorePicker/AppleEffortScoreSegment.swift:20-23 | `scores` equals `allCases.filter { $0.segment == self }` |
| AppleSegment.InSegmentIsFilter | Sources/AppleEffortScorePicker/AppleEffortScoreSegment.swift:20-23 | walking the cases from an index and keeping those of the segment gives the same sequence as filtering the rest by `$0.segment == self` |
| AppleSegment.ScoresExact | Sources/AppleEffortScorePicker/AppleEffortScoreSegment.swift:20-23 | a score is in `segment.scores` iff its `segment` is that segment |
| AppleSegment.ScoresAscending | Sources/AppleEffortScorePicker/AppleEffortScoreSegment.swift:20-23 | each segment's scores have consecutive raw values, in strictly ascending order |
| AppleSegment.AllCasesComplete | Sources/AppleEffortScorePicker/AppleEffortScore.swift:6-18 | every case is in `allCases` |
| AppleSegment.ScoresSizes | Sources/AppleEffortScorePicker/AppleEffortScoreSegment.swift:20-23 | the segments hold 3, 3, 2 and 2 scores, so `scores.first!` and `scores.last!` cannot trap |
| AppleSegment.SegmentsPartitionRankedScores | Sources/AppleEffortScorePicker/AppleEffortScoreSegment.swift:5-10 | concatenating the segments' scores in `allCases` order gives `easy1 … allOut2`, without `skipped` |
| AppleSegment.RankedScoresInOrder | Sources/AppleEffortScorePicker/AppleEffortScoreSegment.swift:5-10 | that concatenation has ten scores, and the i-th one has raw value i + 1 |
| AppleSegment.EarlierSegmentsScoreLower | Sources/AppleEffortScorePicker/AppleEffortScoreSegment.swift:20-23 | every score of an earlier segment is `<` every score of a later segment |
| AppleSegment.LocalizedTitle | Sources/AppleEffortScorePicker/AppleEffortScoreSegment.swift:25-32 | the four title keys; `LocalizedTitleFollowsId` states their form |
| AppleSegment.LocalizedDescription | Sources/AppleEffortScorePicker/AppleEffortScoreSegment.swift:34-41 | the four description keys; `LocalizedDescriptionFollowsId` states their form |
| AppleSegment.LocalizedTitleFollowsId | Sources/AppleEffortScorePicker/AppleEffortScoreSegment.swift:25-32 | the title key is `scoreSegment.<id>.title` |
| AppleSegment.LocalizedDescriptionFollowsId | Sources/AppleEffortScorePicker/AppleEffortScoreSegment.swift:34-41 | the description key is `scoreSegment.<id>.description` |
| WorkoutScore.RawValue | Sources/WorkoutEffortPicker/WorkoutEffortScore.swift:6-19 | raw values lie in 0…10 and are 0 only for `skipped` |
| WorkoutScore.FromRawValue | Sources/WorkoutEffortPicker/WorkoutEffortScore.swift:6-19 | `init(rawValue:)` succeeds exactly on 0…10 and returns the case with that raw value |
| WorkoutScore.RawValueInjective | Sources/WorkoutEffortPicker/WorkoutEffortScore.swift:6-19 | two cases have the same raw value iff they are equal |
| WorkoutScore.Less | Sources/WorkoutEffortPicker/WorkoutEffortScore.swift:22-24 | `<` compares raw values; `LessIsStrictTotalOrder` states the order it gives |
| WorkoutScore.LessIsStrictTotalOrder | Sources/WorkoutEffortPicker/WorkoutEffortScore.swift:22-24 | `<` by raw value is a strict total order |
| WorkoutScore.FromSafeValue | Sources/WorkoutEffortPicker/WorkoutEffortScore.swift:37-45 | never `skipped`: below 1 gives `easy1`, 1…10 the case with that raw value, above 10 `allOut2` |
| WorkoutScore.Distance | Sources/WorkoutEffortPicker/WorkoutEffortScore.swift:26-28 | `distance(to:)` between two cases lies in −10…10 |
| WorkoutScore.Advanced | Sources/WorkoutEffortPicker/WorkoutEffortScore.swift:30-32 | the result is never `skipped`; when `rawValue + n` lies in 1…10, it is the case with that raw value |
| WorkoutScore.DistanceAntisymmetric | Sources/WorkoutEffortPicker/WorkoutEffortScore.swift:26-28 | the distance is antisymmetric and 0 iff the scores are equal |
| WorkoutScore.AdvancedNeverSkipped | Sources/WorkoutEffortPicker/WorkoutEffortScore.swift:30-32 | `advanced(by:)` never yields `skipped`; `skipped.advanced(by: 0)` is `easy1` |
| WorkoutScore.AdvancedByDistance | Sources/WorkoutEffortPicker/WorkoutEffortScore.swift:26-32 | advancing by the distance reaches the target iff the target is not `skipped` |
| WorkoutScore.AdvancedMonotoneSaturating | Sources/WorkoutEffortPicker/WorkoutEffortScore.swift:30-45 | `advanced(by:)` is monotone in the step, and it saturates at `easy1` and at `allOut2` |
| WorkoutScore.SegmentOf | Sources/WorkoutEffortPicker/WorkoutEffortScore.swift:53-61 | `segment` is nil exactly for `skipped` |
| WorkoutScore.SegmentRanges | Sources/WorkoutEffortPicker/WorkoutEffortScore.swift:53-61 | `segment` is nil only for `skipped`; the bands hold raw values 1–3, 4–6, 7–8 and 9–10 |
| WorkoutScore.SegmentIndex | Sources/WorkoutEffortPicker/WorkoutEffortScore.swift:63-70 | the index is nil iff the score is `skipped`; otherwise it points at the score's segment in `allCases` |
| WorkoutScore.AllSegments | Sources/WorkoutEffortPicker/WorkoutEffortScore.swift:65 | `WorkoutEffortScoreSegment.allCases`, the four bands in order, which `firstIndex(of:)` searches; `SegmentIndex` and `SegmentIndexMonotone` are stated against it |
| WorkoutScore.SegmentIndexMonotone | Sources/WorkoutEffortPicker/WorkoutEffortScore.swift:63-70 | the segment index is at most 3 and does not decrease as the raw value grows |
| WorkoutScore.Scores | Sources/WorkoutEffortPicker/SegmentBackground.swift:13 | each band's scores written out, mirroring the Apple segments; `ScoresExact` states which scores they are |
| WorkoutScore.ScoresExact | Sources/WorkoutEffortPicker/SegmentBackground.swift:13 | a score is in a band's `scores` iff it belongs to that band; the bands hold 3, 3, 2 and 2 scores |
| Collections.FirstIndexOf | Sources/AppleEffortScorePicker/AppleEffortScore.swift:66 | `firstIndex(of:)` is nil iff the element is absent; otherwise it points at the first occurrence |
| Collections.Filter | Sources/AppleEffortScorePicker/AppleEffortScoreSegment.swift:22 | `filter` keeps at most as many elements as it is given; `FilterMembership` states which |
| Collections.FilterMembership | Sources/AppleEffortScorePicker/AppleEffortScoreSegment.swift:22 | an element is in the filtered sequence iff it is in the input and satisfies the predicate |
| Clamping.Max | Sources/WorkoutEffortPicker/Helper/Comparable+Clamped.swift:7 | `max` of two values, the larger one |
| Clamping.Min | Sources/WorkoutEffortPicker/Helper/Comparable+Clamped.swift:8 | `min` of two values, the smaller one |
| Clamping.Clamped | Sources/WorkoutEffortPicker/Helper/Comparable+Clamped.swift:6-9 | `min(max(x, lo), hi)`; `ClampedWithin`, `ClampedIdempotent` and `ClampedMonotone` state its properties |
| Clamping.ClampedWithin | Sources/WorkoutEffortPicker/Helper/Comparable+Clamped.swift:6-9 | the result lies in the range; a value inside is kept, and a value outside goes to the nearer bound |
| Clamping.ClampedIdempotent | Sources/WorkoutEffortPicker/Helper/Comparable+Clamped.swift:6-9 | clamping twice is clamping once |
| Clamping.ClampedMonotone | Sources/WorkoutEffortPicker/Helper/Comparable+Clamped.swift:6-9 | clamping preserves `<=` |
| Clamping.Variable.Clamp | Sources/WorkoutEffortPicker/Helper/Comparable+Clamped.swift:11-13 | the mutating `clamp(to:)` stores `clamped(to:)` of the old value, which lies in the range, and keeps a value already inside |
| AppleShape.CornerRadius | Sources/AppleEffortScorePicker/SegmentBackground.swift:14 | the corner radius is half a step |
| AppleShape.TotalWidth | Sources/AppleEffortScorePicker/SegmentBackground.swift:15 | the width is one step per score of the segment; `BottomCornersFit` uses it |
| AppleShape.Frame | Sources/AppleEffortScorePicker/SegmentBackground.swift:19 | the shape is drawn in a rect `totalWidth` wide and `rightHeight` tall |
| AppleShape.TopRightTangentPoint | Sources/AppleEffortScorePicker/SegmentBackground.swift:130-132 | the slanted edge ends 1.32 radii left of the right side and 0.05 radii below the top; `SlantedTopPath` states that its line ends there |
| AppleShape.TopLeftStopAngle | Sources/AppleEffortScorePicker/SegmentBackground.swift:124-127 | the top-left arc stops at a fixed 250°, which lies between the circle's leftmost and topmost points |
| AppleShape.TopRightStartAngle | Sources/AppleEffortScorePicker/SegmentBackground.swift:134-137 | the top-right arc starts at a fixed 230°, which lies between the circle's leftmost and topmost points |
| AppleShape.SlantedTopPath | Sources/AppleEffortScorePicker/SegmentBackground.swift:57-137 | the path is move, four arcs of the corner radius joined by three lines, and close; arcs 1, 3 and 7 start where the pen is; the bottom-left arc is 90→180 about (r, h − r); the left and right edges are vertical; the close is horizontal; the other corner angles 180→250, 230→0 and 0→90 hold; the tangent point is as given; each edge runs the right way iff its side is at least two radii tall |
| AppleShape.BottomCornersFit | Sources/AppleEffortScorePicker/SegmentBackground.swift:13-15 | the frame is 3 or 2 steps wide, so the two bottom corners never overlap |
| WorkoutShape.CornerRadius | Sources/WorkoutEffortPicker/SegmentBackground.swift:14 | the corner radius is half a step |
| WorkoutShape.TotalWidth | Sources/WorkoutEffortPicker/SegmentBackground.swift:15 | the width is one step per score of the band; `BottomCornersFit` uses it |
| WorkoutShape.Frame | Sources/WorkoutEffortPicker/SegmentBackground.swift:19 | the shape is drawn in a rect `totalWidth` wide and `rightHeight` tall |
| WorkoutShape.TopRightTangentPoint | Sources/WorkoutEffortPicker/SegmentBackground.swift:119-121 | the slanted edge ends 1.32 radii left of the right side and 0.05 radii below the top; `SlantedTopPath` states that its line ends there |
| WorkoutShape.TopLeftAngle | Sources/WorkoutEffortPicker/SegmentBackground.swift:115-117 | one fixed 245° angle ends the top-left arc and starts the top-right arc; it lies between a circle's leftmost and topmost points |
| WorkoutShape.SlantedTopPath | Sources/WorkoutEffortPicker/SegmentBackground.swift:57-121 | the same outline: arcs 1, 3 and 7 start where the pen is, the bottom-left arc is 90→180 about (r, h − r), and one 245° angle ends the top-left corner and starts the top-right corner |
| WorkoutShape.BottomCornersFit | Sources/WorkoutEffortPicker/SegmentBackground.swift:13-15 | the frame is 3 or 2 steps wide, so the two bottom corners never overlap |
| Picker.RangeCount | Sources/AppleEffortScorePicker/EffortScorePicker.swift:11 | `easy1 ... allOut2` has 10 elements: all cases but `skipped` |
| Picker.StepWidth | Sources/AppleEffortScorePicker/EffortScorePicker.swift:33-38 | never negative; ten steps plus three spacings fill the width exactly when they fit, and the step is 0 when they do not |
| Picker.OffsetAt | Sources/AppleEffortScorePicker/EffortScorePicker.swift:112-117 | one step per raw value below the score plus one spacing per earlier segment; `OffsetWithinBounds` and `OffsetStrictlyIncreasing` state its properties |
| Picker.OffsetWithinBounds | Sources/AppleEffortScorePicker/EffortScorePicker.swift:112-117 | every ranked score's offset lies in 0…width − step; `allOut2` sits exactly at the right end |
| Picker.OffsetStrictlyIncreasing | Sources/AppleEffortScorePicker/EffortScorePicker.swift:112-117 | with a positive step, a higher score sits strictly further right |
| Picker.IndicatorOffset | Sources/AppleEffortScorePicker/EffortScorePicker.swift:100-110 | the indicator stays within 0…width − step, and it is at 0 without a score |
| Picker.RestingOffsetUnclamped | Sources/AppleEffortScorePicker/EffortScorePicker.swift:100-117 | when not dragging, the clamp never moves the indicator off its score's offset |
| Picker.HeightAtOffset | Sources/AppleEffortScorePicker/EffortScorePicker.swift:125-129 | one step plus tan α × offset; `HeightRamp` and `RampShift` state its properties |
| Picker.HeightRamp | Sources/AppleEffortScorePicker/EffortScorePicker.swift:125-129 | the height at offset 0 is one step, and the height grows with the offset |
| Picker.HeightAt | Sources/AppleEffortScorePicker/EffortScorePicker.swift:119-123 | the height without a score is 0 |
| Picker.HeightAtMonotone | Sources/AppleEffortScorePicker/EffortScorePicker.swift:119-129 | a ranked score's height is at least one step and does not decrease with the score |
| Picker.IndicatorHeight | Sources/AppleEffortScorePicker/EffortScorePicker.swift:89-98 | never negative; 0 when neither dragging nor scored |
| Picker.DragStartHeightJump | Sources/AppleEffortScorePicker/EffortScorePicker.swift:89-98 | on touching down, the height jumps by tan α × spacing × segment index: the drag height includes the segment spacings, the resting height does not |
| Picker.DraggingHeightAtStart | Sources/AppleEffortScorePicker/EffortScorePicker.swift:89-110 | with a zero drag, the height is the ramp at the score's offset |
| Picker.RestingHeight | Sources/AppleEffortScorePicker/EffortScorePicker.swift:89-98 | at rest, the height is the score's own height |
| Picker.SpacedHeight | Sources/AppleEffortScorePicker/EffortScorePicker.swift:112-129 | the ramp at a score's offset exceeds the score's height by tan α × its segment spacing |
| Picker.RampShift | Sources/AppleEffortScorePicker/EffortScorePicker.swift:125-129 | moving the offset by d raises the ramp by tan α × d |
| Picker.BackgroundHeights | Sources/AppleEffortScorePicker/EffortScorePicker.swift:63-75 | each background's left height is at least two corner radii and at most its right height, which is its frame height |
| Picker.BackgroundStarts | Sources/AppleEffortScorePicker/EffortScorePicker.swift:63-75 | in the `HStack`, the segments start at 0, 3·step + s, 6·step + 2s and 8·step + 3s; the last one ends at 10·step + 3s, and `BackgroundStart(4)` = 10·step + 4s adds one trailing spacing |
| Picker.BackgroundsFillWidth | Sources/AppleEffortScorePicker/EffortScorePicker.swift:33-38 | the backgrounds and their spacings fill the picker's width exactly |
| Picker.IndicatorOverOwnSegment | Sources/AppleEffortScorePicker/EffortScorePicker.swift:63-75 | a resting indicator lies entirely over its own segment's background |
| Picker.Background | Sources/AppleEffortScorePicker/EffortScorePicker.swift:63-75 | a segment's background has the step width and the heights at its first and last score; `BackgroundHeights` states their order |
| Picker.BackgroundStart | Sources/AppleEffortScorePicker/EffortScorePicker.swift:63-75 | the i-th background starts after the earlier backgrounds and a spacing after each; `BackgroundStarts` gives the values |
| Picker.Trunc | Sources/AppleEffortScorePicker/EffortScorePicker.swift:150 | `Int(x)` truncates toward zero |
| Picker.Round | Sources/AppleEffortScorePicker/EffortScorePicker.swift:22 | `rounded()` gives the nearest integer |
| Picker.TruncMonotone | Sources/AppleEffortScorePicker/EffortScorePicker.swift:150 | truncation is monotone |
| Picker.ScoreAt | Sources/AppleEffortScorePicker/EffortScorePicker.swift:148-152 | the clamped score for the truncated tenths of the width, plus one; the `ScoreAt…` lemmas below state what it selects |
| Picker.ScoreAtQuotient | Sources/AppleEffortScorePicker/EffortScorePicker.swift:148-152 | `score(at:)` is the clamped score for ⌊offset / (width / 10)⌋ + 1, truncated toward zero |
| Picker.TenthsTruncation | Sources/AppleEffortScorePicker/EffortScorePicker.swift:148-152 | the truncated quotient is ≤ −1 iff the offset is at most −width/10; for a non-negative offset, it is the number of whole tenths of the width in the offset |
| Picker.ScoreAtBand | Sources/AppleEffortScorePicker/EffortScorePicker.swift:148-152 | an offset in the k-th tenth of the width selects raw value k + 1; the last tenth and everything beyond it select 10 |
| Picker.ScoreAtRank | Sources/AppleEffortScorePicker/EffortScorePicker.swift:148-152 | for a non-negative offset, the score is never `skipped` and its raw value is min(⌊10·offset/width⌋ + 1, 10) |
| Picker.ScoreAtSkipped | Sources/AppleEffortScorePicker/EffortScorePicker.swift:148-152 | `score(at:)` returns `skipped` iff the offset is at least a tenth of the width left of the origin |
| Picker.ScoreAtMonotone | Sources/AppleEffortScorePicker/EffortScorePicker.swift:148-152 | a point further right never selects a lower score |
| Picker.LeftEndSelectsEasy1 | Sources/AppleEffortScorePicker/EffortScorePicker.swift:148-152 | offset 0 selects `easy1` |
| Picker.SnapOffset | Sources/AppleEffortScorePicker/EffortScorePicker.swift:100-117 | released in place, the indicator is half a step right of its score's offset, or clamped at the right end for `allOut2` |
| Picker.DragEndSnapsBack | Sources/AppleEffortScorePicker/EffortScorePicker.swift:139-152 | releasing a drag that did not move reselects the same score, whenever the width is at least 15 spacings |
| Picker.SnapsBackAt | Sources/AppleEffortScorePicker/EffortScorePicker.swift:139-152 | at the offset a release in place snaps to, `score(at:)` gives the released score back, whenever the width is at least 15 spacings |
| Picker.SnapsBackEasy | Sources/AppleEffortScorePicker/EffortScorePicker.swift:139-152 | the same for `easy1`–`easy3` |
| Picker.SnapsBackModerate | Sources/AppleEffortScorePicker/EffortScorePicker.swift:139-152 | the same for `moderate1`–`moderate3` |
| Picker.SnapsBackHard | Sources/AppleEffortScorePicker/EffortScorePicker.swift:139-152 | the same for `hard1` and `hard2` |
| Picker.SnapsBackAllOut | Sources/AppleEffortScorePicker/EffortScorePicker.swift:139-152 | the same for `allOut1` and `allOut2` |
| Picker.DragEndSnapsBackFailsForNarrowSteps | Sources/AppleEffortScorePicker/EffortScorePicker.swift:139-152 | with width 100 and spacing 8, releasing `easy3` in place selects `easy2` |
| Picker.PhoneLayout | Sources/AppleEffortScorePicker/EffortScorePicker.swift:14 | on a 330-point-wide phone, the step is 30.6 and a tap at x = 200 selects `hard1` |
| Picker.CrownValue | Sources/AppleEffortScorePicker/EffortScorePicker.swift:18-20 | the crown reads the score's raw value, which lies in 0…10, and 1 (`easy1`) without a score |
| Picker.CrownScore | Sources/AppleEffortScorePicker/EffortScorePicker.swift:21-24 | the crown setter rounds and then clamps through `init(safeScoreValue:)`; `CrownRoundTrip` states what it selects |
| Picker.CrownRoundTrip | Sources/AppleEffortScorePicker/EffortScorePicker.swift:18-25 | writing back what the crown reads keeps the score, and turns no score into `easy1`; any value in the crown's range 1…10 selects the ranked score with the rounded raw value |
| Picker.EffortScorePicker.constructor | Sources/AppleEffortScorePicker/EffortScorePicker.swift:6-16 | a picker starts with its bound score, its measured width and no drag |
| Picker.EffortScorePicker.CurrentStepWidth | Sources/AppleEffortScorePicker/EffortScorePicker.swift:33-38 | the step is between 0 and the width |
| Picker.EffortScorePicker.CurrentOffset | Sources/AppleEffortScorePicker/EffortScorePicker.swift:100-110 | the indicator capsule lies wholly inside the picker |
| Picker.EffortScorePicker.CurrentHeight | Sources/AppleEffortScorePicker/EffortScorePicker.swift:89-98 | the height is never negative, and at rest with a score it is at least one step |
| Picker.EffortScorePicker.OnDragChanged | Sources/AppleEffortScorePicker/EffortScorePicker.swift:135 | a drag stores the translation and changes nothing else |
| Picker.EffortScorePicker.HandleDragEnded | Sources/AppleEffortScorePicker/EffortScorePicker.swift:139-145 | the new score is the one under the half-step-snapped, clamped indicator; it is never `skipped`; the drag ends; with no score before, it is `easy1` |
| Picker.EffortScorePicker.Tap | Sources/AppleEffortScorePicker/EffortScorePicker.swift:51 | a tap selects the score under the tap point, never `skipped` for a point inside the picker, and leaves the drag alone |
| Picker.EffortScorePicker.CrownReading | Sources/AppleEffortScorePicker/EffortScorePicker.swift:18-20 | writing back the reading yields the current score, or `easy1` without one |
| Picker.EffortScorePicker.SetCrownValue | Sources/AppleEffortScorePicker/EffortScorePicker.swift:21-24 | turning the crown stores the clamped rounded value; a value in the crown's range gives a ranked score |
| Label.Digits | Sources/AppleEffortScorePicker/EffortScoreLabel.swift:54 | string interpolation of a number gives decimal digits with no leading zero, one digit exactly below 10 |
| Label.DigitsRoundTrip | Sources/AppleEffortScorePicker/EffortScoreLabel.swift:54 | parsing the digits of n gives n back |
| Label.DigitsInjective | Sources/AppleEffortScorePicker/EffortScoreLabel.swift:54 | different numbers have different digit strings |
| Label.SystemName | Sources/AppleEffortScorePicker/EffortScoreLabel.swift:48-59 | `plus.circle` without a score, `righttriangle.split.diagonal.fill` for `skipped`, and the raw value with `.circle.fill` otherwise; `SystemNameShape` and `SystemNameInjective` state its properties |
| Label.SystemNameShape | Sources/AppleEffortScorePicker/EffortScoreLabel.swift:48-59 | the symbol starts with a digit iff the score is ranked, and then it is the raw value's digits followed by `.circle.fill` |
| Label.SystemNameInjective | Sources/AppleEffortScorePicker/EffortScoreLabel.swift:48-59 | no score, `skipped` and each ranked score all get different symbols |
| Label.SystemNameOfAllOut2 | Sources/AppleEffortScorePicker/EffortScoreLabel.swift:54 | `allOut2` is shown as `10.circle.fill` |
| Label.Title | Sources/AppleEffortScorePicker/EffortScoreLabel.swift:21-27 | the segment's title key, or `common.skip` / `common.skipped` for `skipped`; `TitleBySegment` and `TitleDependsOnListOnlyWhenSkipped` state its properties |
| Label.TitleBySegment | Sources/AppleEffortScorePicker/EffortScoreLabel.swift:21-27 | two scores get the same title iff they have the same segment, or are both `skipped` |
| Label.TitleDependsOnListOnlyWhenSkipped | Sources/AppleEffortScorePicker/EffortScoreLabel.swift:21-27 | only `skipped` is titled differently in a list (`common.skip`) and elsewhere (`common.skipped`) |
| Label.TitleKeyIdentifiesSegment | Sources/AppleEffortScorePicker/AppleEffortScoreSegment.swift:25-32 | the four title keys are distinct |

## Left out

- HealthKit (`hkQuantity`), colours, gradients, fonts, animations and the `View` bodies are not modelled: they only render values.
- The segment dots and their paddings in `SegmentBackground` are not modelled: they are drawing only.
- `updateWidth` is not modelled: the measured width is an input (`totalWidth`) and is not re-measured.
- Trigonometry is not modelled: `tan(openingAlpha)` is the parameter `tanAlpha`, and arcs are kept as their centre, radius and angles rather than drawn.
- Floating point is not modelled: CGFloat and Double are exact reals, so rounding error, NaN and infinities are absent. `Int(x)`'s trap on values outside `Int` is not modelled.
- Picker.IndicatorOffset: offsets are defined only for ranked scores, because `indicatorOffset(at:)` reads `segmentIndex`, which `skipped` does not have. `CGFloat` has no initializer from `Int?`, so the source defines no offset for `skipped` at `EffortScorePicker.swift:115`. `skipped` can reach the picker: `EffortScoreList.swift:63-64` offers it on the same binding that `EffortScoreView.swift:33` passes to the picker. Members that read the offset require the score not to be `skipped`.
- Picker.IndicatorOffset: requires a width ≥ 0, because the range `0...maxValue` traps when maxValue is negative.
- Picker.DragEndSnapsBack: proved only for widths of at least 15 spacings. `Picker.DragEndSnapsBackFailsForNarrowSteps` shows that on narrower pickers the snap can move to the previous score. The source's own note at line 147 calls its score boundaries an approximation.
- `WorkoutEffortScoreSegment` is modelled as the same four bands as `AppleEffortScoreSegment` (easy, moderate, hard, allOut; the same scores per band), by `WorkoutScore.Segment` and `WorkoutScore.Scores`.
- AppleScore.SegmentIndex is given as a table of positions; `AppleScore.SegmentIndexIsFirstIndex` proves each equals `firstIndex(of:)` on the segments' `allCases`.
- AppleSegment.Scores is given as a table; `AppleSegment.ScoresAreFilter` proves it equals the filter of `allCases`.
- AppleShape.SlantedTopPath: the top-right arc's start angle is the fixed 230° of `topRightStartAngle`, not tied to the tangent point, so the model does not state that this arc starts where the slanted line ends (the source leaves that computation as a to-do).
- WorkoutShape.SlantedTopPath: the top-right arc's start angle is the fixed 245° of `topLeftAngle`, not tied to the tangent point, so the model does not state that this arc starts where the slanted line ends.
- AppleScore.Advanced: integer overflow of `rawValue + n` is not modelled. Swift traps on it (for example `easy1.advanced(by: Int.max)`); the model's unbounded sum saturates at `allOut2` instead.
- WorkoutScore.Advanced: integer overflow of `rawValue + n` is not modelled. Swift traps on it (for example `easy1.advanced(by: Int.max)`); the model's unbounded sum saturates at `allOut2` instead.
- The crown binding exists only on watchOS; `.onTapGesture` at `EffortScorePicker.swift:51` is attached on every platform. The model offers both on one picker.
