/**
 * `SegmentBackground` of the Apple picker: one band's backdrop, as wide as
 * its scores' steps and as tall as the indicator at its last score, clipped
 * by `SlantedTopShape`, a rounded outline whose top edge rises on screen
 * from `leftHeight` at the left to the full height at the right. The top corners
 * use hand-tuned constants (a 250 degree stop angle, a 230 degree start angle
 * and a tangent point 1.32 radii from the right edge) rather than an exact
 * tangent construction.
 */
module AppleShape {
  import opened Geometry
  import opened AppleScore
  import AppleSegment

  datatype SegmentBackground = SegmentBackground(segment: Segment, stepWidth: real, leftHeight: real, rightHeight: real)

  /** `cornerRadius`: half a step. */
  function CornerRadius(bg: SegmentBackground): real
  {
    bg.stepWidth / 2.0
  }

  /** `totalWidth`: one step per score of the segment. */
  function TotalWidth(bg: SegmentBackground): real
  {
    |AppleSegment.Scores(bg.segment)| as real * bg.stepWidth
  }

  /** `.frame(width: totalWidth, height: rightHeight)`: the rect the shape is drawn in. */
  function Frame(bg: SegmentBackground): Rect
  {
    Rect(TotalWidth(bg), bg.rightHeight)
  }

  /**
   * `topLeftStopAngle(in:)`: where the top-left arc stops, a fixed approximation
   * of the tangent point. It lies between the circle's leftmost (180) and topmost
   * (270) points, where a top edge rising to the right touches the corner.
   */
  function TopLeftStopAngle(rect: Rect): (a: real)
    ensures 180.0 < a < 270.0
  {
    250.0
  }

  /**
   * `topRightStartAngle(in:)`: where the top-right arc starts, again fixed
   * rather than computed from the tangent point, and again in the circle's
   * upper-left quarter.
   */
  function TopRightStartAngle(rect: Rect): (a: real)
    ensures 180.0 < a < 270.0
  {
    230.0
  }

  /** `topRightTangentPoint(in:)`: where the slanted top edge ends. */
  function TopRightTangentPoint(rect: Rect, cornerRadius: real): Point
  {
    Point(rect.width - cornerRadius * 1.32, 0.05 * cornerRadius)
  }

  /** `SlantedTopShape(cornerRadius:leftHeight:).path(in: rect)`. */
  method SlantedTopPath(rect: Rect, cornerRadius: real, leftHeight: real) returns (path: seq<PathCmd>)
    ensures FourCornerOutline(path)
    ensures path[0] == Move(Point(cornerRadius, rect.height))
    ensures ArcsRounded(path, cornerRadius)
    ensures ArcJoinsPen(path, 1) && ArcJoinsPen(path, 3) && ArcJoinsPen(path, 7)
    ensures path[1] == Arc(Point(cornerRadius, rect.height - cornerRadius), cornerRadius, 90.0, 180.0, false)
    ensures VerticalEdge(path, 2) && VerticalEdge(path, 6) && ClosesHorizontally(path)
    ensures path[2].to == Point(0.0, rect.height - leftHeight + cornerRadius) && path[3].center.y == path[2].to.y
    ensures path[3].startAngle == 180.0 && path[3].endAngle == 250.0
    ensures path[4].to == Point(rect.width - 1.32 * cornerRadius, 0.05 * cornerRadius)
    ensures path[5].center == Point(rect.width - cornerRadius, cornerRadius)
    ensures path[5].startAngle == 230.0 && path[5].endAngle == 0.0
    ensures path[6].to == Point(rect.width, rect.height - cornerRadius)
    ensures path[7].center == Point(rect.width - cornerRadius, rect.height - cornerRadius)
    ensures path[7].startAngle == 0.0 && path[7].endAngle == 90.0
    // the left edge runs upwards exactly when the left side is tall enough for both left corners
    ensures path[2].to.y <= PenAfter(path[1]).value.y <==> leftHeight >= 2.0 * cornerRadius
    // the right edge runs downwards exactly when the frame is tall enough for both right corners
    ensures PenAfter(path[5]).value.y <= path[6].to.y <==> rect.height >= 2.0 * cornerRadius
  {
    var width := rect.width;
    var height := rect.height;
    path := [];
    // bottom left corner
    path := path + [Move(Point(cornerRadius, height))];
    path := path + [Arc(Point(cornerRadius, height - cornerRadius), cornerRadius, 90.0, 180.0, false)];
    // left edge
    path := path + [Line(Point(0.0, height - leftHeight + cornerRadius))];
    // top left corner
    path := path + [Arc(Point(cornerRadius, height - leftHeight + cornerRadius), cornerRadius, 180.0, TopLeftStopAngle(rect), false)];
    // top edge (slanted)
    path := path + [Line(TopRightTangentPoint(rect, cornerRadius))];
    // top right corner
    path := path + [Arc(Point(width - cornerRadius, cornerRadius), cornerRadius, TopRightStartAngle(rect), 0.0, false)];
    // right edge
    path := path + [Line(Point(width, height - cornerRadius))];
    // bottom right corner
    path := path + [Arc(Point(width - cornerRadius, height - cornerRadius), cornerRadius, 0.0, 90.0, false)];
    path := path + [Close];
  }

  /**
   * The two bottom corners never overlap: every segment has at least two
   * steps, so the closing bottom edge runs right to left from `width - r` to `r`.
   */
  lemma BottomCornersFit(bg: SegmentBackground)
    requires bg.stepWidth >= 0.0
    ensures CornerRadius(bg) <= TotalWidth(bg) - CornerRadius(bg)
    ensures TotalWidth(bg) == (if bg.segment == Easy || bg.segment == Moderate then 3.0 else 2.0) * bg.stepWidth
  {
    AppleSegment.ScoresSizes(bg.segment);
  }
}
