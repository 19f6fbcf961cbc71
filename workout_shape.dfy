/**
 * `SegmentBackground` of the Workout picker: the same band backdrop and
 * slanted-top outline as the Apple picker's, except that the top-left arc
 * stops and the top-right arc starts at one shared angle, `topLeftAngle`
 * (245 degrees).
 */
module WorkoutShape {
  import opened Geometry
  import opened WorkoutScore

  datatype SegmentBackground = SegmentBackground(segment: Segment, stepWidth: real, leftHeight: real, rightHeight: real)

  /** `cornerRadius`: half a step. */
  function CornerRadius(bg: SegmentBackground): real
  {
    bg.stepWidth / 2.0
  }

  /** `totalWidth`: one step per score of the segment. */
  function TotalWidth(bg: SegmentBackground): real
  {
    |Scores(bg.segment)| as real * bg.stepWidth
  }

  /** `.frame(width: totalWidth, height: rightHeight)`: the rect the shape is drawn in. */
  function Frame(bg: SegmentBackground): Rect
  {
    Rect(TotalWidth(bg), bg.rightHeight)
  }

  /**
   * `topLeftAngle`: where the top-left arc stops and the top-right arc starts.
   * It lies between a circle's leftmost (180) and topmost (270) points, where a
   * top edge rising to the right touches a corner.
   */
  function TopLeftAngle(): (a: real)
    ensures 180.0 < a < 270.0
  {
    245.0
  }

  /** `topRightTangentPoint(in:)`: where the slanted top edge ends. */
  function TopRightTangentPoint(rect: Rect, cornerRadius: real): Point
  {
    Point(rect.width - cornerRadius * 1.32, 0.05 * cornerRadius)
  }

  /** `SlantedTopShape(cornerRadius:leftHeight:).path(in: rect)`. */
  method SlantedTopPath(rect: Rect, cornerRadius: real, leftHeight: real) returns (path: seq<PathCmd>)
    ensures FourCornerOutline(path)
    ensures path[0] == Move(Point(cornerRadius, rect.height))
    ensures ArcsRounded(path, cornerRadius)
    ensures ArcJoinsPen(path, 1) && ArcJoinsPen(path, 3) && ArcJoinsPen(path, 7)
    ensures path[1] == Arc(Point(cornerRadius, rect.height - cornerRadius), cornerRadius, 90.0, 180.0, false)
    ensures VerticalEdge(path, 2) && VerticalEdge(path, 6) && ClosesHorizontally(path)
    ensures path[2].to == Point(0.0, rect.height - leftHeight + cornerRadius) && path[3].center.y == path[2].to.y
    ensures path[3].startAngle == 180.0 && path[3].endAngle == path[5].startAngle == 245.0
    ensures path[4].to == Point(rect.width - 1.32 * cornerRadius, 0.05 * cornerRadius)
    ensures path[5].center == Point(rect.width - cornerRadius, cornerRadius) && path[5].endAngle == 0.0
    ensures path[6].to == Point(rect.width, rect.height - cornerRadius)
    ensures path[7].center == Point(rect.width - cornerRadius, rect.height - cornerRadius)
    ensures path[7].startAngle == 0.0 && path[7].endAngle == 90.0
    // the left edge runs upwards exactly when the left side is tall enough for both left corners
    ensures path[2].to.y <= PenAfter(path[1]).value.y <==> leftHeight >= 2.0 * cornerRadius
    // the right edge runs downwards exactly when the frame is tall enough for both right corners
    ensures PenAfter(path[5]).value.y <= path[6].to.y <==> rect.height >= 2.0 * cornerRadius
  {
    var width := rect.width;
    var height := rect.height;
    path := [];
    // bottom left corner
    path := path + [Move(Point(cornerRadius, height))];
    path := path + [Arc(Point(cornerRadius, height - cornerRadius), cornerRadius, 90.0, 180.0, false)];
    // left edge
    path := path + [Line(Point(0.0, height - leftHeight + cornerRadius))];
    // top left corner
    path := path + [Arc(Point(cornerRadius, height - leftHeight + cornerRadius), cornerRadius, 180.0, TopLeftAngle(), false)];
    // top edge (slanted)
    path := path + [Line(TopRightTangentPoint(rect, cornerRadius))];
    // top right corner
    path := path + [Arc(Point(width - cornerRadius, cornerRadius), cornerRadius, TopLeftAngle(), 0.0, false)];
    // right edge
    path := path + [Line(Point(width, height - cornerRadius))];
    // bottom right corner
    path := path + [Arc(Point(width - cornerRadius, height - cornerRadius), cornerRadius, 0.0, 90.0, false)];
    path := path + [Close];
  }

  /**
   * The two bottom corners never overlap: every segment has at least two
   * steps, so the closing bottom edge runs right to left from `width - r` to `r`.
   */
  lemma BottomCornersFit(bg: SegmentBackground)
    requires bg.stepWidth >= 0.0
    ensures CornerRadius(bg) <= TotalWidth(bg) - CornerRadius(bg)
    ensures TotalWidth(bg) == (if bg.segment == Easy || bg.segment == Moderate then 3.0 else 2.0) * bg.stepWidth
  {
    ScoresExact(bg.segment);
  }
}
