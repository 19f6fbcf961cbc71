/**
 * The slice of SwiftUI's `Path` the segment backgrounds use: move, line,
 * circular arc and close commands in view coordinates (y grows downwards),
 * with angles in degrees. Trigonometry is not evaluated; only the points at
 * right angles (0, 90, 180 and 270 degrees) are known exactly, which is
 * enough to tell where the straight edges and the corners meet.
 */
module Geometry {
  import opened Wrappers

  datatype Point = Point(x: real, y: real)

  /** The size of the `CGRect` a shape is drawn in (the shapes never read its origin). */
  datatype Rect = Rect(width: real, height: real)

  datatype PathCmd =
    | Move(to: Point)
    | Line(to: Point)
    | Arc(center: Point, radius: real, startAngle: real, endAngle: real, clockwise: bool)
    | Close

  /** The point of a circle at a right angle, in y-down coordinates; none for other angles. */
  function PointAtRightAngle(center: Point, radius: real, degrees: real): Option<Point>
  {
    if degrees == 0.0 then Some(Point(center.x + radius, center.y))
    else if degrees == 90.0 then Some(Point(center.x, center.y + radius))
    else if degrees == 180.0 then Some(Point(center.x - radius, center.y))
    else if degrees == 270.0 then Some(Point(center.x, center.y - radius))
    else None
  }

  /** Where a command leaves the pen, when that is known without trigonometry. */
  function PenAfter(cmd: PathCmd): Option<Point>
  {
    match cmd
    case Move(p) => Some(p)
    case Line(p) => Some(p)
    case Arc(c, r, _, e, _) => PointAtRightAngle(c, r, e)
    case Close => None
  }

  /** Where an arc begins, when that is known without trigonometry. */
  function ArcStart(cmd: PathCmd): Option<Point>
    requires cmd.Arc?
  {
    PointAtRightAngle(cmd.center, cmd.radius, cmd.startAngle)
  }

  /** The arc at `i` begins exactly where the previous command left the pen, so no connecting line is drawn. */
  predicate ArcJoinsPen(path: seq<PathCmd>, i: int)
  {
    1 <= i < |path| && path[i].Arc? && PenAfter(path[i - 1]).Some? && ArcStart(path[i]) == PenAfter(path[i - 1])
  }

  /** The line at `i` runs straight up or down from where the previous command left the pen. */
  predicate VerticalEdge(path: seq<PathCmd>, i: int)
  {
    1 <= i < |path| && path[i].Line? && PenAfter(path[i - 1]).Some? && PenAfter(path[i - 1]).value.x == path[i].to.x
  }

  /** The closing segment, from the last pen position back to the first move, is horizontal. */
  predicate ClosesHorizontally(path: seq<PathCmd>)
  {
    |path| >= 2 && path[0].Move? && path[|path| - 1].Close?
    && PenAfter(path[|path| - 2]).Some? && PenAfter(path[|path| - 2]).value.y == path[0].to.y
  }

  /** Every arc of the path has radius `r` and is drawn with `clockwise: false`. */
  predicate ArcsRounded(path: seq<PathCmd>, r: real)
  {
    forall i :: 0 <= i < |path| && path[i].Arc? ==> path[i].radius == r && !path[i].clockwise
  }

  /** move, arc, line, arc, line, arc, line, arc, close: four rounded corners joined by three edges and the closing bottom edge. */
  predicate FourCornerOutline(path: seq<PathCmd>)
  {
    && |path| == 9
    && path[0].Move?
    && path[1].Arc? && path[2].Line? && path[3].Arc? && path[4].Line?
    && path[5].Arc? && path[6].Line? && path[7].Arc?
    && path[8].Close?
  }
}
