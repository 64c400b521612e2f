/**
 * The curved connector between two nodes: a cubic Bézier curve from the
 * middle of the source box's right edge to the middle of the target box's
 * left edge, with horizontal tangents at both ends.
 */
module Connector {
  import opened Types

  /** The four points of the path, in drawing order. */
  datatype Curve = Curve(start: Point, control1: Point, control2: Point, end: Point)

  /** The path data "M start C control1 control2 end" as its two commands. */
  datatype PathCommand = MoveTo(p: Point) | CubicTo(c1: Point, c2: Point, p: Point)

  function Abs(r: real): real { if r < 0.0 then -r else r }

  /** The connector between nodes at positions `source` and `target`: it
      leaves the source box at the middle of its right edge and enters the
      target box at the middle of its left edge; each control point lies on
      its end point's horizontal line, half the horizontal span away, the
      first to the right of the start and the second to the left of the end. */
  function ConnectorCurve(source: Point, target: Point): (c: Curve)
    ensures c.start == Rect(source.x, source.y, NodeWidth, NodeHeight).RightMiddle()
    ensures c.end == Rect(target.x, target.y, NodeWidth, NodeHeight).LeftMiddle()
    ensures c.control1.y == c.start.y && c.control2.y == c.end.y
    ensures c.control1.x - c.start.x == c.end.x - c.control2.x == Abs(c.end.x - c.start.x) / 2.0
  {
    var startX := source.x + NodeWidth;
    var startY := source.y + NodeHeight / 2.0;
    var endX := target.x;
    var endY := target.y + NodeHeight / 2.0;
    var dx := Abs(startX - endX);
    Curve(Point(startX, startY), Point(startX + dx * 0.5, startY),
          Point(endX - dx * 0.5, endY), Point(endX, endY))
  }

  /** The connector of two nodes attaches to their drawn boxes. */
  lemma AttachesToNodeBoxes(s: Node, t: Node)
    ensures ConnectorCurve(s.position, t.position).start == NodeBox(s).RightMiddle()
    ensures ConnectorCurve(s.position, t.position).end == NodeBox(t).LeftMiddle()
  {
  }

  /** The control points never cross back over their own end points. */
  lemma ControlPointsOutward(source: Point, target: Point)
    ensures var c := ConnectorCurve(source, target);
            c.control1.x >= c.start.x && c.control2.x <= c.end.x
  {
  }

  /** When the target lies to the right of the source box, both control
      points sit at the horizontal midpoint of the two ends (an S-curve). */
  lemma ForwardControlPointsMeet(source: Point, target: Point)
    requires target.x >= source.x + NodeWidth
    ensures var c := ConnectorCurve(source, target);
            c.control1.x == c.control2.x == (c.start.x + c.end.x) / 2.0
  {
  }

  function Translate(p: Point, v: Point): Point {
    Point(p.x + v.x, p.y + v.y)
  }

  /** Moving both nodes by the same vector moves the whole connector by it. */
  lemma TranslationInvariant(source: Point, target: Point, v: Point)
    ensures var c := ConnectorCurve(source, target);
            var c' := ConnectorCurve(Translate(source, v), Translate(target, v));
            c' == Curve(Translate(c.start, v), Translate(c.control1, v), Translate(c.control2, v), Translate(c.end, v))
  {
  }

  /** The path data "M start C control1 control2 end" built from a curve. */
  function PathData(c: Curve): (cmds: seq<PathCommand>)
    ensures |cmds| == 2
    ensures cmds[0] == MoveTo(c.start) && cmds[1] == CubicTo(c.control1, c.control2, c.end)
  {
    [MoveTo(c.start), CubicTo(c.control1, c.control2, c.end)]
  }

  /** The number a fraction t of the way from a to b. */
  function Mix(a: real, b: real, t: real): real {
    a + t * (b - a)
  }

  /** The point a fraction t of the way from p to q. */
  function Lerp(p: Point, q: Point, t: real): Point {
    Point(Mix(p.x, q.x, t), Mix(p.y, q.y, t))
  }

  /** The point at parameter t of the drawn path: the cubic segment that
      starts at the current point set by the move, evaluated by repeated
      interpolation of its four points (de Casteljau's construction). */
  function PathPoint(cmds: seq<PathCommand>, t: real): Point
    requires |cmds| == 2 && cmds[0].MoveTo? && cmds[1].CubicTo?
  {
    var p0, p1, p2, p3 := cmds[0].p, cmds[1].c1, cmds[1].c2, cmds[1].p;
    var a, b, c := Lerp(p0, p1, t), Lerp(p1, p2, t), Lerp(p2, p3, t);
    Lerp(Lerp(a, b, t), Lerp(b, c, t), t)
  }

  /** One coordinate of the cubic Bézier curve in Bernstein form. */
  function Bernstein(p0: real, p1: real, p2: real, p3: real, t: real): real {
    var u := 1.0 - t;
    u * u * u * p0 + 3.0 * u * u * t * p1 + 3.0 * u * t * t * p2 + t * t * t * p3
  }

  /** The point at parameter t of the cubic Bézier curve with the four points of `c`. */
  function BezierAt(c: Curve, t: real): Point {
    Point(Bernstein(c.start.x, c.control1.x, c.control2.x, c.end.x, t),
          Bernstein(c.start.y, c.control1.y, c.control2.y, c.end.y, t))
  }

  /** One coordinate of de Casteljau's construction equals the Bernstein form. */
  lemma DeCasteljauCoordinate(p0: real, p1: real, p2: real, p3: real, t: real)
    ensures var a, b, c := Mix(p0, p1, t), Mix(p1, p2, t), Mix(p2, p3, t);
            Mix(Mix(a, b, t), Mix(b, c, t), t) == Bernstein(p0, p1, p2, p3, t)
  {
    var u := 1.0 - t;
    var a, b, c := Mix(p0, p1, t), Mix(p1, p2, t), Mix(p2, p3, t);
    assert a == u * p0 + t * p1 && b == u * p1 + t * p2 && c == u * p2 + t * p3;
    var d, e := Mix(a, b, t), Mix(b, c, t);
    assert d == u * a + t * b && e == u * b + t * c;
    assert d == u * u * p0 + 2.0 * u * t * p1 + t * t * p2;
    assert e == u * u * p1 + 2.0 * u * t * p2 + t * t * p3;
  }

  /** The drawn path traces the cubic Bézier curve of its four points. */
  lemma PathIsBezier(c: Curve, t: real)
    ensures PathPoint(PathData(c), t) == BezierAt(c, t)
  {
    DeCasteljauCoordinate(c.start.x, c.control1.x, c.control2.x, c.end.x, t);
    DeCasteljauCoordinate(c.start.y, c.control1.y, c.control2.y, c.end.y, t);
  }

  /** The drawn connector runs from the start point to the end point and
      passes through their midpoint halfway along. */
  lemma CurveEndsAndMidpoint(source: Point, target: Point)
    ensures var c := ConnectorCurve(source, target);
            var path := PathData(c);
            && PathPoint(path, 0.0) == c.start
            && PathPoint(path, 1.0) == c.end
            && PathPoint(path, 0.5) == Point((c.start.x + c.end.x) / 2.0, (c.start.y + c.end.y) / 2.0)
  {
    var c := ConnectorCurve(source, target);
    PathIsBezier(c, 0.0);
    PathIsBezier(c, 1.0);
    PathIsBezier(c, 0.5);
    var m := BezierAt(c, 0.5);
    assert m.x == 0.125 * c.start.x + 0.375 * c.control1.x + 0.375 * c.control2.x + 0.125 * c.end.x;
    assert m.y == 0.125 * c.start.y + 0.375 * c.control1.y + 0.375 * c.control2.y + 0.125 * c.end.y;
  }
}
