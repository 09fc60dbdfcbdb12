/** Screen projection of the primitives the engines emit: points, line segments and dots. */
module Geometry {
  import opened Colors
  import opened Points
  import opened Canvas

  /** `Point2D::to_screen`: `point_cm_to_px` applied to a copy of the point. */
  function PointToScreen(p: Point2D, params: CanvasParams): (q: Point2D)
    reads params
    requires params.unitLength != 0.0
    requires !p.convertedToScreen
    ensures q == params.PointCmToPx(p)
    ensures q.convertedToScreen
  {
    params.PointCmToPx(p)
  }

  /** `Line2D`: a segment with its stroke; `Line2D::new` is the constructor. */
  datatype Line2D = Line2D(start: Point2D, end: Point2D, stroke: Stroke)

  /** Both ends of the segment are still in model space. */
  predicate LineInModelSpace(l: Line2D)
  {
    !l.start.convertedToScreen && !l.end.convertedToScreen
  }

  /** `Line2D::to_screen`: both ends projected, the stroke kept. */
  function LineToScreen(l: Line2D, params: CanvasParams): (r: Line2D)
    reads params
    requires params.unitLength != 0.0
    requires LineInModelSpace(l)
    ensures r.start == PointToScreen(l.start, params)
    ensures r.end == PointToScreen(l.end, params)
    ensures r.stroke == l.stroke
  {
    Line2D(PointToScreen(l.start, params), PointToScreen(l.end, params), l.stroke)
  }

  /** `Dot`: a filled circle; `Dot::new` is the constructor. */
  datatype Dot = Dot(point: Point2D, color: Color, radius: real)

  /** What `Dot::to_shape` asserts before painting: the centre is already in screen space. */
  predicate ReadyToDraw(d: Dot)
  {
    d.point.convertedToScreen
  }

  /** `Dot::to_screen`: the centre projected, the radius scaled, the colour kept. */
  function DotToScreen(d: Dot, params: CanvasParams): (r: Dot)
    reads params
    requires params.unitLength != 0.0
    requires !d.point.convertedToScreen
    ensures r.point == PointToScreen(d.point, params)
    ensures r.color == d.color
    ensures r.radius == params.ValueCmToPx(d.radius)
    ensures ReadyToDraw(r)
  {
    Dot(PointToScreen(d.point, params), d.color, params.ValueCmToPx(d.radius))
  }

  /** `DotBuilder`: the fields of a dot being assembled; `with_*` are record updates. */
  datatype DotBuilder = DotBuilder(point: Point2D, color: Color, radius: real)

  const DEFAULT_DOT_RADIUS: real := 0.025

  /** `DotBuilder::default()`: a black dot of radius 0.025 at the origin. */
  const DEFAULT_DOT_BUILDER: DotBuilder := DotBuilder(New(0.0, 0.0), BLACK, DEFAULT_DOT_RADIUS)

  /** `DotBuilder::build`: the dot carries the builder's fields unchanged. */
  function BuildDot(b: DotBuilder): (d: Dot)
    ensures d.point == b.point && d.color == b.color && d.radius == b.radius
  {
    Dot(b.point, b.color, b.radius)
  }

  /** The dot the default builder builds: at (0, 0) in model space, black, radius 0.025. */
  lemma DefaultDot()
    ensures BuildDot(DEFAULT_DOT_BUILDER) == Dot(Point2D(0.0, 0.0, false), BLACK, 0.025)
    ensures !ReadyToDraw(BuildDot(DEFAULT_DOT_BUILDER))
  {
  }
}
