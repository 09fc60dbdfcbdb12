/** `Point2D`: a plane point with a debug flag that records whether it is in screen space. */
module Points {

  /** `egui::Pos2`. */
  datatype Pos2 = Pos2(x: real, y: real)

  datatype Point2D = Point2D(x: real, y: real, convertedToScreen: bool)

  /** `Point2D::default()`. */
  const ORIGIN: Point2D := Point2D(0.0, 0.0, false)

  /** `Point2D::new`: a point in model space. */
  function New(x: real, y: real): (p: Point2D)
    ensures p.x == x && p.y == y
    ensures !p.convertedToScreen
  {
    Point2D(x, y, false)
  }

  /** `Point2D::from_pos2`. */
  function FromPos2(pos: Pos2): (p: Point2D)
    ensures p.x == pos.x && p.y == pos.y
    ensures !p.convertedToScreen
  {
    Point2D(pos.x, pos.y, false)
  }

  /** `with_converted_checked`: the same coordinates, marked as screen space. */
  function WithConvertedChecked(p: Point2D): (q: Point2D)
    ensures q.x == p.x && q.y == p.y
    ensures q.convertedToScreen
  {
    Point2D(p.x, p.y, true)
  }

  /** `with_converted_unchecked`: the same coordinates, marked as model space. */
  function WithConvertedUnchecked(p: Point2D): (q: Point2D)
    ensures q.x == p.x && q.y == p.y
    ensures !q.convertedToScreen
  {
    Point2D(p.x, p.y, false)
  }

  /** `PartialEq for Point2D`: coordinates and flag are compared. */
  predicate Eq(p: Point2D, q: Point2D)
    ensures Eq(p, q) <==> p == q
  {
    p.x == q.x && p.y == q.y && p.convertedToScreen == q.convertedToScreen
  }

  /** Setting and clearing the flag only touch the flag. */
  lemma ConversionFlagRoundTrip(p: Point2D)
    ensures WithConvertedUnchecked(WithConvertedChecked(p)) == New(p.x, p.y)
    ensures WithConvertedChecked(WithConvertedUnchecked(p)) == WithConvertedChecked(p)
    ensures !Eq(WithConvertedChecked(p), WithConvertedUnchecked(p))
  {
  }
}
