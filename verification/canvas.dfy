/** `CanvasParams`: the cm <-> px mapping of the drawing surface, with its drag offset and zoom. */
module Canvas {
  import opened Points

  const DEFAULT_PX_PER_CM: real := 20.0
  const MIN_PX_PER_CM: real := 5.0
  const MAX_PX_PER_CM: real := 100.0

  /** Each unit of vertical scroll changes `px_per_cm` by this much. */
  const SCROLL_FACTOR: real := 0.1

  /** A drag moves the offset by the drag delta times this coefficient. */
  const DRAGGING_COEFFICIENT: real := 1.0

  /** `Resolution`: the size of the painter area. */
  datatype Resolution = Resolution(width: real, height: real)

  /** `f32::clamp`. */
  function Clamp(value: real, lo: real, hi: real): (r: real)
    requires lo <= hi
    ensures lo <= r <= hi
    ensures lo <= value <= hi ==> r == value
    ensures value < lo ==> r == lo
    ensures value > hi ==> r == hi
  {
    if value < lo then lo else if value > hi then hi else value
  }

  class CanvasParams {
    var center: Point2D
    var resolution: Resolution
    var pxPerCm: real
    var unitLength: real
    var isDraggingEnabled: bool
    var offset: (real, real)

    /**
     * The ranges the settings widgets and the scroll clamp keep the scale in:
     * `unit_length` is at least 1 and `px_per_cm` lies in [5, 100].
     */
    ghost predicate Valid()
      reads this
    {
      unitLength >= 1.0 && MIN_PX_PER_CM <= pxPerCm <= MAX_PX_PER_CM
    }

    /** `CanvasParams::default()`. */
    constructor ()
      ensures center == ORIGIN && resolution == Resolution(0.0, 0.0)
      ensures pxPerCm == DEFAULT_PX_PER_CM && unitLength == 1.0
      ensures isDraggingEnabled && offset == (0.0, 0.0)
      ensures Valid()
    {
      center := ORIGIN;
      resolution := Resolution(0.0, 0.0);
      pxPerCm := DEFAULT_PX_PER_CM;
      unitLength := 1.0;
      isDraggingEnabled := true;
      offset := (0.0, 0.0);
    }

    /** `PartialEq for CanvasParams`: every field except `is_dragging_enabled` is compared. */
    predicate Eq(other: CanvasParams)
      reads this, other
    {
      && center == other.center
      && resolution == other.resolution
      && pxPerCm == other.pxPerCm
      && unitLength == other.unitLength
      && offset == other.offset
    }

    /** `value_cm_to_px`: a length in cm scaled to pixels; proportional to `px_per_cm / unit_length`. */
    function ValueCmToPx(value: real): (px: real)
      reads this
      requires unitLength != 0.0
      ensures px * unitLength == value * pxPerCm
    {
      value / unitLength * pxPerCm
    }

    /** `value_px_to_cm`: a length in pixels scaled back to cm. */
    function ValuePxToCm(value: real): (cm: real)
      reads this
      requires pxPerCm != 0.0
      ensures cm * pxPerCm == value * unitLength
    {
      value / pxPerCm * unitLength
    }

    /**
     * `point_cm_to_px`: a model-space point mapped around the canvas centre, shifted by
     * the drag offset, with the y axis flipped; the result is marked as screen space.
     */
    function PointCmToPx(point: Point2D): (q: Point2D)
      reads this
      requires unitLength != 0.0
      requires !point.convertedToScreen
      ensures q.convertedToScreen
      ensures q.x == center.x + ValueCmToPx(point.x) + offset.0
      ensures q.y == center.y - ValueCmToPx(point.y) + offset.1
    {
      var x := center.x + (point.x / unitLength * pxPerCm) + offset.0;
      var y := center.y - (point.y / unitLength * pxPerCm) + offset.1;
      WithConvertedChecked(New(x, y))
    }

    /** The two value conversions undo each other whenever both scales are non-zero. */
    lemma CmPxRoundTrip(value: real)
      requires unitLength != 0.0 && pxPerCm != 0.0
      ensures ValuePxToCm(ValueCmToPx(value)) == value
      ensures ValueCmToPx(ValuePxToCm(value)) == value
    {
      var px := ValueCmToPx(value);
      var cm := ValuePxToCm(px);
      assert cm * pxPerCm == value * pxPerCm by {
        calc {
          cm * pxPerCm;
          px * unitLength;
          value * pxPerCm;
        }
      }
      var cm' := ValuePxToCm(value);
      var px' := ValueCmToPx(cm');
      assert px' * unitLength == value * unitLength by {
        calc {
          px' * unitLength;
          cm' * pxPerCm;
          value * unitLength;
        }
      }
    }

    /** A screen point can be traced back to the model point it came from. */
    lemma PointCmToPxInverse(point: Point2D)
      requires unitLength != 0.0 && pxPerCm != 0.0
      requires !point.convertedToScreen
      ensures ValuePxToCm(PointCmToPx(point).x - center.x - offset.0) == point.x
      ensures ValuePxToCm(center.y + offset.1 - PointCmToPx(point).y) == point.y
    {
      CmPxRoundTrip(point.x);
      CmPxRoundTrip(point.y);
    }

    /** Parameters that compare equal project every point alike, whatever their drag flag. */
    lemma EqualParamsProjectAlike(other: CanvasParams, point: Point2D)
      requires Eq(other)
      requires unitLength != 0.0
      requires !point.convertedToScreen
      ensures other.unitLength != 0.0
      ensures PointCmToPx(point) == other.PointCmToPx(point)
    {
    }

    /**
     * `update_offset_on_drag`: when dragging is enabled and a drag happened, the drag delta
     * is added to the offset; otherwise nothing changes.
     */
    method UpdateOffsetOnDrag(dragged: bool, delta: (real, real))
      modifies this`offset
      ensures isDraggingEnabled && dragged ==>
        offset == (old(offset.0) + delta.0 * DRAGGING_COEFFICIENT, old(offset.1) + delta.1 * DRAGGING_COEFFICIENT)
      ensures !(isDraggingEnabled && dragged) ==> offset == old(offset)
    {
      if isDraggingEnabled && dragged {
        offset := (offset.0 + delta.0 * DRAGGING_COEFFICIENT, offset.1 + delta.1 * DRAGGING_COEFFICIENT);
      }
    }

    /** The scroll update of `px_per_cm`, clamped to [5, 100]. */
    method UpdatePxPerCmOnScroll(scrollDelta: real)
      modifies this`pxPerCm
      ensures pxPerCm == Clamp(old(pxPerCm) + scrollDelta * SCROLL_FACTOR, MIN_PX_PER_CM, MAX_PX_PER_CM)
      ensures MIN_PX_PER_CM <= pxPerCm <= MAX_PX_PER_CM
      ensures old(Valid()) ==> Valid()
    {
      pxPerCm := Clamp(pxPerCm + scrollDelta * SCROLL_FACTOR, MIN_PX_PER_CM, MAX_PX_PER_CM);
    }
  }
}
