/** Colours, colour schemes and strokes: the small value types the geometry carries. */
module Colors {

  newtype Byte = x: int | 0 <= x < 256

  /** `egui::Color32`, an RGBA quadruple. */
  datatype Color = Color(r: Byte, g: Byte, b: Byte, a: Byte)

  /** `Color32::from_rgb(0, 0, 0)`: opaque black. */
  const BLACK: Color := Color(0, 0, 0, 255)

  /** How a primitive is coloured: one fixed colour, a fresh random colour per draw, or black. */
  datatype ColorScheme = Fixed(color: Color) | Random | Standard

  /** `egui::Stroke`: a width and a colour. */
  datatype Stroke = Stroke(width: real, color: Color)

  /**
   * The colour a scheme yields. The random generator is outside the model: `randomDraw`
   * is the colour it produced for this call.
   */
  function GetColor(scheme: ColorScheme, randomDraw: Color): (c: Color)
    ensures scheme.Fixed? ==> c == scheme.color
    ensures scheme.Standard? ==> c == BLACK
    ensures scheme.Random? ==> c == randomDraw
  {
    match scheme
    case Fixed(color) => color
    case Random => randomDraw
    case Standard => BLACK
  }
}
