/** Value types shared by the circular gauge: colours, the needle style,
    abstract points and the drawing commands a draw pass issues. */
module GaugeTypes {

  /** One 8-bit colour channel. */
  type Byte = x: int | 0 <= x < 256

  /** An `rgb_color`: red, green, blue and alpha channels. */
  datatype Color = Rgba(red: Byte, green: Byte, blue: Byte, alpha: Byte)

  /** The toolkit's system colours (`ui_color`), looked up outside the model
      and passed in wherever the control reads them. */
  datatype Palette = Palette(
    controlBackground: Color,
    controlBorder: Color,
    controlText: Color,
    panelBackground: Color)

  /** The `needle_style` enum: LINE_NEEDLE = 0, TRIANGLE_NEEDLE = 1. */
  datatype NeedleStyle = LineNeedle | TriangleNeedle

  /** A point given by its coordinates on the drawing surface. */
  datatype Vec = Vec(x: real, y: real)

  /** A point handed to the drawing surface. `OnArc(center, angle, radius)`
      stands for the point at `radius` from `center` in direction `angle`
      (degrees, counter-clockwise from east, y pointing down); it is left
      uninterpreted so that no trigonometry enters the model. */
  datatype Point =
    | At(v: Vec)
    | OnArc(center: Vec, angle: real, radius: real)

  /** Font sizes used by the draw pass: a fixed point size, or the size of
      the system bold font plus an offset (the bold font is a toolkit lookup). */
  datatype FontSize = Points(size: real) | BoldPlus(extra: real)

  /** Text handed to the surface. `Number(v, d)` is `v` printed with `d`
      decimals (`%.<d>f`); `NumberWithUnit` appends a space and the unit. */
  datatype Text =
    | Number(value: real, decimals: nat)
    | NumberWithUnit(value: real, decimals: nat, unit: string)
    | Plain(s: string)

  /** Where a string goes. String widths and line heights are font metrics,
      so they stay symbolic: `CentredOn(p, dy)` centres the text horizontally
      on `p` with its baseline `dy` below `p`; `CentredLineBelow(p)` centres it
      on `p` with its baseline one line lower, the line height being that of
      the font of the string drawn just before (the value text). */
  datatype TextPos =
    | CentredOn(anchor: Point, dy: real)
    | CentredLineBelow(anchor: Point)

  /** The radial gradient of the centre cap: from `inner` at stop 0 to
      `outer` at stop 255. */
  datatype Gradient = RadialGradient(center: Vec, radius: real, inner: Color, outer: Color)

  /** The primitive drawing commands of the surface. */
  datatype Cmd =
    | SetHighColor(color: Color)
    | SetPenSize(width: real)
    | SetFont(font: FontSize)
    | StrokeArc(center: Vec, xRadius: real, yRadius: real, startAngle: real, arcAngle: real)
    | StrokeLine(from: Point, to: Point)
    | FillPolygon(points: seq<Point>)
    | FillEllipse(center: Vec, xRadius: real, yRadius: real, fill: Gradient)
    | StrokeEllipse(center: Vec, xRadius: real, yRadius: real)
    | DrawString(text: Text, pos: TextPos)

  /** `GetPointOnArc(angle, radius, center)`. */
  function PointOnArc(angle: real, radius: real, center: Vec): Point
  {
    OnArc(center, angle, radius)
  }

  /** `MIN(a, b)`. */
  function Min(a: real, b: real): (m: real)
    ensures m <= a && m <= b
    ensures m == a || m == b
  {
    if a < b then a else b
  }
}
