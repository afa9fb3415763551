/**
 * An abstract JavaFX GraphicsContext. Instead of pixels, the context keeps its
 * paint state (stroke paint, fill paint, line width) and the list of primitives
 * painted so far; each primitive records the paint that was in effect when it
 * was emitted, exactly as JavaFX paints with the context's current state.
 */
module Graphics {

  /** A JavaFX Color: red, green, blue and opacity components. */
  datatype Color = Color(red: real, green: real, blue: real, opacity: real)

  const Black: Color := Color(0.0, 0.0, 0.0, 1.0)
  const White: Color := Color(1.0, 1.0, 1.0, 1.0)

  datatype Point = Point(x: real, y: real)

  datatype Primitive =
    | Line(x0: real, y0: real, x1: real, y1: real, paint: Color, width: real)
    | Oval(x: real, y: real, w: real, h: real, paint: Color)
    | Rect(x: real, y: real, w: real, h: real, paint: Color)
    | Erase(x: real, y: real, w: real, h: real)

  datatype Context = Context(stroke: Color, fill: Color, lineWidth: real, commands: seq<Primitive>)

  /** The state of a freshly created canvas's context (JavaFX defaults). */
  const Initial: Context := Context(Black, Black, 1.0, [])

  /** Strokes a line from (x0, y0) to (x1, y1) with the current stroke paint and line width. */
  function StrokeLine(gc: Context, x0: real, y0: real, x1: real, y1: real): Context
  {
    gc.(commands := gc.commands + [Line(x0, y0, x1, y1, gc.stroke, gc.lineWidth)])
  }

  function FillOval(gc: Context, x: real, y: real, w: real, h: real): Context
  {
    gc.(commands := gc.commands + [Oval(x, y, w, h, gc.fill)])
  }

  function FillRect(gc: Context, x: real, y: real, w: real, h: real): Context
  {
    gc.(commands := gc.commands + [Rect(x, y, w, h, gc.fill)])
  }

  function ClearRect(gc: Context, x: real, y: real, w: real, h: real): Context
  {
    gc.(commands := gc.commands + [Erase(x, y, w, h)])
  }
}
