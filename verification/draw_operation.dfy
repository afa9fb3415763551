/**
 * The replayable drawing operations. An operation carries its own geometry and
 * paint, so drawing it depends on nothing but its own fields; datatype values
 * are immutable, so an operation never changes once created.
 */
module DrawOperations {
  import opened Graphics

  datatype DrawOperation =
    | Stroke(startX: real, startY: real, endX: real, endY: real, color: Color, size: real)
    | Dot(x: real, y: real, color: Color, size: real)

  /** The one primitive an operation paints, with the operation's own paint. */
  function Painted(op: DrawOperation): Primitive
  {
    match op
    case Stroke(x0, y0, x1, y1, color, size) => Line(x0, y0, x1, y1, color, size)
    case Dot(x, y, color, size) => Oval(x - size / 2.0, y - size / 2.0, size, size, color)
  }

  /**
   * Saves the paint state the operation touches, applies the operation's own
   * paint, emits its primitive and restores the saved state.
   */
  function Draw(op: DrawOperation, gc: Context): (r: Context)
    ensures r.commands == gc.commands + [Painted(op)]
    ensures r.stroke == gc.stroke && r.lineWidth == gc.lineWidth && r.fill == gc.fill
  {
    match op
    case Stroke(x0, y0, x1, y1, color, size) =>
      var oldStroke := gc.stroke;
      var oldLineWidth := gc.lineWidth;
      var painting := gc.(stroke := color, lineWidth := size);
      var drawn := StrokeLine(painting, x0, y0, x1, y1);
      drawn.(stroke := oldStroke, lineWidth := oldLineWidth)
    case Dot(x, y, color, size) =>
      var oldFill := gc.fill;
      var painting := gc.(fill := color);
      var drawn := FillOval(painting, x - size / 2.0, y - size / 2.0, size, size);
      drawn.(fill := oldFill)
  }

  /** What an operation paints does not depend on the paint state it is drawn on. */
  lemma DrawIgnoresAmbientPaint(op: DrawOperation, g1: Context, g2: Context)
    ensures Draw(op, g1).commands[|g1.commands|..] == Draw(op, g2).commands[|g2.commands|..]
  {
    assert Draw(op, g1).commands[|g1.commands|..] == [Painted(op)];
    assert Draw(op, g2).commands[|g2.commands|..] == [Painted(op)];
  }

  /** A dot's oval is centred on the dot and has the dot's size as its diameter. */
  lemma DotCentred(op: DrawOperation)
    requires op.Dot?
    ensures Painted(op).x + Painted(op).w / 2.0 == op.x
    ensures Painted(op).y + Painted(op).h / 2.0 == op.y
    ensures Painted(op).w == Painted(op).h == op.size
    ensures Painted(op).paint == op.color
  {
  }
}
