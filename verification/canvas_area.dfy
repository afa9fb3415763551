/**
 * The drawing surface: the press/drag/release gesture state machine that
 * records operations into the current project and paints them at once, the
 * brush, the clear command, and the zoom factor with its clamp.
 *
 * The mapping from a mouse position to canvas coordinates depends on the
 * scene graph; it is a parameter `toCanvas` here.
 */
module CanvasAreas {
  import opened Wrappers
  import opened Graphics
  import opened PaperSizes
  import opened Brushes
  import opened DrawOperations
  import C = ProjectContents
  import P = Projects

  const MinZoom: real := 0.25
  const MaxZoom: real := 4.0
  const ZoomDelta: real := 0.1

  datatype CanvasArea = CanvasArea(
    project: P.Project,
    brush: BrushSettings,
    drawing: bool,
    last: Point,
    zoom: real,
    width: real,
    height: real,
    gc: Context)

  /** The operation log of the project being drawn on. */
  function Log(c: CanvasArea): seq<DrawOperation>
  {
    c.project.content.operations
  }

  /**
   * The live canvas shows exactly a replay of the log on top of `base`: what
   * is painted incrementally agrees with what a full render would paint.
   */
  predicate Synced(c: CanvasArea, base: seq<Primitive>)
  {
    c.gc.commands == base + C.Replayed(Log(c))
  }

  /**
   * A canvas sized to the project's paper, with the default brush applied to
   * the context, not drawing, at 100% zoom, showing the project's content.
   */
  function New(project: P.Project): (c: CanvasArea)
    ensures c.project == project && c.brush == DefaultBrush
    ensures !c.drawing && c.zoom == 1.0
    ensures c.width == WidthInPixels(project.paperSize) && c.height == HeightInPixels(project.paperSize)
    ensures c.gc.stroke == DefaultBrush.color && c.gc.lineWidth == DefaultBrush.size
    ensures Synced(c, [Rect(0.0, 0.0, c.width, c.height, White)])
  {
    var width := WidthInPixels(project.paperSize);
    var height := HeightInPixels(project.paperSize);
    var gc := Initial.(stroke := DefaultBrush.color, lineWidth := DefaultBrush.size);
    CanvasArea(project, DefaultBrush, false, Point(0.0, 0.0), 1.0, width, height,
      C.Render(project.content, width, height, gc))
  }

  /** Press: start drawing at the mapped point and record a dot there with the current brush. */
  function HandleMousePressed(c: CanvasArea, p: Point, toCanvas: Point -> Point): (r: CanvasArea)
    ensures r.drawing && r.last == toCanvas(p)
    ensures Log(r) == Log(c) + [Dot(toCanvas(p).x, toCanvas(p).y, c.brush.color, c.brush.size)]
    ensures r.brush == c.brush && r.zoom == c.zoom && r.width == c.width && r.height == c.height
    ensures r.project.(content := c.project.content) == c.project
    ensures r.project.content.paperSize == c.project.content.paperSize
    ensures r.gc.stroke == c.gc.stroke && r.gc.fill == c.gc.fill && r.gc.lineWidth == c.gc.lineWidth
    ensures forall base :: Synced(c, base) ==> Synced(r, base)
  {
    var q := toCanvas(p);
    var op := Dot(q.x, q.y, c.brush.color, c.brush.size);
    var r := c.(last := q, drawing := true,
                project := P.AddDrawOperation(c.project, op),
                gc := Draw(op, c.gc));
    C.ReplayedAppend(Log(c), op);
    r
  }

  /**
   * Drag: ignored unless drawing; otherwise records a stroke from the last
   * point to the mapped point with the current brush, and moves the last point.
   */
  function HandleMouseDragged(c: CanvasArea, p: Point, toCanvas: Point -> Point): (r: CanvasArea)
    ensures !c.drawing ==> r == c
    ensures c.drawing ==> r.drawing && r.last == toCanvas(p)
    ensures c.drawing ==>
      Log(r) == Log(c) + [Stroke(c.last.x, c.last.y, toCanvas(p).x, toCanvas(p).y, c.brush.color, c.brush.size)]
    ensures r.brush == c.brush && r.zoom == c.zoom && r.width == c.width && r.height == c.height
    ensures r.project.(content := c.project.content) == c.project
    ensures r.project.content.paperSize == c.project.content.paperSize
    ensures r.gc.stroke == c.gc.stroke && r.gc.fill == c.gc.fill && r.gc.lineWidth == c.gc.lineWidth
    ensures forall base :: Synced(c, base) ==> Synced(r, base)
  {
    if !c.drawing then c
    else
      var q := toCanvas(p);
      var op := Stroke(c.last.x, c.last.y, q.x, q.y, c.brush.color, c.brush.size);
      var r := c.(project := P.AddDrawOperation(c.project, op),
                  gc := Draw(op, c.gc),
                  last := q);
      C.ReplayedAppend(Log(c), op);
      r
  }

  /** Release: stop drawing; nothing is recorded or painted. */
  function HandleMouseReleased(c: CanvasArea): (r: CanvasArea)
    ensures !r.drawing
    ensures r.project == c.project && r.gc == c.gc && r.last == c.last && r.brush == c.brush
    ensures r.zoom == c.zoom && r.width == c.width && r.height == c.height
  {
    c.(drawing := false)
  }

  /**
   * Installs a new brush and applies it to the context's stroke state. The
   * log is untouched: recorded operations keep the brush they were made with.
   */
  function SetBrushSettings(c: CanvasArea, b: BrushSettings): (r: CanvasArea)
    ensures r.brush == b
    ensures r.gc.stroke == b.color && r.gc.lineWidth == b.size && r.gc.fill == c.gc.fill
    ensures r.project == c.project && r.gc.commands == c.gc.commands
    ensures r.drawing == c.drawing && r.last == c.last && r.zoom == c.zoom
    ensures r.width == c.width && r.height == c.height
  {
    c.(brush := b, gc := c.gc.(stroke := b.color, lineWidth := b.size))
  }

  /** Clears the project's log and blanks the page: erase, then fill white. */
  function Clear(c: CanvasArea): (r: CanvasArea)
    ensures Log(r) == []
    ensures r.gc.commands == c.gc.commands
      + [Erase(0.0, 0.0, c.width, c.height), Rect(0.0, 0.0, c.width, c.height, White)]
    ensures r.gc.fill == White
    ensures Synced(r, r.gc.commands)
    ensures r.project.(content := c.project.content) == c.project
    ensures r.project.content.paperSize == c.project.content.paperSize
    ensures r.width == c.width && r.height == c.height
    ensures r.gc.stroke == c.gc.stroke && r.gc.lineWidth == c.gc.lineWidth
    ensures r.brush == c.brush && r.drawing == c.drawing && r.last == c.last && r.zoom == c.zoom
  {
    var erased := ClearRect(c.gc, 0.0, 0.0, c.width, c.height);
    var white := erased.(fill := White);
    c.(project := P.ClearContent(c.project), gc := FillRect(white, 0.0, 0.0, c.width, c.height))
  }

  /** The input the canvas reacts to. */
  datatype Input = Pressed(p: Point) | Dragged(p: Point) | Released | BrushChanged(b: BrushSettings)

  function Handle(c: CanvasArea, i: Input, toCanvas: Point -> Point): CanvasArea
  {
    match i
    case Pressed(p) => HandleMousePressed(c, p, toCanvas)
    case Dragged(p) => HandleMouseDragged(c, p, toCanvas)
    case Released => HandleMouseReleased(c)
    case BrushChanged(b) => SetBrushSettings(c, b)
  }

  function Run(c: CanvasArea, inputs: seq<Input>, toCanvas: Point -> Point): CanvasArea
    decreases |inputs|
  {
    if inputs == [] then c else Run(Handle(c, inputs[0], toCanvas), inputs[1..], toCanvas)
  }

  /**
   * Input never removes or alters a recorded operation (brush changes
   * included), never changes the paper size, and keeps the live canvas in
   * step with a replay of the log.
   */
  lemma {:induction false} InputOnlyAppends(c: CanvasArea, inputs: seq<Input>, toCanvas: Point -> Point, base: seq<Primitive>)
    ensures |Log(c)| <= |Log(Run(c, inputs, toCanvas))|
    ensures Log(Run(c, inputs, toCanvas))[..|Log(c)|] == Log(c)
    ensures Run(c, inputs, toCanvas).project.content.paperSize == c.project.content.paperSize
    ensures Synced(c, base) ==> Synced(Run(c, inputs, toCanvas), base)
    decreases |inputs|
  {
    if inputs != [] {
      var next := Handle(c, inputs[0], toCanvas);
      assert |Log(c)| <= |Log(next)| && Log(next)[..|Log(c)|] == Log(c);
      InputOnlyAppends(next, inputs[1..], toCanvas, base);
    }
  }

  /**
   * Press at (10,20), drags to (15,20) and (15,25), release, with the default
   * black 2px brush and no zoom or pan: one dot and two strokes, nothing on release.
   */
  lemma GestureExample(c: CanvasArea)
    requires Log(c) == [] && c.brush == DefaultBrush && !c.drawing
    ensures Log(Run(c, [Pressed(Point(10.0, 20.0)), Dragged(Point(15.0, 20.0)),
                        Dragged(Point(15.0, 25.0)), Released], p => p))
      == [Dot(10.0, 20.0, Black, 2.0),
          Stroke(10.0, 20.0, 15.0, 20.0, Black, 2.0),
          Stroke(15.0, 20.0, 15.0, 25.0, Black, 2.0)]
    ensures !Run(c, [Pressed(Point(10.0, 20.0)), Dragged(Point(15.0, 20.0)),
                     Dragged(Point(15.0, 25.0)), Released], p => p).drawing
  {
    var id := (p: Point) => p;
    var c1 := HandleMousePressed(c, Point(10.0, 20.0), id);
    var c2 := HandleMouseDragged(c1, Point(15.0, 20.0), id);
    var c3 := HandleMouseDragged(c2, Point(15.0, 25.0), id);
    var c4 := HandleMouseReleased(c3);
    assert Run(c, [Pressed(Point(10.0, 20.0)), Dragged(Point(15.0, 20.0)),
                   Dragged(Point(15.0, 25.0)), Released], id) == c4;
  }

  /**
   * Changing the brush mid-drag affects only the segments recorded after the
   * change; those already recorded keep the original brush.
   */
  lemma BrushSnapshotExample(c: CanvasArea, red: Color)
    requires Log(c) == [] && c.brush == DefaultBrush
    ensures Log(Run(c, [Pressed(Point(0.0, 0.0)), Dragged(Point(1.0, 0.0)), Dragged(Point(2.0, 0.0)),
                        BrushChanged(BrushSettings(red, 5.0)), Dragged(Point(3.0, 0.0))], p => p))
      == [Dot(0.0, 0.0, Black, 2.0),
          Stroke(0.0, 0.0, 1.0, 0.0, Black, 2.0),
          Stroke(1.0, 0.0, 2.0, 0.0, Black, 2.0),
          Stroke(2.0, 0.0, 3.0, 0.0, red, 5.0)]
  {
    var id := (p: Point) => p;
    var c1 := HandleMousePressed(c, Point(0.0, 0.0), id);
    var c2 := HandleMouseDragged(c1, Point(1.0, 0.0), id);
    var c3 := HandleMouseDragged(c2, Point(2.0, 0.0), id);
    var c4 := SetBrushSettings(c3, BrushSettings(red, 5.0));
    var c5 := HandleMouseDragged(c4, Point(3.0, 0.0), id);
    var inputs := [Pressed(Point(0.0, 0.0)), Dragged(Point(1.0, 0.0)), Dragged(Point(2.0, 0.0)),
                   BrushChanged(BrushSettings(red, 5.0)), Dragged(Point(3.0, 0.0))];
    assert Run(c4, inputs[4..], id) == c5;
    assert Run(c3, inputs[3..], id) == c5;
    assert Run(c2, inputs[2..], id) == c5;
    assert Run(c1, inputs[1..], id) == c5;
  }

  // ----- Zoom -----

  function Max(a: real, b: real): real { if a >= b then a else b }
  function Min(a: real, b: real): real { if a <= b then a else b }

  /** Clamps `v` into [MinZoom, MaxZoom]: first capped at the maximum, then raised to the minimum. */
  function Clamp(v: real): (r: real)
    ensures MinZoom <= r <= MaxZoom
    ensures MinZoom <= v <= MaxZoom ==> r == v
    ensures v < MinZoom ==> r == MinZoom
    ensures v > MaxZoom ==> r == MaxZoom
  {
    Max(MinZoom, Min(MaxZoom, v))
  }

  /** The canvas after a zoom request, and the zoom-changed notification if one is fired. */
  datatype Zoomed = Zoomed(area: CanvasArea, event: Option<real>)

  /**
   * Adds `delta` to the zoom factor and clamps it. When the clamped factor is
   * the old one, nothing else happens; otherwise a notification carries the
   * new factor. Only the zoom factor of the canvas changes.
   */
  function Zoom(c: CanvasArea, delta: real): (r: Zoomed)
    ensures r.area.zoom == Clamp(c.zoom + delta)
    ensures MinZoom <= r.area.zoom <= MaxZoom
    ensures r.area == c.(zoom := r.area.zoom)
    ensures r.event.None? <==> r.area.zoom == c.zoom
    ensures r.event.Some? ==> r.event.value == r.area.zoom
  {
    var oldZoom := c.zoom;
    var z := Clamp(oldZoom + delta);
    if oldZoom == z then Zoomed(c, None)
    else Zoomed(c.(zoom := z), Some(z))
  }

  function ZoomIn(c: CanvasArea): (r: Zoomed)
    ensures MinZoom <= c.zoom <= MaxZoom ==> c.zoom <= r.area.zoom
    ensures MinZoom <= c.zoom <= MaxZoom ==> (r.event.None? <==> c.zoom == MaxZoom)
    ensures r.area == c.(zoom := r.area.zoom)
  {
    Zoom(c, ZoomDelta)
  }

  function ZoomOut(c: CanvasArea): (r: Zoomed)
    ensures MinZoom <= c.zoom <= MaxZoom ==> r.area.zoom <= c.zoom
    ensures MinZoom <= c.zoom <= MaxZoom ==> (r.event.None? <==> c.zoom == MinZoom)
    ensures r.area == c.(zoom := r.area.zoom)
  {
    Zoom(c, -ZoomDelta)
  }

  /** Zooms by the difference to 100%: lands exactly on 1.0, silently when already there. */
  function ResetZoom(c: CanvasArea): (r: Zoomed)
    ensures r.area.zoom == 1.0
    ensures r.event.None? <==> c.zoom == 1.0
    ensures r.area == c.(zoom := 1.0)
  {
    var delta := 1.0 - c.zoom;
    Zoom(c, delta)
  }

  datatype ZoomRequest = By(delta: real) | In | Out | Reset

  function ApplyZoom(c: CanvasArea, z: ZoomRequest): Zoomed
  {
    match z
    case By(delta) => Zoom(c, delta)
    case In => ZoomIn(c)
    case Out => ZoomOut(c)
    case Reset => ResetZoom(c)
  }

  /** Applies the requests in order, collecting the notifications fired. */
  function RunZoom(c: CanvasArea, zs: seq<ZoomRequest>): (CanvasArea, seq<real>)
    decreases |zs|
  {
    if zs == [] then (c, [])
    else
      var step := ApplyZoom(c, zs[0]);
      var rest := RunZoom(step.area, zs[1..]);
      (rest.0, (if step.event.Some? then [step.event.value] else []) + rest.1)
  }

  /**
   * From any factor in range (1.0 at start), the factor stays within
   * [0.25, 4.0] after any sequence of zoom requests, every notification
   * carries a factor in range, and nothing but the factor changes.
   */
  lemma {:induction false} ZoomStaysInRange(c: CanvasArea, zs: seq<ZoomRequest>)
    requires MinZoom <= c.zoom <= MaxZoom
    ensures MinZoom <= RunZoom(c, zs).0.zoom <= MaxZoom
    ensures forall i :: 0 <= i < |RunZoom(c, zs).1| ==> MinZoom <= RunZoom(c, zs).1[i] <= MaxZoom
    ensures RunZoom(c, zs).0 == c.(zoom := RunZoom(c, zs).0.zoom)
    decreases |zs|
  {
    if zs != [] {
      var step := ApplyZoom(c, zs[0]);
      ZoomStaysInRange(step.area, zs[1..]);
    }
  }

  /** At the maximum, any number of zoom-ins changes nothing and fires nothing. */
  lemma {:induction false} ZoomInAtMaximumIsSilent(c: CanvasArea, zs: seq<ZoomRequest>)
    requires c.zoom == MaxZoom
    requires forall i :: 0 <= i < |zs| ==> zs[i] == In
    ensures RunZoom(c, zs) == (c, [])
    decreases |zs|
  {
    if zs != [] {
      assert ApplyZoom(c, zs[0]) == Zoomed(c, None);
      ZoomInAtMaximumIsSilent(c, zs[1..]);
      var rest := RunZoom(c, zs[1..]);
      var none: seq<real> := [];
      assert none + rest.1 == [];
      assert RunZoom(c, zs) == (rest.0, none + rest.1);
    }
  }

  /** Zooming by +d then by -d, with no clamping on the way, restores the factor. */
  lemma ZoomRoundTrip(c: CanvasArea, d: real)
    requires MinZoom <= c.zoom <= MaxZoom
    requires MinZoom <= c.zoom + d <= MaxZoom
    ensures Zoom(Zoom(c, d).area, -d).area == c
  {
  }
}
