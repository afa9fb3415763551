/**
 * The drawing of a project: an append-only log of operations bound to a paper
 * size fixed at construction, and its replay onto a graphics context.
 */
module ProjectContents {
  import opened Graphics
  import opened PaperSizes
  import opened DrawOperations

  datatype ProjectContent = ProjectContent(paperSize: PaperSize, operations: seq<DrawOperation>)

  function New(size: PaperSize): (c: ProjectContent)
    ensures c.paperSize == size
    ensures c.operations == []
  {
    ProjectContent(size, [])
  }

  function AddOperation(c: ProjectContent, op: DrawOperation): (r: ProjectContent)
    ensures |r.operations| == |c.operations| + 1
    ensures r.operations[..|c.operations|] == c.operations
    ensures r.operations[|c.operations|] == op
    ensures r.paperSize == c.paperSize
  {
    c.(operations := c.operations + [op])
  }

  function Clear(c: ProjectContent): (r: ProjectContent)
    ensures r.operations == []
    ensures r.paperSize == c.paperSize
  {
    c.(operations := [])
  }

  /** The primitives a replay of `ops` paints, one per operation, in order. */
  function Replayed(ops: seq<DrawOperation>): (ps: seq<Primitive>)
    ensures |ps| == |ops|
  {
    if ops == [] then [] else [Painted(ops[0])] + Replayed(ops[1..])
  }

  /** Appending an operation to the log appends its primitive to the replay. */
  lemma {:induction false} ReplayedAppend(ops: seq<DrawOperation>, op: DrawOperation)
    ensures Replayed(ops + [op]) == Replayed(ops) + [Painted(op)]
    decreases |ops|
  {
    if ops != [] {
      assert (ops + [op])[1..] == ops[1..] + [op];
      ReplayedAppend(ops[1..], op);
    }
  }

  /** The i-th primitive of a replay is what the i-th operation paints. */
  lemma {:induction false} ReplayedPointwise(ops: seq<DrawOperation>, i: nat)
    requires i < |ops|
    ensures Replayed(ops)[i] == Painted(ops[i])
    decreases i
  {
    if i > 0 {
      ReplayedPointwise(ops[1..], i - 1);
    }
  }

  /** Draws every operation of `ops` in order. */
  function DrawAll(ops: seq<DrawOperation>, gc: Context): (r: Context)
    ensures r.commands == gc.commands + Replayed(ops)
    ensures r.stroke == gc.stroke && r.lineWidth == gc.lineWidth && r.fill == gc.fill
    decreases |ops|
  {
    if ops == [] then gc
    else
      var drawn := Draw(ops[0], gc);
      var r := DrawAll(ops[1..], drawn);
      assert r.commands == (gc.commands + [Painted(ops[0])]) + Replayed(ops[1..]);
      assert Replayed(ops) == [Painted(ops[0])] + Replayed(ops[1..]);
      r
  }

  /**
   * Fills the whole canvas white, then draws every operation once, in
   * insertion order. The fill paint is left white afterwards.
   */
  function Render(c: ProjectContent, width: real, height: real, gc: Context): (r: Context)
    ensures r.commands == gc.commands + [Rect(0.0, 0.0, width, height, White)] + Replayed(c.operations)
    ensures r.fill == White
    ensures r.stroke == gc.stroke && r.lineWidth == gc.lineWidth
  {
    var cleared := FillRect(gc.(fill := White), 0.0, 0.0, width, height);
    DrawAll(c.operations, cleared)
  }

  /**
   * A render paints the same primitives whatever paint state and history the
   * context had, so rendering the same content twice paints the same page.
   */
  lemma RenderIsDeterministic(c: ProjectContent, width: real, height: real, g1: Context, g2: Context)
    ensures Render(c, width, height, g1).commands[|g1.commands|..]
         == Render(c, width, height, g2).commands[|g2.commands|..]
  {
    var page := [Rect(0.0, 0.0, width, height, White)] + Replayed(c.operations);
    SuffixAfterPrefix(g1.commands, page);
    SuffixAfterPrefix(g2.commands, page);
  }

  /** After a clear, a render paints a blank white page and nothing else. */
  lemma RenderAfterClearIsBlank(c: ProjectContent, width: real, height: real, gc: Context)
    ensures Render(Clear(c), width, height, gc).commands
         == gc.commands + [Rect(0.0, 0.0, width, height, White)]
  {
  }

  /** The operations a content can be given: append one, or clear all. */
  datatype Edit = Add(op: DrawOperation) | ClearAll

  function Apply(c: ProjectContent, e: Edit): ProjectContent
  {
    match e
    case Add(op) => AddOperation(c, op)
    case ClearAll => Clear(c)
  }

  function ApplyAll(c: ProjectContent, es: seq<Edit>): ProjectContent
    decreases |es|
  {
    if es == [] then c else ApplyAll(Apply(c, es[0]), es[1..])
  }

  /** No sequence of edits changes the paper size: the content has no setter for it. */
  lemma {:induction false} PaperSizeFixed(c: ProjectContent, es: seq<Edit>)
    ensures ApplyAll(c, es).paperSize == c.paperSize
    decreases |es|
  {
    if es != [] {
      PaperSizeFixed(Apply(c, es[0]), es[1..]);
    }
  }

  /** Between clears the log only grows: it is the old log followed by the added operations. */
  lemma {:induction false} AppendOnlyBetweenClears(c: ProjectContent, es: seq<Edit>)
    requires ClearAll !in es
    ensures ApplyAll(c, es).operations == c.operations + Added(es)
    decreases |es|
  {
    if es != [] {
      assert es[0].Add? by { assert es[0] in es; }
      AppendOnlyBetweenClears(AddOperation(c, es[0].op), es[1..]);
      assert c.operations + Added(es) == (c.operations + [es[0].op]) + Added(es[1..]);
    }
  }

  /** The operations added by a sequence of edits, ignoring clears. */
  function Added(es: seq<Edit>): seq<DrawOperation>
    decreases |es|
  {
    if es == [] then []
    else (if es[0].Add? then [es[0].op] else []) + Added(es[1..])
  }

  lemma SuffixAfterPrefix<T>(a: seq<T>, b: seq<T>)
    ensures (a + b)[|a|..] == b
  {
  }
}
