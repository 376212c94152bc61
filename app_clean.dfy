/** The minimal mouse-driven drawing screen: mouse-down starts a stroke of
    one point, moves while drawing append to the newest stroke, mouse-up or
    leaving the canvas ends drawing; undo drops the newest stroke and clear
    drops them all. Every stroke is redrawn as one polyline at its size;
    the tool is stored with a stroke but plays no part in drawing it. */
module AppClean {
  import Types
  import opened Canvas

  datatype Tool = Pen | Eraser | Pan

  datatype Pos = Pos(x: real, y: real)

  datatype CleanStroke = CleanStroke(tool: Tool, color: string, size: real, points: seq<Pos>)

  /** A move either yields the new stroke list or fails, as the source does
      when it is drawing but holds no stroke to extend (the canvas element
      was missing at mouse-down). */
  datatype MoveOutcome = Moved(strokes: seq<CleanStroke>) | NoStrokeToExtend

  function CanvasPos(clientX: real, clientY: real, rect: Rect): Pos {
    Pos(clientX - rect.left, clientY - rect.top)
  }

  /** Mouse-down: with a canvas, a new stroke of exactly one point. */
  function MouseDown(strokes: seq<CleanStroke>, tool: Tool, color: string, size: real,
                     clientX: real, clientY: real, rect: Types.Option<Rect>): seq<CleanStroke> {
    match rect
    case None => strokes
    case Some(r) => strokes + [CleanStroke(tool, color, size, [CanvasPos(clientX, clientY, r)])]
  }

  /** The newest stroke with one more point. */
  function AppendToLast(strokes: seq<CleanStroke>, p: Pos): seq<CleanStroke>
    requires |strokes| > 0
  {
    var last := strokes[|strokes| - 1];
    strokes[..|strokes| - 1] + [last.(points := last.points + [p])]
  }

  function MouseMove(strokes: seq<CleanStroke>, isDrawing: bool, clientX: real, clientY: real,
                     rect: Types.Option<Rect>): MoveOutcome {
    if !isDrawing || rect.None? then Moved(strokes)
    else if strokes == [] then NoStrokeToExtend
    else Moved(AppendToLast(strokes, CanvasPos(clientX, clientY, rect.value)))
  }

  /** All but the newest stroke; nothing when there is none. */
  function DropLast(strokes: seq<CleanStroke>): seq<CleanStroke> {
    if strokes == [] then [] else strokes[..|strokes| - 1]
  }

  /** How many lines a polyline through the points draws. */
  function Segments(points: seq<Pos>): nat {
    if |points| == 0 then 0 else |points| - 1
  }

  /** The redraw of the strokes after the clear: one stroked path each. */
  function CleanTrace(strokes: seq<CleanStroke>, alpha: real, op: CompositeOp): seq<Command> {
    if strokes == [] then []
    else
      var last := strokes[|strokes| - 1];
      CleanTrace(strokes[..|strokes| - 1], alpha, op) + [StrokePath(last.size, alpha, op, Segments(last.points))]
  }

  /** Draws one polyline per stroke at the stroke's size. */
  method DrawCleanStrokes(ctx: Context2D, strokes: seq<CleanStroke>)
    modifies ctx`state, ctx`pathSegments, ctx`trace
    ensures ctx.state.globalAlpha == old(ctx.state.globalAlpha) && ctx.state.composite == old(ctx.state.composite)
    ensures ctx.trace == old(ctx.trace) + CleanTrace(strokes, old(ctx.state.globalAlpha), old(ctx.state.composite))
  {
    for i := 0 to |strokes|
      invariant ctx.state.globalAlpha == old(ctx.state.globalAlpha) && ctx.state.composite == old(ctx.state.composite)
      invariant ctx.trace == old(ctx.trace) + CleanTrace(strokes[..i], old(ctx.state.globalAlpha), old(ctx.state.composite))
    {
      var stroke := strokes[i];
      ctx.SetLineWidth(stroke.size);
      ctx.BeginPath();
      ghost var drawState := ctx.state;
      for j := 0 to |stroke.points|
        invariant ctx.state == drawState
        invariant ctx.pathSegments == Segments(stroke.points[..j])
        invariant ctx.trace == old(ctx.trace) + CleanTrace(strokes[..i], old(ctx.state.globalAlpha), old(ctx.state.composite))
      {
        if j != 0 {
          ctx.LineTo();
        }
      }
      assert stroke.points[..|stroke.points|] == stroke.points;
      ctx.Stroke();
      assert strokes[..i + 1][..i] == strokes[..i];
    }
    assert strokes[..|strokes|] == strokes;
  }

  class CleanApp {
    var activeTool: Tool
    var brushSize: real
    var color: string
    var strokes: seq<CleanStroke>
    var isDrawing: bool

    constructor ()
      ensures activeTool == Pen && brushSize == 5.0 && color == "#000000" && strokes == [] && !isDrawing
    {
      activeTool := Pen;
      brushSize := 5.0;
      color := "#000000";
      strokes := [];
      isDrawing := false;
    }

    method SelectTool(t: Tool)
      modifies this`activeTool
      ensures activeTool == t
    {
      activeTool := t;
    }

    /** The size slider offers 1 to 50. */
    method SetBrushSize(v: real)
      requires 1.0 <= v <= 50.0
      modifies this`brushSize
      ensures brushSize == v
    {
      brushSize := v;
    }

    method SetColor(c: string)
      modifies this`color
      ensures color == c
    {
      color := c;
    }

    /** `rect` is the canvas element's rectangle, absent when there is no canvas. */
    method HandleMouseDown(clientX: real, clientY: real, rect: Types.Option<Rect>)
      modifies this`isDrawing, this`strokes
      ensures isDrawing
      ensures strokes == MouseDown(old(strokes), activeTool, color, brushSize, clientX, clientY, rect)
    {
      isDrawing := true;
      if rect.None? {
        return;
      }
      var x := clientX - rect.value.left;
      var y := clientY - rect.value.top;
      strokes := strokes + [CleanStroke(activeTool, color, brushSize, [Pos(x, y)])];
    }

    /** `failed` reports the move that finds no stroke to extend; the list is then unchanged. */
    method HandleMouseMove(clientX: real, clientY: real, rect: Types.Option<Rect>) returns (failed: bool)
      modifies this`strokes
      ensures failed <==> MouseMove(old(strokes), isDrawing, clientX, clientY, rect).NoStrokeToExtend?
      ensures failed ==> strokes == old(strokes)
      ensures !failed ==> strokes == MouseMove(old(strokes), isDrawing, clientX, clientY, rect).strokes
    {
      failed := false;
      if !isDrawing {
        return;
      }
      if rect.None? {
        return;
      }
      var x := clientX - rect.value.left;
      var y := clientY - rect.value.top;
      if |strokes| == 0 {
        failed := true;
        return;
      }
      var current := strokes[|strokes| - 1];
      current := current.(points := current.points + [Pos(x, y)]);
      strokes := strokes[..|strokes| - 1] + [current];
    }

    /** Mouse-up and mouse-leave. */
    method HandleMouseUp()
      modifies this`isDrawing
      ensures !isDrawing
    {
      isDrawing := false;
    }

    method ClearCanvas()
      modifies this`strokes
      ensures strokes == []
    {
      strokes := [];
    }

    method Undo()
      modifies this`strokes
      ensures strokes == DropLast(old(strokes))
    {
      if |strokes| > 0 {
        strokes := strokes[..|strokes| - 1];
      }
    }

    /** The redraw after the stroke list changes (when the canvas exists). */
    method Render(ctx: Context2D?)
      modifies ctx
      ensures ctx != null ==> ctx.trace == old(ctx.trace) + [Clear] + CleanTrace(strokes, old(ctx.state.globalAlpha), old(ctx.state.composite))
      ensures ctx != null ==> ctx.stateStack == old(ctx.stateStack)
    {
      if ctx == null {
        return;
      }
      ctx.ClearRect();
      DrawCleanStrokes(ctx, strokes);
    }
  }

  // ---------------------------------------------------------------------
  // Properties.

  /** A mouse-down on the canvas adds exactly one stroke, holding exactly
      the pointer's canvas position, with the current tool, colour and size;
      a click alone therefore leaves a one-point stroke. */
  lemma DownStartsOnePointStroke(strokes: seq<CleanStroke>, tool: Tool, color: string, size: real,
                                 clientX: real, clientY: real, r: Rect)
    ensures var s2 := MouseDown(strokes, tool, color, size, clientX, clientY, Types.Some(r));
      |s2| == |strokes| + 1 && s2[..|strokes|] == strokes &&
      s2[|strokes|] == CleanStroke(tool, color, size, [Pos(clientX - r.left, clientY - r.top)])
  {
    var s2 := MouseDown(strokes, tool, color, size, clientX, clientY, Types.Some(r));
    assert s2[..|strokes|] == strokes;
  }

  lemma IdleMoveIsInert(strokes: seq<CleanStroke>, clientX: real, clientY: real, rect: Types.Option<Rect>)
    ensures MouseMove(strokes, false, clientX, clientY, rect) == Moved(strokes)
  {
  }

  /** A move while drawing extends only the newest stroke, by one point;
      the earlier strokes and the number of strokes stay as they were. */
  lemma MoveExtendsNewestOnly(strokes: seq<CleanStroke>, clientX: real, clientY: real, r: Rect)
    requires |strokes| > 0
    ensures MouseMove(strokes, true, clientX, clientY, Types.Some(r)).Moved?
    ensures var s2 := MouseMove(strokes, true, clientX, clientY, Types.Some(r)).strokes;
      var n := |strokes|;
      |s2| == n && s2[..n - 1] == strokes[..n - 1] &&
      s2[n - 1].points == strokes[n - 1].points + [Pos(clientX - r.left, clientY - r.top)] &&
      s2[n - 1].tool == strokes[n - 1].tool && s2[n - 1].color == strokes[n - 1].color && s2[n - 1].size == strokes[n - 1].size
  {
    var s2 := MouseMove(strokes, true, clientX, clientY, Types.Some(r)).strokes;
    assert s2[..|strokes| - 1] == strokes[..|strokes| - 1];
  }

  /** Undo drops the newest stroke and nothing else; on an empty list it does nothing. */
  lemma UndoSpec(strokes: seq<CleanStroke>)
    ensures strokes == [] ==> DropLast(strokes) == []
    ensures strokes != [] ==> DropLast(strokes) + [strokes[|strokes| - 1]] == strokes
  {
  }

  /** Undo right after a mouse-down on the canvas restores the list. */
  lemma UndoCancelsDown(strokes: seq<CleanStroke>, tool: Tool, color: string, size: real,
                        clientX: real, clientY: real, r: Rect)
    ensures DropLast(MouseDown(strokes, tool, color, size, clientX, clientY, Types.Some(r))) == strokes
  {
    var s2 := MouseDown(strokes, tool, color, size, clientX, clientY, Types.Some(r));
    assert s2[..|s2| - 1] == strokes;
  }

  /** Moves applied in order to a non-empty list. */
  function AppendAll(strokes: seq<CleanStroke>, ps: seq<Pos>): (r: seq<CleanStroke>)
    requires |strokes| > 0
    ensures |r| == |strokes|
    decreases |ps|
  {
    if ps == [] then strokes else AppendToLast(AppendAll(strokes, ps[..|ps| - 1]), ps[|ps| - 1])
  }

  /** Any number of moves extend the newest stroke by their positions, in
      order, and leave every earlier stroke alone. */
  lemma {:induction false} MovesExtendNewest(strokes: seq<CleanStroke>, ps: seq<Pos>)
    requires |strokes| > 0
    ensures var r := AppendAll(strokes, ps);
      var n := |strokes|;
      r[..n - 1] == strokes[..n - 1] && r[n - 1] == strokes[n - 1].(points := strokes[n - 1].points + ps)
    decreases |ps|
  {
    if ps != [] {
      var init := ps[..|ps| - 1];
      MovesExtendNewest(strokes, init);
      var n := |strokes|;
      var prev := AppendAll(strokes, init);
      var r := AppendAll(strokes, ps);
      assert r[..n - 1] == prev[..n - 1];
      assert strokes[n - 1].points + init + [ps[|ps| - 1]] == strokes[n - 1].points + ps;
    }
  }

  lemma {:induction false} CleanTraceAt(strokes: seq<CleanStroke>, alpha: real, op: CompositeOp)
    ensures |CleanTrace(strokes, alpha, op)| == |strokes|
    ensures forall i :: 0 <= i < |strokes| ==>
      CleanTrace(strokes, alpha, op)[i] == StrokePath(strokes[i].size, alpha, op, Segments(strokes[i].points))
    decreases |strokes|
  {
    if strokes != [] {
      CleanTraceAt(strokes[..|strokes| - 1], alpha, op);
    }
  }

  /** Strokes that differ only in their tool are drawn identically: the
      eraser and pan tools draw ink like the pen. */
  lemma RenderIgnoresTool(a: seq<CleanStroke>, b: seq<CleanStroke>, alpha: real, op: CompositeOp)
    requires |a| == |b|
    requires forall i :: 0 <= i < |a| ==> a[i].(tool := Pen) == b[i].(tool := Pen)
    ensures CleanTrace(a, alpha, op) == CleanTrace(b, alpha, op)
  {
    CleanTraceAt(a, alpha, op);
    CleanTraceAt(b, alpha, op);
    forall i | 0 <= i < |a|
      ensures a[i].size == b[i].size && a[i].points == b[i].points
    {
      assert a[i].(tool := Pen).size == b[i].(tool := Pen).size;
      assert a[i].(tool := Pen).points == b[i].(tool := Pen).points;
    }
  }
}
