/** The drawing screen: pointer capture for drawing and panning, palm
    rejection on pointer-down, the stroke history, the live preview, the
    redraw of committed strokes and the export settings.

    The pure functions below state each transition; the class `AppState`
    holds the screen's state and refs as fields, and each handler is proved
    to perform exactly the transition its function states. */
module App {
  import opened Types
  import opened Canvas
  import opened PalmRejection
  import BrushEngine
  import H = DocumentHistory

  datatype Vec = Vec(x: real, y: real)

  /** A refused pointer-down, as listed in the debug overlay. */
  datatype RejectedEvent = RejectedEvent(x: real, y: real, reason: string)

  /** What a gesture updates: the owning pointer, the point buffer, the pan
      flag and anchor, and the view offset. */
  datatype Gesture = Gesture(owner: Option<int>, points: seq<Point>, isPanning: bool, lastPanPoint: Vec, panOffset: Vec)

  /** The tool and brush settings and the palm-rejection configuration. */
  datatype Settings = Settings(
    tool: ToolType,
    brushType: BrushType,
    color: string,
    size: real,
    opacity: real,
    palmRejection: PalmRejectionConfig,
    hasImportedImage: bool)

  const DefaultPalmConfig := PalmRejectionConfig(Medium, 20.0, 20.0, false, false)
  const Origin := Vec(0.0, 0.0)

  /** How many earlier rejections are kept when a new one is listed. */
  const KeptRejections: nat := 5
  const MaxRejectedEvents: nat := KeptRejections + 1

  /** An idle gesture owns no pointer, buffers no point and does not pan. */
  predicate GestureValid(g: Gesture) {
    g.owner.None? ==> g.points == [] && !g.isPanning
  }

  // ---------------------------------------------------------------------
  // Pointer-down.

  /** The last k entries, or all of them when there are fewer (a negative slice). */
  function LastEntries<T>(s: seq<T>, k: nat): (r: seq<T>)
    ensures |r| == if |s| <= k then |s| else k
    ensures r == s[|s| - |r|..]
  {
    if |s| <= k then s else s[|s| - k..]
  }

  /** A new rejection is listed after the newest five earlier ones. */
  function LogRejection(log: seq<RejectedEvent>, ev: RejectedEvent): seq<RejectedEvent> {
    LastEntries(log, KeptRejections) + [ev]
  }

  /** The rejection log after a pointer-down. */
  function LogAfterDown(log: seq<RejectedEvent>, cfg: PalmRejectionConfig, e: PointerSample): seq<RejectedEvent> {
    var d := Classify(cfg, e);
    if !d.accept && cfg.debugMode then LogRejection(log, RejectedEvent(e.clientX, e.clientY, d.reason)) else log
  }

  /** A reported pressure of zero stands for an unknown one and becomes 0.5. */
  function SamplePressure(p: real): real {
    if p == 0.0 then 0.5 else p
  }

  /** The document point of a sample: canvas position minus the pan offset. */
  function DocumentPoint(e: PointerSample, rect: Rect, pan: Vec, now: int): Point {
    Point((e.clientX - rect.left) - pan.x, (e.clientY - rect.top) - pan.y, SamplePressure(e.pressure), now)
  }

  /** Pointer-down: a refused sample and a second pointer change nothing;
      otherwise the pointer takes ownership, and (given a canvas rectangle)
      starts a pan or seeds the buffer with its point. */
  function PointerDown(g: Gesture, cfg: PalmRejectionConfig, tool: ToolType, e: PointerSample, rect: Option<Rect>, now: int): Gesture {
    if !Classify(cfg, e).accept || g.owner.Some? then g
    else
      var owned := g.(owner := Some(e.pointerId));
      match rect
      case None => owned
      case Some(r) =>
        if tool == Pan then owned.(isPanning := true, lastPanPoint := Vec(e.clientX, e.clientY))
        else owned.(points := [DocumentPoint(e, r, g.panOffset, now)])
  }

  // ---------------------------------------------------------------------
  // Pointer-move.

  /** Whether a move from the owner adds a point (rather than panning). */
  predicate AppendsPoint(g: Gesture, tool: ToolType, e: PointerSample, rect: Option<Rect>) {
    g.owner == Some(e.pointerId) && !(tool == Pan && g.isPanning) && rect.Some?
  }

  function PointerMove(g: Gesture, tool: ToolType, e: PointerSample, rect: Option<Rect>, now: int): Gesture {
    if g.owner != Some(e.pointerId) then g
    else if tool == Pan && g.isPanning then
      g.(panOffset := Vec(g.panOffset.x + (e.clientX - g.lastPanPoint.x), g.panOffset.y + (e.clientY - g.lastPanPoint.y)),
         lastPanPoint := Vec(e.clientX, e.clientY))
    else match rect
      case None => g
      case Some(r) => g.(points := g.points + [DocumentPoint(e, r, g.panOffset, now)])
  }

  /** The preview frame drawn after a point is added: a clear, then the
      eraser's cursor ring, nothing for the pan tool, or the brush preview
      of the whole buffer. */
  function PreviewFrame(points: seq<Point>, st: Settings, ds: DrawState,
                        cosAt: (real, real) -> real, rnd: (nat, nat) -> real): seq<Command> {
    [Clear] +
    if st.tool == Eraser then [StrokePath(ds.lineWidth, ds.globalAlpha, ds.composite, 1)]
    else if st.tool == Pan then []
    else BrushEngine.PreviewTrace(points, st.size, st.opacity, Some(st.brushType), ds.composite, ds.lineWidth, cosAt, rnd)
  }

  // ---------------------------------------------------------------------
  // Pointer-up and pointer-cancel.

  function PointerUp(g: Gesture, e: PointerSample): Gesture {
    if g.owner != Some(e.pointerId) then g else g.(owner := None, isPanning := false, points := [])
  }

  /** Whether releasing the pointer commits the buffer as a stroke. */
  predicate Commits(g: Gesture, tool: ToolType, e: PointerSample) {
    g.owner == Some(e.pointerId) && CommitsStrokes(tool) && |g.points| > 1
  }

  function BufferedStroke(g: Gesture, st: Settings, id: string): Stroke {
    Stroke(id, st.tool, Some(st.brushType), st.color, st.size, st.opacity, g.points, "base")
  }

  function HistoryAfterUp(doc: H.History<Stroke>, g: Gesture, st: Settings, e: PointerSample, id: string): H.History<Stroke> {
    if Commits(g, st.tool, e) then H.Commit(doc, BufferedStroke(g, st, id)) else doc
  }

  // ---------------------------------------------------------------------
  // Rendering and export.

  /** Eraser strokes remove ink; everything else paints over it. */
  function CompositeFor(tool: ToolType): CompositeOp {
    if tool == Eraser then DestinationOut else SourceOver
  }

  /** The commands of the committed strokes, in order, each in its tool's mode. */
  function StrokesTrace(strokes: seq<Stroke>, cosAt: (real, real) -> real, rnd: (nat, nat) -> real): seq<Command> {
    if strokes == [] then []
    else
      var last := strokes[|strokes| - 1];
      StrokesTrace(strokes[..|strokes| - 1], cosAt, rnd) + BrushEngine.StrokeTrace(last, CompositeFor(last.tool), cosAt, rnd)
  }

  function DrawingTrace(strokes: seq<Stroke>, cosAt: (real, real) -> real, rnd: (nat, nat) -> real): seq<Command> {
    [Clear] + StrokesTrace(strokes, cosAt, rnd)
  }

  datatype ExportSettings = ExportSettings(mimeType: string, ext: string, warned: bool)

  function FormatName(f: ExportFormat): string {
    match f
    case Png => "png"
    case Jpg => "jpg"
    case Svg => "svg"
    case Pdf => "pdf"
  }

  /** The raster type and file extension an export request produces; vector
      requests fall back to PNG with a warning. */
  function ExportSettingsFor(format: ExportFormat): ExportSettings {
    if format == Jpg then ExportSettings("image/jpeg", FormatName(format), false)
    else if format == Svg || format == Pdf then ExportSettings("image/png", "png", true)
    else ExportSettings("image/png", FormatName(format), false)
  }

  function ExportFileName(stamp: nat, format: ExportFormat): string {
    "CYBER_DRIVE_BUFFER_" + NatToString(stamp) + "." + ExportSettingsFor(format).ext
  }

  /** Draws one preview frame for the buffered points. */
  method DrawPreviewFrame(preview: Context2D, points: seq<Point>, st: Settings,
                          cosAt: (real, real) -> real, rnd: (nat, nat) -> real)
    requires st.size > 0.0
    modifies preview
    ensures preview.state == old(preview.state) && preview.stateStack == old(preview.stateStack)
    ensures preview.trace == old(preview.trace) + PreviewFrame(points, st, old(preview.state), cosAt, rnd)
  {
    preview.ClearRect();
    preview.Save();
    if st.tool == Eraser {
      preview.BeginPath();
      preview.Arc();
      preview.Stroke();
    } else if st.tool != Pan {
      BrushEngine.DrawPreview(preview, points, st.color, st.size, st.opacity, Some(st.brushType), cosAt, rnd);
    }
    preview.Restore();
  }

  lemma StrokesTraceStep(strokes: seq<Stroke>, i: nat, cosAt: (real, real) -> real, rnd: (nat, nat) -> real)
    requires i < |strokes|
    ensures StrokesTrace(strokes[..i + 1], cosAt, rnd) ==
      StrokesTrace(strokes[..i], cosAt, rnd) + BrushEngine.StrokeTrace(strokes[i], CompositeFor(strokes[i].tool), cosAt, rnd)
  {
    assert strokes[..i + 1][..i] == strokes[..i];
  }

  /** Draws the committed strokes in order, each in its tool's mode. */
  method DrawStrokes(ctx: Context2D, strokes: seq<Stroke>, cosAt: (real, real) -> real, rnd: (nat, nat) -> real)
    requires PositiveSizes(strokes)
    modifies ctx
    ensures ctx.stateStack == old(ctx.stateStack)
    ensures ctx.trace == old(ctx.trace) + StrokesTrace(strokes, cosAt, rnd)
  {
    for i := 0 to |strokes|
      invariant ctx.stateStack == old(ctx.stateStack)
      invariant ctx.trace == old(ctx.trace) + StrokesTrace(strokes[..i], cosAt, rnd)
    {
      var stroke := strokes[i];
      ctx.SetCompositeOperation(CompositeFor(stroke.tool));
      assert stroke in strokes;
      BrushEngine.DrawStroke(ctx, stroke, cosAt, rnd);
      StrokesTraceStep(strokes, i, cosAt, rnd);
    }
    assert strokes[..|strokes|] == strokes;
  }

  /** Every stroke has a positive size (the size slider starts at 1). */
  predicate PositiveSizes(strokes: seq<Stroke>) {
    forall s :: s in strokes ==> s.size > 0.0
  }

  // ---------------------------------------------------------------------
  // The screen.

  class AppState {
    var activeTool: ToolType
    var activeBrushType: BrushType
    var color: string
    var size: real
    var opacity: real
    var strokes: seq<Stroke>
    var redoStack: seq<Stroke>
    var hasImportedImage: bool
    var panOffset: Vec
    var isPanning: bool
    var lastPanPoint: Vec
    var palmRejection: PalmRejectionConfig
    var rejectedEvents: seq<RejectedEvent>
    var currentPoints: seq<Point>
    var activePointerId: Option<int>
    const palmEngine: PalmRejectionEngine

    function Document(): H.History<Stroke>
      reads this
    {
      H.History(strokes, redoStack)
    }

    function CurrentGesture(): Gesture
      reads this
    {
      Gesture(activePointerId, currentPoints, isPanning, lastPanPoint, panOffset)
    }

    function CurrentSettings(): Settings
      reads this
    {
      Settings(activeTool, activeBrushType, color, size, opacity, palmRejection, hasImportedImage)
    }

    /** The engine sees the configuration the screen holds, the log is
        bounded, an idle gesture is empty, and sizes are positive. */
    predicate Valid()
      reads this, palmEngine
    {
      palmEngine.config == palmRejection &&
      |rejectedEvents| <= MaxRejectedEvents &&
      GestureValid(CurrentGesture()) &&
      size > 0.0 &&
      PositiveSizes(strokes) && PositiveSizes(redoStack)
    }

    constructor ()
      ensures Valid() && fresh(palmEngine)
      ensures CurrentSettings() == Settings(Pen, Smooth, "#A5D8FF", 4.0, 1.0, DefaultPalmConfig, false)
      ensures CurrentGesture() == Gesture(None, [], false, Origin, Origin)
      ensures Document() == H.Empty() && rejectedEvents == []
    {
      activeTool := Pen;
      activeBrushType := Smooth;
      color := "#A5D8FF";
      size := 4.0;
      opacity := 1.0;
      strokes := [];
      redoStack := [];
      hasImportedImage := false;
      panOffset := Origin;
      isPanning := false;
      lastPanPoint := Origin;
      palmRejection := DefaultPalmConfig;
      rejectedEvents := [];
      currentPoints := [];
      activePointerId := None;
      palmEngine := new PalmRejectionEngine(DefaultPalmConfig);
    }

    method SelectTool(t: ToolType)
      requires Valid()
      modifies this
      ensures Valid()
      ensures CurrentSettings() == old(CurrentSettings()).(tool := t)
      ensures CurrentGesture() == old(CurrentGesture()) && Document() == old(Document()) && rejectedEvents == old(rejectedEvents)
    {
      activeTool := t;
    }

    method SelectBrushType(b: BrushType)
      requires Valid()
      modifies this
      ensures Valid()
      ensures CurrentSettings() == old(CurrentSettings()).(brushType := b)
      ensures CurrentGesture() == old(CurrentGesture()) && Document() == old(Document()) && rejectedEvents == old(rejectedEvents)
    {
      activeBrushType := b;
    }

    method SetColor(c: string)
      requires Valid()
      modifies this
      ensures Valid()
      ensures CurrentSettings() == old(CurrentSettings()).(color := c)
      ensures CurrentGesture() == old(CurrentGesture()) && Document() == old(Document()) && rejectedEvents == old(rejectedEvents)
    {
      color := c;
    }

    /** The width slider offers 1 to 100. */
    method SetSize(v: real)
      requires Valid() && 1.0 <= v <= 100.0
      modifies this
      ensures Valid()
      ensures CurrentSettings() == old(CurrentSettings()).(size := v)
      ensures CurrentGesture() == old(CurrentGesture()) && Document() == old(Document()) && rejectedEvents == old(rejectedEvents)
    {
      size := v;
    }

    /** Flips the debug overlay and hands the new configuration to the engine. */
    method ToggleDebugMode()
      requires Valid()
      modifies this, palmEngine
      ensures Valid()
      ensures CurrentSettings() == old(CurrentSettings()).(palmRejection := old(palmRejection).(debugMode := !old(palmRejection.debugMode)))
      ensures CurrentGesture() == old(CurrentGesture()) && Document() == old(Document()) && rejectedEvents == old(rejectedEvents)
    {
      palmRejection := palmRejection.(debugMode := !palmRejection.debugMode);
      palmEngine.UpdateConfig(FullPatch(palmRejection));
    }

    /** The quick-control button that recentres the view. */
    method ResetView()
      requires Valid()
      modifies this
      ensures Valid()
      ensures CurrentGesture() == old(CurrentGesture()).(panOffset := Origin)
      ensures CurrentSettings() == old(CurrentSettings()) && Document() == old(Document()) && rejectedEvents == old(rejectedEvents)
    {
      panOffset := Origin;
    }

    method HandlePointerDown(e: PointerSample, rect: Option<Rect>, now: int)
      requires Valid()
      modifies this
      ensures Valid()
      ensures CurrentGesture() == PointerDown(old(CurrentGesture()), old(palmRejection), old(activeTool), e, rect, now)
      ensures rejectedEvents == LogAfterDown(old(rejectedEvents), old(palmRejection), e)
      ensures CurrentSettings() == old(CurrentSettings()) && Document() == old(Document())
    {
      var d := palmEngine.ShouldAcceptEvent(e);
      if !d.accept {
        if palmRejection.debugMode {
          rejectedEvents := LastEntries(rejectedEvents, KeptRejections) + [RejectedEvent(e.clientX, e.clientY, d.reason)];
          assert |rejectedEvents| <= MaxRejectedEvents;
        }
        return;
      }
      if activePointerId.Some? {
        return;
      }
      activePointerId := Some(e.pointerId);
      if rect.None? {
        return;
      }
      var x := e.clientX - rect.value.left;
      var y := e.clientY - rect.value.top;
      if activeTool == Pan {
        isPanning := true;
        lastPanPoint := Vec(e.clientX, e.clientY);
      } else {
        currentPoints := [Point(x - panOffset.x, y - panOffset.y, SamplePressure(e.pressure), now)];
      }
    }

    method HandlePointerMove(e: PointerSample, rect: Option<Rect>, now: int, preview: Context2D?,
                             cosAt: (real, real) -> real, rnd: (nat, nat) -> real)
      requires Valid()
      modifies this, preview
      ensures Valid()
      ensures CurrentGesture() == PointerMove(old(CurrentGesture()), old(activeTool), e, rect, now)
      ensures CurrentSettings() == old(CurrentSettings()) && Document() == old(Document()) && rejectedEvents == old(rejectedEvents)
      ensures preview != null ==> preview.state == old(preview.state) && preview.stateStack == old(preview.stateStack)
      ensures preview != null && AppendsPoint(old(CurrentGesture()), old(activeTool), e, rect) ==>
        preview.trace == old(preview.trace) + PreviewFrame(currentPoints, old(CurrentSettings()), old(preview.state), cosAt, rnd)
      ensures preview != null && !AppendsPoint(old(CurrentGesture()), old(activeTool), e, rect) ==>
        preview.trace == old(preview.trace)
    {
      if activePointerId != Some(e.pointerId) {
        return;
      }
      if activeTool == Pan && isPanning {
        var dx := e.clientX - lastPanPoint.x;
        var dy := e.clientY - lastPanPoint.y;
        panOffset := Vec(panOffset.x + dx, panOffset.y + dy);
        lastPanPoint := Vec(e.clientX, e.clientY);
        return;
      }
      if rect.None? {
        return;
      }
      var point := Point((e.clientX - rect.value.left) - panOffset.x, (e.clientY - rect.value.top) - panOffset.y,
                         SamplePressure(e.pressure), now);
      currentPoints := currentPoints + [point];
      if preview != null {
        DrawPreviewFrame(preview, currentPoints, CurrentSettings(), cosAt, rnd);
      }
    }

    /** Pointer-up; pointer-cancel is handled identically. `id` is the new
        stroke's identifier (the clock reading as text). */
    method HandlePointerUp(e: PointerSample, id: string, preview: Context2D?)
      requires Valid()
      modifies this, preview
      ensures Valid()
      ensures Document() == HistoryAfterUp(old(Document()), old(CurrentGesture()), old(CurrentSettings()), e, id)
      ensures CurrentGesture() == PointerUp(old(CurrentGesture()), e)
      ensures CurrentSettings() == old(CurrentSettings()) && rejectedEvents == old(rejectedEvents)
      ensures preview != null ==> preview.state == old(preview.state) && preview.stateStack == old(preview.stateStack)
      ensures preview != null && old(activePointerId) == Some(e.pointerId) ==> preview.trace == old(preview.trace) + [Clear]
      ensures preview != null && old(activePointerId) != Some(e.pointerId) ==> preview.trace == old(preview.trace)
    {
      if activePointerId != Some(e.pointerId) {
        return;
      }
      EndGesture(e, id);
      if preview != null {
        preview.ClearRect();
      }
    }

    /** The state half of a pointer release by the active pointer. */
    method EndGesture(e: PointerSample, id: string)
      requires Valid() && activePointerId == Some(e.pointerId)
      modifies this
      ensures Valid()
      ensures Document() == HistoryAfterUp(old(Document()), old(CurrentGesture()), old(CurrentSettings()), e, id)
      ensures CurrentGesture() == PointerUp(old(CurrentGesture()), e)
      ensures CurrentSettings() == old(CurrentSettings()) && rejectedEvents == old(rejectedEvents)
    {
      ghost var g, st := CurrentGesture(), CurrentSettings();
      if activeTool != Pan && |currentPoints| > 1 {
        var stroke := Stroke(id, activeTool, Some(activeBrushType), color, size, opacity, currentPoints, "base");
        assert stroke == BufferedStroke(g, st, id);
        strokes := strokes + [stroke];
        redoStack := [];
        assert PositiveSizes(strokes);
      }
      activePointerId := None;
      isPanning := false;
      currentPoints := [];
      assert CurrentGesture() == PointerUp(g, e);
    }

    method Undo()
      requires Valid()
      modifies this
      ensures Valid()
      ensures Document() == H.Undo(old(Document()))
      ensures CurrentGesture() == old(CurrentGesture()) && CurrentSettings() == old(CurrentSettings()) && rejectedEvents == old(rejectedEvents)
    {
      if |strokes| == 0 {
        return;
      }
      var last := strokes[|strokes| - 1];
      redoStack := redoStack + [last];
      strokes := strokes[..|strokes| - 1];
    }

    method Redo()
      requires Valid()
      modifies this
      ensures Valid()
      ensures Document() == H.Redo(old(Document()))
      ensures CurrentGesture() == old(CurrentGesture()) && CurrentSettings() == old(CurrentSettings()) && rejectedEvents == old(rejectedEvents)
    {
      if |redoStack| == 0 {
        return;
      }
      var last := redoStack[|redoStack| - 1];
      strokes := strokes + [last];
      redoStack := redoStack[..|redoStack| - 1];
    }

    /** `confirmed` is the user's answer to the confirmation dialog. */
    method ClearSketches(confirmed: bool)
      requires Valid()
      modifies this
      ensures Valid()
      ensures Document() == if confirmed then H.Empty() else old(Document())
      ensures CurrentGesture() == old(CurrentGesture()) && CurrentSettings() == old(CurrentSettings()) && rejectedEvents == old(rejectedEvents)
    {
      if confirmed {
        strokes := [];
        redoStack := [];
      }
    }

    /** Like `ClearSketches`, and also drops the imported image and recentres the view. */
    method CleanWorkspace(confirmed: bool)
      requires Valid()
      modifies this
      ensures Valid()
      ensures Document() == if confirmed then H.Empty() else old(Document())
      ensures CurrentGesture() == if confirmed then old(CurrentGesture()).(panOffset := Origin) else old(CurrentGesture())
      ensures CurrentSettings() == if confirmed then old(CurrentSettings()).(hasImportedImage := false) else old(CurrentSettings())
      ensures rejectedEvents == old(rejectedEvents)
    {
      if confirmed {
        strokes := [];
        redoStack := [];
        hasImportedImage := false;
        panOffset := Origin;
      }
    }

    /** Redraws the committed strokes on the drawing layer (if it exists). */
    method RenderDrawing(ctx: Context2D?, cosAt: (real, real) -> real, rnd: (nat, nat) -> real)
      requires Valid()
      modifies ctx
      ensures ctx != null ==> ctx.trace == old(ctx.trace) + DrawingTrace(strokes, cosAt, rnd)
      ensures ctx != null ==> ctx.state == old(ctx.state).(composite := SourceOver) && ctx.stateStack == old(ctx.stateStack)
    {
      if ctx == null {
        return;
      }
      ctx.ClearRect();
      ctx.Save();
      DrawStrokes(ctx, strokes, cosAt, rnd);
      ctx.Restore();
      ctx.SetCompositeOperation(SourceOver);
    }
  }

  // ---------------------------------------------------------------------
  // Properties of pointer-down.

  /** A refused sample never changes the owner, the buffer or the view. */
  lemma RefusedDownChangesNothing(g: Gesture, cfg: PalmRejectionConfig, tool: ToolType, e: PointerSample, rect: Option<Rect>, now: int)
    requires !Classify(cfg, e).accept
    ensures PointerDown(g, cfg, tool, e, rect, now) == g
  {
  }

  /** With the debug overlay on, a refusal is listed after at most five
      earlier ones; otherwise the list is untouched. It never exceeds six. */
  lemma RejectionLog(log: seq<RejectedEvent>, cfg: PalmRejectionConfig, e: PointerSample)
    ensures |log| <= MaxRejectedEvents ==> |LogAfterDown(log, cfg, e)| <= MaxRejectedEvents
    ensures Classify(cfg, e).accept || !cfg.debugMode ==> LogAfterDown(log, cfg, e) == log
    ensures !Classify(cfg, e).accept && cfg.debugMode ==>
      var r := LogAfterDown(log, cfg, e);
      |r| == (if |log| < KeptRejections then |log| else KeptRejections) + 1 &&
      r[|r| - 1] == RejectedEvent(e.clientX, e.clientY, Classify(cfg, e).reason) &&
      r[..|r| - 1] == log[|log| - (|r| - 1)..]
  {
    if !Classify(cfg, e).accept && cfg.debugMode {
      var kept := LastEntries(log, KeptRejections);
      assert LogAfterDown(log, cfg, e)[..|kept|] == kept;
    }
  }

  /** While one pointer owns input, any other accepted down is ignored. */
  lemma BusyDownIsIgnored(g: Gesture, cfg: PalmRejectionConfig, tool: ToolType, e: PointerSample, rect: Option<Rect>, now: int)
    requires g.owner.Some?
    ensures PointerDown(g, cfg, tool, e, rect, now) == g
  {
  }

  /** An accepted down on an idle screen with a drawing tool takes
      ownership and seeds the buffer with exactly one point, at the canvas
      position minus the pan offset; a zero pressure is recorded as 0.5. */
  lemma DownSeedsOnePoint(g: Gesture, cfg: PalmRejectionConfig, tool: ToolType, e: PointerSample, r: Rect, now: int)
    requires Classify(cfg, e).accept && g.owner.None? && tool != Pan
    ensures var g2 := PointerDown(g, cfg, tool, e, Some(r), now);
      g2.owner == Some(e.pointerId) && |g2.points| == 1 &&
      g2.points[0].x == e.clientX - r.left - g.panOffset.x &&
      g2.points[0].y == e.clientY - r.top - g.panOffset.y &&
      (e.pressure == 0.0 ==> g2.points[0].pressure == 0.5) &&
      (e.pressure != 0.0 ==> g2.points[0].pressure == e.pressure) &&
      g2.points[0].timestamp == now &&
      g2.isPanning == g.isPanning && g2.lastPanPoint == g.lastPanPoint && g2.panOffset == g.panOffset
  {
  }

  /** With the pan tool, an accepted idle down starts a pan anchored at the
      sample's screen position and leaves the buffer alone. */
  lemma DownStartsPan(g: Gesture, cfg: PalmRejectionConfig, e: PointerSample, r: Rect, now: int)
    requires Classify(cfg, e).accept && g.owner.None?
    ensures PointerDown(g, cfg, Pan, e, Some(r), now) ==
      g.(owner := Some(e.pointerId), isPanning := true, lastPanPoint := Vec(e.clientX, e.clientY))
  {
  }

  /** Without a canvas rectangle the pointer still becomes the owner, and nothing else happens. */
  lemma DownWithoutCanvasOnlyClaims(g: Gesture, cfg: PalmRejectionConfig, tool: ToolType, e: PointerSample, now: int)
    requires Classify(cfg, e).accept && g.owner.None?
    ensures PointerDown(g, cfg, tool, e, None, now) == g.(owner := Some(e.pointerId))
  {
  }

  // ---------------------------------------------------------------------
  // Properties of pointer-move and pointer-up.

  lemma OtherPointerMoveIsInert(g: Gesture, tool: ToolType, e: PointerSample, rect: Option<Rect>, now: int)
    requires g.owner != Some(e.pointerId)
    ensures PointerMove(g, tool, e, rect, now) == g
  {
  }

  /** A panning move shifts the view by the pointer's displacement since the
      last move and adds no point. */
  lemma PanMoveShiftsView(g: Gesture, e: PointerSample, rect: Option<Rect>, now: int)
    requires g.owner == Some(e.pointerId) && g.isPanning
    ensures var g2 := PointerMove(g, Pan, e, rect, now);
      g2.panOffset.x - g.panOffset.x == e.clientX - g.lastPanPoint.x &&
      g2.panOffset.y - g.panOffset.y == e.clientY - g.lastPanPoint.y &&
      g2.lastPanPoint == Vec(e.clientX, e.clientY) &&
      g2.points == g.points && g2.owner == g.owner && g2.isPanning
  {
  }

  /** Any other move from the owner appends exactly one point at the end of the buffer. */
  lemma DrawMoveAppendsOnePoint(g: Gesture, tool: ToolType, e: PointerSample, r: Rect, now: int)
    requires AppendsPoint(g, tool, e, Some(r))
    ensures var g2 := PointerMove(g, tool, e, Some(r), now);
      g2.points == g.points + [DocumentPoint(e, r, g.panOffset, now)] &&
      g2.owner == g.owner && g2.isPanning == g.isPanning && g2.panOffset == g.panOffset && g2.lastPanPoint == g.lastPanPoint
  {
  }

  /** Release by the owner always ends the gesture; by anyone else it does nothing. */
  lemma UpEndsGesture(g: Gesture, e: PointerSample)
    ensures g.owner == Some(e.pointerId) ==>
      PointerUp(g, e) == Gesture(None, [], false, g.lastPanPoint, g.panOffset)
    ensures g.owner != Some(e.pointerId) ==> PointerUp(g, e) == g
  {
  }

  /** Release commits exactly one stroke iff the owner releases, the tool is
      not pan, and at least two points were buffered; the stroke carries the
      buffer in order and the settings, and the redo stack is emptied. */
  lemma CommitRule(doc: H.History<Stroke>, g: Gesture, st: Settings, e: PointerSample, id: string)
    ensures var d2 := HistoryAfterUp(doc, g, st, e, id);
      |d2.strokes| == |doc.strokes| + 1 <==> (g.owner == Some(e.pointerId) && st.tool != Pan && |g.points| >= 2)
    ensures !Commits(g, st.tool, e) ==> HistoryAfterUp(doc, g, st, e, id) == doc
    ensures Commits(g, st.tool, e) ==>
      var d2 := HistoryAfterUp(doc, g, st, e, id);
      var s := d2.strokes[|doc.strokes|];
      d2.strokes[..|doc.strokes|] == doc.strokes && d2.redoStack == [] &&
      s.points == g.points && s.tool == st.tool && s.brushType == Some(st.brushType) &&
      s.color == st.color && s.size == st.size && s.opacity == st.opacity
  {
    if Commits(g, st.tool, e) {
      H.CommitSpec(doc, BufferedStroke(g, st, id));
      assert (doc.strokes + [BufferedStroke(g, st, id)])[..|doc.strokes|] == doc.strokes;
    }
  }

  /** The owner's release of a buffer of two or more points changes the
      history exactly when the tool is not pan: every other tool, the eraser
      included, commits the buffer as a stroke. */
  lemma OnlyPanDiscardsTheBuffer(doc: H.History<Stroke>, g: Gesture, st: Settings, e: PointerSample, id: string)
    requires g.owner == Some(e.pointerId) && |g.points| >= 2
    ensures HistoryAfterUp(doc, g, st, e, id) == doc <==> st.tool == Pan
    ensures st.tool != Pan ==> HistoryAfterUp(doc, g, st, e, id) == H.Commit(doc, BufferedStroke(g, st, id))
    ensures st.tool == Eraser ==>
      HistoryAfterUp(doc, g, st, e, id).strokes == doc.strokes + [BufferedStroke(g, st, id)]
  {
    if st.tool != Pan {
      assert |HistoryAfterUp(doc, g, st, e, id).strokes| == |doc.strokes| + 1;
    }
  }

  /** Every transition keeps an idle gesture empty. */
  lemma TransitionsKeepGestureValid(g: Gesture, cfg: PalmRejectionConfig, tool: ToolType, e: PointerSample,
                                    rect: Option<Rect>, now: int)
    requires GestureValid(g)
    ensures GestureValid(PointerDown(g, cfg, tool, e, rect, now))
    ensures GestureValid(PointerMove(g, tool, e, rect, now))
    ensures GestureValid(PointerUp(g, e))
  {
  }

  // ---------------------------------------------------------------------
  // A whole gesture.

  datatype MoveEvent = MoveEvent(sample: PointerSample, now: int)

  /** The moves applied in order. */
  function MoveAll(g: Gesture, tool: ToolType, ms: seq<MoveEvent>, rect: Option<Rect>): Gesture
    decreases |ms|
  {
    if ms == [] then g
    else
      var m := ms[|ms| - 1];
      PointerMove(MoveAll(g, tool, ms[..|ms| - 1], rect), tool, m.sample, rect, m.now)
  }

  /** The document points the moves contribute at a fixed pan offset. */
  function DocumentPoints(ms: seq<MoveEvent>, r: Rect, pan: Vec): (ps: seq<Point>)
    ensures |ps| == |ms|
    decreases |ms|
  {
    if ms == [] then []
    else DocumentPoints(ms[..|ms| - 1], r, pan) + [DocumentPoint(ms[|ms| - 1].sample, r, pan, ms[|ms| - 1].now)]
  }

  /** The owner's moves under a drawing tool append one point each, in
      order, and change nothing else. */
  lemma {:induction false} DrawingMovesCollectPoints(g: Gesture, tool: ToolType, ms: seq<MoveEvent>, r: Rect)
    requires g.owner.Some? && !(tool == Pan && g.isPanning)
    requires forall i :: 0 <= i < |ms| ==> Some(ms[i].sample.pointerId) == g.owner
    ensures MoveAll(g, tool, ms, Some(r)) == g.(points := g.points + DocumentPoints(ms, r, g.panOffset))
    decreases |ms|
  {
    if ms != [] {
      var init := ms[..|ms| - 1];
      DrawingMovesCollectPoints(g, tool, init, r);
      var m := ms[|ms| - 1];
      assert Some(m.sample.pointerId) == g.owner;
      assert g.points + DocumentPoints(init, r, g.panOffset) + [DocumentPoint(m.sample, r, g.panOffset, m.now)] ==
             g.points + DocumentPoints(ms, r, g.panOffset);
    }
  }

  /** Down, then moves, then up by the same pointer with a drawing tool:
      a stroke is committed iff there was at least one move, and it holds
      the down point followed by one point per move. */
  lemma StrokeGesture(doc: H.History<Stroke>, g: Gesture, st: Settings, down: PointerSample, downTime: int,
                      r: Rect, ms: seq<MoveEvent>, up: PointerSample, id: string)
    requires GestureValid(g) && g.owner.None?
    requires Classify(st.palmRejection, down).accept && st.tool != Pan
    requires forall i :: 0 <= i < |ms| ==> ms[i].sample.pointerId == down.pointerId
    requires up.pointerId == down.pointerId
    ensures var g1 := PointerDown(g, st.palmRejection, st.tool, down, Some(r), downTime);
      var g2 := MoveAll(g1, st.tool, ms, Some(r));
      var d2 := HistoryAfterUp(doc, g2, st, up, id);
      PointerUp(g2, up).owner.None? && PointerUp(g2, up).points == [] &&
      (|d2.strokes| == |doc.strokes| + 1 <==> |ms| >= 1) &&
      (|ms| >= 1 ==>
         d2.strokes[|doc.strokes|].points == [DocumentPoint(down, r, g.panOffset, downTime)] + DocumentPoints(ms, r, g.panOffset))
  {
    var g1 := PointerDown(g, st.palmRejection, st.tool, down, Some(r), downTime);
    DrawingMovesCollectPoints(g1, st.tool, ms, r);
    var g2 := MoveAll(g1, st.tool, ms, Some(r));
    CommitRule(doc, g2, st, up, id);
  }

  // ---------------------------------------------------------------------
  // Rendering and export.

  lemma CompositeChoice(t: ToolType)
    ensures CompositeFor(t) == DestinationOut <==> t == Eraser
    ensures CompositeFor(t) == SourceOver <==> t != Eraser
  {
  }

  /** The redraw clears once and then only paints; a drawing holding no
      eraser stroke paints only over, one holding only eraser strokes only erases. */
  lemma {:induction false} StrokesTraceModes(strokes: seq<Stroke>, op: CompositeOp, cosAt: (real, real) -> real, rnd: (nat, nat) -> real)
    requires forall i :: 0 <= i < |strokes| ==> CompositeFor(strokes[i].tool) == op
    ensures BrushEngine.PaintsIn(StrokesTrace(strokes, cosAt, rnd), op)
    decreases |strokes|
  {
    if strokes != [] {
      var init := strokes[..|strokes| - 1];
      var last := strokes[|strokes| - 1];
      StrokesTraceModes(init, op, cosAt, rnd);
      BrushEngine.StrokeTracePaintsInMode(last, op, cosAt, rnd);
      var a := StrokesTrace(init, cosAt, rnd);
      var b := BrushEngine.StrokeTrace(last, op, cosAt, rnd);
      assert forall k :: 0 <= k < |a + b| ==> (a + b)[k] == if k < |a| then a[k] else b[k - |a|];
    }
  }

  lemma {:induction false} StrokesTraceNeverClears(strokes: seq<Stroke>, cosAt: (real, real) -> real, rnd: (nat, nat) -> real)
    ensures forall k :: 0 <= k < |StrokesTrace(strokes, cosAt, rnd)| ==> !StrokesTrace(strokes, cosAt, rnd)[k].Clear?
    decreases |strokes|
  {
    if strokes != [] {
      var init := strokes[..|strokes| - 1];
      var last := strokes[|strokes| - 1];
      StrokesTraceNeverClears(init, cosAt, rnd);
      BrushEngine.StrokeTracePaintsInMode(last, CompositeFor(last.tool), cosAt, rnd);
      var a := StrokesTrace(init, cosAt, rnd);
      var b := BrushEngine.StrokeTrace(last, CompositeFor(last.tool), cosAt, rnd);
      assert forall k :: 0 <= k < |a + b| ==> (a + b)[k] == if k < |a| then a[k] else b[k - |a|];
    }
  }

  lemma DrawingTraceShape(strokes: seq<Stroke>, cosAt: (real, real) -> real, rnd: (nat, nat) -> real)
    ensures DrawingTrace(strokes, cosAt, rnd)[0] == Clear
    ensures forall k :: 1 <= k < |DrawingTrace(strokes, cosAt, rnd)| ==> !DrawingTrace(strokes, cosAt, rnd)[k].Clear?
    ensures (forall i :: 0 <= i < |strokes| ==> strokes[i].tool != Eraser) ==>
      BrushEngine.PaintsIn(StrokesTrace(strokes, cosAt, rnd), SourceOver)
    ensures (forall i :: 0 <= i < |strokes| ==> strokes[i].tool == Eraser) ==>
      BrushEngine.PaintsIn(StrokesTrace(strokes, cosAt, rnd), DestinationOut)
  {
    StrokesTraceNeverClears(strokes, cosAt, rnd);
    if forall i :: 0 <= i < |strokes| ==> strokes[i].tool != Eraser {
      StrokesTraceModes(strokes, SourceOver, cosAt, rnd);
    }
    if forall i :: 0 <= i < |strokes| ==> strokes[i].tool == Eraser {
      StrokesTraceModes(strokes, DestinationOut, cosAt, rnd);
    }
  }

  /** Redrawing the strokes with other draws changes at most airbrush dot
      alphas, and nothing at all when no stroke uses the airbrush. */
  lemma {:induction false} StrokesRedraw(strokes: seq<Stroke>, cosAt: (real, real) -> real,
                                         rnd1: (nat, nat) -> real, rnd2: (nat, nat) -> real)
    ensures BrushEngine.SameUpToDotAlphas(StrokesTrace(strokes, cosAt, rnd1), StrokesTrace(strokes, cosAt, rnd2))
    ensures (forall i :: 0 <= i < |strokes| ==> EffectiveBrush(strokes[i]) != Airbrush) ==>
      StrokesTrace(strokes, cosAt, rnd1) == StrokesTrace(strokes, cosAt, rnd2)
    decreases |strokes|
  {
    if strokes != [] {
      var init := strokes[..|strokes| - 1];
      var last := strokes[|strokes| - 1];
      StrokesRedraw(init, cosAt, rnd1, rnd2);
      BrushEngine.StrokeRedraw(last, CompositeFor(last.tool), cosAt, rnd1, rnd2);
      BrushEngine.SameUpToDotAlphasConcat(
        StrokesTrace(init, cosAt, rnd1), BrushEngine.StrokeTrace(last, CompositeFor(last.tool), cosAt, rnd1),
        StrokesTrace(init, cosAt, rnd2), BrushEngine.StrokeTrace(last, CompositeFor(last.tool), cosAt, rnd2));
    }
  }

  /** Undoing a commit restores the picture drawn before it, and redoing it
      restores the picture drawn right after it. Each redraw makes its own
      random draws (`rnd1` before, `rnd2` after), so airbrush dot alphas may
      differ; without airbrush strokes the pictures are identical. */
  lemma UndoRestoresPicture(doc: H.History<Stroke>, s: Stroke, cosAt: (real, real) -> real,
                            rnd1: (nat, nat) -> real, rnd2: (nat, nat) -> real)
    ensures BrushEngine.SameUpToDotAlphas(DrawingTrace(H.Undo(H.Commit(doc, s)).strokes, cosAt, rnd2),
                                          DrawingTrace(doc.strokes, cosAt, rnd1))
    ensures (forall i :: 0 <= i < |doc.strokes| ==> EffectiveBrush(doc.strokes[i]) != Airbrush) ==>
      DrawingTrace(H.Undo(H.Commit(doc, s)).strokes, cosAt, rnd2) == DrawingTrace(doc.strokes, cosAt, rnd1)
    ensures BrushEngine.SameUpToDotAlphas(DrawingTrace(H.Redo(H.Undo(H.Commit(doc, s))).strokes, cosAt, rnd2),
                                          DrawingTrace(doc.strokes + [s], cosAt, rnd1))
    ensures (forall i :: 0 <= i < |doc.strokes| ==> EffectiveBrush(doc.strokes[i]) != Airbrush) && EffectiveBrush(s) != Airbrush ==>
      DrawingTrace(H.Redo(H.Undo(H.Commit(doc, s))).strokes, cosAt, rnd2) ==
      DrawingTrace(doc.strokes, cosAt, rnd1) + BrushEngine.StrokeTrace(s, CompositeFor(s.tool), cosAt, rnd1)
  {
    H.CommitSpec(doc, s);
    H.UndoThenRedo(H.Commit(doc, s));
    var all := doc.strokes + [s];
    assert all[..|all| - 1] == doc.strokes;
    StrokesRedraw(doc.strokes, cosAt, rnd2, rnd1);
    StrokesRedraw(all, cosAt, rnd2, rnd1);
    BrushEngine.SameUpToDotAlphasConcat([Clear], StrokesTrace(doc.strokes, cosAt, rnd2), [Clear], StrokesTrace(doc.strokes, cosAt, rnd1));
    BrushEngine.SameUpToDotAlphasConcat([Clear], StrokesTrace(all, cosAt, rnd2), [Clear], StrokesTrace(all, cosAt, rnd1));
    if (forall i :: 0 <= i < |doc.strokes| ==> EffectiveBrush(doc.strokes[i]) != Airbrush) && EffectiveBrush(s) != Airbrush {
      assert forall i :: 0 <= i < |all| ==> EffectiveBrush(all[i]) != Airbrush;
    }
  }

  lemma ExportMapping(f: ExportFormat)
    ensures f == Jpg ==> ExportSettingsFor(f) == ExportSettings("image/jpeg", "jpg", false)
    ensures f == Svg || f == Pdf ==> ExportSettingsFor(f) == ExportSettings("image/png", "png", true)
    ensures f == Png ==> ExportSettingsFor(f) == ExportSettings("image/png", "png", false)
    ensures ExportSettingsFor(f).warned <==> f == Svg || f == Pdf
    ensures ExportSettingsFor(f).ext == "jpg" <==> ExportSettingsFor(f).mimeType == "image/jpeg"
    ensures ExportSettingsFor(f).ext == "png" <==> ExportSettingsFor(f).mimeType == "image/png"
  {
  }

  /** The download name ends with a dot and the extension the mapping chose. */
  lemma ExportFileNameExtension(stamp: nat, f: ExportFormat)
    ensures var name := ExportFileName(stamp, f);
      var ext := ExportSettingsFor(f).ext;
      |name| > |ext| && name[|name| - |ext| - 1..] == "." + ext
  {
  }
}
