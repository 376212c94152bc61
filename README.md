# X-Sketch in Dafny

X-Sketch is a browser and tablet sketching app. The user draws with a pen,
a brush (ten brush variants), an eraser, or pans the view. Each pointer
event first goes through a palm-rejection classifier. The classifier accepts
stylus input and rejects touch contacts that are too large.

An accepted pointer-down claims the gesture for that pointer. Moves then
collect document-space points and redraw a preview layer. Pointer-up commits
the points as a stroke if the tool is not pan and at least two points were
collected. Committed strokes live in an undo/redo history. The drawing layer
is cleared and every stroke is re-rendered by the brush engine each time the
history changes. Eraser strokes are drawn in `destination-out` mode. The
repository also has a second, minimal mouse-only app, `AppClean`.

The model has seven modules:

- `Types` (`types.dfy`): tools, brush variants, points, strokes and the
  palm-rejection configuration.
- `Canvas` (`canvas.dfy`): a 2D drawing context as a class. It holds the
  drawing state (line width, global alpha, composite operation), the
  save/restore stack, the segment count of the current path, and a trace of
  the paint commands issued so far (`Clear`, `StrokePath`, `FillPath`).
  Every rendering method is specified by the commands it appends to that
  trace.
- `PalmRejection` (`palm_rejection.dfy`): the pure decision `Classify`, the
  partial-configuration merge, and the `PalmRejectionEngine` class. Its
  methods are proved equal to those functions.
- `BrushEngine` (`brush_engine.dfy`): one specification function per brush
  giving the exact command sequence. One method per brush has the loops of
  `BrushEngine.ts` and is proved to emit exactly that sequence. Lemmas state
  the visible properties: segment counts, per-segment widths, layer
  ordering, alpha bounds, and where the preview agrees with the committed
  rendering.
- `DocumentHistory` (`history.dfy`): commit, undo and redo on a pair of
  stacks, with their round-trip laws.
- `App` (`app.dfy`): the pointer handlers as pure gesture transitions, plus
  the `AppState` class. Its handlers are proved to follow those transitions.
  It also holds rendering of the drawing layer and the export naming rules.
- `AppClean` (`app_clean.dfy`): the minimal app's mouse handlers, undo,
  clear and rendering.

Randomness and trigonometry become function parameters:

- `rnd(i, j)` is the airbrush's random distance ratio for dot `j` of point `i`.
- `cosAt(dx, dy)` is `cos(atan2(dy, dx))`.

Clock values (`now`, the stroke `id`) and the user's answer to a
confirmation dialog (`confirmed`) are inputs of the handlers.

## Model

| member | source | states |
|---|---|---|
| Types.EnumerationsAreComplete | types.ts:2-38 | there are exactly 4 tools, 10 brush types and 4 palm-rejection levels, all distinct |
| PalmRejection.JsRound | services/PalmRejectionEngine.ts:58 | `Math.round` gives the integer within half a unit of its argument, halves rounding up |
| PalmRejection.DigitChar | services/PalmRejectionEngine.ts:58 | a digit value 0..9 maps to the character whose code is that far above '0' |
| PalmRejection.NatToString | services/PalmRejectionEngine.ts:58 | the decimal rendering of a natural number is non-empty and consists of digits only |
| PalmRejection.NatToStringRoundTrip | services/PalmRejectionEngine.ts:58 | reading the decimal rendering back gives the number |
| PalmRejection.IntToString | services/PalmRejectionEngine.ts:58 | the rendering starts with '-' exactly when the integer is negative, and the digits after it read back as the integer's magnitude |
| PalmRejection.PalmReason | services/PalmRejectionEngine.ts:58 | the palm rejection reason always starts with `PALM_SIZE_DETECTED` and is longer than it |
| PalmRejection.PenAlwaysAccepted | services/PalmRejectionEngine.ts:25-27 | a pen pointer is accepted as `STYLUS_DETECTED` under every configuration |
| PalmRejection.StylusOnlyRejectsEverythingElse | services/PalmRejectionEngine.ts:30-32 | in stylus-only mode every non-pen pointer is rejected as `STYLUS_ONLY_MODE` |
| PalmRejection.NamedLevelThresholds | services/PalmRejectionEngine.ts:38-54 | HIGH uses 12x12, MEDIUM 20x20, LOW 40x40; the configured maxima are never consulted by a named level |
| PalmRejection.SizeRuleIsStrict | services/PalmRejectionEngine.ts:57-64 | a non-pen contact outside stylus-only mode is accepted iff both width and height are at most the thresholds; a rejection carries the palm-size reason and an acceptance `VALID_TOUCH` |
| PalmRejection.HighLevelBoundary | services/PalmRejectionEngine.ts:41-59 | at HIGH a 12-pixel-wide touch is accepted and a 13-pixel-wide one rejected |
| PalmRejection.RejectionReasons | services/PalmRejectionEngine.ts:21-65 | every decision carries one of the four reasons, and the reason determines whether it was accepted |
| PalmRejection.DecisionIgnoresPressure | services/PalmRejectionEngine.ts:21-65 | the decision does not depend on pressure, on `requirePressure` or on `debugMode` |
| PalmRejection.Merge | services/PalmRejectionEngine.ts:13-15 | each field present in the patch overrides the configuration; each absent field keeps its old value |
| PalmRejection.MergeLaws | services/PalmRejectionEngine.ts:13-15 | an empty patch changes nothing, a full patch replaces everything, applying a patch twice equals applying it once, and two patches in a row equal their combination |
| PalmRejection.PalmRejectionEngine.constructor | services/PalmRejectionEngine.ts:9-11 | the engine starts with the given configuration |
| PalmRejection.PalmRejectionEngine.UpdateConfig | services/PalmRejectionEngine.ts:13-15 | the new configuration is the old one merged with the patch |
| PalmRejection.PalmRejectionEngine.ShouldAcceptEvent | services/PalmRejectionEngine.ts:21-65 | the imperative threshold switch returns exactly `Classify` of the current configuration and the event |
| BrushEngine.EffectivePressure | services/BrushEngine.ts:72 | the pressure factor is always positive: the pressure itself when positive, 1 otherwise |
| BrushEngine.CalligraphyMultiplier | services/BrushEngine.ts:191 | the angle multiplier is at least 0.5, and at most 2.5 for a cosine in [-1, 1] |
| BrushEngine.EmitPath | services/BrushEngine.ts:130-137 | one polyline over n points is a single stroke of n-1 segments with the current width, alpha and mode |
| BrushEngine.EmitPencilPasses | services/BrushEngine.ts:98-114 | the pencil draws three full polylines at 0.4 times the size |
| BrushEngine.EmitMidpointSegments | services/BrushEngine.ts:61-80 | the midpoint curve issues one single-segment stroke per point after the first, with the width of that point |
| BrushEngine.EmitOilLayers | services/BrushEngine.ts:284-305 | three layers; within a layer the k-th stroke call covers the k curve segments accumulated so far |
| BrushEngine.EmitOilLayer | services/BrushEngine.ts:285-303 | one layer: a single path that is never restarted, stroked after each curve, so the k-th stroke call covers k segments; alpha and composite mode are untouched |
| BrushEngine.EmitAngledSegments | services/BrushEngine.ts:181-199 | one single-segment stroke per pair of consecutive points, with the angle- and pressure-dependent width |
| BrushEngine.EmitAngledSegment | services/BrushEngine.ts:182-198 | the segment ending at points[i] becomes one single-segment stroke whose width is `AngledWidth` at i |
| BrushEngine.EmitCharcoalLayers | services/BrushEngine.ts:216-228 | four polyline layers, layer l with width size*(1+0.3l) and alpha opacity*(0.2-0.04l) |
| BrushEngine.EmitSprayDots | services/BrushEngine.ts:154-165 | 15 filled dots per point, all at the current alpha |
| BrushEngine.EmitAirbrushDots | services/BrushEngine.ts:345-365 | 20 filled dots per point; each dot's alpha is opacity*0.3*(1 - its random distance ratio) |
| BrushEngine.EmitAirbrushPoint | services/BrushEngine.ts:351-364 | the 20 particles of one point, each a filled dot with alpha opacity*0.3*(1 - its distance ratio), in particle order |
| BrushEngine.DrawSmoothStroke | services/BrushEngine.ts:52-83 | fewer than two points draw nothing; otherwise the smooth command sequence is drawn, and the context state and stack are restored |
| BrushEngine.DrawPencilStroke | services/BrushEngine.ts:88-117 | issues the pencil sequence at alpha opacity*0.7 and restores the context |
| BrushEngine.DrawMarkerStroke | services/BrushEngine.ts:122-140 | issues one polyline at width size*1.5 and alpha opacity*0.6 and restores the context |
| BrushEngine.DrawSprayStroke | services/BrushEngine.ts:145-168 | issues 15 dots per point at alpha opacity*0.3 and restores the context |
| BrushEngine.DrawCalligraphyStroke | services/BrushEngine.ts:173-202 | issues the angled segments at full opacity and restores the context |
| BrushEngine.DrawCharcoalStroke | services/BrushEngine.ts:207-231 | issues the four charcoal layers and restores the context |
| BrushEngine.DrawWatercolorStroke | services/BrushEngine.ts:236-266 | issues midpoint segments at twice the width and alpha opacity*0.4 and restores the context |
| BrushEngine.DrawOilStroke | services/BrushEngine.ts:271-308 | issues the three oil layers at full opacity and restores the context |
| BrushEngine.DrawInkPenStroke | services/BrushEngine.ts:313-331 | issues one polyline at width size*0.8 and restores the context |
| BrushEngine.DrawAirbrushStroke | services/BrushEngine.ts:336-368 | issues the airbrush dots and restores the context |
| BrushEngine.DrawStroke | services/BrushEngine.ts:9-47 | the dispatcher appends exactly `StrokeTrace` for the stroke, in the caller's composite mode, and leaves the context state as it found it |
| BrushEngine.DrawPreview | services/BrushEngine.ts:373-571 | the preview appends exactly `PreviewTrace`; an absent or smooth brush type gives one polyline at the plain size, and the context is restored |
| BrushEngine.MidpointAt | services/BrushEngine.ts:65-80 | after k points the midpoint sequence has k entries, the j-th with the pressure-scaled width of point j+1 |
| BrushEngine.OilLayerAt | services/BrushEngine.ts:288-304 | the j-th stroke call of an oil layer covers j+1 segments with the width of point j+1 |
| BrushEngine.AngledAt | services/BrushEngine.ts:181-199 | the j-th calligraphy segment has the angled width of the pair (j, j+1) |
| BrushEngine.CharcoalAt | services/BrushEngine.ts:216-228 | the l-th charcoal command is layer l |
| BrushEngine.AirbrushPointAt | services/BrushEngine.ts:351-364 | the q-th dot of a point has alpha `DotAlpha(opacity, rnd(i, q))` |
| BrushEngine.AirbrushAt | services/BrushEngine.ts:345-365 | command k of the airbrush sequence is dot k%20 of point k/20 |
| BrushEngine.ShortInputDrawsNothing | services/BrushEngine.ts:10 | a stroke or preview with fewer than two points draws nothing (the preview's guard is at line 374) |
| BrushEngine.MissingBrushIsSmooth | services/BrushEngine.ts:12-44 | a stroke without a brush type renders exactly like a smooth one |
| BrushEngine.SmoothSegments | services/BrushEngine.ts:52-83 | n points give n-1 single-segment strokes; segment j has width size times the pressure factor of point j+1, at the stroke's opacity |
| BrushEngine.WatercolorSegments | services/BrushEngine.ts:236-266 | n points give n-1 segments of width 2*size times the pressure factor, at alpha opacity*0.4 |
| BrushEngine.PencilPasses | services/BrushEngine.ts:88-117 | exactly three identical passes of n-1 segments, width size*0.4, alpha opacity*0.7 |
| BrushEngine.SprayDots | services/BrushEngine.ts:145-168 | exactly 15 dots per point, each at alpha opacity*0.3 |
| BrushEngine.CharcoalLayers | services/BrushEngine.ts:207-231 | exactly four layers of n-1 segments each; for positive opacity each layer is fainter than the previous one, and for positive size each is wider |
| BrushEngine.CharcoalLayerOrder | services/BrushEngine.ts:217-218 | a later charcoal layer has strictly lower alpha and strictly greater width |
| BrushEngine.CalligraphySegments | services/BrushEngine.ts:181-199 | n-1 segments at full opacity; when the cosine stays in [-1, 1] each segment's width lies between 0.5 and 2.5 times size times the pressure factor |
| BrushEngine.OilLayers | services/BrushEngine.ts:271-308 | the oil rendering is the same layer drawn three times, and a layer contains n-1 stroke calls |
| BrushEngine.AirbrushDots | services/BrushEngine.ts:336-368 | 20 dots per point; for ratios in [0, 1) every dot's alpha is positive and at most opacity*0.3 |
| BrushEngine.DotAlphaRange | services/BrushEngine.ts:358-359 | a distance ratio in [0, 1) gives a dot alpha in (0, opacity*0.3] |
| BrushEngine.StrokeTraceCount | services/BrushEngine.ts:9-47 | the number of paint commands per brush: n-1 for segment brushes, 3 for pencil, 1 for marker and ink pen, 4 for charcoal, 3(n-1) for oil, 15n for spray, 20n for airbrush |
| BrushEngine.StrokeTracePaintsInMode | services/BrushEngine.ts:9-47 | no brush changes the composite mode: every command is painted in the caller's mode and none clears |
| BrushEngine.StrokeWidthsPositive | services/BrushEngine.ts:72-73 | for a positive size every stroked path has a positive line width |
| BrushEngine.PreviewIgnoresPressure | services/BrushEngine.ts:373-571 | two point sequences with the same positions give the same preview, whatever their pressures |
| BrushEngine.StrokeRedraw | services/BrushEngine.ts:352-359 | redrawing a stroke with fresh random ratios changes at most the alpha of its airbrush dots; a stroke of any other brush is redrawn identically |
| BrushEngine.PreviewMatchesStroke | services/BrushEngine.ts:384-551 | pencil, marker, spray, charcoal and ink pen previews issue exactly the committed stroke's commands; the airbrush preview issues the same commands except for dot alphas, because the preview and the committed render draw their own random ratios |
| BrushEngine.UnitPressureMatchesPreview | services/BrushEngine.ts:434-491 | for watercolor and calligraphy the preview agrees with the committed stroke whenever every pressure factor is 1, whatever random ratios either render draws |
| DocumentHistory.UndoSpec | App.tsx:192-199 | undo on an empty history does nothing; otherwise it moves the newest stroke onto the top of the redo stack |
| DocumentHistory.RedoSpec | App.tsx:201-208 | redo on an empty redo stack does nothing; otherwise it moves the top of the redo stack back onto the strokes |
| DocumentHistory.UndoThenRedo | App.tsx:192-208 | redo after a successful undo restores both lists exactly |
| DocumentHistory.RedoThenUndo | App.tsx:192-208 | undo after a successful redo restores both lists exactly |
| DocumentHistory.CommitSpec | App.tsx:311-314 | a commit appends the stroke and empties the redo stack, so redo is a no-op; undoing it leaves only that stroke to redo |
| DocumentHistory.UndoRedoPreserveContent | App.tsx:192-208 | undo and redo neither lose nor invent strokes (multiset and total count preserved) |
| DocumentHistory.UndoNClosedForm | App.tsx:192-199 | k undos remove the newest k strokes and push them onto the redo stack in reverse order |
| DocumentHistory.UndoNThenRedoN | App.tsx:192-208 | k undos followed by k redos restore the history exactly |
| DocumentHistory.RedoNAfterUndo | App.tsx:192-208 | k+1 redos after an undo equal k redos before it |
| App.LastEntries | App.tsx:261 | `slice(-k)` keeps the last min(k, length) entries |
| App.DrawPreviewFrame | App.tsx:292-306 | the preview layer is cleared and then gets the eraser ring, nothing for pan, or the brush preview for the current points; state and stack restored |
| App.StrokesTraceStep | App.tsx:173-176 | rendering one more stroke appends its trace in that stroke's composite mode |
| App.DrawStrokes | App.tsx:173-176 | drawing all strokes in order appends the concatenation of their traces |
| App.AppState.constructor | App.tsx:49-82 | initial settings: pen, smooth, `#A5D8FF`, size 4, opacity 1, MEDIUM 20x20 palm rejection; empty history and log; no gesture |
| App.AppState.SelectTool | App.tsx:432 | only the active tool changes |
| App.AppState.SelectBrushType | App.tsx:464 | only the brush type changes |
| App.AppState.SetColor | App.tsx:495 | only the colour changes |
| App.AppState.SetSize | App.tsx:479-482 | only the size changes, within the slider's range 1..100 |
| App.AppState.ToggleDebugMode | App.tsx:566 | only the palm-rejection debug flag flips, and the engine's configuration follows it |
| App.AppState.ResetView | App.tsx:572 | only the pan offset returns to the origin |
| App.AppState.HandlePointerDown | App.tsx:258-277 | the gesture follows `PointerDown` and the rejection log follows `LogAfterDown`; document and settings are unchanged |
| App.AppState.HandlePointerMove | App.tsx:279-307 | the gesture follows `PointerMove`; the preview layer is redrawn iff a point was appended, and is untouched otherwise |
| App.AppState.HandlePointerUp | App.tsx:309-320 | the history follows `HistoryAfterUp` and the gesture `PointerUp`; the owning pointer's release clears the preview layer, any other pointer's release changes nothing |
| App.AppState.EndGesture | App.tsx:311-317 | the owning pointer's release: a drawing tool with more than one buffered point commits the buffer as a stroke and clears the redo stack; the gesture returns to idle; settings and the rejection log stay |
| App.AppState.Undo | App.tsx:192-199 | the document becomes the history undo of the old one |
| App.AppState.Redo | App.tsx:201-208 | the document becomes the history redo of the old one |
| App.AppState.ClearSketches | App.tsx:242-247 | when confirmed both stacks are emptied, otherwise nothing changes |
| App.AppState.CleanWorkspace | App.tsx:249-256 | when confirmed both stacks are emptied, the imported image is removed and the view is reset; otherwise nothing changes |
| App.AppState.RenderDrawing | App.tsx:166-180 | the drawing layer gets a clear followed by every stroke's trace, and ends in source-over mode |
| App.RefusedDownChangesNothing | App.tsx:258-263 | a rejected pointer-down never touches the gesture |
| App.RejectionLog | App.tsx:261 | the log grows only for rejected events in debug mode, then it keeps the previous last five plus the new entry, so it never exceeds six |
| App.BusyDownIsIgnored | App.tsx:264 | while a pointer owns the gesture, a second pointer-down is ignored |
| App.DownSeedsOnePoint | App.tsx:265-274 | an accepted drawing down claims the pointer and seeds one document-space point; zero pressure becomes 0.5 |
| App.DownStartsPan | App.tsx:270-272 | with the pan tool an accepted down claims the pointer and starts panning from the client position |
| App.DownWithoutCanvasOnlyClaims | App.tsx:265-267 | without a canvas rectangle the pointer is still claimed but nothing else changes |
| App.OtherPointerMoveIsInert | App.tsx:280 | moves of a pointer that does not own the gesture do nothing |
| App.PanMoveShiftsView | App.tsx:281-287 | a panning move shifts the view by the pointer's displacement and records the new position, collecting no point |
| App.DrawMoveAppendsOnePoint | App.tsx:288-291 | a drawing move appends exactly the event's document-space point and changes nothing else |
| App.UpEndsGesture | App.tsx:309-317 | the owner's release frees the pointer, stops panning and forgets the points; another pointer's release is ignored |
| App.OnlyPanDiscardsTheBuffer | App.tsx:311-314 | for the owner's release of two or more buffered points, the history is unchanged exactly when the tool is pan; every other tool, the eraser included, commits the buffer |
| App.CommitRule | App.tsx:310-314 | a stroke is committed iff the owner releases, the tool is not pan and at least two points were collected; it carries the gesture's points and the current settings and clears redo |
| App.TransitionsKeepGestureValid | App.tsx:258-320 | down, move and up all preserve the gesture invariant (points only while a non-panning pointer owns it) |
| App.DocumentPoints | App.tsx:290 | one document point per move event |
| App.DrawingMovesCollectPoints | App.tsx:288-291 | a run of owner moves while drawing appends their document points in order |
| App.StrokeGesture | App.tsx:258-320 | down, moves, up on one pointer commit a stroke iff there was at least one move; its points are the down point followed by the move points, and the gesture is then over |
| App.CompositeChoice | App.tsx:175 | eraser strokes are drawn in destination-out mode, every other tool in source-over |
| App.StrokesTraceModes | App.tsx:173-176 | strokes that share a composite mode render entirely in that mode |
| App.StrokesTraceNeverClears | App.tsx:173-176 | rendering strokes never clears the layer |
| App.DrawingTraceShape | App.tsx:166-180 | the drawing layer is cleared exactly once, first; with no eraser stroke everything paints source-over, with only eraser strokes everything erases |
| App.StrokesRedraw | App.tsx:166-188 | re-running the redraw with fresh random ratios changes at most airbrush dot alphas, and nothing when no stroke uses the airbrush |
| App.UndoRestoresPicture | App.tsx:166-208 | undoing a fresh commit redraws the picture from before it, and redoing it redraws the picture from right after it; each redraw draws new random ratios, so they agree up to airbrush dot alphas, and exactly when no stroke involved uses the airbrush |
| App.ExportMapping | App.tsx:222-233 | JPG exports as image/jpeg; SVG and PDF fall back to PNG with a warning; PNG stays PNG |
| App.ExportFileNameExtension | App.tsx:237 | the download name ends with '.' and the extension that was actually used |
| AppClean.DrawCleanStrokes | AppClean.tsx:59-70 | one polyline per stroke, at the stroke's size, with one segment per point after the first |
| AppClean.CleanApp.constructor | AppClean.tsx:15-20 | starts with pen, size 5, black, no strokes, not drawing |
| AppClean.CleanApp.SelectTool | AppClean.tsx:86-101 | only the tool changes |
| AppClean.CleanApp.SetBrushSize | AppClean.tsx:114-119 | only the size changes, within the slider's range 1..50 |
| AppClean.CleanApp.SetColor | AppClean.tsx:108 | only the colour changes |
| AppClean.CleanApp.HandleMouseDown | AppClean.tsx:22-31 | drawing starts even without a canvas; with one a new one-point stroke is appended |
| AppClean.CleanApp.HandleMouseMove | AppClean.tsx:33-47 | a move while drawing appends the point to the newest stroke; it fails (`handleMouseMove` throws a TypeError) exactly when there is no stroke to extend |
| AppClean.CleanApp.HandleMouseUp | AppClean.tsx:49-51 | drawing stops; strokes are untouched |
| AppClean.CleanApp.ClearCanvas | AppClean.tsx:73-75 | all strokes are removed |
| AppClean.CleanApp.Undo | AppClean.tsx:77-79 | the newest stroke is dropped, if any |
| AppClean.CleanApp.Render | AppClean.tsx:53-71 | the canvas is cleared and every stroke drawn in order |
| AppClean.DownStartsOnePointStroke | AppClean.tsx:26-30 | a down appends a stroke with the current tool, colour and size and the single canvas-relative point |
| AppClean.IdleMoveIsInert | AppClean.tsx:34 | a move while not drawing changes nothing |
| AppClean.MoveExtendsNewestOnly | AppClean.tsx:41-46 | a move extends only the newest stroke's points by the canvas-relative point; older strokes and the newest stroke's style are unchanged |
| AppClean.UndoSpec | AppClean.tsx:77-79 | undo on nothing is nothing; otherwise it removes exactly the newest stroke |
| AppClean.UndoCancelsDown | AppClean.tsx:22-79 | undo right after a down restores the previous strokes |
| AppClean.AppendAll | AppClean.tsx:41-46 | a run of moves never changes the number of strokes |
| AppClean.MovesExtendNewest | AppClean.tsx:41-46 | a run of moves appends all its points, in order, to the newest stroke only |
| AppClean.CleanTraceAt | AppClean.tsx:59-70 | the i-th command is stroke i's polyline at its own size |
| AppClean.RenderIgnoresTool | AppClean.tsx:59-70 | rendering does not depend on the tool a stroke was drawn with, so the eraser draws like a pen |

## Left out

- Geometry is not modelled: coordinates of path vertices, arcs, midpoints and jitter offsets, and colours, line caps and joins. The trace records width, alpha, composite mode and the segment count of each painted path.
- Randomness and trigonometry: `Math.random` and `Math.cos(Math.atan2(...))` are parameters (`rnd`, `cosAt`). Only the airbrush's random distance reaches the trace, through dot alpha. The other random draws move vertices only. Every render draws new ratios: the preview, the committed render, and each re-run of `renderDrawing` (on every change to `strokes` or `panOffset`). So the lemmas comparing two renders take one draw function per render, and they promise equality only up to airbrush dot alphas.
- Floating point: sizes, opacities and positions are real numbers. Double rounding is not modelled.
- The canvas silently ignores non-positive or non-finite line widths and alphas outside [0, 1]. The model records each assigned value as is.
- BrushEngine.DrawAirbrushStroke, BrushEngine.DrawPreview and BrushEngine.DrawStroke: these require a positive size for the airbrush. `drawAirbrushStroke` divides by the radius, and a zero size would give NaN alphas. The size sliders start at 1, so the `AppState` and `CleanApp` setters require their slider ranges.
- BrushEngine.DrawPencilStroke and the other per-brush draw methods: these require at least two points. In `BrushEngine.ts` they are private and reached only through the dispatcher's guard. The smooth method has its own guard, and the spray method is defined for any number of points, so neither has the requirement.
- The oil brush's preview never sets a line width, so it strokes with whatever width the context already has. The model passes that width in as `lineWidth`.
- Palm rejection: the `switch (this.config.level)` in `shouldAcceptEvent` has no `default` branch. Its only unnamed case is STYLUS_ONLY, which has already returned, so the model's fourth case keeps the configured maxima.
- PalmRejection.Merge: an absent field is `None` and a supplied one `Some`. A patch key explicitly set to `undefined`, which `Partial<>` allows, would overwrite the field with `undefined` under the object spread; the model has no such value. The app always passes a complete configuration.
- `requirePressure` is stored and merged, but the classifier never reads it. The "stationary" check in `shouldAcceptEvent` is a comment with no code.
- React state and effects happen at once, inside each handler. The batched asynchronous updates of `setState` are not modelled. The effect that pushes `palmRejection` into the engine runs inside `ToggleDebugMode`.
- Timestamps and stroke ids come from `Date.now()`; the handlers take them as inputs (`now`, `id`, the export `stamp`).
- `setPointerCapture`, the `onPointerCancel` binding (it calls the up handler) and the `translate(panOffset)` calls on the drawing and preview layers are not in the trace. They only move pixels.
- The export's drawing of both layers, `toDataURL` and the download link's click are browser I/O. The model keeps the choice of MIME type and extension, the warning (as a `warned` flag) and the file name.
- `confirm(...)` dialogs are the `confirmed` parameter.
- The background layer (`renderBackground`: grid styles and the imported image), image import, the landing page, window resizing, the sidebar and the rest of the JSX are not part of this model. Only the imported image's presence is tracked, because `CleanWorkspace` resets it.
- There is no UI control for the opacity setting, so the model has no setter for it.
- The eraser preview's ring: only its stroke command is modelled. Its radius and the fixed `#A5D8FF` colour are not.
- AppClean.CleanApp.HandleMouseMove: `handleMouseMove` mutates the newest stroke's `points` array in place, so the previous React state is changed too and a double state update would push the point twice. The model works on values and appends the point once.
- AppClean: the initial canvas size from `window` and the `onMouseLeave` binding (it calls the up handler) are not modelled.
