/** An abstract 2D drawing context. Only what decides the visible outcome
    of a brush is kept: the line width, global alpha and compositing mode
    in force, the save/restore stack, how many segments the current path
    holds, and the ordered trace of paint operations. Coordinates, colours,
    caps and joins are not represented. */
module Canvas {

  /** `source-over` paints over existing pixels; `destination-out` erases them. */
  datatype CompositeOp = SourceOver | DestinationOut

  datatype DrawState = DrawState(lineWidth: real, globalAlpha: real, composite: CompositeOp)

  /** One paint operation, with the state in force when it was issued. */
  datatype Command =
    | Clear
    | StrokePath(width: real, alpha: real, composite: CompositeOp, segments: nat)
    | FillPath(alpha: real, composite: CompositeOp, segments: nat)

  /** The top-left corner of a canvas element's bounding rectangle. */
  datatype Rect = Rect(left: real, top: real)

  /** A fresh context: line width 1, alpha 1, source-over. */
  const InitialState := DrawState(1.0, 1.0, SourceOver)

  class Context2D {
    var state: DrawState
    var stateStack: seq<DrawState>
    var pathSegments: nat
    var trace: seq<Command>

    constructor ()
      ensures state == InitialState && stateStack == [] && pathSegments == 0 && trace == []
    {
      state := InitialState;
      stateStack := [];
      pathSegments := 0;
      trace := [];
    }

    method Save()
      modifies this`stateStack
      ensures stateStack == old(stateStack) + [state]
    {
      stateStack := stateStack + [state];
    }

    /** Restoring with nothing saved does nothing. */
    method Restore()
      modifies this`state, this`stateStack
      ensures old(stateStack) == [] ==> state == old(state) && stateStack == []
      ensures old(stateStack) != [] ==>
        state == old(stateStack)[|old(stateStack)| - 1] &&
        stateStack == old(stateStack)[..|old(stateStack)| - 1]
    {
      if stateStack != [] {
        state := stateStack[|stateStack| - 1];
        stateStack := stateStack[..|stateStack| - 1];
      }
    }

    method SetLineWidth(w: real)
      modifies this`state
      ensures state == old(state).(lineWidth := w)
    {
      state := state.(lineWidth := w);
    }

    method SetGlobalAlpha(a: real)
      modifies this`state
      ensures state == old(state).(globalAlpha := a)
    {
      state := state.(globalAlpha := a);
    }

    method SetCompositeOperation(op: CompositeOp)
      modifies this`state
      ensures state == old(state).(composite := op)
    {
      state := state.(composite := op);
    }

    /** Starts a new, empty path (a following moveTo adds no segment). */
    method BeginPath()
      modifies this`pathSegments
      ensures pathSegments == 0
    {
      pathSegments := 0;
    }

    method LineTo()
      modifies this`pathSegments
      ensures pathSegments == old(pathSegments) + 1
    {
      pathSegments := pathSegments + 1;
    }

    method QuadraticCurveTo()
      modifies this`pathSegments
      ensures pathSegments == old(pathSegments) + 1
    {
      pathSegments := pathSegments + 1;
    }

    method Arc()
      modifies this`pathSegments
      ensures pathSegments == old(pathSegments) + 1
    {
      pathSegments := pathSegments + 1;
    }

    /** Strokes the current path with the state in force. */
    method Stroke()
      modifies this`trace
      ensures trace == old(trace) + [StrokePath(state.lineWidth, state.globalAlpha, state.composite, pathSegments)]
    {
      trace := trace + [StrokePath(state.lineWidth, state.globalAlpha, state.composite, pathSegments)];
    }

    /** Fills the current path with the state in force. */
    method Fill()
      modifies this`trace
      ensures trace == old(trace) + [FillPath(state.globalAlpha, state.composite, pathSegments)]
    {
      trace := trace + [FillPath(state.globalAlpha, state.composite, pathSegments)];
    }

    method ClearRect()
      modifies this`trace
      ensures trace == old(trace) + [Clear]
    {
      trace := trace + [Clear];
    }
  }
}
