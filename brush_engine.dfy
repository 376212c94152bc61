/** The brush rendering engine as a producer of paint commands on an
    abstract context. For every brush, a function states the commands it
    issues (the specification) and a method issues them call by call as the
    renderer does (the implementation). Random jitter only moves geometry,
    which commands do not record; the one random value that changes a
    command, the airbrush's particle distance, is a parameter `rnd(i, j)`
    (the draw for particle j of point i). `cosAt(dx, dy)` stands for the
    cosine of the angle of a segment with offsets dx, dy. */
module BrushEngine {
  import opened Types
  import opened Canvas

  const SprayDensity: nat := 15
  const AirbrushDensity: nat := 20

  /** Pressure as the renderer scales with it: zero or missing counts as full. */
  function EffectivePressure(p: real): (r: real)
    ensures r > 0.0
    ensures p > 0.0 ==> r == p
    ensures p <= 0.0 ==> r == 1.0
  {
    if p > 0.0 then p else 1.0
  }

  function Abs(x: real): real {
    if x < 0.0 then -x else x
  }

  /** The calligraphy width factor `|cos θ| * 2 + 0.5`. */
  function CalligraphyMultiplier(cosAngle: real): (m: real)
    ensures m >= 0.5
    ensures -1.0 <= cosAngle <= 1.0 ==> m <= 2.5
  {
    Abs(cosAngle) * 2.0 + 0.5
  }

  /** The alpha of an airbrush particle at relative distance `distRatio`. */
  function DotAlpha(opacity: real, distRatio: real): real {
    (opacity * 0.3) * (1.0 - distRatio)
  }

  // ---------------------------------------------------------------------
  // Specification: the commands of each brush.

  /** `t` issued `k` times in a row. */
  function Repeat(t: seq<Command>, k: nat): seq<Command> {
    if k == 0 then [] else Repeat(t, k - 1) + t
  }

  /** The width of the segment ending at points[i]: scaled by that point's
      effective pressure, or fixed at `base`. */
  function SegmentWidth(points: seq<Point>, i: nat, base: real, scaled: bool): real
    requires i < |points|
  {
    if scaled then base * EffectivePressure(points[i].pressure) else base
  }

  /** Midpoint-curve brushes (smooth, watercolor): segments 1..k, each
      stroked as a path of its own. */
  function MidpointCmds(points: seq<Point>, base: real, scaled: bool, alpha: real, op: CompositeOp, k: nat): seq<Command>
    requires k < |points|
  {
    if k == 0 then []
    else MidpointCmds(points, base, scaled, alpha, op, k - 1) + [StrokePath(SegmentWidth(points, k, base, scaled), alpha, op, 1)]
  }

  lemma AppendAssoc<T>(a: seq<T>, b: seq<T>, c: seq<T>)
    ensures (a + b) + c == a + (b + c)
  {
  }

  /** One oil layer: the path is never restarted, so the stroke issued after
      segment k covers k curves. */
  function OilLayerCmds(points: seq<Point>, base: real, scaled: bool, alpha: real, op: CompositeOp, k: nat): seq<Command>
    requires k < |points|
  {
    if k == 0 then []
    else OilLayerCmds(points, base, scaled, alpha, op, k - 1) + [StrokePath(SegmentWidth(points, k, base, scaled), alpha, op, k)]
  }

  /** The calligraphy width of segment points[k-1] -> points[k]. */
  function AngledWidth(points: seq<Point>, k: nat, size: real, scaled: bool, cosAt: (real, real) -> real): real
    requires 1 <= k < |points|
  {
    SegmentWidth(points, k, size * CalligraphyMultiplier(cosAt(points[k].x - points[k - 1].x, points[k].y - points[k - 1].y)), scaled)
  }

  function AngledCmds(points: seq<Point>, size: real, scaled: bool, alpha: real, op: CompositeOp,
                      cosAt: (real, real) -> real, k: nat): seq<Command>
    requires k < |points|
  {
    if k == 0 then []
    else AngledCmds(points, size, scaled, alpha, op, cosAt, k - 1) + [StrokePath(AngledWidth(points, k, size, scaled, cosAt), alpha, op, 1)]
  }

  /** Charcoal layer `layer`: alpha `opacity * (0.2 - 0.04 layer)`, width `size * (1 + 0.3 layer)`. */
  function CharcoalLayer(size: real, opacity: real, op: CompositeOp, segments: nat, layer: nat): Command {
    StrokePath(size * (1.0 + layer as real * 0.3), opacity * (0.2 - layer as real * 0.04), op, segments)
  }

  function CharcoalCmds(size: real, opacity: real, op: CompositeOp, segments: nat, k: nat): seq<Command> {
    if k == 0 then [] else CharcoalCmds(size, opacity, op, segments, k - 1) + [CharcoalLayer(size, opacity, op, segments, k - 1)]
  }

  /** The first j particles of point i. */
  function AirbrushPointCmds(opacity: real, op: CompositeOp, rnd: (nat, nat) -> real, i: nat, j: nat): seq<Command> {
    if j == 0 then []
    else AirbrushPointCmds(opacity, op, rnd, i, j - 1) + [FillPath(DotAlpha(opacity, rnd(i, j - 1)), op, 1)]
  }

  /** All particles of points 0..i-1. */
  function AirbrushCmds(opacity: real, op: CompositeOp, rnd: (nat, nat) -> real, i: nat): seq<Command> {
    if i == 0 then []
    else AirbrushCmds(opacity, op, rnd, i - 1) + AirbrushPointCmds(opacity, op, rnd, i - 1, AirbrushDensity)
  }

  function PencilCmds(n: nat, size: real, opacity: real, op: CompositeOp): seq<Command>
    requires n >= 1
  {
    Repeat([StrokePath(size * 0.4, opacity * 0.7, op, n - 1)], 3)
  }

  function MarkerCmds(n: nat, size: real, opacity: real, op: CompositeOp): seq<Command>
    requires n >= 1
  {
    [StrokePath(size * 1.5, opacity * 0.6, op, n - 1)]
  }

  function SprayCmds(n: nat, opacity: real, op: CompositeOp): seq<Command> {
    Repeat([FillPath(opacity * 0.3, op, 1)], SprayDensity * n)
  }

  function InkPenCmds(n: nat, size: real, opacity: real, op: CompositeOp): seq<Command>
    requires n >= 1
  {
    [StrokePath(size * 0.8, opacity, op, n - 1)]
  }

  /** What rendering a committed stroke issues when composite mode `op` is in force. */
  function StrokeTrace(s: Stroke, op: CompositeOp, cosAt: (real, real) -> real, rnd: (nat, nat) -> real): seq<Command> {
    var n := |s.points|;
    if n < 2 then []
    else match EffectiveBrush(s)
      case Smooth => MidpointCmds(s.points, s.size, true, s.opacity, op, n - 1)
      case Pencil => PencilCmds(n, s.size, s.opacity, op)
      case Marker => MarkerCmds(n, s.size, s.opacity, op)
      case Spray => SprayCmds(n, s.opacity, op)
      case Calligraphy => AngledCmds(s.points, s.size, true, s.opacity, op, cosAt, n - 1)
      case Charcoal => CharcoalCmds(s.size, s.opacity, op, n - 1, 4)
      case Watercolor => MidpointCmds(s.points, s.size * 2.0, true, s.opacity * 0.4, op, n - 1)
      case Oil => Repeat(OilLayerCmds(s.points, s.size, true, s.opacity, op, n - 1), 3)
      case InkPen => InkPenCmds(n, s.size, s.opacity, op)
      case Airbrush => AirbrushCmds(s.opacity, op, rnd, n)
  }

  /** What the live preview of a point buffer issues; `lineWidth` is the
      context's line width on entry, which the oil preview never sets. */
  function PreviewTrace(points: seq<Point>, size: real, opacity: real, brushType: Option<BrushType>,
                        op: CompositeOp, lineWidth: real, cosAt: (real, real) -> real, rnd: (nat, nat) -> real): seq<Command> {
    var n := |points|;
    if n < 2 then []
    else match brushType
      case Some(Pencil) => PencilCmds(n, size, opacity, op)
      case Some(Marker) => MarkerCmds(n, size, opacity, op)
      case Some(Spray) => SprayCmds(n, opacity, op)
      case Some(Calligraphy) => AngledCmds(points, size, false, opacity, op, cosAt, n - 1)
      case Some(Charcoal) => CharcoalCmds(size, opacity, op, n - 1, 4)
      case Some(Watercolor) => MidpointCmds(points, size * 2.0, false, opacity * 0.4, op, n - 1)
      case Some(Oil) => Repeat(OilLayerCmds(points, lineWidth, false, opacity, op, n - 1), 3)
      case Some(InkPen) => InkPenCmds(n, size, opacity, op)
      case Some(Airbrush) => AirbrushCmds(opacity, op, rnd, n)
      case _ => [StrokePath(size, opacity, op, n - 1)]
  }

  // ---------------------------------------------------------------------
  // Implementation: the loops that issue the commands.

  /** beginPath, moveTo the first of n points, a line or curve to each
      further point, stroke. */
  method EmitPath(ctx: Context2D, n: nat, curved: bool)
    requires n >= 1
    modifies ctx`pathSegments, ctx`trace
    ensures ctx.trace == old(ctx.trace) + [StrokePath(ctx.state.lineWidth, ctx.state.globalAlpha, ctx.state.composite, n - 1)]
  {
    ctx.BeginPath();
    for i := 1 to n
      invariant ctx.pathSegments == i - 1
      invariant ctx.trace == old(ctx.trace)
    {
      if curved {
        ctx.QuadraticCurveTo();
      } else {
        ctx.LineTo();
      }
    }
    ctx.Stroke();
  }

  /** Three polyline passes at width `size * 0.4`. */
  method EmitPencilPasses(ctx: Context2D, n: nat, size: real)
    requires n >= 1
    modifies ctx`state, ctx`pathSegments, ctx`trace
    ensures ctx.state == old(ctx.state).(lineWidth := size * 0.4)
    ensures ctx.trace == old(ctx.trace) + Repeat([StrokePath(size * 0.4, ctx.state.globalAlpha, ctx.state.composite, n - 1)], 3)
  {
    ctx.SetLineWidth(size * 0.4);
    ghost var pass := [StrokePath(size * 0.4, ctx.state.globalAlpha, ctx.state.composite, n - 1)];
    for offset := 0 to 3
      invariant ctx.state == old(ctx.state).(lineWidth := size * 0.4)
      invariant ctx.trace == old(ctx.trace) + Repeat(pass, offset)
    {
      ctx.SetLineWidth(size * 0.4);
      EmitPath(ctx, n, false);
    }
  }

  /** One curve per path, stroked at once; with `scaled` the width follows
      each end point's pressure, otherwise the width in force is kept. */
  method EmitMidpointSegments(ctx: Context2D, points: seq<Point>, base: real, scaled: bool)
    requires |points| >= 1
    requires !scaled ==> ctx.state.lineWidth == base
    modifies ctx`state, ctx`pathSegments, ctx`trace
    ensures ctx.state.globalAlpha == old(ctx.state.globalAlpha) && ctx.state.composite == old(ctx.state.composite)
    ensures ctx.trace == old(ctx.trace) +
      MidpointCmds(points, base, scaled, old(ctx.state.globalAlpha), old(ctx.state.composite), |points| - 1)
  {
    ctx.BeginPath();
    for i := 1 to |points|
      invariant ctx.pathSegments == 0
      invariant ctx.state.globalAlpha == old(ctx.state.globalAlpha) && ctx.state.composite == old(ctx.state.composite)
      invariant !scaled ==> ctx.state.lineWidth == base
      invariant ctx.trace == old(ctx.trace) +
        MidpointCmds(points, base, scaled, old(ctx.state.globalAlpha), old(ctx.state.composite), i - 1)
    {
      if scaled {
        ctx.SetLineWidth(base * EffectivePressure(points[i].pressure));
      }
      ctx.QuadraticCurveTo();
      ctx.Stroke();
      ctx.BeginPath();
    }
  }

  /** Three layers of curves, each along one growing path stroked after every curve. */
  method EmitOilLayers(ctx: Context2D, points: seq<Point>, base: real, scaled: bool)
    requires |points| >= 1
    requires !scaled ==> ctx.state.lineWidth == base
    modifies ctx`state, ctx`pathSegments, ctx`trace
    ensures ctx.state.globalAlpha == old(ctx.state.globalAlpha) && ctx.state.composite == old(ctx.state.composite)
    ensures ctx.trace == old(ctx.trace) +
      Repeat(OilLayerCmds(points, base, scaled, old(ctx.state.globalAlpha), old(ctx.state.composite), |points| - 1), 3)
  {
    ghost var layerCmds := OilLayerCmds(points, base, scaled, ctx.state.globalAlpha, ctx.state.composite, |points| - 1);
    for layer := 0 to 3
      invariant ctx.state.globalAlpha == old(ctx.state.globalAlpha) && ctx.state.composite == old(ctx.state.composite)
      invariant !scaled ==> ctx.state.lineWidth == base
      invariant ctx.trace == old(ctx.trace) + Repeat(layerCmds, layer)
    {
      ghost var before := ctx.trace;
      EmitOilLayer(ctx, points, base, scaled);
      assert ctx.trace == before + layerCmds;
      AppendAssoc(old(ctx.trace), Repeat(layerCmds, layer), layerCmds);
    }
  }

  /** One oil layer: the path is never restarted, so the k-th stroke covers k curves. */
  method EmitOilLayer(ctx: Context2D, points: seq<Point>, base: real, scaled: bool)
    requires |points| >= 1
    requires !scaled ==> ctx.state.lineWidth == base
    modifies ctx`state, ctx`pathSegments, ctx`trace
    ensures ctx.state.globalAlpha == old(ctx.state.globalAlpha) && ctx.state.composite == old(ctx.state.composite)
    ensures !scaled ==> ctx.state.lineWidth == base
    ensures ctx.trace == old(ctx.trace) +
      OilLayerCmds(points, base, scaled, old(ctx.state.globalAlpha), old(ctx.state.composite), |points| - 1)
  {
    ctx.BeginPath();
    for i := 1 to |points|
      invariant ctx.pathSegments == i - 1
      invariant ctx.state.globalAlpha == old(ctx.state.globalAlpha) && ctx.state.composite == old(ctx.state.composite)
      invariant !scaled ==> ctx.state.lineWidth == base
      invariant ctx.trace == old(ctx.trace) +
        OilLayerCmds(points, base, scaled, old(ctx.state.globalAlpha), old(ctx.state.composite), i - 1)
    {
      ghost var before := ctx.trace;
      ghost var c := StrokePath(SegmentWidth(points, i, base, scaled), old(ctx.state.globalAlpha), old(ctx.state.composite), i);
      if scaled {
        ctx.SetLineWidth(base * EffectivePressure(points[i].pressure));
      }
      ctx.QuadraticCurveTo();
      ctx.Stroke();
      assert ctx.trace == before + [c];
      assert OilLayerCmds(points, base, scaled, old(ctx.state.globalAlpha), old(ctx.state.composite), i) ==
        OilLayerCmds(points, base, scaled, old(ctx.state.globalAlpha), old(ctx.state.composite), i - 1) + [c];
    }
  }

  /** One line per path, its width set from the segment's angle (and, with
      `scaled`, the end point's pressure). */
  method EmitAngledSegments(ctx: Context2D, points: seq<Point>, size: real, scaled: bool, cosAt: (real, real) -> real)
    requires |points| >= 1
    modifies ctx`state, ctx`pathSegments, ctx`trace
    ensures ctx.state.globalAlpha == old(ctx.state.globalAlpha) && ctx.state.composite == old(ctx.state.composite)
    ensures ctx.trace == old(ctx.trace) +
      AngledCmds(points, size, scaled, old(ctx.state.globalAlpha), old(ctx.state.composite), cosAt, |points| - 1)
  {
    for i := 1 to |points|
      invariant ctx.state.globalAlpha == old(ctx.state.globalAlpha) && ctx.state.composite == old(ctx.state.composite)
      invariant ctx.trace == old(ctx.trace) +
        AngledCmds(points, size, scaled, old(ctx.state.globalAlpha), old(ctx.state.composite), cosAt, i - 1)
    {
      EmitAngledSegment(ctx, points, i, size, scaled, cosAt);
    }
  }

  /** The segment points[i-1] -> points[i] as a path of its own. */
  method EmitAngledSegment(ctx: Context2D, points: seq<Point>, i: nat, size: real, scaled: bool, cosAt: (real, real) -> real)
    requires 1 <= i < |points|
    modifies ctx`state, ctx`pathSegments, ctx`trace
    ensures ctx.state.globalAlpha == old(ctx.state.globalAlpha) && ctx.state.composite == old(ctx.state.composite)
    ensures ctx.trace == old(ctx.trace) +
      [StrokePath(AngledWidth(points, i, size, scaled, cosAt), old(ctx.state.globalAlpha), old(ctx.state.composite), 1)]
  {
    var p1 := points[i - 1];
    var p2 := points[i];
    var dx := p2.x - p1.x;
    var dy := p2.y - p1.y;
    var widthMultiplier := CalligraphyMultiplier(cosAt(dx, dy));
    var width := SegmentWidth(points, i, size * widthMultiplier, scaled);
    assert width == AngledWidth(points, i, size, scaled, cosAt);
    ctx.SetLineWidth(width);
    ctx.BeginPath();
    ctx.LineTo();
    ctx.Stroke();
  }

  /** Four polyline layers of falling alpha and growing width. */
  method EmitCharcoalLayers(ctx: Context2D, n: nat, size: real, opacity: real)
    requires n >= 1
    modifies ctx`state, ctx`pathSegments, ctx`trace
    ensures ctx.state.composite == old(ctx.state.composite)
    ensures ctx.trace == old(ctx.trace) + CharcoalCmds(size, opacity, old(ctx.state.composite), n - 1, 4)
  {
    for layer := 0 to 4
      invariant ctx.state.composite == old(ctx.state.composite)
      invariant ctx.trace == old(ctx.trace) + CharcoalCmds(size, opacity, old(ctx.state.composite), n - 1, layer)
    {
      ghost var before := ctx.trace;
      var c := CharcoalLayer(size, opacity, old(ctx.state.composite), n - 1, layer);
      ctx.SetGlobalAlpha(opacity * (0.2 - layer as real * 0.04));
      ctx.SetLineWidth(size * (1.0 + layer as real * 0.3));
      EmitPath(ctx, n, false);
      assert ctx.trace == before + [c];
      assert CharcoalCmds(size, opacity, old(ctx.state.composite), n - 1, layer + 1) ==
        CharcoalCmds(size, opacity, old(ctx.state.composite), n - 1, layer) + [c];
    }
  }

  /** `SprayDensity` filled particles around each of the n points. */
  method EmitSprayDots(ctx: Context2D, n: nat)
    modifies ctx`pathSegments, ctx`trace
    ensures ctx.trace == old(ctx.trace) + Repeat([FillPath(ctx.state.globalAlpha, ctx.state.composite, 1)], SprayDensity * n)
  {
    ghost var dot := [FillPath(ctx.state.globalAlpha, ctx.state.composite, 1)];
    for i := 0 to n
      invariant ctx.trace == old(ctx.trace) + Repeat(dot, SprayDensity * i)
    {
      for j := 0 to SprayDensity
        invariant ctx.trace == old(ctx.trace) + Repeat(dot, SprayDensity * i + j)
      {
        ctx.BeginPath();
        ctx.Arc();
        ctx.Fill();
      }
    }
  }

  /** `AirbrushDensity` particles around each point, each with an alpha that
      falls linearly with its distance from the point. With `scaled` the
      radius follows the point's pressure. */
  method EmitAirbrushDots(ctx: Context2D, points: seq<Point>, size: real, opacity: real, scaled: bool, rnd: (nat, nat) -> real)
    requires size > 0.0
    modifies ctx`state, ctx`pathSegments, ctx`trace
    ensures ctx.state.composite == old(ctx.state.composite)
    ensures ctx.trace == old(ctx.trace) + AirbrushCmds(opacity, old(ctx.state.composite), rnd, |points|)
  {
    for i := 0 to |points|
      invariant ctx.state.composite == old(ctx.state.composite)
      invariant ctx.trace == old(ctx.trace) + AirbrushCmds(opacity, old(ctx.state.composite), rnd, i)
    {
      var point := points[i];
      var radius := if scaled then size * EffectivePressure(point.pressure) * 2.0 else size * 2.0;
      PositiveProduct(size, EffectivePressure(point.pressure));
      EmitAirbrushPoint(ctx, i, radius, opacity, rnd);
    }
  }

  /** The `AirbrushDensity` particles of point i, each fainter the farther
      its random distance lies from the centre. */
  method EmitAirbrushPoint(ctx: Context2D, i: nat, radius: real, opacity: real, rnd: (nat, nat) -> real)
    requires radius > 0.0
    modifies ctx`state, ctx`pathSegments, ctx`trace
    ensures ctx.state.composite == old(ctx.state.composite)
    ensures ctx.trace == old(ctx.trace) + AirbrushPointCmds(opacity, old(ctx.state.composite), rnd, i, AirbrushDensity)
  {
    for j := 0 to AirbrushDensity
      invariant ctx.state.composite == old(ctx.state.composite)
      invariant ctx.trace == old(ctx.trace) + AirbrushPointCmds(opacity, old(ctx.state.composite), rnd, i, j)
    {
      var distance := rnd(i, j) * radius;
      var distRatio := distance / radius;
      assert distRatio == rnd(i, j);
      ghost var before := ctx.trace;
      ctx.SetGlobalAlpha(DotAlpha(opacity, distRatio));
      ctx.BeginPath();
      ctx.Arc();
      ctx.Fill();
      assert ctx.trace == before + [FillPath(DotAlpha(opacity, rnd(i, j)), old(ctx.state.composite), 1)];
    }
  }

  lemma PositiveProduct(a: real, b: real)
    requires a > 0.0 && b > 0.0
    ensures a * b > 0.0
  {
  }

  // ---------------------------------------------------------------------
  // The brushes. Each saves the context, sets its alpha and width, issues
  // its commands and restores the context.

  method DrawSmoothStroke(ctx: Context2D, stroke: Stroke)
    modifies ctx
    ensures ctx.state == old(ctx.state) && ctx.stateStack == old(ctx.stateStack)
    ensures |stroke.points| < 2 ==> ctx.trace == old(ctx.trace)
    ensures |stroke.points| >= 2 ==>
      ctx.trace == old(ctx.trace) + MidpointCmds(stroke.points, stroke.size, true, stroke.opacity, old(ctx.state.composite), |stroke.points| - 1)
  {
    if |stroke.points| < 2 {
      return;
    }
    ctx.Save();
    ctx.SetGlobalAlpha(stroke.opacity);
    EmitMidpointSegments(ctx, stroke.points, stroke.size, true);
    ctx.Restore();
  }

  method DrawPencilStroke(ctx: Context2D, stroke: Stroke)
    requires |stroke.points| >= 2
    modifies ctx
    ensures ctx.state == old(ctx.state) && ctx.stateStack == old(ctx.stateStack)
    ensures ctx.trace == old(ctx.trace) + PencilCmds(|stroke.points|, stroke.size, stroke.opacity, old(ctx.state.composite))
  {
    ctx.Save();
    ctx.SetGlobalAlpha(stroke.opacity * 0.7);
    EmitPencilPasses(ctx, |stroke.points|, stroke.size);
    ctx.Restore();
  }

  method DrawMarkerStroke(ctx: Context2D, stroke: Stroke)
    requires |stroke.points| >= 2
    modifies ctx
    ensures ctx.state == old(ctx.state) && ctx.stateStack == old(ctx.stateStack)
    ensures ctx.trace == old(ctx.trace) + MarkerCmds(|stroke.points|, stroke.size, stroke.opacity, old(ctx.state.composite))
  {
    ctx.Save();
    ctx.SetGlobalAlpha(stroke.opacity * 0.6);
    ctx.SetLineWidth(stroke.size * 1.5);
    EmitPath(ctx, |stroke.points|, false);
    ctx.Restore();
  }

  method DrawSprayStroke(ctx: Context2D, stroke: Stroke)
    modifies ctx
    ensures ctx.state == old(ctx.state) && ctx.stateStack == old(ctx.stateStack)
    ensures ctx.trace == old(ctx.trace) + SprayCmds(|stroke.points|, stroke.opacity, old(ctx.state.composite))
  {
    ctx.Save();
    ctx.SetGlobalAlpha(stroke.opacity * 0.3);
    EmitSprayDots(ctx, |stroke.points|);
    ctx.Restore();
  }

  method DrawCalligraphyStroke(ctx: Context2D, stroke: Stroke, cosAt: (real, real) -> real)
    requires |stroke.points| >= 2
    modifies ctx
    ensures ctx.state == old(ctx.state) && ctx.stateStack == old(ctx.stateStack)
    ensures ctx.trace == old(ctx.trace) +
      AngledCmds(stroke.points, stroke.size, true, stroke.opacity, old(ctx.state.composite), cosAt, |stroke.points| - 1)
  {
    ctx.Save();
    ctx.SetGlobalAlpha(stroke.opacity);
    EmitAngledSegments(ctx, stroke.points, stroke.size, true, cosAt);
    ctx.Restore();
  }

  method DrawCharcoalStroke(ctx: Context2D, stroke: Stroke)
    requires |stroke.points| >= 2
    modifies ctx
    ensures ctx.state == old(ctx.state) && ctx.stateStack == old(ctx.stateStack)
    ensures ctx.trace == old(ctx.trace) +
      CharcoalCmds(stroke.size, stroke.opacity, old(ctx.state.composite), |stroke.points| - 1, 4)
  {
    ctx.Save();
    EmitCharcoalLayers(ctx, |stroke.points|, stroke.size, stroke.opacity);
    ctx.Restore();
  }

  method DrawWatercolorStroke(ctx: Context2D, stroke: Stroke)
    requires |stroke.points| >= 2
    modifies ctx
    ensures ctx.state == old(ctx.state) && ctx.stateStack == old(ctx.stateStack)
    ensures ctx.trace == old(ctx.trace) +
      MidpointCmds(stroke.points, stroke.size * 2.0, true, stroke.opacity * 0.4, old(ctx.state.composite), |stroke.points| - 1)
  {
    ctx.Save();
    ctx.SetGlobalAlpha(stroke.opacity * 0.4);
    ctx.SetLineWidth(stroke.size * 2.0);
    EmitMidpointSegments(ctx, stroke.points, stroke.size * 2.0, true);
    ctx.Restore();
  }

  method DrawOilStroke(ctx: Context2D, stroke: Stroke)
    requires |stroke.points| >= 2
    modifies ctx
    ensures ctx.state == old(ctx.state) && ctx.stateStack == old(ctx.stateStack)
    ensures ctx.trace == old(ctx.trace) +
      Repeat(OilLayerCmds(stroke.points, stroke.size, true, stroke.opacity, old(ctx.state.composite), |stroke.points| - 1), 3)
  {
    ctx.Save();
    ctx.SetGlobalAlpha(stroke.opacity);
    ctx.SetLineWidth(stroke.size);
    ctx.BeginPath();
    EmitOilLayers(ctx, stroke.points, stroke.size, true);
    ctx.Restore();
  }

  method DrawInkPenStroke(ctx: Context2D, stroke: Stroke)
    requires |stroke.points| >= 2
    modifies ctx
    ensures ctx.state == old(ctx.state) && ctx.stateStack == old(ctx.stateStack)
    ensures ctx.trace == old(ctx.trace) + InkPenCmds(|stroke.points|, stroke.size, stroke.opacity, old(ctx.state.composite))
  {
    ctx.Save();
    ctx.SetGlobalAlpha(stroke.opacity);
    ctx.SetLineWidth(stroke.size * 0.8);
    EmitPath(ctx, |stroke.points|, false);
    ctx.Restore();
  }

  method DrawAirbrushStroke(ctx: Context2D, stroke: Stroke, rnd: (nat, nat) -> real)
    requires stroke.size > 0.0
    modifies ctx
    ensures ctx.state == old(ctx.state) && ctx.stateStack == old(ctx.stateStack)
    ensures ctx.trace == old(ctx.trace) + AirbrushCmds(stroke.opacity, old(ctx.state.composite), rnd, |stroke.points|)
  {
    ctx.Save();
    ctx.SetGlobalAlpha(stroke.opacity * 0.3);
    EmitAirbrushDots(ctx, stroke.points, stroke.size, stroke.opacity, true, rnd);
    ctx.Restore();
  }

  /** Renders a committed stroke with the brush it names (smooth when none). */
  method DrawStroke(ctx: Context2D, stroke: Stroke, cosAt: (real, real) -> real, rnd: (nat, nat) -> real)
    requires EffectiveBrush(stroke) == Airbrush ==> stroke.size > 0.0
    modifies ctx
    ensures ctx.state == old(ctx.state) && ctx.stateStack == old(ctx.stateStack)
    ensures ctx.trace == old(ctx.trace) + StrokeTrace(stroke, old(ctx.state.composite), cosAt, rnd)
  {
    if |stroke.points| < 2 {
      return;
    }
    match EffectiveBrush(stroke) {
      case Pencil => DrawPencilStroke(ctx, stroke);
      case Marker => DrawMarkerStroke(ctx, stroke);
      case Spray => DrawSprayStroke(ctx, stroke);
      case Calligraphy => DrawCalligraphyStroke(ctx, stroke, cosAt);
      case Charcoal => DrawCharcoalStroke(ctx, stroke);
      case Watercolor => DrawWatercolorStroke(ctx, stroke);
      case Oil => DrawOilStroke(ctx, stroke);
      case InkPen => DrawInkPenStroke(ctx, stroke);
      case Airbrush => DrawAirbrushStroke(ctx, stroke, rnd);
      case Smooth => DrawSmoothStroke(ctx, stroke);
    }
  }

  /** The live preview of the points captured so far. */
  method DrawPreview(ctx: Context2D, points: seq<Point>, color: string, size: real, opacity: real,
                     brushType: Option<BrushType>, cosAt: (real, real) -> real, rnd: (nat, nat) -> real)
    requires brushType == Some(Airbrush) ==> size > 0.0
    modifies ctx
    ensures ctx.state == old(ctx.state) && ctx.stateStack == old(ctx.stateStack)
    ensures ctx.trace == old(ctx.trace) +
      PreviewTrace(points, size, opacity, brushType, old(ctx.state.composite), old(ctx.state.lineWidth), cosAt, rnd)
  {
    var n := |points|;
    if n < 2 {
      return;
    }
    ctx.Save();
    ctx.SetGlobalAlpha(opacity);
    match brushType {
      case Some(Pencil) =>
        ctx.SetGlobalAlpha(opacity * 0.7);
        EmitPencilPasses(ctx, n, size);
      case Some(Marker) =>
        ctx.SetGlobalAlpha(opacity * 0.6);
        ctx.SetLineWidth(size * 1.5);
        EmitPath(ctx, n, false);
      case Some(Spray) =>
        ctx.SetGlobalAlpha(opacity * 0.3);
        EmitSprayDots(ctx, n);
      case Some(Calligraphy) =>
        EmitAngledSegments(ctx, points, size, false, cosAt);
      case Some(Charcoal) =>
        EmitCharcoalLayers(ctx, n, size, opacity);
      case Some(Watercolor) =>
        ctx.SetGlobalAlpha(opacity * 0.4);
        ctx.SetLineWidth(size * 2.0);
        EmitMidpointSegments(ctx, points, size * 2.0, false);
      case Some(Oil) =>
        EmitOilLayers(ctx, points, ctx.state.lineWidth, false);
      case Some(InkPen) =>
        ctx.SetLineWidth(size * 0.8);
        EmitPath(ctx, n, false);
      case Some(Airbrush) =>
        ctx.SetGlobalAlpha(opacity * 0.3);
        EmitAirbrushDots(ctx, points, size, opacity, false, rnd);
      case _ =>
        ctx.SetLineWidth(size);
        EmitPath(ctx, n, true);
    }
    ctx.Restore();
  }

  // ---------------------------------------------------------------------
  // Closed forms of the command sequences.

  lemma {:induction false} RepeatSingle(c: Command, k: nat)
    ensures |Repeat([c], k)| == k
    ensures forall i :: 0 <= i < k ==> Repeat([c], k)[i] == c
  {
    if k > 0 {
      RepeatSingle(c, k - 1);
    }
  }

  lemma {:induction false} MidpointAt(points: seq<Point>, base: real, scaled: bool, alpha: real, op: CompositeOp, k: nat)
    requires k < |points|
    ensures |MidpointCmds(points, base, scaled, alpha, op, k)| == k
    ensures forall j :: 0 <= j < k ==>
      MidpointCmds(points, base, scaled, alpha, op, k)[j] == StrokePath(SegmentWidth(points, j + 1, base, scaled), alpha, op, 1)
  {
    if k > 0 {
      MidpointAt(points, base, scaled, alpha, op, k - 1);
    }
  }

  lemma {:induction false} OilLayerAt(points: seq<Point>, base: real, scaled: bool, alpha: real, op: CompositeOp, k: nat)
    requires k < |points|
    ensures |OilLayerCmds(points, base, scaled, alpha, op, k)| == k
    ensures forall j :: 0 <= j < k ==>
      OilLayerCmds(points, base, scaled, alpha, op, k)[j] == StrokePath(SegmentWidth(points, j + 1, base, scaled), alpha, op, j + 1)
  {
    if k > 0 {
      OilLayerAt(points, base, scaled, alpha, op, k - 1);
    }
  }

  lemma {:induction false} AngledAt(points: seq<Point>, size: real, scaled: bool, alpha: real, op: CompositeOp,
                                    cosAt: (real, real) -> real, k: nat)
    requires k < |points|
    ensures |AngledCmds(points, size, scaled, alpha, op, cosAt, k)| == k
    ensures forall j :: 0 <= j < k ==>
      AngledCmds(points, size, scaled, alpha, op, cosAt, k)[j] == StrokePath(AngledWidth(points, j + 1, size, scaled, cosAt), alpha, op, 1)
  {
    if k > 0 {
      AngledAt(points, size, scaled, alpha, op, cosAt, k - 1);
    }
  }

  lemma {:induction false} CharcoalAt(size: real, opacity: real, op: CompositeOp, segments: nat, k: nat)
    ensures |CharcoalCmds(size, opacity, op, segments, k)| == k
    ensures forall l :: 0 <= l < k ==> CharcoalCmds(size, opacity, op, segments, k)[l] == CharcoalLayer(size, opacity, op, segments, l)
  {
    if k > 0 {
      CharcoalAt(size, opacity, op, segments, k - 1);
    }
  }

  lemma {:induction false} AirbrushPointAt(opacity: real, op: CompositeOp, rnd: (nat, nat) -> real, i: nat, j: nat)
    ensures |AirbrushPointCmds(opacity, op, rnd, i, j)| == j
    ensures forall q :: 0 <= q < j ==> AirbrushPointCmds(opacity, op, rnd, i, j)[q] == FillPath(DotAlpha(opacity, rnd(i, q)), op, 1)
  {
    if j > 0 {
      AirbrushPointAt(opacity, op, rnd, i, j - 1);
    }
  }

  /** Command k of an airbrush trace is particle k % 20 of point k / 20. */
  lemma {:induction false} AirbrushAt(opacity: real, op: CompositeOp, rnd: (nat, nat) -> real, i: nat)
    ensures |AirbrushCmds(opacity, op, rnd, i)| == AirbrushDensity * i
    ensures forall k :: 0 <= k < AirbrushDensity * i ==>
      AirbrushCmds(opacity, op, rnd, i)[k] == FillPath(DotAlpha(opacity, rnd(k / AirbrushDensity, k % AirbrushDensity)), op, 1)
  {
    if i > 0 {
      AirbrushAt(opacity, op, rnd, i - 1);
      AirbrushPointAt(opacity, op, rnd, i - 1, AirbrushDensity);
      var prefix := AirbrushCmds(opacity, op, rnd, i - 1);
      var last := AirbrushPointCmds(opacity, op, rnd, i - 1, AirbrushDensity);
      forall k | AirbrushDensity * (i - 1) <= k < AirbrushDensity * i
        ensures (prefix + last)[k] == FillPath(DotAlpha(opacity, rnd(k / AirbrushDensity, k % AirbrushDensity)), op, 1)
      {
        var q := k - AirbrushDensity * (i - 1);
        assert k / AirbrushDensity == i - 1 && k % AirbrushDensity == q;
        assert (prefix + last)[k] == last[q];
      }
    }
  }

  // ---------------------------------------------------------------------
  // What each brush draws.

  /** Fewer than two points draw nothing, in a stroke or a preview. */
  lemma ShortInputDrawsNothing(s: Stroke, points: seq<Point>, size: real, opacity: real, brushType: Option<BrushType>,
                               op: CompositeOp, lineWidth: real, cosAt: (real, real) -> real, rnd: (nat, nat) -> real)
    requires |s.points| < 2 && |points| < 2
    ensures StrokeTrace(s, op, cosAt, rnd) == []
    ensures PreviewTrace(points, size, opacity, brushType, op, lineWidth, cosAt, rnd) == []
  {
  }

  /** A stroke without a brush type is drawn exactly as a smooth one. */
  lemma MissingBrushIsSmooth(s: Stroke, op: CompositeOp, cosAt: (real, real) -> real, rnd: (nat, nat) -> real)
    requires s.brushType == None
    ensures StrokeTrace(s, op, cosAt, rnd) == StrokeTrace(s.(brushType := Some(Smooth)), op, cosAt, rnd)
  {
  }

  /** Smooth: one stroke per segment, at the size scaled by the end point's pressure. */
  lemma SmoothSegments(s: Stroke, op: CompositeOp, cosAt: (real, real) -> real, rnd: (nat, nat) -> real)
    requires EffectiveBrush(s) == Smooth && |s.points| >= 2
    ensures |StrokeTrace(s, op, cosAt, rnd)| == |s.points| - 1
    ensures forall j :: 0 <= j < |s.points| - 1 ==>
      StrokeTrace(s, op, cosAt, rnd)[j] == StrokePath(s.size * EffectivePressure(s.points[j + 1].pressure), s.opacity, op, 1)
  {
    MidpointAt(s.points, s.size, true, s.opacity, op, |s.points| - 1);
  }

  /** Watercolor: like smooth at twice the size and 0.4 of the opacity. */
  lemma WatercolorSegments(s: Stroke, op: CompositeOp, cosAt: (real, real) -> real, rnd: (nat, nat) -> real)
    requires EffectiveBrush(s) == Watercolor && |s.points| >= 2
    ensures |StrokeTrace(s, op, cosAt, rnd)| == |s.points| - 1
    ensures forall j :: 0 <= j < |s.points| - 1 ==>
      StrokeTrace(s, op, cosAt, rnd)[j] ==
        StrokePath(s.size * 2.0 * EffectivePressure(s.points[j + 1].pressure), s.opacity * 0.4, op, 1)
  {
    MidpointAt(s.points, s.size * 2.0, true, s.opacity * 0.4, op, |s.points| - 1);
  }

  /** Pencil: three whole-path passes at 0.4 of the size and 0.7 of the opacity. */
  lemma PencilPasses(s: Stroke, op: CompositeOp, cosAt: (real, real) -> real, rnd: (nat, nat) -> real)
    requires EffectiveBrush(s) == Pencil && |s.points| >= 2
    ensures |StrokeTrace(s, op, cosAt, rnd)| == 3
    ensures forall j :: 0 <= j < 3 ==>
      StrokeTrace(s, op, cosAt, rnd)[j] == StrokePath(s.size * 0.4, s.opacity * 0.7, op, |s.points| - 1)
  {
    RepeatSingle(StrokePath(s.size * 0.4, s.opacity * 0.7, op, |s.points| - 1), 3);
  }

  /** Spray: 15 dots per point, all at 0.3 of the opacity. */
  lemma SprayDots(s: Stroke, op: CompositeOp, cosAt: (real, real) -> real, rnd: (nat, nat) -> real)
    requires EffectiveBrush(s) == Spray && |s.points| >= 2
    ensures |StrokeTrace(s, op, cosAt, rnd)| == SprayDensity * |s.points|
    ensures forall j :: 0 <= j < SprayDensity * |s.points| ==>
      StrokeTrace(s, op, cosAt, rnd)[j] == FillPath(s.opacity * 0.3, op, 1)
  {
    RepeatSingle(FillPath(s.opacity * 0.3, op, 1), SprayDensity * |s.points|);
  }

  /** Charcoal: four whole-path layers; each layer is fainter and wider than the one before. */
  lemma CharcoalLayers(s: Stroke, op: CompositeOp, cosAt: (real, real) -> real, rnd: (nat, nat) -> real)
    requires EffectiveBrush(s) == Charcoal && |s.points| >= 2
    ensures |StrokeTrace(s, op, cosAt, rnd)| == 4
    ensures forall l :: 0 <= l < 4 ==>
      StrokeTrace(s, op, cosAt, rnd)[l] ==
        StrokePath(s.size * (1.0 + l as real * 0.3), s.opacity * (0.2 - l as real * 0.04), op, |s.points| - 1)
    ensures s.opacity > 0.0 ==> forall l, m :: 0 <= l < m < 4 ==>
      StrokeTrace(s, op, cosAt, rnd)[m].alpha < StrokeTrace(s, op, cosAt, rnd)[l].alpha
    ensures s.size > 0.0 ==> forall l, m :: 0 <= l < m < 4 ==>
      StrokeTrace(s, op, cosAt, rnd)[l].width < StrokeTrace(s, op, cosAt, rnd)[m].width
  {
    CharcoalTrace(s, op, cosAt, rnd);
    CharcoalCmdsOrdered(s.size, s.opacity, op, |s.points| - 1);
  }

  /** The four charcoal layers as a sequence, with their order facts. */
  lemma CharcoalCmdsOrdered(size: real, opacity: real, op: CompositeOp, segments: nat)
    ensures |CharcoalCmds(size, opacity, op, segments, 4)| == 4
    ensures forall l :: 0 <= l < 4 ==>
      CharcoalCmds(size, opacity, op, segments, 4)[l] ==
        StrokePath(size * (1.0 + l as real * 0.3), opacity * (0.2 - l as real * 0.04), op, segments)
    ensures opacity > 0.0 ==> forall l, m :: 0 <= l < m < 4 ==>
      CharcoalCmds(size, opacity, op, segments, 4)[m].alpha < CharcoalCmds(size, opacity, op, segments, 4)[l].alpha
    ensures size > 0.0 ==> forall l, m :: 0 <= l < m < 4 ==>
      CharcoalCmds(size, opacity, op, segments, 4)[l].width < CharcoalCmds(size, opacity, op, segments, 4)[m].width
  {
    var t := CharcoalCmds(size, opacity, op, segments, 4);
    CharcoalAt(size, opacity, op, segments, 4);
    forall l, m | 0 <= l < m < 4
      ensures opacity > 0.0 ==> t[m].alpha < t[l].alpha
      ensures size > 0.0 ==> t[l].width < t[m].width
    {
      CharcoalLayerOrder(size, opacity, op, segments, l, m);
    }
  }

  lemma CharcoalTrace(s: Stroke, op: CompositeOp, cosAt: (real, real) -> real, rnd: (nat, nat) -> real)
    requires EffectiveBrush(s) == Charcoal && |s.points| >= 2
    ensures StrokeTrace(s, op, cosAt, rnd) == CharcoalCmds(s.size, s.opacity, op, |s.points| - 1, 4)
  {
  }

  lemma CharcoalLayerOrder(size: real, opacity: real, op: CompositeOp, segments: nat, l: nat, m: nat)
    requires l < m < 4
    ensures opacity > 0.0 ==> CharcoalLayer(size, opacity, op, segments, m).alpha < CharcoalLayer(size, opacity, op, segments, l).alpha
    ensures size > 0.0 ==> CharcoalLayer(size, opacity, op, segments, l).width < CharcoalLayer(size, opacity, op, segments, m).width
  {
    if opacity > 0.0 {
      StrictlyScaled(opacity, 0.2 - m as real * 0.04, 0.2 - l as real * 0.04);
    }
    if size > 0.0 {
      StrictlyScaled(size, 1.0 + l as real * 0.3, 1.0 + m as real * 0.3);
    }
  }

  lemma StrictlyScaled(c: real, a: real, b: real)
    requires c > 0.0 && a < b
    ensures c * a < c * b
  {
  }

  /** Calligraphy: one stroke per segment, at the size times the angle
      factor times the end point's pressure; with |cos| <= 1 the factor
      keeps the width between 0.5 and 2.5 times the pressure-scaled size. */
  lemma CalligraphySegments(s: Stroke, op: CompositeOp, cosAt: (real, real) -> real, rnd: (nat, nat) -> real)
    requires EffectiveBrush(s) == Calligraphy && |s.points| >= 2
    ensures |StrokeTrace(s, op, cosAt, rnd)| == |s.points| - 1
    ensures forall j :: 0 <= j < |s.points| - 1 ==>
      StrokeTrace(s, op, cosAt, rnd)[j] == StrokePath(AngledWidth(s.points, j + 1, s.size, true, cosAt), s.opacity, op, 1)
    ensures s.size > 0.0 && (forall dx, dy :: -1.0 <= cosAt(dx, dy) <= 1.0) ==>
      forall j :: 0 <= j < |s.points| - 1 ==>
        var w := s.size * EffectivePressure(s.points[j + 1].pressure);
        w * 0.5 <= StrokeTrace(s, op, cosAt, rnd)[j].width <= w * 2.5
  {
    var t := StrokeTrace(s, op, cosAt, rnd);
    assert t == AngledCmds(s.points, s.size, true, s.opacity, op, cosAt, |s.points| - 1);
    AngledAt(s.points, s.size, true, s.opacity, op, cosAt, |s.points| - 1);
    if s.size > 0.0 && (forall dx, dy :: -1.0 <= cosAt(dx, dy) <= 1.0) {
      forall j | 0 <= j < |s.points| - 1
        ensures var w := s.size * EffectivePressure(s.points[j + 1].pressure);
          w * 0.5 <= t[j].width <= w * 2.5
      {
        AngledWidthBounds(s.points, j + 1, s.size, cosAt);
      }
    }
  }

  /** One calligraphy segment: for a cosine in [-1, 1] the angled width lies
      between 0.5 and 2.5 times the pressure-scaled size. */
  lemma AngledWidthBounds(points: seq<Point>, k: nat, size: real, cosAt: (real, real) -> real)
    requires 1 <= k < |points| && size > 0.0
    requires -1.0 <= cosAt(points[k].x - points[k - 1].x, points[k].y - points[k - 1].y) <= 1.0
    ensures var w := size * EffectivePressure(points[k].pressure);
      w * 0.5 <= AngledWidth(points, k, size, true, cosAt) <= w * 2.5
  {
    var m := CalligraphyMultiplier(cosAt(points[k].x - points[k - 1].x, points[k].y - points[k - 1].y));
    var p := EffectivePressure(points[k].pressure);
    PositiveProduct(size, p);
    ScaledBetween(size * p, m, 0.5, 2.5);
    assert AngledWidth(points, k, size, true, cosAt) == (size * m) * p;
    assert (size * m) * p == (size * p) * m;
  }

  lemma ScaledBetween(w: real, m: real, lo: real, hi: real)
    requires w > 0.0 && lo <= m <= hi
    ensures w * lo <= w * m <= w * hi
  {
  }

  /** Oil: the same layer three times; within a layer the k-th stroke covers
      the first k segments at the size scaled by point k's pressure. */
  lemma OilLayers(s: Stroke, op: CompositeOp, cosAt: (real, real) -> real, rnd: (nat, nat) -> real)
    requires EffectiveBrush(s) == Oil && |s.points| >= 2
    ensures var layer := OilLayerCmds(s.points, s.size, true, s.opacity, op, |s.points| - 1);
      StrokeTrace(s, op, cosAt, rnd) == layer + layer + layer &&
      |layer| == |s.points| - 1 &&
      forall j :: 0 <= j < |s.points| - 1 ==>
        layer[j] == StrokePath(s.size * EffectivePressure(s.points[j + 1].pressure), s.opacity, op, j + 1)
  {
    var n := |s.points|;
    var layer := OilLayerCmds(s.points, s.size, true, s.opacity, op, n - 1);
    OilLayerAt(s.points, s.size, true, s.opacity, op, n - 1);
    forall j | 0 <= j < n - 1
      ensures layer[j] == StrokePath(s.size * EffectivePressure(s.points[j + 1].pressure), s.opacity, op, j + 1)
    {
      assert layer[j] == StrokePath(SegmentWidth(s.points, j + 1, s.size, true), s.opacity, op, j + 1);
    }
    assert Repeat(layer, 1) == layer;
    assert Repeat(layer, 2) == layer + layer;
    assert StrokeTrace(s, op, cosAt, rnd) == Repeat(layer, 3);
  }

  /** Airbrush: 20 dots per point; dot q of point p has alpha
      `opacity * 0.3 * (1 - rnd(p, q))`, which lies in (0, opacity * 0.3]
      for a draw in [0, 1). */
  lemma AirbrushDots(s: Stroke, op: CompositeOp, cosAt: (real, real) -> real, rnd: (nat, nat) -> real)
    requires EffectiveBrush(s) == Airbrush && |s.points| >= 2
    ensures |StrokeTrace(s, op, cosAt, rnd)| == AirbrushDensity * |s.points|
    ensures forall k :: 0 <= k < AirbrushDensity * |s.points| ==>
      StrokeTrace(s, op, cosAt, rnd)[k] == FillPath(DotAlpha(s.opacity, rnd(k / AirbrushDensity, k % AirbrushDensity)), op, 1)
    ensures s.opacity > 0.0 && (forall p, q :: 0.0 <= rnd(p, q) < 1.0) ==>
      forall k :: 0 <= k < AirbrushDensity * |s.points| ==>
        0.0 < StrokeTrace(s, op, cosAt, rnd)[k].alpha <= s.opacity * 0.3
  {
    AirbrushAt(s.opacity, op, rnd, |s.points|);
    if s.opacity > 0.0 && (forall p, q :: 0.0 <= rnd(p, q) < 1.0) {
      forall k | 0 <= k < AirbrushDensity * |s.points|
        ensures 0.0 < StrokeTrace(s, op, cosAt, rnd)[k].alpha <= s.opacity * 0.3
      {
        DotAlphaRange(s.opacity, rnd(k / AirbrushDensity, k % AirbrushDensity));
      }
    }
  }

  lemma DotAlphaRange(opacity: real, u: real)
    requires opacity > 0.0 && 0.0 <= u < 1.0
    ensures 0.0 < DotAlpha(opacity, u) <= opacity * 0.3
  {
    ScaledBetween(opacity * 0.3, 1.0 - u, 0.0, 1.0);
    assert opacity * 0.3 * (1.0 - u) != 0.0;
  }

  /** The number of commands each brush issues for n >= 2 points. */
  function CommandCount(b: BrushType, n: nat): nat
    requires n >= 2
  {
    match b
    case Smooth => n - 1
    case Pencil => 3
    case Marker => 1
    case Spray => 15 * n
    case Calligraphy => n - 1
    case Charcoal => 4
    case Watercolor => n - 1
    case Oil => 3 * (n - 1)
    case InkPen => 1
    case Airbrush => 20 * n
  }

  lemma StrokeTraceCount(s: Stroke, op: CompositeOp, cosAt: (real, real) -> real, rnd: (nat, nat) -> real)
    ensures |s.points| < 2 ==> |StrokeTrace(s, op, cosAt, rnd)| == 0
    ensures |s.points| >= 2 ==> |StrokeTrace(s, op, cosAt, rnd)| == CommandCount(EffectiveBrush(s), |s.points|)
  {
    if |s.points| >= 2 {
      var n := |s.points|;
      match EffectiveBrush(s) {
        case Smooth => SmoothSegments(s, op, cosAt, rnd);
        case Pencil => PencilPasses(s, op, cosAt, rnd);
        case Marker =>
        case Spray => SprayDots(s, op, cosAt, rnd);
        case Calligraphy => CalligraphySegments(s, op, cosAt, rnd);
        case Charcoal => CharcoalLayers(s, op, cosAt, rnd);
        case Watercolor => WatercolorSegments(s, op, cosAt, rnd);
        case Oil => OilLayers(s, op, cosAt, rnd);
        case InkPen =>
        case Airbrush => AirbrushDots(s, op, cosAt, rnd);
      }
    }
  }

  /** Every command of a stroke paints (none clears) in the mode in force. */
  predicate PaintsIn(t: seq<Command>, op: CompositeOp) {
    forall k :: 0 <= k < |t| ==> !t[k].Clear? && t[k].composite == op
  }

  lemma StrokeTracePaintsInMode(s: Stroke, op: CompositeOp, cosAt: (real, real) -> real, rnd: (nat, nat) -> real)
    ensures PaintsIn(StrokeTrace(s, op, cosAt, rnd), op)
  {
    if |s.points| >= 2 {
      match EffectiveBrush(s) {
        case Smooth => SmoothSegments(s, op, cosAt, rnd);
        case Pencil => PencilPasses(s, op, cosAt, rnd);
        case Marker =>
        case Spray => SprayDots(s, op, cosAt, rnd);
        case Calligraphy => CalligraphySegments(s, op, cosAt, rnd);
        case Charcoal => CharcoalLayers(s, op, cosAt, rnd);
        case Watercolor => WatercolorSegments(s, op, cosAt, rnd);
        case Oil => OilLayers(s, op, cosAt, rnd);
        case InkPen =>
        case Airbrush => AirbrushDots(s, op, cosAt, rnd);
      }
    }
  }

  /** Every stroked path in `t` has a positive line width. */
  predicate WidthsPositive(t: seq<Command>) {
    forall k :: 0 <= k < |t| && t[k].StrokePath? ==> t[k].width > 0.0
  }

  /** A positive size never yields a zero or negative line width, whatever
      the recorded pressures: missing pressure counts as full. */
  lemma StrokeWidthsPositive(s: Stroke, op: CompositeOp, cosAt: (real, real) -> real, rnd: (nat, nat) -> real)
    requires s.size > 0.0
    ensures forall k :: 0 <= k < |StrokeTrace(s, op, cosAt, rnd)| && StrokeTrace(s, op, cosAt, rnd)[k].StrokePath? ==>
      StrokeTrace(s, op, cosAt, rnd)[k].width > 0.0
  {
    var b := EffectiveBrush(s);
    if |s.points| >= 2 {
      if b == Smooth || b == Watercolor || b == Calligraphy {
        SegmentWidthsPositive(s, op, cosAt, rnd);
      } else if b == Charcoal || b == Oil {
        LayerWidthsPositive(s, op, cosAt, rnd);
      } else if b == Pencil {
        PencilPasses(s, op, cosAt, rnd);
      } else if b == Spray {
        SprayDots(s, op, cosAt, rnd);
      } else if b == Airbrush {
        AirbrushDots(s, op, cosAt, rnd);
      }
    }
  }

  /** Smooth, watercolor and calligraphy segments have positive widths. */
  lemma SegmentWidthsPositive(s: Stroke, op: CompositeOp, cosAt: (real, real) -> real, rnd: (nat, nat) -> real)
    requires s.size > 0.0 && |s.points| >= 2
    requires EffectiveBrush(s) == Smooth || EffectiveBrush(s) == Watercolor || EffectiveBrush(s) == Calligraphy
    ensures WidthsPositive(StrokeTrace(s, op, cosAt, rnd))
  {
    var t := StrokeTrace(s, op, cosAt, rnd);
    if EffectiveBrush(s) == Smooth {
      SmoothSegments(s, op, cosAt, rnd);
      forall j | 0 <= j < |t| ensures t[j].width > 0.0 {
        PositiveProduct(s.size, EffectivePressure(s.points[j + 1].pressure));
      }
    } else if EffectiveBrush(s) == Watercolor {
      WatercolorSegments(s, op, cosAt, rnd);
      forall j | 0 <= j < |t| ensures t[j].width > 0.0 {
        PositiveProduct(s.size * 2.0, EffectivePressure(s.points[j + 1].pressure));
      }
    } else {
      CalligraphySegments(s, op, cosAt, rnd);
      forall j | 0 <= j < |t| ensures t[j].width > 0.0 {
        var a := s.points[j];
        var b := s.points[j + 1];
        var m := CalligraphyMultiplier(cosAt(b.x - a.x, b.y - a.y));
        PositiveProduct(s.size, m);
        PositiveProduct(s.size * m, EffectivePressure(b.pressure));
      }
    }
  }

  /** Charcoal and oil layers have positive widths. */
  lemma LayerWidthsPositive(s: Stroke, op: CompositeOp, cosAt: (real, real) -> real, rnd: (nat, nat) -> real)
    requires s.size > 0.0 && |s.points| >= 2
    requires EffectiveBrush(s) == Charcoal || EffectiveBrush(s) == Oil
    ensures WidthsPositive(StrokeTrace(s, op, cosAt, rnd))
  {
    var t := StrokeTrace(s, op, cosAt, rnd);
    if EffectiveBrush(s) == Charcoal {
      CharcoalLayers(s, op, cosAt, rnd);
      forall l | 0 <= l < 4 ensures t[l].width > 0.0 {
        PositiveProduct(s.size, 1.0 + l as real * 0.3);
      }
    } else {
      OilLayers(s, op, cosAt, rnd);
      var layer := OilLayerCmds(s.points, s.size, true, s.opacity, op, |s.points| - 1);
      forall j | 0 <= j < |layer| ensures layer[j].width > 0.0 {
        PositiveProduct(s.size, EffectivePressure(s.points[j + 1].pressure));
      }
      assert WidthsPositive(layer);
      WidthsPositiveConcat(layer, layer);
      WidthsPositiveConcat(layer + layer, layer);
    }
  }

  lemma WidthsPositiveConcat(a: seq<Command>, b: seq<Command>)
    requires WidthsPositive(a) && WidthsPositive(b)
    ensures WidthsPositive(a + b)
  {
    forall k | 0 <= k < |a + b| && (a + b)[k].StrokePath? ensures (a + b)[k].width > 0.0 {
      if k >= |a| {
        assert (a + b)[k] == b[k - |a|];
      }
    }
  }

  // ---------------------------------------------------------------------
  // The preview.

  /** Same positions, pressures aside. */
  predicate SameTrack(a: seq<Point>, b: seq<Point>) {
    |a| == |b| && forall i :: 0 <= i < |a| ==> a[i].x == b[i].x && a[i].y == b[i].y
  }

  /** The preview never reads pressure. */
  lemma PreviewIgnoresPressure(a: seq<Point>, b: seq<Point>, size: real, opacity: real, brushType: Option<BrushType>,
                               op: CompositeOp, lineWidth: real, cosAt: (real, real) -> real, rnd: (nat, nat) -> real)
    requires SameTrack(a, b)
    ensures PreviewTrace(a, size, opacity, brushType, op, lineWidth, cosAt, rnd) ==
            PreviewTrace(b, size, opacity, brushType, op, lineWidth, cosAt, rnd)
  {
    if |a| >= 2 {
      var k := |a| - 1;
      match brushType {
        case Some(Calligraphy) => AngledSameTrack(a, b, size, opacity, op, cosAt, k);
        case Some(Watercolor) => MidpointSameCount(a, b, size * 2.0, opacity * 0.4, op, k);
        case Some(Oil) => OilSameCount(a, b, lineWidth, opacity, op, k);
        case _ =>
      }
    }
  }

  /** Unscaled midpoint segments depend on the number of points only. */
  lemma {:induction false} MidpointSameCount(a: seq<Point>, b: seq<Point>, base: real, alpha: real, op: CompositeOp, k: nat)
    requires k < |a| && k < |b|
    ensures MidpointCmds(a, base, false, alpha, op, k) == MidpointCmds(b, base, false, alpha, op, k)
  {
    if k > 0 {
      MidpointSameCount(a, b, base, alpha, op, k - 1);
    }
  }

  /** Unscaled oil layers depend on the number of points only. */
  lemma {:induction false} OilSameCount(a: seq<Point>, b: seq<Point>, base: real, alpha: real, op: CompositeOp, k: nat)
    requires k < |a| && k < |b|
    ensures OilLayerCmds(a, base, false, alpha, op, k) == OilLayerCmds(b, base, false, alpha, op, k)
  {
    if k > 0 {
      OilSameCount(a, b, base, alpha, op, k - 1);
    }
  }

  /** Unscaled calligraphy segments depend on the positions only. */
  lemma {:induction false} AngledSameTrack(a: seq<Point>, b: seq<Point>, size: real, alpha: real, op: CompositeOp,
                                           cosAt: (real, real) -> real, k: nat)
    requires SameTrack(a, b) && k < |a|
    ensures AngledCmds(a, size, false, alpha, op, cosAt, k) == AngledCmds(b, size, false, alpha, op, cosAt, k)
  {
    if k > 0 {
      AngledSameTrack(a, b, size, alpha, op, cosAt, k - 1);
      assert AngledWidth(a, k, size, false, cosAt) == AngledWidth(b, k, size, false, cosAt);
    }
  }

  // ---------------------------------------------------------------------
  // Redrawing: every render makes fresh random draws.

  /** Two commands that are equal, or are both filled dots differing at most in alpha. */
  predicate SameButDotAlpha(c: Command, d: Command) {
    c == d || (c.FillPath? && d.FillPath? && c.composite == d.composite && c.segments == d.segments)
  }

  /** Two traces issuing the same commands, except possibly the alpha of filled dots. */
  predicate SameUpToDotAlphas(t: seq<Command>, u: seq<Command>) {
    |t| == |u| && forall k :: 0 <= k < |t| ==> SameButDotAlpha(t[k], u[k])
  }

  lemma SameUpToDotAlphasConcat(a: seq<Command>, b: seq<Command>, c: seq<Command>, d: seq<Command>)
    requires SameUpToDotAlphas(a, c) && SameUpToDotAlphas(b, d)
    ensures SameUpToDotAlphas(a + b, c + d)
  {
    forall k | 0 <= k < |a + b|
      ensures SameButDotAlpha((a + b)[k], (c + d)[k])
    {
      if k < |a| {
        assert (a + b)[k] == a[k] && (c + d)[k] == c[k];
      } else {
        assert (a + b)[k] == b[k - |a|] && (c + d)[k] == d[k - |a|];
      }
    }
  }

  /** Two runs of the airbrush with different draws: the same dots, alphas aside. */
  lemma AirbrushRedraw(opacity: real, op: CompositeOp, rnd1: (nat, nat) -> real, rnd2: (nat, nat) -> real, n: nat)
    ensures SameUpToDotAlphas(AirbrushCmds(opacity, op, rnd1, n), AirbrushCmds(opacity, op, rnd2, n))
  {
    AirbrushAt(opacity, op, rnd1, n);
    AirbrushAt(opacity, op, rnd2, n);
  }

  /** Redrawing a stroke with other draws changes at most its airbrush dot
      alphas; a stroke of any other brush is redrawn identically. */
  lemma StrokeRedraw(s: Stroke, op: CompositeOp, cosAt: (real, real) -> real, rnd1: (nat, nat) -> real, rnd2: (nat, nat) -> real)
    ensures EffectiveBrush(s) != Airbrush ==> StrokeTrace(s, op, cosAt, rnd1) == StrokeTrace(s, op, cosAt, rnd2)
    ensures SameUpToDotAlphas(StrokeTrace(s, op, cosAt, rnd1), StrokeTrace(s, op, cosAt, rnd2))
  {
    if |s.points| >= 2 && EffectiveBrush(s) == Airbrush {
      AirbrushRedraw(s.opacity, op, rnd1, rnd2, |s.points|);
    }
  }

  /** Pencil, marker, spray, charcoal, ink pen and airbrush preview as they
      render once committed; the preview and the committed render draw their
      own random ratios, so only the airbrush dot alphas may differ. */
  lemma PreviewMatchesStroke(s: Stroke, b: BrushType, op: CompositeOp, lineWidth: real,
                             cosAt: (real, real) -> real, rndPreview: (nat, nat) -> real, rndStroke: (nat, nat) -> real)
    requires b in [Pencil, Marker, Spray, Charcoal, InkPen, Airbrush]
    ensures b != Airbrush ==>
      PreviewTrace(s.points, s.size, s.opacity, Some(b), op, lineWidth, cosAt, rndPreview) ==
      StrokeTrace(s.(brushType := Some(b)), op, cosAt, rndStroke)
    ensures SameUpToDotAlphas(PreviewTrace(s.points, s.size, s.opacity, Some(b), op, lineWidth, cosAt, rndPreview),
                              StrokeTrace(s.(brushType := Some(b)), op, cosAt, rndStroke))
  {
    var committed := s.(brushType := Some(b));
    assert PreviewTrace(s.points, s.size, s.opacity, Some(b), op, lineWidth, cosAt, rndPreview) ==
           StrokeTrace(committed, op, cosAt, rndPreview);
    StrokeRedraw(committed, op, cosAt, rndPreview, rndStroke);
  }

  /** Where every pressure is missing or full, the committed watercolor and
      calligraphy strokes coincide with their previews. */
  lemma UnitPressureMatchesPreview(s: Stroke, b: BrushType, op: CompositeOp, lineWidth: real,
                                   cosAt: (real, real) -> real, rndPreview: (nat, nat) -> real, rndStroke: (nat, nat) -> real)
    requires b == Watercolor || b == Calligraphy
    requires forall i :: 0 <= i < |s.points| ==> EffectivePressure(s.points[i].pressure) == 1.0
    ensures PreviewTrace(s.points, s.size, s.opacity, Some(b), op, lineWidth, cosAt, rndPreview) ==
            StrokeTrace(s.(brushType := Some(b)), op, cosAt, rndStroke)
  {
    var committed := s.(brushType := Some(b));
    StrokeRedraw(committed, op, cosAt, rndPreview, rndStroke);
    if |s.points| >= 2 {
      var k := |s.points| - 1;
      if b == Watercolor {
        assert StrokeTrace(committed, op, cosAt, rndStroke) == MidpointCmds(s.points, s.size * 2.0, true, s.opacity * 0.4, op, k);
        MidpointUnscaled(s.points, s.size * 2.0, s.opacity * 0.4, op, k);
      } else {
        assert StrokeTrace(committed, op, cosAt, rndStroke) == AngledCmds(s.points, s.size, true, s.opacity, op, cosAt, k);
        AngledUnscaled(s.points, s.size, s.opacity, op, cosAt, k);
      }
    }
  }

  /** With every pressure factor 1, pressure scaling leaves midpoint segments unchanged. */
  lemma {:induction false} MidpointUnscaled(points: seq<Point>, base: real, alpha: real, op: CompositeOp, k: nat)
    requires k < |points|
    requires forall i :: 0 <= i < |points| ==> EffectivePressure(points[i].pressure) == 1.0
    ensures MidpointCmds(points, base, true, alpha, op, k) == MidpointCmds(points, base, false, alpha, op, k)
  {
    if k > 0 {
      MidpointUnscaled(points, base, alpha, op, k - 1);
      assert EffectivePressure(points[k].pressure) == 1.0;
    }
  }

  /** With every pressure factor 1, pressure scaling leaves calligraphy segments unchanged. */
  lemma {:induction false} AngledUnscaled(points: seq<Point>, size: real, alpha: real, op: CompositeOp,
                                          cosAt: (real, real) -> real, k: nat)
    requires k < |points|
    requires forall i :: 0 <= i < |points| ==> EffectivePressure(points[i].pressure) == 1.0
    ensures AngledCmds(points, size, true, alpha, op, cosAt, k) == AngledCmds(points, size, false, alpha, op, cosAt, k)
  {
    if k > 0 {
      AngledUnscaled(points, size, alpha, op, cosAt, k - 1);
      assert EffectivePressure(points[k].pressure) == 1.0;
      assert AngledWidth(points, k, size, true, cosAt) == AngledWidth(points, k, size, false, cosAt);
    }
  }
}
