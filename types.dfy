/** The shared vocabulary of the sketching app: tools, brush variants,
    points, strokes and the palm-rejection configuration. */
module Types {

  datatype Option<T> = None | Some(value: T)

  /** The four drawing tools. */
  datatype ToolType = Pen | Brush | Eraser | Pan

  /** The ten brush variants. */
  datatype BrushType =
    | Smooth | Pencil | Marker | Spray | Calligraphy
    | Charcoal | Watercolor | Oil | InkPen | Airbrush

  /** The export formats offered by the UI. */
  datatype ExportFormat = Png | Jpg | Svg | Pdf

  /** A point in document space (screen position minus the pan offset). */
  datatype Point = Point(x: real, y: real, pressure: real, timestamp: int)

  /** A committed stroke; `brushType` is optional. */
  datatype Stroke = Stroke(
    id: string,
    tool: ToolType,
    brushType: Option<BrushType>,
    color: string,
    size: real,
    opacity: real,
    points: seq<Point>,
    layerId: string)

  /** The four sensitivity levels of the palm-rejection classifier. */
  datatype PalmRejectionLevel = Low | Medium | High | StylusOnly

  datatype PalmRejectionConfig = PalmRejectionConfig(
    level: PalmRejectionLevel,
    maxTouchWidth: real,
    maxTouchHeight: real,
    requirePressure: bool,
    debugMode: bool)

  const AllTools: seq<ToolType> := [Pen, Brush, Eraser, Pan]
  const AllBrushes: seq<BrushType> :=
    [Smooth, Pencil, Marker, Spray, Calligraphy, Charcoal, Watercolor, Oil, InkPen, Airbrush]
  const AllLevels: seq<PalmRejectionLevel> := [Low, Medium, High, StylusOnly]

  /** No value is listed twice. */
  predicate Distinct<T(==)>(s: seq<T>) {
    forall i, j :: 0 <= i < j < |s| ==> s[i] != s[j]
  }

  /** The brush a stroke is rendered with: a missing brush type means smooth. */
  function EffectiveBrush(s: Stroke): (b: BrushType)
    ensures s.brushType.None? ==> b == Smooth
    ensures s.brushType.Some? ==> b == s.brushType.value
  {
    match s.brushType
    case None => Smooth
    case Some(b) => b
  }

  /** Only the pan tool never leaves ink behind. */
  predicate CommitsStrokes(t: ToolType) {
    t != Pan
  }

  lemma EnumerationsAreComplete()
    ensures |AllTools| == 4 && Distinct(AllTools) && forall t: ToolType :: t in AllTools
    ensures |AllBrushes| == 10 && Distinct(AllBrushes) && forall b: BrushType :: b in AllBrushes
    ensures |AllLevels| == 4 && Distinct(AllLevels) && forall l: PalmRejectionLevel :: l in AllLevels
  {
    forall t: ToolType ensures t in AllTools {
      assert t == AllTools[0] || t == AllTools[1] || t == AllTools[2] || t == AllTools[3];
    }
    forall b: BrushType ensures b in AllBrushes {
      assert b == AllBrushes[0] || b == AllBrushes[1] || b == AllBrushes[2] || b == AllBrushes[3] ||
             b == AllBrushes[4] || b == AllBrushes[5] || b == AllBrushes[6] || b == AllBrushes[7] ||
             b == AllBrushes[8] || b == AllBrushes[9];
    }
    forall l: PalmRejectionLevel ensures l in AllLevels {
      assert l == AllLevels[0] || l == AllLevels[1] || l == AllLevels[2] || l == AllLevels[3];
    }
  }
}
