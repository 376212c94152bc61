/** The palm-rejection classifier: decides from the device class and the
    contact size of a pointer-down sample whether it may produce ink. */
module PalmRejection {
  import opened Types

  /** The `pointerType` of a pointer event; only the comparison with "pen" matters. */
  datatype PointerType = PenPointer | TouchPointer | MousePointer

  /** The fields of a pointer event the app reads. */
  datatype PointerSample = PointerSample(
    pointerId: int,
    pointerType: PointerType,
    clientX: real,
    clientY: real,
    width: real,
    height: real,
    pressure: real)

  datatype Decision = Decision(accept: bool, reason: string)

  /** A partial configuration: `None` fields are not supplied. */
  datatype ConfigPatch = ConfigPatch(
    level: Option<PalmRejectionLevel>,
    maxTouchWidth: Option<real>,
    maxTouchHeight: Option<real>,
    requirePressure: Option<bool>,
    debugMode: Option<bool>)

  const StylusDetected := "STYLUS_DETECTED"
  const StylusOnlyMode := "STYLUS_ONLY_MODE"
  const PalmSizeDetected := "PALM_SIZE_DETECTED"
  const ValidTouch := "VALID_TOUCH"

  // ---------------------------------------------------------------------
  // Diagnostic text of a palm rejection: "PALM_SIZE_DETECTED (WxH)" with
  // the dimensions rounded as Math.round does (halves round up).

  function JsRound(x: real): (n: int)
    ensures n as real - 0.5 <= x < n as real + 0.5
  {
    (x + 0.5).Floor
  }

  function DigitChar(d: int): (c: char)
    requires 0 <= d < 10
    ensures '0' <= c <= '9' && (c as int) - ('0' as int) == d
  {
    "0123456789"[d]
  }

  function NatToString(n: nat): (s: string)
    ensures |s| > 0
    ensures forall i :: 0 <= i < |s| ==> '0' <= s[i] <= '9'
    decreases n
  {
    if n < 10 then [DigitChar(n)] else NatToString(n / 10) + [DigitChar(n % 10)]
  }

  /** The value a string of decimal digits denotes. */
  function DigitsValue(s: string): int
    decreases |s|
  {
    if s == [] then 0
    else DigitsValue(s[..|s| - 1]) * 10 + ((s[|s| - 1] as int) - ('0' as int))
  }

  lemma {:induction false} NatToStringRoundTrip(n: nat)
    ensures DigitsValue(NatToString(n)) == n
    decreases n
  {
    if n >= 10 {
      NatToStringRoundTrip(n / 10);
      var s := NatToString(n);
      assert s[..|s| - 1] == NatToString(n / 10);
    }
  }

  /** The decimal rendering of an integer: a leading '-' exactly for a
      negative number, then digits that read back as its magnitude. */
  function IntToString(n: int): (s: string)
    ensures |s| > 0
    ensures s[0] == '-' <==> n < 0
    ensures var digits := if n < 0 then s[1..] else s;
      |digits| > 0 &&
      (forall i :: 0 <= i < |digits| ==> '0' <= digits[i] <= '9') &&
      DigitsValue(digits) == if n < 0 then -n else n
  {
    if n < 0 then
      NatToStringRoundTrip(-n);
      var digits := NatToString(-n);
      assert ("-" + digits)[1..] == digits;
      "-" + digits
    else
      NatToStringRoundTrip(n);
      NatToString(n)
  }

  function PalmReason(width: real, height: real): (r: string)
    ensures |r| > |PalmSizeDetected| && r[..|PalmSizeDetected|] == PalmSizeDetected
  {
    var detail := " (" + IntToString(JsRound(width)) + "x" + IntToString(JsRound(height)) + ")";
    PrefixOfConcat(PalmSizeDetected, detail);
    PalmSizeDetected + detail
  }

  lemma PrefixOfConcat(p: string, rest: string)
    ensures (p + rest)[..|p|] == p
  {
  }

  // ---------------------------------------------------------------------
  // The decision.

  /** The contact-size limits: a named size level fixes them, any other
      level keeps the configured maxima. */
  function Thresholds(cfg: PalmRejectionConfig): (real, real)
  {
    match cfg.level
    case High => (12.0, 12.0)
    case Medium => (20.0, 20.0)
    case Low => (40.0, 40.0)
    case StylusOnly => (cfg.maxTouchWidth, cfg.maxTouchHeight)
  }

  predicate TooLarge(cfg: PalmRejectionConfig, e: PointerSample) {
    e.width > Thresholds(cfg).0 || e.height > Thresholds(cfg).1
  }

  /** The rules in order: stylus, stylus-only mode, contact size, accept. */
  function Classify(cfg: PalmRejectionConfig, e: PointerSample): Decision
  {
    if e.pointerType == PenPointer then Decision(true, StylusDetected)
    else if cfg.level == StylusOnly then Decision(false, StylusOnlyMode)
    else if TooLarge(cfg, e) then Decision(false, PalmReason(e.width, e.height))
    else Decision(true, ValidTouch)
  }

  predicate HasPrefix(s: string, p: string) {
    |p| <= |s| && s[..|p|] == p
  }

  lemma PenAlwaysAccepted(cfg: PalmRejectionConfig, e: PointerSample)
    requires e.pointerType == PenPointer
    ensures Classify(cfg, e) == Decision(true, StylusDetected)
  {
  }

  lemma StylusOnlyRejectsEverythingElse(cfg: PalmRejectionConfig, e: PointerSample)
    requires cfg.level == StylusOnly && e.pointerType != PenPointer
    ensures Classify(cfg, e) == Decision(false, StylusOnlyMode)
  {
  }

  /** The named levels override the configured maxima. */
  lemma NamedLevelThresholds(cfg: PalmRejectionConfig)
    ensures cfg.level == High ==> Thresholds(cfg) == (12.0, 12.0)
    ensures cfg.level == Medium ==> Thresholds(cfg) == (20.0, 20.0)
    ensures cfg.level == Low ==> Thresholds(cfg) == (40.0, 40.0)
    ensures cfg.level != StylusOnly ==>
      forall w, h :: Thresholds(cfg.(maxTouchWidth := w, maxTouchHeight := h)) == Thresholds(cfg)
  {
  }

  /** For a non-pen sample under a size level, the limit is inclusive:
      accepted iff neither dimension exceeds its threshold. */
  lemma SizeRuleIsStrict(cfg: PalmRejectionConfig, e: PointerSample)
    requires e.pointerType != PenPointer && cfg.level != StylusOnly
    ensures Classify(cfg, e).accept <==> e.width <= Thresholds(cfg).0 && e.height <= Thresholds(cfg).1
    ensures !Classify(cfg, e).accept ==> HasPrefix(Classify(cfg, e).reason, PalmSizeDetected)
    ensures Classify(cfg, e).accept ==> Classify(cfg, e).reason == ValidTouch
  {
  }

  /** The worked example: under HIGH a 13-wide touch is a palm, a 12-wide one is not. */
  lemma HighLevelBoundary(cfg: PalmRejectionConfig, e: PointerSample)
    requires cfg.level == High && e.pointerType == TouchPointer && e.height <= 12.0
    ensures e.width == 13.0 ==> !Classify(cfg, e).accept
    ensures e.width == 12.0 ==> Classify(cfg, e) == Decision(true, ValidTouch)
  {
  }

  /** A sample is refused exactly when the reason is stylus-only mode or a palm size. */
  lemma RejectionReasons(cfg: PalmRejectionConfig, e: PointerSample)
    ensures var d := Classify(cfg, e);
      !d.accept <==> (d.reason == StylusOnlyMode || HasPrefix(d.reason, PalmSizeDetected))
    ensures var d := Classify(cfg, e);
      d.accept <==> (d.reason == StylusDetected || d.reason == ValidTouch)
  {
  }

  /** Pressure, requirePressure and debugMode play no part in the decision. */
  lemma DecisionIgnoresPressure(cfg: PalmRejectionConfig, e: PointerSample, p: real, rp: bool, dbg: bool)
    ensures Classify(cfg.(requirePressure := rp, debugMode := dbg), e.(pressure := p)) == Classify(cfg, e)
  {
  }

  // ---------------------------------------------------------------------
  // Configuration updates.

  function Pick<T>(supplied: Option<T>, previous: T): T {
    match supplied
    case Some(v) => v
    case None => previous
  }

  /** Object spread: supplied fields override, the others keep their values. */
  function Merge(cfg: PalmRejectionConfig, patch: ConfigPatch): (r: PalmRejectionConfig)
    ensures patch.level.Some? ==> r.level == patch.level.value
    ensures patch.level.None? ==> r.level == cfg.level
    ensures patch.maxTouchWidth.Some? ==> r.maxTouchWidth == patch.maxTouchWidth.value
    ensures patch.maxTouchWidth.None? ==> r.maxTouchWidth == cfg.maxTouchWidth
    ensures patch.maxTouchHeight.Some? ==> r.maxTouchHeight == patch.maxTouchHeight.value
    ensures patch.maxTouchHeight.None? ==> r.maxTouchHeight == cfg.maxTouchHeight
    ensures patch.requirePressure.Some? ==> r.requirePressure == patch.requirePressure.value
    ensures patch.requirePressure.None? ==> r.requirePressure == cfg.requirePressure
    ensures patch.debugMode.Some? ==> r.debugMode == patch.debugMode.value
    ensures patch.debugMode.None? ==> r.debugMode == cfg.debugMode
  {
    PalmRejectionConfig(
      Pick(patch.level, cfg.level),
      Pick(patch.maxTouchWidth, cfg.maxTouchWidth),
      Pick(patch.maxTouchHeight, cfg.maxTouchHeight),
      Pick(patch.requirePressure, cfg.requirePressure),
      Pick(patch.debugMode, cfg.debugMode))
  }

  /** A patch supplying every field. */
  function FullPatch(cfg: PalmRejectionConfig): ConfigPatch {
    ConfigPatch(Some(cfg.level), Some(cfg.maxTouchWidth), Some(cfg.maxTouchHeight),
                Some(cfg.requirePressure), Some(cfg.debugMode))
  }

  const EmptyPatch := ConfigPatch(None, None, None, None, None)

  /** Later patch wins field by field. */
  function Combine(p: ConfigPatch, q: ConfigPatch): ConfigPatch {
    ConfigPatch(
      if q.level.Some? then q.level else p.level,
      if q.maxTouchWidth.Some? then q.maxTouchWidth else p.maxTouchWidth,
      if q.maxTouchHeight.Some? then q.maxTouchHeight else p.maxTouchHeight,
      if q.requirePressure.Some? then q.requirePressure else p.requirePressure,
      if q.debugMode.Some? then q.debugMode else p.debugMode)
  }

  lemma MergeLaws(cfg: PalmRejectionConfig, other: PalmRejectionConfig, p: ConfigPatch, q: ConfigPatch)
    ensures Merge(cfg, EmptyPatch) == cfg
    ensures Merge(other, FullPatch(cfg)) == cfg
    ensures Merge(Merge(cfg, p), p) == Merge(cfg, p)
    ensures Merge(Merge(cfg, p), q) == Merge(cfg, Combine(p, q))
  {
  }

  class PalmRejectionEngine {
    var config: PalmRejectionConfig

    constructor (config: PalmRejectionConfig)
      ensures this.config == config
    {
      this.config := config;
    }

    method UpdateConfig(newConfig: ConfigPatch)
      modifies this
      ensures config == Merge(old(config), newConfig)
    {
      config := Merge(config, newConfig);
    }

    /** The decision for a sample under the current configuration. */
    method ShouldAcceptEvent(e: PointerSample) returns (d: Decision)
      ensures d == Classify(config, e)
    {
      if e.pointerType == PenPointer {
        return Decision(true, StylusDetected);
      }
      if config.level == StylusOnly {
        return Decision(false, StylusOnlyMode);
      }
      var widthThreshold := config.maxTouchWidth;
      var heightThreshold := config.maxTouchHeight;
      match config.level {
        case High =>
          widthThreshold := 12.0;
          heightThreshold := 12.0;
        case Medium =>
          widthThreshold := 20.0;
          heightThreshold := 20.0;
        case Low =>
          widthThreshold := 40.0;
          heightThreshold := 40.0;
        case StylusOnly =>
      }
      if e.width > widthThreshold || e.height > heightThreshold {
        return Decision(false, PalmReason(e.width, e.height));
      }
      return Decision(true, ValidTouch);
    }
  }
}
