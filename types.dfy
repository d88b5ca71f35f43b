/** The editor's data model: layers and their content, applied filters, the adjustment vector and the
    editor state with its history of snapshots. */
module EditorTypes {
  import opened Wrappers

  datatype BlendMode = Normal | Multiply | Screen | Overlay | Darken | Lighten

  datatype LayerType = ImageLayer | StickerLayer | TextLayer | DrawingLayer {
    /** The string the source uses for the layer type, e.g. in history labels. */
    function Name(): string {
      match this
      case ImageLayer => "image"
      case StickerLayer => "sticker"
      case TextLayer => "text"
      case DrawingLayer => "drawing"
    }
  }

  /** Position, uniform scale and rotation (radians) of a layer's content. */
  datatype Transform = Transform(x: real, y: real, scale: real, rotation: real)

  const IDENTITY: Transform := Transform(0.0, 0.0, 1.0, 0.0)

  /** The unscaled, unrotated position that centres a `width × height` box on a canvas of
      `canvasWidth × canvasHeight`: `((canvasWidth - width) / 2, (canvasHeight - height) / 2)`. */
  function Centered(canvasWidth: real, canvasHeight: real, width: real, height: real): (t: Transform)
    ensures t.x + width / 2.0 == canvasWidth / 2.0 && t.y + height / 2.0 == canvasHeight / 2.0
    ensures t.scale == 1.0 && t.rotation == 0.0
  {
    Transform((canvasWidth - width) / 2.0, (canvasHeight - height) / 2.0, 1.0, 0.0)
  }

  /** A touch sample; `pressure` is optional in the source. */
  datatype Point = Point(x: real, y: real, pressure: Option<real>)

  datatype BrushType = Pen | Marker | Pencil | Eraser

  datatype DrawingStroke = DrawingStroke(
    id: string,
    points: seq<Point>,
    brushType: BrushType,
    color: string,
    size: real,
    opacity: real,
    timestamp: nat)

  datatype StickerSourceType = EmojiSource

  datatype TextStyle = TextStyle(bold: bool, italic: bool, underline: bool, strikethrough: bool)

  const PLAIN_STYLE: TextStyle := TextStyle(false, false, false, false)

  /** The type-specific payload of a layer; the constructor is the layer's type. */
  datatype LayerData =
    | ImageData(path: string, width: real, height: real)
    | StickerData(assetId: string, sourceType: StickerSourceType, emoji: Option<string>, width: real, height: real)
    | TextData(text: string, font: string, fontSize: real, color: string, style: TextStyle,
               textWidth: Option<real>, textHeight: Option<real>)
    | DrawingData(strokes: seq<DrawingStroke>)

  datatype Layer = Layer(
    id: string,
    visible: bool,
    locked: bool,
    opacity: real,
    blendMode: BlendMode,
    transform: Transform,
    data: LayerData)
  {
    function Type(): LayerType {
      match data
      case ImageData(_, _, _) => ImageLayer
      case StickerData(_, _, _, _, _) => StickerLayer
      case TextData(_, _, _, _, _, _, _) => TextLayer
      case DrawingData(_) => DrawingLayer
    }
  }

  /** `v || fallback` for an optional number: absent or 0 selects the fallback. */
  function OrDefault(v: Option<real>, fallback: real): (r: real)
    ensures (v == None || v == Some(0.0)) ==> r == fallback
    ensures v.Some? && v.value != 0.0 ==> r == v.value
  {
    if v.None? || v.value == 0.0 then fallback else v.value
  }

  /** A decoded bitmap (`SkImage`), opaque except for its pixel size. */
  datatype Image = Image(handle: nat, width: nat, height: nat)

  datatype AppliedFilter = AppliedFilter(id: string, name: string, intensity: real)

  datatype AdjustmentKey =
    | Brightness | Contrast | Saturation | Temperature | Tint | Exposure | Highlights | Shadows
    | Whites | Blacks | Sharpness | Clarity | Vibrance | Grain | Vignette
  {
    function Name(): string {
      match this
      case Brightness => "brightness"
      case Contrast => "contrast"
      case Saturation => "saturation"
      case Temperature => "temperature"
      case Tint => "tint"
      case Exposure => "exposure"
      case Highlights => "highlights"
      case Shadows => "shadows"
      case Whites => "whites"
      case Blacks => "blacks"
      case Sharpness => "sharpness"
      case Clarity => "clarity"
      case Vibrance => "vibrance"
      case Grain => "grain"
      case Vignette => "vignette"
    }
  }

  /** The fifteen tonal channels. */
  datatype Adjustment = Adjustment(
    brightness: real, contrast: real, saturation: real, temperature: real, tint: real,
    exposure: real, highlights: real, shadows: real, whites: real, blacks: real,
    sharpness: real, clarity: real, vibrance: real, grain: real, vignette: real)
  {
    /** `adjustments[key]` */
    function Get(key: AdjustmentKey): real {
      match key
      case Brightness => brightness
      case Contrast => contrast
      case Saturation => saturation
      case Temperature => temperature
      case Tint => tint
      case Exposure => exposure
      case Highlights => highlights
      case Shadows => shadows
      case Whites => whites
      case Blacks => blacks
      case Sharpness => sharpness
      case Clarity => clarity
      case Vibrance => vibrance
      case Grain => grain
      case Vignette => vignette
    }

    /** `{ ...adjustments, [key]: value }`: only the named channel changes. */
    function With(key: AdjustmentKey, value: real): (r: Adjustment)
      ensures r.Get(key) == value
      ensures forall k: AdjustmentKey | k != key :: r.Get(k) == Get(k)
    {
      match key
      case Brightness => this.(brightness := value)
      case Contrast => this.(contrast := value)
      case Saturation => this.(saturation := value)
      case Temperature => this.(temperature := value)
      case Tint => this.(tint := value)
      case Exposure => this.(exposure := value)
      case Highlights => this.(highlights := value)
      case Shadows => this.(shadows := value)
      case Whites => this.(whites := value)
      case Blacks => this.(blacks := value)
      case Sharpness => this.(sharpness := value)
      case Clarity => this.(clarity := value)
      case Vibrance => this.(vibrance := value)
      case Grain => this.(grain := value)
      case Vignette => this.(vignette := value)
    }
  }

  /** DEFAULT_ADJUSTMENTS: every channel 0. */
  const DEFAULT_ADJUSTMENTS: Adjustment :=
    Adjustment(0.0, 0.0, 0.0, 0.0, 0.0, 0.0, 0.0, 0.0, 0.0, 0.0, 0.0, 0.0, 0.0, 0.0, 0.0)

  lemma DefaultAdjustmentsAllZero(k: AdjustmentKey)
    ensures DEFAULT_ADJUSTMENTS.Get(k) == 0.0
  {
  }

  /** Two adjustment records that agree on every channel are equal. */
  lemma AdjustmentExtensional(a: Adjustment, b: Adjustment)
    requires forall k: AdjustmentKey :: a.Get(k) == b.Get(k)
    ensures a == b
  {
    assert a.Get(Brightness) == b.Get(Brightness) && a.Get(Contrast) == b.Get(Contrast);
    assert a.Get(Saturation) == b.Get(Saturation) && a.Get(Temperature) == b.Get(Temperature);
    assert a.Get(Tint) == b.Get(Tint) && a.Get(Exposure) == b.Get(Exposure);
    assert a.Get(Highlights) == b.Get(Highlights) && a.Get(Shadows) == b.Get(Shadows);
    assert a.Get(Whites) == b.Get(Whites) && a.Get(Blacks) == b.Get(Blacks);
    assert a.Get(Sharpness) == b.Get(Sharpness) && a.Get(Clarity) == b.Get(Clarity);
    assert a.Get(Vibrance) == b.Get(Vibrance) && a.Get(Grain) == b.Get(Grain);
    assert a.Get(Vignette) == b.Get(Vignette);
  }

  datatype Size = Size(width: real, height: real)

  datatype Vec = Vec(x: real, y: real)

  /** The whole editor state. */
  datatype EditorState = EditorState(
    layers: seq<Layer>,
    activeLayerId: Option<string>,
    canvasSize: Size,
    zoom: real,
    pan: Vec,
    history: seq<HistoryState>,
    historyIndex: int,
    filters: seq<AppliedFilter>,
    adjustments: Adjustment)

  /** One entry of the undo history; `editorState` is the state at commit time, history included. */
  datatype HistoryState = HistoryState(id: string, timestamp: nat, action: string, editorState: EditorState)
}
