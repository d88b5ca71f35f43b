/** The drawing tool's controls: brush type, size and opacity buttons, a colour swatch row and a
    "Clear All" button. The settings themselves belong to the editor screen; the panel only computes
    the values it hands back to the screen's setters. */
module DrawingPanel {
  import opened EditorTypes

  /** The settings the panel edits: size in points, opacity in percent. */
  datatype BrushSettings = BrushSettings(brushType: BrushType, size: int, opacity: int, color: string)

  datatype BrushEntry = BrushEntry(id: BrushType, name: string)

  const BRUSH_TYPES: seq<BrushEntry> := [
    BrushEntry(Pen, "Pen"),
    BrushEntry(Marker, "Marker"),
    BrushEntry(Pencil, "Pencil"),
    BrushEntry(Eraser, "Eraser")
  ]

  /** White, black, primary, accent, success, error, warning and info. */
  const BRUSH_COLORS: seq<string> := ["#FFFFFF", "#1F2937", "#8B5CF6", "#EC4899", "#10B981", "#EF4444", "#F59E0B", "#3B82F6"]

  const MIN_SIZE := 2
  const MAX_SIZE := 50
  const SIZE_STEP := 2
  const MIN_OPACITY := 10
  const MAX_OPACITY := 100
  const OPACITY_STEP := 10

  /** The size − button: `Math.max(2, brushSize - 2)`. */
  function SizeDown(size: int): (r: int)
    ensures r == size - SIZE_STEP || r == MIN_SIZE
    ensures r >= size - SIZE_STEP && r >= MIN_SIZE
  {
    if size - SIZE_STEP >= MIN_SIZE then size - SIZE_STEP else MIN_SIZE
  }

  /** The size + button: `Math.min(50, brushSize + 2)`. */
  function SizeUp(size: int): (r: int)
    ensures r == size + SIZE_STEP || r == MAX_SIZE
    ensures r <= size + SIZE_STEP && r <= MAX_SIZE
  {
    if size + SIZE_STEP <= MAX_SIZE then size + SIZE_STEP else MAX_SIZE
  }

  /** The opacity − button: `Math.max(10, brushOpacity - 10)`. */
  function OpacityDown(opacity: int): (r: int)
    ensures r == opacity - OPACITY_STEP || r == MIN_OPACITY
    ensures r >= opacity - OPACITY_STEP && r >= MIN_OPACITY
  {
    if opacity - OPACITY_STEP >= MIN_OPACITY then opacity - OPACITY_STEP else MIN_OPACITY
  }

  /** The opacity + button: `Math.min(100, brushOpacity + 10)`. */
  function OpacityUp(opacity: int): (r: int)
    ensures r == opacity + OPACITY_STEP || r == MAX_OPACITY
    ensures r <= opacity + OPACITY_STEP && r <= MAX_OPACITY
  {
    if opacity + OPACITY_STEP <= MAX_OPACITY then opacity + OPACITY_STEP else MAX_OPACITY
  }

  /** Where the buttons keep the settings: an even size in `[2, 50]` and an opacity in `[10, 100]`
      that is a multiple of ten. */
  predicate Valid(b: BrushSettings) {
    MIN_SIZE <= b.size <= MAX_SIZE && b.size % SIZE_STEP == 0
    && MIN_OPACITY <= b.opacity <= MAX_OPACITY && b.opacity % OPACITY_STEP == 0
  }

  /** A press on the panel. */
  datatype Press =
    | SelectBrush(brushType: BrushType)
    | SizeMinus
    | SizePlus
    | OpacityMinus
    | OpacityPlus
    | SelectColor(color: string)
    | ClearAll

  /** The settings after a press: each button hands one new value to one setter. "Clear All" only
      logs a message and changes nothing. */
  function Handle(b: BrushSettings, p: Press): (r: BrushSettings)
    ensures p.ClearAll? ==> r == b
    ensures r.brushType == (if p.SelectBrush? then p.brushType else b.brushType)
    ensures r.color == (if p.SelectColor? then p.color else b.color)
    ensures !(p.SizeMinus? || p.SizePlus?) ==> r.size == b.size
    ensures !(p.OpacityMinus? || p.OpacityPlus?) ==> r.opacity == b.opacity
  {
    match p
    case SelectBrush(t) => b.(brushType := t)
    case SizeMinus => b.(size := SizeDown(b.size))
    case SizePlus => b.(size := SizeUp(b.size))
    case OpacityMinus => b.(opacity := OpacityDown(b.opacity))
    case OpacityPlus => b.(opacity := OpacityUp(b.opacity))
    case SelectColor(c) => b.(color := c)
    case ClearAll => b
  }

  /** Every press keeps the settings in range, and a size or opacity button moves its value by one
      step or leaves it at the end of the range it is already at. */
  lemma HandleKeepsValid(b: BrushSettings, p: Press)
    requires Valid(b)
    ensures Valid(Handle(b, p))
    ensures p.SizeMinus? ==> Handle(b, p).size == (if b.size == MIN_SIZE then b.size else b.size - SIZE_STEP)
    ensures p.SizePlus? ==> Handle(b, p).size == (if b.size == MAX_SIZE then b.size else b.size + SIZE_STEP)
    ensures p.OpacityMinus? ==> Handle(b, p).opacity == (if b.opacity == MIN_OPACITY then b.opacity else b.opacity - OPACITY_STEP)
    ensures p.OpacityPlus? ==> Handle(b, p).opacity == (if b.opacity == MAX_OPACITY then b.opacity else b.opacity + OPACITY_STEP)
  {
  }

  /** The brush list covers every brush type exactly once, so a brush press always selects one of pen,
      marker, pencil or eraser. */
  lemma BrushTypesListed()
    ensures forall t: BrushType :: Position(t) < |BRUSH_TYPES| && BRUSH_TYPES[Position(t)].id == t
    ensures forall i, j | 0 <= i < j < |BRUSH_TYPES| :: BRUSH_TYPES[i].id != BRUSH_TYPES[j].id
  {
  }

  /** The position of a brush type's button. */
  function Position(t: BrushType): nat {
    match t
    case Pen => 0
    case Marker => 1
    case Pencil => 2
    case Eraser => 3
  }

  /** `n` presses of the size + button. */
  function SizeUpTimes(size: int, n: nat): int
    decreases n
  {
    if n == 0 then size else SizeUpTimes(SizeUp(size), n - 1)
  }

  /** `n` presses of the size − button. */
  function SizeDownTimes(size: int, n: nat): int
    decreases n
  {
    if n == 0 then size else SizeDownTimes(SizeDown(size), n - 1)
  }

  /** From an in-range size, `n` presses of + give `min(50, size + 2n)`: the size climbs in steps of
      two and stops at the top. */
  lemma {:induction false} SizeUpSteps(size: int, n: nat)
    requires MIN_SIZE <= size <= MAX_SIZE
    ensures SizeUpTimes(size, n) == (if size + SIZE_STEP * n <= MAX_SIZE then size + SIZE_STEP * n else MAX_SIZE)
    decreases n
  {
    if n > 0 {
      SizeUpSteps(SizeUp(size), n - 1);
      if size + SIZE_STEP <= MAX_SIZE {
        assert SizeUp(size) + SIZE_STEP * (n - 1) == size + SIZE_STEP * n;
      } else {
        assert SizeUp(size) == MAX_SIZE;
      }
    }
  }

  /** From an in-range size, `n` presses of − give `max(2, size - 2n)`. */
  lemma {:induction false} SizeDownSteps(size: int, n: nat)
    requires MIN_SIZE <= size <= MAX_SIZE
    ensures SizeDownTimes(size, n) == (if size - SIZE_STEP * n >= MIN_SIZE then size - SIZE_STEP * n else MIN_SIZE)
    decreases n
  {
    if n > 0 {
      SizeDownSteps(SizeDown(size), n - 1);
      if size - SIZE_STEP >= MIN_SIZE {
        assert SizeDown(size) - SIZE_STEP * (n - 1) == size - SIZE_STEP * n;
      } else {
        assert SizeDown(size) == MIN_SIZE;
      }
    }
  }
}
