/** The text tool: the add handler that measures, centres and adds a text layer, and the font-size
    buttons. */
module TextPanel {
  import opened Wrappers
  import opened Text
  import opened EditorTypes
  import opened Numbers
  import A = EditorActions
  import EditorStore

  const FONTS: seq<string> := ["System", "Helvetica", "Times", "Courier"]

  const WHITE := "#FFFFFF"

  /** The text input's `maxLength`. */
  const MAX_TEXT_LENGTH := 100

  const MIN_FONT_SIZE: real := 12.0
  const MAX_FONT_SIZE: real := 72.0

  /** The rough measure of `handleAddText`: 0.6 em per character of the untrimmed input. */
  function TextWidth(text: string, fontSize: real): real {
    (|text| as real) * (fontSize * 0.6)
  }

  function TextHeight(fontSize: real): real {
    fontSize * 1.2
  }

  /** The layer `handleAddText` adds at clock reading `now`. */
  function NewTextLayer(text: string, font: string, color: string, fontSize: real, canvasSize: Size, now: nat): (l: Layer)
    ensures l.id == "text_" + NatToDecimal(now) && l.visible && !l.locked && l.opacity == 1.0 && l.blendMode == Normal
    ensures l.data == TextData(Trim(text), font, fontSize, color, PLAIN_STYLE,
                               Some(TextWidth(text, fontSize)), Some(TextHeight(fontSize)))
    ensures l.transform == Centered(canvasSize.width, canvasSize.height, TextWidth(text, fontSize), TextHeight(fontSize))
  {
    var w, h := TextWidth(text, fontSize), TextHeight(fontSize);
    Layer("text_" + NatToDecimal(now), true, false, 1.0, Normal, Centered(canvasSize.width, canvasSize.height, w, h),
          TextData(Trim(text), font, fontSize, color, PLAIN_STYLE, Some(w), Some(h)))
  }

  /** `handleAddText` on the editor state: input that is blank after trimming adds nothing. */
  function AddText(s: EditorState, text: string, font: string, color: string, fontSize: real, now: nat): EditorState {
    if Trim(text) == "" then s else A.AddLayer(s, NewTextLayer(text, font, color, fontSize, s.canvasSize, now), now)
  }

  /** Whitespace-only input adds nothing. Anything else adds one selected text layer holding the
      trimmed text, measured on the untrimmed input and centred on the canvas. */
  lemma AddTextEffect(s: EditorState, text: string, font: string, color: string, fontSize: real, now: nat)
    ensures Trim(text) == "" <==> forall i | 0 <= i < |text| :: IsSpace(text[i])
    ensures Trim(text) == "" ==> AddText(s, text, font, color, fontSize, now) == s
    ensures Trim(text) != "" ==>
      var r := AddText(s, text, font, color, fontSize, now); var l := r.layers[|r.layers| - 1];
      |r.layers| == |s.layers| + 1 && r.layers[..|s.layers|] == s.layers && r.activeLayerId == Some(l.id)
      && l.data.TextData? && l.data.text == Trim(text) && l.data.text != ""
      && l.data.textWidth == Some((|text| as real) * fontSize * 0.6) && l.data.textHeight == Some(fontSize * 1.2)
      && l.transform.x + (|text| as real) * fontSize * 0.3 == s.canvasSize.width / 2.0
      && l.transform.y + fontSize * 0.6 == s.canvasSize.height / 2.0
      && r.history[|r.history| - 1].action == "Add text"
  {
    TrimEmptyIffAllSpace(text);
    if Trim(text) != "" {
      AddedText(s, text, font, color, fontSize, now);
    }
  }

  /** The layer added for input that is not blank. */
  lemma AddedText(s: EditorState, text: string, font: string, color: string, fontSize: real, now: nat)
    requires Trim(text) != ""
    ensures var r := AddText(s, text, font, color, fontSize, now); var l := r.layers[|r.layers| - 1];
      |r.layers| == |s.layers| + 1 && r.layers[..|s.layers|] == s.layers && r.activeLayerId == Some(l.id)
      && l.data.TextData? && l.data.text == Trim(text) && l.data.text != ""
      && l.data.textWidth == Some((|text| as real) * fontSize * 0.6) && l.data.textHeight == Some(fontSize * 1.2)
      && l.transform.x + (|text| as real) * fontSize * 0.3 == s.canvasSize.width / 2.0
      && l.transform.y + fontSize * 0.6 == s.canvasSize.height / 2.0
      && r.history[|r.history| - 1].action == "Add text"
  {
    var l := NewTextLayer(text, font, color, fontSize, s.canvasSize, now);
    assert AddText(s, text, font, color, fontSize, now) == A.AddLayer(s, l, now);
    TextLayerFacts(text, font, color, fontSize, s.canvasSize, now);
  }

  /** The measured, centred text layer, and its history label. */
  lemma TextLayerFacts(text: string, font: string, color: string, fontSize: real, canvasSize: Size, now: nat)
    ensures var l := NewTextLayer(text, font, color, fontSize, canvasSize, now);
      l.data.TextData? && l.data.text == Trim(text)
      && l.data.textWidth == Some((|text| as real) * fontSize * 0.6) && l.data.textHeight == Some(fontSize * 1.2)
      && l.transform.x + (|text| as real) * fontSize * 0.3 == canvasSize.width / 2.0
      && l.transform.y + fontSize * 0.6 == canvasSize.height / 2.0
      && A.AddLabel(l) == "Add text"
  {
    var l := NewTextLayer(text, font, color, fontSize, canvasSize, now);
    assert l.Type() == TextLayer;
  }

  /** The selection box of an added text layer is its measured size, so it matches the hit box. */
  lemma MeasuredBoxIsUsed(text: string, font: string, color: string, fontSize: real, canvasSize: Size, now: nat)
    requires fontSize > 0.0 && |text| > 0
    ensures var l := NewTextLayer(text, font, color, fontSize, canvasSize, now);
      OrDefault(l.data.textWidth, 120.0) == TextWidth(text, fontSize) && OrDefault(l.data.textHeight, 40.0) == TextHeight(fontSize)
  {
    var l := NewTextLayer(text, font, color, fontSize, canvasSize, now);
    var w := TextWidth(text, fontSize);
    assert w > 0.0 by {
      PositiveProduct(|text| as real, fontSize * 0.6);
    }
    assert l.data.textWidth == Some(w);
  }

  lemma PositiveProduct(a: real, b: real)
    requires a > 0.0 && b > 0.0
    ensures a * b > 0.0
  {
  }

  /** The − button: `Math.max(12, fontSize - 4)`, 4 points smaller but never below the minimum. */
  function DecreaseFontSize(fontSize: real): (r: real)
    ensures r == fontSize - 4.0 || r == MIN_FONT_SIZE
    ensures r >= fontSize - 4.0 && r >= MIN_FONT_SIZE
    ensures MIN_FONT_SIZE <= fontSize <= MAX_FONT_SIZE ==> MIN_FONT_SIZE <= r <= MAX_FONT_SIZE
  {
    Max(MIN_FONT_SIZE, fontSize - 4.0)
  }

  /** The + button: `Math.min(72, fontSize + 4)`, 4 points larger but never above the maximum. */
  function IncreaseFontSize(fontSize: real): (r: real)
    ensures r == fontSize + 4.0 || r == MAX_FONT_SIZE
    ensures r <= fontSize + 4.0 && r <= MAX_FONT_SIZE
    ensures MIN_FONT_SIZE <= fontSize <= MAX_FONT_SIZE ==> MIN_FONT_SIZE <= r <= MAX_FONT_SIZE
  {
    Min(MAX_FONT_SIZE, fontSize + 4.0)
  }

  /** The panel component: its input and selections, over the store it writes. */
  class Panel {
    var text: string
    var selectedFont: string
    var selectedColor: string
    var fontSize: real
    const store: EditorStore.Store

    predicate Valid()
      reads this
    {
      MIN_FONT_SIZE <= fontSize <= MAX_FONT_SIZE && |text| <= MAX_TEXT_LENGTH
    }

    constructor(store: EditorStore.Store)
      ensures this.store == store && text == "" && selectedFont == "System" && selectedColor == WHITE
      ensures fontSize == 32.0 && Valid()
    {
      this.store := store;
      text := "";
      selectedFont := "System";
      selectedColor := WHITE;
      fontSize := 32.0;
    }

    /** `onChangeText`: the input keeps at most its first 100 characters. */
    method SetText(t: string)
      modifies this
      requires Valid()
      ensures text == (if |t| <= MAX_TEXT_LENGTH then t else t[..MAX_TEXT_LENGTH]) && Valid()
      ensures selectedFont == old(selectedFont) && selectedColor == old(selectedColor) && fontSize == old(fontSize)
    {
      text := if |t| <= MAX_TEXT_LENGTH then t else t[..MAX_TEXT_LENGTH];
    }

    /** A font button. */
    method SelectFont(font: string)
      modifies this
      requires Valid()
      ensures selectedFont == font && Valid()
      ensures text == old(text) && selectedColor == old(selectedColor) && fontSize == old(fontSize)
    {
      selectedFont := font;
    }

    /** A colour swatch. */
    method SelectColor(color: string)
      modifies this
      requires Valid()
      ensures selectedColor == color && Valid()
      ensures text == old(text) && selectedFont == old(selectedFont) && fontSize == old(fontSize)
    {
      selectedColor := color;
    }

    /** `handleAddText` with `Date.now()` as `now`; the alert for blank input is not modelled. */
    method HandleAddText(now: nat)
      requires store.Valid()
      modifies this, store
      ensures store.Valid()
      requires Valid()
      ensures Valid()
      ensures store.State() == AddText(old(store.State()), old(text), selectedFont, selectedColor, fontSize, now)
      ensures text == (if Trim(old(text)) == "" then old(text) else "")
      ensures selectedFont == old(selectedFont) && selectedColor == old(selectedColor) && fontSize == old(fontSize)
    {
      var input := text;
      if Trim(input) == "" {
        return;
      }
      var layer := NewTextLayer(input, selectedFont, selectedColor, fontSize, store.canvasSize, now);
      store.AddLayer(layer, now);
      text := "";
    }

    method DecreaseFont()
      modifies this
      requires Valid()
      ensures fontSize == DecreaseFontSize(old(fontSize)) && Valid()
      ensures text == old(text) && selectedFont == old(selectedFont) && selectedColor == old(selectedColor)
    {
      fontSize := Max(MIN_FONT_SIZE, fontSize - 4.0);
    }

    method IncreaseFont()
      modifies this
      requires Valid()
      ensures fontSize == IncreaseFontSize(old(fontSize)) && Valid()
      ensures text == old(text) && selectedFont == old(selectedFont) && selectedColor == old(selectedColor)
    {
      fontSize := Min(MAX_FONT_SIZE, fontSize + 4.0);
    }
  }
}
