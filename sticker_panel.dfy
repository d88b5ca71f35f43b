/** The sticker picker: a category tab and the handler that drops a free sticker, centred, onto the
    canvas as a new layer. */
module StickerPanel {
  import opened Wrappers
  import opened Text
  import opened EditorTypes
  import A = EditorActions
  import EditorStore
  import Stickers = StickerService

  /** The tab ids, in display order. */
  const CATEGORIES: seq<string> := ["emoji", "doodles", "shapes", "fashion"]

  /** The layer `handleStickerSelect` adds for `sticker`, created at clock reading `now`. */
  function NewStickerLayer(sticker: Stickers.StickerAsset, canvasSize: Size, now: nat): (l: Layer)
    ensures l.id == "sticker_" + NatToDecimal(now) && l.Type() == StickerLayer
    ensures l.visible && !l.locked && l.opacity == 1.0 && l.blendMode == Normal
    ensures l.data == Stickers.CreateStickerLayerData(sticker)
    ensures l.transform == Centered(canvasSize.width, canvasSize.height, sticker.width, sticker.height)
  {
    Layer("sticker_" + NatToDecimal(now), true, false, 1.0, Normal,
          Centered(canvasSize.width, canvasSize.height, sticker.width, sticker.height),
          Stickers.CreateStickerLayerData(sticker))
  }

  /** `handleStickerSelect(sticker)` on the editor state: premium stickers are refused. */
  function SelectSticker(s: EditorState, sticker: Stickers.StickerAsset, now: nat): EditorState {
    if sticker.premium then s else A.AddLayer(s, NewStickerLayer(sticker, s.canvasSize, now), now)
  }

  /** A premium sticker adds nothing; a free one becomes the new top layer, selected, with one history
      entry, and its box is centred on the canvas. */
  lemma SelectStickerEffect(s: EditorState, sticker: Stickers.StickerAsset, now: nat)
    ensures sticker.premium ==> SelectSticker(s, sticker, now) == s
    ensures !sticker.premium ==>
      var r := SelectSticker(s, sticker, now); var l := r.layers[|r.layers| - 1];
      |r.layers| == |s.layers| + 1 && r.layers[..|s.layers|] == s.layers
      && r.activeLayerId == Some(l.id) && l.data.StickerData? && l.data.assetId == sticker.id
      && l.transform.x + sticker.width / 2.0 == s.canvasSize.width / 2.0
      && l.transform.y + sticker.height / 2.0 == s.canvasSize.height / 2.0
      && r.history[|r.history| - 1].action == "Add sticker"
  {
  }

  /** A 60 × 60 sticker on a 1080 × 1080 canvas lands at (510, 510). */
  lemma CenteredExample(s: EditorState, now: nat)
    requires s.canvasSize == Size(1080.0, 1080.0)
    ensures var r := SelectSticker(s, Stickers.GetAllStickers()[0], now);
      r.layers[|r.layers| - 1].transform == Transform(510.0, 510.0, 1.0, 0.0)
  {
  }

  /** The tabs are the catalogue's categories in their first-seen order, and the crown badge on the
      fashion tab is honest: a tab's stickers are premium exactly when the tab is fashion. */
  lemma TabsMatchCatalogue()
    ensures CATEGORIES == Stickers.GetCategories()
    ensures forall c, a | c in CATEGORIES && a in Stickers.GetStickersByCategory(c) :: a.premium <==> c == "fashion"
  {
    Stickers.CategoriesList();
    Stickers.GetAllStickersPremiumIsFashion();
    forall c | c in CATEGORIES
      ensures forall a | a in Stickers.GetStickersByCategory(c) :: a in Stickers.GetAllStickers() && a.category == c
    {
      Stickers.GetStickersByCategoryMembers(c);
    }
  }

  /** The panel component over the store it writes. */
  class Panel {
    var activeCategory: string
    const store: EditorStore.Store

    constructor(store: EditorStore.Store)
      ensures this.store == store && activeCategory == "emoji"
    {
      this.store := store;
      activeCategory := "emoji";
    }

    /** The grid: the catalogue entries of the active category. */
    function ShownStickers(): (r: seq<Stickers.StickerAsset>)
      reads this
      ensures forall a | a in r :: a in Stickers.GetAllStickers() && a.category == activeCategory
      ensures forall a | a in Stickers.GetAllStickers() && a.category == activeCategory :: a in r
    {
      Stickers.GetStickersByCategoryMembers(activeCategory);
      Stickers.GetStickersByCategory(activeCategory)
    }

    method SetActiveCategory(category: string)
      modifies this
      ensures activeCategory == category
    {
      activeCategory := category;
    }

    /** `handleStickerSelect` with `Date.now()` as `now`. */
    method HandleStickerSelect(sticker: Stickers.StickerAsset, now: nat)
      requires store.Valid()
      modifies store
      ensures store.Valid()
      ensures store.State() == SelectSticker(old(store.State()), sticker, now)
    {
      if !sticker.premium {
        var centerX := (store.canvasSize.width - sticker.width) / 2.0;
        var centerY := (store.canvasSize.height - sticker.height) / 2.0;
        var layer := Layer("sticker_" + NatToDecimal(now), true, false, 1.0, Normal,
                           Transform(centerX, centerY, 1.0, 0.0), Stickers.CreateStickerLayerData(sticker));
        assert layer == NewStickerLayer(sticker, store.canvasSize, now);
        store.AddLayer(layer, now);
      }
    }
  }
}
