/** The sticker catalogue: 30 free and 5 premium emoji stickers and the queries over them. */
module StickerService {
  import opened Wrappers
  import opened EditorTypes
  import opened Seqs

  datatype StickerAsset = StickerAsset(
    id: string,
    name: string,
    category: string,
    emoji: Option<string>,
    premium: bool,
    width: real,
    height: real)

  /** The free packs (emoji, doodles, shapes), in declaration order. */
  const FREE_STICKERS: seq<StickerAsset> := [
    StickerAsset("emoji_heart", "Heart", "emoji", Some("\U{2764}\U{FE0F}"), false, 60.0, 60.0),
    StickerAsset("emoji_star", "Star", "emoji", Some("\U{2B50}"), false, 60.0, 60.0),
    StickerAsset("emoji_fire", "Fire", "emoji", Some("\U{1F525}"), false, 60.0, 60.0),
    StickerAsset("emoji_sparkles", "Sparkles", "emoji", Some("\U{2728}"), false, 60.0, 60.0),
    StickerAsset("emoji_rainbow", "Rainbow", "emoji", Some("\U{1F308}"), false, 80.0, 60.0),
    StickerAsset("emoji_sun", "Sun", "emoji", Some("\U{2600}\U{FE0F}"), false, 60.0, 60.0),
    StickerAsset("emoji_moon", "Moon", "emoji", Some("\U{1F319}"), false, 60.0, 60.0),
    StickerAsset("emoji_lightning", "Lightning", "emoji", Some("\U{26A1}"), false, 60.0, 60.0),
    StickerAsset("emoji_crown", "Crown", "emoji", Some("\U{1F451}"), false, 60.0, 60.0),
    StickerAsset("emoji_gem", "Gem", "emoji", Some("\U{1F48E}"), false, 60.0, 60.0),
    StickerAsset("doodle_arrow", "Arrow", "doodles", Some("\U{27A1}\U{FE0F}"), false, 80.0, 40.0),
    StickerAsset("doodle_check", "Check", "doodles", Some("\U{2705}"), false, 60.0, 60.0),
    StickerAsset("doodle_x", "X Mark", "doodles", Some("\U{274C}"), false, 60.0, 60.0),
    StickerAsset("doodle_question", "Question", "doodles", Some("\U{2753}"), false, 60.0, 60.0),
    StickerAsset("doodle_exclamation", "Exclamation", "doodles", Some("\U{2757}"), false, 60.0, 60.0),
    StickerAsset("doodle_heart_eyes", "Heart Eyes", "doodles", Some("\U{1F60D}"), false, 60.0, 60.0),
    StickerAsset("doodle_thumbs_up", "Thumbs Up", "doodles", Some("\U{1F44D}"), false, 60.0, 60.0),
    StickerAsset("doodle_peace", "Peace", "doodles", Some("\U{270C}\U{FE0F}"), false, 60.0, 60.0),
    StickerAsset("doodle_ok", "OK Hand", "doodles", Some("\U{1F44C}"), false, 60.0, 60.0),
    StickerAsset("doodle_clap", "Clap", "doodles", Some("\U{1F44F}"), false, 60.0, 60.0),
    StickerAsset("shape_circle", "Circle", "shapes", Some("\U{2B55}"), false, 60.0, 60.0),
    StickerAsset("shape_square", "Square", "shapes", Some("\U{2B1C}"), false, 60.0, 60.0),
    StickerAsset("shape_triangle", "Triangle", "shapes", Some("\U{1F53A}"), false, 60.0, 60.0),
    StickerAsset("shape_diamond", "Diamond", "shapes", Some("\U{1F536}"), false, 60.0, 60.0),
    StickerAsset("shape_hexagon", "Hexagon", "shapes", Some("\U{2B21}"), false, 60.0, 60.0),
    StickerAsset("shape_star_outline", "Star Outline", "shapes", Some("\U{2606}"), false, 60.0, 60.0),
    StickerAsset("shape_heart_outline", "Heart Outline", "shapes", Some("\U{2661}"), false, 60.0, 60.0),
    StickerAsset("shape_plus", "Plus", "shapes", Some("\U{2795}"), false, 60.0, 60.0),
    StickerAsset("shape_minus", "Minus", "shapes", Some("\U{2796}"), false, 60.0, 60.0),
    StickerAsset("shape_multiply", "Multiply", "shapes", Some("\U{2716}\U{FE0F}"), false, 60.0, 60.0)
  ]

  /** The premium fashion pack. */
  const PREMIUM_STICKERS: seq<StickerAsset> := [
    StickerAsset("fashion_sunglasses", "Sunglasses", "fashion", Some("\U{1F576}\U{FE0F}"), true, 80.0, 40.0),
    StickerAsset("fashion_lipstick", "Lipstick", "fashion", Some("\U{1F484}"), true, 40.0, 80.0),
    StickerAsset("fashion_heels", "High Heels", "fashion", Some("\U{1F460}"), true, 60.0, 80.0),
    StickerAsset("fashion_dress", "Dress", "fashion", Some("\U{1F457}"), true, 60.0, 80.0),
    StickerAsset("fashion_handbag", "Handbag", "fashion", Some("\U{1F45C}"), true, 60.0, 60.0)
  ]

  /** `getAllStickers()`: the free stickers, then the premium ones. */
  function GetAllStickers(): (r: seq<StickerAsset>)
    ensures |r| == 35 && r[..30] == FREE_STICKERS && r[30..] == PREMIUM_STICKERS
  {
    FREE_STICKERS + PREMIUM_STICKERS
  }

  /** `getFreeStickers()`: none of them is premium. */
  function GetFreeStickers(): (r: seq<StickerAsset>)
    ensures |r| == 30 && forall i | 0 <= i < |r| :: !r[i].premium
  {
    FREE_STICKERS
  }

  /** `getPremiumStickers()`: all of them are premium. */
  function GetPremiumStickers(): (r: seq<StickerAsset>)
    ensures |r| == 5 && forall i | 0 <= i < |r| :: r[i].premium
  {
    PREMIUM_STICKERS
  }

  function CategoryIs(category: string): StickerAsset -> bool {
    (a: StickerAsset) => a.category == category
  }

  /** `getStickersByCategory(category)`: the catalogue entries of that category, in catalogue order. */
  function GetStickersByCategory(category: string): seq<StickerAsset> {
    Filter(GetAllStickers(), CategoryIs(category))
  }

  /** The stickers of a category are exactly the catalogue entries of that category. */
  lemma GetStickersByCategoryMembers(category: string)
    ensures forall a | a in GetStickersByCategory(category) :: a in GetAllStickers() && a.category == category
    ensures forall a | a in GetAllStickers() && a.category == category :: a in GetStickersByCategory(category)
  {
    FilterMembers(GetAllStickers(), CategoryIs(category));
  }

  function IdIs(id: string): StickerAsset -> bool {
    (a: StickerAsset) => a.id == id
  }

  /** `getStickerById(id)`: the first entry with that id, or null. */
  function GetStickerById(id: string): Option<StickerAsset> {
    Find(GetAllStickers(), IdIs(id))
  }

  /** The sticker found for an id is a catalogue entry with that id, and none is found exactly when
      no entry has that id. */
  lemma GetStickerByIdFinds(id: string)
    ensures var r := GetStickerById(id);
      r.Some? ==> r.value.id == id && exists i | 0 <= i < |GetAllStickers()| :: GetAllStickers()[i] == r.value
    ensures GetStickerById(id).None? <==> forall i | 0 <= i < |GetAllStickers()| :: GetAllStickers()[i].id != id
  {
  }

  /** The letter each pack's ids start with: `e`moji, `d`oodle, `s`hape and `f`ashion. */
  function PackLetter(i: nat): char {
    if i < 10 then 'e' else if i < 20 then 'd' else if i < 30 then 's' else 'f'
  }

  lemma IdLetters()
    ensures forall i | 0 <= i < 35 :: |GetAllStickers()[i].id| > 0 && GetAllStickers()[i].id[0] == PackLetter(i)
  {
  }

  /** The ids within each pack differ. */
  lemma DistinctWithinEmoji()
    ensures forall i, j | 0 <= i < j < 10 :: GetAllStickers()[i].id != GetAllStickers()[j].id
  {
  }

  lemma DistinctWithinDoodles()
    ensures forall i, j | 10 <= i < j < 20 :: GetAllStickers()[i].id != GetAllStickers()[j].id
  {
  }

  lemma DistinctWithinShapes()
    ensures forall i, j | 20 <= i < j < 30 :: GetAllStickers()[i].id != GetAllStickers()[j].id
  {
  }

  lemma DistinctWithinFashion()
    ensures forall i, j | 30 <= i < j < 35 :: GetAllStickers()[i].id != GetAllStickers()[j].id
  {
  }

  /** No two catalogue entries share an id. */
  lemma DistinctIds()
    ensures forall i, j | 0 <= i < j < |GetAllStickers()| :: GetAllStickers()[i].id != GetAllStickers()[j].id
  {
    var all := GetAllStickers();
    IdLetters();
    DistinctWithinEmoji();
    DistinctWithinDoodles();
    DistinctWithinShapes();
    DistinctWithinFashion();
    forall i, j | 0 <= i < j < |all|
      ensures all[i].id != all[j].id
    {
      if PackLetter(i) != PackLetter(j) {
        assert all[i].id[0] != all[j].id[0];
      }
    }
  }

  /** The premium pack is exactly the fashion category: every catalogue entry is premium when, and
      only when, it is a fashion sticker. */
  lemma GetAllStickersPremiumIsFashion()
    ensures forall i | 0 <= i < |GetAllStickers()| :: GetAllStickers()[i].premium <==> GetAllStickers()[i].category == "fashion"
  {
    var all := GetAllStickers();
    forall i | 0 <= i < |all|
      ensures all[i].premium <==> all[i].category == "fashion"
    {
      if i < 30 {
        assert all[i] == FREE_STICKERS[i];
      } else {
        assert all[i] == PREMIUM_STICKERS[i - 30];
      }
    }
  }

  /** The catalogue is grouped by category: emoji at 0-9, doodles at 10-19, shapes at 20-29 and
      fashion at 30-34. */
  lemma CatalogueSlices()
    ensures forall i | 0 <= i < 10 :: GetAllStickers()[i].category == "emoji"
    ensures forall i | 10 <= i < 20 :: GetAllStickers()[i].category == "doodles"
    ensures forall i | 20 <= i < 30 :: GetAllStickers()[i].category == "shapes"
    ensures forall i | 30 <= i < 35 :: GetAllStickers()[i].category == "fashion"
  {
  }

  /** The catalogue is the emoji, doodles, shapes and fashion packs, in that order. */
  lemma CatalogueInRuns()
    ensures InRuns(GetAllStickers(), "emoji", "doodles", "shapes", "fashion")
  {
    CatalogueSlices();
  }

  /** A category's stickers are its pack, in catalogue order; a category no sticker has is empty. */
  lemma StickersByCategoryInOrder(category: string)
    ensures var all := GetAllStickers();
      GetStickersByCategory(category) ==
        if category == "emoji" then all[..10]
        else if category == "doodles" then all[10..20]
        else if category == "shapes" then all[20..30]
        else if category == "fashion" then all[30..]
        else []
  {
    var all := GetAllStickers();
    CatalogueInRuns();
    GroupedFilter(all, category, "emoji", "doodles", "shapes", "fashion");
  }

  /** 35 stickers in four runs, of 10, 10, 10 and 5, of the distinct categories `c0` to `c3`. */
  predicate InRuns(all: seq<StickerAsset>, c0: string, c1: string, c2: string, c3: string) {
    |all| == 35
    && c0 != c1 && c0 != c2 && c0 != c3 && c1 != c2 && c1 != c3 && c2 != c3
    && (forall i | 0 <= i < 10 :: all[i].category == c0)
    && (forall i | 10 <= i < 20 :: all[i].category == c1)
    && (forall i | 20 <= i < 30 :: all[i].category == c2)
    && (forall i | 30 <= i < 35 :: all[i].category == c3)
  }

  /** Filtering stickers in four runs by a category gives that category's run, or nothing. */
  lemma GroupedFilter(all: seq<StickerAsset>, category: string, c0: string, c1: string, c2: string, c3: string)
    requires InRuns(all, c0, c1, c2, c3)
    ensures Filter(all, CategoryIs(category)) ==
      if category == c0 then all[..10]
      else if category == c1 then all[10..20]
      else if category == c2 then all[20..30]
      else if category == c3 then all[30..]
      else []
  {
    if category == c0 {
      FirstRun(all, category, c0, c1, c2, c3);
    } else if category == c1 {
      SecondRun(all, category, c0, c1, c2, c3);
    } else if category == c2 {
      ThirdRun(all, category, c0, c1, c2, c3);
    } else if category == c3 {
      LastRun(all, category, c0, c1, c2, c3);
    } else {
      NoRun(all, category, c0, c1, c2, c3);
    }
  }

  /** The category of the first run selects exactly that run. */
  lemma FirstRun(all: seq<StickerAsset>, category: string, c0: string, c1: string, c2: string, c3: string)
    requires InRuns(all, c0, c1, c2, c3) && category == c0
    ensures Filter(all, CategoryIs(category)) == all[..10]
  {
    FilterCuts(all, 10, 20, 30, CategoryIs(category));
    SliceKeep(all, 0, 10, category);
    SliceDrop(all, 10, 20, c1, category);
    SliceDrop(all, 20, 30, c2, category);
    SliceDrop(all, 30, 35, c3, category);
    assert all[0..10] + ([] + ([] + [])) == all[..10];
  }

  /** The category of the second run selects exactly that run. */
  lemma SecondRun(all: seq<StickerAsset>, category: string, c0: string, c1: string, c2: string, c3: string)
    requires InRuns(all, c0, c1, c2, c3) && category == c1
    ensures Filter(all, CategoryIs(category)) == all[10..20]
  {
    FilterCuts(all, 10, 20, 30, CategoryIs(category));
    SliceDrop(all, 0, 10, c0, category);
    SliceKeep(all, 10, 20, category);
    SliceDrop(all, 20, 30, c2, category);
    SliceDrop(all, 30, 35, c3, category);
    assert [] + (all[10..20] + ([] + [])) == all[10..20];
  }

  /** The category of the third run selects exactly that run. */
  lemma ThirdRun(all: seq<StickerAsset>, category: string, c0: string, c1: string, c2: string, c3: string)
    requires InRuns(all, c0, c1, c2, c3) && category == c2
    ensures Filter(all, CategoryIs(category)) == all[20..30]
  {
    FilterCuts(all, 10, 20, 30, CategoryIs(category));
    SliceDrop(all, 0, 10, c0, category);
    SliceDrop(all, 10, 20, c1, category);
    SliceKeep(all, 20, 30, category);
    SliceDrop(all, 30, 35, c3, category);
    assert [] + ([] + (all[20..30] + [])) == all[20..30];
  }

  /** The category of the last run selects exactly that run. */
  lemma LastRun(all: seq<StickerAsset>, category: string, c0: string, c1: string, c2: string, c3: string)
    requires InRuns(all, c0, c1, c2, c3) && category == c3
    ensures Filter(all, CategoryIs(category)) == all[30..]
  {
    FilterCuts(all, 10, 20, 30, CategoryIs(category));
    SliceDrop(all, 0, 10, c0, category);
    SliceDrop(all, 10, 20, c1, category);
    SliceDrop(all, 20, 30, c2, category);
    SliceKeep(all, 30, 35, category);
    assert [] + ([] + ([] + all[30..35])) == all[30..];
  }

  /** A category of no run selects nothing. */
  lemma NoRun(all: seq<StickerAsset>, category: string, c0: string, c1: string, c2: string, c3: string)
    requires InRuns(all, c0, c1, c2, c3) && category != c0 && category != c1 && category != c2 && category != c3
    ensures Filter(all, CategoryIs(category)) == []
  {
    FilterCuts(all, 10, 20, 30, CategoryIs(category));
    SliceDrop(all, 0, 10, c0, category);
    SliceDrop(all, 10, 20, c1, category);
    SliceDrop(all, 20, 30, c2, category);
    SliceDrop(all, 30, 35, c3, category);
  }

  /** Filtering a run of one category by that category keeps all of it. */
  lemma SliceKeep(s: seq<StickerAsset>, lo: nat, hi: nat, category: string)
    requires lo <= hi <= |s| && forall i | lo <= i < hi :: s[i].category == category
    ensures Filter(s[lo..hi], CategoryIs(category)) == s[lo..hi]
  {
    var pack := s[lo..hi];
    assert forall a | a in pack :: a.category == category;
    FilterAll(pack, CategoryIs(category));
  }

  /** Filtering a run of one category by another keeps none of it. */
  lemma SliceDrop(s: seq<StickerAsset>, lo: nat, hi: nat, packCategory: string, category: string)
    requires lo <= hi <= |s| && (forall i | lo <= i < hi :: s[i].category == packCategory) && category != packCategory
    ensures Filter(s[lo..hi], CategoryIs(category)) == []
  {
    var pack := s[lo..hi];
    assert forall a | a in pack :: a.category == packCategory;
    FilterNone(pack, CategoryIs(category));
  }

  /** Every asset is found by its own id. */
  lemma FoundById(a: StickerAsset)
    requires a in GetAllStickers()
    ensures GetStickerById(a.id) == Some(a)
  {
    DistinctIds();
    var all := GetAllStickers();
    var k :| 0 <= k < |all| && all[k] == a;
    var r := FindIndex(all, IdIs(a.id));
    assert IdIs(a.id)(all[k]);
  }

  /** The distinct elements of `s`, each where it first appears (`Array.from(new Set(s))`). */
  function Dedup(s: seq<string>): seq<string>
    decreases |s|
  {
    if s == [] then []
    else
      var d := Dedup(s[..|s| - 1]);
      var last := s[|s| - 1];
      if last in d then d else d + [last]
  }

  /** `Dedup(s)` holds every element of `s`, nothing else, and each once. */
  lemma {:induction false} DedupMembers(s: seq<string>)
    ensures forall x | x in s :: x in Dedup(s)
    ensures forall x | x in Dedup(s) :: x in s
    ensures forall i, j | 0 <= i < j < |Dedup(s)| :: Dedup(s)[i] != Dedup(s)[j]
    decreases |s|
  {
    if s != [] {
      var init := s[..|s| - 1];
      DedupMembers(init);
      assert forall x | x in s :: x in init || x == s[|s| - 1];
    }
  }

  function Category(a: StickerAsset): string {
    a.category
  }

  /** `getCategories()`. */
  function GetCategories(): (r: seq<string>)
    ensures forall c | c in r :: exists i | 0 <= i < |GetAllStickers()| :: GetAllStickers()[i].category == c
    ensures forall i | 0 <= i < |GetAllStickers()| :: GetAllStickers()[i].category in r
    ensures forall i, j | 0 <= i < j < |r| :: r[i] != r[j]
  {
    var cats := Map(GetAllStickers(), Category);
    assert forall i | 0 <= i < |GetAllStickers()| :: GetAllStickers()[i].category in cats;
    DedupMembers(cats);
    Dedup(cats)
  }

  lemma {:induction false} DedupAbsorbs(s: seq<string>, t: seq<string>)
    requires forall x | x in t :: x in s
    ensures Dedup(s + t) == Dedup(s)
    decreases |t|
  {
    if t == [] {
      assert s + t == s;
    } else {
      var t' := t[..|t| - 1];
      assert (s + t)[..|s + t| - 1] == s + t';
      assert (s + t)[|s + t| - 1] == t[|t| - 1];
      assert t[|t| - 1] in t;
      DedupAbsorbs(s, t');
      DedupMembers(s + t');
    }
  }

  /** A run `s[a..b]` of a value that does not occur in `s[..a]` adds that value once. */
  lemma DedupRun(s: seq<string>, a: nat, b: nat, x: string)
    requires a < b <= |s| && x !in Dedup(s[..a])
    requires forall i | a <= i < b :: s[i] == x
    ensures Dedup(s[..b]) == Dedup(s[..a]) + [x]
  {
    var p := s[..a];
    DedupMembers(p);
    assert x !in p;
    assert (p + [x])[..|p|] == p;
    assert (p + [x])[|p|] == x;
    assert s[..a + 1] == p + [x];
    assert s[..b] == s[..a + 1] + s[a + 1..b];
    DedupAbsorbs(s[..a + 1], s[a + 1..b]);
  }

  /** Two runs of distinct values, from the start, deduplicate to those values in order. */
  lemma DedupTwoRuns(s: seq<string>, a: nat, b: nat, w: string, x: string)
    requires 0 < a < b <= |s| && w != x
    requires forall i | 0 <= i < a :: s[i] == w
    requires forall i | a <= i < b :: s[i] == x
    ensures Dedup(s[..b]) == [w, x]
  {
    assert s[..0] == [];
    DedupRun(s, 0, a, w);
    DedupRun(s, a, b, x);
  }

  lemma DedupThreeRuns(s: seq<string>, a: nat, b: nat, c: nat, w: string, x: string, y: string)
    requires 0 < a < b < c <= |s| && w != x && w != y && x != y
    requires forall i | 0 <= i < a :: s[i] == w
    requires forall i | a <= i < b :: s[i] == x
    requires forall i | b <= i < c :: s[i] == y
    ensures Dedup(s[..c]) == [w, x, y]
  {
    DedupTwoRuns(s, a, b, w, x);
    DedupRun(s, b, c, y);
  }

  /** Four runs of distinct values deduplicate to those values in order. */
  lemma DedupFourRuns(s: seq<string>, a: nat, b: nat, c: nat, w: string, x: string, y: string, z: string)
    requires 0 < a < b < c < |s|
    requires w != x && w != y && w != z && x != y && x != z && y != z
    requires forall i | 0 <= i < a :: s[i] == w
    requires forall i | a <= i < b :: s[i] == x
    requires forall i | b <= i < c :: s[i] == y
    requires forall i | c <= i < |s| :: s[i] == z
    ensures Dedup(s) == [w, x, y, z]
  {
    DedupThreeRuns(s, a, b, c, w, x, y);
    DedupRun(s, c, |s|, z);
    assert s[..|s|] == s;
  }

  /** The categories, in first-appearance order. */
  lemma CategoriesList()
    ensures GetCategories() == ["emoji", "doodles", "shapes", "fashion"]
  {
    CatalogueInRuns();
    GroupedCategories(GetAllStickers(), "emoji", "doodles", "shapes", "fashion");
  }

  /** The categories of any 35 stickers in four runs of distinct categories are those four. */
  lemma GroupedCategories(all: seq<StickerAsset>, c0: string, c1: string, c2: string, c3: string)
    requires InRuns(all, c0, c1, c2, c3)
    ensures Dedup(Map(all, Category)) == [c0, c1, c2, c3]
  {
    DedupFourRuns(Map(all, Category), 10, 20, 30, c0, c1, c2, c3);
  }

  /** `createStickerLayerData(asset)`. */
  function CreateStickerLayerData(asset: StickerAsset): (d: LayerData)
    ensures d.StickerData? && d.assetId == asset.id && d.sourceType == EmojiSource
    ensures d.emoji == asset.emoji && d.width == asset.width && d.height == asset.height
  {
    StickerData(asset.id, EmojiSource, asset.emoji, asset.width, asset.height)
  }

  /** `isPremium(id)`: false for unknown ids, the asset's flag otherwise. */
  function IsPremium(id: string): (b: bool)
    ensures GetStickerById(id).None? ==> !b
    ensures GetStickerById(id).Some? ==> b == GetStickerById(id).value.premium
  {
    match GetStickerById(id)
    case None => false
    case Some(a) => a.premium
  }

  /** An asset's premium flag is what `isPremium` reports for its id. */
  lemma IsPremiumOfAsset(a: StickerAsset)
    requires a in GetAllStickers()
    ensures IsPremium(a.id) == a.premium
  {
    FoundById(a);
  }
}
