/** The filter tool: the carousel of free and premium filters, the selection handler that applies a
    free filter through the filter hook, and the intensity buttons. */
module FilterPanel {
  import opened EditorTypes
  import opened Seqs
  import FilterEngine
  import EditorStore

  /** A carousel entry. */
  datatype FilterItem = FilterItem(id: string, name: string, premium: bool)

  const FREE_FILTERS: seq<FilterItem> := [
    FilterItem("none", "Original", false),
    FilterItem("natural", "Natural", false),
    FilterItem("bw", "B&W", false),
    FilterItem("vintage", "Vintage", false),
    FilterItem("vibrant", "Vibrant", false),
    FilterItem("cool", "Cool", false),
    FilterItem("warm", "Warm", false),
    FilterItem("portrait", "Portrait", false),
    FilterItem("food", "Food", false),
    FilterItem("sunset", "Sunset", false),
    FilterItem("dramatic", "Dramatic", false),
    FilterItem("pastel", "Pastel", false)
  ]

  const PREMIUM_FILTERS: seq<FilterItem> := [
    FilterItem("cinematic1", "Cinematic", true),
    FilterItem("aesthetic1", "Aesthetic", true),
    FilterItem("film1", "Film", true),
    FilterItem("artistic1", "Artistic", true)
  ]

  /** `allFilters`: the free entries, then the premium ones. */
  function AllFilters(): (r: seq<FilterItem>)
    ensures |r| == 16 && r[..12] == FREE_FILTERS && r[12..] == PREMIUM_FILTERS
  {
    FREE_FILTERS + PREMIUM_FILTERS
  }

  /** The carousel is split by the premium flag: the first twelve are free, the last four premium. */
  lemma CarouselSplit()
    ensures forall i | 0 <= i < |AllFilters()| :: AllFilters()[i].premium <==> 12 <= i
  {
  }

  const NONE := "none"

  /** The slider's percentage as the fraction the filter hook receives. */
  function Fraction(intensity: int): real {
    intensity as real / 100.0
  }

  /** The − button: `Math.max(0, intensity - 10)`. */
  function IntensityDown(intensity: int): (r: int)
    ensures r == intensity - 10 || r == 0
    ensures r >= intensity - 10 && r >= 0
    ensures intensity >= 0 ==> 0 <= r <= intensity
  {
    if intensity - 10 >= 0 then intensity - 10 else 0
  }

  /** The + button: `Math.min(100, intensity + 10)`. */
  function IntensityUp(intensity: int): (r: int)
    ensures r == intensity + 10 || r == 100
    ensures r <= intensity + 10 && r <= 100
    ensures intensity <= 100 ==> intensity <= r <= 100
  {
    if intensity + 10 <= 100 then intensity + 10 else 100
  }

  /** Where the buttons keep the slider: a multiple of ten in `[0, 100]`. */
  predicate InRange(intensity: int) {
    0 <= intensity <= 100 && intensity % 10 == 0
  }

  /** Both buttons keep the slider in range, so the hook only ever receives a fraction in `[0, 1]`. */
  lemma ButtonsKeepRange(intensity: int)
    requires InRange(intensity)
    ensures InRange(IntensityDown(intensity)) && InRange(IntensityUp(intensity))
    ensures 0.0 <= Fraction(IntensityDown(intensity)) <= 1.0 && 0.0 <= Fraction(IntensityUp(intensity)) <= 1.0
  {
  }

  /** The selection after `handleFilterSelect(filter)`: a premium entry is ignored. */
  function NextSelection(selected: string, filter: FilterItem): string {
    if filter.premium then selected else filter.id
  }

  /** What `handleFilterSelect(filter)` does to the editor state, with the hook's flag `processing`. */
  function SelectEffect(s: EditorState, processing: bool, filter: FilterItem, intensity: int, now: nat): EditorState {
    if filter.premium || filter.id == NONE || processing then s
    else FilterEngine.ApplyByName(s, filter.id, Fraction(intensity), now)
  }

  /** What `handleIntensityChange(newIntensity)` does to the editor state. */
  function IntensityEffect(s: EditorState, processing: bool, selected: string, newIntensity: int, now: nat): EditorState {
    if selected == NONE || processing then s
    else FilterEngine.ApplyByName(s, selected, Fraction(newIntensity), now)
  }

  /** A premium entry changes neither the selection nor the editor state; `none` selects but leaves
      every applied filter where it was. */
  lemma GuardedSelections(s: EditorState, processing: bool, selected: string, filter: FilterItem, intensity: int, now: nat)
    ensures filter.premium ==> NextSelection(selected, filter) == selected && SelectEffect(s, processing, filter, intensity, now) == s
    ensures filter.id == NONE ==> SelectEffect(s, processing, filter, intensity, now).filters == s.filters
    ensures !filter.premium ==> NextSelection(selected, filter) == filter.id
  {
  }

  /** Selecting a free filter other than `none` applies it, once and last, at the slider's fraction;
      with distinct ids, the filters with other names keep their order. */
  lemma SelectFreeApplies(s: EditorState, filter: FilterItem, intensity: int, now: nat)
    requires !filter.premium && filter.id != NONE
    requires FilterEngine.AtMostOneNamed(s.filters, filter.id)
    ensures var r := SelectEffect(s, false, filter, intensity, now).filters;
      FilterEngine.IsFilterApplied(r, filter.id)
      && FilterEngine.GetFilterIntensity(r, filter.id) == intensity as real / 100.0
      && r[|r| - 1].name == filter.id
    ensures FilterEngine.DistinctIds(s.filters) ==>
      var r := SelectEffect(s, false, filter, intensity, now).filters;
      Filter(r, FilterEngine.NameIsNot(filter.id)) == Filter(s.filters, FilterEngine.NameIsNot(filter.id))
  {
    FilterEngine.ApplyThenQuery(s, filter.id, Fraction(intensity), now);
    FilterEngine.ApplyByNameReplaces(s, filter.id, Fraction(intensity), now);
  }

  /** With `none` selected the slider reaches no filter; otherwise it re-applies the selected one at
      the new fraction. */
  lemma IntensityReachesSelected(s: EditorState, selected: string, newIntensity: int, now: nat)
    requires FilterEngine.AtMostOneNamed(s.filters, selected)
    ensures selected == NONE ==> IntensityEffect(s, false, selected, newIntensity, now) == s
    ensures selected != NONE ==>
      FilterEngine.GetFilterIntensity(IntensityEffect(s, false, selected, newIntensity, now).filters, selected) == newIntensity as real / 100.0
  {
    if selected != NONE {
      FilterEngine.ApplyThenQuery(s, selected, Fraction(newIntensity), now);
    }
  }

  /** The panel component: the selected entry and the slider, over the filter hook. */
  class Panel {
    var selectedFilter: string
    var intensity: int
    const engine: FilterEngine.Engine

    /** The slider sits where the buttons leave it. */
    predicate Valid()
      reads this
    {
      InRange(intensity)
    }

    constructor(engine: FilterEngine.Engine)
      ensures this.engine == engine && selectedFilter == NONE && intensity == 100 && Valid()
    {
      this.engine := engine;
      selectedFilter := NONE;
      intensity := 100;
    }

    /** `handleFilterSelect(filter)` */
    method HandleFilterSelect(filter: FilterItem, now: nat)
      requires engine.store.Valid()
      modifies this, engine, engine.store
      ensures engine.store.Valid()
      ensures selectedFilter == NextSelection(old(selectedFilter), filter) && intensity == old(intensity)
      ensures engine.processing == old(engine.processing)
      ensures engine.store.State() == SelectEffect(old(engine.store.State()), old(engine.processing), filter, intensity, now)
    {
      if !filter.premium {
        selectedFilter := filter.id;
        if filter.id != NONE {
          ghost var s0 := engine.store.State();
          engine.ApplyFilterToLayers(filter.id, Fraction(intensity), now);
          assert engine.store.State() == SelectEffect(s0, old(engine.processing), filter, intensity, now);
        }
      }
    }

    /** `handleIntensityChange(newIntensity)` */
    method HandleIntensityChange(newIntensity: int, now: nat)
      requires engine.store.Valid()
      modifies this, engine, engine.store
      ensures engine.store.Valid()
      ensures intensity == newIntensity && selectedFilter == old(selectedFilter)
      ensures engine.processing == old(engine.processing)
      ensures engine.store.State() == IntensityEffect(old(engine.store.State()), old(engine.processing), selectedFilter, newIntensity, now)
    {
      intensity := newIntensity;
      if selectedFilter != NONE {
        ghost var s0 := engine.store.State();
        engine.UpdateFilterIntensity(selectedFilter, Fraction(newIntensity), now);
        assert engine.store.State() == IntensityEffect(s0, old(engine.processing), selectedFilter, newIntensity, now);
      }
    }

    /** The − button. */
    method DecreaseIntensity(now: nat)
      requires Valid()
      requires engine.store.Valid()
      modifies this, engine, engine.store
      ensures engine.store.Valid()
      ensures Valid() && intensity == IntensityDown(old(intensity)) && selectedFilter == old(selectedFilter)
      ensures engine.store.State() == IntensityEffect(old(engine.store.State()), old(engine.processing), selectedFilter, intensity, now)
    {
      ButtonsKeepRange(intensity);
      HandleIntensityChange(IntensityDown(intensity), now);
    }

    /** The + button. */
    method IncreaseIntensity(now: nat)
      requires Valid()
      requires engine.store.Valid()
      modifies this, engine, engine.store
      ensures engine.store.Valid()
      ensures Valid() && intensity == IntensityUp(old(intensity)) && selectedFilter == old(selectedFilter)
      ensures engine.store.State() == IntensityEffect(old(engine.store.State()), old(engine.processing), selectedFilter, intensity, now)
    {
      ButtonsKeepRange(intensity);
      HandleIntensityChange(IntensityUp(intensity), now);
    }
  }
}
