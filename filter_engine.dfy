/** The filter hook: replace-by-name bookkeeping on the store's filter list, guarded by a
    processing flag. */
module FilterEngine {
  import opened Wrappers
  import opened Text
  import opened EditorTypes
  import opened Seqs
  import A = EditorActions
  import EditorStore

  function NameIs(name: string): AppliedFilter -> bool {
    (f: AppliedFilter) => f.name == name
  }

  function NameIsNot(name: string): AppliedFilter -> bool {
    (f: AppliedFilter) => f.name != name
  }

  /** `filters.find(f => f.name === name)`, as the index of the match. */
  function FirstNamed(filters: seq<AppliedFilter>, name: string): (r: Option<nat>)
    ensures r.Some? ==> (r.value < |filters| && filters[r.value].name == name &&
                         forall j | 0 <= j < r.value :: filters[j].name != name)
    ensures r.None? ==> forall j | 0 <= j < |filters| :: filters[j].name != name
  {
    FindIndex(filters, NameIs(name))
  }

  /** The id given to a newly applied filter: `filter_${Date.now()}`. */
  function NewFilterId(now: nat): string {
    "filter_" + NatToDecimal(now)
  }

  /** Filter ids are pairwise distinct. The source does not enforce this: two filters applied within
      one millisecond share an id. */
  predicate DistinctIds(filters: seq<AppliedFilter>) {
    forall i, j | 0 <= i < j < |filters| :: filters[i].id != filters[j].id
  }

  /** At most one filter carries the name. */
  predicate AtMostOneNamed(filters: seq<AppliedFilter>, name: string) {
    forall i, j | 0 <= i < j < |filters| :: !(filters[i].name == name && filters[j].name == name)
  }

  /** `removeFilterByName(name)`: remove, by its id, the first filter with the name; no-op if none. */
  function RemoveByName(s: EditorState, name: string): (r: EditorState)
    ensures FirstNamed(s.filters, name).None? ==> r == s
    ensures FirstNamed(s.filters, name).Some? ==>
      r == A.RemoveFilter(s, s.filters[FirstNamed(s.filters, name).value].id)
  {
    match FirstNamed(s.filters, name)
    case None => s
    case Some(i) => A.RemoveFilter(s, s.filters[i].id)
  }

  /** `applyFilterToLayers(name, intensity)` once past the processing guard: drop the existing filter of
      that name, then apply a fresh one (which commits a snapshot). */
  function ApplyByName(s: EditorState, name: string, intensity: real, now: nat): EditorState
  {
    A.ApplyFilter(RemoveByName(s, name), AppliedFilter(NewFilterId(now), name, intensity), now)
  }

  /** With distinct ids, removing by the id of entry i removes exactly that entry. */
  lemma RemoveByIdOfIndex(fs: seq<AppliedFilter>, i: nat)
    requires DistinctIds(fs) && i < |fs|
    ensures Filter(fs, A.FilterIdIsNot(fs[i].id)) == fs[..i] + fs[i + 1..]
  {
    FilterDropsOne(fs, i, A.FilterIdIsNot(fs[i].id));
  }

  /** The filter list after `removeFilterByName`, with distinct ids: just the first named entry goes. */
  lemma RemoveByNameList(s: EditorState, name: string)
    requires DistinctIds(s.filters)
    ensures FirstNamed(s.filters, name).Some? ==>
      var i := FirstNamed(s.filters, name).value;
      RemoveByName(s, name).filters == s.filters[..i] + s.filters[i + 1..]
    ensures FirstNamed(s.filters, name).None? ==> RemoveByName(s, name).filters == s.filters
  {
    if FirstNamed(s.filters, name).Some? {
      RemoveByIdOfIndex(s.filters, FirstNamed(s.filters, name).value);
    }
  }

  /** If at most one filter had the name, afterwards none has it. This needs no assumption on ids:
      `removeFilter` drops every filter sharing the named one's id, and no other has the name. */
  lemma RemoveByNameRemovesName(s: EditorState, name: string)
    requires AtMostOneNamed(s.filters, name)
    ensures forall f | f in RemoveByName(s, name).filters :: f.name != name
  {
    var fs := s.filters;
    forall f | f in RemoveByName(s, name).filters
      ensures f.name != name
    {
      if FirstNamed(fs, name).Some? {
        var i := FirstNamed(fs, name).value;
        var k :| 0 <= k < |fs| && fs[k] == f;
        assert f.id != fs[i].id;
      } else {
        var k :| 0 <= k < |fs| && fs[k] == f;
      }
    }
  }

  /** With distinct ids, filters with other names keep their relative order. If at most one filter
      had the name beforehand, exactly one has it afterwards: the last, with the given intensity. */
  lemma ApplyByNameReplaces(s: EditorState, name: string, intensity: real, now: nat)
    ensures DistinctIds(s.filters) ==>
      var r := ApplyByName(s, name, intensity, now).filters;
      Filter(r, NameIsNot(name)) == Filter(s.filters, NameIsNot(name))
    ensures AtMostOneNamed(s.filters, name) ==>
      var r := ApplyByName(s, name, intensity, now).filters;
      r[|r| - 1] == AppliedFilter(NewFilterId(now), name, intensity) &&
      forall j | 0 <= j < |r| - 1 :: r[j].name != name
  {
    var fs := s.filters;
    var nf := AppliedFilter(NewFilterId(now), name, intensity);
    var kept := RemoveByName(s, name).filters;
    var r := ApplyByName(s, name, intensity, now).filters;
    assert r == kept + [nf];
    if DistinctIds(fs) {
      RemoveByNameList(s, name);
      var q := NameIsNot(name);
      FilterConcat(kept, [nf], q);
      assert Filter([nf], q) == [];
      if FirstNamed(fs, name).Some? {
        var i := FirstNamed(fs, name).value;
        FilterSkipRejected(fs, i, q);
      }
    }
    if AtMostOneNamed(fs, name) {
      RemoveByNameRemovesName(s, name);
      forall j | 0 <= j < |r| - 1
        ensures r[j].name != name
      {
        assert r[j] == kept[j];
        assert kept[j] in kept;
      }
    }
  }

  /** `getFilterIntensity(name)`: `find(...)?.intensity || 0`. */
  function GetFilterIntensity(filters: seq<AppliedFilter>, name: string): (r: real)
    ensures FirstNamed(filters, name).None? ==> r == 0.0
    ensures FirstNamed(filters, name).Some? ==> r == filters[FirstNamed(filters, name).value].intensity
  {
    match FirstNamed(filters, name)
    case None => 0.0
    case Some(i) => if filters[i].intensity == 0.0 then 0.0 else filters[i].intensity
  }

  /** `isFilterApplied(name)`: `filters.some(f => f.name === name)`. */
  function IsFilterApplied(filters: seq<AppliedFilter>, name: string): (r: bool)
    ensures r <==> exists f | f in filters :: f.name == name
  {
    var k := FirstNamed(filters, name);
    assert k.Some? ==> filters[k.value] in filters;
    k.Some?
  }

  /** Applying a filter by name makes it applied and reads back the intensity just set. */
  lemma ApplyThenQuery(s: EditorState, name: string, intensity: real, now: nat)
    requires AtMostOneNamed(s.filters, name)
    ensures IsFilterApplied(ApplyByName(s, name, intensity, now).filters, name)
    ensures GetFilterIntensity(ApplyByName(s, name, intensity, now).filters, name) == intensity
  {
    ApplyByNameReplaces(s, name, intensity, now);
    var r := ApplyByName(s, name, intensity, now).filters;
    assert r[|r| - 1] in r;
  }

  /** Removing a filter by name makes it no longer applied. */
  lemma RemoveThenQuery(s: EditorState, name: string)
    requires AtMostOneNamed(s.filters, name)
    ensures !IsFilterApplied(RemoveByName(s, name).filters, name)
    ensures GetFilterIntensity(RemoveByName(s, name).filters, name) == 0.0
  {
    RemoveByNameRemovesName(s, name);
  }

  /** A non-empty list drawn from `listed` shares its head's id with some listed entry. */
  lemma HeadListed(fs: seq<AppliedFilter>, listed: seq<AppliedFilter>)
    requires forall f | f in fs :: f in listed
    ensures fs != [] ==> exists j | 0 <= j < |listed| :: listed[j].id == fs[0].id
  {
    if fs != [] {
      assert fs[0] in fs;
      var j :| 0 <= j < |listed| && listed[j] == fs[0];
      assert listed[j].id == fs[0].id;
    }
  }

  /** The hook, over the store it reads and writes. */
  class Engine {
    var processing: bool
    const store: EditorStore.Store

    constructor(store: EditorStore.Store)
      ensures this.store == store && !processing
    {
      this.store := store;
      processing := false;
    }

    /** `applyFilterToLayers`: a no-op while a call is in progress; the flag is put back afterwards. */
    method ApplyFilterToLayers(name: string, intensity: real, now: nat)
      requires store.Valid()
      modifies this, store
      ensures store.Valid()
      ensures processing == old(processing)
      ensures old(processing) ==> store.State() == old(store.State())
      ensures !old(processing) ==> store.State() == ApplyByName(old(store.State()), name, intensity, now)
    {
      if processing {
        return;
      }
      processing := true;
      var existing := FirstNamed(store.filters, name);
      if existing.Some? {
        store.RemoveFilter(store.filters[existing.value].id);
      }
      var newFilter := AppliedFilter(NewFilterId(now), name, intensity);
      store.ApplyFilter(newFilter, now);
      processing := false;
    }

    /** `updateFilterIntensity` delegates to `applyFilterToLayers`, so the filter also moves last. */
    method UpdateFilterIntensity(name: string, intensity: real, now: nat)
      requires store.Valid()
      modifies this, store
      ensures store.Valid()
      ensures processing == old(processing)
      ensures old(processing) ==> store.State() == old(store.State())
      ensures !old(processing) ==> store.State() == ApplyByName(old(store.State()), name, intensity, now)
    {
      ApplyFilterToLayers(name, intensity, now);
    }

    /** `removeFilterByName` */
    method RemoveFilterByName(name: string)
      requires store.Valid()
      modifies store
      ensures store.Valid()
      ensures store.State() == RemoveByName(old(store.State()), name)
    {
      var found := FirstNamed(store.filters, name);
      if found.Some? {
        store.RemoveFilter(store.filters[found.value].id);
      }
    }

    /** `clearAllFilters`: remove each listed filter by id, leaving the list empty. */
    method ClearAllFilters()
      requires store.Valid()
      modifies store
      ensures store.Valid()
      ensures store.State() == old(store.State()).(filters := [])
    {
      var listed := store.filters;
      for i := 0 to |listed|
        invariant store.State() == old(store.State()).(filters := store.filters)
        invariant store.Valid()
        invariant forall f | f in store.filters :: f in listed
        invariant forall f, j | f in store.filters && 0 <= j < i :: f.id != listed[j].id
      {
        store.RemoveFilter(listed[i].id);
      }
      HeadListed(store.filters, listed);
    }
  }
}
