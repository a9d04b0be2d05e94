/** The filter context: the filter record shared by the list pages, its defaults, the partial
    update merge `{...prev, ...updates}`, the reset, the hydration merge `{...defaults, ...parsed}`
    from the browser's stored copy, and the rule that the copy is written only once hydration
    has happened. */
module Filters {
  import opened Results

  datatype SortOption = NameAsc | NameDesc | DateAsc | DateDesc
  datatype TypeFilter = AllTypes | LiveOnly | PodcastOnly
  datatype StatusFilter = AllStatuses | PublishedOnly | HiddenOnly

  datatype FilterState = FilterState(
    searchQuery: string,
    sortBy: SortOption,
    programsWithHost: bool,
    programsWithoutHost: bool,
    peopleWithTelegram: bool,
    peopleWithoutTelegram: bool,
    recordingType: TypeFilter,
    recordingStatus: StatusFilter,
    selectedGenres: seq<string>,
    selectedPrograms: seq<string>)

  /** `Partial<FilterState>`: `None` is a key that is absent. */
  datatype FilterUpdate = FilterUpdate(
    searchQuery: Option<string>,
    sortBy: Option<SortOption>,
    programsWithHost: Option<bool>,
    programsWithoutHost: Option<bool>,
    peopleWithTelegram: Option<bool>,
    peopleWithoutTelegram: Option<bool>,
    recordingType: Option<TypeFilter>,
    recordingStatus: Option<StatusFilter>,
    selectedGenres: Option<seq<string>>,
    selectedPrograms: Option<seq<string>>)

  const DefaultFilters := FilterState("", DateDesc, false, false, false, false, AllTypes, AllStatuses, [], [])

  const NoChange := FilterUpdate(None, None, None, None, None, None, None, None, None, None)

  function Or<T>(o: Option<T>, fallback: T): T
  {
    if o.Some? then o.value else fallback
  }

  /** `{...prev, ...updates}` */
  function Merge(prev: FilterState, u: FilterUpdate): FilterState
  {
    FilterState(
      Or(u.searchQuery, prev.searchQuery),
      Or(u.sortBy, prev.sortBy),
      Or(u.programsWithHost, prev.programsWithHost),
      Or(u.programsWithoutHost, prev.programsWithoutHost),
      Or(u.peopleWithTelegram, prev.peopleWithTelegram),
      Or(u.peopleWithoutTelegram, prev.peopleWithoutTelegram),
      Or(u.recordingType, prev.recordingType),
      Or(u.recordingStatus, prev.recordingStatus),
      Or(u.selectedGenres, prev.selectedGenres),
      Or(u.selectedPrograms, prev.selectedPrograms))
  }

  /** The update holding every key of `f`; this is also what `JSON.stringify` writes. */
  function Full(f: FilterState): FilterUpdate
  {
    FilterUpdate(Some(f.searchQuery), Some(f.sortBy), Some(f.programsWithHost),
      Some(f.programsWithoutHost), Some(f.peopleWithTelegram), Some(f.peopleWithoutTelegram),
      Some(f.recordingType), Some(f.recordingStatus), Some(f.selectedGenres),
      Some(f.selectedPrograms))
  }

  /** `v` applied after `u`: a key of `v` wins over the same key of `u`. */
  function Then(u: FilterUpdate, v: FilterUpdate): FilterUpdate
  {
    FilterUpdate(
      if v.searchQuery.Some? then v.searchQuery else u.searchQuery,
      if v.sortBy.Some? then v.sortBy else u.sortBy,
      if v.programsWithHost.Some? then v.programsWithHost else u.programsWithHost,
      if v.programsWithoutHost.Some? then v.programsWithoutHost else u.programsWithoutHost,
      if v.peopleWithTelegram.Some? then v.peopleWithTelegram else u.peopleWithTelegram,
      if v.peopleWithoutTelegram.Some? then v.peopleWithoutTelegram else u.peopleWithoutTelegram,
      if v.recordingType.Some? then v.recordingType else u.recordingType,
      if v.recordingStatus.Some? then v.recordingStatus else u.recordingStatus,
      if v.selectedGenres.Some? then v.selectedGenres else u.selectedGenres,
      if v.selectedPrograms.Some? then v.selectedPrograms else u.selectedPrograms)
  }

  /** Every key the update names takes the update's value; every other key keeps its value. */
  lemma MergeSetsPresentKeys(prev: FilterState, u: FilterUpdate)
    ensures var r := Merge(prev, u);
      (if u.searchQuery.Some? then r.searchQuery == u.searchQuery.value else r.searchQuery == prev.searchQuery)
      && (if u.sortBy.Some? then r.sortBy == u.sortBy.value else r.sortBy == prev.sortBy)
      && (if u.programsWithHost.Some? then r.programsWithHost == u.programsWithHost.value else r.programsWithHost == prev.programsWithHost)
      && (if u.programsWithoutHost.Some? then r.programsWithoutHost == u.programsWithoutHost.value else r.programsWithoutHost == prev.programsWithoutHost)
      && (if u.peopleWithTelegram.Some? then r.peopleWithTelegram == u.peopleWithTelegram.value else r.peopleWithTelegram == prev.peopleWithTelegram)
      && (if u.peopleWithoutTelegram.Some? then r.peopleWithoutTelegram == u.peopleWithoutTelegram.value else r.peopleWithoutTelegram == prev.peopleWithoutTelegram)
      && (if u.recordingType.Some? then r.recordingType == u.recordingType.value else r.recordingType == prev.recordingType)
      && (if u.recordingStatus.Some? then r.recordingStatus == u.recordingStatus.value else r.recordingStatus == prev.recordingStatus)
      && (if u.selectedGenres.Some? then r.selectedGenres == u.selectedGenres.value else r.selectedGenres == prev.selectedGenres)
      && (if u.selectedPrograms.Some? then r.selectedPrograms == u.selectedPrograms.value else r.selectedPrograms == prev.selectedPrograms)
  {
  }

  /** An update with no keys changes nothing. */
  lemma MergeNoChange(prev: FilterState)
    ensures Merge(prev, NoChange) == prev
  {
  }

  /** Applying the same update twice is applying it once. */
  lemma MergeIdempotent(prev: FilterState, u: FilterUpdate)
    ensures Merge(Merge(prev, u), u) == Merge(prev, u)
  {
  }

  /** Two updates in a row are one update in which the later keys win. */
  lemma MergeThen(prev: FilterState, u: FilterUpdate, v: FilterUpdate)
    ensures Merge(Merge(prev, u), v) == Merge(prev, Then(u, v))
  {
  }

  /** An update naming every key replaces the whole state. */
  lemma MergeFull(prev: FilterState, f: FilterState)
    ensures Merge(prev, Full(f)) == f
  {
  }

  /** What `localStorage.getItem` returned and `JSON.parse` made of it. */
  datatype Stored = Missing | Unparsable | Parsed(keys: FilterUpdate)

  /** The filters after the hydration effect: the stored keys over the defaults. An absent or
      empty item and a parse error both leave the defaults. */
  function Hydrated(stored: Stored): (f: FilterState)
    ensures !stored.Parsed? ==> f == DefaultFilters
  {
    match stored
      case Parsed(keys) => Merge(DefaultFilters, keys)
      case _ => DefaultFilters
  }

  /** Stored keys win over the defaults; the other keys take their default value. */
  lemma HydratedKeys(keys: FilterUpdate)
    ensures keys.searchQuery.None? ==> Hydrated(Parsed(keys)).searchQuery == ""
    ensures keys.sortBy.None? ==> Hydrated(Parsed(keys)).sortBy == DateDesc
    ensures keys.sortBy.Some? ==> Hydrated(Parsed(keys)).sortBy == keys.sortBy.value
    ensures keys.selectedGenres.None? ==> Hydrated(Parsed(keys)).selectedGenres == []
  {
  }

  /** What was saved is what the next mount restores. */
  lemma HydrateSaved(f: FilterState)
    ensures Hydrated(Parsed(Full(f))) == f
  {
    MergeFull(DefaultFilters, f);
  }

  /** The provider's state: the filters, the hydration flag, and the browser's stored item. */
  class FilterProvider {
    var filters: FilterState
    var isHydrated: bool
    var storage: Stored

    /** Once hydrated, the stored item is the current filters. */
    ghost predicate Valid()
      reads this
    {
      isHydrated ==> storage == Parsed(Full(filters))
    }

    /** The first render: defaults, not hydrated, the storage as the browser holds it. */
    constructor (stored: Stored)
      ensures filters == DefaultFilters && !isHydrated && storage == stored
      ensures Valid()
    {
      filters := DefaultFilters;
      isHydrated := false;
      storage := stored;
    }

    /** The save effect: writes the filters once hydration has happened. */
    method Persist()
      modifies this
      ensures filters == old(filters) && isHydrated == old(isHydrated)
      ensures storage == if isHydrated then Parsed(Full(filters)) else old(storage)
      ensures isHydrated ==> Valid()
    {
      if isHydrated {
        storage := Parsed(Full(filters));
      }
    }

    /** The load effect on mount, then the save effect it triggers. */
    method Hydrate()
      modifies this
      ensures filters == Hydrated(old(storage)) && isHydrated
      ensures storage == Parsed(Full(filters))
      ensures Valid()
    {
      filters := Hydrated(storage);
      isHydrated := true;
      Persist();
    }

    /** `updateFilters` */
    method UpdateFilters(u: FilterUpdate)
      requires Valid()
      modifies this
      ensures filters == Merge(old(filters), u) && isHydrated == old(isHydrated)
      ensures !isHydrated ==> storage == old(storage)
      ensures Valid()
    {
      filters := Merge(filters, u);
      Persist();
    }

    /** `resetFilters` */
    method ResetFilters()
      requires Valid()
      modifies this
      ensures filters == DefaultFilters && isHydrated == old(isHydrated)
      ensures !isHydrated ==> storage == old(storage)
      ensures Valid()
    {
      filters := DefaultFilters;
      Persist();
    }
  }
}
