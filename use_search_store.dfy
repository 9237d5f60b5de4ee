/**
 * The search store of frontend/src/stores/useSearchStore.ts: the last
 * results, sorted by seeders, the active filters, and the filtered view.
 * The search API call is replaced by its outcome, passed in.
 */
module UseSearchStore {
  import opened Strings
  import opened Ui
  import Lists

  datatype SeriesRef = SeriesRef(name: string, number: string)

  /** A search result as the frontend receives it; fields no store logic
      reads are left out. */
  datatype SearchResult = SearchResult(
    id: Option<string>,
    title: string,
    author: string,
    series: seq<SeriesRef>,
    provider: string,
    seeders: int,
    category: Option<string>,
    language: Option<string>,
    freeleech: Option<bool>)

  datatype Filters = Filters(
    query: string,
    provider: Option<string>,
    category: Option<string>,
    language: Option<string>,
    minSeeders: Option<int>,
    freeleechOnly: Option<bool>)

  const InitialFilters: Filters := Filters("", None, None, None, None, Some(false))

  const ShortQueryMessage: string := "Query must be at least 2 characters"

  /** A Partial<SearchFilters>: None for a key the object does not have;
      Some(None) for a key present with the value undefined. */
  datatype FilterUpdate = FilterUpdate(
    query: Option<string>,
    provider: Option<Option<string>>,
    category: Option<Option<string>>,
    language: Option<Option<string>>,
    minSeeders: Option<Option<int>>,
    freeleechOnly: Option<Option<bool>>)

  const NoUpdate: FilterUpdate := FilterUpdate(None, None, None, None, None, None)

  function Pick<T>(present: Option<T>, current: T): T
  {
    if present.Some? then present.value else current
  }

  /** `{ ...filters, ...update }`: a field the update carries takes the
      update's value, every other field keeps the filter's. */
  function Merge(f: Filters, u: FilterUpdate): (r: Filters)
    ensures u.query.Some? ==> r.query == u.query.value
    ensures u.query.None? ==> r.query == f.query
    ensures u.provider.Some? ==> r.provider == u.provider.value
    ensures u.provider.None? ==> r.provider == f.provider
    ensures u.category.Some? ==> r.category == u.category.value
    ensures u.category.None? ==> r.category == f.category
    ensures u.language.Some? ==> r.language == u.language.value
    ensures u.language.None? ==> r.language == f.language
    ensures u.minSeeders.Some? ==> r.minSeeders == u.minSeeders.value
    ensures u.minSeeders.None? ==> r.minSeeders == f.minSeeders
    ensures u.freeleechOnly.Some? ==> r.freeleechOnly == u.freeleechOnly.value
    ensures u.freeleechOnly.None? ==> r.freeleechOnly == f.freeleechOnly
  {
    Filters(Pick(u.query, f.query), Pick(u.provider, f.provider), Pick(u.category, f.category),
            Pick(u.language, f.language), Pick(u.minSeeders, f.minSeeders), Pick(u.freeleechOnly, f.freeleechOnly))
  }

  /** `{ ...u, ...v }` on two partial updates. */
  function Combine(u: FilterUpdate, v: FilterUpdate): FilterUpdate
  {
    FilterUpdate(
      if v.query.Some? then v.query else u.query,
      if v.provider.Some? then v.provider else u.provider,
      if v.category.Some? then v.category else u.category,
      if v.language.Some? then v.language else u.language,
      if v.minSeeders.Some? then v.minSeeders else u.minSeeders,
      if v.freeleechOnly.Some? then v.freeleechOnly else u.freeleechOnly)
  }

  /** A text filter is on when it is a non-empty string. */
  predicate TextSet(v: Option<string>) { v.Some? && v.value != [] }

  /** The predicate getFilteredResults applies to one result: with every
      filter off, every result is let through. */
  predicate Keeps(f: Filters, r: SearchResult)
    ensures !TextSet(f.category) && !TextSet(f.language) && !Truthy(f.minSeeders) && f.freeleechOnly != Some(true) ==>
              Keeps(f, r)
  {
    (!TextSet(f.category) || r.category == f.category) &&
    (!TextSet(f.language) || r.language == f.language) &&
    (!Truthy(f.minSeeders) || r.seeders >= f.minSeeders.value) &&
    (!(f.freeleechOnly == Some(true)) || r.freeleech == Some(true))
  }

  function KeptBy(f: Filters): SearchResult -> bool
  {
    r => Keeps(f, r)
  }

  /** The sort key: ascending by it is descending by seeders. */
  function FewerSeeders(r: SearchResult): int { -r.seeders }

  /** `results.sort((a, b) => b.seeders - a.seeders)`: the results
      received, rearranged into descending order of seeders. */
  function BySeeders(results: seq<SearchResult>): (r: seq<SearchResult>)
    ensures forall i, j :: 0 <= i < j < |r| ==> r[i].seeders >= r[j].seeders
    ensures multiset(r) == multiset(results)
  {
    Lists.SortBySorted(results, FewerSeeders);
    Lists.SortBy(results, FewerSeeders)
  }

  class SearchStore {
    var results: seq<SearchResult>
    var loading: bool
    var error: Option<string>
    var filters: Filters
    var notifications: seq<Notification>

    constructor()
      ensures results == [] && !loading && error == None && filters == InitialFilters && notifications == []
    {
      results, loading, error, filters, notifications := [], false, None, InitialFilters, [];
    }

    /** search: a query shorter than two UTF-16 units is refused without a
        request; results arrive sorted by seeders, most first, and the query
        and provider are recorded in the filters. */
    method Search(query: string, provider: Option<string>, response: Result<seq<SearchResult>, ApiError>)
      modifies this
      ensures Utf16Len(query) < 2 ==>
                results == [] && error == Some(ShortQueryMessage) && loading == old(loading) &&
                filters == old(filters) && notifications == old(notifications)
      ensures Utf16Len(query) >= 2 && response.Ok? ==>
                results == BySeeders(response.value) && error == None && !loading &&
                filters == old(filters).(query := query, provider := provider) &&
                notifications == old(notifications)
      ensures Utf16Len(query) >= 2 && response.Err? ==>
                var message := MessageOr(response.error, "Search failed");
                results == [] && error == Some(message) && !loading && filters == old(filters) &&
                notifications == old(notifications) + [Notification(NoteError, message)]
    {
      if query == [] || Utf16Len(query) < 2 {
        results, error := [], Some(ShortQueryMessage);
        return;
      }
      loading, error := true, None;
      match response
      case Ok(found) =>
        results, loading := BySeeders(found), false;
        filters := filters.(query := query, provider := provider);
      case Err(e) =>
        var message := MessageOr(e, "Search failed");
        error, loading, results := Some(message), false, [];
        notifications := notifications + [Notification(NoteError, message)];
    }

    /** updateFilters: only the fields the update carries change. */
    method UpdateFilters(u: FilterUpdate)
      modifies this
      ensures filters == Merge(old(filters), u)
      ensures results == old(results) && loading == old(loading) && error == old(error)
      ensures notifications == old(notifications)
    {
      filters := Merge(filters, u);
    }

    /** clearResults: results, error and filters return to their initial values. */
    method ClearResults()
      modifies this
      ensures results == [] && error == None && filters == InitialFilters
      ensures loading == old(loading) && notifications == old(notifications)
    {
      results, error, filters := [], None, InitialFilters;
    }

    /** getFilteredResults: the results the filters keep, in order. */
    function GetFilteredResults(): (r: seq<SearchResult>)
      reads this
      ensures forall x :: x in r <==> x in results && Keeps(filters, x)
    {
      Lists.Filter(results, KeptBy(filters))
    }
  }

  // ---------------------------------------------------------------------------
  // Properties
  // ---------------------------------------------------------------------------

  /** Results already ordered by seeders keep their order, ties included. */
  lemma BySeedersStable(found: seq<SearchResult>)
    requires forall i, j :: 0 <= i < j < |found| ==> found[i].seeders >= found[j].seeders
    ensures BySeeders(found) == found
  {
    Lists.SortBySortedInput(found, FewerSeeders);
  }

  /** The sort is stable on every input: the results with as many seeders
      as r come out in the order they were received. */
  lemma {:induction false} BySeedersTiesKeepOrder(found: seq<SearchResult>, r: SearchResult)
    ensures Lists.KeyOrder(BySeeders(found), FewerSeeders, FewerSeeders(r)) == Lists.KeyOrder(found, FewerSeeders, FewerSeeders(r))
  {
    Lists.SortByStable(found, FewerSeeders, FewerSeeders(r));
  }

  /** With the initial filters every result is shown. */
  lemma InitialFiltersKeepAll(results: seq<SearchResult>)
    ensures Lists.Filter(results, KeptBy(InitialFilters)) == results
  {
    Lists.FilterAll(results, KeptBy(InitialFilters));
  }

  /** The filtered view keeps the order of the results. */
  lemma FilteredOrder(f: Filters, a: seq<SearchResult>, b: seq<SearchResult>)
    ensures Lists.Filter(a + b, KeptBy(f)) == Lists.Filter(a, KeptBy(f)) + Lists.Filter(b, KeptBy(f))
  {
    Lists.FilterConcat(a, b, KeptBy(f));
  }

  /** Recording a new query and provider does not change what the filters keep. */
  lemma QueryDoesNotFilter(f: Filters, query: string, provider: Option<string>, results: seq<SearchResult>)
    ensures Lists.Filter(results, KeptBy(f.(query := query, provider := provider))) == Lists.Filter(results, KeptBy(f))
  {
    Lists.FilterAgree(results, KeptBy(f.(query := query, provider := provider)), KeptBy(f));
  }

  /** Spreading an update twice is spreading it once, an empty update
      changes nothing, and two updates in a row are their combination. */
  lemma MergeLaws(f: Filters, u: FilterUpdate, v: FilterUpdate)
    ensures Merge(Merge(f, u), u) == Merge(f, u)
    ensures Merge(f, NoUpdate) == f
    ensures Merge(Merge(f, u), v) == Merge(f, Combine(u, v))
  {
  }
}
