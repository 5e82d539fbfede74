// app/museums/page.tsx: the museum directory. The rows come from the data store;
// the page keeps them with a loading flag and an error message, and lists the
// museums that pass the search, region and category filters, sorted by rating,
// name or location.

module MuseumsPage {

  import opened Wrappers
  import opened Text
  import opened Seqs
  import opened StableSort

  datatype Museum = Museum(
    id: int, name: string, location: string, region: string, category: string, image: string,
    rating: real, openingHours: string, description: string, visitors: string)

  const All := "all"

  /** The three tests of `filteredMuseums`. */
  predicate MuseumMatches(lower: CaseFold, query: string, region: string, category: string, m: Museum)
  {
    && (MatchesQuery(lower, m.name, query) || MatchesQuery(lower, m.location, query))
    && (region == All || m.region == region)
    && (category == All || m.category == category)
  }

  function MuseumFilter(lower: CaseFold, query: string, region: string, category: string): Museum -> bool
  {
    (m: Museum) => MuseumMatches(lower, query, region, category, m)
  }

  /** The filter step, before sorting. */
  function MatchingMuseums(museums: seq<Museum>, lower: CaseFold, query: string, region: string, category: string): (r: seq<Museum>)
    ensures forall m | m in r :: m in museums && MuseumMatches(lower, query, region, category, m)
    ensures forall m | m in museums && MuseumMatches(lower, query, region, category, m) :: m in r
    ensures IsSubsequence(r, museums)
  {
    FilterIsSubsequence(museums, MuseumFilter(lower, query, region, category));
    Filter(museums, MuseumFilter(lower, query, region, category))
  }

  function RatingKey(): Museum -> real
  {
    (m: Museum) => m.rating
  }

  /** `a.name.localeCompare(b.name)`, as the rank `collate` gives each name. */
  function NameKey(collate: string -> int): Museum -> real
  {
    (m: Museum) => collate(m.name) as real
  }

  function LocationKey(collate: string -> int): Museum -> real
  {
    (m: Museum) => collate(m.location) as real
  }

  /** The comparator's fall-through `return 0`: every museum has the same key. */
  function NoKey(): Museum -> real
  {
    (m: Museum) => 0.0
  }

  predicate KnownSort(sortBy: string)
  {
    sortBy == "rating" || sortBy == "name" || sortBy == "location"
  }

  /** The sort step: best rated first, or names or locations in collation order,
      or the order of the input for any other `sortBy`. */
  function SortMuseums(s: seq<Museum>, sortBy: string, collate: string -> int): (r: seq<Museum>)
    ensures multiset(r) == multiset(s)
    ensures sortBy == "rating" ==> SortedDesc(r, RatingKey())
    ensures sortBy == "name" ==> SortedAsc(r, NameKey(collate))
    ensures sortBy == "location" ==> SortedAsc(r, LocationKey(collate))
    ensures !KnownSort(sortBy) ==> r == s
  {
    if sortBy == "rating" then SortDesc(s, RatingKey())
    else if sortBy == "name" then SortAsc(s, NameKey(collate))
    else if sortBy == "location" then SortAsc(s, LocationKey(collate))
    else
      SortDescEqualKeys(s, NoKey());
      SortDesc(s, NoKey())
  }

  /** `filteredMuseums`. */
  function FilteredMuseums(museums: seq<Museum>, lower: CaseFold, collate: string -> int,
                           query: string, region: string, category: string, sortBy: string): (r: seq<Museum>)
    ensures multiset(r) == multiset(MatchingMuseums(museums, lower, query, region, category))
    ensures forall m | m in r :: m in museums && MuseumMatches(lower, query, region, category, m)
    ensures forall m | m in museums && MuseumMatches(lower, query, region, category, m) :: m in r
    ensures sortBy == "rating" ==> SortedDesc(r, RatingKey())
    ensures sortBy == "name" ==> SortedAsc(r, NameKey(collate))
    ensures sortBy == "location" ==> SortedAsc(r, LocationKey(collate))
    ensures !KnownSort(sortBy) ==> r == MatchingMuseums(museums, lower, query, region, category)
  {
    var s := MatchingMuseums(museums, lower, query, region, category);
    var r := SortMuseums(s, sortBy, collate);
    SameMultisetSameMembers(r, s);
    r
  }

  /** The key the chosen sort orders by; for any other `sortBy` every museum ties. */
  function MuseumSortKey(sortBy: string, collate: string -> int): Museum -> real
  {
    if sortBy == "rating" then RatingKey()
    else if sortBy == "name" then NameKey(collate)
    else if sortBy == "location" then LocationKey(collate)
    else NoKey()
  }

  /** Whatever the sort, museums tied on its key are listed in the order of the rows. */
  lemma SortIsStable(museums: seq<Museum>, lower: CaseFold, collate: string -> int,
                     query: string, region: string, category: string, sortBy: string, v: real)
    ensures KeyClass(FilteredMuseums(museums, lower, collate, query, region, category, sortBy), MuseumSortKey(sortBy, collate), v)
         == KeyClass(MatchingMuseums(museums, lower, query, region, category), MuseumSortKey(sortBy, collate), v)
  {
    var s := MatchingMuseums(museums, lower, query, region, category);
    if sortBy == "rating" {
      SortDescStable(s, RatingKey(), v);
    } else if sortBy == "name" {
      SortAscStable(s, NameKey(collate), v);
    } else if sortBy == "location" {
      SortAscStable(s, LocationKey(collate), v);
    }
  }

  /** The "n musée(s) trouvé(s)" line: the number of museums listed, which the
      sort does not change, and the plural ending it takes. */
  function ResultCount(museums: seq<Museum>, lower: CaseFold, collate: string -> int,
                       query: string, region: string, category: string, sortBy: string): (r: (int, string))
    ensures r.0 == |MatchingMuseums(museums, lower, query, region, category)|
    ensures r.1 == "s" <==> r.0 > 1
  {
    var listed := FilteredMuseums(museums, lower, collate, query, region, category, sortBy);
    assert |multiset(listed)| == |listed|;
    (|listed|, PluralSuffix(|listed|))
  }

  /** With the filters cleared every row is listed. */
  lemma ClearedFiltersKeepAll(museums: seq<Museum>, lower: CaseFold, collate: string -> int, sortBy: string)
    ensures multiset(FilteredMuseums(museums, lower, collate, "", All, All, sortBy)) == multiset(museums)
  {
    forall i | 0 <= i < |museums| ensures MuseumFilter(lower, "", All, All)(museums[i]) {
      EmptyQueryMatches(lower, museums[i].name);
    }
    FilterKeepsAll(museums, MuseumFilter(lower, "", All, All));
  }

  // ---------------------------------------------------------------- page state

  /** What the data-store query returns: rows, or an error carrying a message. */
  datatype FetchResult = Rows(data: seq<Museum>) | Failure(message: string)

  /** The three things the page can render. */
  datatype PageView = LoadingView | ErrorView(message: string) | ListView

  /** `if (loading) … if (error) …`: an error string is shown only when it is
      non-empty, since the empty string is falsy. */
  function ViewOf(loading: bool, error: Option<string>): PageView
  {
    if loading then LoadingView
    else if error.Some? && error.value != "" then ErrorView(error.value)
    else ListView
  }

  datatype PageState = PageState(
    searchQuery: string, selectedRegion: string, selectedCategory: string, sortBy: string,
    museums: seq<Museum>, loading: bool, error: Option<string>)

  const InitialPage := PageState("", All, All, "rating", [], true, None)

  class DirectoryPage {
    var searchQuery: string
    var selectedRegion: string
    var selectedCategory: string
    var sortBy: string
    var museums: seq<Museum>
    var loading: bool
    var error: Option<string>

    function State(): PageState
      reads this
    {
      PageState(searchQuery, selectedRegion, selectedCategory, sortBy, museums, loading, error)
    }

    constructor ()
      ensures State() == InitialPage
    {
      searchQuery, selectedRegion, selectedCategory, sortBy := "", All, All, "rating";
      museums, loading, error := [], true, None;
    }

    /** The body of `fetchMuseums` once the query has answered: the rows are kept,
        or the message recorded; either way loading ends. */
    method ApplyFetch(result: FetchResult)
      modifies this
      ensures !loading
      ensures result.Rows? ==> State() == old(State()).(museums := result.data, loading := false)
      ensures result.Failure? ==> State() == old(State()).(error := Some(result.message), loading := false)
    {
      match result {
        case Rows(data) =>
          museums := data;
        case Failure(message) =>
          error := Some(message);
      }
      loading := false;
    }

    function View(): PageView
      reads this
    {
      ViewOf(loading, error)
    }

    function Listed(lower: CaseFold, collate: string -> int): seq<Museum>
      reads this
    {
      FilteredMuseums(museums, lower, collate, searchQuery, selectedRegion, selectedCategory, sortBy)
    }

    method SetSearchQuery(q: string)
      modifies this
      ensures State() == old(State()).(searchQuery := q)
    {
      searchQuery := q;
    }

    method SetSelectedRegion(r: string)
      modifies this
      ensures State() == old(State()).(selectedRegion := r)
    {
      selectedRegion := r;
    }

    method SetSelectedCategory(c: string)
      modifies this
      ensures State() == old(State()).(selectedCategory := c)
    {
      selectedCategory := c;
    }

    method SetSortBy(s: string)
      modifies this
      ensures State() == old(State()).(sortBy := s)
    {
      sortBy := s;
    }

    /** "Réinitialiser les filtres": the three filters cleared, the sort kept. */
    method ResetFilters()
      modifies this
      ensures State() == old(State()).(searchQuery := "", selectedRegion := All, selectedCategory := All)
    {
      searchQuery, selectedRegion, selectedCategory := "", All, All;
    }
  }

  /** From the initial page, the fetch leads to the list of the rows, or to the
      error view with the message; an empty message falls through to an empty list. */
  lemma FetchOutcome(result: FetchResult)
    ensures var s := if result.Rows? then InitialPage.(museums := result.data, loading := false)
                     else InitialPage.(error := Some(result.message), loading := false);
      && (result.Rows? ==> ViewOf(s.loading, s.error) == ListView && s.museums == result.data)
      && (result.Failure? && result.message != "" ==> ViewOf(s.loading, s.error) == ErrorView(result.message))
      && (result.Failure? && result.message == "" ==> ViewOf(s.loading, s.error) == ListView && s.museums == [])
      && ViewOf(s.loading, s.error) != LoadingView
  {
  }
}
