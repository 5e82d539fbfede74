// app/exhibits/page.tsx: the exhibition listing. A fixed list of exhibitions is
// filtered by search text, category and status and sorted by end date,
// popularity or title; a status is shown as a coloured badge.

module ExhibitsPage {

  import opened Wrappers
  import opened Text
  import opened Seqs
  import opened StableSort

  /** An exhibition; `startDate` and `endDate` are the timestamps their date
      strings denote. */
  datatype Exhibit = Exhibit(
    id: int, title: string, museum: string, location: string, category: string, image: string,
    startDate: int, endDate: int, status: string, visitors: int, description: string, price: string)

  const All := "all"

  /** The page's four controls. */
  datatype ExhibitFilters = ExhibitFilters(searchQuery: string, selectedCategory: string, selectedStatus: string, sortBy: string)

  const InitialFilters := ExhibitFilters("", All, All, "endDate")

  /** "Réinitialiser les filtres": search, category and status cleared. */
  function ResetFilters(f: ExhibitFilters): ExhibitFilters
  {
    f.(searchQuery := "", selectedCategory := All, selectedStatus := All)
  }

  predicate ExhibitMatches(lower: CaseFold, f: ExhibitFilters, e: Exhibit)
  {
    && (MatchesQuery(lower, e.title, f.searchQuery) || MatchesQuery(lower, e.museum, f.searchQuery))
    && (f.selectedCategory == All || e.category == f.selectedCategory)
    && (f.selectedStatus == All || e.status == f.selectedStatus)
  }

  function ExhibitFilter(lower: CaseFold, f: ExhibitFilters): Exhibit -> bool
  {
    (e: Exhibit) => ExhibitMatches(lower, f, e)
  }

  function MatchingExhibits(exhibits: seq<Exhibit>, lower: CaseFold, f: ExhibitFilters): (r: seq<Exhibit>)
    ensures forall e | e in r :: e in exhibits && ExhibitMatches(lower, f, e)
    ensures forall e | e in exhibits && ExhibitMatches(lower, f, e) :: e in r
    ensures IsSubsequence(r, exhibits)
  {
    FilterIsSubsequence(exhibits, ExhibitFilter(lower, f));
    Filter(exhibits, ExhibitFilter(lower, f))
  }

  function EndDateKey(): Exhibit -> real
  {
    (e: Exhibit) => e.endDate as real
  }

  function VisitorsKey(): Exhibit -> real
  {
    (e: Exhibit) => e.visitors as real
  }

  /** `a.title.localeCompare(b.title)`, as the rank `collate` gives each title. */
  function TitleKey(collate: string -> int): Exhibit -> real
  {
    (e: Exhibit) => collate(e.title) as real
  }

  function NoKey(): Exhibit -> real
  {
    (e: Exhibit) => 0.0
  }

  predicate KnownSort(sortBy: string)
  {
    sortBy == "endDate" || sortBy == "visitors" || sortBy == "title"
  }

  /** The sort step: soonest ending first, most visited first, titles in collation
      order, or the input order for any other `sortBy`. */
  function SortExhibits(s: seq<Exhibit>, sortBy: string, collate: string -> int): (r: seq<Exhibit>)
    ensures multiset(r) == multiset(s)
    ensures sortBy == "endDate" ==> SortedAsc(r, EndDateKey())
    ensures sortBy == "visitors" ==> SortedDesc(r, VisitorsKey())
    ensures sortBy == "title" ==> SortedAsc(r, TitleKey(collate))
    ensures !KnownSort(sortBy) ==> r == s
  {
    if sortBy == "endDate" then SortAsc(s, EndDateKey())
    else if sortBy == "visitors" then SortDesc(s, VisitorsKey())
    else if sortBy == "title" then SortAsc(s, TitleKey(collate))
    else
      SortDescEqualKeys(s, NoKey());
      SortDesc(s, NoKey())
  }

  /** `filteredExhibits`. */
  function FilteredExhibits(exhibits: seq<Exhibit>, lower: CaseFold, collate: string -> int, f: ExhibitFilters): (r: seq<Exhibit>)
    ensures multiset(r) == multiset(MatchingExhibits(exhibits, lower, f))
    ensures forall e | e in r :: e in exhibits && ExhibitMatches(lower, f, e)
    ensures forall e | e in exhibits && ExhibitMatches(lower, f, e) :: e in r
    ensures f.sortBy == "endDate" ==> SortedAsc(r, EndDateKey())
    ensures f.sortBy == "visitors" ==> SortedDesc(r, VisitorsKey())
    ensures f.sortBy == "title" ==> SortedAsc(r, TitleKey(collate))
    ensures !KnownSort(f.sortBy) ==> r == MatchingExhibits(exhibits, lower, f)
  {
    var s := MatchingExhibits(exhibits, lower, f);
    var r := SortExhibits(s, f.sortBy, collate);
    SameMultisetSameMembers(r, s);
    r
  }

  /** The key the chosen sort orders by; for any other `sortBy` every exhibition ties. */
  function ExhibitSortKey(sortBy: string, collate: string -> int): Exhibit -> real
  {
    if sortBy == "endDate" then EndDateKey()
    else if sortBy == "visitors" then VisitorsKey()
    else if sortBy == "title" then TitleKey(collate)
    else NoKey()
  }

  /** Whatever the sort, exhibitions tied on its key keep their listing order. */
  lemma SortIsStable(exhibits: seq<Exhibit>, lower: CaseFold, collate: string -> int, f: ExhibitFilters, v: real)
    ensures KeyClass(FilteredExhibits(exhibits, lower, collate, f), ExhibitSortKey(f.sortBy, collate), v)
         == KeyClass(MatchingExhibits(exhibits, lower, f), ExhibitSortKey(f.sortBy, collate), v)
  {
    var s := MatchingExhibits(exhibits, lower, f);
    if f.sortBy == "endDate" {
      SortAscStable(s, EndDateKey(), v);
    } else if f.sortBy == "visitors" {
      SortDescStable(s, VisitorsKey(), v);
    } else if f.sortBy == "title" {
      SortAscStable(s, TitleKey(collate), v);
    }
  }

  /** The "n exposition(s) trouvée(s)" line: the number of exhibitions listed,
      which the sort does not change, and the plural ending it takes. */
  function ResultCount(exhibits: seq<Exhibit>, lower: CaseFold, collate: string -> int, f: ExhibitFilters): (r: (int, string))
    ensures r.0 == |MatchingExhibits(exhibits, lower, f)|
    ensures r.1 == "s" <==> r.0 > 1
  {
    var listed := FilteredExhibits(exhibits, lower, collate, f);
    assert |multiset(listed)| == |listed|;
    (|listed|, PluralSuffix(|listed|))
  }

  /** After a reset every exhibition is listed again, under the sort that was chosen. */
  lemma ResetListsEverything(exhibits: seq<Exhibit>, lower: CaseFold, collate: string -> int, f: ExhibitFilters)
    ensures ResetFilters(f).sortBy == f.sortBy
    ensures multiset(FilteredExhibits(exhibits, lower, collate, ResetFilters(f))) == multiset(exhibits)
  {
    forall i | 0 <= i < |exhibits| ensures ExhibitFilter(lower, ResetFilters(f))(exhibits[i]) {
      EmptyQueryMatches(lower, exhibits[i].title);
    }
    FilterKeepsAll(exhibits, ExhibitFilter(lower, ResetFilters(f)));
  }

  const GreenBadge := "bg-green-100 text-green-800"
  const BlueBadge := "bg-blue-100 text-blue-800"
  const OrangeBadge := "bg-orange-100 text-orange-800"
  const GrayBadge := "bg-gray-100 text-gray-800"

  predicate KnownStatus(status: string)
  {
    status == "En cours" || status == "À venir" || status == "Se termine bientôt"
  }

  /** `getStatusColor`: one badge per known status, gray for any other string. */
  function GetStatusColor(status: string): (c: string)
    ensures c == GrayBadge <==> !KnownStatus(status)
    ensures c in {GreenBadge, BlueBadge, OrangeBadge, GrayBadge}
  {
    match status
    case "En cours" => GreenBadge
    case "À venir" => BlueBadge
    case "Se termine bientôt" => OrangeBadge
    case _ => GrayBadge
  }

  /** Distinct known statuses get distinct badges. */
  lemma StatusColorsDistinct(s: string, t: string)
    requires KnownStatus(s) && KnownStatus(t) && s != t
    ensures GetStatusColor(s) != GetStatusColor(t)
  {
  }

  /** The visitors line of a card: present, with the count, only for a positive count. */
  function VisitorLine(e: Exhibit): (r: Option<int>)
    ensures r.Some? <==> e.visitors > 0
    ensures r.Some? ==> r.value == e.visitors
  {
    if e.visitors > 0 then Some(e.visitors) else None
  }
}
