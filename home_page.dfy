// app/page.tsx: the home page. Once the data store has answered it keeps the
// best rated museums (the carousel's slides), their grouping by region, the
// trending exhibitions and the upcoming events; it picks a featured museum for
// the selected region and filters the museums shown below the hero.

module HomePage {

  import opened Wrappers
  import opened Text
  import opened Seqs
  import opened MuseumsPage

  // ---------------------------------------------------------------- grouping

  /** The museums of `region` in input order: what the loop has pushed onto that
      region's array after going through `s`. */
  function Bucket(s: seq<Museum>, region: string): seq<Museum>
  {
    if s == [] then []
    else Bucket(s[..|s| - 1], region) + (if s[|s| - 1].region == region then [s[|s| - 1]] else [])
  }

  /** `groups` is the grouping of `museums` by region: a bucket exactly for each
      region with museums, holding that region's museums in input order. */
  ghost predicate IsGrouping(museums: seq<Museum>, groups: map<string, seq<Museum>>)
  {
    forall r :: (r in groups <==> Bucket(museums, r) != []) && (r in groups ==> groups[r] == Bucket(museums, r))
  }

  function InRegion(region: string): Museum -> bool
  {
    (m: Museum) => m.region == region
  }

  /** A bucket is the input filtered by region. */
  lemma {:induction false} BucketIsFilter(s: seq<Museum>, region: string)
    ensures Bucket(s, region) == Filter(s, InRegion(region))
    decreases |s|
  {
    if s != [] {
      var last := s[|s| - 1];
      BucketIsFilter(s[..|s| - 1], region);
      FilterAppend(s[..|s| - 1], [last], InRegion(region));
      FilterCons([last], InRegion(region));
      assert s[..|s| - 1] + [last] == s;
    }
  }

  /** Each museum is in the bucket of its own region and in no other, and a
      bucket exists exactly for the regions that occur. */
  lemma BucketMembers(s: seq<Museum>, region: string)
    ensures forall m :: m in Bucket(s, region) <==> m in s && m.region == region
    ensures Bucket(s, region) != [] <==> exists m | m in s :: m.region == region
  {
    BucketIsFilter(s, region);
    var b := Bucket(s, region);
    if b != [] {
      assert b[0] in b;
    }
  }

  /** The body of the loop on the map: an empty array for a region seen for the
      first time, then `m` pushed onto its region's array. */
  function Push(groups: map<string, seq<Museum>>, m: Museum): map<string, seq<Museum>>
  {
    var g := if m.region in groups then groups else groups[m.region := []];
    g[m.region := g[m.region] + [m]]
  }

  /** One iteration of the loop keeps the map a grouping of the museums seen so far. */
  lemma GroupStep(prefix: seq<Museum>, groups: map<string, seq<Museum>>, m: Museum)
    requires IsGrouping(prefix, groups)
    ensures IsGrouping(prefix + [m], Push(groups, m))
  {
    var next, g := prefix + [m], Push(groups, m);
    assert next[..|prefix|] == prefix;
    forall r
      ensures (r in g <==> Bucket(next, r) != []) && (r in g ==> g[r] == Bucket(next, r))
    {
      assert Bucket(next, r) == Bucket(prefix, r) + (if m.region == r then [m] else []);
      if r == m.region {
        assert g[r] == (if r in groups then groups[r] else []) + [m];
      } else {
        assert (r in g) == (r in groups);
      }
    }
  }

  /** The `forEach` that fills `groupedMuseums`: each museum is pushed onto the
      array of its region, created empty on first sight. */
  method GroupByRegion(museums: seq<Museum>) returns (groups: map<string, seq<Museum>>)
    ensures IsGrouping(museums, groups)
  {
    groups := map[];
    var i := 0;
    while i < |museums|
      invariant 0 <= i <= |museums|
      invariant IsGrouping(museums[..i], groups)
    {
      var m := museums[i];
      assert museums[..i + 1] == museums[..i] + [m];
      GroupStep(museums[..i], groups, m);
      if m.region !in groups {
        groups := groups[m.region := []];
      }
      groups := groups[m.region := groups[m.region] + [m]];
      i := i + 1;
    }
    assert museums[..i] == museums;
  }

  /** The summed sizes of the arrays named in `keys`. */
  function SumSizes(keys: seq<string>, groups: map<string, seq<Museum>>): nat
  {
    if keys == [] then 0
    else (if keys[0] in groups then |groups[keys[0]]| else 0) + SumSizes(keys[1..], groups)
  }

  /** The summed sizes of the buckets of `s` named in `keys`. */
  function BucketTotal(s: seq<Museum>, keys: seq<string>): nat
  {
    if keys == [] then 0 else |Bucket(s, keys[0])| + BucketTotal(s, keys[1..])
  }

  lemma {:induction false} BucketTotalOfNone(keys: seq<string>)
    ensures BucketTotal([], keys) == 0
    decreases |keys|
  {
    if keys != [] {
      BucketTotalOfNone(keys[1..]);
    }
  }

  /** Adding one museum at the end adds one to the total when its region is named. */
  lemma {:induction false} BucketTotalStep(s: seq<Museum>, keys: seq<string>)
    requires s != [] && NoDuplicates(keys)
    ensures BucketTotal(s, keys) == BucketTotal(s[..|s| - 1], keys) + (if s[|s| - 1].region in keys then 1 else 0)
    decreases |keys|
  {
    if keys != [] {
      var tail := keys[1..];
      NoDuplicatesTail(keys);
      BucketTotalStep(s, tail);
      assert keys == [keys[0]] + tail;
    }
  }

  /** When `keys` names every region of `s`, once each, the buckets hold every
      museum of `s` exactly once. */
  lemma {:induction false} BucketsPartition(s: seq<Museum>, keys: seq<string>)
    requires NoDuplicates(keys)
    requires forall m | m in s :: m.region in keys
    ensures BucketTotal(s, keys) == |s|
    decreases |s|
  {
    if s == [] {
      BucketTotalOfNone(keys);
    } else {
      var init := s[..|s| - 1];
      assert forall m | m in init :: m in s;
      assert s[|s| - 1] in s;
      BucketsPartition(init, keys);
      BucketTotalStep(s, keys);
    }
  }

  /** On the keys of a grouping, the array sizes are the bucket sizes. */
  lemma {:induction false} SumSizesOfGrouping(museums: seq<Museum>, groups: map<string, seq<Museum>>, keys: seq<string>)
    requires IsGrouping(museums, groups)
    ensures SumSizes(keys, groups) == BucketTotal(museums, keys)
    decreases |keys|
  {
    if keys != [] {
      SumSizesOfGrouping(museums, groups, keys[1..]);
    }
  }

  /** The arrays of a grouping, taken once per key, hold every museum exactly
      once: none is lost and none is pushed twice. */
  lemma GroupingKeepsEveryMuseum(museums: seq<Museum>, groups: map<string, seq<Museum>>, keys: seq<string>)
    requires IsGrouping(museums, groups)
    requires NoDuplicates(keys) && forall r :: r in keys <==> r in groups
    ensures SumSizes(keys, groups) == |museums|
  {
    SumSizesOfGrouping(museums, groups, keys);
    forall m | m in museums
      ensures m.region in keys
    {
      BucketMembers(museums, m.region);
    }
    BucketsPartition(museums, keys);
  }

  // ---------------------------------------------------------------- carousel

  /** A slide number, or NaN: JavaScript's `x % 0` is NaN, and NaN propagates. */
  datatype Slide = Index(i: int) | NaN

  /** JavaScript's `%`: the remainder takes the sign of the dividend. */
  function JsRem(a: int, n: int): (r: Slide)
    ensures n == 0 <==> r == NaN
    ensures n > 0 && a >= 0 ==> r == Index(a % n) && 0 <= r.i < n
    ensures n != 0 && a < 0 ==> r.Index? && r.i <= 0
  {
    var m := if n >= 0 then n else -n;
    if n == 0 then NaN
    else if a >= 0 then Index(a % m)
    else Index(-((-a) % m))
  }

  /** `nextSlide` over `n` slides. */
  function NextSlide(s: Slide, n: int): Slide
  {
    match s
    case NaN => NaN
    case Index(i) => JsRem(i + 1, n)
  }

  /** `prevSlide` over `n` slides. */
  function PrevSlide(s: Slide, n: int): Slide
  {
    match s
    case NaN => NaN
    case Index(i) => JsRem(i - 1 + n, n)
  }

  lemma {:induction false} MulAtLeast(k: int, n: int)
    requires k >= 1 && n > 0
    ensures k * n >= n
    decreases k
  {
    if k > 1 {
      MulAtLeast(k - 1, n);
      assert k * n == (k - 1) * n + n;
    }
  }

  /** The remainder is determined by any decomposition `a == q * n + r`. */
  lemma ModUnique(a: int, n: int, q: int, r: int)
    requires n > 0 && 0 <= r < n && a == q * n + r
    ensures a % n == r
  {
    var q' := a / n;
    var r' := a % n;
    assert a == q' * n + r';
    assert (q - q') * n == r' - r;
    if q > q' {
      MulAtLeast(q - q', n);
    } else if q < q' {
      MulAtLeast(q' - q, n);
    }
  }

  lemma ModSucc(a: int, n: int)
    requires a >= 0 && n > 0
    ensures (a % n + 1) % n == (a + 1) % n
  {
    var q := a / n;
    var r := a % n;
    assert a == q * n + r;
    if r + 1 < n {
      ModUnique(a + 1, n, q, r + 1);
      ModUnique(r + 1, n, 0, r + 1);
    } else {
      ModUnique(a + 1, n, q + 1, 0);
      ModUnique(n, n, 1, 0);
    }
  }

  /** Both steps keep a valid slide number valid. */
  lemma StepsStayInRange(i: int, n: int)
    requires 0 <= i < n
    ensures NextSlide(Index(i), n).Index? && 0 <= NextSlide(Index(i), n).i < n
    ensures PrevSlide(Index(i), n).Index? && 0 <= PrevSlide(Index(i), n).i < n
  {
  }

  /** Going back undoes going forward, and the other way round. */
  lemma PrevUndoesNext(i: int, n: int)
    requires 0 <= i < n
    ensures PrevSlide(NextSlide(Index(i), n), n) == Index(i)
    ensures NextSlide(PrevSlide(Index(i), n), n) == Index(i)
  {
    if i + 1 < n {
      ModUnique(i + 1, n, 0, i + 1);
      ModUnique(i + n, n, 1, i);
    } else {
      ModUnique(n, n, 1, 0);
      ModUnique(n - 1, n, 0, n - 1);
    }
    if i == 0 {
      ModUnique(n - 1, n, 0, n - 1);
      ModUnique(n, n, 1, 0);
    } else {
      ModUnique(i - 1 + n, n, 1, i - 1);
      ModUnique(i, n, 0, i);
    }
  }

  /** `k` presses of "next". */
  function NextTimes(s: Slide, n: int, k: nat): Slide
  {
    if k == 0 then s else NextSlide(NextTimes(s, n, k - 1), n)
  }

  /** After `k` presses the slide is `(i + k) % n`. */
  lemma {:induction false} NextTimesIsRemainder(i: int, n: int, k: nat)
    requires 0 <= i < n
    ensures NextTimes(Index(i), n, k) == Index((i + k) % n)
  {
    if k == 0 {
      ModUnique(i, n, 0, i);
    } else {
      NextTimesIsRemainder(i, n, k - 1);
      ModSucc(i + k - 1, n);
    }
  }

  /** `n` presses of "next" return to the start. */
  lemma FullTurnReturnsToStart(i: int, n: int)
    requires 0 <= i < n
    ensures NextTimes(Index(i), n, n) == Index(i)
  {
    NextTimesIsRemainder(i, n, n);
    ModUnique(i + n, n, 1, i);
  }

  /** With no slides both steps yield NaN, and the carousel stays NaN. */
  lemma EmptyCarouselIsNaN(s: Slide, k: nat)
    ensures NextSlide(s, 0) == NaN && PrevSlide(s, 0) == NaN
    ensures NextTimes(NaN, 0, k) == NaN
  {
  }

  /** `handleKeyDown`. */
  function KeyStep(s: Slide, n: int, key: string): (r: Slide)
    ensures key == "ArrowLeft" ==> r == PrevSlide(s, n)
    ensures key == "ArrowRight" ==> r == NextSlide(s, n)
    ensures key != "ArrowLeft" && key != "ArrowRight" ==> r == s
  {
    if key == "ArrowLeft" then PrevSlide(s, n)
    else if key == "ArrowRight" then NextSlide(s, n)
    else s
  }

  // ---------------------------------------------------------------- featured museum

  /** The hero card: a museum, or the placeholder shown before any museum is known. */
  datatype FeaturedCard = MuseumCard(museum: Museum) | LoadingCard

  const LoadingCardId := 1
  const LoadingCardName := "Loading..."
  const PlaceholderImage := "/placeholder.svg"

  /** `featuredMuseums[0] || placeholder`. */
  function FirstOr(s: seq<Museum>): FeaturedCard
  {
    if s != [] then MuseumCard(s[0]) else LoadingCard
  }

  /** `getFeaturedMuseum`. An existing bucket is never an empty array, but the
      fallbacks of the second `return` are kept as written. */
  function GetFeaturedMuseum(region: string, featured: seq<Museum>, groups: map<string, seq<Museum>>): FeaturedCard
  {
    if region == All || region !in groups then FirstOr(featured)
    else if groups[region] != [] then MuseumCard(groups[region][0])
    else FirstOr(featured)
  }

  /** Over the grouping of the featured museums, the hero card is the first
      featured museum of the selected region; with no region, or a region without
      museums, the first featured museum; with no museums at all, the placeholder. */
  lemma FeaturedIsFirstOfRegion(region: string, featured: seq<Museum>, groups: map<string, seq<Museum>>)
    requires IsGrouping(featured, groups)
    ensures region != All && (exists m | m in featured :: m.region == region) ==>
      exists j :: 0 <= j < |featured| && featured[j].region == region
        && (forall k :: 0 <= k < j ==> featured[k].region != region)
        && GetFeaturedMuseum(region, featured, groups) == MuseumCard(featured[j])
    ensures region == All || (forall m | m in featured :: m.region != region) ==>
      GetFeaturedMuseum(region, featured, groups) == FirstOr(featured)
    ensures GetFeaturedMuseum(region, featured, groups) == LoadingCard <==> featured == []
  {
    BucketMembers(featured, region);
    if region != All && exists m | m in featured :: m.region == region {
      var j := FirstInRegion(featured, region);
      BucketFirst(featured, region, j);
    }
  }

  /** The index of the first museum of `region`, when there is one. */
  lemma {:induction false} FirstInRegion(s: seq<Museum>, region: string) returns (j: int)
    requires exists m | m in s :: m.region == region
    ensures 0 <= j < |s| && s[j].region == region && forall k :: 0 <= k < j ==> s[k].region != region
    decreases |s|
  {
    if s[0].region == region {
      j := 0;
    } else {
      var m :| m in s && m.region == region;
      assert m in s[1..];
      var j' := FirstInRegion(s[1..], region);
      j := j' + 1;
      forall k | 0 <= k < j ensures s[k].region != region {
        if k > 0 {
          assert s[k] == s[1..][k - 1];
        }
      }
    }
  }

  /** A bucket starts with the first museum of its region. */
  lemma {:induction false} BucketFirst(s: seq<Museum>, region: string, j: int)
    requires 0 <= j < |s| && s[j].region == region && forall k :: 0 <= k < j ==> s[k].region != region
    ensures Bucket(s, region) != [] && Bucket(s, region)[0] == s[j]
    decreases |s|
  {
    var n := |s| - 1;
    var init := s[..n];
    var last: seq<Museum> := if s[n].region == region then [s[n]] else [];
    assert Bucket(s, region) == Bucket(init, region) + last;
    if j < n {
      assert init[j] == s[j];
      forall k | 0 <= k < j ensures init[k].region != region {
        assert init[k] == s[k];
      }
      BucketFirst(init, region, j);
    } else {
      forall m | m in init ensures m.region != region {
        var k :| 0 <= k < n && init[k] == m;
        assert init[k] == s[k];
      }
      BucketMembers(init, region);
      assert Bucket(init, region) == [];
    }
  }

  // ---------------------------------------------------------------- hero filter

  /** The home page's filter: the region selector is compared with the museum's
      `location`, not its `region`. */
  predicate HomeMuseumMatches(lower: CaseFold, query: string, region: string, category: string, m: Museum)
  {
    && (MatchesQuery(lower, m.name, query) || MatchesQuery(lower, m.location, query))
    && (region == All || m.location == region)
    && (category == All || m.category == category)
  }

  function HomeFilter(lower: CaseFold, query: string, region: string, category: string): Museum -> bool
  {
    (m: Museum) => HomeMuseumMatches(lower, query, region, category, m)
  }

  /** `filteredMuseums` of the home page, in the order of the featured list. */
  function HomeFilteredMuseums(featured: seq<Museum>, lower: CaseFold, query: string, region: string, category: string): (r: seq<Museum>)
    ensures forall m | m in r :: m in featured && HomeMuseumMatches(lower, query, region, category, m)
    ensures forall m | m in featured && HomeMuseumMatches(lower, query, region, category, m) :: m in r
    ensures IsSubsequence(r, featured)
  {
    FilterIsSubsequence(featured, HomeFilter(lower, query, region, category));
    Filter(featured, HomeFilter(lower, query, region, category))
  }

  /** The home filter agrees with the directory's filter on every museum whose
      location is its region, and may differ on the others. */
  lemma HomeFilterVersusDirectory(lower: CaseFold, query: string, region: string, category: string, m: Museum)
    ensures m.location == m.region ==>
      (HomeMuseumMatches(lower, query, region, category, m) <==> MuseumMatches(lower, query, region, category, m))
    ensures region != All && m.location != region && m.region == region ==>
      !HomeMuseumMatches(lower, query, region, category, m)
  {
  }

  // ---------------------------------------------------------------- exhibits

  /** An exhibition row as the data store returns it, joined with its museum's
      name; `endDate` is the timestamp of `end_date`. */
  datatype ExhibitRow = ExhibitRow(id: int, title: string, museumName: Option<string>, endDate: int, image: Option<string>)

  /** An entry of `trendingExhibits`. */
  datatype TrendingExhibit = TrendingExhibit(id: int, title: string, museum: string, endDate: int, image: string, visitors: int)

  /** `v || d` for an optional string: a missing or empty value gives `d`. */
  function OrDefault(v: Option<string>, d: string): (r: string)
    ensures v.Some? && v.value != "" ==> r == v.value
    ensures v.None? || v.value == "" ==> r == d
  {
    if v.Some? && v.value != "" then v.value else d
  }

  /** One step of the `map` producing `formattedExhibits`; `visitors` is the
      random count drawn for it. */
  function FormatExhibit(row: ExhibitRow, visitors: int): (e: TrendingExhibit)
    ensures e.id == row.id && e.title == row.title && e.endDate == row.endDate && e.visitors == visitors
    ensures e.museum == OrDefault(row.museumName, "Unknown Museum")
    ensures e.image == OrDefault(row.image, PlaceholderImage)
    ensures e.museum != "" && e.image != ""
  {
    TrendingExhibit(row.id, row.title, OrDefault(row.museumName, "Unknown Museum"), row.endDate,
                    OrDefault(row.image, PlaceholderImage), visitors)
  }

  function FormatExhibits(rows: seq<ExhibitRow>, visitors: seq<int>): (r: seq<TrendingExhibit>)
    requires |visitors| == |rows|
    ensures |r| == |rows|
    ensures forall i :: 0 <= i < |r| ==> r[i] == FormatExhibit(rows[i], visitors[i])
  {
    seq(|rows|, i requires 0 <= i < |rows| => FormatExhibit(rows[i], visitors[i]))
  }

  /** The upcoming events, fixed in the page. */
  datatype UpcomingEvent = UpcomingEvent(id: int, title: string, date: string, location: string, kind: string)

  const MockEvents := [
    UpcomingEvent(1, "Nuit des Musées", "2024-05-18", "Toute la France", "Événement National"),
    UpcomingEvent(2, "Conférence: Art et IA", "2024-02-25", "Centre Pompidou", "Conférence")
  ]

  // ---------------------------------------------------------------- page state

  /** The two queries of `fetchData`: both answered, or one of them failed. */
  datatype HomeFetch = Loaded(museums: seq<Museum>, exhibits: seq<ExhibitRow>, visitors: seq<int>) | Failed

  class Home {
    var currentSlide: Slide
    var searchQuery: string
    var selectedRegion: string
    var selectedCategory: string
    var isLoading: bool
    var featuredMuseums: seq<Museum>
    var trendingExhibits: seq<TrendingExhibit>
    var upcomingEvents: seq<UpcomingEvent>
    var museumsByRegion: map<string, seq<Museum>>

    /** The bucket map always groups the featured museums. */
    ghost predicate Valid()
      reads this
    {
      IsGrouping(featuredMuseums, museumsByRegion)
    }

    constructor ()
      ensures Valid()
      ensures currentSlide == Index(0) && searchQuery == "" && selectedRegion == All && selectedCategory == All
      ensures isLoading && featuredMuseums == [] && trendingExhibits == [] && upcomingEvents == []
      ensures museumsByRegion == map[]
    {
      currentSlide := Index(0);
      searchQuery, selectedRegion, selectedCategory := "", All, All;
      isLoading := true;
      featuredMuseums, trendingExhibits, upcomingEvents := [], [], [];
      museumsByRegion := map[];
    }

    /** The body of `fetchData` once the queries have answered: on success every
        list is set and the museums grouped; on failure nothing but the loading
        flag changes. */
    method ApplyFetch(result: HomeFetch)
      requires Valid()
      requires result.Loaded? ==> |result.visitors| == |result.exhibits|
      modifies this
      ensures Valid() && !isLoading
      ensures currentSlide == old(currentSlide) && searchQuery == old(searchQuery)
      ensures selectedRegion == old(selectedRegion) && selectedCategory == old(selectedCategory)
      ensures result.Loaded? ==>
        && featuredMuseums == result.museums
        && trendingExhibits == FormatExhibits(result.exhibits, result.visitors)
        && upcomingEvents == MockEvents
      ensures result.Failed? ==>
        && featuredMuseums == old(featuredMuseums) && trendingExhibits == old(trendingExhibits)
        && upcomingEvents == old(upcomingEvents) && museumsByRegion == old(museumsByRegion)
    {
      if result.Loaded? {
        var groups := GroupByRegion(result.museums);
        featuredMuseums := result.museums;
        trendingExhibits := FormatExhibits(result.exhibits, result.visitors);
        upcomingEvents := MockEvents;
        museumsByRegion := groups;
      }
      isLoading := false;
    }

    method NextSlideStep()
      modifies this`currentSlide
      ensures currentSlide == NextSlide(old(currentSlide), |featuredMuseums|)
    {
      currentSlide := NextSlide(currentSlide, |featuredMuseums|);
    }

    method PrevSlideStep()
      modifies this`currentSlide
      ensures currentSlide == PrevSlide(old(currentSlide), |featuredMuseums|)
    {
      currentSlide := PrevSlide(currentSlide, |featuredMuseums|);
    }

    method HandleKeyDown(key: string)
      modifies this`currentSlide
      ensures currentSlide == KeyStep(old(currentSlide), |featuredMuseums|, key)
    {
      if key == "ArrowLeft" {
        PrevSlideStep();
      } else if key == "ArrowRight" {
        NextSlideStep();
      }
    }

    method SetSearchQuery(q: string)
      modifies this`searchQuery
      ensures searchQuery == q
    {
      searchQuery := q;
    }

    method SetSelectedRegion(r: string)
      modifies this`selectedRegion
      ensures selectedRegion == r
    {
      selectedRegion := r;
    }

    method SetSelectedCategory(c: string)
      modifies this`selectedCategory
      ensures selectedCategory == c
    {
      selectedCategory := c;
    }

    function FeaturedMuseum(): FeaturedCard
      reads this
    {
      GetFeaturedMuseum(selectedRegion, featuredMuseums, museumsByRegion)
    }

    function Listed(lower: CaseFold): seq<Museum>
      reads this
    {
      HomeFilteredMuseums(featuredMuseums, lower, searchQuery, selectedRegion, selectedCategory)
    }
  }
}
