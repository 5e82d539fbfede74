// components/artwork-gallery.tsx: the gallery of artworks and artists, with a
// search box, a style and an artist selector, two tabs and a list of favourite
// artwork ids. The two catalogues are passed in as sequences.

module ArtworkGallery {

  import opened Wrappers
  import opened Text
  import opened Seqs

  datatype Artwork = Artwork(
    id: int, title: string, artist: string, year: int, medium: string, dimensions: string,
    description: string, image: string, style: string, rating: real, isFavorite: bool, museum: string)

  datatype Artist = Artist(
    id: int, name: string, birthYear: int, deathYear: Option<int>, nationality: string,
    biography: string, style: string, famousWorks: seq<string>, image: string, artworksCount: int)

  datatype Tab = ArtworksTab | ArtistsTab

  /** The selector value that disables a selector's test. */
  const All := "all"

  /** The three tests `filteredArtworks` combines. */
  predicate ArtworkMatches(lower: CaseFold, query: string, style: string, artist: string, a: Artwork)
  {
    && (MatchesQuery(lower, a.title, query) || MatchesQuery(lower, a.artist, query))
    && (style == All || a.style == style)
    && (artist == All || a.artist == artist)
  }

  function ArtworkFilter(lower: CaseFold, query: string, style: string, artist: string): Artwork -> bool
  {
    (a: Artwork) => ArtworkMatches(lower, query, style, artist, a)
  }

  /** `filteredArtworks`: the artworks passing all three tests, in catalogue order. */
  function FilteredArtworks(artworks: seq<Artwork>, lower: CaseFold, query: string, style: string, artist: string): (r: seq<Artwork>)
    ensures forall a | a in r :: a in artworks && ArtworkMatches(lower, query, style, artist, a)
    ensures forall a | a in artworks && ArtworkMatches(lower, query, style, artist, a) :: a in r
    ensures IsSubsequence(r, artworks)
  {
    FilterIsSubsequence(artworks, ArtworkFilter(lower, query, style, artist));
    Filter(artworks, ArtworkFilter(lower, query, style, artist))
  }

  function ArtistFilter(lower: CaseFold, query: string): Artist -> bool
  {
    (a: Artist) => MatchesQuery(lower, a.name, query)
  }

  /** `filteredArtists`: the artists whose name contains the query, case folded. */
  function FilteredArtists(artists: seq<Artist>, lower: CaseFold, query: string): (r: seq<Artist>)
    ensures forall a | a in r :: a in artists && MatchesQuery(lower, a.name, query)
    ensures forall a | a in artists && MatchesQuery(lower, a.name, query) :: a in r
    ensures IsSubsequence(r, artists)
  {
    FilterIsSubsequence(artists, ArtistFilter(lower, query));
    Filter(artists, ArtistFilter(lower, query))
  }

  /** With an empty query and both selectors on "all" every artwork and every
      artist is listed, in catalogue order. */
  lemma ClearedFiltersShowEverything(artworks: seq<Artwork>, artists: seq<Artist>, lower: CaseFold)
    ensures FilteredArtworks(artworks, lower, "", All, All) == artworks
    ensures FilteredArtists(artists, lower, "") == artists
  {
    forall i | 0 <= i < |artworks| ensures ArtworkFilter(lower, "", All, All)(artworks[i]) {
      EmptyQueryMatches(lower, artworks[i].title);
    }
    forall i | 0 <= i < |artists| ensures ArtistFilter(lower, "")(artists[i]) {
      EmptyQueryMatches(lower, artists[i].name);
    }
    FilterKeepsAll(artworks, ArtworkFilter(lower, "", All, All));
    FilterKeepsAll(artists, ArtistFilter(lower, ""));
  }

  /** The "no results" block: the list of the active tab is empty. */
  predicate ShowNoResults(tab: Tab, artworksView: seq<Artwork>, artistsView: seq<Artist>)
  {
    (tab == ArtworksTab && |artworksView| == 0) || (tab == ArtistsTab && |artistsView| == 0)
  }

  /** The block appears exactly when nothing in the active tab's catalogue passes
      the filters. */
  lemma NoResultsMeaning(artworks: seq<Artwork>, artists: seq<Artist>, lower: CaseFold,
                         query: string, style: string, artist: string, tab: Tab)
    ensures ShowNoResults(tab, FilteredArtworks(artworks, lower, query, style, artist), FilteredArtists(artists, lower, query))
        <==> (if tab == ArtworksTab then forall a | a in artworks :: !ArtworkMatches(lower, query, style, artist, a)
              else forall a | a in artists :: !MatchesQuery(lower, a.name, query))
  {
    var rw := FilteredArtworks(artworks, lower, query, style, artist);
    var rs := FilteredArtists(artists, lower, query);
    if rw != [] {
      assert rw[0] in rw;
    }
    if rs != [] {
      assert rs[0] in rs;
    }
  }

  // ---------------------------------------------------------------- favourites

  /** `toggleFavorite`: a favourite id is removed, any other is appended. */
  function FavoritesAfterToggle(prev: seq<int>, id: int): (r: seq<int>)
    ensures id in r <==> id !in prev
    ensures forall other | other != id :: other in r <==> other in prev
    ensures id !in prev ==> r == prev + [id]
    ensures IsSubsequence(r, prev + [id])
  {
    if id in prev then
      SubsequenceAppend(Without(prev, id), prev, id);
      Without(prev, id)
    else
      SubsequenceOfSelf(prev + [id]);
      prev + [id]
  }

  /** Appending to the larger sequence keeps a subsequence a subsequence. */
  lemma {:induction false} SubsequenceAppend(r: seq<int>, s: seq<int>, x: int)
    requires IsSubsequence(r, s)
    ensures IsSubsequence(r, s + [x])
    decreases |s|
  {
    if r != [] && s != [] {
      assert (s + [x])[1..] == s[1..] + [x];
      if r[0] == s[0] {
        SubsequenceAppend(r[1..], s[1..], x);
      } else {
        SubsequenceAppend(r, s[1..], x);
      }
    }
  }

  /** Toggling keeps the favourites free of duplicates. */
  lemma ToggleKeepsNoDuplicates(prev: seq<int>, id: int)
    requires NoDuplicates(prev)
    ensures NoDuplicates(FavoritesAfterToggle(prev, id))
  {
    if id in prev {
      WithoutNoDuplicates(prev, id);
    } else {
      var r := prev + [id];
      forall i, j | 0 <= i < j < |r| ensures r[i] != r[j] {
        assert r[i] == prev[i];
      }
    }
  }

  /** Toggling the same id twice gives back the same favourites: exactly the same
      sequence when the id was not a favourite, the same set when it was (it then
      moves to the end). */
  lemma ToggleTwice(prev: seq<int>, id: int)
    ensures var r := FavoritesAfterToggle(FavoritesAfterToggle(prev, id), id);
      (forall x :: x in r <==> x in prev) && (id !in prev ==> r == prev)
  {
    if id !in prev {
      assert Without(prev + [id], id) == prev by {
        WithoutAppendedLast(prev, id);
      }
    }
  }

  lemma {:induction false} WithoutAppendedLast(s: seq<int>, v: int)
    requires v !in s
    ensures Without(s + [v], v) == s
    decreases |s|
  {
    if s == [] {
      assert Without([v], v) == Without([v][1..], v);
    } else {
      WithoutAppendedLast(s[1..], v);
      assert (s + [v])[1..] == s[1..] + [v];
      assert s == [s[0]] + s[1..];
    }
  }

  // ---------------------------------------------------------------- component

  datatype GalleryState = GalleryState(
    searchQuery: string, selectedStyle: string, selectedArtist: string, activeTab: Tab, favorites: seq<int>)

  /** Artwork 2 is a favourite from the start. */
  const InitialGallery := GalleryState("", All, All, ArtworksTab, [2])

  class Gallery {
    var searchQuery: string
    var selectedStyle: string
    var selectedArtist: string
    var activeTab: Tab
    var favorites: seq<int>

    function State(): GalleryState
      reads this
    {
      GalleryState(searchQuery, selectedStyle, selectedArtist, activeTab, favorites)
    }

    ghost predicate Valid()
      reads this
    {
      NoDuplicates(favorites)
    }

    constructor ()
      ensures Valid() && State() == InitialGallery
    {
      searchQuery, selectedStyle, selectedArtist := "", All, All;
      activeTab, favorites := ArtworksTab, [2];
    }

    method SetSearchQuery(q: string)
      requires Valid()
      modifies this
      ensures Valid() && State() == old(State()).(searchQuery := q)
    {
      searchQuery := q;
    }

    method SetSelectedStyle(s: string)
      requires Valid()
      modifies this
      ensures Valid() && State() == old(State()).(selectedStyle := s)
    {
      selectedStyle := s;
    }

    method SetSelectedArtist(a: string)
      requires Valid()
      modifies this
      ensures Valid() && State() == old(State()).(selectedArtist := a)
    {
      selectedArtist := a;
    }

    method SetActiveTab(t: Tab)
      requires Valid()
      modifies this
      ensures Valid() && State() == old(State()).(activeTab := t)
    {
      activeTab := t;
    }

    method ToggleFavorite(id: int)
      requires Valid()
      modifies this
      ensures Valid()
      ensures State() == old(State()).(favorites := FavoritesAfterToggle(old(favorites), id))
    {
      ToggleKeepsNoDuplicates(favorites, id);
      favorites := FavoritesAfterToggle(favorites, id);
    }

    /** The "reset filters" button: query, style and artist back to their initial
        values; the tab and the favourites are kept. */
    method ResetFilters()
      requires Valid()
      modifies this
      ensures Valid()
      ensures State() == old(State()).(searchQuery := "", selectedStyle := All, selectedArtist := All)
    {
      searchQuery := "";
      selectedStyle := All;
      selectedArtist := All;
    }

    function ArtworksView(artworks: seq<Artwork>, lower: CaseFold): seq<Artwork>
      reads this
    {
      FilteredArtworks(artworks, lower, searchQuery, selectedStyle, selectedArtist)
    }

    function ArtistsView(artists: seq<Artist>, lower: CaseFold): seq<Artist>
      reads this
    {
      FilteredArtists(artists, lower, searchQuery)
    }
  }
}
