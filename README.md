# Museum library: a verified model of its state and list views

The museum library is a Next.js site. It has a museum directory, an exhibitions
listing, a home page with a carousel of the best rated museums, an artwork
gallery, a community forum, two review sections and an accessibility panel. Most
of it is presentation. The logic sits in a few React components and pages. They
hold drafts that handlers update, and they derive filtered and sorted lists from
arrays of rows. This project models that logic in Dafny and proves what the
pages promise about it.

Layout, one module per file:

- `text.dfy` (`Text`): JavaScript's `trim` over the ECMAScript white-space set, and
  `includes` as infix search. `toLowerCase` is an abstract case-folding function
  (`CaseFold`). Also the plural suffix of the result counters.
- `seqs.dfy` (`Seqs`): `Array.prototype.filter`, `slice(0, n)`, removal of one value,
  and the subsequence relation.
- `sorting.dfy` (`StableSort`): `Array.prototype.sort` with a numeric comparator.
  Section 22.1.3.27 of ECMAScript 2019 requires the sort to be stable. So the
  outcome is the unique stable sort by the comparator's key, computed here by
  insertion. `localeCompare` is an abstract collation rank `string -> int`.
- `review_rules.dfy` (`ReviewRules`): the submit guard and the bucket percentage
  shared by the two review components.
- `enhanced_reviews.dfy` (`EnhancedReviews`): components/enhanced-review-system.tsx.
  The composer is a class whose methods are the handlers. The filtered and sorted
  view, the histogram and the empty-list message are functions.
- `review_system.dfy` (`ReviewSystem`): components/review-system.tsx.
- `artwork_gallery.dfy` (`ArtworkGallery`): components/artwork-gallery.tsx.
- `museums_page.dfy` (`MuseumsPage`): app/museums/page.tsx.
- `exhibits_page.dfy` (`ExhibitsPage`): app/exhibits/page.tsx.
- `home_page.dfy` (`HomePage`): app/page.tsx, including the region-grouping loop as
  a `while` loop over a map.
- `community_forum.dfy` (`CommunityForum`): components/community-forum.tsx.
- `accessibility.dfy` (`Accessibility`): components/accessibility-features.tsx.

Component state becomes a Dafny `class`. Each `useState` variable is a field.
Each handler is a method whose `ensures` gives the whole new state as a record
update of `State()`. Derived lists are functions of the fields and of the rows
passed in.

An asynchronous submit with its simulated delay is split in two:

- `StartSubmit`: the guard, and `isSubmitting` raised.
- `FinishSubmit`: the reset.

`HandleSubmit…` runs both as one step.

Rows fetched from the data store, and the constant arrays a page declares, are
parameters of type `seq`. Dates are integer timestamps.

A submit writes nothing anywhere and never adds the new review or post to the
list. It has no failure path, so a draft is never retained after an error.
Nothing discards a stale response. The review replies are only displayed;
nothing creates one.

Two behaviours of the code that a reader might not expect are modelled as written:

- The home page's region selector compares the selected region with the museum's
  `location`, not its `region` (app/page.tsx:149). The museum directory compares
  with `region`. `HomePage.HomeFilterVersusDirectory` states where the two agree.
- The enhanced review filter tests `filterByRating` for truthiness. A filter of
  0 therefore lists every review. The museum directory tests `if (error)`, so an
  empty error message shows the (empty) list rather than the error view.

## Model

| member | source | states |
|---|---|---|
| Text.TrimStartFrom | components/enhanced-review-system.tsx:86 | The scan from `k` stops at the first character that is not white space, or at the end, and passes only white space |
| Text.TrimEndFrom | components/enhanced-review-system.tsx:86 | The scan back from `k` stops just after the last character that is not white space, or at `lo`, and passes only white space |
| Text.TrimShape | components/enhanced-review-system.tsx:86 | `trim` returns the infix between a white-space prefix and a white-space suffix, and that infix neither starts nor ends with white space |
| Text.BlankIffAllWhitespace | components/review-system.tsx:44 | `!s.trim()` holds exactly when every character of `s` is white space |
| Text.ContainsIffOccurs | components/artwork-gallery.tsx:125 | `includes` holds exactly when the needle occurs as a contiguous infix at some position |
| Text.EmptyQueryMatches | components/artwork-gallery.tsx:425-429 | An empty search text matches every field, whatever the case folding |
| Text.PluralSuffix | app/museums/page.tsx:163-164 | The counter gets an "s" exactly when the count is above one |
| Seqs.Filter | components/community-forum.tsx:98-101 | A value is in the result exactly when it is in the input and satisfies the predicate, and the result is never longer than the input |
| Seqs.FilterOccurrences | components/community-forum.tsx:98-101 | Each value occurs in the result as often as in the input when it satisfies the predicate, and not at all otherwise |
| Seqs.FilterIsSubsequence | components/community-forum.tsx:98-101 | `filter` keeps the input order: its result is a subsequence of the input |
| Seqs.FilterKeepsAll | components/enhanced-review-system.tsx:115 | When every element passes, `filter` returns the input unchanged |
| Seqs.Take | components/enhanced-review-system.tsx:103 | `slice(0, n)` returns the first `min(n, length)` elements, a prefix of the input |
| Seqs.Without | components/artwork-gallery.tsx:136 | Removing a value removes every occurrence of it, keeps every other value as often as it occurred, in order; an absent value changes nothing |
| Seqs.WithoutNoDuplicates | components/enhanced-review-system.tsx:111 | Removing a value from a duplicate-free list leaves it duplicate-free |
| StableSort.InsertMultiset | components/enhanced-review-system.tsx:116-126 | Inserting an element into a sorted run adds exactly that element |
| StableSort.InsertSorted | components/enhanced-review-system.tsx:116-126 | Inserting an element into a run sorted from largest to smallest key keeps it sorted |
| StableSort.SortDesc | components/enhanced-review-system.tsx:116-126 | The sort is a permutation of its input, ordered by key from largest to smallest |
| StableSort.SortAsc | app/museums/page.tsx:66-67 | The sort is a permutation of its input, ordered by key from smallest to largest |
| StableSort.SortDescStable | components/enhanced-review-system.tsx:116-126 | Elements with equal keys appear in the sorted array in their input order |
| StableSort.SortAscStable | app/exhibits/page.tsx:119 | The same stability for the ascending sort |
| StableSort.SortDescEqualKeys | app/museums/page.tsx:68 | A comparator that returns 0 for every pair leaves the array unchanged |
| StableSort.SortDescUnique | components/enhanced-review-system.tsx:116-126 | Any array sorted by key that keeps equal-key elements in input order equals `SortDesc`: a stable sort has a single outcome |
| ReviewRules.SubmitEnabledIffAccepted | components/enhanced-review-system.tsx:317 | The publish button is enabled exactly when the submit guard accepts and no submit is in flight |
| ReviewRules.CanSubmitMeaning | components/enhanced-review-system.tsx:86 | The guard accepts exactly a chosen rating (not 0) and a text with a character that is not white space |
| ReviewRules.DraftGuardExamples | components/review-system.tsx:44 | No star, an empty text and a text of spaces are refused; three stars with "ok" is accepted |
| ReviewRules.Percentage | components/review-system.tsx:120 | The percentage is 0 when the total is not positive, otherwise the count over the total times 100, and it lies in [0,100] when the count is at most the total |
| ReviewRules.Percentages | components/enhanced-review-system.tsx:151 | Each bucket gets its own percentage |
| ReviewRules.PercentagesSum | components/review-system.tsx:120 | Summed over the buckets, the percentages times the total equal the summed counts times 100 |
| ReviewRules.PercentagesSumTo100 | components/review-system.tsx:118-120 | When the counts add up to the total, the bars add up to 100 |
| ReviewRules.PercentagesOfEmptyTotal | components/review-system.tsx:120 | With a total of 0 every bar is 0 and so is their sum |
| EnhancedReviews.ImagesAfterUpload | components/enhanced-review-system.tsx:103 | An upload keeps the first `min(5, previous + new)` images of the previous followed by the new, with the previous images as a prefix |
| EnhancedReviews.DropPosition | components/enhanced-review-system.tsx:107 | Filtering out one position deletes exactly that element when the position is in range, and nothing otherwise |
| EnhancedReviews.ImagesAfterRemoval | components/enhanced-review-system.tsx:106-108 | `removeImage(i)` deletes exactly image `i` and keeps the others in order; an out-of-range index changes nothing |
| EnhancedReviews.TagsAfterToggle | components/enhanced-review-system.tsx:111 | A selected tag is removed, keeping the others in order; an unselected tag is appended when fewer than 5 are selected, otherwise nothing changes |
| EnhancedReviews.ToggleKeepsTagsValid | components/enhanced-review-system.tsx:111 | Toggling keeps the selection at most 5 tags, with no duplicates |
| EnhancedReviews.ToggleKeepsVocabulary | components/enhanced-review-system.tsx:72-83 | Toggling a tag of the vocabulary keeps every selected tag inside the vocabulary |
| EnhancedReviews.ImageInputDisabledIffNoOp | components/enhanced-review-system.tsx:273 | With at most five images, the file input is disabled exactly when no upload could change the images |
| EnhancedReviews.TagButtonDisabledIffNoOp | components/enhanced-review-system.tsx:253 | A tag button is disabled exactly when clicking it would leave the selection unchanged |
| EnhancedReviews.RatingFiltered | components/enhanced-review-system.tsx:115 | With a star filter set, exactly the reviews of that rating are kept, in order; with none, every review is kept |
| EnhancedReviews.FilteredAndSortedReviews | components/enhanced-review-system.tsx:114-126 | The view is a permutation of the filtered reviews, ordered from the largest helpful count, rating or date down; without a filter it is a permutation of all reviews |
| EnhancedReviews.ViewIsStable | components/enhanced-review-system.tsx:116-126 | Reviews tied on the sort key keep their order in the input |
| EnhancedReviews.ViewIsTheStableSort | components/enhanced-review-system.tsx:116-126 | Any stable sort of the filtered reviews yields exactly this view |
| EnhancedReviews.EmptyStateMeaning | components/enhanced-review-system.tsx:506-521 | Without a filter, "no review yet" is shown exactly when there are no reviews; with one, "no review for this rating" is shown exactly when no review has that rating; the other message is never shown |
| EnhancedReviews.DistributionCounts | components/enhanced-review-system.tsx:150 | There are five buckets, from 5 stars down; a rating present in the distribution counts its entry, a missing one counts 0 |
| EnhancedReviews.DistributionPercentages | components/enhanced-review-system.tsx:151 | Each bar is the percentage of its bucket's count over the total; so every bar is 0 when there are no reviews and 0 for a missing rating, and lies in [0,100] when its count is at most the total |
| EnhancedReviews.DistributionBarsSumTo100 | components/enhanced-review-system.tsx:149-151 | When the distribution accounts for every review, the five bars add up to 100 |
| EnhancedReviews.ResetDraftBlocksSubmit | components/enhanced-review-system.tsx:93-98 | After the reset the draft is empty, nothing is in flight, the guard refuses and the button is disabled; sort and filter are kept |
| EnhancedReviews.FilterAfterClick | components/enhanced-review-system.tsx:156 | Clicking the active bucket clears the filter; clicking any other bucket sets the filter to it |
| EnhancedReviews.ReviewComposer.constructor | components/enhanced-review-system.tsx:63-70 | The composer starts with no rating, empty fields and lists, nothing in flight, sort "recent" and no filter |
| EnhancedReviews.ReviewComposer.SetUserRating | components/enhanced-review-system.tsx:196 | The star rating, 1 to 5, is recorded and nothing else changes |
| EnhancedReviews.ReviewComposer.SetReviewTitle | components/enhanced-review-system.tsx:209 | Only the title changes |
| EnhancedReviews.ReviewComposer.SetReviewContent | components/enhanced-review-system.tsx:223 | Only the text changes |
| EnhancedReviews.ReviewComposer.HandleImageUpload | components/enhanced-review-system.tsx:101-104 | Only the image list changes, to the capped upload result, and at most 5 images remain |
| EnhancedReviews.ReviewComposer.RemoveImage | components/enhanced-review-system.tsx:106-108 | Only the image list changes, to the list without that position |
| EnhancedReviews.ReviewComposer.ToggleTag | components/enhanced-review-system.tsx:110-112 | Only the tag selection changes, by the toggle, and it stays valid and within the vocabulary |
| EnhancedReviews.ReviewComposer.StartSubmit | components/enhanced-review-system.tsx:85-88 | A refused submit changes nothing; an accepted one only raises `isSubmitting` |
| EnhancedReviews.ReviewComposer.FinishSubmit | components/enhanced-review-system.tsx:93-98 | Rating, title, text, tags and images are cleared and `isSubmitting` is lowered; sort and filter are kept |
| EnhancedReviews.ReviewComposer.HandleSubmitReview | components/enhanced-review-system.tsx:85-99 | Accepted exactly when the guard holds; a refused submit changes nothing, an accepted one ends with the draft reset |
| EnhancedReviews.ReviewComposer.SetSortBy | components/enhanced-review-system.tsx:341 | Only the sort changes |
| EnhancedReviews.ReviewComposer.ClickRatingBucket | components/enhanced-review-system.tsx:156 | Only the star filter changes, as a bucket click does |
| EnhancedReviews.ReviewComposer.ClearFilter | components/enhanced-review-system.tsx:353 | Only the star filter changes, to none |
| ReviewSystem.FilledStars | components/review-system.tsx:92 | The filled stars are exactly the stars numbered at most the rating |
| ReviewSystem.FilledStarsArePrefix | components/review-system.tsx:88 | A rating of `r` fills, and marks checked, exactly the first `r` stars |
| ReviewSystem.RatedExactly | components/review-system.tsx:119 | A bucket holds exactly the reviews with that rating, in order |
| ReviewSystem.StarCounts | components/review-system.tsx:118-119 | There are five counts, from 5 stars down, each the size of that star's bucket and at most the number of reviews |
| ReviewSystem.RatedExactlyCount | components/review-system.tsx:119 | The filter for a star count keeps exactly as many reviews as `RatingCount`, a one-review-at-a-time tally, counts with that rating |
| ReviewSystem.StarCountsCountRatings | components/review-system.tsx:118-119 | Count `i` equals the independent tally `RatingCount` of reviews rated exactly `5 - i` stars |
| ReviewSystem.StarPercentages | components/review-system.tsx:120 | Each bar is the percentage of its count over the total; with no reviews every bar is 0; when the total covers all the reviews every bar lies in [0,100] |
| ReviewSystem.StarCountsSum | components/review-system.tsx:118-119 | The five counts add up to the number of reviews rated 1 to 5 |
| ReviewSystem.StarPercentagesSumTo100 | components/review-system.tsx:118-120 | When every review is rated 1 to 5 and the total is their number, the bars add up to 100 |
| ReviewSystem.ReviewForm.constructor | components/review-system.tsx:34-37 | The form starts with no rating, empty fields and nothing in flight |
| ReviewSystem.ReviewForm.HandleStarClick | components/review-system.tsx:39-41 | The clicked star's number becomes the rating and nothing else changes |
| ReviewSystem.ReviewForm.SetReviewTitle | components/review-system.tsx:163 | Only the title changes |
| ReviewSystem.ReviewForm.SetReviewContent | components/review-system.tsx:177 | Only the text changes |
| ReviewSystem.ReviewForm.StartSubmit | components/review-system.tsx:43-46 | A refused submit changes nothing; an accepted one only raises `isSubmitting` |
| ReviewSystem.ReviewForm.FinishSubmit | components/review-system.tsx:50-54 | The form returns to its initial state |
| ReviewSystem.ReviewForm.HandleSubmitReview | components/review-system.tsx:43-55 | Accepted exactly when the guard holds; a refused submit changes nothing, an accepted one ends in the initial state |
| ArtworkGallery.FilteredArtworks | components/artwork-gallery.tsx:123-131 | An artwork is listed exactly when its title or artist contains the query (case folded) and its style and artist match the selectors or "all"; catalogue order is kept |
| ArtworkGallery.FilteredArtists | components/artwork-gallery.tsx:133 | An artist is listed exactly when the name contains the query, case folded; catalogue order is kept |
| ArtworkGallery.ClearedFiltersShowEverything | components/artwork-gallery.tsx:425-429 | With the filters reset every artwork and every artist is listed, in catalogue order |
| ArtworkGallery.NoResultsMeaning | components/artwork-gallery.tsx:416-417 | The "no results" block appears exactly when nothing in the active tab's catalogue passes the filters |
| ArtworkGallery.FavoritesAfterToggle | components/artwork-gallery.tsx:135-137 | Toggling flips the id's membership and no other id's; an absent id is appended at the end |
| ArtworkGallery.ToggleKeepsNoDuplicates | components/artwork-gallery.tsx:136 | Toggling keeps the favourites free of duplicates |
| ArtworkGallery.ToggleTwice | components/artwork-gallery.tsx:135-137 | Toggling twice restores the same favourites, and the very same list when the id was absent |
| ArtworkGallery.Gallery.constructor | components/artwork-gallery.tsx:117-121 | The gallery starts with an empty query, both selectors on "all", the artworks tab and favourites [2] |
| ArtworkGallery.Gallery.SetSearchQuery | components/artwork-gallery.tsx:157 | Only the query changes |
| ArtworkGallery.Gallery.SetSelectedStyle | components/artwork-gallery.tsx:189 | Only the style selector changes |
| ArtworkGallery.Gallery.SetSelectedArtist | components/artwork-gallery.tsx:201 | Only the artist selector changes |
| ArtworkGallery.Gallery.SetActiveTab | components/artwork-gallery.tsx:168 | Only the tab changes |
| ArtworkGallery.Gallery.ToggleFavorite | components/artwork-gallery.tsx:135-137 | Only the favourites change, by the toggle, and they stay free of duplicates |
| ArtworkGallery.Gallery.ResetFilters | components/artwork-gallery.tsx:425-429 | Query, style and artist return to "", "all" and "all"; tab and favourites are kept |
| MuseumsPage.MatchingMuseums | app/museums/page.tsx:54-63 | A museum is kept exactly when its name or location contains the query (case folded) and its region and category match the selectors or "all"; row order is kept |
| MuseumsPage.SortMuseums | app/museums/page.tsx:64-69 | A permutation: best rated first for "rating", collation order of names or locations for "name" and "location", the input order for any other value |
| MuseumsPage.FilteredMuseums | app/museums/page.tsx:54-69 | The list is a permutation of the matching museums, ordered as `sortBy` says, and holds exactly the museums passing the filters |
| MuseumsPage.SortIsStable | app/museums/page.tsx:64-69 | Under every `sortBy`, museums tied on its key (equal rating, name or location, or any two rows for an unknown sort) keep their row order |
| MuseumsPage.ResultCount | app/museums/page.tsx:162-165 | The counter shows the number of matching museums, whatever the sort, with an "s" exactly when there is more than one |
| MuseumsPage.ClearedFiltersKeepAll | app/museums/page.tsx:228-232 | With the filters reset every row is listed, under any sort |
| MuseumsPage.DirectoryPage.constructor | app/museums/page.tsx:30-36 | The page starts loading, with no rows, no error, cleared filters and sort "rating" |
| MuseumsPage.DirectoryPage.ApplyFetch | app/museums/page.tsx:40-48 | Rows are stored on success and the message recorded on failure; loading ends either way and nothing else changes |
| MuseumsPage.DirectoryPage.SetSearchQuery | app/museums/page.tsx:112 | Only the query changes |
| MuseumsPage.DirectoryPage.SetSelectedRegion | app/museums/page.tsx:124 | Only the region changes |
| MuseumsPage.DirectoryPage.SetSelectedCategory | app/museums/page.tsx:136 | Only the category changes |
| MuseumsPage.DirectoryPage.SetSortBy | app/museums/page.tsx:151 | Only the sort changes |
| MuseumsPage.DirectoryPage.ResetFilters | app/museums/page.tsx:228-232 | Query, region and category are cleared, the sort and the rows are kept |
| MuseumsPage.FetchOutcome | app/museums/page.tsx:71-85 | After the fetch the page never shows loading; rows give the list, a non-empty message gives the error view, an empty message gives the empty list |
| ExhibitsPage.MatchingExhibits | app/exhibits/page.tsx:108-117 | An exhibition is kept exactly when its title or museum contains the query (case folded) and its category and status match the selectors or "all"; order is kept |
| ExhibitsPage.SortExhibits | app/exhibits/page.tsx:118-123 | A permutation: soonest end first for "endDate", most visited first for "visitors", collation order for "title", the input order otherwise |
| ExhibitsPage.FilteredExhibits | app/exhibits/page.tsx:108-123 | The list is a permutation of the matching exhibitions, ordered as `sortBy` says, holding exactly those passing the filters |
| ExhibitsPage.SortIsStable | app/exhibits/page.tsx:118-123 | Under every `sortBy`, exhibitions tied on its key (equal end date, visitor count or title, or any two for an unknown sort) keep their listing order |
| ExhibitsPage.ResultCount | app/exhibits/page.tsx:221-224 | The counter shows the number of matching exhibitions, whatever the sort, with an "s" exactly when there is more than one |
| ExhibitsPage.ResetListsEverything | app/exhibits/page.tsx:292-296 | The reset keeps the sort and lists every exhibition again |
| ExhibitsPage.GetStatusColor | app/exhibits/page.tsx:125-136 | Every string gets one of the four badges, and the gray one exactly when it is not a known status |
| ExhibitsPage.StatusColorsDistinct | app/exhibits/page.tsx:125-136 | Distinct known statuses get distinct badges |
| ExhibitsPage.VisitorLine | app/exhibits/page.tsx:265 | The visitors line is shown, with the count, exactly when the count is positive |
| HomePage.BucketIsFilter | app/page.tsx:68-74 | A region's bucket is the museums filtered by that region, in input order |
| HomePage.BucketMembers | app/page.tsx:68-74 | A museum is in the bucket of its own region and of no other; a bucket exists exactly for the regions that occur |
| HomePage.GroupStep | app/page.tsx:70-73 | Creating the region's array if missing and pushing one museum keeps the map a grouping of the museums seen so far |
| HomePage.GroupByRegion | app/page.tsx:68-74 | The loop's map groups the museums by region: an array for exactly the regions present, each holding that region's museums in input order |
| HomePage.BucketTotalStep | app/page.tsx:69-74 | One more museum adds one to the summed bucket sizes when its region is among the keys counted, and nothing otherwise |
| HomePage.BucketsPartition | app/page.tsx:69-74 | When the keys name every region once, the bucket sizes add up to the number of museums |
| HomePage.SumSizesOfGrouping | app/page.tsx:68-74 | On any key list, a grouping's array sizes are the bucket sizes |
| HomePage.GroupingKeepsEveryMuseum | app/page.tsx:68-74 | Taking each key of the grouping once, the arrays hold every museum exactly once in total: none is lost and none is pushed twice |
| HomePage.JsRem | app/page.tsx:119 | JavaScript's `%`: NaN exactly for a zero divisor, the remainder in [0,n) for a non-negative dividend, and never positive for a negative dividend |
| HomePage.StepsStayInRange | app/page.tsx:118-124 | With `n` slides, next and previous keep the slide number in [0,n) |
| HomePage.PrevUndoesNext | app/page.tsx:118-124 | Previous undoes next and next undoes previous |
| HomePage.NextTimesIsRemainder | app/page.tsx:118-120 | After `k` presses of next from slide `i`, the slide is `(i + k) % n` |
| HomePage.FullTurnReturnsToStart | app/page.tsx:118-120 | `n` presses of next return to the starting slide |
| HomePage.EmptyCarouselIsNaN | app/page.tsx:118-124 | With no slides both steps give NaN, and NaN stays NaN |
| HomePage.KeyStep | app/page.tsx:127-133 | ArrowLeft steps back, ArrowRight steps forward, and any other key leaves the slide as it is |
| HomePage.FeaturedIsFirstOfRegion | app/page.tsx:136-141 | The hero card is the first museum of the selected region; with "all" or a region without museums it is the first museum; the placeholder is shown exactly when there are no museums |
| HomePage.HomeFilteredMuseums | app/page.tsx:145-153 | A museum is kept exactly when the search, the location-versus-region test and the category all pass; order is kept |
| HomePage.HomeFilterVersusDirectory | app/page.tsx:149 | The home filter agrees with the directory's for a museum whose location is its region, and rejects a museum of the selected region located elsewhere |
| HomePage.OrDefault | app/page.tsx:80 | `v \|\| d` gives `v` when it is present and non-empty, otherwise `d` |
| HomePage.FormatExhibit | app/page.tsx:77-84 | A formatted exhibition keeps id, title and end date, gets "Unknown Museum" without a museum name and the placeholder image without an image |
| HomePage.FormatExhibits | app/page.tsx:77-84 | Each row is formatted in place, with its own visitor count |
| HomePage.Home.constructor | app/page.tsx:34-42 | The page starts on slide 0, loading, with empty lists, an empty grouping and cleared filters |
| HomePage.Home.ApplyFetch | app/page.tsx:104-111 | On success the lists are set and the bucket map groups the museums; on failure only loading ends; the slide and the filters are kept |
| HomePage.Home.NextSlideStep | app/page.tsx:118-120 | The slide moves to the next one over the number of museums and no other field changes |
| HomePage.Home.PrevSlideStep | app/page.tsx:122-124 | The slide moves to the previous one over the number of museums and no other field changes |
| HomePage.Home.HandleKeyDown | app/page.tsx:127-133 | The slide moves as the key says and no other field changes |
| HomePage.Home.SetSearchQuery | app/page.tsx:200 | The query is set |
| HomePage.Home.SetSelectedRegion | app/page.tsx:212 | The region is set |
| HomePage.Home.SetSelectedCategory | app/page.tsx:224 | The category is set |
| CommunityForum.CanPostMeaning | components/community-forum.tsx:151 | A post is accepted exactly when both title and text hold a character that is not white space; the button is enabled exactly when, besides, nothing is in flight |
| CommunityForum.FilteredPosts | components/community-forum.tsx:98-101 | The "all" tab lists every post; another tab lists exactly the posts whose folded category equals it, in order |
| CommunityForum.PostOnOneCategoryTab | components/community-forum.tsx:98-101 | No post appears under two different category tabs |
| CommunityForum.Forum.constructor | components/community-forum.tsx:82-85 | The forum starts on "all" with an empty draft and nothing in flight |
| CommunityForum.Forum.SetActiveTab | components/community-forum.tsx:160 | Only the tab changes |
| CommunityForum.Forum.SetNewPostTitle | components/community-forum.tsx:126 | Only the title changes |
| CommunityForum.Forum.SetNewPostContent | components/community-forum.tsx:140 | Only the text changes |
| CommunityForum.Forum.StartSubmit | components/community-forum.tsx:87-90 | A refused post changes nothing; an accepted one only raises `isSubmitting` |
| CommunityForum.Forum.FinishSubmit | components/community-forum.tsx:93-95 | Title and text are cleared and `isSubmitting` lowered; the tab is kept |
| CommunityForum.Forum.HandleSubmitPost | components/community-forum.tsx:87-96 | Accepted exactly when the guard holds; a refused post changes nothing, an accepted one clears the draft and leaves the button disabled |
| Accessibility.StepsKeepSizeValid | components/accessibility-features.tsx:83-94 | On a valid size each step moves by exactly 2 pixels unless at its bound, and stays even within [12,24] |
| Accessibility.DisabledIffNoOp | components/accessibility-features.tsx:84-95 | A font button is disabled exactly when pressing it would change nothing |
| Accessibility.RunKeepsSizeValid | components/accessibility-features.tsx:83-104 | Any sequence of decrease, increase and reset from a valid size leaves a valid size |
| Accessibility.FromDefaultSizeStaysValid | components/accessibility-features.tsx:14 | From the initial 16 pixels every sequence of presses leaves an even size within [12,24] |
| Accessibility.AccessibilityPanel.constructor | components/accessibility-features.tsx:14-18 | The panel starts at 16 pixels with every switch off |
| Accessibility.AccessibilityPanel.DecreaseFontSize | components/accessibility-features.tsx:83 | The size becomes `max(12, size - 2)` and stays valid; nothing else changes |
| Accessibility.AccessibilityPanel.IncreaseFontSize | components/accessibility-features.tsx:94 | The size becomes `min(24, size + 2)` and stays valid; nothing else changes |
| Accessibility.AccessibilityPanel.ResetFontSize | components/accessibility-features.tsx:104 | The size returns to 16; nothing else changes |
| Accessibility.AccessibilityPanel.ToggleHighContrast | components/accessibility-features.tsx:121 | Only the high-contrast flag flips |
| Accessibility.AccessibilityPanel.ToggleReducedMotion | components/accessibility-features.tsx:138 | Only the reduced-motion flag flips |
| Accessibility.AccessibilityPanel.ToggleScreenReaderMode | components/accessibility-features.tsx:155 | Only the screen-reader flag flips |
| Accessibility.AccessibilityPanel.OnKeyDown | components/accessibility-features.tsx:45-49 | Tab turns keyboard navigation on; any other key changes nothing |
| Accessibility.AccessibilityPanel.OnMouseDown | components/accessibility-features.tsx:51-53 | A mouse press turns keyboard navigation off and changes nothing else |

## Left out

- The data-store queries (app/page.tsx:48-65, app/museums/page.tsx:41) and the client in lib/supabaseClient.ts are I/O. Their answers are the `FetchResult` and `HomeFetch` parameters. The ordering and limits the home query asks the store for are not modelled.
- The simulated delays of the submits are not modelled as time, since they are timers. Each submit is a start step and a finish step. During the delay only the submit button is disabled (components/enhanced-review-system.tsx:317), so any other handler may run between the two steps, and the model allows that too: `StartSubmit` and `FinishSubmit` are separate methods. An edit made in between is wiped by the reset. `HandleSubmit…` is the case where nothing runs in between.
- The random visitor count of a trending exhibition (app/page.tsx:83) is not modelled, since it is random. It is passed in as a parameter.
- Date parsing and formatting are not modelled. Dates are integer timestamps, and `toLocaleDateString` output is not produced. A review date that does not parse (a NaN comparator) is outside the model.
- `toLowerCase` and `localeCompare` are abstract: a case-folding function that maps "" to "", and a collation rank. Locale rules are not modelled.
- `toFixed`, `Math.round` of the average rating and the CSS bar widths are display only. Percentages are exact `real` values.
- The DOM effects of the accessibility panel (accessibility-features.tsx:20-41) write the page's font size and classes. Only the state that drives them is modelled.
- The `maxLength` limits of the text inputs are enforced by the browser, not by any code path.
- The hover highlight of components/star-rating.tsx is display only.
- `HomePage.GroupByRegion`, `HomePage.Home.ApplyFetch` and `HomePage.GetFeaturedMuseum` treat the region map as a Dafny map. A region named like a JavaScript object-prototype key, such as "constructor", is not modelled. In the source `groupedMuseums[region]` is then an inherited, truthy value, `.push` throws, and the catch at app/page.tsx:108-111 leaves every list unset. The model groups such a museum like any other.
- A fetch that answers without an error but with `data` null is not modelled. The home page falls back to `[]` in that case and the directory stores null. `HomeFetch.Loaded` and `FetchResult.Rows` always carry a sequence.
- The constant exhibitions, artworks, artists and forum posts arrays are passed in as sequences; their contents are data, not logic.
- The input review array is not reordered by `filteredAndSortedReviews`, because `filter` returns a fresh array. Dafny sequences are values, so this holds by construction and is not stated.
- `EnhancedReviews.ReviewComposer.SetUserRating` requires a rating from 1 to 5. The star widget only reports those values (components/star-rating.tsx:58).
- Reply threads, a failure path, an optimistic append of the new review and the discarding of a stale response do not exist in the code, so they are not modelled.
- The remaining pages and components (profile, search, header, footer, layout, skip link, follow button, parallax section, the community and artworks wrapper pages) are presentation or static data.
