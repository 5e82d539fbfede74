// components/enhanced-review-system.tsx: the review section of a museum page.
// The composer's state (rating, title, text, tags, images, in-flight flag, sort
// and star filter) is a class whose methods are the component's handlers; the
// listed reviews, the star histogram and the empty-list message are functions of
// that state and of the reviews passed in.

module EnhancedReviews {

  import opened Wrappers
  import opened Text
  import opened Seqs
  import opened StableSort
  import opened ReviewRules

  datatype ReviewAuthor = ReviewAuthor(name: string, avatar: string, verified: bool, reviewsCount: int, memberSince: string)

  datatype ReplyAuthor = ReplyAuthor(name: string, avatar: string, isMuseumStaff: bool)

  datatype ReviewReply = ReviewReply(id: int, user: ReplyAuthor, content: string, date: string, likes: int)

  /** A published review. `date` is the timestamp the date string parses to;
      absent `images` and `replies` are empty sequences. */
  datatype Review = Review(
    id: int, user: ReviewAuthor, rating: int, date: int, title: string, content: string,
    likes: int, helpful: int, images: seq<string>, replies: seq<ReviewReply>, tags: seq<string>)

  /** The three entries of the sort selector; the comparator's `default` branch is "recent". */
  datatype SortBy = Recent | Helpful | ByRating

  /** A picked image file, known to the component by name only. */
  type ImageFile = string

  const MaxTags: nat := 5
  const MaxImages: nat := 5

  const AvailableTags: seq<string> := [
    "Famille", "Couple", "Solo", "Accessible", "Éducatif",
    "Inspirant", "Bondé", "Calme", "Interactif", "Photogénique"
  ]

  // ---------------------------------------------------------------- images

  /** `[...prev, ...files].slice(0, 5)`. */
  function ImagesAfterUpload(prev: seq<ImageFile>, files: seq<ImageFile>): (r: seq<ImageFile>)
    ensures |r| == Min(MaxImages, |prev| + |files|)
    ensures r <= prev + files
    ensures |prev| <= MaxImages ==> prev <= r
  {
    Take(prev + files, MaxImages)
  }

  /** `prev.filter((_, i) => i !== index)`, where `offset` is the position of `prev[0]`
      in the array being filtered. */
  function DropPosition<T>(prev: seq<T>, index: int, offset: int): (r: seq<T>)
    ensures offset <= index < offset + |prev| ==> r == prev[..index - offset] + prev[index - offset + 1..]
    ensures !(offset <= index < offset + |prev|) ==> r == prev
    decreases |prev|
  {
    if prev == [] then []
    else
      var rest := DropPosition(prev[1..], index, offset + 1);
      var k := index - offset;
      if offset == index then
        assert prev[..k] + prev[k + 1..] == prev[1..];
        rest
      else if offset < index < offset + |prev| then
        assert prev[..k] + prev[k + 1..] == [prev[0]] + (prev[1..][..k - 1] + prev[1..][k..]);
        [prev[0]] + rest
      else
        assert prev == [prev[0]] + prev[1..];
        [prev[0]] + rest
  }

  /** `removeImage(index)`: exactly the image at `index` goes; any other index
      leaves the list as it is. */
  function ImagesAfterRemoval(prev: seq<ImageFile>, index: int): (r: seq<ImageFile>)
    ensures 0 <= index < |prev| ==> |r| == |prev| - 1 && r == prev[..index] + prev[index + 1..]
    ensures !(0 <= index < |prev|) ==> r == prev
  {
    DropPosition(prev, index, 0)
  }

  /** The file input is disabled once five images are attached. */
  predicate ImageInputDisabled(images: seq<ImageFile>)
  {
    |images| >= MaxImages
  }

  /** A disabled file input would do nothing if a file were picked anyway; an
      enabled one always takes at least one file. */
  lemma ImageInputDisabledIffNoOp(prev: seq<ImageFile>)
    requires |prev| <= MaxImages
    ensures ImageInputDisabled(prev) <==> forall files :: ImagesAfterUpload(prev, files) == prev
  {
    if ImageInputDisabled(prev) {
      forall files
        ensures ImagesAfterUpload(prev, files) == prev
      {
        var r := ImagesAfterUpload(prev, files);
        assert prev <= r && |r| == |prev|;
      }
    } else {
      assert |ImagesAfterUpload(prev, ["photo.jpg"])| == |prev| + 1;
    }
  }

  // ---------------------------------------------------------------- tags

  /** At most five tags, none twice. */
  predicate TagsValid(tags: seq<string>)
  {
    |tags| <= MaxTags && NoDuplicates(tags)
  }

  /** `prev.includes(tag) ? prev.filter(t => t !== tag) : [...prev, tag].slice(0, 5)`. */
  function TagsAfterToggle(prev: seq<string>, tag: string): (r: seq<string>)
    ensures tag in prev ==> tag !in r && (forall t | t in prev && t != tag :: t in r)
    ensures tag in prev ==> (forall t | t in r :: t in prev) && IsSubsequence(r, prev)
    ensures tag !in prev && |prev| < MaxTags ==> r == prev + [tag]
    ensures tag !in prev && |prev| == MaxTags ==> r == prev
  {
    if tag in prev then Without(prev, tag) else Take(prev + [tag], MaxTags)
  }

  /** The `disabled` expression of a tag button. */
  predicate TagButtonDisabled(selected: seq<string>, tag: string)
  {
    tag !in selected && |selected| >= MaxTags
  }

  /** Toggling keeps the selection within five tags and free of duplicates. */
  lemma ToggleKeepsTagsValid(prev: seq<string>, tag: string)
    requires TagsValid(prev)
    ensures TagsValid(TagsAfterToggle(prev, tag))
  {
    if tag in prev {
      WithoutNoDuplicates(prev, tag);
    } else if |prev| < MaxTags {
      var r := prev + [tag];
      forall i, j | 0 <= i < j < |r| ensures r[i] != r[j] {
        if j == |prev| {
          assert r[i] == prev[i];
        } else {
          assert r[i] == prev[i] && r[j] == prev[j];
        }
      }
    }
  }

  /** Toggling a tag of the vocabulary keeps the selection inside the vocabulary. */
  lemma ToggleKeepsVocabulary(prev: seq<string>, tag: string)
    requires |prev| <= MaxTags
    requires forall t | t in prev :: t in AvailableTags
    requires tag in AvailableTags
    ensures forall t | t in TagsAfterToggle(prev, tag) :: t in AvailableTags
  {
  }

  /** A disabled tag button would do nothing if clicked anyway; an enabled one
      always changes the selection. */
  lemma TagButtonDisabledIffNoOp(prev: seq<string>, tag: string)
    requires TagsValid(prev)
    ensures TagButtonDisabled(prev, tag) <==> TagsAfterToggle(prev, tag) == prev
  {
    if tag in prev {
      assert tag !in TagsAfterToggle(prev, tag);
    } else if |prev| < MaxTags {
      assert |TagsAfterToggle(prev, tag)| == |prev| + 1;
    }
  }

  // ---------------------------------------------------------------- list view

  /** `filterByRating` is truthy: a star filter other than null (or 0) is set. */
  predicate FilterActive(filter: Option<int>)
  {
    filter.Some? && filter.value != 0
  }

  /** The predicate passed to `reviews.filter`. */
  predicate MatchesRatingFilter(filter: Option<int>, review: Review)
  {
    FilterActive(filter) ==> review.rating == filter.value
  }

  function RatingFilterOf(filter: Option<int>): Review -> bool
  {
    (x: Review) => MatchesRatingFilter(filter, x)
  }

  function RatingFiltered(reviews: seq<Review>, filter: Option<int>): (r: seq<Review>)
    ensures forall x | x in r :: x in reviews && MatchesRatingFilter(filter, x)
    ensures forall x | x in reviews && MatchesRatingFilter(filter, x) :: x in r
    ensures IsSubsequence(r, reviews)
    ensures !FilterActive(filter) ==> r == reviews
  {
    FilterIsSubsequence(reviews, RatingFilterOf(filter));
    if FilterActive(filter) then Filter(reviews, RatingFilterOf(filter))
    else
      FilterKeepsAll(reviews, RatingFilterOf(filter));
      Filter(reviews, RatingFilterOf(filter))
  }

  /** The comparator of the sort, as the key it orders by, largest first. */
  function SortKey(sortBy: SortBy): Review -> real
  {
    match sortBy
    case Helpful => (x: Review) => x.helpful as real
    case ByRating => (x: Review) => x.rating as real
    case Recent => (x: Review) => x.date as real
  }

  /** `filteredAndSortedReviews`: the reviews with the chosen star count (all when
      no filter), most helpful, best rated or newest first. */
  function FilteredAndSortedReviews(reviews: seq<Review>, filter: Option<int>, sortBy: SortBy): (r: seq<Review>)
    ensures multiset(r) == multiset(RatingFiltered(reviews, filter))
    ensures SortedDesc(r, SortKey(sortBy))
    ensures forall x | x in r :: x in reviews && MatchesRatingFilter(filter, x)
    ensures forall x | x in reviews && MatchesRatingFilter(filter, x) :: x in r
    ensures !FilterActive(filter) ==> multiset(r) == multiset(reviews)
  {
    var r := SortDesc(RatingFiltered(reviews, filter), SortKey(sortBy));
    SameMultisetSameMembers(r, RatingFiltered(reviews, filter));
    r
  }

  /** Reviews that tie on the sort key keep their order in `reviews`. */
  lemma ViewIsStable(reviews: seq<Review>, filter: Option<int>, sortBy: SortBy, v: real)
    ensures KeyClass(FilteredAndSortedReviews(reviews, filter, sortBy), SortKey(sortBy), v)
         == KeyClass(RatingFiltered(reviews, filter), SortKey(sortBy), v)
  {
    SortDescStable(RatingFiltered(reviews, filter), SortKey(sortBy), v);
  }

  /** Whatever stable sort the browser uses, it produces this view. */
  lemma ViewIsTheStableSort(reviews: seq<Review>, filter: Option<int>, sortBy: SortBy, r: seq<Review>)
    requires SortedDesc(r, SortKey(sortBy))
    requires forall v :: KeyClass(r, SortKey(sortBy), v) == KeyClass(RatingFiltered(reviews, filter), SortKey(sortBy), v)
    ensures r == FilteredAndSortedReviews(reviews, filter, sortBy)
  {
    SortDescUnique(RatingFiltered(reviews, filter), r, SortKey(sortBy));
  }

  /** The two headings of the empty-list block. */
  datatype EmptyMessage = NoReviewForThisRating | NoReviewYet

  /** The empty-list block: shown when the view is empty, worded by whether a
      star filter is set. */
  function EmptyState(view: seq<Review>, filter: Option<int>): Option<EmptyMessage>
  {
    if |view| != 0 then None
    else if FilterActive(filter) then Some(NoReviewForThisRating)
    else Some(NoReviewYet)
  }

  /** Without a filter the block says "no review yet" exactly when there are no
      reviews at all; with one it says "none for this rating" exactly when no
      review has that rating. */
  lemma EmptyStateMeaning(reviews: seq<Review>, filter: Option<int>, sortBy: SortBy)
    ensures var e := EmptyState(FilteredAndSortedReviews(reviews, filter, sortBy), filter);
      && (!FilterActive(filter) ==> (e == Some(NoReviewYet) <==> reviews == []))
      && (FilterActive(filter) ==>
            (e == Some(NoReviewForThisRating) <==> forall x | x in reviews :: x.rating != filter.value))
      && e != Some(if FilterActive(filter) then NoReviewYet else NoReviewForThisRating)
  {
    var r := FilteredAndSortedReviews(reviews, filter, sortBy);
    if r != [] {
      assert r[0] in r;
    }
    if reviews != [] && !FilterActive(filter) {
      assert reviews[0] in reviews;
    }
  }

  // ---------------------------------------------------------------- histogram

  /** The buckets in the order they are drawn. */
  const StarsShown: seq<int> := [5, 4, 3, 2, 1]

  /** `ratingDistribution[stars] || 0`. */
  function DistributionCount(dist: map<int, int>, stars: int): int
  {
    if stars in dist then dist[stars] else 0
  }

  function DistributionCounts(dist: map<int, int>): (r: seq<int>)
    ensures |r| == |StarsShown|
    ensures forall i :: 0 <= i < |r| ==> (StarsShown[i] !in dist ==> r[i] == 0)
    ensures forall i :: 0 <= i < |r| ==> (StarsShown[i] in dist ==> r[i] == dist[StarsShown[i]])
  {
    seq(|StarsShown|, i requires 0 <= i < |StarsShown| => DistributionCount(dist, StarsShown[i]))
  }

  /** The five bar widths. */
  function DistributionPercentages(dist: map<int, int>, totalReviews: int): (r: seq<real>)
    ensures |r| == |StarsShown|
    ensures forall i :: 0 <= i < |r| ==> r[i] == Percentage(DistributionCount(dist, StarsShown[i]), totalReviews)
    ensures totalReviews <= 0 ==> forall i :: 0 <= i < |r| ==> r[i] == 0.0
    ensures forall i :: 0 <= i < |r| && StarsShown[i] !in dist ==> r[i] == 0.0
    ensures forall i :: (0 <= i < |r| && 0 <= DistributionCount(dist, StarsShown[i]) <= totalReviews
      ==> 0.0 <= r[i] <= 100.0)
  {
    Percentages(DistributionCounts(dist), totalReviews)
  }

  /** When the distribution accounts for every review, the bars add up to 100%. */
  lemma DistributionBarsSumTo100(dist: map<int, int>, totalReviews: int)
    requires totalReviews > 0
    requires SumInts(DistributionCounts(dist)) == totalReviews
    ensures SumReals(DistributionPercentages(dist, totalReviews)) == 100.0
  {
    PercentagesSumTo100(DistributionCounts(dist), totalReviews);
  }

  // ---------------------------------------------------------------- composer

  /** Every piece of component state, as one value. */
  datatype ComposerState = ComposerState(
    userRating: int, reviewTitle: string, reviewContent: string,
    selectedTags: seq<string>, uploadedImages: seq<ImageFile>, isSubmitting: bool,
    sortBy: SortBy, filterByRating: Option<int>)

  const InitialState := ComposerState(0, "", "", [], [], false, Recent, None)

  /** The form after a completed submission: the draft is emptied, the list
      controls are left alone. */
  function ResetDraft(s: ComposerState): ComposerState
  {
    s.(userRating := 0, reviewTitle := "", reviewContent := "", selectedTags := [],
       uploadedImages := [], isSubmitting := false)
  }

  /** After a reset nothing can be submitted until a star and some text are given. */
  lemma ResetDraftBlocksSubmit(s: ComposerState)
    ensures var t := ResetDraft(s);
      !CanSubmit(t.userRating, t.reviewContent) && SubmitDisabled(t.userRating, t.reviewContent, t.isSubmitting)
      && t.selectedTags == [] && t.uploadedImages == [] && t.reviewTitle == "" && !t.isSubmitting
      && t.sortBy == s.sortBy && t.filterByRating == s.filterByRating
  {
  }

  /** The star filter after a click on bucket `stars`: a second click on the
      active bucket clears it. */
  function FilterAfterClick(filter: Option<int>, stars: int): (r: Option<int>)
    ensures r.Some? <==> filter != Some(stars)
    ensures r.Some? ==> r.value == stars
  {
    if filter == Some(stars) then None else Some(stars)
  }

  class ReviewComposer {
    var userRating: int
    var reviewTitle: string
    var reviewContent: string
    var selectedTags: seq<string>
    var uploadedImages: seq<ImageFile>
    var isSubmitting: bool
    var sortBy: SortBy
    var filterByRating: Option<int>

    function State(): ComposerState
      reads this
    {
      ComposerState(userRating, reviewTitle, reviewContent, selectedTags, uploadedImages,
                    isSubmitting, sortBy, filterByRating)
    }

    /** What the handlers keep true: a rating from the stars, a valid tag selection
        from the vocabulary, at most five images, a filter on one of the five buckets. */
    ghost predicate Valid()
      reads this
    {
      && 0 <= userRating <= 5
      && TagsValid(selectedTags)
      && (forall t | t in selectedTags :: t in AvailableTags)
      && |uploadedImages| <= MaxImages
      && (filterByRating.Some? ==> 1 <= filterByRating.value <= 5)
    }

    constructor ()
      ensures Valid() && State() == InitialState
    {
      userRating, reviewTitle, reviewContent := 0, "", "";
      selectedTags, uploadedImages, isSubmitting := [], [], false;
      sortBy, filterByRating := Recent, None;
    }

    /** `onRatingChange={setUserRating}`; the stars only ever report 1 to 5. */
    method SetUserRating(rating: int)
      requires Valid() && 1 <= rating <= 5
      modifies this
      ensures Valid() && State() == old(State()).(userRating := rating)
    {
      userRating := rating;
    }

    method SetReviewTitle(title: string)
      requires Valid()
      modifies this
      ensures Valid() && State() == old(State()).(reviewTitle := title)
    {
      reviewTitle := title;
    }

    method SetReviewContent(content: string)
      requires Valid()
      modifies this
      ensures Valid() && State() == old(State()).(reviewContent := content)
    {
      reviewContent := content;
    }

    method HandleImageUpload(files: seq<ImageFile>)
      requires Valid()
      modifies this
      ensures Valid()
      ensures State() == old(State()).(uploadedImages := ImagesAfterUpload(old(uploadedImages), files))
    {
      uploadedImages := ImagesAfterUpload(uploadedImages, files);
    }

    method RemoveImage(index: int)
      requires Valid()
      modifies this
      ensures Valid()
      ensures State() == old(State()).(uploadedImages := ImagesAfterRemoval(old(uploadedImages), index))
    {
      uploadedImages := ImagesAfterRemoval(uploadedImages, index);
    }

    /** A click on one of the vocabulary's tag buttons. */
    method ToggleTag(tag: string)
      requires Valid() && tag in AvailableTags
      modifies this
      ensures Valid()
      ensures State() == old(State()).(selectedTags := TagsAfterToggle(old(selectedTags), tag))
    {
      ToggleKeepsTagsValid(selectedTags, tag);
      ToggleKeepsVocabulary(selectedTags, tag);
      selectedTags := TagsAfterToggle(selectedTags, tag);
    }

    /** First half of `handleSubmitReview`: the guard, then `isSubmitting` is raised
        while the simulated request is pending. */
    method StartSubmit() returns (accepted: bool)
      requires Valid()
      modifies this
      ensures Valid()
      ensures accepted == CanSubmit(old(userRating), old(reviewContent))
      ensures State() == if accepted then old(State()).(isSubmitting := true) else old(State())
    {
      if userRating == 0 || IsBlank(reviewContent) {
        return false;
      }
      isSubmitting := true;
      return true;
    }

    /** Second half of `handleSubmitReview`, once the delay has elapsed: the form is reset. */
    method FinishSubmit()
      requires Valid()
      modifies this
      ensures Valid() && State() == ResetDraft(old(State()))
    {
      userRating := 0;
      reviewTitle := "";
      reviewContent := "";
      selectedTags := [];
      uploadedImages := [];
      isSubmitting := false;
    }

    /** `handleSubmitReview` with the delay taken as one step: rejected without any
        change, or accepted and the draft emptied. */
    method HandleSubmitReview() returns (accepted: bool)
      requires Valid()
      modifies this
      ensures Valid()
      ensures accepted == CanSubmit(old(userRating), old(reviewContent))
      ensures State() == if accepted then ResetDraft(old(State())) else old(State())
    {
      accepted := StartSubmit();
      if accepted {
        FinishSubmit();
      }
    }

    method SetSortBy(s: SortBy)
      requires Valid()
      modifies this
      ensures Valid() && State() == old(State()).(sortBy := s)
    {
      sortBy := s;
    }

    /** A click on the bucket of `stars` in the histogram. */
    method ClickRatingBucket(stars: int)
      requires Valid() && stars in StarsShown
      modifies this
      ensures Valid()
      ensures State() == old(State()).(filterByRating := FilterAfterClick(old(filterByRating), stars))
    {
      filterByRating := if filterByRating == Some(stars) then None else Some(stars);
    }

    /** "Supprimer le filtre" and "Voir tous les avis". */
    method ClearFilter()
      requires Valid()
      modifies this
      ensures Valid() && State() == old(State()).(filterByRating := None)
    {
      filterByRating := None;
    }

    /** The reviews as listed for the current controls. */
    function View(reviews: seq<Review>): seq<Review>
      reads this
    {
      FilteredAndSortedReviews(reviews, filterByRating, sortBy)
    }
  }
}
