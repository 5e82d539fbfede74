// Rules shared by the two review components (components/review-system.tsx and
// components/enhanced-review-system.tsx): the submit guard, the submit button's
// disabled state, and the percentage shown for one star bucket.

module ReviewRules {

  import opened Text

  /** The guard at the top of `handleSubmitReview`: a star rating has been chosen
      and the review text is not blank after trimming. */
  predicate CanSubmit(rating: int, content: string)
  {
    rating != 0 && !IsBlank(content)
  }

  /** The `disabled` expression of the publish button. */
  predicate SubmitDisabled(rating: int, content: string, isSubmitting: bool)
  {
    rating == 0 || IsBlank(content) || isSubmitting
  }

  /** The button is enabled exactly when the handler's guard would accept and no
      submission is in flight. */
  lemma SubmitEnabledIffAccepted(rating: int, content: string, isSubmitting: bool)
    ensures !SubmitDisabled(rating, content, isSubmitting) <==> CanSubmit(rating, content) && !isSubmitting
  {
  }

  /** The guard accepts exactly a chosen rating and a text with at least one
      character that is not white space. */
  lemma CanSubmitMeaning(rating: int, content: string)
    ensures CanSubmit(rating, content) <==> rating != 0 && exists i :: 0 <= i < |content| && !IsJsWhitespace(content[i])
  {
    BlankIffAllWhitespace(content);
  }

  /** The guard on a few drafts: no star, an empty text and a text of spaces are
      refused; a star and "ok" are accepted. */
  lemma DraftGuardExamples()
    ensures !CanSubmit(0, "x") && !CanSubmit(3, "") && !CanSubmit(3, "   ") && CanSubmit(3, "ok")
  {
    CanSubmitMeaning(3, "   ");
    CanSubmitMeaning(3, "ok");
    assert IsJsWhitespace(' ') && !IsJsWhitespace('o');
    assert "ok"[0] == 'o';
  }

  /** `totalReviews > 0 ? (count / totalReviews) * 100 : 0`, in exact arithmetic. */
  function Percentage(count: int, total: int): (p: real)
    ensures total <= 0 ==> p == 0.0
    ensures total > 0 ==> p * (total as real) == (count as real) * 100.0
    ensures 0 <= count <= total ==> 0.0 <= p <= 100.0
  {
    if total > 0 then (count as real) / (total as real) * 100.0 else 0.0
  }

  function SumInts(s: seq<int>): int
  {
    if s == [] then 0 else s[0] + SumInts(s[1..])
  }

  function SumReals(s: seq<real>): real
  {
    if s == [] then 0.0 else s[0] + SumReals(s[1..])
  }

  /** The percentage of every bucket, bucket by bucket. */
  function Percentages(counts: seq<int>, total: int): (r: seq<real>)
    ensures |r| == |counts|
    ensures forall i :: 0 <= i < |r| ==> r[i] == Percentage(counts[i], total)
  {
    if counts == [] then []
    else [Percentage(counts[0], total)] + Percentages(counts[1..], total)
  }

  lemma Distribute(a: real, b: real, c: real)
    ensures (a + b) * c == a * c + b * c
  {
  }

  /** Summed over the buckets, the percentages are the summed counts over the total. */
  lemma {:induction false} PercentagesSum(counts: seq<int>, total: int)
    requires total > 0
    ensures SumReals(Percentages(counts, total)) * (total as real) == (SumInts(counts) as real) * 100.0
    decreases |counts|
  {
    if counts != [] {
      PercentagesSum(counts[1..], total);
      var ps := Percentages(counts, total);
      var p := Percentage(counts[0], total);
      var rest := SumReals(Percentages(counts[1..], total));
      assert ps[1..] == Percentages(counts[1..], total);
      assert SumReals(ps) == p + rest;
      Distribute(p, rest, total as real);
      assert (SumInts(counts) as real) * 100.0 == (counts[0] as real) * 100.0 + (SumInts(counts[1..]) as real) * 100.0;
    }
  }

  /** When the bucket counts add up to the total, the percentages add up to 100. */
  lemma PercentagesSumTo100(counts: seq<int>, total: int)
    requires total > 0 && SumInts(counts) == total
    ensures SumReals(Percentages(counts, total)) == 100.0
  {
    PercentagesSum(counts, total);
    var s := SumReals(Percentages(counts, total));
    assert s * (total as real) == 100.0 * (total as real);
    assert (s - 100.0) * (total as real) == 0.0;
  }

  /** With no reviews every bucket shows 0%. */
  lemma {:induction false} PercentagesOfEmptyTotal(counts: seq<int>)
    ensures SumReals(Percentages(counts, 0)) == 0.0
    ensures forall i :: 0 <= i < |counts| ==> Percentages(counts, 0)[i] == 0.0
    decreases |counts|
  {
    if counts != [] {
      PercentagesOfEmptyTotal(counts[1..]);
      assert Percentages(counts, 0)[1..] == Percentages(counts[1..], 0);
    }
  }
}
