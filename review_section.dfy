/** The review list (src/pages/Course/ReviewSection.tsx): two reviews at
    first and all of them after "load more", five stars per review filled up
    to its rating, and filter buttons that only change their own styling. */
module ReviewSection {
  import opened Lists
  import opened Text

  const InitialVisible := 2
  const StarCount := 5

  /** The filter buttons, in display order. */
  const Filters: seq<string> := ["all", "5 stars", "4 stars", "3 stars", "2 stars", "1 star"]

  /** The list: `reviews.slice(0, visibleReviews)`. */
  function VisibleReviews<T>(reviews: seq<T>, visible: int): (r: seq<T>)
    ensures 0 <= visible ==> r == reviews[..if visible <= |reviews| then visible else |reviews|]
  {
    Slice(reviews, 0, visible)
  }

  /** The load-more button shows while some reviews are hidden. */
  predicate ShowsLoadMore(visible: int, total: nat) {
    visible < total
  }

  /** Star i (0-based) of a review is filled iff i is below the rating. */
  predicate StarFilled(i: int, rating: int) {
    i < rating
  }

  /** The number of filled stars among the first n. */
  function FilledStars(n: nat, rating: int): nat {
    if n == 0 then 0 else FilledStars(n - 1, rating) + (if StarFilled(n - 1, rating) then 1 else 0)
  }

  /** A rating r between 0 and 5 fills exactly r of the 5 stars, the first r. */
  lemma {:induction false} FilledStarsCount(n: nat, rating: int)
    requires 0 <= rating
    ensures FilledStars(n, rating) == if rating <= n then rating else n
  {
    if n > 0 {
      FilledStarsCount(n - 1, rating);
    }
  }

  lemma RatingFillsExactly(rating: int)
    requires 0 <= rating <= StarCount
    ensures FilledStars(StarCount, rating) == rating
    ensures forall i :: 0 <= i < StarCount ==> (StarFilled(i, rating) <==> i < rating)
  {
    FilledStarsCount(StarCount, rating);
  }

  /** `filter.charAt(0).toUpperCase() + filter.slice(1)`. */
  function FilterLabel(filter: string): (r: string)
    ensures |r| == |filter|
    ensures filter != [] ==> r[0] == UpperChar(filter[0]) && r[1..] == filter[1..]
  {
    if filter == [] then [] else [UpperChar(filter[0])] + filter[1..]
  }

  /** The labels: "All", and the star filters unchanged since they start with a digit. */
  lemma FilterLabels()
    ensures FilterLabel("all") == "All"
    ensures forall k :: 1 <= k < |Filters| ==> FilterLabel(Filters[k]) == Filters[k]
  {
    forall k | 1 <= k < |Filters| ensures FilterLabel(Filters[k]) == Filters[k] {
      assert !IsLower(Filters[k][0]);
      assert Filters[k] == [Filters[k][0]] + Filters[k][1..];
    }
  }

  /** The section's state: how many reviews show and which filter is highlighted. */
  class Reviews<T> {
    const reviews: seq<T>
    var visibleReviews: int
    var activeFilter: string

    constructor (reviews: seq<T>)
      ensures this.reviews == reviews && visibleReviews == InitialVisible && activeFilter == "all"
    {
      this.reviews := reviews;
      visibleReviews := InitialVisible;
      activeFilter := "all";
    }

    /** The rendered list reads only `visibleReviews`: `activeFilter` is not an argument. */
    function Shown(): seq<T>
      reads this
    {
      VisibleReviews(reviews, visibleReviews)
    }

    /** `handleLoadMore`: show every review; the button then disappears. */
    method HandleLoadMore()
      modifies this`visibleReviews
      ensures visibleReviews == |reviews|
      ensures Shown() == reviews && !ShowsLoadMore(visibleReviews, |reviews|)
    {
      visibleReviews := |reviews|;
    }

    /** A filter click restyles the buttons and leaves the list as it was. */
    method SetActiveFilter(filter: string)
      modifies this`activeFilter
      ensures activeFilter == filter
      ensures Shown() == old(Shown())
    {
      activeFilter := filter;
    }
  }
}
