/** The creators grid (src/pages/Home/CreativeExpertsSection.jsx): six
    creators at first, three more per "load more" click, capped at the list's
    length, with the button shown while some creators are hidden. */
module CreativeExperts {
  import opened Lists

  const InitialVisible := 6
  const Step := 3

  /** `Math.min(prev + 3, allCreators.length)`. */
  function LoadMoreCount(visible: int, total: nat): (r: int)
    ensures r <= total
    ensures r <= visible + Step
    ensures r == visible + Step || r == total
    ensures visible <= total ==> visible <= r
    ensures visible == total ==> r == visible
  {
    if visible + Step < total then visible + Step else total
  }

  /** The grid: `allCreators.slice(0, visibleCount)`. */
  function VisibleCreators<T>(all: seq<T>, visible: int): (r: seq<T>)
    ensures 0 <= visible <= |all| ==> r == all[..visible]
    ensures visible >= |all| ==> r == all
    ensures |r| <= |all|
  {
    Slice(all, 0, visible)
  }

  /** The load-more button shows while fewer than all creators are visible. */
  predicate ShowsLoadMore(visible: int, total: nat) {
    visible < total
  }

  /** Clicks needed to show everyone from `visible`: each click shows three more. */
  function ClicksToShowAll(visible: int, total: nat): nat
    decreases total - visible
  {
    if visible >= total then 0 else 1 + ClicksToShowAll(LoadMoreCount(visible, total), total)
  }

  /** Every creator is reached after finitely many clicks, after which the button is gone. */
  lemma {:induction false} LoadMoreReachesAll(visible: int, total: nat)
    requires visible <= total
    ensures LoadMoreIterate(visible, total, ClicksToShowAll(visible, total)) == total
    ensures ClicksToShowAll(visible, total) == (total - visible + Step - 1) / Step
    decreases total - visible
  {
    if visible < total {
      LoadMoreReachesAll(LoadMoreCount(visible, total), total);
    }
  }

  /** The count after n clicks. */
  function LoadMoreIterate(visible: int, total: nat, n: nat): int
    decreases n
  {
    if n == 0 then visible else LoadMoreIterate(LoadMoreCount(visible, total), total, n - 1)
  }

  /** With the ten shipped creators: 6, then 9, then 10, and the button disappears. */
  lemma ShippedCreators()
    ensures LoadMoreCount(InitialVisible, 10) == 9 && ShowsLoadMore(9, 10)
    ensures LoadMoreCount(9, 10) == 10 && !ShowsLoadMore(10, 10)
    ensures ClicksToShowAll(InitialVisible, 10) == 2
  {
  }

  /** The section's state: the number of creators shown. */
  class CreatorsGrid {
    const total: nat
    var visibleCount: int

    constructor (total: nat)
      ensures this.total == total && visibleCount == InitialVisible
    {
      this.total := total;
      visibleCount := InitialVisible;
    }

    /** `handleLoadMore`. */
    method HandleLoadMore()
      modifies this`visibleCount
      ensures visibleCount == LoadMoreCount(old(visibleCount), total)
      ensures visibleCount <= total
      ensures old(visibleCount) <= total ==> old(visibleCount) <= visibleCount
    {
      visibleCount := if visibleCount + Step < total then visibleCount + Step else total;
    }
  }
}
