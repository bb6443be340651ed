/** The blog index (src/pages/Blog/BlogPage.jsx): a search over title,
    excerpt and tags, a single category selection with the sentinel "All",
    a featured strip of at most three posts and the grid below it. */
module BlogListing {
  import opened Lists
  import opened Text

  datatype Post = Post(id: int, title: string, excerpt: string, category: string,
                       tags: seq<string>, featured: bool)

  const AllCategories := "All"
  const FeaturedStripSize := 3

  predicate MatchesSearch(p: Post, term: string) {
    || Includes(Lower(p.title), Lower(term))
    || Includes(Lower(p.excerpt), Lower(term))
    || SomeIncludes(p.tags, term)
  }

  /** The empty term matches every post. */
  lemma EmptyTermMatches(p: Post)
    ensures MatchesSearch(p, "")
  {
    IncludesEmpty(Lower(p.title));
  }

  /** The category test: "All" or the post's own category, compared exactly. */
  predicate MatchesCategory(p: Post, category: string) {
    category == AllCategories || p.category == category
  }

  predicate Keeps(p: Post, term: string, category: string) {
    MatchesSearch(p, term) && MatchesCategory(p, category)
  }

  function KeepsFn(term: string, category: string): Post -> bool {
    p => Keeps(p, term, category)
  }

  /** `filteredPosts`: the posts passing both tests, in catalog order. */
  function FilteredPosts(posts: seq<Post>, term: string, category: string): (r: seq<Post>)
    ensures forall p :: p in r <==> p in posts && Keeps(p, term, category)
    ensures IsSubseq(r, posts)
  {
    FilterIsSubseq(KeepsFn(term, category), posts);
    Filter(KeepsFn(term, category), posts)
  }

  /** With the empty term and "All", every post is listed in order. */
  lemma FilteredAllWhenUnconstrained(posts: seq<Post>)
    ensures FilteredPosts(posts, "", AllCategories) == posts
  {
    forall p | p in posts ensures Keeps(p, "", AllCategories) {
      EmptyTermMatches(p);
    }
    FilterKeepsAll(KeepsFn("", AllCategories), posts);
  }

  function IsFeatured(p: Post): bool { p.featured }
  function IsRegular(p: Post): bool { !p.featured }

  /** `filteredPosts.filter(post => post.featured)`. */
  function FeaturedPosts(filtered: seq<Post>): (r: seq<Post>)
    ensures forall p :: p in r <==> p in filtered && p.featured
    ensures IsSubseq(r, filtered)
  {
    FilterIsSubseq(IsFeatured, filtered);
    Filter(IsFeatured, filtered)
  }

  /** `filteredPosts.filter(post => !post.featured)`. */
  function RegularPosts(filtered: seq<Post>): (r: seq<Post>)
    ensures forall p :: p in r <==> p in filtered && !p.featured
    ensures IsSubseq(r, filtered)
  {
    FilterIsSubseq(IsRegular, filtered);
    Filter(IsRegular, filtered)
  }

  /** Featured and regular posts split the filtered list: disjoint, and
      together exactly the filtered posts, counted with multiplicity. */
  lemma FeaturedRegularPartition(filtered: seq<Post>)
    ensures multiset(FeaturedPosts(filtered)) + multiset(RegularPosts(filtered)) == multiset(filtered)
    ensures |FeaturedPosts(filtered)| + |RegularPosts(filtered)| == |filtered|
    ensures forall p :: !(p in FeaturedPosts(filtered) && p in RegularPosts(filtered))
  {
    FilterPartition(IsFeatured, IsRegular, filtered);
  }

  /** The featured strip renders only under "All" with at least one featured post. */
  predicate ShowsFeaturedStrip(filtered: seq<Post>, category: string) {
    |FeaturedPosts(filtered)| > 0 && category == AllCategories
  }

  /** `featuredPosts.slice(0, 3)`, or nothing when the strip is hidden. */
  function FeaturedStrip(filtered: seq<Post>, category: string): (r: seq<Post>)
    ensures |r| <= FeaturedStripSize
    ensures ShowsFeaturedStrip(filtered, category) ==>
              |r| == Min(|FeaturedPosts(filtered)|, FeaturedStripSize) && r == FeaturedPosts(filtered)[..|r|]
    ensures !ShowsFeaturedStrip(filtered, category) ==> r == []
  {
    if ShowsFeaturedStrip(filtered, category) then Slice(FeaturedPosts(filtered), 0, FeaturedStripSize) else []
  }

  function Min(a: int, b: int): int { if a < b then a else b }

  /** The grid: the regular posts under "All", otherwise every filtered post. */
  function MainGrid(filtered: seq<Post>, category: string): (r: seq<Post>)
    ensures category == AllCategories ==> r == RegularPosts(filtered)
    ensures category == AllCategories ==> forall p :: p in r ==> !p.featured
    ensures category != AllCategories ==> r == filtered
    ensures IsSubseq(r, filtered)
  {
    IsSubseqRefl(filtered);
    if category == AllCategories then RegularPosts(filtered) else filtered
  }

  /** The "Latest Articles" / "<category> Articles" heading renders when no strip sits above the grid. */
  predicate ShowsGridHeading(filtered: seq<Post>, category: string) {
    category != AllCategories || |FeaturedPosts(filtered)| == 0
  }

  /** The "No articles found" panel. */
  predicate ShowsNoResults(filtered: seq<Post>) {
    |filtered| == 0
  }

  /** Outside "All", the grid heading shows and the grid is the whole result;
      under "All", a post appears at most once on the page: the strip holds
      only featured posts and the grid only regular ones. */
  lemma PostsShownOnce(filtered: seq<Post>, category: string)
    ensures ShowsGridHeading(filtered, category) <==> !ShowsFeaturedStrip(filtered, category)
    ensures forall p :: !(p in FeaturedStrip(filtered, category) && p in MainGrid(filtered, category))
  {
  }

  /** With at most three featured posts every filtered post is on the page;
      a fourth featured post under "All" is on neither the strip nor the grid. */
  lemma FeaturedOverflowHidden(filtered: seq<Post>)
    ensures |FeaturedPosts(filtered)| <= FeaturedStripSize ==>
              forall p :: p in filtered ==>
                p in FeaturedStrip(filtered, AllCategories) || p in MainGrid(filtered, AllCategories)
    ensures |FeaturedPosts(filtered)| > FeaturedStripSize && NoDup(filtered) ==>
              var hidden := FeaturedPosts(filtered)[FeaturedStripSize];
              hidden in filtered &&
              hidden !in FeaturedStrip(filtered, AllCategories) && hidden !in MainGrid(filtered, AllCategories)
  {
    var f := FeaturedPosts(filtered);
    if |f| > FeaturedStripSize && NoDup(filtered) {
      FilterNoDup(IsFeatured, filtered);
      var hidden := f[FeaturedStripSize];
      assert hidden in f;
      assert FeaturedStrip(filtered, AllCategories) == f[..FeaturedStripSize];
      assert hidden !in f[..FeaturedStripSize] by {
        forall k | 0 <= k < FeaturedStripSize ensures f[..FeaturedStripSize][k] != hidden {
          assert f[..FeaturedStripSize][k] == f[k];
        }
      }
    }
  }

  /** The page's state and its handlers. */
  class BlogIndex {
    const posts: seq<Post>
    var searchTerm: string
    var selectedCategory: string
    var showFilters: bool

    constructor (posts: seq<Post>)
      ensures this.posts == posts
      ensures searchTerm == "" && selectedCategory == AllCategories && !showFilters
    {
      this.posts := posts;
      searchTerm := "";
      selectedCategory := AllCategories;
      showFilters := false;
    }

    function Filtered(): seq<Post>
      reads this
    {
      FilteredPosts(posts, searchTerm, selectedCategory)
    }

    method SetSearchTerm(term: string)
      modifies this`searchTerm
      ensures searchTerm == term
    {
      searchTerm := term;
    }

    method SelectCategory(category: string)
      modifies this`selectedCategory
      ensures selectedCategory == category
    {
      selectedCategory := category;
    }

    method ToggleShowFilters()
      modifies this`showFilters
      ensures showFilters == !old(showFilters)
    {
      showFilters := !showFilters;
    }

    /** "View All Articles": clears the term and selects "All", which lists every post. */
    method ViewAllArticles()
      modifies this`searchTerm, this`selectedCategory
      ensures searchTerm == "" && selectedCategory == AllCategories
      ensures Filtered() == posts
    {
      searchTerm := "";
      selectedCategory := AllCategories;
      FilteredAllWhenUnconstrained(posts);
    }
  }
}
