/** The link targets both navigation bars build from their menu entries. */
module Links {
  import opened Text

  /** `/explore/${category.toLowerCase()}/${item.toLowerCase().replace(/[^a-z0-9]/g, '-')}`:
      the category only lower-cased, the item turned into a slug of its own length. */
  function ExploreLink(category: string, item: string): (r: string)
    ensures |r| == 10 + |category| + |item|
    ensures r[..9] == "/explore/"
    ensures r[9..9 + |category|] == Lower(category)
    ensures r[9 + |category|] == '/'
    ensures IsSlug(r[10 + |category|..])
    ensures forall i :: 0 <= i < |item| ==>
              (IsSlugChar(LowerChar(item[i])) ==> r[10 + |category| + i] == LowerChar(item[i]))
              && (!IsSlugChar(LowerChar(item[i])) ==> r[10 + |category| + i] == '-')
  {
    var seg := DashEach(Lower(item));
    var r := "/explore/" + Lower(category) + "/" + seg;
    assert r[10 + |category|..] == seg;
    r
  }

  /** An explore link gives back, for a known category length, the category
      up to case and the item's slug. */
  lemma ExploreLinkDeterminesParts(c1: string, i1: string, c2: string, i2: string)
    requires |c1| == |c2| && ExploreLink(c1, i1) == ExploreLink(c2, i2)
    ensures Lower(c1) == Lower(c2)
    ensures DashEach(Lower(i1)) == DashEach(Lower(i2))
  {
    var r := ExploreLink(c1, i1);
    assert r[10 + |c1|..] == DashEach(Lower(i1));
    assert ExploreLink(c2, i2)[10 + |c2|..] == DashEach(Lower(i2));
  }

  /** `/${prefix}/${item.toLowerCase()}`. */
  function ItemLink(prefix: string, item: string): (r: string)
    ensures |r| == 2 + |prefix| + |item|
    ensures r[..1 + |prefix|] == "/" + prefix
    ensures r[1 + |prefix|] == '/'
    ensures r[2 + |prefix|..] == Lower(item)
    ensures forall i :: 2 + |prefix| <= i < |r| ==> !IsUpper(r[i])
  {
    var r := "/" + prefix + "/" + Lower(item);
    assert r[2 + |prefix|..] == Lower(item);
    r
  }

  /** Item links under one prefix differ exactly when the items differ up to case. */
  lemma ItemLinkInjective(prefix: string, a: string, b: string)
    ensures ItemLink(prefix, a) == ItemLink(prefix, b) <==> Lower(a) == Lower(b)
  {
    if ItemLink(prefix, a) == ItemLink(prefix, b) {
      assert ItemLink(prefix, a)[2 + |prefix|..] == ItemLink(prefix, b)[2 + |prefix|..];
    }
  }
}
