/** The article page (src/pages/Blog/BlogDetailPage.jsx): the table of
    contents read out of the article's HTML by a global regular-expression
    match for `<h2>`/`<h3>` elements, and the like button. */
module BlogDetail {
  import opened Lists
  import opened Text

  /** The characters `.` does not match in a JavaScript regular expression. */
  predicate IsLineTerminator(c: char) {
    c == '\n' || c == '\r' || c == ' ' || c == ' '
  }

  predicate IsLevelDigit(c: char) { c == '2' || c == '3' }

  /** `<h[2-3]` starts at i. */
  predicate OpenAt(s: string, i: int) {
    0 <= i && i + 3 <= |s| && s[i] == '<' && s[i + 1] == 'h' && IsLevelDigit(s[i + 2])
  }

  /** `<\/h[2-3]>` starts at k. */
  predicate CloseAt(s: string, k: int) {
    0 <= k && k + 5 <= |s| && s[k] == '<' && s[k + 1] == '/' && s[k + 2] == 'h'
    && IsLevelDigit(s[k + 3]) && s[k + 4] == '>'
  }

  /** `<h[2-3][^>]*>(.*?)<\/h[2-3]>` matches exactly `s[i..e]`, the opening tag
      ending at the '>' at g. */
  ghost predicate HeadingWith(s: string, i: int, g: int, e: int) {
    && OpenAt(s, i) && CloseAt(s, e - 5) && e <= |s|
    && i + 3 <= g < e - 5 && s[g] == '>'
    && (forall m :: i + 3 <= m < g ==> s[m] != '>')
    && (forall m :: g < m < e - 5 ==> !IsLineTerminator(s[m]))
  }

  ghost predicate HeadingAt(s: string, i: int, e: int) {
    exists g :: HeadingWith(s, i, g, e)
  }

  /** No heading starts anywhere in [a, b). */
  ghost predicate NoHeadingIn(s: string, a: int, b: int) {
    forall p, e :: a <= p < b ==> !HeadingAt(s, p, e)
  }

  /** The first '>' at or after j. */
  function FindGt(s: string, j: nat): (r: Option<nat>)
    requires j <= |s|
    ensures r.Some? ==> j <= r.value < |s| && s[r.value] == '>'
                        && forall m :: j <= m < r.value ==> s[m] != '>'
    ensures r.None? ==> forall m :: j <= m < |s| ==> s[m] != '>'
    decreases |s| - j
  {
    if j == |s| then None else if s[j] == '>' then Some(j) else FindGt(s, j + 1)
  }

  /** The lazy `(.*?)` followed by the closing tag: the first closing tag at or
      after j, provided no line terminator comes before it. */
  function FindClose(s: string, j: nat): (r: Option<nat>)
    requires j <= |s|
    ensures r.Some? ==> j <= r.value && CloseAt(s, r.value)
                        && forall m :: j <= m < r.value ==> !CloseAt(s, m) && !IsLineTerminator(s[m])
    ensures r.None? ==> forall k :: j <= k && CloseAt(s, k) ==>
                          exists m :: j <= m < k && IsLineTerminator(s[m])
    decreases |s| - j
  {
    if j == |s| then None
    else if CloseAt(s, j) then Some(j)
    else if IsLineTerminator(s[j]) then None
    else FindClose(s, j + 1)
  }

  /** The match attempted at position i: its end, if the expression matches there. */
  function MatchAt(s: string, i: nat): (r: Option<nat>)
    requires i <= |s|
    ensures r.Some? ==> OpenAt(s, i) && i + 9 <= r.value <= |s|
  {
    if !OpenAt(s, i) then None
    else match FindGt(s, i + 3)
      case None => None
      case Some(g) =>
        match FindClose(s, g + 1)
          case None => None
          case Some(k) => Some(k + 5)
  }

  /** A match at i is the shortest heading starting at i, and no match means
      no heading starts at i: what a backtracking matcher returns for this
      expression. */
  lemma MatchAtIsShortest(s: string, i: nat)
    requires i <= |s|
    ensures MatchAt(s, i).Some? ==>
              var e := MatchAt(s, i).value;
              i < e <= |s| && HeadingAt(s, i, e) && forall e' :: e' < e ==> !HeadingAt(s, i, e')
    ensures MatchAt(s, i).None? ==> forall e :: !HeadingAt(s, i, e)
  {
    forall e', g' | HeadingWith(s, i, g', e')
      ensures MatchAt(s, i).Some? && MatchAt(s, i).value <= e'
    {
      var g := FindGt(s, i + 3);
      assert g == Some(g');
      var k := FindClose(s, g' + 1);
      if k.None? {
        assert CloseAt(s, e' - 5);
      }
    }
    if MatchAt(s, i).Some? {
      var g := FindGt(s, i + 3).value;
      var k := FindClose(s, g + 1).value;
      assert HeadingWith(s, i, g, k + 5);
    }
  }

  /** `content.match(/<h[2-3][^>]*>(.*?)<\/h[2-3]>/g) || []`, as the spans
      [start, end) of the matches found scanning from position i; each match
      resumes the scan at its end. */
  function Scan(s: string, i: nat): (r: seq<(nat, nat)>)
    requires i <= |s|
    ensures forall k :: 0 <= k < |r| ==> i <= r[k].0 && r[k].0 + 9 <= r[k].1 <= |s| && OpenAt(s, r[k].0)
    ensures forall k :: 0 <= k < |r| - 1 ==> r[k].1 <= r[k + 1].0
    decreases |s| - i
  {
    if i == |s| then []
    else match MatchAt(s, i)
      case Some(e) =>
        var t := Scan(s, e);
        assert forall k :: 1 <= k < |t| + 1 ==> ([(i, e)] + t)[k] == t[k - 1];
        [(i, e)] + t
      case None => Scan(s, i + 1)
  }

  /** A heading spans [a, b) and no shorter one starts at a. */
  ghost predicate ShortestHeading(s: string, a: int, b: int) {
    HeadingAt(s, a, b) && forall e :: e < b ==> !HeadingAt(s, a, e)
  }

  /** Every span the scan reports is the shortest heading at its start. */
  lemma {:induction false} ScanFindsHeadings(s: string, i: nat)
    requires i <= |s|
    ensures forall k :: 0 <= k < |Scan(s, i)| ==> ShortestHeading(s, Scan(s, i)[k].0, Scan(s, i)[k].1)
    decreases |s| - i
  {
    if i < |s| {
      MatchAtIsShortest(s, i);
      match MatchAt(s, i)
      case Some(e) =>
        ScanFindsHeadings(s, e);
        var t := Scan(s, e);
        assert Scan(s, i) == [(i, e)] + t;
        assert forall k :: 1 <= k < |t| + 1 ==> Scan(s, i)[k] == t[k - 1];
      case None =>
        ScanFindsHeadings(s, i + 1);
    }
  }

  /** The scan skips no heading: none starts before the first span, between
      two spans, or after the last one. */
  lemma {:induction false} ScanSkipsNoHeading(s: string, i: nat)
    requires i <= |s|
    ensures var r := Scan(s, i);
            && (|r| == 0 ==> NoHeadingIn(s, i, |s|))
            && (|r| > 0 ==> NoHeadingIn(s, i, r[0].0) && NoHeadingIn(s, r[|r| - 1].1, |s|))
            && (forall k :: 0 <= k < |r| - 1 ==> NoHeadingIn(s, r[k].1, r[k + 1].0))
    decreases |s| - i
  {
    if i < |s| {
      MatchAtIsShortest(s, i);
      match MatchAt(s, i)
      case Some(e) =>
        ScanSkipsNoHeading(s, e);
        GapsAfterMatch(s, i, e);
      case None =>
        ScanSkipsNoHeading(s, i + 1);
        var r := Scan(s, i);
        assert r == Scan(s, i + 1);
        if |r| == 0 {
          NoHeadingExtend(s, i, |s|);
        } else {
          NoHeadingExtend(s, i, r[0].0);
        }
    }
  }

  lemma NoHeadingExtend(s: string, i: int, b: int)
    requires forall e :: !HeadingAt(s, i, e)
    requires NoHeadingIn(s, i + 1, b)
    ensures NoHeadingIn(s, i, b)
  {
  }

  /** The gaps of a scan that starts with a match are the gaps of the scan resumed after it. */
  lemma GapsAfterMatch(s: string, i: nat, e: nat)
    requires i < |s| && MatchAt(s, i) == Some(e)
    requires var t := Scan(s, e);
             && (|t| == 0 ==> NoHeadingIn(s, e, |s|))
             && (|t| > 0 ==> NoHeadingIn(s, e, t[0].0) && NoHeadingIn(s, t[|t| - 1].1, |s|))
             && (forall k :: 0 <= k < |t| - 1 ==> NoHeadingIn(s, t[k].1, t[k + 1].0))
    ensures var r := Scan(s, i);
            && (|r| > 0 ==> NoHeadingIn(s, i, r[0].0) && NoHeadingIn(s, r[|r| - 1].1, |s|))
            && (forall k :: 0 <= k < |r| - 1 ==> NoHeadingIn(s, r[k].1, r[k + 1].0))
  {
    var t := Scan(s, e);
    var r := Scan(s, i);
    assert r == [(i, e)] + t;
    forall k | 0 <= k < |r| - 1
      ensures NoHeadingIn(s, r[k].1, r[k + 1].0)
    {
      if k == 0 {
        assert r[0].1 == e && r[1] == t[0];
      } else {
        assert r[k] == t[k - 1] && r[k + 1] == t[k];
      }
    }
    if |t| > 0 {
      assert r[|r| - 1] == t[|t| - 1];
    }
  }

  /** `heading.replace(/<[^>]*>/g, '')`: every `<` with a `>` somewhere after
      it is removed together with everything up to the first such `>`. */
  function StripTags(s: string): (r: string)
    ensures forall j :: 0 <= j < |r| ==> r[j] in s
    ensures NoTag(r)
    decreases |s|
  {
    if s == [] then []
    else if s[0] == '<' then
      match FindGt(s, 1)
      case Some(g) => StripTags(s[g + 1..])
      case None => [s[0]] + StripTags(s[1..])
    else [s[0]] + StripTags(s[1..])
  }

  /** What survives stripping keeps its order: the result is a subsequence of the input. */
  lemma {:induction false} StripTagsIsSubseq(s: string)
    ensures IsSubseq(StripTags(s), s)
    decreases |s|
  {
    if s != [] {
      if s[0] == '<' && FindGt(s, 1).Some? {
        var g := FindGt(s, 1).value;
        StripTagsIsSubseq(s[g + 1..]);
        SubseqOfSuffix(StripTags(s[g + 1..]), s, g + 1);
      } else {
        StripTagsIsSubseq(s[1..]);
        SubseqCons(StripTags(s[1..]), s);
      }
    }
  }

  /** No `<` is followed, anywhere later, by a `>`: no tag is left. */
  predicate NoTag(r: string) {
    forall i, j :: 0 <= i < j < |r| && r[i] == '<' ==> r[j] != '>'
  }

  /** A leading tag is dropped whole. */
  lemma StripTagsDropsTag(tag: string, rest: string)
    requires |tag| >= 2 && tag[0] == '<' && tag[|tag| - 1] == '>'
    requires forall m :: 1 <= m < |tag| - 1 ==> tag[m] != '>'
    ensures StripTags(tag + rest) == StripTags(rest)
  {
    var s := tag + rest;
    assert s[|tag| - 1] == '>';
    assert forall m :: 1 <= m < |tag| - 1 ==> s[m] != '>';
    assert FindGt(s, 1) == Some(|tag| - 1);
    assert s[|tag|..] == rest;
  }

  /** Text without `<` is kept as it is. */
  lemma {:induction false} StripTagsKeepsText(text: string, rest: string)
    requires forall m :: 0 <= m < |text| ==> text[m] != '<'
    ensures StripTags(text + rest) == text + StripTags(rest)
  {
    if text != [] {
      StripTagsKeepsText(text[1..], rest);
      var s := text + rest;
      assert s[0] == text[0] && s[0] != '<';
      assert s[1..] == text[1..] + rest;
      assert StripTags(s) == [text[0]] + StripTags(text[1..] + rest);
      assert [text[0]] + (text[1..] + StripTags(rest)) == text + StripTags(rest);
    } else {
      assert text + rest == rest;
    }
  }

  /** For a heading whose inner text holds no `<`, the entry's text is that inner text. */
  lemma HeadingText(s: string, i: int, g: int, e: int)
    requires HeadingWith(s, i, g, e)
    requires forall m :: g < m < e - 5 ==> s[m] != '<'
    ensures StripTags(s[i..e]) == s[g + 1..e - 5]
  {
    var open, inner, close := s[i..g + 1], s[g + 1..e - 5], s[e - 5..e];
    assert s[i..e] == open + (inner + close);
    StripTagsDropsTag(open, inner + close);
    StripTagsKeepsText(inner, close);
    StripTagsDropsTag(close, []);
    assert close + [] == close;
    assert inner + [] == inner;
  }

  /** One table-of-contents entry. */
  datatype TocItem = TocItem(level: string, text: string, id: string, index: nat)

  /** `heading.match(/<h([2-3])/)[1]`: a match always starts with its opening tag. */
  function Level(heading: string): (r: string)
    requires OpenAt(heading, 0)
    ensures r == "2" || r == "3"
  {
    [heading[2]]
  }

  /** `text.toLowerCase().replace(/[^a-z0-9]+/g, '-')`. */
  function Anchor(text: string): (r: string)
    ensures IsSlug(r)
    ensures forall i :: 0 <= i < |r| - 1 ==> !(r[i] == '-' && r[i + 1] == '-')
    ensures |r| == 0 <==> |text| == 0
    ensures SlugChars(r) == SlugChars(Lower(text))
  {
    CollapseRunsKeepsSlugChars(Lower(text));
    CollapseRuns(Lower(text))
  }

  /** One entry of `headings.map(...)`: the match `s[a..b]` at position `index`. */
  function Item(s: string, a: nat, b: nat, index: nat): (r: TocItem)
    requires a + 3 <= b <= |s| && OpenAt(s, a)
    ensures r.index == index && r.level == [s[a + 2]] && (r.level == "2" || r.level == "3")
    ensures r.text == StripTags(s[a..b]) && NoTag(r.text)
    ensures r.id == Anchor(r.text) && IsSlug(r.id)
    ensures forall j :: 0 <= j < |r.id| - 1 ==> !(r.id[j] == '-' && r.id[j + 1] == '-')
  {
    var h := s[a..b];
    assert h[0] == s[a] && h[1] == s[a + 1] && h[2] == s[a + 2];
    TocItem(Level(h), StripTags(h), Anchor(StripTags(h)), index)
  }

  /** `headings.map((heading, index) => ...)`, over the spans found by the scan. */
  function Items(s: string, spans: seq<(nat, nat)>, from: nat): (r: seq<TocItem>)
    requires forall k :: 0 <= k < |spans| ==> spans[k].0 + 3 <= spans[k].1 <= |s| && OpenAt(s, spans[k].0)
    ensures |r| == |spans|
    ensures forall k :: 0 <= k < |spans| ==> r[k] == Item(s, spans[k].0, spans[k].1, from + k)
  {
    if spans == [] then []
    else [Item(s, spans[0].0, spans[0].1, from)] + Items(s, spans[1..], from + 1)
  }

  /** The table of contents built from an article's HTML: one entry per match,
      in document order, each with its position as index, level 2 or 3, the
      match with its tags stripped as text, and an anchor made only of
      `[a-z0-9-]` with no two dashes together. */
  function TocItems(content: string): (r: seq<TocItem>)
    ensures var spans := Scan(content, 0);
            |r| == |spans|
            && forall k :: 0 <= k < |r| ==>
                 && r[k] == Item(content, spans[k].0, spans[k].1, k)
                 && r[k].index == k
                 && r[k].level == [content[spans[k].0 + 2]]
                 && r[k].id == Anchor(r[k].text)
                 && (r[k].level == "2" || r[k].level == "3")
                 && r[k].text == StripTags(content[spans[k].0..spans[k].1])
                 && NoTag(r[k].text)
                 && IsSlug(r[k].id)
                 && forall j :: 0 <= j < |r[k].id| - 1 ==> !(r[k].id[j] == '-' && r[k].id[j + 1] == '-')
  {
    Items(content, Scan(content, 0), 0)
  }

  /** Level-2 entries render in the medium weight. */
  predicate RendersBold(item: TocItem) { item.level == "2" }

  /** Every other entry renders indented. */
  predicate RendersIndented(item: TocItem) { item.level != "2" }

  lemma LevelStyles(content: string)
    ensures forall item :: item in TocItems(content) ==>
              (RendersBold(item) <==> item.level == "2") && (RendersIndented(item) <==> item.level == "3")
              && (RendersBold(item) != RendersIndented(item))
  {
  }

  /** The like button's two fields. */
  datatype LikeState = LikeState(isLiked: bool, likes: int)

  /** `handleLike`: flips the flag and moves the count using the flag's old value. */
  function Like(st: LikeState): (r: LikeState)
    ensures r.isLiked == !st.isLiked
    ensures r.likes == st.likes + (if r.isLiked then 1 else -1)
  {
    LikeState(!st.isLiked, if st.isLiked then st.likes - 1 else st.likes + 1)
  }

  /** The count is the post's initial count plus one while liked. */
  predicate LikesConsistent(st: LikeState, initial: int) {
    st.likes == initial + (if st.isLiked then 1 else 0)
  }

  lemma LikeKeepsConsistent(st: LikeState, initial: int)
    requires LikesConsistent(st, initial)
    ensures LikesConsistent(Like(st), initial)
  {
  }

  /** Two likes in a row restore both fields. */
  lemma LikeTwice(st: LikeState)
    ensures Like(Like(st)) == st
  {
  }

  /** The shipped post starts with 324 likes. */
  const InitialLikes := 324

  class LikeButton {
    var isLiked: bool
    var likes: int

    constructor ()
      ensures !isLiked && likes == InitialLikes
    {
      isLiked := false;
      likes := InitialLikes;
    }

    method HandleLike()
      modifies this
      ensures LikeState(isLiked, likes) == Like(old(LikeState(isLiked, likes)))
      ensures LikesConsistent(old(LikeState(isLiked, likes)), InitialLikes) ==>
                LikesConsistent(LikeState(isLiked, likes), InitialLikes)
    {
      likes := if isLiked then likes - 1 else likes + 1;
      isLiked := !isLiked;
    }
  }
}
