/** The skills section of the home page (src/pages/Home/SkillsSection.jsx):
    the category tabs, the course list grown once by "load more", and the
    magnitude chosen for review counts. */
module Skills {
  import opened Text

  /** A course card, reduced to what the section's logic reads. */
  datatype SkillCourse = SkillCourse(id: nat, reviews: nat)

  const InitialCourses: seq<SkillCourse> :=
    [SkillCourse(1, 31391), SkillCourse(2, 7559), SkillCourse(3, 3904), SkillCourse(4, 3520)]

  const AdditionalCourses: seq<SkillCourse> :=
    [SkillCourse(5, 5238), SkillCourse(6, 2891), SkillCourse(7, 4125), SkillCourse(8, 1876)]

  const DefaultCategory := "Communication"

  /** How `formatNumber` shows a count: scaled by a divisor with a suffix, or as it is. */
  datatype Formatted = Scaled(divisor: nat, suffix: char) | Plain(text: string)

  /** `formatNumber(num)`: millions with `M`, thousands with `K`, else the
      numeral. The one-decimal `toFixed` digits of the scaled value are not
      modelled; the divisor and suffix say what they are taken from. */
  function FormatNumber(num: nat): (r: Formatted)
    ensures r.Plain? <==> num < 1000
    ensures r.Plain? ==> AllDigits(r.text) && NumeralValue(r.text) == num && 1 <= |r.text| <= 3
    ensures r.Plain? && |r.text| > 1 ==> r.text[0] != '0'
    ensures r.Plain? ==> r.text == DecimalString(num)
    ensures r.Scaled? ==> r.divisor > 0 && num / r.divisor >= 1
    ensures r.Scaled? && r.suffix == 'K' ==> num / r.divisor < 1000
    ensures r.Scaled? ==> (r.suffix == 'M' <==> num >= 1000000)
    ensures 1000 <= num < 1000000 ==> r == Scaled(1000, 'K')
    ensures num >= 1000000 ==> r == Scaled(1000000, 'M')
  {
    if num >= 1000000 then Scaled(1000000, 'M')
    else if num >= 1000 then Scaled(1000, 'K')
    else
      var t := DecimalString(num);
      DecimalStringLength(num);
      Plain(t)
  }

  /** A numeral below 1000 has at most three digits. */
  lemma DecimalStringLength(n: nat)
    requires n < 1000
    ensures |DecimalString(n)| <= 3
  {
    if n >= 10 {
      assert DecimalString(n) == DecimalString(n / 10) + [('0' as int + n % 10) as char];
      if n / 10 >= 10 {
        assert DecimalString(n / 10) == DecimalString(n / 100) + [('0' as int + (n / 10) % 10) as char];
      }
    }
  }

  /** Every shipped review count is shown in thousands. */
  lemma ShippedReviewsInThousands()
    ensures forall c :: c in InitialCourses + AdditionalCourses ==> FormatNumber(c.reviews).Scaled?
    ensures forall c :: c in InitialCourses + AdditionalCourses ==> FormatNumber(c.reviews).suffix == 'K'
  {
  }

  /** The section's fields. */
  datatype SkillsState = SkillsState(activeCategory: string, visibleCourses: seq<SkillCourse>,
                                     isLoading: bool, showLoadMore: bool)

  const Initial := SkillsState(DefaultCategory, InitialCourses, false, true)

  /** The first half of `handleLoadMore`, before the simulated request's wait. */
  function LoadStarted(st: SkillsState): (r: SkillsState)
    ensures r.isLoading && r.visibleCourses == st.visibleCourses && r.showLoadMore == st.showLoadMore
    ensures r.activeCategory == st.activeCategory
  {
    st.(isLoading := true)
  }

  /** The second half, after the wait: the extra courses go after whatever is listed then. */
  function LoadCompleted(st: SkillsState): (r: SkillsState)
    ensures |r.visibleCourses| == |st.visibleCourses| + |AdditionalCourses|
    ensures r.visibleCourses[..|st.visibleCourses|] == st.visibleCourses
    ensures r.visibleCourses[|st.visibleCourses|..] == AdditionalCourses
    ensures !r.showLoadMore && !r.isLoading && r.activeCategory == st.activeCategory
  {
    var v := st.visibleCourses + AdditionalCourses;
    assert v[..|st.visibleCourses|] == st.visibleCourses;
    st.(visibleCourses := v, showLoadMore := false, isLoading := false)
  }

  /** `handleCategoryChange(category)`. */
  function CategoryChanged(st: SkillsState, category: string): (r: SkillsState)
    ensures r.activeCategory == category && r.visibleCourses == InitialCourses && r.showLoadMore
    ensures r.isLoading == st.isLoading
  {
    st.(activeCategory := category, visibleCourses := InitialCourses, showLoadMore := true)
  }

  /** From the initial state, one load lists the courses with ids 1 to 8, in order,
      and removes the button. */
  lemma OneLoadListsEight()
    ensures var st := LoadCompleted(LoadStarted(Initial));
            |st.visibleCourses| == 8
            && (forall i :: 0 <= i < 8 ==> st.visibleCourses[i].id == i + 1)
            && !st.showLoadMore && !st.isLoading && st.activeCategory == DefaultCategory
  {
  }

  /** A category change undoes any earlier load. */
  lemma CategoryChangeForgetsLoads(st: SkillsState, category: string)
    ensures CategoryChanged(LoadCompleted(st), category) == CategoryChanged(st, category).(isLoading := false)
  {
  }

  /** A category change while the request is pending is overtaken by it: the
      extra courses still arrive and the button disappears. */
  lemma CategoryChangeDuringLoad(st: SkillsState, category: string)
    ensures var r := LoadCompleted(CategoryChanged(LoadStarted(st), category));
            r.visibleCourses == InitialCourses + AdditionalCourses && !r.showLoadMore
            && r.activeCategory == category
  {
  }

  /** The rendered cards: the listed courses, whatever the category. */
  function RenderedIds(st: SkillsState): (r: seq<nat>)
    ensures |r| == |st.visibleCourses|
    ensures forall i :: 0 <= i < |r| ==> r[i] == st.visibleCourses[i].id
  {
    seq(|st.visibleCourses|, i requires 0 <= i < |st.visibleCourses| => st.visibleCourses[i].id)
  }

  lemma RenderedIgnoresCategory(st: SkillsState, category: string)
    ensures RenderedIds(st.(activeCategory := category)) == RenderedIds(st)
  {
  }

  /** The section's state and handlers. */
  class SkillsSection {
    var activeCategory: string
    var visibleCourses: seq<SkillCourse>
    var isLoading: bool
    var showLoadMore: bool

    constructor ()
      ensures State() == Initial
    {
      activeCategory := DefaultCategory;
      visibleCourses := InitialCourses;
      isLoading := false;
      showLoadMore := true;
    }

    function State(): SkillsState
      reads this
    {
      SkillsState(activeCategory, visibleCourses, isLoading, showLoadMore)
    }

    /** `handleLoadMore`, from the click to the end of the simulated wait, as one step. */
    method HandleLoadMore()
      modifies this`visibleCourses, this`showLoadMore, this`isLoading
      ensures State() == LoadCompleted(LoadStarted(old(State())))
    {
      isLoading := true;
      visibleCourses := visibleCourses + AdditionalCourses;
      showLoadMore := false;
      isLoading := false;
    }

    method HandleCategoryChange(category: string)
      modifies this`activeCategory, this`visibleCourses, this`showLoadMore
      ensures State() == CategoryChanged(old(State()), category)
    {
      activeCategory := category;
      visibleCourses := InitialCourses;
      showLoadMore := true;
    }
  }
}
