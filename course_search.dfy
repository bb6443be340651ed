/** The course search page (src/pages/Course/CourseSearchPage.jsx): a text
    search over title and provider, three multi-select facets (subject, skill,
    school) combined by AND, and pagination six courses per page. */
module CourseSearch {
  import opened Lists
  import opened Text

  /** The fields of a course record that the page's logic reads. */
  datatype Course = Course(id: int, title: string, provider: string,
                           subject: string, skill: string, school: string)

  datatype Facet = Subjects | Skills | Schools

  /** The `selectedFilters` record: one selection list per facet. */
  datatype Selections = Selections(subjects: seq<string>, skills: seq<string>, schools: seq<string>)
  {
    function Get(f: Facet): seq<string> {
      match f
      case Subjects => subjects
      case Skills => skills
      case Schools => schools
    }

    /** `{ ...prev, [type]: v }`. */
    function Set(f: Facet, v: seq<string>): (r: Selections)
      ensures r.Get(f) == v
      ensures forall g :: g != f ==> r.Get(g) == Get(g)
    {
      match f
      case Subjects => this.(subjects := v)
      case Skills => this.(skills := v)
      case Schools => this.(schools := v)
    }

    /** Every facet list is duplicate-free. */
    predicate Valid() {
      NoDup(subjects) && NoDup(skills) && NoDup(schools)
    }
  }

  const NoSelections := Selections([], [], [])

  const CoursesPerPage := 6

  /** The search matches title or provider only; the term is not trimmed. */
  predicate MatchesSearch(c: Course, term: string) {
    Includes(Lower(c.title), Lower(term)) || Includes(Lower(c.provider), Lower(term))
  }

  /** An empty selection list does not constrain its facet. */
  predicate MatchesFacet(selected: seq<string>, value: string) {
    |selected| == 0 || value in selected
  }

  predicate Keeps(c: Course, term: string, sel: Selections) {
    && MatchesSearch(c, term)
    && MatchesFacet(sel.subjects, c.subject)
    && MatchesFacet(sel.skills, c.skill)
    && MatchesFacet(sel.schools, c.school)
  }

  function KeepsFn(term: string, sel: Selections): Course -> bool {
    c => Keeps(c, term, sel)
  }

  /** `filteredCourses`: the courses that match the term and every facet, in catalog order. */
  function FilteredCourses(courses: seq<Course>, term: string, sel: Selections): (r: seq<Course>)
    ensures forall c :: c in r ==> c in courses && Keeps(c, term, sel)
    ensures forall c :: c in courses && Keeps(c, term, sel) ==> c in r
    ensures IsSubseq(r, courses)
  {
    FilterIsSubseq(KeepsFn(term, sel), courses);
    Filter(KeepsFn(term, sel), courses)
  }

  /** The empty search term matches every course. */
  lemma EmptyTermMatches(c: Course)
    ensures MatchesSearch(c, "")
  {
    IncludesEmpty(Lower(c.title));
  }

  /** With an empty term and no facet selected, every course is listed, in order. */
  lemma FilteredAllWhenUnconstrained(courses: seq<Course>)
    ensures FilteredCourses(courses, "", NoSelections) == courses
  {
    forall c | c in courses ensures Keeps(c, "", NoSelections) {
      IncludesEmpty(Lower(c.title));
    }
    FilterKeepsAll(KeepsFn("", NoSelections), courses);
  }

  /** Selecting a value in one facet narrows the list to the courses carrying it. */
  lemma FilteredBySingleSubject(courses: seq<Course>, subject: string)
    ensures forall c :: c in FilteredCourses(courses, "", Selections([subject], [], [])) <==>
                        c in courses && c.subject == subject
  {
    forall c | c in courses ensures MatchesSearch(c, "") {
      IncludesEmpty(Lower(c.title));
    }
  }

  /** `courses.map(c => c.subject)` and likewise. */
  function FacetColumn(courses: seq<Course>, f: Facet): (r: seq<string>)
    ensures |r| == |courses|
    ensures forall i :: 0 <= i < |courses| ==> r[i] == FacetOf(courses[i], f)
  {
    seq(|courses|, i requires 0 <= i < |courses| => FacetOf(courses[i], f))
  }

  /** The facet lists: `[...new Set(courses.map(c => c.subject))]` and likewise:
      each value once, listed in the order of the first course carrying it. */
  function FacetValues(courses: seq<Course>, f: Facet): (r: seq<string>)
    ensures NoDup(r)
    ensures forall c :: c in courses ==> FacetOf(c, f) in r
    ensures forall v :: v in r ==> exists c :: c in courses && FacetOf(c, f) == v
    ensures r == Distinct(FacetColumn(courses, f))
    ensures forall i, j :: 0 <= i < j < |r| ==>
              FirstIndex(FacetColumn(courses, f), r[i]) < FirstIndex(FacetColumn(courses, f), r[j])
  {
    var values := FacetColumn(courses, f);
    assert forall c :: c in courses ==> FacetOf(c, f) in values by {
      forall c | c in courses ensures FacetOf(c, f) in values {
        var i :| 0 <= i < |courses| && courses[i] == c;
        assert values[i] == FacetOf(c, f);
      }
    }
    assert forall v :: v in values ==> exists c :: c in courses && FacetOf(c, f) == v by {
      forall v | v in values ensures exists c :: c in courses && FacetOf(c, f) == v {
        var i :| 0 <= i < |values| && values[i] == v;
        assert courses[i] in courses;
      }
    }
    Distinct(values)
  }

  function FacetOf(c: Course, f: Facet): string {
    match f
    case Subjects => c.subject
    case Skills => c.skill
    case Schools => c.school
  }

  /** `Math.ceil(n / coursesPerPage)`. */
  function TotalPages(n: nat): (r: nat)
    ensures r * CoursesPerPage >= n
    ensures r == 0 || (r - 1) * CoursesPerPage < n
  {
    (n + CoursesPerPage - 1) / CoursesPerPage
  }

  /** `filtered.slice(startIndex, endIndex)` with `startIndex = (page - 1) * 6`. */
  function PageItems<T>(filtered: seq<T>, page: int): seq<T> {
    Slice(filtered, (page - 1) * CoursesPerPage, (page - 1) * CoursesPerPage + CoursesPerPage)
  }

  /** A page between 1 and `totalPages` shows the next at most six items, and at least one. */
  lemma PageInRange<T>(filtered: seq<T>, page: int)
    requires 1 <= page <= TotalPages(|filtered|)
    ensures var start := (page - 1) * CoursesPerPage;
            var end := if start + CoursesPerPage <= |filtered| then start + CoursesPerPage else |filtered|;
            PageItems(filtered, page) == filtered[start..end]
    ensures 1 <= |PageItems(filtered, page)| <= CoursesPerPage
  {
  }

  /** A page past the last one (possible, since the page is never reset) shows nothing. */
  lemma PageBeyondEnd<T>(filtered: seq<T>, page: int)
    requires page > TotalPages(|filtered|)
    ensures PageItems(filtered, page) == []
  {
  }

  /** Pages 1 to k, concatenated. */
  function PagesUpTo<T>(filtered: seq<T>, k: nat): seq<T> {
    if k == 0 then [] else PagesUpTo(filtered, k - 1) + PageItems(filtered, k)
  }

  /** Pages 1 to k, concatenated, are the first k * 6 items. */
  lemma {:induction false} PagesUpToPrefix<T>(filtered: seq<T>, k: nat)
    requires k <= TotalPages(|filtered|)
    ensures PagesUpTo(filtered, k) ==
            filtered[..if k * CoursesPerPage <= |filtered| then k * CoursesPerPage else |filtered|]
  {
    if k > 0 {
      PagesUpToPrefix(filtered, k - 1);
      PageInRange(filtered, k);
      var start := (k - 1) * CoursesPerPage;
      var end := if start + CoursesPerPage <= |filtered| then start + CoursesPerPage else |filtered|;
      assert filtered[..start] + filtered[start..end] == filtered[..end];
    }
  }

  /** All pages together give back the filtered list, each item once and in order. */
  lemma PagesCoverAll<T>(filtered: seq<T>)
    ensures PagesUpTo(filtered, TotalPages(|filtered|)) == filtered
  {
    PagesUpToPrefix(filtered, TotalPages(|filtered|));
  }

  /** `goToPrevious`: move back only when `currentPage > 1`. */
  function PreviousPage(current: int): (r: int)
    ensures r == current || (current > 1 && r == current - 1)
    ensures 1 <= current ==> 1 <= r
  {
    if current > 1 then current - 1 else current
  }

  /** `goToNext`: move forward only when `currentPage < totalPages`. */
  function NextPage(current: int, total: nat): (r: int)
    ensures r == current || (current < total && r == current + 1)
    ensures 1 <= current <= total ==> 1 <= r <= total
  {
    if current < total then current + 1 else current
  }

  /** The chips shown for active filters: subjects, then skills, then schools. */
  function ActiveChips(sel: Selections): seq<string> {
    sel.subjects + sel.skills + sel.schools
  }

  /** `getActiveFilterCount`: the number of selected values over the three facets. */
  function ActiveFilterCount(sel: Selections): (r: nat)
    ensures r == |ActiveChips(sel)|
    ensures r == 0 <==> sel == NoSelections
  {
    |sel.subjects| + |sel.skills| + |sel.schools|
  }

  /** Toggling a value adds or removes exactly one chip when the facet list has no duplicates. */
  lemma ToggleChangesCountByOne(sel: Selections, f: Facet, v: string)
    requires sel.Valid()
    ensures var after := sel.Set(f, Toggle(sel.Get(f), v));
            after.Valid() &&
            ActiveFilterCount(after) == ActiveFilterCount(sel) + (if v in sel.Get(f) then -1 else 1)
  {
    ToggleNoDup(sel.Get(f), v);
    if v in sel.Get(f) {
      RemoveOnce(sel.Get(f), v);
    }
  }

  /** `if (list.includes(v)) toggleFilter(type, v)`: drops v from one facet list. */
  function DropValue(s: seq<string>, v: string): (r: seq<string>)
    ensures v !in r
    ensures forall w :: w != v ==> (w in r <==> w in s)
  {
    if v in s then Toggle(s, v) else s
  }

  /** The chip's close button: the value leaves every facet, and every
      other value keeps its place in every facet. */
  function ChipRemoved(sel: Selections, value: string): (r: Selections)
    ensures forall g :: value !in r.Get(g)
    ensures forall g, v :: v != value ==> (v in r.Get(g) <==> v in sel.Get(g))
  {
    Selections(DropValue(sel.subjects, value), DropValue(sel.skills, value), DropValue(sel.schools, value))
  }

  /** Removing a chip takes exactly one chip per facet that held it off the count. */
  lemma ChipRemovedCount(sel: Selections, value: string)
    requires sel.Valid()
    ensures ChipRemoved(sel, value).Valid()
    ensures ActiveFilterCount(ChipRemoved(sel, value)) ==
            ActiveFilterCount(sel) - (if value in sel.subjects then 1 else 0)
            - (if value in sel.skills then 1 else 0) - (if value in sel.schools then 1 else 0)
  {
    ToggleChangesCountByOne(sel, Subjects, value);
    ToggleChangesCountByOne(sel, Skills, value);
    ToggleChangesCountByOne(sel, Schools, value);
  }

  /** The page's state (`useState` fields) and its handlers. */
  class SearchPage {
    const courses: seq<Course>
    var selected: Selections
    var searchTerm: string
    var showFilters: bool
    var currentPage: int

    constructor (courses: seq<Course>)
      ensures this.courses == courses
      ensures selected == NoSelections && searchTerm == "" && !showFilters && currentPage == 1
    {
      this.courses := courses;
      selected := NoSelections;
      searchTerm := "";
      showFilters := false;
      currentPage := 1;
    }

    /** The selection lists never hold duplicates, and the page number stays positive. */
    predicate Valid()
      reads this
    {
      selected.Valid() && currentPage >= 1
    }

    function Filtered(): seq<Course>
      reads this
    {
      FilteredCourses(courses, searchTerm, selected)
    }

    function Total(): nat
      reads this
    {
      TotalPages(|Filtered()|)
    }

    /** `currentCourses`: the slice shown on the current page. */
    function CurrentCourses(): seq<Course>
      reads this
    {
      PageItems(Filtered(), currentPage)
    }

    /** The "No courses found" panel. */
    predicate ShowsNoResults()
      reads this
    {
      |Filtered()| == 0
    }

    /** The pagination bar renders only when there is more than one page's worth. */
    predicate ShowsPagination()
      reads this
    {
      |Filtered()| > CoursesPerPage
    }

    method SetSearchTerm(term: string)
      modifies this`searchTerm
      ensures searchTerm == term
    {
      searchTerm := term;
    }

    method ToggleShowFilters()
      modifies this`showFilters
      ensures showFilters == !old(showFilters)
    {
      showFilters := !showFilters;
    }

    /** `toggleFilter(type, value)`: remove the value if selected, append it otherwise. */
    method ToggleFilter(f: Facet, value: string)
      requires Valid()
      modifies this`selected
      ensures Valid()
      ensures selected.Get(f) == Toggle(old(selected.Get(f)), value)
      ensures forall g :: g != f ==> selected.Get(g) == old(selected.Get(g))
    {
      ToggleNoDup(selected.Get(f), value);
      selected := selected.Set(f, Toggle(selected.Get(f), value));
    }

    /** The close button on a chip: toggles the value off in every facet that holds it. */
    method RemoveChip(value: string)
      requires Valid()
      modifies this`selected
      ensures Valid()
      ensures selected == ChipRemoved(old(selected), value)
    {
      ghost var before := selected;
      if value in selected.subjects { ToggleFilter(Subjects, value); }
      assert selected.Get(Subjects) == DropValue(before.subjects, value);
      assert selected.Get(Skills) == before.skills && selected.Get(Schools) == before.schools;
      ghost var mid := selected;
      if value in selected.skills { ToggleFilter(Skills, value); }
      assert selected.Get(Skills) == DropValue(before.skills, value);
      assert selected.Get(Subjects) == mid.subjects && selected.Get(Schools) == before.schools;
      ghost var mid2 := selected;
      if value in selected.schools { ToggleFilter(Schools, value); }
      assert selected.Get(Schools) == DropValue(before.schools, value);
      assert selected.Get(Subjects) == mid2.subjects && selected.Get(Skills) == mid2.skills;
    }

    /** `clearAllFilters`: empties the three facets; the term and the page stay as they were. */
    method ClearAllFilters()
      modifies this`selected
      ensures selected == NoSelections
    {
      selected := NoSelections;
    }

    /** `goToPage(page)`, called from the numbered buttons 1 to `totalPages`. */
    method GoToPage(page: int)
      requires 1 <= page <= Total()
      modifies this`currentPage
      ensures currentPage == page
    {
      currentPage := page;
    }

    method GoToPrevious()
      modifies this`currentPage
      ensures currentPage == PreviousPage(old(currentPage))
    {
      if currentPage > 1 {
        currentPage := currentPage - 1;
      }
    }

    method GoToNext()
      modifies this`currentPage
      ensures currentPage == NextPage(old(currentPage), Total())
    {
      if currentPage < Total() {
        currentPage := currentPage + 1;
      }
    }
  }
}
