/** The course catalog page (src/pages/Course/Course.jsx): a search over
    title, provider and skills plus two single-select filters whose empty
    value and "All ..." entry both mean "no constraint". */
module CourseCatalog {
  import opened Lists
  import opened Text

  datatype Course = Course(id: int, title: string, provider: string,
                           subject: string, skills: seq<string>)

  const AllSubjects := "All Subjects"
  const AllSkills := "All Skills"

  predicate MatchesSearch(c: Course, term: string) {
    || Includes(Lower(c.title), Lower(term))
    || Includes(Lower(c.provider), Lower(term))
    || SomeIncludes(c.skills, term)
  }

  /** `!selectedSubject || selectedSubject === 'All Subjects' || course.subject === selectedSubject`. */
  predicate MatchesSubject(c: Course, subject: string) {
    subject == "" || subject == AllSubjects || c.subject == subject
  }

  /** `!selectedSkill || selectedSkill === 'All Skills' || course.skills.includes(selectedSkill)`. */
  predicate MatchesSkill(c: Course, skill: string) {
    skill == "" || skill == AllSkills || skill in c.skills
  }

  predicate Keeps(c: Course, term: string, subject: string, skill: string) {
    MatchesSearch(c, term) && MatchesSubject(c, subject) && MatchesSkill(c, skill)
  }

  function KeepsFn(term: string, subject: string, skill: string): Course -> bool {
    c => Keeps(c, term, subject, skill)
  }

  /** `filteredCourses`. A course is kept iff some field contains the term
      (ignoring ASCII case) and both selections are sentinels or match it. */
  function FilteredCourses(courses: seq<Course>, term: string, subject: string, skill: string): (r: seq<Course>)
    ensures forall c :: c in r <==>
      && c in courses
      && (Includes(Lower(c.title), Lower(term)) || Includes(Lower(c.provider), Lower(term))
          || exists i :: 0 <= i < |c.skills| && Includes(Lower(c.skills[i]), Lower(term)))
      && (subject in {"", AllSubjects} || c.subject == subject)
      && (skill in {"", AllSkills} || skill in c.skills)
    ensures IsSubseq(r, courses)
  {
    forall c | c in courses ensures MatchesSearch(c, term) <==>
      (Includes(Lower(c.title), Lower(term)) || Includes(Lower(c.provider), Lower(term))
       || exists i :: 0 <= i < |c.skills| && Includes(Lower(c.skills[i]), Lower(term))) {
      SomeIncludesIff(c.skills, term);
    }
    FilterIsSubseq(KeepsFn(term, subject, skill), courses);
    Filter(KeepsFn(term, subject, skill), courses)
  }

  /** The initial state (all three inputs empty) shows every course, in order. */
  lemma InitialShowsAll(courses: seq<Course>)
    ensures FilteredCourses(courses, "", "", "") == courses
  {
    forall c | c in courses ensures Keeps(c, "", "", "") {
      IncludesEmpty(Lower(c.title));
    }
    FilterKeepsAll(KeepsFn("", "", ""), courses);
  }

  /** Choosing the "All ..." entries is the same as leaving the selections empty. */
  lemma AllEntriesAreSentinels(courses: seq<Course>, term: string)
    ensures FilteredCourses(courses, term, AllSubjects, AllSkills) == FilteredCourses(courses, term, "", "")
  {
    FilterSameTest(KeepsFn(term, AllSubjects, AllSkills), KeepsFn(term, "", ""), courses);
  }

  /** The "No courses found" block renders iff nothing passes the three tests. */
  predicate ShowsNoResults(courses: seq<Course>, term: string, subject: string, skill: string) {
    |FilteredCourses(courses, term, subject, skill)| == 0
  }

  lemma NoResultsIff(courses: seq<Course>, term: string, subject: string, skill: string)
    ensures ShowsNoResults(courses, term, subject, skill) <==>
            forall c :: c in courses ==> !Keeps(c, term, subject, skill)
  {
    var r := FilteredCourses(courses, term, subject, skill);
    if |r| > 0 {
      assert r[0] in r;
    }
  }
}
