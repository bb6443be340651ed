/** The curriculum accordion (src/pages/Course/CourseContent.tsx): a list of
    expanded section ids toggled per click, the lecture total, the
    expand/collapse label and the hard-coded total running time. */
module CourseContent {
  import opened Lists
  import opened Text

  datatype Section = Section(id: int, lectures: int, time: string)

  /** The four sections shipped with the page (titles and items are not modelled). */
  const Sections: seq<Section> := [
    Section(1, 8, "1hr 07min"),
    Section(2, 10, "1hr 25min"),
    Section(3, 8, "1hr 32min"),
    Section(4, 6, "56min")
  ]

  /** The header's hard-coded total length. */
  const TotalTime := "5hr 00min"

  function Lectures(s: Section): int { s.lectures }

  /** `totalLectures`: the sum of the sections' lecture counts. */
  function TotalLectures(sections: seq<Section>): int {
    SumOf(Lectures, sections)
  }

  lemma ShippedTotalLectures()
    ensures TotalLectures(Sections) == 32
  {
  }

  /** The header link reads "Expand all sections" while fewer ids are expanded than there are sections. */
  function ExpandLabel(expanded: seq<int>, totalSections: nat): (r: string)
    ensures r == "Expand all sections" <==> |expanded| < totalSections
    ensures r == "Collapse all sections" <==> |expanded| >= totalSections
  {
    if |expanded| < totalSections then "Expand all sections" else "Collapse all sections"
  }

  function Ids(sections: seq<Section>): set<int> {
    set s | s in sections :: s.id
  }

  /** When the expanded ids are distinct section ids and the section ids are
      distinct, the label says "Collapse" exactly when every section is open. */
  lemma {:induction false} CollapseIffAllExpanded(expanded: seq<int>, sections: seq<Section>)
    requires NoDup(expanded)
    requires forall x :: x in expanded ==> x in Ids(sections)
    requires forall i, j :: 0 <= i < j < |sections| ==> sections[i].id != sections[j].id
    ensures ExpandLabel(expanded, |sections|) == "Collapse all sections" <==>
            forall s :: s in sections ==> s.id in expanded
  {
    var e := set x | x in expanded;
    DistinctCard(expanded);
    SectionIdsCard(sections);
    assert e <= Ids(sections);
    SubsetCard(e, Ids(sections));
    if |expanded| >= |sections| {
      forall s | s in sections ensures s.id in expanded {
        assert s.id in Ids(sections);
      }
    }
    if forall s :: s in sections ==> s.id in expanded {
      forall y | y in Ids(sections) ensures y in e {
        var s :| s in sections && s.id == y;
      }
      assert Ids(sections) <= e;
      assert e == Ids(sections);
    }
  }

  lemma {:induction false} DistinctCard<T>(s: seq<T>)
    requires NoDup(s)
    ensures |set x | x in s| == |s|
  {
    if s != [] {
      var t := s[..|s| - 1];
      assert NoDup(t) by {
        forall i, j | 0 <= i < j < |t| ensures t[i] != t[j] {
          assert t[i] == s[i] && t[j] == s[j];
        }
      }
      DistinctCard(t);
      assert s == t + [s[|s| - 1]];
      assert s[|s| - 1] !in t by {
        forall k | 0 <= k < |t| ensures t[k] != s[|s| - 1] {
          assert t[k] == s[k];
        }
      }
      assert (set x | x in s) == (set x | x in t) + {s[|s| - 1]};
    }
  }

  lemma {:induction false} SectionIdsCard(sections: seq<Section>)
    requires forall i, j :: 0 <= i < j < |sections| ==> sections[i].id != sections[j].id
    ensures |Ids(sections)| == |sections|
  {
    if sections != [] {
      var t := sections[..|sections| - 1];
      var last := sections[|sections| - 1];
      forall i, j | 0 <= i < j < |t| ensures t[i].id != t[j].id {
        assert t[i] == sections[i] && t[j] == sections[j];
      }
      SectionIdsCard(t);
      assert sections == t + [last];
      assert last.id !in Ids(t) by {
        forall s | s in t ensures s.id != last.id {
          var k :| 0 <= k < |t| && t[k] == s;
          assert t[k] == sections[k];
        }
      }
      assert Ids(sections) == Ids(t) + {last.id};
    }
  }

  lemma SubsetCard<T>(a: set<T>, b: set<T>)
    requires a <= b
    ensures |a| <= |b|
    ensures |a| == |b| ==> a == b
  {
    assert |b - a| == |b| - |a|;
  }

  /** Parses a non-empty numeral. */
  function ParseNumeral(s: string): (r: Option<nat>)
    ensures r.Some? <==> s != [] && AllDigits(s)
  {
    if s != [] && AllDigits(s) then Some(NumeralValue(s)) else None
  }

  /** Reads a section time, "<h>hr <mm>min" or "<mm>min", as minutes. */
  function ParseDuration(t: string): (r: Option<nat>)
    ensures r.Some? ==> |t| >= 4 && t[|t| - 3..] == "min"
  {
    if |t| < 4 || t[|t| - 3..] != "min" then None else ParseBody(t[..|t| - 3])
  }

  /** The part before "min": hours and minutes around the first "hr ", or minutes alone. */
  function ParseBody(body: string): Option<nat> {
    match HoursMark(body, 0)
    case Some(k) => Combine(ParseNumeral(body[..k]), ParseNumeral(body[k + 3..]))
    case None => ParseNumeral(body)
  }

  function Combine(hours: Option<nat>, minutes: Option<nat>): (r: Option<nat>)
    ensures r.Some? <==> hours.Some? && minutes.Some?
  {
    if hours.Some? && minutes.Some? then Some(60 * hours.value + minutes.value) else None
  }

  /** "hr " starts at position j of `body`. */
  predicate MarkAt(body: string, j: int) {
    0 <= j && j + 3 <= |body| && body[j..j + 3] == "hr "
  }

  /** The first position of "hr " in `body` at or after `from`. */
  function HoursMark(body: string, from: nat): (r: Option<nat>)
    ensures r.Some? ==> from <= r.value && MarkAt(body, r.value)
    ensures r.Some? ==> forall j :: from <= j < r.value ==> !MarkAt(body, j)
    ensures r.None? ==> forall j :: from <= j ==> !MarkAt(body, j)
    decreases |body| - from
  {
    if |body| < from + 3 then None
    else if MarkAt(body, from) then Some(from)
    else HoursMark(body, from + 1)
  }

  /** "<h>hr <m>min" reads as h hours and m minutes. */
  lemma ParseHoursAndMinutes(h: string, m: string)
    requires h != [] && AllDigits(h) && m != [] && AllDigits(m)
    ensures ParseDuration(h + "hr " + m + "min") == Some(60 * NumeralValue(h) + NumeralValue(m))
  {
    ParseBodyHoursMinutes(h, m);
    ParseDurationOfBody(h + "hr " + m);
  }

  lemma ParseBodyHoursMinutes(h: string, m: string)
    requires h != [] && AllDigits(h) && m != [] && AllDigits(m)
    ensures ParseBody(h + "hr " + m) == Some(60 * NumeralValue(h) + NumeralValue(m))
  {
    var body := h + "hr " + m;
    MarkAfterDigits(h, "hr " + m);
    assert body == h + ("hr " + m);
    assert body[..|h|] == h;
    assert body[|h| + 3..] == m;
    assert ParseBody(body) == Combine(ParseNumeral(h), ParseNumeral(m));
    CombineNumerals(h, m);
  }

  lemma CombineNumerals(h: string, m: string)
    requires h != [] && AllDigits(h) && m != [] && AllDigits(m)
    ensures Combine(ParseNumeral(h), ParseNumeral(m)) == Some(60 * NumeralValue(h) + NumeralValue(m))
  {
  }

  /** In digits followed by "hr ", the first "hr " is right after the digits. */
  lemma MarkAfterDigits(h: string, rest: string)
    requires AllDigits(h) && |rest| >= 3 && rest[..3] == "hr "
    ensures HoursMark(h + rest, 0) == Some(|h|)
  {
    var body := h + rest;
    forall j | 0 <= j < |h| ensures !MarkAt(body, j) {
      assert body[j] == h[j];
    }
    assert body[|h|..|h| + 3] == rest[..3];
    HoursMarkFinds(body, 0, |h|);
  }

  /** A time is its body followed by "min". */
  lemma ParseDurationOfBody(body: string)
    requires |body| >= 1
    ensures ParseDuration(body + "min") == ParseBody(body)
  {
    var t := body + "min";
    assert t[|t| - 3..] == "min";
    assert t[..|t| - 3] == body;
  }

  lemma {:induction false} HoursMarkFinds(body: string, from: nat, k: nat)
    requires from <= k && MarkAt(body, k)
    requires forall j :: from <= j < k ==> !MarkAt(body, j)
    ensures HoursMark(body, from) == Some(k)
    decreases k - from
  {
    if from < k {
      HoursMarkFinds(body, from + 1, k);
    }
  }

  /** "<m>min" reads as m minutes. */
  lemma ParseMinutesOnly(m: string)
    requires m != [] && AllDigits(m)
    ensures ParseDuration(m + "min") == Some(NumeralValue(m))
  {
    forall j | 0 <= j ensures !MarkAt(m, j) {
      if j < |m| {
        assert IsDigit(m[j]);
      }
    }
    assert HoursMark(m, 0) == None;
    ParseDurationOfBody(m);
  }

  function SectionMinutes(sections: seq<Section>): Option<nat> {
    if sections == [] then Some(0)
    else match (ParseDuration(sections[0].time), SectionMinutes(sections[1..]))
      case (Some(a), Some(b)) => Some(a + b)
      case _ => None
  }

  lemma Numerals()
    ensures NumeralValue("1") == 1 && NumeralValue("5") == 5
    ensures NumeralValue("07") == 7 && NumeralValue("25") == 25 && NumeralValue("32") == 32
    ensures NumeralValue("00") == 0 && NumeralValue("56") == 56
  {
    assert "07"[..1] == "0" && "25"[..1] == "2" && "32"[..1] == "3" && "00"[..1] == "0" && "56"[..1] == "5";
  }

  lemma Day1Duration() ensures ParseDuration("1hr 07min") == Some(67)
  {
    Numerals();
    HoursMinutesLiteral("1", "07", "1hr 07min");
  }

  lemma Day2Duration() ensures ParseDuration("1hr 25min") == Some(85)
  {
    Numerals();
    HoursMinutesLiteral("1", "25", "1hr 25min");
  }

  lemma Day3Duration() ensures ParseDuration("1hr 32min") == Some(92)
  {
    Numerals();
    HoursMinutesLiteral("1", "32", "1hr 32min");
  }

  lemma Day4Duration() ensures ParseDuration("56min") == Some(56)
  {
    Numerals();
    assert "56min" == "56" + "min";
    ParseMinutesOnly("56");
  }

  /** The header's "5hr 00min" reads as 300 minutes. */
  lemma TotalTimeMinutes() ensures ParseDuration(TotalTime) == Some(300)
  {
    Numerals();
    HoursMinutesLiteral("5", "00", "5hr 00min");
  }

  lemma HoursMinutesLiteral(h: string, m: string, t: string)
    requires h != [] && AllDigits(h) && m != [] && AllDigits(m)
    requires t == h + "hr " + m + "min"
    ensures ParseDuration(t) == Some(60 * NumeralValue(h) + NumeralValue(m))
  {
    ParseHoursAndMinutes(h, m);
  }

  /** The hard-coded "5hr 00min" is 300 minutes, the sum of the four section times. */
  lemma TotalTimeIsSumOfSections()
    ensures SectionMinutes(Sections) == Some(300)
    ensures ParseDuration(TotalTime) == Some(300)
  {
    Day1Duration();
    Day2Duration();
    Day3Duration();
    Day4Duration();
    TotalTimeMinutes();
  }

  /** The accordion's state: the ids of the open sections. */
  class Accordion {
    const sections: seq<Section>
    var expandedSections: seq<int>

    constructor (sections: seq<Section>)
      ensures this.sections == sections && expandedSections == [1]
      ensures Valid()
    {
      this.sections := sections;
      expandedSections := [1];
    }

    predicate Valid()
      reads this
    {
      NoDup(expandedSections)
    }

    /** A section shows its items iff its id is in the list. */
    predicate IsExpanded(id: int)
      reads this
    {
      id in expandedSections
    }

    /** `toggleSection(id)`: closes an open section, opens a closed one at the end. */
    method ToggleSection(id: int)
      requires Valid()
      modifies this`expandedSections
      ensures Valid()
      ensures expandedSections == Toggle(old(expandedSections), id)
      ensures IsExpanded(id) <==> !old(IsExpanded(id))
    {
      ToggleNoDup(expandedSections, id);
      expandedSections := Toggle(expandedSections, id);
    }
  }
}
