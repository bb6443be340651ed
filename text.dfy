/** String operations the pages apply: `toLowerCase` (on ASCII letters),
    `includes`, and the two slug rewrites `replace(/[^a-z0-9]/g, '-')` and
    `replace(/[^a-z0-9]+/g, '-')`. */
module Text {

  predicate IsUpper(c: char) { 'A' <= c <= 'Z' }

  /** The characters the slug expressions keep: `[a-z0-9]`. */
  predicate IsSlugChar(c: char) { 'a' <= c <= 'z' || '0' <= c <= '9' }

  /** A string made only of `[a-z0-9-]`. */
  predicate IsSlug(s: string) {
    forall i :: 0 <= i < |s| ==> IsSlugChar(s[i]) || s[i] == '-'
  }

  function LowerChar(c: char): (r: char)
    ensures !IsUpper(r)
    ensures IsUpper(c) ==> 'a' <= r <= 'z' && r as int - 'a' as int == c as int - 'A' as int
    ensures !IsUpper(c) ==> r == c
  {
    if IsUpper(c) then (c as int - 'A' as int + 'a' as int) as char else c
  }

  predicate IsLower(c: char) { 'a' <= c <= 'z' }

  function UpperChar(c: char): (r: char)
    ensures !IsLower(r)
    ensures IsLower(c) ==> IsUpper(r) && r as int - 'A' as int == c as int - 'a' as int
    ensures !IsLower(c) ==> r == c
  {
    if IsLower(c) then (c as int - 'a' as int + 'A' as int) as char else c
  }

  /** `s.toLowerCase()`, restricted to ASCII letters. */
  function Lower(s: string): (r: string)
    ensures |r| == |s|
    ensures forall i :: 0 <= i < |s| ==> r[i] == LowerChar(s[i])
  {
    if s == [] then [] else [LowerChar(s[0])] + Lower(s[1..])
  }

  lemma {:induction false} LowerIdempotent(s: string)
    ensures Lower(Lower(s)) == Lower(s)
  {
    var l := Lower(s);
    assert forall i :: 0 <= i < |l| ==> Lower(l)[i] == l[i];
  }

  /** A string without upper-case letters is its own lower-case form. */
  lemma LowerOfLower(s: string)
    requires forall i :: 0 <= i < |s| ==> !IsUpper(s[i])
    ensures Lower(s) == s
  {
  }

  predicate StartsWith(s: string, prefix: string) {
    |prefix| <= |s| && s[..|prefix|] == prefix
  }

  /** `hay.includes(needle)`, computed by trying each start position in turn. */
  function Includes(hay: string, needle: string): bool
    decreases |hay|
  {
    StartsWith(hay, needle) || (hay != [] && Includes(hay[1..], needle))
  }

  /** `needle` occurs in `hay` at position `i`. */
  ghost predicate OccursAt(hay: string, needle: string, i: int) {
    0 <= i && i + |needle| <= |hay| && hay[i..i + |needle|] == needle
  }

  /** `Includes` finds exactly the strings that occur somewhere in `hay`. */
  lemma {:induction false} IncludesIff(hay: string, needle: string)
    ensures Includes(hay, needle) <==> exists i :: OccursAt(hay, needle, i)
  {
    if hay != [] {
      IncludesIff(hay[1..], needle);
      if Includes(hay[1..], needle) {
        var i :| OccursAt(hay[1..], needle, i);
        assert hay[1..][i..i + |needle|] == hay[i + 1..i + 1 + |needle|];
        assert OccursAt(hay, needle, i + 1);
      }
      if i :| OccursAt(hay, needle, i) {
        if i > 0 {
          assert hay[1..][i - 1..i - 1 + |needle|] == hay[i..i + |needle|];
          assert OccursAt(hay[1..], needle, i - 1);
        } else {
          assert StartsWith(hay, needle);
        }
      }
    } else if i :| OccursAt(hay, needle, i) {
      assert |needle| == 0 && StartsWith(hay, needle);
    }
    if StartsWith(hay, needle) {
      assert OccursAt(hay, needle, 0);
    }
  }

  /** The empty search term is found in every string. */
  lemma IncludesEmpty(hay: string)
    ensures Includes(hay, "")
  {
    assert StartsWith(hay, "");
  }

  /** `items.some(x => x.toLowerCase().includes(term.toLowerCase()))`. */
  predicate SomeIncludes(items: seq<string>, term: string) {
    items != [] && (Includes(Lower(items[0]), Lower(term)) || SomeIncludes(items[1..], term))
  }

  lemma {:induction false} SomeIncludesIff(items: seq<string>, term: string)
    ensures SomeIncludes(items, term) <==>
            exists i :: 0 <= i < |items| && Includes(Lower(items[i]), Lower(term))
  {
    if items != [] {
      SomeIncludesIff(items[1..], term);
      if i :| 0 <= i < |items| && Includes(Lower(items[i]), Lower(term)) {
        if i > 0 {
          assert items[1..][i - 1] == items[i];
        }
      }
      if SomeIncludes(items[1..], term) {
        var i :| 0 <= i < |items[1..]| && Includes(Lower(items[1..][i]), Lower(term));
        assert items[i + 1] == items[1..][i];
      }
    }
  }

  /** `s.replace(/[^a-z0-9]/g, '-')`: each character outside `[a-z0-9]` becomes one `-`. */
  function DashEach(s: string): (r: string)
    ensures |r| == |s|
    ensures IsSlug(r)
    ensures forall i :: 0 <= i < |s| && IsSlugChar(s[i]) ==> r[i] == s[i]
    ensures forall i :: 0 <= i < |s| && !IsSlugChar(s[i]) ==> r[i] == '-'
  {
    if s == [] then [] else [if IsSlugChar(s[0]) then s[0] else '-'] + DashEach(s[1..])
  }

  /** The leading run of characters outside `[a-z0-9]`, removed. */
  function DropRun(s: string): (r: string)
    ensures |r| <= |s|
    ensures r == s[|s| - |r|..]
    ensures forall i :: 0 <= i < |s| - |r| ==> !IsSlugChar(s[i])
    ensures r == [] || IsSlugChar(r[0])
  {
    if s == [] || IsSlugChar(s[0]) then s else DropRun(s[1..])
  }

  /** `s.replace(/[^a-z0-9]+/g, '-')`: each maximal run outside `[a-z0-9]`
      becomes one `-`. */
  function CollapseRuns(s: string): (r: string)
    ensures IsSlug(r)
    ensures forall i :: 0 <= i < |r| - 1 ==> !(r[i] == '-' && r[i + 1] == '-')
    ensures r == [] <==> s == []
    ensures s != [] ==> (r[0] == '-' <==> !IsSlugChar(s[0]))
    decreases |s|
  {
    if s == [] then []
    else if IsSlugChar(s[0]) then [s[0]] + CollapseRuns(s[1..])
    else ['-'] + CollapseRuns(DropRun(s))
  }

  /** The characters of `s` that the slug keeps, in order. */
  function SlugChars(s: string): string {
    if s == [] then [] else (if IsSlugChar(s[0]) then [s[0]] else []) + SlugChars(s[1..])
  }

  lemma {:induction false} SlugCharsDropRun(s: string)
    ensures SlugChars(DropRun(s)) == SlugChars(s)
    decreases |s|
  {
    if s != [] && !IsSlugChar(s[0]) {
      SlugCharsDropRun(s[1..]);
    }
  }

  /** Collapsing runs keeps every `[a-z0-9]` character, in order, and nothing else. */
  lemma {:induction false} CollapseRunsKeepsSlugChars(s: string)
    ensures SlugChars(CollapseRuns(s)) == SlugChars(s)
    decreases |s|
  {
    if s != [] {
      if IsSlugChar(s[0]) {
        CollapseRunsKeepsSlugChars(s[1..]);
        assert ([s[0]] + CollapseRuns(s[1..]))[1..] == CollapseRuns(s[1..]);
      } else {
        var d := DropRun(s);
        CollapseRunsKeepsSlugChars(d);
        SlugCharsDropRun(s);
        assert (['-'] + CollapseRuns(d))[1..] == CollapseRuns(d);
      }
    }
  }

  /** Dropping the leading run stops exactly at the next `[a-z0-9]` character. */
  lemma {:induction false} DropRunOfSeparator(sep: string, t: string)
    requires forall i :: 0 <= i < |sep| ==> !IsSlugChar(sep[i])
    requires t == [] || IsSlugChar(t[0])
    ensures DropRun(sep + t) == t
  {
    if sep != [] {
      assert (sep + t)[1..] == sep[1..] + t;
      DropRunOfSeparator(sep[1..], t);
    } else {
      assert sep + t == t;
    }
  }

  /** A leading maximal run of characters outside `[a-z0-9]` becomes one `-`. */
  lemma CollapseRunsLeadingRun(sep: string, t: string)
    requires |sep| > 0 && forall i :: 0 <= i < |sep| ==> !IsSlugChar(sep[i])
    requires t == [] || IsSlugChar(t[0])
    ensures CollapseRuns(sep + t) == "-" + CollapseRuns(t)
  {
    var u := sep + t;
    assert u[0] == sep[0];
    DropRunOfSeparator(sep, t);
  }

  /** `w` is made only of `[a-z0-9]` characters. */
  predicate IsWord(w: string) {
    w == [] || (IsSlugChar(w[0]) && IsWord(w[1..]))
  }

  /** A leading word of `[a-z0-9]` characters is kept as it is. */
  lemma {:induction false} CollapseRunsKeepsWord(w: string, u: string)
    requires IsWord(w)
    ensures CollapseRuns(w + u) == w + CollapseRuns(u)
  {
    if w == [] {
      assert w + u == u;
    } else {
      var v := w + u;
      assert v[0] == w[0] && v[1..] == w[1..] + u;
      CollapseRunsKeepsWord(w[1..], u);
      var rest := CollapseRuns(u);
      assert w + rest == [w[0]] + (w[1..] + rest);
    }
  }

  /** A slug word, then a maximal run of other characters, then the rest:
      the word is kept, the whole run becomes exactly one `-` in its place,
      and the rest is collapsed on its own. */
  lemma CollapseRunsSeparator(w: string, sep: string, t: string)
    requires IsWord(w)
    requires |sep| > 0 && forall i :: 0 <= i < |sep| ==> !IsSlugChar(sep[i])
    requires t == [] || IsSlugChar(t[0])
    ensures CollapseRuns(w + (sep + t)) == w + ("-" + CollapseRuns(t))
  {
    CollapseRunsKeepsWord(w, sep + t);
    CollapseRunsLeadingRun(sep, t);
  }

  /** A string made only of `[a-z0-9]` passes through unchanged. */
  lemma {:induction false} CollapseRunsOfSlugWord(s: string)
    requires forall i :: 0 <= i < |s| ==> IsSlugChar(s[i])
    ensures CollapseRuns(s) == s
  {
    if s != [] {
      CollapseRunsOfSlugWord(s[1..]);
    }
  }

  predicate IsDigit(c: char) { '0' <= c <= '9' }

  predicate AllDigits(s: string) {
    forall i :: 0 <= i < |s| ==> IsDigit(s[i])
  }

  /** The value of a decimal numeral, most significant digit first. */
  function NumeralValue(s: string): (r: nat)
    requires AllDigits(s)
    ensures |s| == 1 ==> r == s[0] as int - '0' as int
  {
    if s == [] then 0
    else NumeralValue(s[..|s| - 1]) * 10 + (s[|s| - 1] as int - '0' as int)
  }

  /** `n.toString()` for a non-negative integer: its decimal numeral, without
      leading zeros. */
  function DecimalString(n: nat): (r: string)
    ensures r != [] && AllDigits(r)
    ensures |r| > 1 ==> r[0] != '0'
    ensures NumeralValue(r) == n
    decreases n
  {
    if n < 10 then [('0' as int + n) as char]
    else
      var r := DecimalString(n / 10) + [('0' as int + n % 10) as char];
      assert r[..|r| - 1] == DecimalString(n / 10);
      r
  }
}
