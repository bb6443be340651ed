/** List operations the pages use on their hard-coded arrays: `filter`,
    `includes`-based toggling, `slice` and `reduce`-sums, each written to
    behave as the JavaScript built-in does on the values the pages pass. */
module Lists {

  datatype Option<T> = None | Some(value: T)

  /** `current === x ? null : x`: the toggle of a single selection. */
  function ToggleSelected<T(==)>(current: Option<T>, x: T): (r: Option<T>)
    ensures r == Some(x) <==> current != Some(x)
    ensures r != Some(x) ==> r == None
  {
    if current == Some(x) then None else Some(x)
  }

  /** Toggling the same value twice from any state other than "x selected"
      ends with nothing selected; toggling another value moves the selection. */
  lemma ToggleSelectedTwice<T>(current: Option<T>, x: T, y: T)
    ensures current != Some(x) ==> ToggleSelected(ToggleSelected(current, x), x) == None
    ensures current == Some(x) ==> ToggleSelected(ToggleSelected(current, x), x) == Some(x)
    ensures y != x ==> ToggleSelected(ToggleSelected(current, x), y) == Some(y)
  {
  }

  /** `s.filter(p)`: the elements of `s` that satisfy `p`, in their order. */
  function Filter<T(==)>(p: T -> bool, s: seq<T>): (r: seq<T>)
    ensures |r| <= |s|
    ensures forall x :: x in r ==> x in s && p(x)
    ensures forall x :: x in s && p(x) ==> x in r
  {
    if s == [] then []
    else (if p(s[0]) then [s[0]] else []) + Filter(p, s[1..])
  }

  /** `a` is obtained from `b` by deleting elements, the rest keeping their order. */
  predicate IsSubseq<T(==)>(a: seq<T>, b: seq<T>)
    decreases |b|
  {
    a == [] || (b != [] && ((a[0] == b[0] && IsSubseq(a[1..], b[1..])) || IsSubseq(a, b[1..])))
  }

  lemma {:induction false} IsSubseqRefl<T>(s: seq<T>)
    ensures IsSubseq(s, s)
  {
    if s != [] {
      IsSubseqRefl(s[1..]);
    }
  }

  /** A subsequence of a suffix is a subsequence of the whole. */
  lemma {:induction false} SubseqOfSuffix<T>(a: seq<T>, b: seq<T>, k: nat)
    requires k <= |b| && IsSubseq(a, b[k..])
    ensures IsSubseq(a, b)
  {
    if k > 0 {
      assert b[1..][k - 1..] == b[k..];
      SubseqOfSuffix(a, b[1..], k - 1);
    }
  }

  /** Keeping the head of `b` in front of a subsequence of its tail. */
  lemma SubseqCons<T>(a: seq<T>, b: seq<T>)
    requires b != [] && IsSubseq(a, b[1..])
    ensures IsSubseq([b[0]] + a, b)
  {
    assert ([b[0]] + a)[1..] == a;
  }

  /** Every element of a subsequence is an element of the whole. */
  lemma {:induction false} SubseqMembers<T>(a: seq<T>, b: seq<T>)
    requires IsSubseq(a, b)
    ensures forall x :: x in a ==> x in b
    decreases |b|
  {
    if a != [] {
      if a[0] == b[0] && IsSubseq(a[1..], b[1..]) {
        SubseqMembers(a[1..], b[1..]);
        assert a == [a[0]] + a[1..];
      } else {
        SubseqMembers(a, b[1..]);
      }
    }
  }

  /** No value occurs twice. */
  predicate NoDup<T(==)>(s: seq<T>) {
    forall i, j :: 0 <= i < j < |s| ==> s[i] != s[j]
  }

  lemma {:induction false} FilterIsSubseq<T>(p: T -> bool, s: seq<T>)
    ensures IsSubseq(Filter(p, s), s)
  {
    if s != [] {
      FilterIsSubseq(p, s[1..]);
      var r := Filter(p, s);
      if p(s[0]) {
        assert r[0] == s[0] && r[1..] == Filter(p, s[1..]);
      } else {
        assert r == Filter(p, s[1..]);
      }
    }
  }

  /** A predicate that holds of every element keeps the whole list. */
  lemma {:induction false} FilterKeepsAll<T>(p: T -> bool, s: seq<T>)
    requires forall x :: x in s ==> p(x)
    ensures Filter(p, s) == s
  {
    if s != [] {
      FilterKeepsAll(p, s[1..]);
    }
  }

  /** Filtering depends only on which elements the test accepts. */
  lemma {:induction false} FilterSameTest<T>(p: T -> bool, q: T -> bool, s: seq<T>)
    requires forall x :: x in s ==> p(x) == q(x)
    ensures Filter(p, s) == Filter(q, s)
  {
    if s != [] {
      FilterSameTest(p, q, s[1..]);
    }
  }

  lemma {:induction false} FilterConcat<T>(p: T -> bool, a: seq<T>, b: seq<T>)
    ensures Filter(p, a + b) == Filter(p, a) + Filter(p, b)
  {
    if a == [] {
      assert a + b == b;
    } else {
      assert (a + b)[1..] == a[1..] + b;
      FilterConcat(p, a[1..], b);
    }
  }

  /** A test that rejects exactly the element at k drops that element and nothing else. */
  lemma {:induction false} FilterDropsOne<T>(p: T -> bool, s: seq<T>, k: nat)
    requires k < |s| && !p(s[k])
    requires forall i :: 0 <= i < |s| && i != k ==> p(s[i])
    ensures Filter(p, s) == s[..k] + s[k + 1..]
  {
    if k == 0 {
      forall x | x in s[1..] ensures p(x) {
        var i :| 0 <= i < |s[1..]| && s[1..][i] == x;
        assert s[1..][i] == s[i + 1];
      }
      FilterKeepsAll(p, s[1..]);
    } else {
      var t := s[1..];
      forall i | 0 <= i < |t| && i != k - 1 ensures p(t[i]) {
        assert t[i] == s[i + 1];
      }
      assert t[k - 1] == s[k];
      FilterDropsOne(p, t, k - 1);
      assert p(s[0]);
      assert Filter(p, s) == [s[0]] + Filter(p, t);
      DropAtCons(s, k);
    }
  }

  /** Dropping position k > 0 of `s` is keeping the head and dropping k - 1 of the tail. */
  lemma DropAtCons<T>(s: seq<T>, k: nat)
    requires 0 < k < |s|
    ensures s[..k] + s[k + 1..] == [s[0]] + (s[1..][..k - 1] + s[1..][k..])
  {
    assert s[..k] == [s[0]] + s[1..][..k - 1];
    assert s[k + 1..] == s[1..][k..];
  }

  /** Filtering by `q` and then by `p` is filtering by their conjunction `pq`. */
  lemma {:induction false} FilterFilter<T>(p: T -> bool, q: T -> bool, pq: T -> bool, s: seq<T>)
    requires forall x :: pq(x) == (q(x) && p(x))
    ensures Filter(p, Filter(q, s)) == Filter(pq, s)
  {
    if s != [] {
      FilterFilter(p, q, pq, s[1..]);
      var head := if q(s[0]) then [s[0]] else [];
      FilterConcat(p, head, Filter(q, s[1..]));
      if q(s[0]) {
        assert Filter(p, head) == (if p(s[0]) then [s[0]] else []) + Filter(p, []);
      }
    }
  }

  /** Splitting by `p` and by its negation `np` loses and duplicates nothing. */
  lemma {:induction false} FilterPartition<T>(p: T -> bool, np: T -> bool, s: seq<T>)
    requires forall x :: np(x) == !p(x)
    ensures multiset(Filter(p, s)) + multiset(Filter(np, s)) == multiset(s)
    ensures |Filter(p, s)| + |Filter(np, s)| == |s|
  {
    if s != [] {
      FilterPartition(p, np, s[1..]);
      assert s == [s[0]] + s[1..];
    }
  }

  lemma {:induction false} FilterNoDup<T>(p: T -> bool, s: seq<T>)
    requires NoDup(s)
    ensures NoDup(Filter(p, s))
  {
    if s != [] {
      var t := Filter(p, s[1..]);
      assert NoDup(s[1..]) by {
        forall i, j | 0 <= i < j < |s[1..]| ensures s[1..][i] != s[1..][j] {
          assert s[1..][i] == s[i + 1] && s[1..][j] == s[j + 1];
        }
      }
      FilterNoDup(p, s[1..]);
      if p(s[0]) {
        assert s[0] !in s[1..] by {
          forall k | 0 <= k < |s[1..]| ensures s[1..][k] != s[0] {
            assert s[1..][k] == s[k + 1];
          }
        }
        ConsNoDup(s[0], t);
      }
    }
  }

  lemma ConsNoDup<T>(x: T, t: seq<T>)
    requires x !in t && NoDup(t)
    ensures NoDup([x] + t)
  {
    forall i, j | 0 <= i < j < |[x] + t| ensures ([x] + t)[i] != ([x] + t)[j] {
      if i > 0 {
        assert ([x] + t)[i] == t[i - 1];
      }
      assert ([x] + t)[j] == t[j - 1];
    }
  }

  /** The test `y => y !== x`. */
  function Differs<T(==)>(x: T): T -> bool {
    y => y != x
  }

  /** `s.filter(y => y !== x)`. */
  function Remove<T(==)>(s: seq<T>, x: T): (r: seq<T>)
    ensures x !in r
    ensures forall y :: y in s && y != x ==> y in r
    ensures forall y :: y in r ==> y in s
    ensures IsSubseq(r, s)
  {
    FilterIsSubseq(Differs(x), s);
    Filter(Differs(x), s)
  }

  /** Removing a value that occurs exactly once shortens the list by one. */
  lemma {:induction false} RemoveOnce<T>(s: seq<T>, x: T)
    requires NoDup(s) && x in s
    ensures |Remove(s, x)| == |s| - 1
  {
    assert s == [s[0]] + s[1..];
    FilterConcat(Differs(x), [s[0]], s[1..]);
    assert NoDup(s[1..]) by {
      forall i, j | 0 <= i < j < |s[1..]| ensures s[1..][i] != s[1..][j] {
        assert s[1..][i] == s[i + 1] && s[1..][j] == s[j + 1];
      }
    }
    if s[0] == x {
      assert x !in s[1..] by {
        forall k | 0 <= k < |s[1..]| ensures s[1..][k] != x {
          assert s[1..][k] == s[k + 1];
        }
      }
      FilterKeepsAll(Differs(x), s[1..]);
    } else {
      RemoveOnce(s[1..], x);
    }
  }

  /** The "includes ? filter-out : append" toggle used for selection lists. */
  function Toggle<T(==)>(s: seq<T>, x: T): (r: seq<T>)
    ensures x in r <==> x !in s
    ensures forall y :: y in s && y != x ==> y in r
    ensures forall y :: y in r && y != x ==> y in s
    ensures x !in s ==> r == s + [x]
    ensures x in s ==> r == Remove(s, x)
  {
    if x in s then Remove(s, x) else s + [x]
  }

  lemma ToggleNoDup<T>(s: seq<T>, x: T)
    requires NoDup(s)
    ensures NoDup(Toggle(s, x))
  {
    if x in s {
      FilterNoDup(Differs(x), s);
    } else {
      forall i, j | 0 <= i < j < |s + [x]| ensures (s + [x])[i] != (s + [x])[j] {
        if j == |s| {
          assert (s + [x])[i] == s[i];
        }
      }
    }
  }

  /** Toggling twice restores membership, and restores the list itself when
      the value was absent. */
  lemma ToggleTwice<T>(s: seq<T>, x: T)
    ensures forall y :: y in Toggle(Toggle(s, x), x) ==> y in s
    ensures forall y :: y in s ==> y in Toggle(Toggle(s, x), x)
    ensures x !in s ==> Toggle(Toggle(s, x), x) == s
  {
    if x !in s {
      FilterConcat(Differs(x), s, [x]);
      FilterKeepsAll(Differs(x), s);
      assert Filter(Differs(x), [x]) == [];
    }
  }

  /** The position of the first occurrence of `x` in `s`. */
  function FirstIndex<T(==)>(s: seq<T>, x: T): (i: nat)
    requires x in s
    ensures i < |s| && s[i] == x && x !in s[..i]
  {
    if s[0] == x then 0 else 1 + FirstIndex(s[1..], x)
  }

  /** The first occurrence is the only occurrence with no earlier copy. */
  lemma {:induction false} FirstIndexUnique<T>(s: seq<T>, x: T, i: nat)
    requires i < |s| && s[i] == x && x !in s[..i]
    ensures FirstIndex(s, x) == i
  {
  }

  lemma FirstIndexInPrefix<T>(s: seq<T>, k: nat, x: T)
    requires k <= |s| && x in s[..k]
    ensures FirstIndex(s, x) == FirstIndex(s[..k], x)
  {
    var j := FirstIndex(s[..k], x);
    assert s[..k][..j] == s[..j];
    FirstIndexUnique(s, x, j);
  }

  /** `[...new Set(s)]`: each value once, in the order of its first occurrence. */
  function Distinct<T(==)>(s: seq<T>): (r: seq<T>)
    ensures NoDup(r)
    ensures forall x :: x in r ==> x in s
    ensures forall x :: x in s ==> x in r
    ensures forall i, j :: 0 <= i < j < |r| ==> FirstIndex(s, r[i]) < FirstIndex(s, r[j])
    decreases |s|
  {
    if s == [] then []
    else
      var init, last := s[..|s| - 1], s[|s| - 1];
      var d := Distinct(init);
      assert s == init + [last];
      assert forall i :: 0 <= i < |d| ==> FirstIndex(s, d[i]) == FirstIndex(init, d[i]) by {
        forall i | 0 <= i < |d| ensures FirstIndex(s, d[i]) == FirstIndex(init, d[i]) {
          FirstIndexInPrefix(s, |s| - 1, d[i]);
        }
      }
      if last in d then d
      else
        assert last !in init;
        FirstIndexUnique(s, last, |s| - 1);
        assert forall i :: 0 <= i < |d| ==> FirstIndex(s, d[i]) < |s| - 1;
        d + [last]
  }

  /** How `slice` reads an index: negative counts from the end, then clamped to [0, n]. */
  function SliceIndex(i: int, n: nat): (r: nat)
    ensures r <= n
    ensures 0 <= i <= n ==> r == i
    ensures i > n ==> r == n
  {
    if i < 0 then (if n + i < 0 then 0 else n + i)
    else if i > n then n
    else i
  }

  /** `s.slice(start, end)`. */
  function Slice<T>(s: seq<T>, start: int, end: int): (r: seq<T>)
    ensures |r| <= |s|
    ensures 0 <= start <= end <= |s| ==> r == s[start..end]
    ensures 0 <= start && |s| <= start ==> r == []
    ensures 0 <= start <= |s| && |s| <= end ==> r == s[start..]
  {
    var a, b := SliceIndex(start, |s|), SliceIndex(end, |s|);
    if a < b then s[a..b] else []
  }

  /** `s.reduce((acc, x) => acc + f(x), 0)`. */
  function SumOf<T>(f: T -> int, s: seq<T>): int
  {
    if s == [] then 0 else f(s[0]) + SumOf(f, s[1..])
  }

  lemma {:induction false} SumOfConcat<T>(f: T -> int, a: seq<T>, b: seq<T>)
    ensures SumOf(f, a + b) == SumOf(f, a) + SumOf(f, b)
  {
    if a == [] {
      assert a + b == b;
    } else {
      assert (a + b)[1..] == a[1..] + b;
      SumOfConcat(f, a[1..], b);
    }
  }

  /** Leaving out the element at k takes its value off the sum. */
  lemma {:induction false} SumOfWithout<T>(f: T -> int, s: seq<T>, k: nat)
    requires k < |s|
    ensures SumOf(f, s[..k] + s[k + 1..]) == SumOf(f, s) - f(s[k])
  {
    var a, b := s[..k], s[k + 1..];
    assert s == (a + [s[k]]) + b;
    SumOfConcat(f, a + [s[k]], b);
    SumOfConcat(f, a, [s[k]]);
    SumOfConcat(f, a, b);
    assert SumOf(f, [s[k]]) == f(s[k]);
  }

  lemma {:induction false} SumOfNonNegative<T>(f: T -> int, s: seq<T>, lo: int)
    requires forall x :: x in s ==> f(x) >= lo
    requires lo >= 0
    ensures SumOf(f, s) >= lo * |s|
  {
    if s != [] {
      SumOfNonNegative(f, s[1..], lo);
    }
  }
}
