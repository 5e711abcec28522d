/** Sums, filters and stable sorting over sequences, with the permutation
    facts the scoring and assignment proofs rest on. */
module Sequences {
  ghost predicate Distinct<T>(s: seq<T>) {
    forall i, j :: 0 <= i < j < |s| ==> s[i] != s[j]
  }

  /** Filters and sums recurse from the right end, the order in which a
      left-to-right accumulating loop produces them. */
  function FilterBy<T>(p: T -> bool, s: seq<T>): seq<T> {
    if s == [] then []
    else FilterBy(p, s[..|s| - 1]) + if p(s[|s| - 1]) then [s[|s| - 1]] else []
  }

  /** Products and quotients of two unknowns stay behind these names, so that
      the proofs below never multiply terms out by accident. */
  function Times(x: real, y: real): real { x * y }

  function Over(x: real, y: real): real
    requires y != 0.0
  {
    x / y
  }

  function SumBy<T>(f: T -> real, s: seq<T>): real {
    if s == [] then 0.0 else SumBy(f, s[..|s| - 1]) + f(s[|s| - 1])
  }

  lemma {:induction false} FilterMembers<T>(p: T -> bool, s: seq<T>)
    ensures forall x :: x in FilterBy(p, s) ==> x in s && p(x)
    ensures forall x :: x in s && p(x) ==> x in FilterBy(p, s)
  {
    if s != [] {
      assert s == s[..|s| - 1] + [s[|s| - 1]];
      FilterMembers(p, s[..|s| - 1]);
    }
  }

  lemma FilterSnoc<T>(p: T -> bool, s: seq<T>, x: T)
    ensures FilterBy(p, s + [x]) == FilterBy(p, s) + if p(x) then [x] else []
  {
    assert (s + [x])[..|s|] == s;
  }

  lemma SumSnoc<T>(f: T -> real, s: seq<T>, x: T)
    ensures SumBy(f, s + [x]) == SumBy(f, s) + f(x)
  {
    assert (s + [x])[..|s|] == s;
  }

  lemma {:induction false} FilterCounts<T>(p: T -> bool, s: seq<T>, x: T)
    ensures multiset(FilterBy(p, s))[x] == if p(x) then multiset(s)[x] else 0
  {
    if s != [] {
      var front, last := s[..|s| - 1], s[|s| - 1];
      assert s == front + [last];
      FilterCounts(p, front, x);
    }
  }

  lemma FilterPermutation<T(!new)>(p: T -> bool, s: seq<T>, t: seq<T>)
    requires multiset(s) == multiset(t)
    ensures multiset(FilterBy(p, s)) == multiset(FilterBy(p, t))
  {
    assert forall x :: multiset(FilterBy(p, s))[x] == multiset(FilterBy(p, t))[x] by {
      forall x ensures multiset(FilterBy(p, s))[x] == multiset(FilterBy(p, t))[x] {
        FilterCounts(p, s, x);
        FilterCounts(p, t, x);
      }
    }
  }

  lemma {:induction false} FilterAppend<T>(p: T -> bool, s: seq<T>, t: seq<T>)
    ensures FilterBy(p, s + t) == FilterBy(p, s) + FilterBy(p, t)
  {
    if t == [] {
      assert s + t == s;
    } else {
      assert (s + t)[..|s + t| - 1] == s + t[..|t| - 1];
      FilterAppend(p, s, t[..|t| - 1]);
    }
  }

  lemma {:induction false} SumAppend<T>(f: T -> real, s: seq<T>, t: seq<T>)
    ensures SumBy(f, s + t) == SumBy(f, s) + SumBy(f, t)
  {
    if t == [] {
      assert s + t == s;
    } else {
      assert (s + t)[..|s + t| - 1] == s + t[..|t| - 1];
      SumAppend(f, s, t[..|t| - 1]);
    }
  }

  lemma {:induction false} SumPermutation<T>(f: T -> real, s: seq<T>, t: seq<T>)
    requires multiset(s) == multiset(t)
    ensures SumBy(f, s) == SumBy(f, t)
  {
    if s == [] {
      assert |multiset(t)| == |t|;
    } else {
      var front, last := s[..|s| - 1], s[|s| - 1];
      assert s == front + [last];
      assert last in multiset(t);
      var k :| 0 <= k < |t| && t[k] == last;
      var rest := t[..k] + t[k + 1..];
      assert t == t[..k] + [last] + t[k + 1..];
      assert multiset(front) == multiset(s) - multiset{last};
      assert multiset(rest) == multiset(t) - multiset{last};
      SumPermutation(f, front, rest);
      SumAppend(f, t[..k], [last]);
      SumAppend(f, t[..k] + [last], t[k + 1..]);
      SumAppend(f, t[..k], t[k + 1..]);
    }
  }

  lemma TimesGap(x: real, y: real, w: real, lo: real, hi: real)
    requires w >= 0.0 && lo <= x - y <= hi
    ensures Times(lo, w) <= Times(x, w) - Times(y, w) <= Times(hi, w)
  {
    assert (x - y - lo) * w >= 0.0;
    assert (hi - (x - y)) * w >= 0.0;
  }

  lemma TimesGapStrict(x: real, y: real, w: real, lo: real)
    requires w > 0.0 && lo < x - y
    ensures Times(lo, w) < Times(x, w) - Times(y, w)
  {
    assert (x - y - lo) * w > 0.0;
  }

  lemma OverGap(x: real, y: real, w: real, lo: real, hi: real)
    requires w > 0.0 && Times(lo, w) <= x - y <= Times(hi, w)
    ensures lo <= Over(x, w) - Over(y, w) <= hi
  {
    var d := x / w - y / w;
    assert d * w == x - y;
    if d < lo { assert (lo - d) * w > 0.0; }
    if d > hi { assert (d - hi) * w > 0.0; }
  }

  lemma OverGapStrict(x: real, y: real, w: real, lo: real)
    requires w > 0.0 && Times(lo, w) < x - y
    ensures lo < Over(x, w) - Over(y, w)
  {
    var d := x / w - y / w;
    assert d * w == x - y;
    assert d * w > lo * w;
    assert d <= lo ==> (lo - d) * w >= 0.0;
  }

  lemma TimesSum(x: real, y: real, z: real)
    ensures Times(x, y + z) == Times(x, y) + Times(x, z)
  {
  }

  /** The one comparison every scoring bound is an instance of: when the
      pointwise difference of f and g lies between lo and hi times a weight,
      so does the difference of their sums. */
  lemma {:induction false} SumGap<T>(f: T -> real, g: T -> real, w: T -> real, lo: real, hi: real, s: seq<T>)
    requires forall x :: x in s ==> w(x) >= 0.0 && Times(lo, w(x)) <= f(x) - g(x) <= Times(hi, w(x))
    ensures SumBy(w, s) >= 0.0
    ensures Times(lo, SumBy(w, s)) <= SumBy(f, s) - SumBy(g, s) <= Times(hi, SumBy(w, s))
  {
    if s != [] {
      var front, last := s[..|s| - 1], s[|s| - 1];
      assert last in s;
      SumGap(f, g, w, lo, hi, front);
      TimesSum(lo, SumBy(w, front), w(last));
      TimesSum(hi, SumBy(w, front), w(last));
    }
  }

  /** The strict form, for the bound that is open on one side. */
  lemma {:induction false} SumGapStrict<T>(f: T -> real, g: T -> real, w: T -> real, lo: real, s: seq<T>)
    requires forall x :: x in s ==> w(x) >= 0.0 && Times(lo, w(x)) <= f(x) - g(x)
    requires forall x :: x in s && w(x) > 0.0 ==> Times(lo, w(x)) < f(x) - g(x)
    ensures SumBy(w, s) >= 0.0
    ensures Times(lo, SumBy(w, s)) <= SumBy(f, s) - SumBy(g, s)
    ensures SumBy(w, s) > 0.0 ==> Times(lo, SumBy(w, s)) < SumBy(f, s) - SumBy(g, s)
  {
    if s != [] {
      var front, last := s[..|s| - 1], s[|s| - 1];
      assert last in s;
      SumGapStrict(f, g, w, lo, front);
      TimesSum(lo, SumBy(w, front), w(last));
    }
  }

  lemma {:induction false} SumMonotone<T>(f: T -> real, g: T -> real, s: seq<T>)
    requires forall x :: x in s ==> f(x) <= g(x)
    ensures SumBy(f, s) <= SumBy(g, s)
  {
    if s != [] {
      assert s[|s| - 1] in s;
      SumMonotone(f, g, s[..|s| - 1]);
    }
  }

  // ---------------------------------------------------------------------
  // Stable sorting

  /** Puts x after every element whose key does not exceed its own. */
  function Insert<T>(key: T -> int, x: T, s: seq<T>): (r: seq<T>)
    ensures |r| == |s| + 1
    ensures forall y :: y in r ==> y == x || y in s
  {
    if s == [] then [x]
    else
      var front, last := s[..|s| - 1], s[|s| - 1];
      if key(last) <= key(x) then s + [x] else Insert(key, x, front) + [last]
  }

  /** What Array.prototype.sort with the comparator key(a) - key(b) yields:
      JavaScript's sort is stable. */
  function StableSort<T>(key: T -> int, s: seq<T>): (r: seq<T>)
    ensures |r| == |s|
  {
    if s == [] then [] else Insert(key, s[|s| - 1], StableSort(key, s[..|s| - 1]))
  }

  lemma {:induction false} InsertPermutes<T>(key: T -> int, x: T, s: seq<T>)
    ensures multiset(Insert(key, x, s)) == multiset(s) + multiset{x}
  {
    if s != [] {
      var front, last := s[..|s| - 1], s[|s| - 1];
      assert s == front + [last];
      InsertPermutes(key, x, front);
    }
  }

  lemma {:induction false} StableSortPermutes<T>(key: T -> int, s: seq<T>)
    ensures multiset(StableSort(key, s)) == multiset(s)
  {
    if s != [] {
      var front, last := s[..|s| - 1], s[|s| - 1];
      assert s == front + [last];
      StableSortPermutes(key, front);
      InsertPermutes(key, last, StableSort(key, front));
    }
  }

  lemma SplitSnoc<T>(s: seq<T>, j: nat, x: T)
    requires j < |s|
    ensures var front, last := s[..|s| - 1], s[|s| - 1];
            s[..j] + [x] + s[j..] == (front[..j] + [x] + front[j..]) + [last]
  {
    var front, last := s[..|s| - 1], s[|s| - 1];
    assert s[..j] == front[..j] && s[j..] == front[j..] + [last];
  }

  /** Where Insert puts x: behind the last element whose key is no larger. */
  lemma {:induction false} InsertLands<T>(key: T -> int, x: T, s: seq<T>, j: nat)
    requires j <= |s| && (j == 0 || key(s[j - 1]) <= key(x))
    requires forall k :: j <= k < |s| ==> key(s[k]) > key(x)
    ensures Insert(key, x, s) == s[..j] + [x] + s[j..]
  {
    if j < |s| {
      InsertLands(key, x, s[..|s| - 1], j);
      SplitSnoc(s, j, x);
    } else {
      assert s[..j] == s && s[j..] == [];
      assert Insert(key, x, s) == s + [x];
    }
  }

  lemma Spliced<T>(t: seq<T>, s: seq<T>, x: T, j: nat)
    requires j <= |s| && |t| == |s| + 1 && t[j] == x
    requires forall k :: 0 <= k < j ==> t[k] == s[k]
    requires forall k :: j < k < |t| ==> t[k] == s[k - 1]
    ensures t == s[..j] + [x] + s[j..]
  {
    var r := s[..j] + [x] + s[j..];
    assert forall k :: j < k < |t| ==> r[k] == s[j..][k - j - 1];
  }

  ghost predicate SortedBy<T>(key: T -> int, s: seq<T>) {
    forall i, j :: 0 <= i < j < |s| ==> key(s[i]) <= key(s[j])
  }

  lemma {:induction false} InsertSorted<T>(key: T -> int, x: T, s: seq<T>)
    requires SortedBy(key, s)
    ensures SortedBy(key, Insert(key, x, s))
  {
    if s != [] && key(s[|s| - 1]) > key(x) {
      var front, last := s[..|s| - 1], s[|s| - 1];
      InsertSorted(key, x, front);
      var r := Insert(key, x, front);
      forall i | 0 <= i < |r| ensures key(r[i]) <= key(last) {
        assert r[i] == x || r[i] in front;
      }
    }
  }

  lemma {:induction false} StableSortSorted<T>(key: T -> int, s: seq<T>)
    ensures SortedBy(key, StableSort(key, s))
  {
    if s != [] {
      StableSortSorted(key, s[..|s| - 1]);
      InsertSorted(key, s[|s| - 1], StableSort(key, s[..|s| - 1]));
    }
  }

  function HasKey<T>(key: T -> int, k: int): T -> bool {
    (x: T) => key(x) == k
  }

  lemma {:induction false} InsertStable<T>(key: T -> int, x: T, s: seq<T>, k: int)
    requires SortedBy(key, s)
    ensures FilterBy(HasKey(key, k), Insert(key, x, s))
         == FilterBy(HasKey(key, k), s) + if key(x) == k then [x] else []
  {
    if s != [] && key(s[|s| - 1]) > key(x) {
      var front, last := s[..|s| - 1], s[|s| - 1];
      InsertStable(key, x, front, k);
      assert (Insert(key, x, front) + [last])[..|s|] == Insert(key, x, front);
    } else {
      assert (s + [x])[..|s|] == s;
    }
  }

  /** Stability: elements with the same key keep their relative order. */
  lemma {:induction false} StableSortStable<T>(key: T -> int, s: seq<T>, k: int)
    ensures FilterBy(HasKey(key, k), StableSort(key, s)) == FilterBy(HasKey(key, k), s)
  {
    if s != [] {
      var front := s[..|s| - 1];
      StableSortStable(key, front, k);
      StableSortSorted(key, front);
      InsertStable(key, s[|s| - 1], StableSort(key, front), k);
    }
  }

  lemma {:induction false} FilterCongruent<T>(p: T -> bool, q: T -> bool, s: seq<T>)
    requires forall x :: x in s ==> p(x) == q(x)
    ensures FilterBy(p, s) == FilterBy(q, s)
  {
    if s != [] { FilterCongruent(p, q, s[..|s| - 1]); }
  }

  lemma PrefixSnoc<T>(s: seq<T>, i: nat)
    requires i < |s|
    ensures s[..i + 1] == s[..i] + [s[i]]
  {
  }

  lemma SameMembers<T(!new)>(s: seq<T>, t: seq<T>)
    requires multiset(s) == multiset(t)
    ensures forall x :: x in s <==> x in t
  {
    assert forall x :: x in s <==> x in multiset(s);
    assert forall x :: x in t <==> x in multiset(t);
  }
}
