/** The array built-ins the components use on lists of records, written out:
    `filter`, `map` with a per-element update, `Array.from(new Set(...))`, and
    the stable `sort` of ECMA-262 (section 23.1.3.30) driven by a numeric key. */
module Seqs {

  // ---------------------------------------------------------------------------
  // filter

  /** `s.filter(p)`. */
  function Filter<T>(s: seq<T>, p: T -> bool): (r: seq<T>)
    ensures |r| <= |s|
    ensures forall i :: 0 <= i < |r| ==> r[i] in s && p(r[i])
    ensures forall i :: 0 <= i < |s| && p(s[i]) ==> s[i] in r
  {
    if s == [] then [] else (if p(s[0]) then [s[0]] else []) + Filter(s[1..], p)
  }

  /** `a` is `b` with some elements left out, in the same order. */
  ghost predicate IsSubsequence<T>(a: seq<T>, b: seq<T>)
    decreases |b|
  {
    || a == []
    || (b != [] && ((a[0] == b[0] && IsSubsequence(a[1..], b[1..])) || IsSubsequence(a, b[1..])))
  }

  lemma {:induction false} FilterIsSubsequence<T>(s: seq<T>, p: T -> bool)
    ensures IsSubsequence(Filter(s, p), s)
  {
    if s != [] {
      FilterIsSubsequence(s[1..], p);
      var rest := Filter(s[1..], p);
      if p(s[0]) {
        assert Filter(s, p) == [s[0]] + rest;
        assert ([s[0]] + rest)[1..] == rest;
      } else {
        assert Filter(s, p) == rest;

      }
    }
  }

  /** A filter that keeps every element returns the list itself. */
  lemma {:induction false} FilterKeepsAll<T>(s: seq<T>, p: T -> bool)
    requires forall i :: 0 <= i < |s| ==> p(s[i])
    ensures Filter(s, p) == s
  {
    if s != [] {
      FilterKeepsAll(s[1..], p);
      assert [s[0]] + s[1..] == s;
    }
  }

  /** Filtering twice by the same predicate is filtering once. */
  lemma FilterIdempotent<T>(s: seq<T>, p: T -> bool)
    ensures Filter(Filter(s, p), p) == Filter(s, p)
  {
    FilterKeepsAll(Filter(s, p), p);
  }

  // ---------------------------------------------------------------------------
  // map with a per-element update

  /** `s.map(x => p(x) ? f(x) : x)`. */
  function MapWhere<T>(s: seq<T>, p: T -> bool, f: T -> T): (r: seq<T>)
    ensures |r| == |s|
    ensures forall i :: 0 <= i < |s| ==> r[i] == if p(s[i]) then f(s[i]) else s[i]
  {
    if s == [] then [] else [if p(s[0]) then f(s[0]) else s[0]] + MapWhere(s[1..], p, f)
  }

  // ---------------------------------------------------------------------------
  // counting and de-duplication

  function Count<T(==)>(s: seq<T>, x: T): (n: nat)
    ensures n <= |s|
    ensures n == 0 <==> x !in s
  {
    if s == [] then 0 else (if s[0] == x then 1 else 0) + Count(s[1..], x)
  }

  lemma {:induction false} CountAppend<T>(s: seq<T>, y: T, x: T)
    ensures Count(s + [y], x) == Count(s, x) + (if y == x then 1 else 0)
  {
    if s == [] {
      assert [] + [y] == [y];
    } else {
      assert (s + [y])[1..] == s[1..] + [y];
      CountAppend(s[1..], y, x);
    }
  }

  predicate NoDuplicates<T(==)>(s: seq<T>) {
    forall i, j :: 0 <= i < j < |s| ==> s[i] != s[j]
  }

  /** The position of the first occurrence of `x`. */
  function FirstIndex<T(==)>(s: seq<T>, x: T): (k: nat)
    requires x in s
    ensures k < |s| && s[k] == x
    ensures forall i :: 0 <= i < k ==> s[i] != x
  {
    if s[0] == x then 0 else 1 + FirstIndex(s[1..], x)
  }

  lemma {:induction false} FirstIndexAppend<T>(s: seq<T>, y: T, x: T)
    requires x in s
    ensures FirstIndex(s + [y], x) == FirstIndex(s, x)
  {
    var k := FirstIndex(s, x);
    var k' := FirstIndex(s + [y], x);
    assert (s + [y])[k] == x;
    assert s[k'] == x || k' == |s|;
  }

  /** `Array.from(new Set(s))`: each distinct value once, in the order of its
      first occurrence. */
  function Distinct<T(==)>(s: seq<T>): (r: seq<T>)
    ensures forall i :: 0 <= i < |r| ==> r[i] in s
    ensures forall i :: 0 <= i < |s| ==> s[i] in r
    ensures NoDuplicates(r)
  {
    if s == [] then []
    else
      var init := s[..|s| - 1];
      var last := s[|s| - 1];
      var d := Distinct(init);
      assert s == init + [last];
      if last in d then d else d + [last]
  }

  /** The distinct values come in the order of their first occurrence. */
  lemma {:induction false} DistinctFirstOccurrence<T>(s: seq<T>)
    ensures forall i, j :: 0 <= i < j < |Distinct(s)| ==> FirstIndex(s, Distinct(s)[i]) < FirstIndex(s, Distinct(s)[j])
  {
    if s != [] {
      var init := s[..|s| - 1];
      var last := s[|s| - 1];
      var d := Distinct(init);
      DistinctFirstOccurrence(init);
      assert s == init + [last];
      forall x | x in init ensures FirstIndex(s, x) == FirstIndex(init, x) {
        FirstIndexAppend(init, last, x);
      }
      if last !in d {
        assert FirstIndex(s, last) == |init|;
      }
    }
  }

  /** The total of the per-value counts over a list of distinct values. */
  function SumCounts<T(==)>(values: seq<T>, s: seq<T>): nat {
    if values == [] then 0 else Count(s, values[0]) + SumCounts(values[1..], s)
  }

  lemma {:induction false} SumCountsAppend<T>(values: seq<T>, s: seq<T>, y: T)
    requires NoDuplicates(values)
    ensures SumCounts(values, s + [y]) == SumCounts(values, s) + (if y in values then 1 else 0)
  {
    if values != [] {
      CountAppend(s, y, values[0]);
      assert NoDuplicates(values[1..]) by {
        forall i, j | 0 <= i < j < |values[1..]| ensures values[1..][i] != values[1..][j] {
          assert values[1..][i] == values[i + 1] && values[1..][j] == values[j + 1];
        }
      }
      SumCountsAppend(values[1..], s, y);
      assert y in values <==> y == values[0] || y in values[1..];
      assert y == values[0] ==> y !in values[1..];
    }
  }

  /** Counting every element by its distinct value accounts for the whole list. */
  lemma {:induction false} SumCountsDistinct<T>(s: seq<T>)
    ensures SumCounts(Distinct(s), s) == |s|
  {
    if s != [] {
      var init := s[..|s| - 1];
      var last := s[|s| - 1];
      var d := Distinct(init);
      assert s == init + [last];
      SumCountsDistinct(init);
      SumCountsAppend(d, init, last);
      if last !in d {
        CountAppend(init, last, last);
        assert Count(init, last) == 0;
        SumCountsAppendValue(d, s, last);
      }
    }
  }

  lemma {:induction false} SumCountsAppendValue<T>(values: seq<T>, s: seq<T>, y: T)
    ensures SumCounts(values + [y], s) == SumCounts(values, s) + Count(s, y)
  {
    if values == [] {
      assert [] + [y] == [y];
      assert [y][1..] == [];
    } else {
      assert (values + [y])[1..] == values[1..] + [y];
      SumCountsAppendValue(values[1..], s, y);
    }
  }

  // ---------------------------------------------------------------------------
  // stable sort by an integer key (the comparator `key(a) - key(b)`)

  predicate Ascending<T>(s: seq<T>, key: T -> int) {
    forall i, j :: 0 <= i < j < |s| ==> key(s[i]) <= key(s[j])
  }

  /** Inserts `x` in front of the first element whose key is not smaller. */
  function Insert<T>(x: T, s: seq<T>, key: T -> int): (r: seq<T>)
    ensures |r| == |s| + 1
    ensures multiset(r) == multiset(s) + multiset{x}
  {
    if s == [] || key(x) <= key(s[0]) then [x] + s
    else
      assert s == [s[0]] + s[1..];
      [s[0]] + Insert(x, s[1..], key)
  }

  lemma {:induction false} InsertBound<T>(x: T, s: seq<T>, key: T -> int, b: int)
    requires b <= key(x)
    requires forall i :: 0 <= i < |s| ==> b <= key(s[i])
    ensures forall i :: 0 <= i < |s| + 1 ==> b <= key(Insert(x, s, key)[i])
  {
    if s != [] && key(x) > key(s[0]) {
      InsertBound(x, s[1..], key, b);
    }
  }

  lemma {:induction false} InsertAscending<T>(x: T, s: seq<T>, key: T -> int)
    requires Ascending(s, key)
    ensures Ascending(Insert(x, s, key), key)
  {
    if s != [] && key(x) > key(s[0]) {
      InsertAscending(x, s[1..], key);
      InsertBound(x, s[1..], key, key(s[0]));
      var r := Insert(x, s, key);
      assert r == [s[0]] + Insert(x, s[1..], key);
    }
  }

  /** `[...s].sort((a, b) => key(a) - key(b))`: an insertion sort, which like
      the built-in sort keeps elements with equal keys in their original order. */
  function SortBy<T>(s: seq<T>, key: T -> int): (r: seq<T>)
    ensures |r| == |s|
    ensures multiset(r) == multiset(s)
    ensures Ascending(r, key)
  {
    if s == [] then []
    else
      assert s == [s[0]] + s[1..];
      InsertAscending(s[0], SortBy(s[1..], key), key);
      Insert(s[0], SortBy(s[1..], key), key)
  }

  /** The elements whose key is `k`. */
  function WithKey<T>(key: T -> int, k: int): T -> bool {
    x => key(x) == k
  }

  lemma FilterCons<T>(a: T, t: seq<T>, p: T -> bool)
    ensures Filter([a] + t, p) == (if p(a) then [a] else []) + Filter(t, p)
  {
    assert ([a] + t)[0] == a;
    assert ([a] + t)[1..] == t;
  }

  lemma AscendingTail<T>(s: seq<T>, key: T -> int)
    requires s != [] && Ascending(s, key)
    ensures Ascending(s[1..], key)
  {
    assert forall i :: 0 <= i < |s| - 1 ==> s[1..][i] == s[i + 1];
  }

  lemma {:induction false} InsertStable<T>(x: T, s: seq<T>, key: T -> int, k: int)
    requires Ascending(s, key)
    ensures Filter(Insert(x, s, key), WithKey(key, k))
         == (if key(x) == k then [x] else []) + Filter(s, WithKey(key, k))
  {
    var p := WithKey(key, k);
    if s == [] || key(x) <= key(s[0]) {
      FilterCons(x, s, p);
    } else {
      var s0, tail := s[0], s[1..];
      assert s == [s0] + tail;
      AscendingTail(s, key);
      var ins := Insert(x, tail, key);
      var fx: seq<T> := if p(x) then [x] else [];
      var f0: seq<T> := if p(s0) then [s0] else [];
      calc {
        Filter(Insert(x, s, key), p);
        { assert Insert(x, s, key) == [s0] + ins; }
        Filter([s0] + ins, p);
        { FilterCons(s0, ins, p); }
        f0 + Filter(ins, p);
        { InsertStable(x, tail, key, k); }
        f0 + (fx + Filter(tail, p));
        { SwapHeads(f0, fx, Filter(tail, p)); }
        fx + (f0 + Filter(tail, p));
        { FilterCons(s0, tail, p); }
        fx + Filter(s, p);
      }
    }
  }

  /** Two prefixes of which one is empty can be swapped. */
  lemma SwapHeads<T>(a: seq<T>, b: seq<T>, t: seq<T>)
    requires a == [] || b == []
    ensures a + (b + t) == b + (a + t)
  {
  }

  /** Stability: for every key value, the elements with that key appear in the
      sorted list in the same order as in the input. */
  lemma {:induction false} SortByStable<T>(s: seq<T>, key: T -> int, k: int)
    ensures Filter(SortBy(s, key), WithKey(key, k)) == Filter(s, WithKey(key, k))
  {
    if s != [] {
      SortByStable(s[1..], key, k);
      InsertStable(s[0], SortBy(s[1..], key), key, k);
    }
  }

  /** A list that is already in key order is left as it is. */
  lemma {:induction false} SortByAscending<T>(s: seq<T>, key: T -> int)
    requires Ascending(s, key)
    ensures SortBy(s, key) == s
  {
    if s != [] {
      assert Ascending(s[1..], key);
      SortByAscending(s[1..], key);
      assert s == [s[0]] + s[1..];
    }
  }
}
