/**
 * The two sorts the bot relies on: `sort_by_key` (stable, by an integer key),
 * used on pools and tokens, and `sort` + `dedup` on strings, used to build a
 * bundle id. Strings are ordered as Rust orders `String`: lexicographically.
 */
module Sorting {

  // ---------------------------------------------------------------------------
  // Stable sort by an integer key
  // ---------------------------------------------------------------------------

  predicate SortedBy<T>(s: seq<T>, key: T -> int) {
    forall i, j :: 0 <= i < j < |s| ==> key(s[i]) <= key(s[j])
  }

  /** The elements of `s` whose key is `k`, in their order in `s`. */
  function KeyFilter<T>(s: seq<T>, key: T -> int, k: int): seq<T> {
    if s == [] then [] else (if key(s[0]) == k then [s[0]] else []) + KeyFilter(s[1..], key, k)
  }

  lemma {:induction false} KeyFilterAppend<T>(a: seq<T>, b: seq<T>, key: T -> int, k: int)
    ensures KeyFilter(a + b, key, k) == KeyFilter(a, key, k) + KeyFilter(b, key, k)
  {
    if a != [] {
      var head := if key(a[0]) == k then [a[0]] else [];
      assert (a + b)[0] == a[0];
      assert (a + b)[1..] == a[1..] + b;
      assert KeyFilter(a + b, key, k) == head + KeyFilter(a[1..] + b, key, k);
      KeyFilterAppend(a[1..], b, key, k);
      assert KeyFilter(a, key, k) == head + KeyFilter(a[1..], key, k);
    } else {
      assert a + b == b;
    }
  }

  lemma {:induction false} KeyFilterAbove<T>(s: seq<T>, key: T -> int, k: int)
    requires forall m :: 0 <= m < |s| ==> key(s[m]) > k
    ensures KeyFilter(s, key, k) == []
  {
    if s != [] {
      KeyFilterAbove(s[1..], key, k);
    }
  }

  /** Inserting `x` before a run of larger keys adds `x` to its own key's filter only. */
  lemma InsertFilter<T>(lo: seq<T>, hi: seq<T>, x: T, key: T -> int, k: int)
    requires forall m :: 0 <= m < |hi| ==> key(hi[m]) > key(x)
    ensures KeyFilter(lo + [x] + hi, key, k)
         == KeyFilter(lo + hi, key, k) + (if key(x) == k then [x] else [])
  {
    KeyFilterAppend(lo + [x], hi, key, k);
    KeyFilterAppend(lo, [x], key, k);
    KeyFilterAppend(lo, hi, key, k);
    assert KeyFilter([x], key, k) == (if key(x) == k then [x] else []) by {
      assert [x][1..] == [];
    }
    if key(x) == k {
      KeyFilterAbove(hi, key, k);
    }
  }

  /** Inserting `x` after the keys at most its own and before the larger ones keeps the order. */
  lemma InsertSortedBy<T>(lo: seq<T>, hi: seq<T>, x: T, key: T -> int)
    requires SortedBy(lo + hi, key)
    requires lo != [] ==> key(lo[|lo| - 1]) <= key(x)
    requires forall m :: 0 <= m < |hi| ==> key(hi[m]) > key(x)
    ensures SortedBy(lo + [x] + hi, key)
  {
    var r := lo + hi;
    var r' := lo + [x] + hi;
    forall a, b | 0 <= a < b < |r'|
      ensures key(r'[a]) <= key(r'[b])
    {
      if b < |lo| {
        assert r'[a] == r[a] && r'[b] == r[b];
      } else if a < |lo| && b == |lo| {
        assert r[a] == r'[a] && r[|lo| - 1] == lo[|lo| - 1];
      } else if a < |lo| {
        assert r'[a] == r[a] && r'[b] == r[b - 1];
      } else if a == |lo| {
        assert r'[b] == hi[b - |lo| - 1];
      } else {
        assert r'[a] == r[a - 1] && r'[b] == r[b - 1];
      }
    }
  }

  /** `a` and `b` hold, key by key, the same elements in the same order. */
  ghost predicate SameFilters<T>(a: seq<T>, b: seq<T>, key: T -> int) {
    forall k :: KeyFilter(a, key, k) == KeyFilter(b, key, k)
  }

  /** One insertion step of the sort keeps its three invariants. */
  lemma InsertStep<T>(lo: seq<T>, hi: seq<T>, x: T, done: seq<T>, key: T -> int)
    requires SortedBy(lo + hi, key)
    requires lo != [] ==> key(lo[|lo| - 1]) <= key(x)
    requires forall m :: 0 <= m < |hi| ==> key(hi[m]) > key(x)
    requires SameFilters(lo + hi, done, key)
    requires multiset(lo + hi) == multiset(done)
    ensures SortedBy(lo + [x] + hi, key)
    ensures SameFilters(lo + [x] + hi, done + [x], key)
    ensures multiset(lo + [x] + hi) == multiset(done + [x])
  {
    InsertSortedBy(lo, hi, x, key);
    forall k
      ensures KeyFilter(lo + [x] + hi, key, k) == KeyFilter(done + [x], key, k)
    {
      InsertFilter(lo, hi, x, key, k);
      KeyFilterAppend(done, [x], key, k);
      assert [x][1..] == [];
    }
    calc {
      multiset(lo + [x] + hi);
      multiset(lo) + multiset{x} + multiset(hi);
      multiset(lo + hi) + multiset{x};
    }
  }

  /** The place where `sort_by_key`'s insertion puts `x`: after every key at most `key(x)`. */
  method InsertionPoint<T>(r: seq<T>, x: T, key: T -> int) returns (j: nat)
    requires SortedBy(r, key)
    ensures j <= |r|
    ensures j > 0 ==> key(r[j - 1]) <= key(x)
    ensures forall m :: j <= m < |r| ==> key(r[m]) > key(x)
  {
    j := |r|;
    while j > 0 && key(r[j - 1]) > key(x)
      invariant j <= |r|
      invariant forall m :: j <= m < |r| ==> key(r[m]) > key(x)
    {
      j := j - 1;
    }
  }

  /**
   * `sort_by_key`: the result is ordered by key and, for every key, holds the
   * elements with that key in their original order (stability). In particular
   * it is a permutation of the input.
   */
  method SortByKey<T>(s: seq<T>, key: T -> int) returns (r: seq<T>)
    ensures SortedBy(r, key)
    ensures SameFilters(r, s, key)
    ensures multiset(r) == multiset(s)
  {
    r := [];
    for i := 0 to |s|
      invariant SortedBy(r, key)
      invariant SameFilters(r, s[..i], key)
      invariant multiset(r) == multiset(s[..i])
    {
      var x := s[i];
      var j := InsertionPoint(r, x, key);
      var lo, hi := r[..j], r[j..];
      assert r == lo + hi;
      InsertStep(lo, hi, x, s[..i], key);
      assert s[..i + 1] == s[..i] + [x];
      r := lo + [x] + hi;
    }
    assert s[..|s|] == s;
  }

  /** No element occurs twice. */
  predicate Distinct<T(==)>(s: seq<T>) {
    forall i, j :: 0 <= i < j < |s| ==> s[i] != s[j]
  }

  /** In a list without repeats every element is counted once. */
  lemma {:induction false} DistinctCounts<T>(s: seq<T>, x: T)
    requires Distinct(s)
    ensures multiset(s)[x] <= 1
  {
    if s != [] {
      var init := s[..|s| - 1];
      assert s == init + [s[|s| - 1]];
      assert Distinct(init);
      DistinctCounts(init, x);
      if x == s[|s| - 1] {
        assert x !in init;
      }
    }
  }

  /** A repeated element is counted at least twice. */
  lemma RepeatCounts<T>(s: seq<T>, i: nat, j: nat)
    requires i < j < |s| && s[i] == s[j]
    ensures multiset(s)[s[i]] >= 2
  {
    assert s == s[..j] + [s[j]] + s[j + 1..];
    assert s[i] in s[..j];
  }

  /** A permutation of a list without repeats has none either. */
  lemma DistinctPermutation<T>(a: seq<T>, b: seq<T>)
    requires Distinct(a) && multiset(a) == multiset(b)
    ensures Distinct(b)
  {
    forall i, j | 0 <= i < j < |b| ensures b[i] != b[j] {
      if b[i] == b[j] {
        RepeatCounts(b, i, j);
        DistinctCounts(a, b[i]);
      }
    }
  }

  // ---------------------------------------------------------------------------
  // Lexicographic order on strings, sort and dedup
  // ---------------------------------------------------------------------------

  /** `a <= b` in the order of Rust's `String`. */
  predicate LexLe(a: string, b: string) {
    a == [] || (b != [] && (a[0] < b[0] || (a[0] == b[0] && LexLe(a[1..], b[1..]))))
  }

  predicate LexLt(a: string, b: string) {
    LexLe(a, b) && a != b
  }

  lemma {:induction false} LexLeTotal(a: string, b: string)
    ensures LexLe(a, b) || LexLe(b, a)
  {
    if a != [] && b != [] && a[0] == b[0] {
      LexLeTotal(a[1..], b[1..]);
    }
  }

  lemma {:induction false} LexLeReflexive(a: string)
    ensures LexLe(a, a)
  {
    if a != [] {
      LexLeReflexive(a[1..]);
    }
  }

  lemma {:induction false} LexLeAntisymmetric(a: string, b: string)
    requires LexLe(a, b) && LexLe(b, a)
    ensures a == b
  {
    if a != [] && b != [] {
      LexLeAntisymmetric(a[1..], b[1..]);
      assert a == [a[0]] + a[1..] && b == [b[0]] + b[1..];
    }
  }

  lemma {:induction false} LexLeTransitive(a: string, b: string, c: string)
    requires LexLe(a, b) && LexLe(b, c)
    ensures LexLe(a, c)
  {
    if a != [] && a[0] == b[0] && b[0] == c[0] {
      LexLeTransitive(a[1..], b[1..], c[1..]);
    }
  }

  /** The set of elements of a sequence. */
  function Elements(s: seq<string>): (r: set<string>)
    ensures forall x :: x in r <==> x in s
  {
    set x | x in s
  }

  predicate SortedLex(s: seq<string>) {
    forall i, j :: 0 <= i < j < |s| ==> LexLe(s[i], s[j])
  }

  predicate StrictlySortedLex(s: seq<string>) {
    forall i, j :: 0 <= i < j < |s| ==> LexLt(s[i], s[j])
  }

  /** `Vec<String>::sort`: ordered and a permutation of the input. */
  method SortStrings(s: seq<string>) returns (r: seq<string>)
    ensures SortedLex(r)
    ensures multiset(r) == multiset(s)
  {
    r := [];
    for i := 0 to |s|
      invariant SortedLex(r)
      invariant multiset(r) == multiset(s[..i])
    {
      var x := s[i];
      var j := |r|;
      while j > 0 && !LexLe(r[j - 1], x)
        invariant 0 <= j <= |r|
        invariant forall m :: j <= m < |r| ==> LexLe(x, r[m]) && r[m] != x
      {
        LexLeTotal(r[j - 1], x);
        j := j - 1;
      }
      InsertLex(r, j, x);
      assert s[..i + 1] == s[..i] + [x];
      r := r[..j] + [x] + r[j..];
    }
    assert s[..|s|] == s;
  }

  /** Placing `x` after everything below it and before everything above it keeps the order. */
  lemma InsertLex(r: seq<string>, j: nat, x: string)
    requires SortedLex(r) && j <= |r|
    requires j > 0 ==> LexLe(r[j - 1], x)
    requires forall m :: j <= m < |r| ==> LexLe(x, r[m])
    ensures SortedLex(r[..j] + [x] + r[j..])
    ensures multiset(r[..j] + [x] + r[j..]) == multiset(r) + multiset{x}
  {
    var r' := r[..j] + [x] + r[j..];
    forall a, b | 0 <= a < b < |r'|
      ensures LexLe(r'[a], r'[b])
    {
      if a < j && b >= j {
        if a < j - 1 {
          LexLeTransitive(r[a], r[j - 1], x);
        }
        if b > j {
          LexLeTransitive(r[a], x, r[b - 1]);
        }
      }
    }
    InsertMultiset(r, j, x);
  }

  lemma InsertMultiset<T>(r: seq<T>, j: nat, x: T)
    requires j <= |r|
    ensures multiset(r[..j] + [x] + r[j..]) == multiset(r) + multiset{x}
  {
    assert r == r[..j] + r[j..];
  }

  /** `Vec::dedup` on a sorted vector: strictly ordered, same elements. */
  method Dedup(s: seq<string>) returns (r: seq<string>)
    requires SortedLex(s)
    ensures StrictlySortedLex(r)
    ensures Elements(r) == Elements(s)
  {
    r := [];
    for i := 0 to |s|
      invariant StrictlySortedLex(r)
      invariant Elements(r) == Elements(s[..i])
      invariant i > 0 ==> r != [] && r[|r| - 1] == s[i - 1]
      invariant i == 0 ==> r == []
    {
      if i == 0 || s[i] != r[|r| - 1] {
        forall a | 0 <= a < |r|
          ensures LexLt(r[a], s[i])
        {
          assert r[a] in Elements(r);
          assert r[a] in s[..i];
          var k :| 0 <= k < i && s[k] == r[a];
          if k < i - 1 {
            LexLeTransitive(r[a], s[i - 1], s[i]);
          }
          if r[a] == s[i] {
            LexLeAntisymmetric(r[a], s[i - 1]);
          }
        }
        r := r + [s[i]];
      }
      assert s[..i + 1] == s[..i] + [s[i]];
    }
    assert s[..|s|] == s;
  }

  lemma EmptyElements(s: seq<string>)
    ensures Elements(s) == {} ==> s == []
  {
    if s != [] {
      assert s[0] in Elements(s);
    }
  }

  /** Two strictly ordered sequences with the same elements are equal. */
  lemma {:induction false} StrictlySortedUnique(a: seq<string>, b: seq<string>)
    requires StrictlySortedLex(a) && StrictlySortedLex(b)
    requires Elements(a) == Elements(b)
    ensures a == b
  {
    if a != [] && b != [] {
      assert a[0] in Elements(a) && b[0] in Elements(b);
      var i :| 0 <= i < |b| && b[i] == a[0];
      var j :| 0 <= j < |a| && a[j] == b[0];
      if i > 0 && j > 0 {
        LexLeTransitive(a[0], a[j], a[0]);
        LexLeAntisymmetric(a[0], a[j]);
      }
      assert a[0] == b[0];
      assert Elements(a[1..]) == Elements(b[1..]) by {
        forall x | x in a[1..] ensures x in b[1..] {
          assert x in b && x != b[0];
        }
        forall x | x in b[1..] ensures x in a[1..] {
          assert x in a && x != a[0];
        }
      }
      StrictlySortedUnique(a[1..], b[1..]);
    } else if a == [] {
      EmptyElements(b);
    } else {
      EmptyElements(a);
    }
  }

  /** Inserts `x` into a strictly ordered sequence, unless it is already there. */
  function InsertDistinct(s: seq<string>, x: string): seq<string> {
    if s == [] then [x]
    else if x == s[0] then s
    else if LexLe(x, s[0]) then [x] + s
    else [s[0]] + InsertDistinct(s[1..], x)
  }

  /** A value below the head of a strictly ordered sequence can be put in front of it. */
  lemma InsertFrontSorted(s: seq<string>, x: string)
    requires StrictlySortedLex(s) && s != [] && x != s[0] && LexLe(x, s[0])
    ensures StrictlySortedLex([x] + s)
  {
    var r := [x] + s;
    forall j | 0 < j < |r|
      ensures LexLt(r[0], r[j])
    {
      if j > 1 {
        LexLeTransitive(x, s[0], s[j - 1]);
        if x == s[j - 1] {
          LexLeAntisymmetric(x, s[0]);
        }
      }
    }
  }

  /** The head of a strictly ordered sequence stays in front of its tail with `x` inserted. */
  lemma InsertBehindSorted(s: seq<string>, x: string, rest: seq<string>)
    requires StrictlySortedLex(s) && s != [] && !LexLe(x, s[0])
    requires StrictlySortedLex(rest) && Elements(rest) == Elements(s[1..]) + {x}
    ensures StrictlySortedLex([s[0]] + rest) && Elements([s[0]] + rest) == Elements(s) + {x}
  {
    var r := [s[0]] + rest;
    var tail := s[1..];
    LexLeTotal(x, s[0]);
    forall j | 0 < j < |r|
      ensures LexLt(r[0], r[j])
    {
      assert rest[j - 1] in Elements(rest);
      if rest[j - 1] != x {
        var k :| 0 <= k < |tail| && tail[k] == rest[j - 1];
        assert s[k + 1] == tail[k];
      }
    }
    assert s == [s[0]] + tail;
    assert Elements(s) == {s[0]} + Elements(tail);
  }

  lemma {:induction false} InsertDistinctSorted(s: seq<string>, x: string)
    requires StrictlySortedLex(s)
    ensures var r := InsertDistinct(s, x);
            StrictlySortedLex(r) && Elements(r) == Elements(s) + {x} && (r[0] == x || r[0] == s[0])
  {
    if s != [] && x != s[0] {
      if LexLe(x, s[0]) {
        InsertFrontSorted(s, x);
      } else {
        InsertDistinctSorted(s[1..], x);
        InsertBehindSorted(s, x, InsertDistinct(s[1..], x));
      }
    }
  }

  /**
   * The strictly ordered sequence of the distinct values of `xs`: what
   * `sort` followed by `dedup` produces.
   */
  function SortedDistinct(xs: seq<string>): seq<string> {
    if xs == [] then [] else InsertDistinct(SortedDistinct(xs[..|xs| - 1]), xs[|xs| - 1])
  }

  lemma {:induction false} SortedDistinctSorted(xs: seq<string>)
    ensures StrictlySortedLex(SortedDistinct(xs))
    ensures Elements(SortedDistinct(xs)) == Elements(xs)
  {
    if xs != [] {
      var init := xs[..|xs| - 1];
      SortedDistinctSorted(init);
      InsertDistinctSorted(SortedDistinct(init), xs[|xs| - 1]);
      assert xs == init + [xs[|xs| - 1]];
      assert Elements(xs) == Elements(init) + {xs[|xs| - 1]};
    }
  }

  /** Only the set of values matters: any reordering or repetition gives the same result. */
  lemma SortedDistinctOfSet(xs: seq<string>, ys: seq<string>)
    requires Elements(xs) == Elements(ys)
    ensures SortedDistinct(xs) == SortedDistinct(ys)
  {
    SortedDistinctSorted(xs);
    SortedDistinctSorted(ys);
    StrictlySortedUnique(SortedDistinct(xs), SortedDistinct(ys));
  }
}
