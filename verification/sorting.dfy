/** The two sorts the system uses: a stable sort into descending order of an
    integer key (JavaScript's `sort((a, b) => b.k - a.k)` and Python's
    `sorted(..., key=k, reverse=True)`, both stable), and Python's
    `sorted(set(xs))` on strings. */
module Sorting {
  import opened Seqs
  import opened Text

  ghost predicate DescendingBy<T(!new)>(s: seq<T>, key: T -> int) {
    forall i, j :: 0 <= i < j < |s| ==> key(s[i]) >= key(s[j])
  }

  /** Puts `x` after every element whose key is at least `key(x)`, so that
      `x` stays behind the equal-keyed elements that came before it. */
  function InsertDesc<T(!new)>(x: T, s: seq<T>, key: T -> int): (r: seq<T>)
    ensures |r| == |s| + 1
    ensures multiset(r) == multiset(s) + multiset{x}
    ensures DescendingBy(s, key) ==> DescendingBy(r, key)
  {
    if s == [] then [x]
    else if key(s[0]) >= key(x) then
      var rest := InsertDesc(x, s[1..], key);
      assert s == [s[0]] + s[1..];
      HeadBoundsInsert(x, s, key, rest);
      [s[0]] + rest
    else [x] + s
  }

  lemma HeadBoundsInsert<T(!new)>(x: T, s: seq<T>, key: T -> int, rest: seq<T>)
    requires s != [] && key(s[0]) >= key(x)
    requires multiset(rest) == multiset(s[1..]) + multiset{x}
    ensures multiset([s[0]] + rest) == multiset(s) + multiset{x}
    ensures DescendingBy(s, key) && DescendingBy(rest, key) ==> DescendingBy([s[0]] + rest, key)
  {
    assert s == [s[0]] + s[1..];
    if DescendingBy(s, key) && DescendingBy(rest, key) {
      forall j | 0 <= j < |rest|
        ensures key(s[0]) >= key(rest[j])
      {
        assert rest[j] in multiset(rest);
        if rest[j] != x {
          assert rest[j] in multiset(s[1..]);
          var k :| 0 <= k < |s[1..]| && s[1..][k] == rest[j];
          assert s[k + 1] == rest[j];
        }
      }
      var r := [s[0]] + rest;
      forall i, j | 0 <= i < j < |r|
        ensures key(r[i]) >= key(r[j])
      {
        if i > 0 {
          assert r[i] == rest[i - 1] && r[j] == rest[j - 1];
        } else {
          assert r[j] == rest[j - 1];
        }
      }
    }
  }

  /** Insertion sort into descending key order, taking the input from the
      left so that equal keys keep their input order. */
  function SortDesc<T(!new)>(s: seq<T>, key: T -> int): (r: seq<T>)
    ensures |r| == |s|
    ensures multiset(r) == multiset(s)
    ensures DescendingBy(r, key)
  {
    if s == [] then []
    else
      assert s == s[..|s| - 1] + [s[|s| - 1]];
      InsertDesc(s[|s| - 1], SortDesc(s[..|s| - 1], key), key)
  }

  function KeyIs<T(!new)>(key: T -> int, k: int): T -> bool {
    x => key(x) == k
  }

  lemma {:induction false} InsertDescStable<T(!new)>(x: T, s: seq<T>, key: T -> int, k: int)
    requires DescendingBy(s, key)
    ensures Filter(InsertDesc(x, s, key), KeyIs(key, k))
         == Filter(s, KeyIs(key, k)) + (if key(x) == k then [x] else [])
  {
    var p := KeyIs(key, k);
    if s == [] {
      assert InsertDesc(x, s, key) == [x];
      FilterSingleton(x, p);
    } else if key(s[0]) >= key(x) {
      assert DescendingBy(s[1..], key);
      InsertDescStable(x, s[1..], key, k);
      InsertDescStableStep(x, s, key, k);
    } else {
      InsertDescStableFront(x, s, key, k);
    }
  }

  lemma InsertDescStableStep<T(!new)>(x: T, s: seq<T>, key: T -> int, k: int)
    requires s != [] && key(s[0]) >= key(x)
    requires Filter(InsertDesc(x, s[1..], key), KeyIs(key, k))
          == Filter(s[1..], KeyIs(key, k)) + (if key(x) == k then [x] else [])
    ensures Filter(InsertDesc(x, s, key), KeyIs(key, k))
         == Filter(s, KeyIs(key, k)) + (if key(x) == k then [x] else [])
  {
    var rest := InsertDesc(x, s[1..], key);
    assert InsertDesc(x, s, key) == [s[0]] + rest;
    assert s == [s[0]] + s[1..];
    FilterConsSuffix(s[0], rest, s[1..], KeyIs(key, k), if key(x) == k then [x] else []);
  }

  lemma FilterConsSuffix<T(!new)>(y: T, a: seq<T>, b: seq<T>, p: T -> bool, tail: seq<T>)
    requires Filter(a, p) == Filter(b, p) + tail
    ensures Filter([y] + a, p) == Filter([y] + b, p) + tail
  {
    assert ([y] + a)[0] == y && ([y] + a)[1..] == a;
    assert ([y] + b)[0] == y && ([y] + b)[1..] == b;
    if p(y) {
      assert [y] + (Filter(b, p) + tail) == ([y] + Filter(b, p)) + tail;
    }
  }

  lemma InsertDescStableFront<T(!new)>(x: T, s: seq<T>, key: T -> int, k: int)
    requires DescendingBy(s, key) && s != [] && key(s[0]) < key(x)
    ensures Filter(InsertDesc(x, s, key), KeyIs(key, k))
         == Filter(s, KeyIs(key, k)) + (if key(x) == k then [x] else [])
  {
    var p := KeyIs(key, k);
    var r := [x] + s;
    assert InsertDesc(x, s, key) == r;
    assert r[0] == x && r[1..] == s;
    if key(x) == k {
      var f := Filter(s, p);
      assert Filter(r, p) == [x] + f;
    }
  }

  /** Stability: for every key value, the elements carrying it appear in the
      output in exactly the order they had in the input. */
  lemma {:induction false} SortDescStable<T(!new)>(s: seq<T>, key: T -> int, k: int)
    ensures Filter(SortDesc(s, key), KeyIs(key, k)) == Filter(s, KeyIs(key, k))
  {
    if s != [] {
      var init, last := s[..|s| - 1], s[|s| - 1];
      var sorted := SortDesc(init, key);
      assert SortDesc(s, key) == InsertDesc(last, sorted, key);
      SortDescStable(init, key, k);
      InsertDescStable(last, sorted, key, k);
      SplitLast(s);
      FilterAppend(init, [last], KeyIs(key, k));
      FilterSingleton(last, KeyIs(key, k));
    }
  }

  lemma {:induction false} InsertDescSum<T(!new)>(x: T, s: seq<T>, key: T -> int, f: T -> int)
    ensures SumBy(InsertDesc(x, s, key), f) == f(x) + SumBy(s, f)
  {
    var r := InsertDesc(x, s, key);
    if s == [] {
      assert r == [x];
      assert r[1..] == [];
    } else if key(s[0]) >= key(x) {
      var rest := InsertDesc(x, s[1..], key);
      assert r == [s[0]] + rest;
      InsertDescSum(x, s[1..], key, f);
      assert r[1..] == rest;
    } else {
      assert r == [x] + s;
      assert r[1..] == s;
    }
  }

  /** Sorting never changes a sum over the elements. */
  lemma {:induction false} SortDescSum<T(!new)>(s: seq<T>, key: T -> int, f: T -> int)
    ensures SumBy(SortDesc(s, key), f) == SumBy(s, f)
  {
    if s != [] {
      var init, last := s[..|s| - 1], s[|s| - 1];
      var sorted := SortDesc(init, key);
      assert SortDesc(s, key) == InsertDesc(last, sorted, key);
      SortDescSum(init, key, f);
      InsertDescSum(last, sorted, key, f);
      SplitLast(s);
      SumByAppend(init, [last], f);
      assert SumBy([last], f) == f(last);
    }
  }

  /** A prefix of a sequence holds some of its elements, and the rest are
      those after it. */
  lemma PrefixIncluded<T>(r: seq<T>, m: nat)
    requires m <= |r|
    ensures multiset(r[..m]) <= multiset(r)
    ensures multiset(r) - multiset(r[..m]) == multiset(r[m..])
    ensures forall x :: x in r[..m] ==> x in r
  {
    assert r == r[..m] + r[m..];
  }

  /** A prefix of a descending sequence is descending. */
  lemma PrefixDescending<T(!new)>(r: seq<T>, key: T -> int, m: nat)
    requires m <= |r| && DescendingBy(r, key)
    ensures DescendingBy(r[..m], key)
  {
  }

  /** In a descending sequence, everything after position `m` has a key no
      larger than anything before it. */
  lemma PrefixDominates<T(!new)>(r: seq<T>, key: T -> int, m: nat)
    requires m <= |r| && DescendingBy(r, key)
    ensures forall x, y :: x in r[m..] && y in r[..m] ==> key(y) >= key(x)
  {
    forall x, y | x in r[m..] && y in r[..m]
      ensures key(y) >= key(x)
    {
      var j :| 0 <= j < |r[m..]| && r[m..][j] == x;
      var i :| 0 <= i < m && r[..m][i] == y;
      assert r[i] == y && r[m + j] == x;
    }
  }

  /** The first `n` of a descending sort: every kept element is in the input,
      and no element left out has a larger key than any element kept. */
  lemma TakeSortedIsTop<T(!new)>(s: seq<T>, key: T -> int, n: nat)
    ensures DescendingBy(Take(SortDesc(s, key), n), key)
    ensures multiset(Take(SortDesc(s, key), n)) <= multiset(s)
    ensures forall x :: x in Take(SortDesc(s, key), n) ==> x in s
    ensures forall x, y :: x in multiset(s) - multiset(Take(SortDesc(s, key), n)) && y in Take(SortDesc(s, key), n)
                       ==> key(y) >= key(x)
  {
    var r := SortDesc(s, key);
    var m := |Take(r, n)|;
    PrefixIncluded(r, m);
    PrefixDescending(r, key, m);
    PrefixDominates(r, key, m);
    forall x | x in r
      ensures x in s
    {
      assert x in multiset(r);
    }
  }

  /** The `n` elements with the largest keys, largest first, ties in input
      order (`[...s].sort(byKeyDesc).slice(0, n)`). */
  function TopN<T(!new)>(s: seq<T>, key: T -> int, n: nat): (r: seq<T>)
    ensures |r| == if |s| < n then |s| else n
    ensures DescendingBy(r, key)
    ensures multiset(r) <= multiset(s)
    ensures forall x :: x in r ==> x in s
    ensures forall x, y :: x in multiset(s) - multiset(r) && y in r ==> key(y) >= key(x)
  {
    TakeSortedIsTop(s, key, n);
    Take(SortDesc(s, key), n)
  }

  /** Keeping only the top `n` never raises a sum of non-negative terms. */
  lemma TopNSumAtMost<T(!new)>(s: seq<T>, key: T -> int, n: nat, f: T -> int)
    requires forall x :: x in s ==> f(x) >= 0
    ensures SumBy(TopN(s, key, n), f) <= SumBy(s, f)
  {
    var sorted := SortDesc(s, key);
    SortDescSum(s, key, f);
    forall x | x in sorted
      ensures f(x) >= 0
    {
      assert x in multiset(s);
    }
    SumByPrefixAtMost(sorted, |TopN(s, key, n)|, f);
  }

  // ---------------------------------------------------------------------
  // Python's sorted(set(xs)) on strings

  ghost predicate StrictlyAscending(s: seq<string>) {
    forall i, j :: 0 <= i < j < |s| ==> LexLess(s[i], s[j])
  }

  lemma AscendingCons(x: string, s: seq<string>)
    requires StrictlyAscending(s) && s != [] && LexLess(x, s[0])
    ensures StrictlyAscending([x] + s)
  {
    forall j | 0 < j < |s|
      ensures LexLess(x, s[j])
    {
      LexLessTransitive(x, s[0], s[j]);
    }
  }

  function InsertUnique(x: string, s: seq<string>): (r: seq<string>)
    requires StrictlyAscending(s)
    ensures forall y :: y in r <==> y == x || y in s
    ensures StrictlyAscending(r)
  {
    if s == [] then [x]
    else if x == s[0] then s
    else if LexLess(x, s[0]) then
      AscendingCons(x, s);
      [x] + s
    else
      LexLessTotal(x, s[0]);
      var rest := InsertUnique(x, s[1..]);
      assert forall y :: y in rest ==> LexLess(s[0], y);
      [s[0]] + rest
  }

  /** `sorted(set(xs))`: the distinct strings of `xs` in ascending order. */
  function SortUnique(xs: seq<string>): (r: seq<string>)
    ensures forall y :: y in r <==> y in xs
    ensures StrictlyAscending(r)
  {
    if xs == [] then [] else InsertUnique(xs[0], SortUnique(xs[1..]))
  }

  lemma AscendingDistinct(s: seq<string>)
    requires StrictlyAscending(s)
    ensures Distinct(s)
  {
    forall i, j | 0 <= i < j < |s|
      ensures s[i] != s[j]
    {
      LexLessIrreflexive(s[i]);
    }
  }

  /** A strictly ascending sequence is determined by its elements, so
      `SortUnique` is the one sorted, duplicate-free arrangement of a set. */
  lemma {:induction false} AscendingUnique(a: seq<string>, b: seq<string>)
    requires StrictlyAscending(a) && StrictlyAscending(b)
    requires forall y :: y in a <==> y in b
    ensures a == b
  {
    if a != [] {
      assert a[0] in a;
    }
    if b != [] {
      assert b[0] in b;
    }
    if a != [] {
      assert a[0] in b;
      assert b != [];
      if a[0] != b[0] {
        assert b[0] in a;
        var i :| 0 <= i < |a| && a[i] == b[0];
        var j :| 0 <= j < |b| && b[j] == a[0];
        assert LexLess(a[0], a[i]);
        assert LexLess(b[0], b[j]);
        LexLessAsymmetric(a[0], b[0]);
        assert false;
      }
      forall y
        ensures y in a[1..] <==> y in b[1..]
      {
        if y in a[1..] {
          var i :| 1 <= i < |a| && a[i] == y;
          LexLessIrreflexive(y);
          assert y != a[0];
          assert y in b;
          assert y != b[0];
          assert b == [b[0]] + b[1..];
        }
        if y in b[1..] {
          var i :| 1 <= i < |b| && b[i] == y;
          LexLessIrreflexive(y);
          assert y != b[0];
          assert y in a;
          assert y != a[0];
          assert a == [a[0]] + a[1..];
        }
      }
      AscendingUnique(a[1..], b[1..]);
      assert a == [a[0]] + a[1..] && b == [b[0]] + b[1..];
    }
  }
}
