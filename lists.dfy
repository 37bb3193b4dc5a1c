/**
 * The array operations the application builds everything from: `map`, `filter`,
 * `filter(...).length`, `new Set(...)`, a stable `sort` on a copy, `slice(0, n)`
 * and `reduce` with `+`.
 */
module Lists {
  import opened Wrappers

  /** `s.map(f)`. */
  function MapSeq<T, U>(s: seq<T>, f: T -> U): (r: seq<U>)
    ensures |r| == |s|
    ensures forall i :: 0 <= i < |s| ==> r[i] == f(s[i])
  {
    if s == [] then [] else [f(s[0])] + MapSeq(s[1..], f)
  }

  /**
   * `s.map(x => matches(x) ? update(x) : x)`: the update-by-id shape every store
   * action uses. Length and order are kept; only matching entries change.
   */
  function UpdateWhere<T>(s: seq<T>, matches: T -> bool, update: T -> T): (r: seq<T>)
    ensures |r| == |s|
    ensures forall i :: 0 <= i < |s| ==> r[i] == if matches(s[i]) then update(s[i]) else s[i]
  {
    MapSeq(s, x => if matches(x) then update(x) else x)
  }

  /** When no entry matches, an update-by-id returns the list it was given. */
  lemma UpdateWhereNoMatch<T>(s: seq<T>, matches: T -> bool, update: T -> T)
    requires forall i :: 0 <= i < |s| ==> !matches(s[i])
    ensures UpdateWhere(s, matches, update) == s
  {
  }

  /**
   * Applying the same update twice equals applying it once, provided the update
   * is idempotent on a single entry and does not change whether the entry matches.
   */
  lemma UpdateWhereTwice<T>(s: seq<T>, matches: T -> bool, update: T -> T)
    requires forall x :: matches(x) ==> matches(update(x)) && update(update(x)) == update(x)
    ensures UpdateWhere(UpdateWhere(s, matches, update), matches, update) == UpdateWhere(s, matches, update)
  {
  }

  /** `s.filter(p)`. */
  function Filter<T>(s: seq<T>, p: T -> bool): (r: seq<T>)
    ensures |r| <= |s|
    ensures forall i :: 0 <= i < |r| ==> r[i] in s && p(r[i])
    ensures forall i :: 0 <= i < |s| && p(s[i]) ==> s[i] in r
  {
    if s == [] then []
    else if p(s[0]) then [s[0]] + Filter(s[1..], p)
    else Filter(s[1..], p)
  }

  /** `r` is obtained from `s` by deleting entries: same relative order, nothing new. */
  ghost predicate IsSubsequence<T>(r: seq<T>, s: seq<T>)
    decreases |s|
  {
    r == [] ||
    (s != [] && ((r[0] == s[0] && IsSubsequence(r[1..], s[1..])) || IsSubsequence(r, s[1..])))
  }

  /** Every list is a subsequence of itself. */
  lemma {:induction false} SubsequenceReflexive<T>(s: seq<T>)
    ensures IsSubsequence(s, s)
  {
    if s != [] {
      SubsequenceReflexive(s[1..]);
    }
  }

  /** A filter keeps the surviving entries in their original order. */
  lemma {:induction false} FilterIsSubsequence<T>(s: seq<T>, p: T -> bool)
    ensures IsSubsequence(Filter(s, p), s)
  {
    if s != [] {
      FilterIsSubsequence(s[1..], p);
      var r := Filter(s, p);
      if p(s[0]) {
        assert r[0] == s[0] && r[1..] == Filter(s[1..], p);
      } else {
        assert r == Filter(s[1..], p);
      }
    }
  }

  /** A filter whose predicate holds everywhere returns the list unchanged. */
  lemma {:induction false} FilterAll<T>(s: seq<T>, p: T -> bool)
    requires forall i :: 0 <= i < |s| ==> p(s[i])
    ensures Filter(s, p) == s
  {
    if s != [] {
      FilterAll(s[1..], p);
      assert s == [s[0]] + s[1..];
    }
  }

  /** A filter whose predicate holds nowhere returns the empty list. */
  lemma {:induction false} FilterNone<T>(s: seq<T>, p: T -> bool)
    requires forall i :: 0 <= i < |s| ==> !p(s[i])
    ensures Filter(s, p) == []
  {
    if s != [] {
      FilterNone(s[1..], p);
    }
  }

  /** Filtering twice with the same predicate is filtering once. */
  lemma FilterIdempotent<T>(s: seq<T>, p: T -> bool)
    ensures Filter(Filter(s, p), p) == Filter(s, p)
  {
    var r := Filter(s, p);
    forall i | 0 <= i < |r| ensures p(r[i]) {
      assert r[i] in r;
    }
    FilterAll(r, p);
  }

  /**
   * Narrowing a filter (a predicate `p` that implies `q`) selects from what the
   * wider filter selected, so it can never return more.
   */
  lemma {:induction false} FilterNarrow<T>(s: seq<T>, p: T -> bool, q: T -> bool)
    requires forall i :: 0 <= i < |s| ==> p(s[i]) ==> q(s[i])
    ensures Filter(s, p) == Filter(Filter(s, q), p)
    ensures |Filter(s, p)| <= |Filter(s, q)|
  {
    if s != [] {
      FilterNarrow(s[1..], p, q);
    }
  }

  /**
   * Two complementary filters split the list: every entry lands in exactly one
   * of them, and the two lengths add up.
   */
  lemma {:induction false} FilterPartition<T>(s: seq<T>, p: T -> bool, q: T -> bool)
    requires forall i :: 0 <= i < |s| ==> q(s[i]) == !p(s[i])
    ensures |Filter(s, p)| + |Filter(s, q)| == |s|
    ensures multiset(Filter(s, p)) + multiset(Filter(s, q)) == multiset(s)
  {
    if s != [] {
      FilterPartition(s[1..], p, q);
      assert s == [s[0]] + s[1..];
    }
  }

  /** Filtering a concatenation filters each part. */
  lemma {:induction false} FilterAppend<T>(a: seq<T>, b: seq<T>, p: T -> bool)
    ensures Filter(a + b, p) == Filter(a, p) + Filter(b, p)
  {
    if a == [] {
      assert a + b == b;
    } else {
      assert (a + b)[1..] == a[1..] + b;
      FilterAppend(a[1..], b, p);
    }
  }

  /** Predicates that agree on every entry select the same entries. */
  lemma {:induction false} FilterCongruent<T>(s: seq<T>, p: T -> bool, q: T -> bool)
    requires forall i :: 0 <= i < |s| ==> p(s[i]) == q(s[i])
    ensures Filter(s, p) == Filter(s, q)
  {
    if s != [] {
      FilterCongruent(s[1..], p, q);
    }
  }

  /** Filtering by `p` and then by `q` is filtering once by their conjunction `r`. */
  lemma {:induction false} FilterFilter<T>(s: seq<T>, p: T -> bool, q: T -> bool, r: T -> bool)
    requires forall i :: 0 <= i < |s| ==> r(s[i]) == (p(s[i]) && q(s[i]))
    ensures Filter(Filter(s, p), q) == Filter(s, r)
  {
    if s != [] {
      FilterFilter(s[1..], p, q, r);
      if p(s[0]) {
        assert Filter(s, p) == [s[0]] + Filter(s[1..], p);
      }
    }
  }

  /** The first entry a filter keeps is the first entry that satisfies the predicate. */
  lemma {:induction false} FilterHead<T>(s: seq<T>, p: T -> bool)
    requires Filter(s, p) != []
    ensures FindFirst(s, p).Some? && Filter(s, p)[0] == s[FindFirst(s, p).value]
  {
    if !p(s[0]) {
      FilterHead(s[1..], p);
    }
  }

  /** `s.find(p)`, as a position: the first entry that satisfies `p`, if any. */
  function FindFirst<T>(s: seq<T>, p: T -> bool): (r: Option<nat>)
    ensures r.Some? ==> r.value < |s| && p(s[r.value])
    ensures r.Some? ==> forall j :: 0 <= j < r.value ==> !p(s[j])
    ensures r.None? <==> forall j :: 0 <= j < |s| ==> !p(s[j])
  {
    if s == [] then None
    else if p(s[0]) then Some(0)
    else match FindFirst(s[1..], p)
      case None => None
      case Some(k) => Some(k + 1)
  }

  /** `s.filter(p).length`. */
  function Count<T>(s: seq<T>, p: T -> bool): (n: nat)
    ensures n <= |s|
    ensures n == 0 <==> forall i :: 0 <= i < |s| ==> !p(s[i])
    ensures n == |s| <==> forall i :: 0 <= i < |s| ==> p(s[i])
  {
    CountBounds(s, p);
    |Filter(s, p)|
  }

  lemma {:induction false} CountBounds<T>(s: seq<T>, p: T -> bool)
    ensures |Filter(s, p)| == 0 <==> forall i :: 0 <= i < |s| ==> !p(s[i])
    ensures |Filter(s, p)| == |s| <==> forall i :: 0 <= i < |s| ==> p(s[i])
  {
    if s != [] {
      CountBounds(s[1..], p);
      assert forall i :: 1 <= i < |s| ==> s[i] == s[1..][i - 1];
    }
  }

  /** Counting with a narrower predicate never gives more. */
  lemma CountNarrow<T>(s: seq<T>, p: T -> bool, q: T -> bool)
    requires forall i :: 0 <= i < |s| ==> p(s[i]) ==> q(s[i])
    ensures Count(s, p) <= Count(s, q)
  {
    FilterNarrow(s, p, q);
  }

  /** Counting by a predicate that is one of two exclusive ones adds their counts. */
  lemma {:induction false} CountDisjoint<T>(s: seq<T>, p: T -> bool, q: T -> bool, either: T -> bool)
    requires forall i :: 0 <= i < |s| ==> either(s[i]) == (p(s[i]) || q(s[i])) && !(p(s[i]) && q(s[i]))
    ensures Count(s, either) == Count(s, p) + Count(s, q)
  {
    if s != [] {
      CountDisjoint(s[1..], p, q, either);
    }
  }

  /**
   * When `p` implies `q`, the two counts are equal exactly when every entry
   * satisfying `q` also satisfies `p` (in particular when none satisfies `q`).
   */
  lemma CountSameIff<T>(s: seq<T>, p: T -> bool, q: T -> bool)
    requires forall i :: 0 <= i < |s| ==> p(s[i]) ==> q(s[i])
    ensures Count(s, p) == Count(s, q) <==> forall i :: 0 <= i < |s| && q(s[i]) ==> p(s[i])
  {
    FilterNarrow(s, p, q);
    var wide := Filter(s, q);
    CountBounds(wide, p);
    if forall i :: 0 <= i < |s| && q(s[i]) ==> p(s[i]) {
      forall j | 0 <= j < |wide| ensures p(wide[j]) {
        var i :| 0 <= i < |s| && s[i] == wide[j];
      }
    } else {
      var i :| 0 <= i < |s| && q(s[i]) && !p(s[i]);
      var j :| 0 <= j < |wide| && wide[j] == s[i];
    }
  }

  /** `s.slice(0, n)`. */
  function Take<T>(s: seq<T>, n: nat): (r: seq<T>)
    ensures |r| == if |s| < n then |s| else n
    ensures r == s[..|r|]
  {
    if |s| <= n then s else s[..n]
  }

  /** `s.reduce((sum, x) => sum + f(x), 0)`. */
  function Sum<T>(s: seq<T>, f: T -> int): int
  {
    if s == [] then 0 else f(s[0]) + Sum(s[1..], f)
  }

  /** A sum of non-negative terms is non-negative and at least each term. */
  lemma {:induction false} SumNonNegative<T>(s: seq<T>, f: T -> int)
    requires forall i :: 0 <= i < |s| ==> f(s[i]) >= 0
    ensures Sum(s, f) >= 0
    ensures forall i :: 0 <= i < |s| ==> f(s[i]) <= Sum(s, f)
  {
    if s != [] {
      SumNonNegative(s[1..], f);
      assert forall i :: 1 <= i < |s| ==> s[i] == s[1..][i - 1];
    }
  }

  /** A sum of `n` terms between `lo` and `hi` lies between `n * lo` and `n * hi`. */
  lemma {:induction false} SumBetween<T>(s: seq<T>, f: T -> int, lo: int, hi: int)
    requires forall i :: 0 <= i < |s| ==> lo <= f(s[i]) <= hi
    ensures |s| * lo <= Sum(s, f) <= |s| * hi
  {
    if s != [] {
      SumBetween(s[1..], f, lo, hi);
      assert |s| * lo == lo + (|s| - 1) * lo;
      assert |s| * hi == hi + (|s| - 1) * hi;
    }
  }

  /** The sum splits along a filter and its complement. */
  lemma {:induction false} SumPartition<T>(s: seq<T>, f: T -> int, p: T -> bool, q: T -> bool)
    requires forall i :: 0 <= i < |s| ==> q(s[i]) == !p(s[i])
    ensures Sum(Filter(s, p), f) + Sum(Filter(s, q), f) == Sum(s, f)
  {
    if s != [] {
      SumPartition(s[1..], f, p, q);
    }
  }

  ghost predicate NoDuplicates<T>(s: seq<T>)
  {
    forall i, j :: 0 <= i < j < |s| ==> s[i] != s[j]
  }

  /** Filtering a list without repeats gives a list without repeats. */
  lemma {:induction false} FilterNoDuplicates<T>(s: seq<T>, p: T -> bool)
    requires NoDuplicates(s)
    ensures NoDuplicates(Filter(s, p))
  {
    if s != [] {
      FilterNoDuplicates(s[1..], p);
      if p(s[0]) {
        var rest := Filter(s[1..], p);
        assert s[0] !in s[1..];
        forall j | 0 <= j < |rest| ensures rest[j] != s[0] {
          assert rest[j] in s[1..];
        }
      }
    }
  }

  /** The position of the first occurrence of `x` in `s`. */
  function FirstIndex<T(==)>(s: seq<T>, x: T): (k: nat)
    requires x in s
    ensures k < |s| && s[k] == x
    ensures forall i :: 0 <= i < k ==> s[i] != x
  {
    if s[0] == x then 0 else 1 + FirstIndex(s[1..], x)
  }

  lemma {:induction false} FirstIndexInPrefix<T>(s: seq<T>, n: nat, x: T)
    requires n <= |s| && x in s[..n]
    ensures x in s && FirstIndex(s, x) == FirstIndex(s[..n], x)
  {
    var k := FirstIndex(s[..n], x);
    assert s[k] == x;
    assert forall i :: 0 <= i < k ==> s[i] == s[..n][i];
  }

  /**
   * `[...new Set(s)]`: every value once, in the order of its first occurrence
   * (a JavaScript Set iterates in insertion order).
   */
  function Distinct<T(==)>(s: seq<T>): (r: seq<T>)
    ensures forall i :: 0 <= i < |r| ==> r[i] in s
    ensures forall i :: 0 <= i < |s| ==> s[i] in r
    ensures NoDuplicates(r)
  {
    if s == [] then []
    else
      var d := Distinct(s[..|s| - 1]);
      if s[|s| - 1] in d then d else d + [s[|s| - 1]]
  }

  /** The values of `Distinct(s)` come in the order of their first occurrence in `s`. */
  lemma {:induction false} DistinctFirstOccurrenceOrder<T>(s: seq<T>)
    ensures forall i, j :: 0 <= i < j < |Distinct(s)| ==>
      FirstIndex(s, Distinct(s)[i]) < FirstIndex(s, Distinct(s)[j])
  {
    if s != [] {
      var n := |s| - 1;
      var pre := s[..n];
      DistinctFirstOccurrenceOrder(pre);
      var d := Distinct(pre);
      var r := Distinct(s);
      forall i | 0 <= i < |d| ensures FirstIndex(s, d[i]) == FirstIndex(pre, d[i]) {
        assert d[i] in pre;
        FirstIndexInPrefix(s, n, d[i]);
      }
      if s[n] !in d {
        assert r == d + [s[n]];
        assert s[n] !in pre;
        assert FirstIndex(s, s[n]) == n by {
          assert forall k :: 0 <= k < n ==> s[k] == pre[k];
        }
        forall i, j | 0 <= i < j < |r|
          ensures FirstIndex(s, r[i]) < FirstIndex(s, r[j])
        {
          if j < |d| {
            assert r[i] == d[i] && r[j] == d[j];
          } else {
            assert r[i] == d[i];
            assert FirstIndex(pre, d[i]) < |pre|;
          }
        }
      }
    }
  }

  /**
   * `['all', ...new Set(values)]`: the choices of a filter drop-down, 'all'
   * first and then every value once, in the order it first occurs.
   */
  function WithAll(values: seq<string>): (r: seq<string>)
    ensures |r| >= 1 && r[0] == "all"
    ensures forall i :: 0 <= i < |values| ==> values[i] in r[1..]
    ensures forall i :: 1 <= i < |r| ==> r[i] in values
    ensures NoDuplicates(r[1..])
    ensures forall i, j :: 1 <= i < j < |r| ==> FirstIndex(values, r[i]) < FirstIndex(values, r[j])
  {
    DistinctFirstOccurrenceOrder(values);
    var d := Distinct(values);
    assert (["all"] + d)[1..] == d;
    ["all"] + d
  }

  /** `le` is a total preorder on the values in `s`: what a consistent sort comparator needs. */
  ghost predicate TotalPreorderOn<T>(s: seq<T>, le: (T, T) -> bool)
  {
    (forall a, b :: a in s && b in s ==> le(a, b) || le(b, a)) &&
    (forall a, b, c :: a in s && b in s && c in s && le(a, b) && le(b, c) ==> le(a, c))
  }

  ghost predicate SortedBy<T>(s: seq<T>, le: (T, T) -> bool)
  {
    forall i, j :: 0 <= i < j < |s| ==> le(s[i], s[j])
  }

  /** Insert `x` before the first entry it does not follow; earlier equal entries stay first. */
  function Insert<T>(x: T, s: seq<T>, le: (T, T) -> bool): (r: seq<T>)
    ensures multiset(r) == multiset(s) + multiset{x}
  {
    if s == [] then [x]
    else if le(x, s[0]) then [x] + s
    else
      assert s == [s[0]] + s[1..];
      [s[0]] + Insert(x, s[1..], le)
  }

  lemma {:induction false} InsertSorted<T>(x: T, s: seq<T>, le: (T, T) -> bool, all: seq<T>)
    requires x in all && forall y :: y in s ==> y in all
    requires TotalPreorderOn(all, le)
    requires SortedBy(s, le)
    ensures SortedBy(Insert(x, s, le), le)
  {
    if s != [] && !le(x, s[0]) {
      assert s[0] in all;
      InsertSorted(x, s[1..], le, all);
      var t := Insert(x, s[1..], le);
      var r := [s[0]] + t;
      forall k | 0 <= k < |t| ensures le(s[0], t[k]) {
        assert t[k] in multiset(t);
        assert t[k] in multiset(s[1..]) + multiset{x};
        if t[k] != x {
          assert t[k] in s[1..];
          var m :| 0 <= m < |s[1..]| && s[1..][m] == t[k];
          assert s[m + 1] == t[k];
        }
      }
      forall i, j | 0 <= i < j < |r| ensures le(r[i], r[j]) {
        if i > 0 {
          assert r[i] == t[i - 1] && r[j] == t[j - 1];
        } else {
          assert r[j] == t[j - 1];
        }
      }
    } else if s != [] {
      forall j | 0 < j < |s| ensures le(x, s[j]) {
        assert s[0] in all && s[j] in all;
      }
    }
  }

  /**
   * `[...s].sort(cmp)` for a consistent comparator: a stable insertion sort that
   * returns a sorted permutation of its input and leaves the input untouched.
   */
  function SortBy<T>(s: seq<T>, le: (T, T) -> bool): (r: seq<T>)
    requires TotalPreorderOn(s, le)
    ensures multiset(r) == multiset(s)
    ensures SortedBy(r, le)
  {
    if s == [] then []
    else
      assert s == [s[0]] + s[1..];
      var rest := SortBy(s[1..], le);
      SortedRestInAll(s, rest);
      InsertSorted(s[0], rest, le, s);
      Insert(s[0], rest, le)
  }

  lemma SortedRestInAll<T>(s: seq<T>, rest: seq<T>)
    requires s != [] && multiset(rest) == multiset(s[1..])
    ensures forall y :: y in rest ==> y in s
  {
    forall y | y in rest ensures y in s {
      assert y in multiset(rest);
      assert y in s[1..];
    }
  }

  /**
   * `[...s].sort(cmp).slice(0, k)`: at most `k` entries, in order, taken from
   * `s`; every entry left out comes after each entry kept.
   */
  function TopK<T>(s: seq<T>, le: (T, T) -> bool, k: nat): (r: seq<T>)
    requires TotalPreorderOn(s, le)
    ensures |r| == if |s| < k then |s| else k
    ensures SortedBy(r, le)
    ensures multiset(r) <= multiset(s)
    ensures forall x :: x in multiset(s) - multiset(r) ==> forall i :: 0 <= i < |r| ==> le(r[i], x)
  {
    var sorted := SortBy(s, le);
    assert |sorted| == |s| by { assert |multiset(sorted)| == |multiset(s)|; }
    TakeOfSorted(sorted, le, k);
    Take(sorted, k)
  }

  lemma TakeOfSorted<T>(sorted: seq<T>, le: (T, T) -> bool, k: nat)
    requires SortedBy(sorted, le)
    ensures SortedBy(Take(sorted, k), le)
    ensures multiset(Take(sorted, k)) <= multiset(sorted)
    ensures forall x :: x in multiset(sorted) - multiset(Take(sorted, k)) ==>
      forall i :: 0 <= i < |Take(sorted, k)| ==> le(Take(sorted, k)[i], x)
  {
    var r := Take(sorted, k);
    var rest := sorted[|r|..];
    assert sorted == r + rest;
    assert multiset(sorted) == multiset(r) + multiset(rest);
    forall x | x in multiset(sorted) - multiset(r) ensures forall i :: 0 <= i < |r| ==> le(r[i], x) {
      assert x in multiset(rest);
      var j :| 0 <= j < |rest| && rest[j] == x;
      assert sorted[|r| + j] == x;
    }
  }

  /** The entries `le` ranks level with `c`: ties of `c` in a sort. */
  function TiedWith<T>(le: (T, T) -> bool, c: T): T -> bool
  {
    (y: T) => le(c, y) && le(y, c)
  }

  /** Inserting `x` into a sorted list puts it before every entry it ties with. */
  lemma {:induction false} InsertStable<T>(x: T, s: seq<T>, le: (T, T) -> bool, c: T, all: seq<T>)
    requires TotalPreorderOn(all, le)
    requires x in all && c in all && forall y :: y in s ==> y in all
    ensures Filter(Insert(x, s, le), TiedWith(le, c)) ==
      (if TiedWith(le, c)(x) then [x] else []) + Filter(s, TiedWith(le, c))
  {
    var e := TiedWith(le, c);
    if s == [] {
    } else if le(x, s[0]) {
      assert ([x] + s)[1..] == s;
    } else {
      var t := Insert(x, s[1..], le);
      InsertStable(x, s[1..], le, c, all);
      assert ([s[0]] + t)[1..] == t;
      var h := s[0];
      assert h in all;
      // a tie of `c` ranked after `x` would make `x` rank no later than it
      assert le(x, c) && le(c, h) ==> le(x, h);
      assert e(x) ==> !e(h);
    }
  }

  /**
   * The sort is stable: the entries tied with any `c` keep the relative order
   * they had in `s`, as `Array.prototype.sort` guarantees.
   */
  lemma {:induction false} SortByStable<T>(s: seq<T>, le: (T, T) -> bool, c: T, all: seq<T>)
    requires TotalPreorderOn(all, le) && TotalPreorderOn(s, le)
    requires c in all && forall y :: y in s ==> y in all
    ensures Filter(SortBy(s, le), TiedWith(le, c)) == Filter(s, TiedWith(le, c))
  {
    if s != [] {
      assert s == [s[0]] + s[1..];
      var rest := SortBy(s[1..], le);
      SortByStable(s[1..], le, c, all);
      SortedRestInAll(s, rest);
      InsertStable(s[0], rest, le, c, all);
    }
  }

  /**
   * A predicate `p` that picks out one tie of `le`: what the top `k` keep of
   * that tie is a prefix of it in input order, since the sort is stable.
   */
  lemma TopKStable<T>(s: seq<T>, le: (T, T) -> bool, k: nat, p: T -> bool)
    requires TotalPreorderOn(s, le)
    requires forall x, y :: x in s && y in s && p(x) ==> (p(y) <==> le(x, y) && le(y, x))
    ensures Filter(TopK(s, le, k), p) <= Filter(s, p)
  {
    var sorted := SortBy(s, le);
    assert |sorted| == |s| by { assert |multiset(sorted)| == |multiset(s)|; }
    var r := Take(sorted, k);
    assert sorted == r + sorted[|r|..];
    FilterAppend(r, sorted[|r|..], p);
    forall i | 0 <= i < |sorted| ensures sorted[i] in s {
      assert sorted[i] in multiset(sorted);
    }
    if c :| c in s && p(c) {
      SortByStable(s, le, c, s);
      FilterCongruent(s, p, TiedWith(le, c));
      FilterCongruent(sorted, p, TiedWith(le, c));
    } else {
      FilterNone(s, p);
      FilterNone(sorted, p);
    }
  }

  /** A comparator that finds every pair equal leaves the order as it was. */
  lemma {:induction false} SortByAllEqual<T>(s: seq<T>, le: (T, T) -> bool)
    requires forall a, b :: le(a, b)
    ensures SortBy(s, le) == s
  {
    if s != [] {
      SortByAllEqual(s[1..], le);
      assert s == [s[0]] + s[1..];
    }
  }
}
