/** Sequence operations shared by the models: filtering (list comprehensions, SQL `WHERE`),
    counting (`sum(1 for ...)`) and Python's stable `sorted(..., key=...)`. */
module Seqs {

  /** `[x for x in s if p(x)]`. */
  function Filter<T>(s: seq<T>, p: T -> bool): (r: seq<T>)
    ensures |r| <= |s|
    ensures forall k :: 0 <= k < |r| ==> p(r[k])
    ensures forall k :: 0 <= k < |s| && p(s[k]) ==> s[k] in r
    ensures forall k :: 0 <= k < |r| ==> r[k] in s
  {
    if |s| == 0 then []
    else
      assert s == [s[0]] + s[1..];
      if p(s[0]) then [s[0]] + Filter(s[1..], p) else Filter(s[1..], p)
  }

  /** Filtering only removes: every element is kept at most as often as it occurs. */
  lemma {:induction false} FilterMultiset<T>(s: seq<T>, p: T -> bool)
    ensures multiset(Filter(s, p)) <= multiset(s)
  {
    if |s| > 0 {
      assert s == [s[0]] + s[1..];
      FilterMultiset(s[1..], p);
    }
  }

  /** Filtering twice by the same condition removes nothing more. */
  lemma {:induction false} FilterIdempotent<T>(s: seq<T>, p: T -> bool)
    ensures Filter(Filter(s, p), p) == Filter(s, p)
  {
    if |s| > 0 {
      FilterIdempotent(s[1..], p);
      if p(s[0]) {
        assert ([s[0]] + Filter(s[1..], p))[1..] == Filter(s[1..], p);
      }
    }
  }

  lemma {:induction false} FilterAppend<T>(a: seq<T>, b: seq<T>, p: T -> bool)
    ensures Filter(a + b, p) == Filter(a, p) + Filter(b, p)
  {
    if |a| > 0 {
      assert (a + b)[1..] == a[1..] + b;
      FilterAppend(a[1..], b, p);
    } else {
      assert a + b == b;
    }
  }

  /** Filtering keeps every element that passes: nothing passing is lost. */
  lemma {:induction false} FilterAll<T>(s: seq<T>, p: T -> bool)
    requires forall k :: 0 <= k < |s| ==> p(s[k])
    ensures Filter(s, p) == s
  {
    if |s| > 0 {
      FilterAll(s[1..], p);
    }
  }

  /** `sum(1 for x in s if p(x))`. */
  function Count<T>(s: seq<T>, p: T -> bool): (n: nat)
    ensures n <= |s|
    ensures n == |s| <==> forall k :: 0 <= k < |s| ==> p(s[k])
    ensures n == 0 <==> forall k :: 0 <= k < |s| ==> !p(s[k])
  {
    if |s| == 0 then 0
    else
      var rest := Count(s[1..], p);
      assert forall k :: 1 <= k < |s| ==> s[1..][k - 1] == s[k];
      (if p(s[0]) then 1 else 0) + rest
  }

  /** Every element satisfies exactly one of two complementary predicates. */
  lemma {:induction false} CountComplement<T>(s: seq<T>, p: T -> bool, q: T -> bool)
    requires forall x :: q(x) <==> !p(x)
    ensures Count(s, p) + Count(s, q) == |s|
  {
    if |s| > 0 {
      CountComplement(s[1..], p, q);
    }
  }

  predicate SortedBy<T>(s: seq<T>, key: T -> int) {
    forall i, j :: 0 <= i < j < |s| ==> key(s[i]) <= key(s[j])
  }

  /** Inserts `x` before the first element whose key is not smaller, so that
      an element taken from earlier in the input stays before equal keys. */
  function Insert<T>(x: T, s: seq<T>, key: T -> int): (r: seq<T>)
    requires SortedBy(s, key)
    ensures SortedBy(r, key)
    ensures multiset(r) == multiset(s) + multiset{x}
    ensures |r| == |s| + 1
  {
    if |s| == 0 || key(x) <= key(s[0]) then [x] + s
    else
      var rest := Insert(x, s[1..], key);
      assert s == [s[0]] + s[1..];
      HeadBelowInsert(x, s, key, rest);
      [s[0]] + rest
  }

  /** Putting the head of a sorted sequence before the insertion into its tail keeps the
      order, when `x` does not go first. */
  lemma HeadBelowInsert<T>(x: T, s: seq<T>, key: T -> int, rest: seq<T>)
    requires SortedBy(s, key) && |s| > 0 && key(s[0]) < key(x)
    requires SortedBy(rest, key) && multiset(rest) == multiset(s[1..]) + multiset{x}
    ensures SortedBy([s[0]] + rest, key)
  {
    forall k | 0 <= k < |rest|
      ensures key(s[0]) <= key(rest[k])
    {
      assert rest[k] in multiset(rest);
      if rest[k] != x {
        assert rest[k] in multiset(s[1..]);
        var j :| 0 <= j < |s[1..]| && s[1..][j] == rest[k];
        assert s[j + 1] == rest[k];
      }
    }
    var r := [s[0]] + rest;
    forall i, j | 0 <= i < j < |r| ensures key(r[i]) <= key(r[j]) {
      if i > 0 {
        assert r[i] == rest[i - 1] && r[j] == rest[j - 1];
      } else {
        assert r[j] == rest[j - 1];
      }
    }
  }

  /** Python's `sorted(s, key=key)`: a stable sort by ascending key. */
  function SortBy<T>(s: seq<T>, key: T -> int): (r: seq<T>)
    ensures SortedBy(r, key)
    ensures multiset(r) == multiset(s)
    ensures |r| == |s|
  {
    if |s| == 0 then []
    else
      assert s == [s[0]] + s[1..];
      Insert(s[0], SortBy(s[1..], key), key)
  }

  /** The elements whose key is `v`. */
  function KeyIs<T>(key: T -> int, v: int): T -> bool {
    x => key(x) == v
  }

  /** `x` goes before every element of `s` with its key. */
  lemma {:induction false} FilterInsert<T>(x: T, s: seq<T>, key: T -> int, v: int)
    requires SortedBy(s, key)
    ensures Filter(Insert(x, s, key), KeyIs(key, v))
            == (if key(x) == v then [x] else []) + Filter(s, KeyIs(key, v))
  {
    if |s| == 0 || key(x) <= key(s[0]) {
      assert ([x] + s)[1..] == s;
    } else {
      var rest := Insert(x, s[1..], key);
      assert ([s[0]] + rest)[1..] == rest;
      FilterInsert(x, s[1..], key, v);
    }
  }

  /** `SortBy` is stable: the elements with any one key keep their input order. */
  lemma {:induction false} SortByStable<T>(s: seq<T>, key: T -> int, v: int)
    ensures Filter(SortBy(s, key), KeyIs(key, v)) == Filter(s, KeyIs(key, v))
  {
    if |s| > 0 {
      SortByStable(s[1..], key, v);
      FilterInsert(s[0], SortBy(s[1..], key), key, v);
    }
  }

  /** `rel` holds between every element and every later one. */
  predicate Pairwise<T>(s: seq<T>, rel: (T, T) -> bool) {
    forall i, j :: 0 <= i < j < |s| ==> rel(s[i], s[j])
  }

  /** Filtering keeps the relative order of what it keeps, so a relation between earlier
      and later elements survives it. */
  lemma {:induction false} FilterPairwise<T>(s: seq<T>, p: T -> bool, rel: (T, T) -> bool)
    requires Pairwise(s, rel)
    ensures Pairwise(Filter(s, p), rel)
  {
    if |s| > 0 {
      var tail := s[1..];
      assert Pairwise(tail, rel) by {
        forall i, j | 0 <= i < j < |tail| ensures rel(tail[i], tail[j]) {
          assert tail[i] == s[i + 1] && tail[j] == s[j + 1];
        }
      }
      FilterPairwise(tail, p, rel);
      if p(s[0]) {
        var rest := Filter(tail, p);
        var r := [s[0]] + rest;
        forall i, j | 0 <= i < j < |r| ensures rel(r[i], r[j]) {
          if i == 0 {
            assert r[j] == rest[j - 1];
            assert rest[j - 1] in tail;
            var m :| 0 <= m < |tail| && tail[m] == rest[j - 1];
            assert s[m + 1] == r[j];
          } else {
            assert r[i] == rest[i - 1] && r[j] == rest[j - 1];
          }
        }
      }
    }
  }

  /** Whatever holds of every element holds of every element a filter keeps. */
  lemma FilterKeepsProperty<T>(s: seq<T>, p: T -> bool, q: T -> bool)
    requires forall k :: 0 <= k < |s| ==> q(s[k])
    ensures forall k :: 0 <= k < |Filter(s, p)| ==> q(Filter(s, p)[k])
  {
    var r := Filter(s, p);
    forall k | 0 <= k < |r| ensures q(r[k]) {
      assert r[k] in s;
      var j :| 0 <= j < |s| && s[j] == r[k];
    }
  }

  /** Appending an element related to every earlier one keeps a pairwise relation. */
  lemma PairwiseAppend<T>(s: seq<T>, x: T, rel: (T, T) -> bool)
    requires Pairwise(s, rel)
    requires forall k :: 0 <= k < |s| ==> rel(s[k], x)
    ensures Pairwise(s + [x], rel)
  {
    var r := s + [x];
    forall i, j | 0 <= i < j < |r| ensures rel(r[i], r[j]) {
      assert r[i] == s[i];
    }
  }

  /** `s[:n]` for n >= 0, or all of `s` when n is negative (SQL's `LIMIT`). */
  function Limit<T>(s: seq<T>, limit: int): (r: seq<T>)
    ensures |r| <= |s| && forall k :: 0 <= k < |r| ==> r[k] == s[k]
    ensures limit >= 0 ==> |r| == if limit < |s| then limit else |s|
    ensures limit < 0 ==> r == s
    ensures multiset(r) <= multiset(s)
  {
    if 0 <= limit < |s| then
      assert s == s[..limit] + s[limit..];
      s[..limit]
    else s
  }

  /** An element a filter keeps passes the filter. */
  lemma FilterMember<T>(s: seq<T>, p: T -> bool, x: T)
    requires x in Filter(s, p)
    ensures p(x) && x in s
  {
    var r := Filter(s, p);
    var k :| 0 <= k < |r| && r[k] == x;
  }

  /** `SELECT ... WHERE p ORDER BY key LIMIT limit`: the rows passing `p`, stably sorted by
      ascending key, cut to `limit` rows unless the limit is negative. */
  function Select<T>(s: seq<T>, p: T -> bool, key: T -> int, limit: int): (r: seq<T>)
    ensures forall k :: 0 <= k < |r| ==> p(r[k]) && r[k] in s
    ensures SortedBy(r, key)
    ensures limit >= 0 ==> |r| <= limit
    ensures multiset(r) <= multiset(Filter(s, p))
    ensures limit < 0 || Count(s, p) <= limit ==> multiset(r) == multiset(Filter(s, p))
    ensures limit >= 0 ==> |r| == if Count(s, p) < limit then Count(s, p) else limit
    ensures forall x | x in multiset(Filter(s, p)) - multiset(r) ::
      forall k :: 0 <= k < |r| ==> key(r[k]) <= key(x)
  {
    var sorted := SortBy(Filter(s, p), key);
    LimitKeepsLeast(sorted, key, limit);
    SelectMembers(s, p, sorted, Limit(sorted, limit));
    SelectLength(s, p);
    Limit(sorted, limit)
  }

  /** What a selection keeps passes the filter and comes from the input. */
  lemma SelectMembers<T>(s: seq<T>, p: T -> bool, sorted: seq<T>, r: seq<T>)
    requires multiset(sorted) == multiset(Filter(s, p))
    requires multiset(r) <= multiset(sorted)
    ensures forall k :: 0 <= k < |r| ==> p(r[k]) && r[k] in s
  {
    forall k | 0 <= k < |r| ensures p(r[k]) && r[k] in s {
      assert r[k] in multiset(r);
      assert r[k] in multiset(Filter(s, p));
      FilterMember(s, p, r[k]);
    }
  }

  /** Cutting a sorted sequence leaves out nothing that sorts before what it keeps. */
  lemma LimitKeepsLeast<T>(s: seq<T>, key: T -> int, limit: int)
    requires SortedBy(s, key)
    ensures var r := Limit(s, limit);
      forall x | x in multiset(s) - multiset(r) :: forall k :: 0 <= k < |r| ==> key(r[k]) <= key(x)
  {
    var r := Limit(s, limit);
    assert r == s[..|r|];
    PrefixKeepsLeast(s, key, |r|);
  }

  lemma PrefixKeepsLeast<T>(s: seq<T>, key: T -> int, n: nat)
    requires SortedBy(s, key) && n <= |s|
    ensures forall x | x in multiset(s) - multiset(s[..n]) :: forall k :: 0 <= k < n ==> key(s[k]) <= key(x)
  {
    assert s == s[..n] + s[n..];
    assert multiset(s) == multiset(s[..n]) + multiset(s[n..]);
    forall x | x in multiset(s) - multiset(s[..n]) ensures forall k :: 0 <= k < n ==> key(s[k]) <= key(x) {
      assert x in multiset(s[n..]);
      var m :| 0 <= m < |s[n..]| && s[n..][m] == x;
      assert s[n + m] == x;
    }
  }

  lemma {:induction false} SelectLength<T>(s: seq<T>, p: T -> bool)
    ensures |Filter(s, p)| == Count(s, p)
  {
    if |s| > 0 {
      SelectLength(s[1..], p);
    }
  }

  /** `Filter` of a non-empty sequence, split off at its last element. */
  lemma {:induction false} FilterLast<T>(s: seq<T>, p: T -> bool)
    requires |s| > 0
    ensures Filter(s, p) == Filter(s[..|s| - 1], p) + if p(s[|s| - 1]) then [s[|s| - 1]] else []
  {
    var init := s[..|s| - 1];
    if |s| == 1 {
      assert init == [] && s[1..] == [];
    } else {
      var tail := s[1..];
      FilterLast(tail, p);
      assert tail[..|tail| - 1] == init[1..];
      assert tail[|tail| - 1] == s[|s| - 1];
      assert init[0] == s[0];
    }
  }

  lemma FilterSnoc<T>(s: seq<T>, x: T, p: T -> bool)
    ensures Filter(s + [x], p) == Filter(s, p) + if p(x) then [x] else []
  {
    FilterAppend(s, [x], p);
    assert Filter([x], p) == (if p(x) then [x] else []) by {
      assert [x][1..] == [];
    }
  }

  predicate NoDuplicates<T(==)>(s: seq<T>) {
    forall i, j :: 0 <= i < j < |s| ==> s[i] != s[j]
  }

  /** `list(set(s))`: every element of `s` once. Python leaves the order of a set
      unspecified; this keeps first occurrences in order. */
  function Dedupe<T(==)>(s: seq<T>): (r: seq<T>)
    ensures NoDuplicates(r)
    ensures forall k :: 0 <= k < |s| ==> s[k] in r
    ensures forall k :: 0 <= k < |r| ==> r[k] in s
    ensures |r| <= |s|
  {
    if |s| == 0 then []
    else
      var init := s[..|s| - 1];
      var last := s[|s| - 1];
      assert s == init + [last];
      var r := Dedupe(init);
      if last in r then r else r + [last]
  }

  /** Deduplicating one more element adds it at the end unless it was already there. */
  lemma DedupeSnoc<T>(s: seq<T>, x: T)
    ensures Dedupe(s + [x]) == if x in Dedupe(s) then Dedupe(s) else Dedupe(s) + [x]
  {
    assert (s + [x])[..|s|] == s;
  }

  /** Without repeats, every element occurs at most once. */
  lemma {:induction false} NoDuplicatesCount<T>(s: seq<T>, x: T)
    requires NoDuplicates(s)
    ensures multiset(s)[x] <= 1
  {
    if |s| > 0 {
      var tail := s[1..];
      assert s == [s[0]] + tail;
      assert NoDuplicates(tail) by {
        forall i, j | 0 <= i < j < |tail| ensures tail[i] != tail[j] {
          assert tail[i] == s[i + 1] && tail[j] == s[j + 1];
        }
      }
      NoDuplicatesCount(tail, x);
      if s[0] == x {
        forall k | 0 <= k < |tail| ensures tail[k] != x {
          assert tail[k] == s[k + 1];
        }
        assert multiset(tail)[x] == 0;
      }
    }
  }

  /** A rearrangement of a sequence without repeats has none either. */
  lemma NoDuplicatesPermutation<T>(a: seq<T>, b: seq<T>)
    requires multiset(a) == multiset(b)
    requires NoDuplicates(a)
    ensures NoDuplicates(b)
  {
    forall i, j | 0 <= i < j < |b| ensures b[i] != b[j] {
      var x := b[j];
      NoDuplicatesCount(a, x);
      assert b == b[..j] + [x] + b[j + 1..];
      assert multiset(b)[x] == multiset(b[..j])[x] + 1 + multiset(b[j + 1..])[x];
      assert b[..j][i] == b[i];
      assert b[i] in multiset(b[..j]);
    }
  }

  /** A sequence without repeats has as many distinct elements as it is long. */
  lemma {:induction false} NoDuplicatesSize<T>(s: seq<T>)
    requires NoDuplicates(s)
    ensures |set x | x in s| == |s|
  {
    if |s| > 0 {
      var init := s[..|s| - 1];
      var last := s[|s| - 1];
      assert s == init + [last];
      assert NoDuplicates(init) by {
        forall i, j | 0 <= i < j < |init| ensures init[i] != init[j] {
          assert init[i] == s[i] && init[j] == s[j];
        }
      }
      NoDuplicatesSize(init);
      assert last !in init by {
        forall k | 0 <= k < |init| ensures init[k] != last {
          assert init[k] == s[k];
        }
      }
      assert (set x | x in s) == (set x | x in init) + {last};
    }
  }

  /** Filtering keeps a sequence free of repeats. */
  lemma FilterNoDuplicates<T>(s: seq<T>, p: T -> bool)
    requires NoDuplicates(s)
    ensures NoDuplicates(Filter(s, p))
  {
    var differ := (x: T, y: T) => x != y;
    assert Pairwise(s, differ);
    FilterPairwise(s, p, differ);
  }

  /** Filtering by `p` and then by `q` is filtering by their conjunction. */
  lemma {:induction false} FilterTwice<T>(s: seq<T>, p: T -> bool, q: T -> bool, both: T -> bool)
    requires forall x :: both(x) == (p(x) && q(x))
    ensures Filter(Filter(s, p), q) == Filter(s, both)
  {
    if |s| > 0 {
      FilterTwice(s[1..], p, q, both);
      if p(s[0]) {
        assert ([s[0]] + Filter(s[1..], p))[1..] == Filter(s[1..], p);
      }
    }
  }

  /** `less` is a strict total order: irreflexive, transitive, and any two distinct
      elements are comparable. */
  ghost predicate StrictTotalOrder<T(!new)>(less: (T, T) -> bool) {
    && (forall x :: !less(x, x))
    && (forall x, y, z :: less(x, y) && less(y, z) ==> less(x, z))
    && (forall x, y :: less(x, y) || x == y || less(y, x))
  }

  /** Python's `<` on lists (and on `str`, a list of code points): the first position where
      the two differ decides, and a proper prefix comes first. */
  predicate LexLess<T(==)>(a: seq<T>, b: seq<T>, less: (T, T) -> bool) {
    |b| > 0 && (|a| == 0 || less(a[0], b[0]) || (a[0] == b[0] && LexLess(a[1..], b[1..], less)))
  }

  lemma {:induction false} LexIrreflexive<T(!new)>(a: seq<T>, less: (T, T) -> bool)
    requires StrictTotalOrder(less)
    ensures !LexLess(a, a, less)
  {
    if |a| > 0 {
      LexIrreflexive(a[1..], less);
    }
  }

  lemma {:induction false} LexTransitive<T(!new)>(a: seq<T>, b: seq<T>, c: seq<T>, less: (T, T) -> bool)
    requires StrictTotalOrder(less)
    requires LexLess(a, b, less) && LexLess(b, c, less)
    ensures LexLess(a, c, less)
  {
    if |a| > 0 && a[0] == b[0] && b[0] == c[0] {
      LexTransitive(a[1..], b[1..], c[1..], less);
    }
  }

  lemma {:induction false} LexTotal<T(!new)>(a: seq<T>, b: seq<T>, less: (T, T) -> bool)
    requires StrictTotalOrder(less)
    ensures LexLess(a, b, less) || a == b || LexLess(b, a, less)
  {
    if |a| > 0 && |b| > 0 && a[0] == b[0] {
      LexTotal(a[1..], b[1..], less);
      if a[1..] == b[1..] {
        assert a == [a[0]] + a[1..] && b == [b[0]] + b[1..];
      }
    }
  }

  /** The lexicographic extension of a strict total order is one. */
  lemma LexOrder<T(!new)>(less: (T, T) -> bool)
    requires StrictTotalOrder(less)
    ensures forall a :: !LexLess(a, a, less)
    ensures forall a, b, c :: LexLess(a, b, less) && LexLess(b, c, less) ==> LexLess(a, c, less)
    ensures forall a, b :: LexLess(a, b, less) || a == b || LexLess(b, a, less)
  {
    forall a ensures !LexLess(a, a, less) {
      LexIrreflexive(a, less);
    }
    forall a, b, c | LexLess(a, b, less) && LexLess(b, c, less) ensures LexLess(a, c, less) {
      LexTransitive(a, b, c, less);
    }
    forall a, b ensures LexLess(a, b, less) || a == b || LexLess(b, a, less) {
      LexTotal(a, b, less);
    }
  }

  /** No element comes after a later one, comparing keys by `less`. */
  predicate SortedOn<T, K>(s: seq<T>, key: T -> K, less: (K, K) -> bool) {
    forall i, j :: 0 <= i < j < |s| ==> !less(key(s[j]), key(s[i]))
  }

  /** Inserts `x` before the first element whose key does not come before its own. */
  function InsertOn<T, K(==,!new)>(x: T, s: seq<T>, key: T -> K, less: (K, K) -> bool): (r: seq<T>)
    requires StrictTotalOrder(less) && SortedOn(s, key, less)
    ensures SortedOn(r, key, less)
    ensures multiset(r) == multiset(s) + multiset{x}
    ensures |r| == |s| + 1
  {
    if |s| == 0 || !less(key(s[0]), key(x)) then
      FirstOn(x, s, key, less);
      [x] + s
    else
      var rest := InsertOn(x, s[1..], key, less);
      assert s == [s[0]] + s[1..];
      HeadBeforeInsertOn(x, s, key, less, rest);
      [s[0]] + rest
  }

  /** `x` may go first when the head of the sorted sequence does not come before it. */
  lemma FirstOn<T, K(!new)>(x: T, s: seq<T>, key: T -> K, less: (K, K) -> bool)
    requires StrictTotalOrder(less) && SortedOn(s, key, less)
    requires |s| == 0 || !less(key(s[0]), key(x))
    ensures SortedOn([x] + s, key, less)
  {
    var r := [x] + s;
    forall i, j | 0 <= i < j < |r| ensures !less(key(r[j]), key(r[i])) {
      assert r[j] == s[j - 1];
      if i == 0 && j > 1 {
        assert !less(key(s[j - 1]), key(s[0]));
      }
    }
  }

  /** Putting the head of a sorted sequence before the insertion into its tail keeps the
      order, when `x` does not go first. */
  lemma HeadBeforeInsertOn<T, K(!new)>(x: T, s: seq<T>, key: T -> K, less: (K, K) -> bool, rest: seq<T>)
    requires StrictTotalOrder(less) && SortedOn(s, key, less) && |s| > 0 && less(key(s[0]), key(x))
    requires SortedOn(rest, key, less) && multiset(rest) == multiset(s[1..]) + multiset{x}
    ensures SortedOn([s[0]] + rest, key, less)
  {
    forall k | 0 <= k < |rest|
      ensures !less(key(rest[k]), key(s[0]))
    {
      assert rest[k] in multiset(rest);
      if rest[k] != x {
        assert rest[k] in multiset(s[1..]);
        var j :| 0 <= j < |s[1..]| && s[1..][j] == rest[k];
        assert s[j + 1] == rest[k];
      }
    }
    var r := [s[0]] + rest;
    forall i, j | 0 <= i < j < |r| ensures !less(key(r[j]), key(r[i])) {
      if i > 0 {
        assert r[i] == rest[i - 1] && r[j] == rest[j - 1];
      } else {
        assert r[j] == rest[j - 1];
      }
    }
  }

  /** Python's `sorted(s)` for elements ordered by `less` on their keys: an insertion sort. */
  function SortOn<T, K(==,!new)>(s: seq<T>, key: T -> K, less: (K, K) -> bool): (r: seq<T>)
    requires StrictTotalOrder(less)
    ensures SortedOn(r, key, less)
    ensures multiset(r) == multiset(s)
    ensures |r| == |s|
  {
    if |s| == 0 then []
    else
      assert s == [s[0]] + s[1..];
      InsertOn(s[0], SortOn(s[1..], key, less), key, less)
  }
}
