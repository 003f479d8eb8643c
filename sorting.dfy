/** Python's `sorted(xs, key=...)` as a stable insertion sort under a total
    preorder, and the duplicate removal that `set(xs)` performs before a
    sort. The source only relies on the result being ordered and holding the
    same elements; where a key ties two elements, the order among them is not
    claimed. The module also holds the sequence reversal that a stack read
    from the top needs. */
module Sorting {

  /** `le` is total and transitive: a valid ordering for `sorted`. */
  ghost predicate TotalPreorder<T(!new)>(le: (T, T) -> bool) {
    && (forall x, y :: le(x, y) || le(y, x))
    && (forall x, y, z :: le(x, y) && le(y, z) ==> le(x, z))
  }

  ghost predicate SortedBy<T>(s: seq<T>, le: (T, T) -> bool) {
    forall i, j :: 0 <= i < j < |s| ==> le(s[i], s[j])
  }

  predicate Distinct<T(==)>(s: seq<T>) {
    forall i, j :: 0 <= i < j < |s| ==> s[i] != s[j]
  }

  function Insert<T(!new)>(x: T, s: seq<T>, le: (T, T) -> bool): (r: seq<T>)
    requires TotalPreorder(le) && SortedBy(s, le)
    ensures multiset(r) == multiset(s) + multiset{x}
    ensures SortedBy(r, le)
  {
    if s == [] then [x]
    else if le(x, s[0]) then [x] + s
    else
      var rest := Insert(x, s[1..], le);
      assert s == [s[0]] + s[1..];
      assert forall k :: 0 <= k < |rest| ==> le(s[0], rest[k]) by {
        forall k | 0 <= k < |rest| ensures le(s[0], rest[k]) {
          assert rest[k] in multiset(rest);
          assert rest[k] == x || rest[k] in multiset(s[1..]);
        }
      }
      [s[0]] + rest
  }

  /** `sorted(s, key=...)`: an ordered permutation of `s`. */
  function Sort<T(!new)>(s: seq<T>, le: (T, T) -> bool): (r: seq<T>)
    requires TotalPreorder(le)
    ensures multiset(r) == multiset(s)
    ensures SortedBy(r, le)
  {
    if s == [] then []
    else
      assert s == [s[0]] + s[1..];
      Insert(s[0], Sort(s[1..], le), le)
  }

  /** The elements of `s` in order of first occurrence, each once: Python's
      `set(s)` iterated in insertion order. */
  function Dedup<T(==,!new)>(s: seq<T>): (r: seq<T>)
    ensures forall x :: x in r <==> x in s
    ensures Distinct(r)
  {
    if s == [] then []
    else
      var p := Dedup(s[..|s| - 1]);
      assert s == s[..|s| - 1] + [s[|s| - 1]];
      if s[|s| - 1] in p then p else p + [s[|s| - 1]]
  }

  /** A sequence is duplicate-free exactly when no element occurs twice in its multiset. */
  lemma {:induction false} DistinctIffSingleCounts<T>(s: seq<T>)
    ensures Distinct(s) <==> forall x :: multiset(s)[x] <= 1
  {
    if s != [] {
      var p, last := s[..|s| - 1], s[|s| - 1];
      assert s == p + [last];
      DistinctIffSingleCounts(p);
      assert multiset(s) == multiset(p) + multiset{last};
      if Distinct(s) {
        assert Distinct(p);
        assert last !in p;
      }
      if forall x :: multiset(s)[x] <= 1 {
        assert forall x :: multiset(p)[x] <= 1 by {
          forall x ensures multiset(p)[x] <= 1 { assert multiset(s)[x] >= multiset(p)[x]; }
        }
        assert multiset(p)[last] == 0 by { assert multiset(s)[last] == multiset(p)[last] + 1; }
        forall i, j | 0 <= i < j < |s| ensures s[i] != s[j] {
          if j < |s| - 1 {
            assert s[i] == p[i] && s[j] == p[j];
          } else {
            assert s[i] == p[i] && s[i] in p;
          }
        }
      }
    }
  }

  /** Reordering a duplicate-free sequence keeps it duplicate-free. */
  lemma PermutationKeepsDistinct<T>(a: seq<T>, b: seq<T>)
    requires multiset(a) == multiset(b) && Distinct(a)
    ensures Distinct(b)
  {
    DistinctIffSingleCounts(a);
    DistinctIffSingleCounts(b);
  }

  /** The same, stated for any sequence: reordering never introduces duplicates. */
  lemma PermutationKeepsDistinctIf<T>(a: seq<T>, b: seq<T>)
    requires multiset(a) == multiset(b)
    ensures Distinct(a) ==> Distinct(b)
  {
    if Distinct(a) {
      PermutationKeepsDistinct(a, b);
    }
  }

  /** `sub` is `s` with some entries left out and the rest in their order. */
  ghost predicate Subsequence<T>(sub: seq<T>, s: seq<T>)
    decreases |s|
  {
    if sub == [] then true
    else if s == [] then false
    else (sub[0] == s[0] && Subsequence(sub[1..], s[1..])) || Subsequence(sub, s[1..])
  }

  /** `sorted(set(s), key=...)`: ordered, duplicate-free, the same elements as `s`. */
  function SortedSet<T(==,!new)>(s: seq<T>, le: (T, T) -> bool): (r: seq<T>)
    requires TotalPreorder(le)
    ensures SortedBy(r, le) && Distinct(r)
    ensures forall x :: x in r <==> x in s
  {
    var d := Dedup(s);
    var r := Sort(d, le);
    PermutationKeepsDistinct(d, r);
    assert forall x :: x in r <==> x in multiset(d);
    r
  }

  /** Sum of a weight over a sequence. */
  function SumBy<T>(s: seq<T>, w: T -> int): int {
    if s == [] then 0 else w(s[0]) + SumBy(s[1..], w)
  }

  lemma {:induction false} SumByInsert<T(!new)>(x: T, s: seq<T>, le: (T, T) -> bool, w: T -> int)
    requires TotalPreorder(le) && SortedBy(s, le)
    ensures SumBy(Insert(x, s, le), w) == w(x) + SumBy(s, w)
  {
    if s != [] && !le(x, s[0]) {
      SumByInsert(x, s[1..], le, w);
      assert Insert(x, s, le)[1..] == Insert(x, s[1..], le);
    }
  }

  /** Sorting does not change the sum of a weight. */
  lemma {:induction false} SumBySort<T(!new)>(s: seq<T>, le: (T, T) -> bool, w: T -> int)
    requires TotalPreorder(le)
    ensures SumBy(Sort(s, le), w) == SumBy(s, w)
  {
    if s != [] {
      SumBySort(s[1..], le, w);
      SumByInsert(s[0], Sort(s[1..], le), le, w);
    }
  }

  lemma {:induction false} SumByAppend<T>(a: seq<T>, b: seq<T>, w: T -> int)
    ensures SumBy(a + b, w) == SumBy(a, w) + SumBy(b, w)
  {
    if a != [] {
      SumByAppend(a[1..], b, w);
      assert (a + b)[1..] == a[1..] + b;
    } else {
      assert a + b == b;
    }
  }

  /** Replacing one element changes the sum by the difference of weights. */
  lemma {:induction false} SumByUpdate<T>(s: seq<T>, j: nat, v: T, w: T -> int)
    requires j < |s|
    ensures SumBy(s[j := v], w) == SumBy(s, w) - w(s[j]) + w(v)
  {
    if j > 0 {
      SumByUpdate(s[1..], j - 1, v, w);
      assert s[j := v][1..] == s[1..][j - 1 := v];
    }
  }

  /** `list(reversed(s))` */
  function Reversed<T>(s: seq<T>): (r: seq<T>)
    ensures |r| == |s|
  {
    if s == [] then [] else Reversed(s[1..]) + [s[0]]
  }

  lemma {:induction false} ReversedSnoc<T>(s: seq<T>, x: T)
    ensures Reversed(s + [x]) == [x] + Reversed(s)
  {
    if s != [] {
      assert (s + [x])[1..] == s[1..] + [x];
      ReversedSnoc(s[1..], x);
    }
  }
}
