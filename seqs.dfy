/**
 * Sequence helpers for the list and DataFrame work in the source: boolean
 * masks (order-preserving filters), `drop_duplicates()` / `unique()`
 * (first occurrences kept, in order) and element-wise formatting.
 */
module Seqs {

  /** `df[mask]`: the elements satisfying `p`, in their original order. */
  function Filter<T(!new)>(s: seq<T>, p: T -> bool): (r: seq<T>)
    ensures |r| <= |s|
    ensures forall x :: x in r <==> x in s && p(x)
    ensures forall i | 0 <= i < |r| :: p(r[i])
  {
    if s == [] then []
    else if p(s[0]) then [s[0]] + Filter(s[1..], p)
    else Filter(s[1..], p)
  }

  /** A mask and its negation split the elements between them, none lost, none repeated. */
  lemma {:induction false} FilterPartition<T(!new)>(s: seq<T>, p: T -> bool)
    ensures multiset(Filter(s, p)) + multiset(Filter(s, x => !p(x))) == multiset(s)
  {
    if s != [] {
      FilterPartition(s[1..], p);
      assert s == [s[0]] + s[1..];
    }
  }

  /** Filters are emptied exactly when no element passes. */
  lemma FilterEmpty<T(!new)>(s: seq<T>, p: T -> bool)
    ensures Filter(s, p) == [] <==> forall i | 0 <= i < |s| :: !p(s[i])
  {
    if Filter(s, p) != [] {
      assert Filter(s, p)[0] in s;
    } else {
      forall i | 0 <= i < |s| ensures !p(s[i]) {
        assert s[i] in s;
      }
    }
  }

  /** Filtering a concatenation filters each part. */
  lemma {:induction false} FilterAppend<T(!new)>(a: seq<T>, b: seq<T>, p: T -> bool)
    ensures Filter(a + b, p) == Filter(a, p) + Filter(b, p)
  {
    if a != [] {
      assert (a + b)[0] == a[0] && (a + b)[1..] == a[1..] + b;
      FilterAppend(a[1..], b, p);
    } else {
      assert a + b == b;
    }
  }

  /** Looking at one more element of a prefix adds it to the filter exactly when it passes. */
  lemma FilterSnoc<T(!new)>(s: seq<T>, p: T -> bool, j: nat)
    requires j < |s|
    ensures Filter(s[..j + 1], p) == Filter(s[..j], p) + (if p(s[j]) then [s[j]] else [])
  {
    assert s[..j + 1] == s[..j] + [s[j]];
    FilterAppend(s[..j], [s[j]], p);
  }

  /** No element occurs twice. */
  predicate NoDups<T(==)>(s: seq<T>)
  {
    forall i, j | 0 <= i < j < |s| :: s[i] != s[j]
  }

  /** `drop_duplicates()` / `unique()`: the first occurrence of each element, in order. */
  function Distinct<T(==,!new)>(s: seq<T>): (r: seq<T>)
    ensures NoDups(r)
    ensures forall x :: x in r <==> x in s
    ensures |r| <= |s|
  {
    if s == [] then []
    else
      var d := Distinct(s[..|s| - 1]);
      var last := s[|s| - 1];
      assert forall x :: x in s <==> x in s[..|s| - 1] || x == last by {
        assert s == s[..|s| - 1] + [last];
      }
      if last in d then d else d + [last]
  }

  /** A sequence without repetitions is its own `drop_duplicates()`. */
  lemma {:induction false} DistinctOfNoDups<T(!new)>(s: seq<T>)
    requires NoDups(s)
    ensures Distinct(s) == s
  {
    if s != [] {
      var init := s[..|s| - 1];
      assert NoDups(init);
      DistinctOfNoDups(init);
      assert s[|s| - 1] !in init by {
        forall i | 0 <= i < |init| ensures init[i] != s[|s| - 1] {
          assert s[i] != s[|s| - 1];
        }
      }
      assert s == init + [s[|s| - 1]];
    }
  }

  /** A mask every element passes keeps the sequence whole. */
  lemma {:induction false} FilterKeepsAll<T(!new)>(s: seq<T>, p: T -> bool)
    requires forall i | 0 <= i < |s| :: p(s[i])
    ensures Filter(s, p) == s
  {
    if s != [] {
      FilterKeepsAll(s[1..], p);
    }
  }

  /**
   * `drop_duplicates()` / `unique()` list the distinct elements in the order
   * of their first occurrences: an element listed earlier occurs in the
   * input before every occurrence of one listed later.
   */
  lemma {:induction false} DistinctFirstOrder<T(!new)>(s: seq<T>)
    ensures var d := Distinct(s);
      forall i, j, k | 0 <= i < j < |d| && 0 <= k < |s| && s[k] == d[j] :: d[i] in s[..k]
  {
    if s != [] {
      var init, last := s[..|s| - 1], s[|s| - 1];
      var d0, d := Distinct(init), Distinct(s);
      DistinctFirstOrder(init);
      assert forall i, j, k | 0 <= i < j < |Distinct(init)| && 0 <= k < |init| && init[k] == Distinct(init)[j] ::
        Distinct(init)[i] in init[..k];
      assert d == if last in d0 then d0 else d0 + [last];
      forall i, j, k | 0 <= i < j < |d| && 0 <= k < |s| && s[k] == d[j] ensures d[i] in s[..k] {
        assert d[i] == d0[i] && d0[i] in init;
        if k == |s| - 1 {
          assert s[..k] == init;
        } else {
          assert init[k] == s[k] && init[..k] == s[..k];
          assert init[k] in init;
          if j < |d0| {
            assert d[j] == d0[j];
          }
        }
      }
    }
  }

  /** Element-wise map, as a Python list comprehension does. */
  function MapSeq<T, U>(s: seq<T>, f: T -> U): (r: seq<U>)
    ensures |r| == |s|
    ensures forall i | 0 <= i < |s| :: r[i] == f(s[i])
  {
    seq(|s|, i requires 0 <= i < |s| => f(s[i]))
  }

  /** Mapping one more element of a prefix appends its image. */
  lemma MapSeqSnoc<T, U>(s: seq<T>, f: T -> U, i: nat)
    requires i < |s|
    ensures MapSeq(s[..i + 1], f) == MapSeq(s[..i], f) + [f(s[i])]
  {
  }

  /** Appending is associative; stated once so that long proofs need not rediscover it. */
  lemma AppendAssoc<T>(a: seq<T>, b: seq<T>, c: seq<T>)
    ensures (a + b) + c == a + (b + c)
  {
  }
}
