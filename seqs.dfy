/** Small facts about lists that several components share. */
module Seqs {

  /** No element occurs twice. */
  predicate NoDup<T(==)>(s: seq<T>)
  {
    forall i, j :: 0 <= i < j < |s| ==> s[i] != s[j]
  }

  /** `x` stands somewhere before `y` in `s`. */
  ghost predicate Before<T>(s: seq<T>, x: T, y: T)
  {
    exists i, j :: 0 <= i < j < |s| && s[i] == x && s[j] == y
  }

  /** `a` is obtained from `b` by deleting elements, the rest keeping their order. */
  predicate IsSubsequence<T(==)>(a: seq<T>, b: seq<T>)
    decreases |b|
  {
    if a == [] then true
    else if b == [] then false
    else if a[|a| - 1] == b[|b| - 1] then IsSubsequence(a[..|a| - 1], b[..|b| - 1])
    else IsSubsequence(a, b[..|b| - 1])
  }

  /** Every element of a subsequence is an element of the whole. */
  lemma {:induction false} SubsequenceMembers<T>(a: seq<T>, b: seq<T>)
    requires IsSubsequence(a, b)
    ensures |a| <= |b|
    ensures forall x :: x in a ==> x in b
    decreases |b|
  {
    if a != [] && b != [] {
      if a[|a| - 1] == b[|b| - 1] {
        SubsequenceMembers(a[..|a| - 1], b[..|b| - 1]);
        assert a == a[..|a| - 1] + [a[|a| - 1]];
        assert b == b[..|b| - 1] + [b[|b| - 1]];
      } else {
        SubsequenceMembers(a, b[..|b| - 1]);
        assert b == b[..|b| - 1] + [b[|b| - 1]];
      }
    }
  }

  /** Dropping the last element of a subsequence leaves a subsequence. */
  lemma {:induction false} SubsequenceDropLast<T>(a: seq<T>, b: seq<T>)
    requires a != [] && IsSubsequence(a, b)
    ensures IsSubsequence(a[..|a| - 1], b)
    decreases |b|, 0
  {
    var a' := a[..|a| - 1];
    if a[|a| - 1] == b[|b| - 1] {
      if a' != [] {
        SubsequenceSnoc(a', b[..|b| - 1], b[|b| - 1]);
      }
      assert b[..|b| - 1] + [b[|b| - 1]] == b;
    } else {
      var b' := b[..|b| - 1];
      SubsequenceDropLast(a, b');
      if a' != [] {
        SubsequenceSnoc(a', b', b[|b| - 1]);
      }
      assert b' + [b[|b| - 1]] == b;
    }
  }

  /** A subsequence of `b` is a subsequence of `b` extended at the end. */
  lemma {:induction false} SubsequenceSnoc<T>(a: seq<T>, b: seq<T>, x: T)
    requires IsSubsequence(a, b)
    ensures IsSubsequence(a, b + [x])
    decreases |b|, 1
  {
    var b' := b + [x];
    assert b'[..|b'| - 1] == b;
    if a != [] && a[|a| - 1] == x {
      SubsequenceDropLast(a, b);
    }
  }

  /** A duplicate-free list has one occurrence of each of its elements. */
  lemma NoDupMultiset<T>(s: seq<T>)
    requires NoDup(s)
    ensures forall x :: multiset(s)[x] <= 1
  {
    if s != [] {
      var init := s[..|s| - 1];
      assert s == init + [s[|s| - 1]];
      NoDupMultiset(init);
      assert forall k :: 0 <= k < |init| ==> init[k] == s[k];
    }
  }

  /** A list with at most one occurrence of each element has no duplicates. */
  lemma MultisetNoDup<T>(s: seq<T>)
    requires forall x :: multiset(s)[x] <= 1
    ensures NoDup(s)
  {
    forall i, j | 0 <= i < j < |s|
      ensures s[i] != s[j]
    {
      assert s == s[..j] + [s[j]] + s[j + 1..];
      assert s[..j][i] == s[i];
      assert multiset(s)[s[j]] == multiset(s[..j])[s[j]] + 1 + multiset(s[j + 1..])[s[j]];
    }
  }

  /** A duplicate-free list has as many distinct elements as entries. */
  lemma {:induction false} NoDupCard<T>(s: seq<T>)
    requires NoDup(s)
    ensures |set x | x in s| == |s|
  {
    if s != [] {
      var init, last := s[..|s| - 1], s[|s| - 1];
      assert NoDup(init) by {
        forall i, j | 0 <= i < j < |init|
          ensures init[i] != init[j]
        {
          assert init[i] == s[i] && init[j] == s[j];
        }
      }
      NoDupCard(init);
      assert last !in init by {
        forall k | 0 <= k < |init|
          ensures init[k] != last
        {
          assert init[k] == s[k];
        }
      }
      assert (set x | x in s) == (set x | x in init) + {last} by {
        assert s == init + [last];
      }
    }
  }
}
