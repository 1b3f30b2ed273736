/**
  Python's `list.sort(key=k, reverse=True)` and `sorted(xs, key=k, reverse=True)`:
  a stable sort by descending key.  Python guarantees that `reverse=True` keeps
  equal-keyed elements in their original order, so the result is determined by
  three facts proved below: it is ordered by non-increasing key, it is a
  permutation of the input, and the elements of each key keep their relative
  order.  The sort is defined as an insertion sort.
 */
module StableSort {
  import opened Seqs

  /** Keys never increase from left to right. */
  ghost predicate SortedDesc<T>(s: seq<T>, key: T -> int)
  {
    forall i, j :: 0 <= i < j < |s| ==> key(s[i]) >= key(s[j])
  }

  /** The elements of `s` whose key is `k`, in their order in `s`. */
  function KeyClass<T>(s: seq<T>, key: T -> int, k: int): seq<T>
  {
    if s == [] then []
    else (if key(s[0]) == k then [s[0]] else []) + KeyClass(s[1..], key, k)
  }

  /** Puts `x` in front of the first element whose key is not larger than `x`'s. */
  function Insert<T>(x: T, s: seq<T>, key: T -> int): seq<T>
  {
    if s == [] || key(s[0]) <= key(x) then [x] + s
    else [s[0]] + Insert(x, s[1..], key)
  }

  /** The stable descending sort. */
  function SortDesc<T>(s: seq<T>, key: T -> int): seq<T>
  {
    if s == [] then [] else Insert(s[0], SortDesc(s[1..], key), key)
  }

  lemma {:induction false} InsertPermutes<T>(x: T, s: seq<T>, key: T -> int)
    ensures multiset(Insert(x, s, key)) == multiset(s) + multiset{x}
    ensures |Insert(x, s, key)| == |s| + 1
  {
    if s != [] && key(s[0]) > key(x) {
      InsertPermutes(x, s[1..], key);
      assert s == [s[0]] + s[1..];
    }
  }

  lemma {:induction false} InsertSorted<T>(x: T, s: seq<T>, key: T -> int)
    requires SortedDesc(s, key)
    ensures SortedDesc(Insert(x, s, key), key)
  {
    if s != [] && key(s[0]) > key(x) {
      InsertSorted(x, s[1..], key);
      InsertPermutes(x, s[1..], key);
      var r := Insert(x, s[1..], key);
      forall y | y in r
        ensures key(s[0]) >= key(y)
      {
        assert y in multiset(r);
        assert y == x || y in multiset(s[1..]);
      }
    }
  }

  /** Inserting `x` only moves it past elements with a larger key, so each key's elements keep their order. */
  lemma {:induction false} InsertKeyClass<T>(x: T, s: seq<T>, key: T -> int, k: int)
    ensures KeyClass(Insert(x, s, key), key, k) == (if key(x) == k then [x] else []) + KeyClass(s, key, k)
  {
    if s == [] || key(s[0]) <= key(x) {
      assert ([x] + s)[1..] == s;
    } else {
      InsertKeyClass(x, s[1..], key, k);
      assert ([s[0]] + Insert(x, s[1..], key))[1..] == Insert(x, s[1..], key);
    }
  }

  /** The result is a permutation of the input. */
  lemma {:induction false} SortDescPermutes<T>(s: seq<T>, key: T -> int)
    ensures multiset(SortDesc(s, key)) == multiset(s)
    ensures |SortDesc(s, key)| == |s|
  {
    if s != [] {
      SortDescPermutes(s[1..], key);
      InsertPermutes(s[0], SortDesc(s[1..], key), key);
      assert s == [s[0]] + s[1..];
    }
  }

  /** The result is ordered by non-increasing key. */
  lemma {:induction false} SortDescSorted<T>(s: seq<T>, key: T -> int)
    ensures SortedDesc(SortDesc(s, key), key)
  {
    if s != [] {
      SortDescSorted(s[1..], key);
      InsertSorted(s[0], SortDesc(s[1..], key), key);
    }
  }

  /** Stability: for every key, the elements with that key appear in the same order as in the input. */
  lemma {:induction false} SortDescStable<T>(s: seq<T>, key: T -> int, k: int)
    ensures KeyClass(SortDesc(s, key), key, k) == KeyClass(s, key, k)
  {
    if s != [] {
      SortDescStable(s[1..], key, k);
      InsertKeyClass(s[0], SortDesc(s[1..], key), key, k);
    }
  }

  /** Two elements with the same key stand in the same order in `s` and in their key class. */
  lemma BeforeInKeyClass<T>(s: seq<T>, key: T -> int, x: T, y: T)
    requires key(x) == key(y)
    ensures Before(s, x, y) <==> Before(KeyClass(s, key, key(x)), x, y)
  {
    if Before(s, x, y) {
      BeforeToKeyClass(s, key, x, y);
    }
    if Before(KeyClass(s, key, key(x)), x, y) {
      BeforeFromKeyClass(s, key, x, y);
    }
  }

  lemma {:induction false} BeforeToKeyClass<T>(s: seq<T>, key: T -> int, x: T, y: T)
    requires key(x) == key(y) && Before(s, x, y)
    ensures Before(KeyClass(s, key, key(x)), x, y)
  {
    var k := key(x);
    var rest := KeyClass(s[1..], key, k);
    var i, j :| 0 <= i < j < |s| && s[i] == x && s[j] == y;
    assert s[1..][j - 1] == y;
    KeyClassMembers(s[1..], key, k);
    if i == 0 {
      assert KeyClass(s, key, k) == [x] + rest;
      var j' :| 0 <= j' < |rest| && rest[j'] == y;
      assert KeyClass(s, key, k)[0] == x && KeyClass(s, key, k)[j' + 1] == y;
    } else {
      assert s[1..][i - 1] == x;
      BeforeToKeyClass(s[1..], key, x, y);
      var i', j' :| 0 <= i' < j' < |rest| && rest[i'] == x && rest[j'] == y;
      if key(s[0]) == k {
        assert KeyClass(s, key, k) == [s[0]] + rest;
        assert KeyClass(s, key, k)[i' + 1] == x && KeyClass(s, key, k)[j' + 1] == y;
      } else {
        assert KeyClass(s, key, k) == rest;
      }
    }
  }

  lemma {:induction false} BeforeFromKeyClass<T>(s: seq<T>, key: T -> int, x: T, y: T)
    requires key(x) == key(y) && Before(KeyClass(s, key, key(x)), x, y)
    ensures Before(s, x, y)
  {
    var k := key(x);
    var c := KeyClass(s, key, k);
    var rest := KeyClass(s[1..], key, k);
    var i, j :| 0 <= i < j < |c| && c[i] == x && c[j] == y;
    KeyClassMembers(s[1..], key, k);
    if key(s[0]) == k {
      assert c == [s[0]] + rest;
      if i == 0 {
        assert rest[j - 1] == y;
        var j' :| 0 <= j' < |s[1..]| && s[1..][j'] == y;
        assert s[0] == x && s[j' + 1] == y;
      } else {
        assert rest[i - 1] == x && rest[j - 1] == y;
        BeforeFromKeyClass(s[1..], key, x, y);
        var i', j' :| 0 <= i' < j' < |s[1..]| && s[1..][i'] == x && s[1..][j'] == y;
        assert s[i' + 1] == x && s[j' + 1] == y;
      }
    } else {
      assert c == rest;
      BeforeFromKeyClass(s[1..], key, x, y);
      var i', j' :| 0 <= i' < j' < |s[1..]| && s[1..][i'] == x && s[1..][j'] == y;
      assert s[i' + 1] == x && s[j' + 1] == y;
    }
  }

  /** A key class holds exactly the elements with that key. */
  lemma {:induction false} KeyClassMembers<T>(s: seq<T>, key: T -> int, k: int)
    ensures forall y :: y in KeyClass(s, key, k) <==> y in s && key(y) == k
  {
    if s != [] {
      KeyClassMembers(s[1..], key, k);
      assert s == [s[0]] + s[1..];
    }
  }

  /** Stability in terms of positions: equal-keyed elements keep their relative order. */
  lemma SortDescKeepsOrder<T>(s: seq<T>, key: T -> int, x: T, y: T)
    requires key(x) == key(y)
    ensures Before(SortDesc(s, key), x, y) <==> Before(s, x, y)
  {
    SortDescStable(s, key, key(x));
    BeforeInKeyClass(s, key, x, y);
    BeforeInKeyClass(SortDesc(s, key), key, x, y);
  }
}
