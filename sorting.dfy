/** The order both `getCategories` and the sitemap impose with
    `array.sort((a, b) => key(b) - key(a))` on a freshly built array:
    JavaScript's sort is stable, so the result is ordered by key, largest first,
    and elements with equal keys keep the order they had. */
module Sorting {

  /** Inserts `x` into `s` after every element whose key is strictly larger,
      so that `x` goes before the elements of `s` that tie with it. */
  function InsertDesc<T>(x: T, s: seq<T>, key: T -> int): (r: seq<T>)
    ensures multiset(r) == multiset(s) + multiset{x}
    ensures |r| == |s| + 1
  {
    if s == [] then [x]
    else
      assert s == [s[0]] + s[1..];
      if key(s[0]) > key(x) then [s[0]] + InsertDesc(x, s[1..], key)
      else [x] + s
  }

  /** Stable insertion sort, largest key first. */
  function SortDesc<T>(s: seq<T>, key: T -> int): (r: seq<T>)
    ensures multiset(r) == multiset(s)
    ensures |r| == |s|
  {
    if s == [] then []
    else
      assert s == [s[0]] + s[1..];
      InsertDesc(s[0], SortDesc(s[1..], key), key)
  }

  ghost predicate SortedDesc<T>(s: seq<T>, key: T -> int) {
    forall i, j | 0 <= i < j < |s| :: key(s[i]) >= key(s[j])
  }

  /** The elements of `s` whose key is `v`, in their order in `s`. */
  function KeyFilter<T>(s: seq<T>, key: T -> int, v: int): seq<T> {
    if s == [] then []
    else (if key(s[0]) == v then [s[0]] else []) + KeyFilter(s[1..], key, v)
  }

  lemma {:induction false} KeyFilterAppend<T>(a: seq<T>, b: seq<T>, key: T -> int, v: int)
    ensures KeyFilter(a + b, key, v) == KeyFilter(a, key, v) + KeyFilter(b, key, v)
  {
    if a != [] {
      assert (a + b)[1..] == a[1..] + b;
      KeyFilterAppend(a[1..], b, key, v);
    } else {
      assert a + b == b;
    }
  }

  lemma KeyFilterCons<T>(y: T, t: seq<T>, key: T -> int, v: int)
    ensures KeyFilter([y] + t, key, v) == (if key(y) == v then [y] else []) + KeyFilter(t, key, v)
  {
    assert ([y] + t)[1..] == t;
  }

  lemma SortedTail<T>(s: seq<T>, key: T -> int)
    requires s != [] && SortedDesc(s, key)
    ensures SortedDesc(s[1..], key)
  {
    assert forall i, j | 0 <= i < j < |s| - 1 :: s[1..][i] == s[i + 1] && s[1..][j] == s[j + 1];
  }

  /** Prepending an element no smaller than every element keeps a sequence sorted. */
  lemma SortedCons<T>(y: T, t: seq<T>, key: T -> int)
    requires SortedDesc(t, key)
    requires forall z | z in t :: key(y) >= key(z)
    ensures SortedDesc([y] + t, key)
  {
    var r := [y] + t;
    forall i, j | 0 <= i < j < |r|
      ensures key(r[i]) >= key(r[j])
    {
      if i == 0 {
        assert r[j] == t[j - 1];
      } else {
        assert r[i] == t[i - 1] && r[j] == t[j - 1];
      }
    }
  }

  /** Inserting an element under a bound keeps every element under it. */
  lemma {:induction false} InsertDescBelow<T>(x: T, s: seq<T>, key: T -> int, b: int)
    requires key(x) <= b
    requires forall z | z in s :: key(z) <= b
    ensures forall z | z in InsertDesc(x, s, key) :: key(z) <= b
  {
    if s != [] && key(s[0]) > key(x) {
      assert forall z | z in s[1..] :: z in s;
      InsertDescBelow(x, s[1..], key, b);
    }
  }

  /** In a sorted sequence the head is no smaller than anything in the tail. */
  lemma SortedHead<T>(s: seq<T>, key: T -> int)
    requires s != [] && SortedDesc(s, key)
    ensures SortedDesc(s[1..], key)
    ensures forall z | z in s[1..] :: key(z) <= key(s[0])
  {
    SortedTail(s, key);
    forall z | z in s[1..]
      ensures key(z) <= key(s[0])
    {
      var j :| 0 <= j < |s| - 1 && s[1..][j] == z;
      assert s[j + 1] == z;
    }
  }

  lemma {:induction false} InsertDescSorted<T>(x: T, s: seq<T>, key: T -> int)
    requires SortedDesc(s, key)
    ensures SortedDesc(InsertDesc(x, s, key), key)
  {
    if s == [] {
    } else if key(s[0]) > key(x) {
      SortedHead(s, key);
      InsertDescSorted(x, s[1..], key);
      InsertDescBelow(x, s[1..], key, key(s[0]));
      SortedCons(s[0], InsertDesc(x, s[1..], key), key);
    } else {
      SortedFirstIsMax(s, key);
      SortedCons(x, s, key);
    }
  }

  lemma {:induction false} SortDescSorted<T>(s: seq<T>, key: T -> int)
    ensures SortedDesc(SortDesc(s, key), key)
  {
    if s != [] {
      SortDescSorted(s[1..], key);
      InsertDescSorted(s[0], SortDesc(s[1..], key), key);
    }
  }

  /** Inserting into a sorted sequence puts `x` first among the elements with its key. */
  lemma {:induction false} InsertDescStable<T>(x: T, s: seq<T>, key: T -> int, v: int)
    requires SortedDesc(s, key)
    ensures KeyFilter(InsertDesc(x, s, key), key, v)
         == (if key(x) == v then [x] else []) + KeyFilter(s, key, v)
  {
    if s == [] {
    } else if key(s[0]) > key(x) {
      var h := s[0];
      var tail := s[1..];
      SortedTail(s, key);
      InsertDescStable(x, tail, key, v);
      var t := InsertDesc(x, tail, key);
      var hv := if key(h) == v then [h] else [];
      var xv := if key(x) == v then [x] else [];
      var rest := KeyFilter(tail, key, v);
      assert InsertDesc(x, s, key) == [h] + t;
      KeyFilterCons(h, t, key, v);
      assert s == [h] + tail;
      KeyFilterCons(h, tail, key, v);
      if key(h) == v {
        assert xv == [];
        assert xv + rest == rest;
        assert xv + (hv + rest) == hv + rest;
      } else {
        assert hv == [];
        assert hv + (xv + rest) == xv + rest;
        assert hv + rest == rest;
      }
    } else {
      KeyFilterCons(x, s, key, v);
    }
  }

  /** Stability: for every key value, the elements with that key appear in the
      sorted result in the same order as in the input. */
  lemma {:induction false} SortDescStable<T>(s: seq<T>, key: T -> int, v: int)
    ensures KeyFilter(SortDesc(s, key), key, v) == KeyFilter(s, key, v)
  {
    if s != [] {
      SortDescStable(s[1..], key, v);
      SortDescSorted(s[1..], key);
      InsertDescStable(s[0], SortDesc(s[1..], key), key, v);
    }
  }

  /** Membership in the filter: exactly the elements carrying key `v`. */
  lemma {:induction false} KeyFilterMembers<T>(s: seq<T>, key: T -> int, v: int)
    ensures forall y :: y in KeyFilter(s, key, v) <==> y in s && key(y) == v
  {
    if s != [] {
      KeyFilterMembers(s[1..], key, v);
      assert s == [s[0]] + s[1..];
    }
  }

  /** Whatever the sort returns was somewhere in its input. */
  lemma SortDescIndex<T>(s: seq<T>, key: T -> int, x: T) returns (j: nat)
    requires x in SortDesc(s, key)
    ensures j < |s| && s[j] == x
  {
    assert x in multiset(SortDesc(s, key));
    assert x in s;
    j :| 0 <= j < |s| && s[j] == x;
  }

  /** Nothing of the input is lost by the sort. */
  lemma SortDescKeeps<T>(s: seq<T>, key: T -> int, j: nat)
    requires j < |s|
    ensures s[j] in SortDesc(s, key)
  {
    assert s[j] in multiset(s);
    assert s[j] in multiset(SortDesc(s, key));
  }

  /** In a sequence sorted by key, the first element carries the largest key. */
  lemma SortedFirstIsMax<T>(s: seq<T>, key: T -> int)
    requires SortedDesc(s, key) && s != []
    ensures forall y | y in s :: key(s[0]) >= key(y)
  {
    forall y | y in s
      ensures key(s[0]) >= key(y)
    {
      var j :| 0 <= j < |s| && s[j] == y;
      if j > 0 {
        assert key(s[0]) >= key(s[j]);
      }
    }
  }
}
