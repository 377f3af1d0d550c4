/** A stable sort by an integer key, the behaviour of `Array.prototype.sort` with a comparator
    `(a, b) => key(a) - key(b)` (the sort is stable since ECMAScript 2019). A sorted permutation
    that keeps equal-key elements in their input order is unique, so any stable algorithm gives
    the same result; insertion sort is used here. */
module Sorting {
  import opened Seqs

  ghost predicate SortedBy<T>(s: seq<T>, key: T -> int) {
    forall i, j :: 0 <= i < j < |s| ==> key(s[i]) <= key(s[j])
  }

  /** `i` is the last position holding the greatest key. */
  ghost predicate IsLastMax<T>(s: seq<T>, key: T -> int, i: int) {
    && 0 <= i < |s|
    && (forall j :: 0 <= j < |s| ==> key(s[j]) <= key(s[i]))
    && (forall j :: i < j < |s| ==> key(s[j]) < key(s[i]))
  }

  /** `i` is the first position holding the smallest key. */
  ghost predicate IsFirstMin<T>(s: seq<T>, key: T -> int, i: int) {
    && 0 <= i < |s|
    && (forall j :: 0 <= j < |s| ==> key(s[i]) <= key(s[j]))
    && (forall j :: 0 <= j < i ==> key(s[i]) < key(s[j]))
  }

  /** Puts `x` before the first element whose key is not smaller than its own. */
  function Insert<T>(x: T, s: seq<T>, key: T -> int): (r: seq<T>)
    ensures |r| == |s| + 1
  {
    if |s| == 0 || key(x) <= key(s[0]) then [x] + s
    else [s[0]] + Insert(x, s[1..], key)
  }

  function SortBy<T>(s: seq<T>, key: T -> int): (r: seq<T>)
    ensures |r| == |s|
  {
    if |s| == 0 then [] else Insert(s[0], SortBy(s[1..], key), key)
  }

  lemma {:induction false} InsertSorted<T>(x: T, s: seq<T>, key: T -> int)
    requires SortedBy(s, key)
    ensures SortedBy(Insert(x, s, key), key)
    ensures |s| > 0 ==> Insert(x, s, key)[0] == (if key(x) <= key(s[0]) then x else s[0])
  {
    if |s| > 0 && key(s[0]) < key(x) {
      InsertSorted(x, s[1..], key);
    }
  }

  lemma {:induction false} SortBySorted<T>(s: seq<T>, key: T -> int)
    ensures SortedBy(SortBy(s, key), key)
  {
    if |s| > 0 {
      SortBySorted(s[1..], key);
      InsertSorted(s[0], SortBy(s[1..], key), key);
    }
  }

  lemma {:induction false} InsertPermutes<T>(x: T, s: seq<T>, key: T -> int)
    ensures multiset(Insert(x, s, key)) == multiset{x} + multiset(s)
  {
    if |s| > 0 && key(s[0]) < key(x) {
      InsertPermutes(x, s[1..], key);
      assert s == [s[0]] + s[1..];
    }
  }

  lemma {:induction false} SortByPermutes<T>(s: seq<T>, key: T -> int)
    ensures multiset(SortBy(s, key)) == multiset(s)
  {
    if |s| > 0 {
      SortByPermutes(s[1..], key);
      InsertPermutes(s[0], SortBy(s[1..], key), key);
      assert s == [s[0]] + s[1..];
    }
  }

  /** Sorting keeps the length and the set of elements. */
  lemma SortedMembers<T>(s: seq<T>, key: T -> int)
    ensures |SortBy(s, key)| == |s|
    ensures forall x :: x in SortBy(s, key) <==> x in s
  {
    SortByPermutes(s, key);
    forall x ensures x in SortBy(s, key) <==> x in s {
      assert x in SortBy(s, key) <==> x in multiset(SortBy(s, key));
      assert x in s <==> x in multiset(s);
    }
  }

  /** Inserting `x` adds it in front of every element that shares its key. */
  lemma {:induction false} InsertStable<T>(x: T, s: seq<T>, key: T -> int, v: int)
    ensures Where(Insert(x, s, key), key, v) == Where([x], key, v) + Where(s, key, v)
  {
    if |s| == 0 || key(x) <= key(s[0]) {
      WhereAppend([x], s, key, v);
    } else {
      var t := [s[0]] + Insert(x, s[1..], key);
      InsertStable(x, s[1..], key, v);
      WhereAppend([s[0]], Insert(x, s[1..], key), key, v);
      WhereAppend([s[0]], s[1..], key, v);
      assert [s[0]] + s[1..] == s;
    }
  }

  /** Stability: for every key, the elements carrying it keep their input order. */
  lemma {:induction false} SortByStable<T>(s: seq<T>, key: T -> int)
    ensures forall v :: Where(SortBy(s, key), key, v) == Where(s, key, v)
  {
    if |s| > 0 {
      SortByStable(s[1..], key);
      forall v ensures Where(SortBy(s, key), key, v) == Where(s, key, v) {
        InsertStable(s[0], SortBy(s[1..], key), key, v);
        WhereAppend([s[0]], s[1..], key, v);
        assert [s[0]] + s[1..] == s;
      }
    }
  }

  /** The last element of the sorted sequence is the input's last element of greatest key. */
  lemma {:induction false} SortByLast<T>(s: seq<T>, key: T -> int)
    requires |s| > 0
    ensures exists i :: IsLastMax(s, key, i) && SortBy(s, key)[|s| - 1] == s[i]
  {
    var t := SortBy(s[1..], key);
    if |t| == 0 {
      assert IsLastMax(s, key, 0);
    } else {
      SortByLast(s[1..], key);
      var k :| IsLastMax(s[1..], key, k) && t[|t| - 1] == s[1..][k];
      SortBySorted(s[1..], key);
      if key(s[0]) > key(t[|t| - 1]) {
        InsertLastBig(s[0], t, key);
        assert IsLastMax(s, key, 0);
      } else {
        InsertLastSmall(s[0], t, key);
        assert IsLastMax(s, key, k + 1);
      }
    }
  }

  lemma {:induction false} InsertLastBig<T>(x: T, s: seq<T>, key: T -> int)
    requires SortedBy(s, key)
    requires |s| > 0 && key(s[|s| - 1]) < key(x)
    ensures Insert(x, s, key) == s + [x]
  {
    if |s| > 1 {
      InsertLastBig(x, s[1..], key);
      assert s == [s[0]] + s[1..];
    }
  }

  lemma {:induction false} InsertLastSmall<T>(x: T, s: seq<T>, key: T -> int)
    requires |s| > 0 && key(x) <= key(s[|s| - 1])
    ensures Insert(x, s, key)[|s|] == s[|s| - 1]
  {
    if key(s[0]) < key(x) {
      InsertLastSmall(x, s[1..], key);
    }
  }

  /** The first element of the sorted sequence is the input's first element of smallest key. */
  lemma {:induction false} SortByFirst<T>(s: seq<T>, key: T -> int)
    requires |s| > 0
    ensures exists i :: IsFirstMin(s, key, i) && SortBy(s, key)[0] == s[i]
  {
    var t := SortBy(s[1..], key);
    if |t| == 0 {
      assert IsFirstMin(s, key, 0);
    } else {
      SortByFirst(s[1..], key);
      var k :| IsFirstMin(s[1..], key, k) && t[0] == s[1..][k];
      SortBySorted(s[1..], key);
      InsertSorted(s[0], t, key);
      if key(s[0]) <= key(t[0]) {
        assert IsFirstMin(s, key, 0);
      } else {
        assert IsFirstMin(s, key, k + 1);
      }
    }
  }
}
