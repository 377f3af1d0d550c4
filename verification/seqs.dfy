/** Keyed filtering of sequences: the one notion of "the elements with this key, in order"
    used by the store's grouping and by the sort's stability. */
module Seqs {

  /** The elements of `s` whose key is `v`, in their order in `s`. */
  function Where<T, K(==)>(s: seq<T>, key: T -> K, v: K): seq<T> {
    if |s| == 0 then []
    else (if key(s[0]) == v then [s[0]] else []) + Where(s[1..], key, v)
  }

  lemma {:induction false} WhereAppend<T, K>(a: seq<T>, b: seq<T>, key: T -> K, v: K)
    ensures Where(a + b, key, v) == Where(a, key, v) + Where(b, key, v)
  {
    if |a| == 0 {
      assert a + b == b;
    } else {
      assert (a + b)[1..] == a[1..] + b;
      WhereAppend(a[1..], b, key, v);
    }
  }

  lemma {:induction false} WhereMembers<T, K>(s: seq<T>, key: T -> K, v: K)
    ensures forall x :: x in Where(s, key, v) <==> x in s && key(x) == v
  {
    if |s| > 0 {
      WhereMembers(s[1..], key, v);
      assert s == [s[0]] + s[1..];
    }
  }

  /** No element occurs twice. */
  ghost predicate Distinct<T>(s: seq<T>) {
    forall i, j :: 0 <= i < j < |s| ==> s[i] != s[j]
  }
}
