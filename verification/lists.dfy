/** `Array.prototype.filter`, which every screen of the application uses to
    derive one list from another. */
module Lists {

  /** The elements of `s` that satisfy `p`, in their original order. */
  function Filter<T>(s: seq<T>, p: T -> bool): (r: seq<T>)
    ensures |r| <= |s|
    ensures forall i :: 0 <= i < |r| ==> r[i] in s && p(r[i])
    ensures forall i :: 0 <= i < |s| && p(s[i]) ==> s[i] in r
    decreases |s|
  {
    if |s| == 0 then []
    else if p(s[0]) then [s[0]] + Filter(s[1..], p)
    else Filter(s[1..], p)
  }

  /** Filtering distributes over concatenation: the relative order of the
      kept elements is the order they had in the input. */
  lemma {:induction false} FilterConcat<T>(a: seq<T>, b: seq<T>, p: T -> bool)
    ensures Filter(a + b, p) == Filter(a, p) + Filter(b, p)
    decreases |a|
  {
    if |a| == 0 {
      assert a + b == b;
    } else {
      assert (a + b)[1..] == a[1..] + b;
      FilterConcat(a[1..], b, p);
    }
  }

  /** A filter that every element passes returns the list unchanged. */
  lemma {:induction false} FilterKeepsAll<T>(s: seq<T>, p: T -> bool)
    requires forall i :: 0 <= i < |s| ==> p(s[i])
    ensures Filter(s, p) == s
    decreases |s|
  {
    if |s| > 0 {
      FilterKeepsAll(s[1..], p);
    }
  }

  /** An element is kept exactly when it is in the input and passes. */
  lemma {:induction false} FilterMember<T>(s: seq<T>, p: T -> bool, x: T)
    ensures x in Filter(s, p) <==> x in s && p(x)
    decreases |s|
  {
    if |s| > 0 {
      FilterMember(s[1..], p, x);
      assert s == [s[0]] + s[1..];
    }
  }

  /** Filters with predicates that agree on the input give the same list. */
  lemma {:induction false} FilterSamePredicate<T>(s: seq<T>, p: T -> bool, q: T -> bool)
    requires forall i :: 0 <= i < |s| ==> p(s[i]) == q(s[i])
    ensures Filter(s, p) == Filter(s, q)
    decreases |s|
  {
    if |s| > 0 {
      FilterSamePredicate(s[1..], p, q);
    }
  }

  /** No two elements share a key. */
  predicate UniqueKeys<T>(s: seq<T>, key: T -> int)
  {
    forall i, j :: 0 <= i < j < |s| ==> key(s[i]) != key(s[j])
  }

  /** The elements whose key is not `k`, in their original order. */
  function WithoutKey<T>(s: seq<T>, key: T -> int, k: int): (r: seq<T>)
    ensures forall i :: 0 <= i < |r| ==> key(r[i]) != k
  {
    Filter(s, (x: T) => key(x) != k)
  }

  /** Removing a key from a list with unique keys removes exactly one
      element when the key is present and none otherwise. */
  lemma {:induction false} WithoutKeyShrinksByAtMostOne<T>(s: seq<T>, key: T -> int, k: int)
    requires UniqueKeys(s, key)
    ensures |s| - 1 <= |WithoutKey(s, key, k)| <= |s|
    ensures (exists i :: 0 <= i < |s| && key(s[i]) == k) ==> |WithoutKey(s, key, k)| == |s| - 1
    ensures (forall i :: 0 <= i < |s| ==> key(s[i]) != k) ==> WithoutKey(s, key, k) == s
    decreases |s|
  {
    if |s| > 0 {
      var tail := s[1..];
      assert UniqueKeys(tail, key);
      WithoutKeyShrinksByAtMostOne(tail, key, k);
      if key(s[0]) == k {
        assert forall i :: 0 <= i < |tail| ==> key(tail[i]) != k;
      } else if exists i :: 0 <= i < |s| && key(s[i]) == k {
        var i :| 0 <= i < |s| && key(s[i]) == k;
        assert key(tail[i - 1]) == k;
      }
    }
  }

  /** Removing a key distributes over concatenation and keeps every element
      with another key. */
  lemma WithoutKeyKeepsOthers<T>(a: seq<T>, b: seq<T>, key: T -> int, k: int, x: T)
    ensures WithoutKey(a + b, key, k) == WithoutKey(a, key, k) + WithoutKey(b, key, k)
    ensures x in a + b && key(x) != k ==> x in WithoutKey(a + b, key, k)
  {
    FilterConcat(a, b, (x: T) => key(x) != k);
    FilterMember(a + b, (x: T) => key(x) != k, x);
  }
}
