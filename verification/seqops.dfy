/** The list operations the components perform on their state arrays:
    `Array.prototype.filter`, `find`, and prepending with a spread. */
module SeqOps {
  import opened Wrappers

  /** `a` is obtained from `b` by deleting elements, keeping the order of the rest. */
  predicate IsSubsequence<T(==)>(a: seq<T>, b: seq<T>)
    decreases |b|
  {
    if |a| == 0 then true
    else if |b| == 0 then false
    else if a[0] == b[0] && IsSubsequence(a[1..], b[1..]) then true
    else IsSubsequence(a, b[1..])
  }

  /** `xs.filter(keep)`: the elements satisfying `keep`, in their original order. */
  function Filter<T>(xs: seq<T>, keep: T -> bool): (r: seq<T>)
    ensures |r| <= |xs|
    ensures forall i :: 0 <= i < |r| ==> keep(r[i])
    ensures forall i :: 0 <= i < |r| ==> r[i] in xs
    decreases |xs|
  {
    if |xs| == 0 then []
    else (if keep(xs[0]) then [xs[0]] else []) + Filter(xs[1..], keep)
  }

  /** Number of elements satisfying `p`. */
  function Count<T>(xs: seq<T>, p: T -> bool): nat
    decreases |xs|
  {
    if |xs| == 0 then 0 else (if p(xs[0]) then 1 else 0) + Count(xs[1..], p)
  }

  /** Filtering keeps every element that satisfies the predicate: nothing matching is lost. */
  lemma {:induction false} FilterKeepsMatches<T>(xs: seq<T>, keep: T -> bool, x: T)
    ensures x in Filter(xs, keep) <==> x in xs && keep(x)
    decreases |xs|
  {
    if |xs| > 0 {
      FilterKeepsMatches(xs[1..], keep, x);
      assert x in xs <==> x == xs[0] || x in xs[1..];
    }
  }

  /** The filtered list is a subsequence of the original: order is preserved. */
  lemma {:induction false} FilterIsSubsequence<T>(xs: seq<T>, keep: T -> bool)
    ensures IsSubsequence(Filter(xs, keep), xs)
    decreases |xs|
  {
    if |xs| > 0 {
      FilterIsSubsequence(xs[1..], keep);
      var r := Filter(xs, keep);
      if keep(xs[0]) {
        assert r[0] == xs[0] && r[1..] == Filter(xs[1..], keep);
      } else {
        assert r == Filter(xs[1..], keep);
        SubsequenceOfTail(r, xs);
      }
    }
  }

  /** A subsequence of a list's tail is a subsequence of the list. */
  lemma SubsequenceOfTail<T>(a: seq<T>, b: seq<T>)
    requires |b| > 0 && IsSubsequence(a, b[1..])
    ensures IsSubsequence(a, b)
  {
  }

  /** The number of elements kept is the number that satisfy the predicate. */
  lemma {:induction false} FilterLength<T>(xs: seq<T>, keep: T -> bool)
    ensures |Filter(xs, keep)| == Count(xs, keep)
    decreases |xs|
  {
    if |xs| > 0 {
      FilterLength(xs[1..], keep);
    }
  }

  /** A predicate that holds of every element keeps the whole list. */
  lemma {:induction false} FilterAll<T>(xs: seq<T>, keep: T -> bool)
    requires forall i :: 0 <= i < |xs| ==> keep(xs[i])
    ensures Filter(xs, keep) == xs
    decreases |xs|
  {
    if |xs| > 0 {
      FilterAll(xs[1..], keep);
    }
  }

  /** Filtering a prepended list filters the head and the rest separately. */
  lemma FilterPrepend<T>(x: T, xs: seq<T>, keep: T -> bool)
    ensures Filter([x] + xs, keep) == (if keep(x) then [x] else []) + Filter(xs, keep)
  {
  }

  /** Filtering an appended list filters the list and the last element separately. */
  lemma {:induction false} FilterAppend<T>(xs: seq<T>, x: T, keep: T -> bool)
    ensures Filter(xs + [x], keep) == Filter(xs, keep) + (if keep(x) then [x] else [])
    decreases |xs|
  {
    if |xs| > 0 {
      assert (xs + [x])[1..] == xs[1..] + [x];
      FilterAppend(xs[1..], x, keep);
    } else {
      assert Filter([x], keep) == (if keep(x) then [x] else []) + Filter([], keep);
    }
  }

  /** `xs.filter(x => key(x) !== k)`: every element whose key is `k` dropped, the others kept
      in order. The components use it to delete a record by id. */
  function RemoveKey<T(==,!new), K(==)>(xs: seq<T>, key: T -> K, k: K): (r: seq<T>)
    ensures forall i :: 0 <= i < |r| ==> key(r[i]) != k
    ensures forall x :: x in r <==> x in xs && key(x) != k
    ensures IsSubsequence(r, xs)
  {
    var keep := (x: T) => key(x) != k;
    FilterIsSubsequence(xs, keep);
    forall x ensures x in Filter(xs, keep) <==> x in xs && key(x) != k {
      FilterKeepsMatches(xs, keep, x);
    }
    Filter(xs, keep)
  }

  /** Removing a key nothing carries changes nothing. */
  lemma RemoveAbsentKey<T(!new), K>(xs: seq<T>, key: T -> K, k: K)
    requires forall i :: 0 <= i < |xs| ==> key(xs[i]) != k
    ensures RemoveKey(xs, key, k) == xs
  {
    FilterAll(xs, (x: T) => key(x) != k);
  }

  /** Prepending a record with a fresh key and then removing that key restores the list. */
  lemma PrependThenRemove<T(!new), K>(x: T, xs: seq<T>, key: T -> K)
    requires forall i :: 0 <= i < |xs| ==> key(xs[i]) != key(x)
    ensures RemoveKey([x] + xs, key, key(x)) == xs
  {
    var keep := (y: T) => key(y) != key(x);
    FilterPrepend(x, xs, keep);
    FilterAll(xs, keep);
  }

  /** Appending a record with a fresh key and then removing that key restores the list. */
  lemma AppendThenRemove<T(!new), K>(xs: seq<T>, x: T, key: T -> K)
    requires forall i :: 0 <= i < |xs| ==> key(xs[i]) != key(x)
    ensures RemoveKey(xs + [x], key, key(x)) == xs
  {
    var keep := (y: T) => key(y) != key(x);
    FilterAppend(xs, x, keep);
    FilterAll(xs, keep);
  }

  /** `xs.find(p)`: the first element satisfying `p`, if any. */
  function Find<T>(xs: seq<T>, p: T -> bool): (r: Option<T>)
    ensures r.Some? <==> exists i :: 0 <= i < |xs| && p(xs[i])
    ensures r.Some? ==> p(r.value) && exists i :: 0 <= i < |xs| && xs[i] == r.value && forall j :: 0 <= j < i ==> !p(xs[j])
    decreases |xs|
  {
    if |xs| == 0 then None
    else if p(xs[0]) then Some(xs[0])
    else
      var r := Find(xs[1..], p);
      assert forall i :: 0 < i < |xs| ==> xs[i] == xs[1..][i - 1];
      r
  }
}
