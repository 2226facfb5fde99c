/**
 * `Array.prototype.filter` on sequences, with an independent reference
 * definition (the indices it keeps) and the facts the views rely on.
 */
module Seqs {

  /** `s.filter(p)`: the elements that pass `p`, in their original order. */
  function Filter<T>(p: T -> bool, s: seq<T>): (r: seq<T>)
    ensures |r| <= |s|
    ensures forall i :: 0 <= i < |r| ==> r[i] in s && p(r[i])
    ensures forall j :: 0 <= j < |s| && p(s[j]) ==> s[j] in r
  {
    if s == [] then []
    else if p(s[0]) then [s[0]] + Filter(p, s[1..])
    else Filter(p, s[1..])
  }

  ghost predicate StrictlyIncreasing(ix: seq<nat>)
  {
    forall a, b :: 0 <= a < b < |ix| ==> ix[a] < ix[b]
  }

  /** The positions of `s` whose element passes `p`, in increasing order. */
  ghost function KeptIndices<T>(p: T -> bool, s: seq<T>): (ix: seq<nat>)
    ensures StrictlyIncreasing(ix)
    ensures forall k :: 0 <= k < |ix| ==> ix[k] < |s| && p(s[ix[k]])
    ensures forall j :: 0 <= j < |s| && p(s[j]) ==> j in ix
  {
    if s == [] then []
    else
      var front := s[..|s| - 1];
      var ix0 := KeptIndices(p, front);
      assert forall j :: 0 <= j < |front| ==> s[j] == front[j];
      ix0 + (if p(s[|s| - 1]) then [|s| - 1] else [])
  }

  lemma {:induction false} FilterConcat<T>(p: T -> bool, a: seq<T>, b: seq<T>)
    ensures Filter(p, a + b) == Filter(p, a) + Filter(p, b)
  {
    if a != [] {
      assert (a + b)[0] == a[0] && (a + b)[1..] == a[1..] + b;
      FilterConcat(p, a[1..], b);
    } else {
      assert a + b == b;
    }
  }

  /**
   * Filter keeps exactly the elements at KeptIndices, in that order: the
   * result is an order-preserving sub-list that drops only failing elements.
   */
  lemma {:induction false} FilterSelects<T>(p: T -> bool, s: seq<T>)
    ensures |Filter(p, s)| == |KeptIndices(p, s)|
    ensures forall k :: 0 <= k < |Filter(p, s)| ==> Filter(p, s)[k] == s[KeptIndices(p, s)[k]]
    decreases |s|
  {
    if s != [] {
      var front, last := s[..|s| - 1], s[|s| - 1];
      assert s == front + [last];
      FilterSelects(p, front);
      FilterConcat(p, front, [last]);
      assert [last][1..] == [];
      assert forall j :: 0 <= j < |front| ==> s[j] == front[j];
    }
  }

  /** Filters whose tests agree on every element of `s` give the same result. */
  lemma {:induction false} FilterAgrees<T>(p: T -> bool, q: T -> bool, s: seq<T>)
    requires forall j :: 0 <= j < |s| ==> p(s[j]) == q(s[j])
    ensures Filter(p, s) == Filter(q, s)
  {
    if s != [] {
      FilterAgrees(p, q, s[1..]);
    }
  }

  /**
   * Two filters with complementary tests split `s`: every element lands in
   * exactly one of the results.
   */
  lemma {:induction false} FilterPartition<T>(p: T -> bool, q: T -> bool, s: seq<T>)
    requires forall j :: 0 <= j < |s| ==> (p(s[j]) <==> !q(s[j]))
    ensures |Filter(p, s)| + |Filter(q, s)| == |s|
    ensures multiset(Filter(p, s)) + multiset(Filter(q, s)) == multiset(s)
  {
    if s != [] {
      FilterPartition(p, q, s[1..]);
      assert s == [s[0]] + s[1..];
    }
  }
}
