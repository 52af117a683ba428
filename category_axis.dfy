/**
 * The category axis of the spreading-factor and bandwidth charts:
 * `[...new Set(keys)].sort((a, b) => a - b)`, the distinct keys in ascending
 * numeric order.
 */
module CategoryAxis {

  ghost predicate StrictlyIncreasing(s: seq<int>) {
    forall i, j :: 0 <= i < j < |s| ==> s[i] < s[j]
  }

  /** Adds `x` to a strictly increasing sequence, once. */
  function Insert(s: seq<int>, x: int): (r: seq<int>)
    requires StrictlyIncreasing(s)
    ensures StrictlyIncreasing(r)
    ensures forall y :: y in r <==> y in s || y == x
    ensures |r| <= |s| + 1
  {
    if |s| == 0 then [x]
    else if x < s[0] then [x] + s
    else if x == s[0] then s
    else
      var tail := s[1..];
      assert forall k :: 0 <= k < |tail| ==> tail[k] == s[k + 1];
      var rest := Insert(tail, x);
      assert forall y :: y in rest ==> s[0] < y by {
        forall y | y in rest
          ensures s[0] < y
        {
          if y in tail {
            var k :| 0 <= k < |tail| && tail[k] == y;
          }
        }
      }
      var r := [s[0]] + rest;
      assert forall i :: 1 <= i < |r| ==> r[i] == rest[i - 1] && rest[i - 1] in rest;
      r
  }

  /**
   * The distinct keys in ascending order. Folding the keys in one at a time
   * gives the same sequence as building a set and sorting it, because a
   * strictly increasing sequence is determined by its elements
   * (see StrictlyIncreasingUnique).
   */
  function SortedDistinct(keys: seq<int>): (axis: seq<int>)
    ensures StrictlyIncreasing(axis)
    ensures forall k :: k in axis <==> k in keys
    ensures |axis| <= |keys|
  {
    if |keys| == 0 then [] else Insert(SortedDistinct(keys[..|keys| - 1]), keys[|keys| - 1])
  }

  /** Two strictly increasing sequences with the same elements are equal. */
  lemma {:induction false} StrictlyIncreasingUnique(a: seq<int>, b: seq<int>)
    requires StrictlyIncreasing(a) && StrictlyIncreasing(b)
    requires forall k :: k in a <==> k in b
    ensures a == b
    decreases |a|
  {
    if |b| > 0 {
      assert b[0] in b;
    }
    if |a| > 0 {
      assert a[0] in a && b[0] in b;
      assert a[0] in b && b[0] in a;
      assert b[0] == a[0];
      forall k
        ensures k in a[1..] <==> k in b[1..]
      {
        if k in a[1..] {
          var i :| 1 <= i < |a| && a[i] == k;
          assert k in b;
          var j :| 0 <= j < |b| && b[j] == k;
          assert j != 0;
        }
        if k in b[1..] {
          var j :| 1 <= j < |b| && b[j] == k;
          assert k in a;
          var i :| 0 <= i < |a| && a[i] == k;
          assert i != 0;
        }
      }
      StrictlyIncreasingUnique(a[1..], b[1..]);
      assert a == [a[0]] + a[1..];
      assert b == [b[0]] + b[1..];
    }
  }

  /** The axis depends only on which keys occur, not on their order or repetition. */
  lemma SortedDistinctBySet(k1: seq<int>, k2: seq<int>)
    requires forall k :: k in k1 <==> k in k2
    ensures SortedDistinct(k1) == SortedDistinct(k2)
  {
    StrictlyIncreasingUnique(SortedDistinct(k1), SortedDistinct(k2));
  }
}
