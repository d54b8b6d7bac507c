/** The quorum rule fixed when the routing table is locked, and why it is the right one. */
module Quorum {

  /** Votes needed besides one's own, from the number of peers in the locked table. */
  function Quorum(tableSize: nat): nat {
    (tableSize + 1) / 2
  }

  /** `who` together with at least `threshold` of its peers. */
  ghost predicate Backed<T>(members: set<T>, who: T, backers: set<T>, threshold: nat) {
    who in members && backers <= members - {who} && |backers| >= threshold
  }

  /** Any two backed nodes have a supporter in common. */
  ghost predicate AlwaysMeet<T(!new)>(members: set<T>, threshold: nat) {
    forall a, b, aBackers, bBackers ::
      Backed(members, a, aBackers, threshold) && Backed(members, b, bBackers, threshold)
      ==> !(({a} + aBackers) !! ({b} + bBackers))
  }

  lemma QuorumsMeet<T>(members: set<T>, a: T, aBackers: set<T>, b: T, bBackers: set<T>) returns (shared: T)
    requires members != {}
    requires Backed(members, a, aBackers, Quorum(|members| - 1))
    requires Backed(members, b, bBackers, Quorum(|members| - 1))
    ensures shared in {a} + aBackers && shared in {b} + bBackers
  {
    assert |{a} + aBackers| == 1 + |aBackers| && |{b} + bBackers| == 1 + |bBackers|;
    shared := LargeSetsMeet(members, {a} + aBackers, {b} + bBackers);
  }

  lemma LargeSetsMeet<T>(members: set<T>, left: set<T>, right: set<T>) returns (shared: T)
    requires left <= members && right <= members && |left| + |right| > |members|
    ensures shared in left && shared in right
  {
    if left * right == {} {
      assert |left + right| == |left| + |right|;
      SubsetSize(left + right, members);
      assert false;
    }
    shared :| shared in left * right;
  }

  lemma {:induction false} SubsetSize<T>(small: set<T>, large: set<T>)
    requires small <= large
    ensures |small| <= |large|
  {
    assert large == small + (large - small);
  }

  lemma SubsetIsWhole<T>(small: set<T>, large: set<T>)
    requires small <= large && |small| >= |large|
    ensures small == large
  {
    assert large == small + (large - small);
  }

  lemma {:induction false} SubsetOfSize<T>(s: set<T>, n: nat) returns (r: set<T>)
    requires n <= |s|
    ensures r <= s && |r| == n
  {
    if n == 0 {
      r := {};
    } else {
      var x :| x in s;
      r := SubsetOfSize(s - {x}, n - 1);
      r := r + {x};
    }
  }

  /** The locked threshold is the least one for which two majorities always overlap. */
  lemma QuorumIsLeast<T(!new)>(members: set<T>, threshold: nat)
    requires members != {}
    ensures AlwaysMeet(members, threshold) <==> threshold >= Quorum(|members| - 1)
  {
    if threshold >= Quorum(|members| - 1) {
      forall a, b, aBackers, bBackers |
        Backed(members, a, aBackers, threshold) && Backed(members, b, bBackers, threshold)
        ensures !(({a} + aBackers) !! ({b} + bBackers))
      {
        var v := QuorumsMeet(members, a, aBackers, b, bBackers);
        assert v in ({a} + aBackers) * ({b} + bBackers);
      }
    } else {
      var left := SubsetOfSize(members, threshold + 1);
      assert |members - left| == |members| - |left|;
      var right := SubsetOfSize(members - left, threshold + 1);
      var a :| a in left;
      var b :| b in right;
      assert Backed(members, a, left - {a}, threshold);
      assert Backed(members, b, right - {b}, threshold);
      assert {a} + (left - {a}) == left && {b} + (right - {b}) == right;
    }
  }
}
