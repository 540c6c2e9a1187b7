/** Weighted sums over the threads of a step system.

    A step system keeps its threads in a sequence of program counters.  How many threads sit at
    a given place, and how many steps are left in all, are sums of a weight over that sequence. */
module Sums {

  function Sum<T>(s: seq<T>, w: T -> int): int {
    if s == [] then 0 else Sum(s[..|s| - 1], w) + w(s[|s| - 1])
  }

  lemma SumAppend<T>(s: seq<T>, x: T, w: T -> int)
    ensures Sum(s + [x], w) == Sum(s, w) + w(x)
  {
    assert (s + [x])[..|s|] == s;
  }

  // Moving one thread changes the sum by the difference of its two weights.
  lemma {:induction false} SumUpdate<T>(s: seq<T>, i: nat, x: T, w: T -> int)
    requires i < |s|
    ensures Sum(s[i := x], w) == Sum(s, w) - w(s[i]) + w(x)
  {
    var last := |s| - 1;
    if i == last {
      assert s[i := x][..last] == s[..last];
    } else {
      assert s[i := x][..last] == s[..last][i := x];
      SumUpdate(s[..last], i, x, w);
    }
  }

  // A pointwise order on weights carries over to the sums.
  lemma {:induction false} SumMonotone<T>(s: seq<T>, v: T -> int, w: T -> int)
    requires forall x :: x in s ==> v(x) <= w(x)
    ensures Sum(s, v) <= Sum(s, w)
  {
    if s != [] {
      SumMonotone(s[..|s| - 1], v, w);
    }
  }

  lemma {:induction false} SumOfTwo<T>(s: seq<T>, u: T -> int, v: T -> int, w: T -> int)
    requires forall x :: x in s ==> u(x) + v(x) == w(x)
    ensures Sum(s, u) + Sum(s, v) == Sum(s, w)
  {
    if s != [] {
      SumOfTwo(s[..|s| - 1], u, v, w);
    }
  }

  // With non-negative weights, one member never outweighs the whole.
  lemma {:induction false} SumAtLeast<T>(s: seq<T>, i: nat, w: T -> int)
    requires i < |s|
    requires forall x :: x in s ==> 0 <= w(x)
    ensures w(s[i]) <= Sum(s, w)
    ensures 0 <= Sum(s, w)
  {
    SumNonNegative(s[..|s| - 1], w);
    if i < |s| - 1 {
      assert s[..|s| - 1][i] == s[i];
      SumAtLeast(s[..|s| - 1], i, w);
    }
  }

  lemma {:induction false} SumNonNegative<T>(s: seq<T>, w: T -> int)
    requires forall x :: x in s ==> 0 <= w(x)
    ensures 0 <= Sum(s, w)
  {
    if s != [] {
      SumNonNegative(s[..|s| - 1], w);
    }
  }

  // A positive sum has a member with a positive weight.
  lemma {:induction false} SumWitness<T>(s: seq<T>, w: T -> int) returns (i: nat)
    requires 0 < Sum(s, w)
    ensures i < |s| && 0 < w(s[i])
  {
    i := |s| - 1;
    if w(s[i]) <= 0 {
      i := SumWitness(s[..|s| - 1], w);
    }
  }
}
