/** Sums over the threads of a protocol.

    Every protocol in this project keeps its threads in a sequence of local states.
    An invariant that counts threads ("as many threads hold a reference as the counter
    says") is a Sum of a weight over that sequence; one atomic step replaces one element. */
module Threads {

  datatype Option<+T> = None | Some(value: T)

  /** 1 when b holds, 0 otherwise. */
  function Bit(b: bool): (r: int)
    ensures r == 0 || r == 1
  {
    if b then 1 else 0
  }

  function Sum<L>(s: seq<L>, f: L -> int): int {
    if s == [] then 0 else Sum(s[..|s| - 1], f) + f(s[|s| - 1])
  }

  /** Replacing one element changes the sum by the difference of the two weights. */
  lemma {:induction false} SumUpdate<L>(s: seq<L>, i: nat, x: L, f: L -> int)
    requires i < |s|
    ensures Sum(s[i := x], f) == Sum(s, f) - f(s[i]) + f(x)
  {
    var n := |s| - 1;
    if i == n {
      assert s[i := x][..n] == s[..n];
    } else {
      assert s[i := x][..n] == s[..n][i := x];
      SumUpdate(s[..n], i, x, f);
    }
  }

  lemma SumAppend<L>(s: seq<L>, x: L, f: L -> int)
    ensures Sum(s + [x], f) == Sum(s, f) + f(x)
  {
    assert (s + [x])[..|s|] == s;
  }

  lemma {:induction false} SumZero<L>(s: seq<L>, f: L -> int)
    requires forall i :: 0 <= i < |s| ==> f(s[i]) == 0
    ensures Sum(s, f) == 0
  {
    if s != [] {
      SumZero(s[..|s| - 1], f);
    }
  }

  /** The sum of one weight is at most the sum of a larger one. */
  lemma {:induction false} SumMonotone<L>(s: seq<L>, f: L -> int, g: L -> int)
    requires forall i :: 0 <= i < |s| ==> f(s[i]) <= g(s[i])
    ensures Sum(s, f) <= Sum(s, g)
  {
    if s != [] {
      var n := |s| - 1;
      assert f(s[n]) <= g(s[n]);
      assert forall i :: 0 <= i < n ==> s[..n][i] == s[i];
      SumMonotone(s[..n], f, g);
    }
  }

  lemma {:induction false} SumNonNegative<L>(s: seq<L>, f: L -> int)
    requires forall i :: 0 <= i < |s| ==> f(s[i]) >= 0
    ensures Sum(s, f) >= 0
  {
    if s != [] {
      var n := |s| - 1;
      assert f(s[n]) >= 0;
      assert forall i :: 0 <= i < n ==> s[..n][i] == s[i];
      SumNonNegative(s[..n], f);
    }
  }

  /** Non-negative weights: one thread's weight is part of the sum. */
  lemma {:induction false} SumAtLeast<L>(s: seq<L>, i: nat, f: L -> int)
    requires i < |s|
    requires forall k :: 0 <= k < |s| ==> f(s[k]) >= 0
    ensures Sum(s, f) >= f(s[i])
  {
    var n := |s| - 1;
    assert f(s[n]) >= 0;
    assert forall k :: 0 <= k < n ==> s[..n][k] == s[k];
    if i == n {
      SumNonNegative(s[..n], f);
    } else {
      SumAtLeast(s[..n], i, f);
    }
  }

  /** Non-negative weights: the weights of two different threads are both part of the sum. */
  lemma {:induction false} SumAtLeastTwo<L>(s: seq<L>, i: nat, j: nat, f: L -> int)
    requires i < |s| && j < |s| && i != j
    requires forall k :: 0 <= k < |s| ==> f(s[k]) >= 0
    ensures Sum(s, f) >= f(s[i]) + f(s[j])
  {
    var n := |s| - 1;
    assert f(s[n]) >= 0;
    assert forall k :: 0 <= k < n ==> s[..n][k] == s[k];
    if i == n {
      SumAtLeast(s[..n], j, f);
    } else if j == n {
      SumAtLeast(s[..n], i, f);
    } else {
      SumAtLeastTwo(s[..n], i, j, f);
    }
  }

  /** A positive sum has a thread with a positive weight. */
  lemma {:induction false} SumWitness<L>(s: seq<L>, f: L -> int) returns (i: nat)
    requires Sum(s, f) > 0
    ensures i < |s| && f(s[i]) > 0
  {
    var n := |s| - 1;
    if f(s[n]) > 0 {
      i := n;
    } else {
      i := SumWitness(s[..n], f);
    }
  }

  /** The sum of one is the number of threads. */
  lemma {:induction false} SumLength<L>(s: seq<L>, f: L -> int)
    requires forall i :: 0 <= i < |s| ==> f(s[i]) <= 1
    ensures Sum(s, f) <= |s|
  {
    if s != [] {
      var n := |s| - 1;
      assert f(s[n]) <= 1;
      assert forall i :: 0 <= i < n ==> s[..n][i] == s[i];
      SumLength(s[..n], f);
    }
  }

  lemma {:induction false} SumPlus<L>(s: seq<L>, f: L -> int, g: L -> int, h: L -> int)
    requires forall i :: 0 <= i < |s| ==> h(s[i]) == f(s[i]) + g(s[i])
    ensures Sum(s, h) == Sum(s, f) + Sum(s, g)
  {
    if s != [] {
      var n := |s| - 1;
      assert h(s[n]) == f(s[n]) + g(s[n]);
      assert forall i :: 0 <= i < n ==> s[..n][i] == s[i];
      SumPlus(s[..n], f, g, h);
    }
  }

  /** Distinct numbers below a bound are at most as many as the bound. */
  lemma {:induction false} Pigeonhole(s: seq<int>, bound: nat)
    requires forall i :: 0 <= i < |s| ==> 0 <= s[i] < bound
    requires forall i, j :: 0 <= i < j < |s| ==> s[i] != s[j]
    ensures |s| <= bound
  {
    if s != [] {
      assert 0 <= s[0] < bound;
      if i :| 0 <= i < |s| && s[i] == bound - 1 {
        Pigeonhole(s[..i] + s[i + 1..], bound - 1);
      } else {
        Pigeonhole(s[1..], bound - 1);
      }
    }
  }

  /** Sequences whose elements have the same weights have the same sum. */
  lemma {:induction false} SumSame<L>(s: seq<L>, s': seq<L>, f: L -> int)
    requires |s| == |s'| && forall i :: 0 <= i < |s| ==> f(s[i]) == f(s'[i])
    ensures Sum(s, f) == Sum(s', f)
  {
    if s != [] {
      var n := |s| - 1;
      assert f(s[n]) == f(s'[n]);
      assert forall i :: 0 <= i < n ==> s[..n][i] == s[i] && s'[..n][i] == s'[i];
      SumSame(s[..n], s'[..n], f);
    }
  }
}
