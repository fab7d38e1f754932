/** Counting the positions of a sequence that satisfy a predicate, and a pigeonhole bound. */
module Counting {

  ghost function Count<T(!new)>(s: seq<T>, p: T -> bool): (n: nat) {
    if s == [] then 0 else Count(s[..|s| - 1], p) + if p(s[|s| - 1]) then 1 else 0
  }

  lemma {:induction false} CountUpdate<T(!new)>(s: seq<T>, i: nat, x: T, p: T -> bool)
    requires i < |s|
    ensures Count(s[i := x], p) + (if p(s[i]) then 1 else 0) == Count(s, p) + (if p(x) then 1 else 0)
  {
    var last := |s| - 1;
    if i == last {
      assert s[i := x][..last] == s[..last];
    } else {
      assert s[i := x][..last] == s[..last][i := x];
      CountUpdate(s[..last], i, x, p);
    }
  }

  lemma {:induction false} CountZero<T(!new)>(s: seq<T>, p: T -> bool)
    requires forall i :: 0 <= i < |s| ==> !p(s[i])
    ensures Count(s, p) == 0
  {
    if s == [] {
    } else {
      CountZero(s[..|s| - 1], p);
    }
  }

  lemma {:induction false} CountPositive<T(!new)>(s: seq<T>, i: nat, p: T -> bool)
    requires i < |s| && p(s[i])
    ensures Count(s, p) >= 1
  {
    if i == |s| - 1 {
    } else {
      CountPositive(s[..|s| - 1], i, p);
    }
  }

  /** The total weight of a sequence. */
  ghost function Sum<T(!new)>(s: seq<T>, f: T -> nat): (n: nat) {
    if s == [] then 0 else Sum(s[..|s| - 1], f) + f(s[|s| - 1])
  }

  lemma {:induction false} SumUpdate<T(!new)>(s: seq<T>, i: nat, x: T, f: T -> nat)
    requires i < |s|
    ensures Sum(s[i := x], f) + f(s[i]) == Sum(s, f) + f(x)
  {
    var last := |s| - 1;
    if i == last {
      assert s[i := x][..last] == s[..last];
    } else {
      assert s[i := x][..last] == s[..last][i := x];
      SumUpdate(s[..last], i, x, f);
    }
  }

  /** Pairwise different numbers below a bound are at most that many. */
  lemma {:induction false} Pigeonhole(s: seq<nat>, bound: nat)
    requires forall i :: 0 <= i < |s| ==> s[i] < bound
    requires forall i, j :: 0 <= i < j < |s| ==> s[i] != s[j]
    ensures |s| <= bound
  {
    if s == [] {
    } else if exists k :: 0 <= k < |s| && s[k] == bound - 1 {
      var k :| 0 <= k < |s| && s[k] == bound - 1;
      Pigeonhole(s[..k] + s[k + 1..], bound - 1);
    } else {
      assert s[0] < bound;
      Pigeonhole(s, bound - 1);
    }
  }
}
