/** Weighted sums over a sequence of actors: how the protocol models count
    "how many workers are in flight" or "how many tasks hold a slot". */
module Sums {

  ghost function Sum<T>(s: seq<T>, f: T -> int): int {
    if s == [] then 0 else f(s[0]) + Sum(s[1..], f)
  }

  lemma {:induction false} SumUpdate<T>(s: seq<T>, i: nat, x: T, f: T -> int)
    requires i < |s|
    ensures Sum(s[i := x], f) == Sum(s, f) - f(s[i]) + f(x)
  {
    if i == 0 {
      assert s[0 := x][1..] == s[1..];
    } else {
      assert s[i := x][1..] == s[1..][i - 1 := x];
      SumUpdate(s[1..], i - 1, x, f);
    }
  }

  lemma {:induction false} SumAppend<T>(s: seq<T>, x: T, f: T -> int)
    ensures Sum(s + [x], f) == Sum(s, f) + f(x)
  {
    if s == [] {
      assert s + [x] == [x];
    } else {
      assert (s + [x])[1..] == s[1..] + [x];
      SumAppend(s[1..], x, f);
    }
  }

  // A sum of non-negative weights dominates each of them.
  lemma {:induction false} SumDominates<T>(s: seq<T>, f: T -> int)
    requires forall i | 0 <= i < |s| :: 0 <= f(s[i])
    ensures forall i | 0 <= i < |s| :: f(s[i]) <= Sum(s, f)
    ensures 0 <= Sum(s, f)
  {
    if s != [] {
      forall i | 0 <= i < |s[1..]| ensures 0 <= f(s[1..][i]) { assert s[1..][i] == s[i + 1]; }
      SumDominates(s[1..], f);
      forall i | 0 <= i < |s| ensures f(s[i]) <= Sum(s, f) {
        if i > 0 { assert s[i] == s[1..][i - 1]; }
      }
    }
  }

  lemma {:induction false} SumAgree<T>(s: seq<T>, s': seq<T>, f: T -> int)
    requires |s| == |s'|
    requires forall i | 0 <= i < |s| :: f(s[i]) == f(s'[i])
    ensures Sum(s, f) == Sum(s', f)
  {
    if s != [] {
      forall i | 0 <= i < |s[1..]| ensures f(s[1..][i]) == f(s'[1..][i]) {
        assert s[1..][i] == s[i + 1] && s'[1..][i] == s'[i + 1];
      }
      SumAgree(s[1..], s'[1..], f);
    }
  }

  lemma {:induction false} SumOfZeros<T>(s: seq<T>, f: T -> int)
    requires forall i | 0 <= i < |s| :: f(s[i]) == 0
    ensures Sum(s, f) == 0
  {
    if s != [] {
      forall i | 0 <= i < |s[1..]| ensures f(s[1..][i]) == 0 { assert s[1..][i] == s[i + 1]; }
      SumOfZeros(s[1..], f);
    }
  }
}
