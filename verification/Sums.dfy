/**
  Sums over sequences. Every ledger in this project (admitted calls, reservations,
  in-flight callers, running workers) is a sequence, and every conservation or
  bound is a statement about one of these sums.
*/
module Sums {

  function Sum<T>(s: seq<T>, f: T -> int): int {
    if |s| == 0 then 0 else Sum(s[..|s| - 1], f) + f(s[|s| - 1])
  }

  lemma {:induction false} SumAppend<T>(s: seq<T>, t: T, f: T -> int)
    ensures Sum(s + [t], f) == Sum(s, f) + f(t)
  {
    assert (s + [t])[..|s|] == s;
  }

  lemma {:induction false} SumConcat<T>(s: seq<T>, t: seq<T>, f: T -> int)
    ensures Sum(s + t, f) == Sum(s, f) + Sum(t, f)
  {
    if |t| == 0 {
      assert s + t == s;
    } else {
      var front := t[..|t| - 1];
      SumConcat(s, front, f);
      assert (s + t)[..|s + t| - 1] == s + front;
    }
  }

  /** Replacing one element moves the sum by the difference of the two contributions. */
  lemma {:induction false} SumUpdate<T>(s: seq<T>, i: nat, t: T, f: T -> int)
    requires i < |s|
    ensures Sum(s[i := t], f) == Sum(s, f) - f(s[i]) + f(t)
  {
    var n := |s| - 1;
    var u := s[i := t];
    if i == n {
      assert u[..n] == s[..n];
    } else {
      SumUpdate(s[..n], i, t, f);
      assert u[..n] == s[..n][i := t];
    }
  }

  lemma {:induction false} SumMonotone<T>(s: seq<T>, f: T -> int, g: T -> int)
    requires forall i :: 0 <= i < |s| ==> f(s[i]) <= g(s[i])
    ensures Sum(s, f) <= Sum(s, g)
  {
    if |s| > 0 {
      SumMonotone(s[..|s| - 1], f, g);
    }
  }

  lemma {:induction false} SumNonNegative<T>(s: seq<T>, f: T -> int)
    requires forall i :: 0 <= i < |s| ==> 0 <= f(s[i])
    ensures 0 <= Sum(s, f)
  {
    if |s| > 0 {
      SumNonNegative(s[..|s| - 1], f);
    }
  }

  lemma {:induction false} SumZero<T>(s: seq<T>, f: T -> int)
    requires forall i :: 0 <= i < |s| ==> f(s[i]) == 0
    ensures Sum(s, f) == 0
  {
    if |s| > 0 {
      SumZero(s[..|s| - 1], f);
    }
  }

  /** A sum of non-negative contributions is at least any one of them. */
  lemma {:induction false} SumAtLeastMember<T>(s: seq<T>, i: nat, f: T -> int)
    requires i < |s|
    requires forall j :: 0 <= j < |s| ==> 0 <= f(s[j])
    ensures f(s[i]) <= Sum(s, f)
  {
    var n := |s| - 1;
    if i == n {
      SumNonNegative(s[..n], f);
    } else {
      SumAtLeastMember(s[..n], i, f);
    }
  }

  lemma {:induction false} SumAdds<T>(s: seq<T>, f: T -> int, g: T -> int, h: T -> int)
    requires forall i :: 0 <= i < |s| ==> f(s[i]) == g(s[i]) + h(s[i])
    ensures Sum(s, f) == Sum(s, g) + Sum(s, h)
  {
    if |s| > 0 {
      SumAdds(s[..|s| - 1], f, g, h);
    }
  }

  /** A pointwise bound by two functions bounds the sum by the two sums. */
  lemma {:induction false} SumSplit<T>(s: seq<T>, f: T -> int, g: T -> int, h: T -> int)
    requires forall i :: 0 <= i < |s| ==> f(s[i]) <= g(s[i]) + h(s[i])
    ensures Sum(s, f) <= Sum(s, g) + Sum(s, h)
  {
    if |s| > 0 {
      SumSplit(s[..|s| - 1], f, g, h);
    }
  }

  /** Pointwise at least, and at one place more: the sum is more. */
  lemma {:induction false} SumStrict<T>(s: seq<T>, i: nat, f: T -> int, g: T -> int)
    requires i < |s| && f(s[i]) < g(s[i])
    requires forall j :: 0 <= j < |s| ==> f(s[j]) <= g(s[j])
    ensures Sum(s, f) < Sum(s, g)
  {
    var n := |s| - 1;
    if i == n {
      SumMonotone(s[..n], f, g);
    } else {
      SumStrict(s[..n], i, f, g);
    }
  }
}
