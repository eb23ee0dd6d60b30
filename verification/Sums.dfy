/** Sums of a quantity over the rows of a table. */
module Sums {
  function SumBy<T>(f: T -> int, s: seq<T>): int {
    if |s| == 0 then 0 else SumBy(f, s[..|s| - 1]) + f(s[|s| - 1])
  }

  /** Row by row, `f` of the first table is `g` of the second plus `h` of the third. */
  lemma {:induction false} SumSplit<T>(f: T -> int, s: seq<T>, g: T -> int, t: seq<T>, h: T -> int, u: seq<T>)
    requires |s| == |t| == |u|
    requires forall i :: 0 <= i < |s| ==> f(s[i]) == g(t[i]) + h(u[i])
    ensures SumBy(f, s) == SumBy(g, t) + SumBy(h, u)
  {
    if |s| > 0 {
      var n := |s| - 1;
      assert forall i :: 0 <= i < n ==> s[..n][i] == s[i] && t[..n][i] == t[i] && u[..n][i] == u[i];
      SumSplit(f, s[..n], g, t[..n], h, u[..n]);
    }
  }

  lemma {:induction false} SumAgrees<T>(f: T -> int, s: seq<T>, g: T -> int, t: seq<T>)
    requires |s| == |t|
    requires forall i :: 0 <= i < |s| ==> f(s[i]) == g(t[i])
    ensures SumBy(f, s) == SumBy(g, t)
  {
    if |s| > 0 {
      var n := |s| - 1;
      assert forall i :: 0 <= i < n ==> s[..n][i] == s[i] && t[..n][i] == t[i];
      SumAgrees(f, s[..n], g, t[..n]);
    }
  }

  lemma {:induction false} SumAtMost<T>(f: T -> int, g: T -> int, s: seq<T>)
    requires forall i :: 0 <= i < |s| ==> f(s[i]) <= g(s[i])
    ensures SumBy(f, s) <= SumBy(g, s)
  {
    if |s| > 0 {
      var n := |s| - 1;
      assert forall i :: 0 <= i < n ==> s[..n][i] == s[i];
      SumAtMost(f, g, s[..n]);
    }
  }

  lemma {:induction false} SumZero<T>(f: T -> int, s: seq<T>)
    requires forall i :: 0 <= i < |s| ==> f(s[i]) == 0
    ensures SumBy(f, s) == 0
  {
    if |s| > 0 {
      var n := |s| - 1;
      assert forall i :: 0 <= i < n ==> s[..n][i] == s[i];
      SumZero(f, s[..n]);
    }
  }

  /** Only row `k` counts. */
  lemma {:induction false} SumSingle<T>(f: T -> int, s: seq<T>, k: nat)
    requires k < |s|
    requires forall i :: 0 <= i < |s| && i != k ==> f(s[i]) == 0
    ensures SumBy(f, s) == f(s[k])
  {
    var n := |s| - 1;
    assert forall i :: 0 <= i < n ==> s[..n][i] == s[i];
    if k == n {
      SumZero(f, s[..n]);
    } else {
      SumSingle(f, s[..n], k);
    }
  }

  lemma SumAppend<T>(f: T -> int, s: seq<T>, x: T)
    ensures SumBy(f, s + [x]) == SumBy(f, s) + f(x)
  {
  }

  /** With nothing negative, a single row is worth no more than all of them. */
  lemma {:induction false} SumAtLeast<T>(f: T -> int, s: seq<T>, k: nat)
    requires k < |s| && forall i :: 0 <= i < |s| ==> f(s[i]) >= 0
    ensures SumBy(f, s) >= f(s[k])
  {
    var front := s[..|s| - 1];
    assert forall i :: 0 <= i < |front| ==> front[i] == s[i];
    if k < |front| {
      SumAtLeast(f, front, k);
    } else {
      SumNotNegative(f, front);
    }
  }

  lemma {:induction false} SumNotNegative<T>(f: T -> int, s: seq<T>)
    requires forall i :: 0 <= i < |s| ==> f(s[i]) >= 0
    ensures SumBy(f, s) >= 0
  {
    if |s| > 0 {
      var front := s[..|s| - 1];
      assert forall i :: 0 <= i < |front| ==> front[i] == s[i];
      SumNotNegative(f, front);
    }
  }
}
