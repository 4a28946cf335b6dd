/** Sums over table rows, and how they move when rows are appended or updated. */
module Sums {

  ghost function Sum<T>(s: seq<T>, f: T -> int): int {
    if s == [] then 0 else Sum(s[..|s| - 1], f) + f(s[|s| - 1])
  }

  lemma SumAppend<T>(s: seq<T>, x: T, f: T -> int)
    ensures Sum(s + [x], f) == Sum(s, f) + f(x)
  {
    assert (s + [x])[..|s|] == s;
  }

  lemma {:induction false} SumConcat<T>(s: seq<T>, t: seq<T>, f: T -> int)
    ensures Sum(s + t, f) == Sum(s, f) + Sum(t, f)
  {
    if t == [] {
      assert s + t == s;
    } else {
      var u := t[..|t| - 1];
      SumConcat(s, u, f);
      assert s + t == (s + u) + [t[|t| - 1]];
      SumAppend(s + u, t[|t| - 1], f);
    }
  }

  lemma {:induction false} SumUpdate<T>(s: seq<T>, i: nat, x: T, f: T -> int)
    requires i < |s|
    ensures Sum(s[i := x], f) == Sum(s, f) - f(s[i]) + f(x)
  {
    var n := |s| - 1;
    if i == n {
      assert s[i := x][..n] == s[..n];
    } else {
      SumUpdate(s[..n], i, x, f);
      assert s[i := x][..n] == s[..n][i := x];
    }
  }

  /** Rows changed one by one so that f becomes f + g: the sum of f grows by the sum of g. */
  lemma {:induction false} SumShift<T>(s: seq<T>, t: seq<T>, f: T -> int, g: T -> int)
    requires |s| == |t|
    requires forall i | 0 <= i < |s| :: f(t[i]) == f(s[i]) + g(s[i])
    ensures Sum(t, f) == Sum(s, f) + Sum(s, g)
  {
    if s != [] {
      var n := |s| - 1;
      SumShift(s[..n], t[..n], f, g);
    }
  }

  lemma {:induction false} SumSame<T>(s: seq<T>, t: seq<T>, f: T -> int)
    requires |s| == |t|
    requires forall i | 0 <= i < |s| :: f(t[i]) == f(s[i])
    ensures Sum(t, f) == Sum(s, f)
  {
    if s != [] {
      var n := |s| - 1;
      SumSame(s[..n], t[..n], f);
    }
  }

  /** Two measures that agree on every row have the same sum. */
  lemma {:induction false} SumEqual<T>(s: seq<T>, f: T -> int, g: T -> int)
    requires forall i | 0 <= i < |s| :: f(s[i]) == g(s[i])
    ensures Sum(s, f) == Sum(s, g)
  {
    if s != [] {
      SumEqual(s[..|s| - 1], f, g);
    }
  }

  lemma {:induction false} SumZero<T>(s: seq<T>, f: T -> int)
    requires forall i | 0 <= i < |s| :: f(s[i]) == 0
    ensures Sum(s, f) == 0
  {
    if s != [] {
      SumZero(s[..|s| - 1], f);
    }
  }

  /** A sum of non-negative terms is at least any one of them. */
  lemma {:induction false} SumAtLeast<T>(s: seq<T>, f: T -> int, i: nat)
    requires i < |s|
    requires forall j | 0 <= j < |s| :: f(s[j]) >= 0
    ensures Sum(s, f) >= f(s[i])
  {
    var n := |s| - 1;
    if i < n {
      SumAtLeast(s[..n], f, i);
    } else {
      SumNonNegative(s[..n], f);
    }
  }

  lemma {:induction false} SumNonNegative<T>(s: seq<T>, f: T -> int)
    requires forall j | 0 <= j < |s| :: f(s[j]) >= 0
    ensures Sum(s, f) >= 0
  {
    if s != [] {
      SumNonNegative(s[..|s| - 1], f);
    }
  }

  /** A sum of non-negative terms is at least any two of them. */
  lemma {:induction false} SumAtLeastTwo<T>(s: seq<T>, f: T -> int, i: nat, j: nat)
    requires i < j < |s|
    requires forall k | 0 <= k < |s| :: f(s[k]) >= 0
    ensures Sum(s, f) >= f(s[i]) + f(s[j])
  {
    var n := |s| - 1;
    if j < n {
      SumAtLeastTwo(s[..n], f, i, j);
    } else {
      SumAtLeast(s[..n], f, i);
    }
  }
}
