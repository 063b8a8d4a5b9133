/** Finite sums over index ranges and over the rows of a table. */
module Sums {

  /** f(0) + ... + f(n-1) */
  function Sum(n: nat, f: nat -> int): int {
    if n == 0 then 0 else Sum(n - 1, f) + f(n - 1)
  }

  /** g(s[0]) + ... + g(s[|s|-1]) */
  function SeqSum<T>(s: seq<T>, g: T -> int): int {
    if s == [] then 0 else SeqSum(s[..|s| - 1], g) + g(s[|s| - 1])
  }

  lemma {:induction false} SumSame(n: nat, f: nat -> int, g: nat -> int)
    requires forall i: nat | i < n :: f(i) == g(i)
    ensures Sum(n, f) == Sum(n, g)
  {
    if n == 0 {
    } else {
      SumSame(n - 1, f, g);
    }
  }

  lemma SumGrow(n: nat, f: nat -> int, g: nat -> int)
    requires forall i: nat | i < n :: f(i) == g(i)
    ensures Sum(n + 1, g) == Sum(n, f) + g(n)
  {
    SumSame(n, f, g);
  }

  /** Two functions that differ in one place have sums that differ by that place. */
  lemma {:induction false} SumBump(n: nat, f: nat -> int, g: nat -> int, k: nat)
    requires k < n
    requires forall i: nat | i < n && i != k :: f(i) == g(i)
    ensures Sum(n, g) == Sum(n, f) + g(k) - f(k)
  {
    if k == n - 1 { SumSame(n - 1, f, g); } else { SumBump(n - 1, f, g, k); }
  }

  lemma {:induction false} SumMono(n: nat, f: nat -> int, g: nat -> int)
    requires forall i: nat | i < n :: f(i) <= g(i)
    ensures Sum(n, f) <= Sum(n, g)
  {
    if n == 0 {
    } else {
      SumMono(n - 1, f, g);
    }
  }

  lemma {:induction false} ZeroSum(n: nat, f: nat -> int)
    requires forall i: nat | i < n :: f(i) == 0
    ensures Sum(n, f) == 0
  {
    if n == 0 {
    } else {
      ZeroSum(n - 1, f);
    }
  }

  lemma {:induction false} SumNonNegative(n: nat, f: nat -> int)
    requires forall i: nat | i < n :: 0 <= f(i)
    ensures 0 <= Sum(n, f)
  {
    if n == 0 {
    } else {
      SumNonNegative(n - 1, f);
    }
  }

  /** A sum of pointwise sums is bounded by the sum of the sums. */
  lemma {:induction false} SumBelowBoth(n: nat, f: nat -> int, g: nat -> int, h: nat -> int)
    requires forall i: nat | i < n :: f(i) <= g(i) + h(i)
    ensures Sum(n, f) <= Sum(n, g) + Sum(n, h)
  {
    if n == 0 {
    } else {
      SumBelowBoth(n - 1, f, g, h);
    }
  }

  /** Appending a row adds its weight. */
  lemma SeqSumAppend<T>(s: seq<T>, x: T, g: T -> int)
    ensures SeqSum(s + [x], g) == SeqSum(s, g) + g(x)
  {
    assert (s + [x])[..|s|] == s;
  }

  lemma {:induction false} SeqSumConcat<T>(s: seq<T>, t: seq<T>, g: T -> int)
    ensures SeqSum(s + t, g) == SeqSum(s, g) + SeqSum(t, g)
  {
    if t == [] {
      assert s + t == s;
    } else {
      var n := |t| - 1;
      assert (s + t)[..|s + t| - 1] == s + t[..n];
      SeqSumConcat(s, t[..n], g);
    }
  }

  /** Updating a row in place exchanges its weight. */
  lemma {:induction false} SeqSumUpdate<T>(s: seq<T>, k: nat, x: T, g: T -> int)
    requires k < |s|
    ensures SeqSum(s[k := x], g) == SeqSum(s, g) - g(s[k]) + g(x)
  {
    var n := |s| - 1;
    if k == n {
      assert s[k := x][..n] == s[..n];
    } else {
      assert s[k := x][..n] == s[..n][k := x];
      SeqSumUpdate(s[..n], k, x, g);
    }
  }

  lemma {:induction false} SeqSumSame<T>(s: seq<T>, g: T -> int, h: T -> int)
    requires forall x | x in s :: g(x) == h(x)
    ensures SeqSum(s, g) == SeqSum(s, h)
  {
    if s == [] {
    } else {
      SeqSumSame(s[..|s| - 1], g, h);
    }
  }

  lemma {:induction false} SeqSumNonNegative<T>(s: seq<T>, g: T -> int)
    requires forall x | x in s :: 0 <= g(x)
    ensures 0 <= SeqSum(s, g)
  {
    if s == [] {
    } else {
      SeqSumNonNegative(s[..|s| - 1], g);
    }
  }

  lemma {:induction false} SeqSumZero<T>(s: seq<T>, g: T -> int)
    requires forall x | x in s :: g(x) == 0
    ensures SeqSum(s, g) == 0
  {
    if s == [] {
    } else {
      SeqSumZero(s[..|s| - 1], g);
    }
  }

  /** With no negative weights, one row cannot outweigh the whole table. */
  lemma {:induction false} SeqSumAtLeast<T>(s: seq<T>, k: nat, g: T -> int)
    requires k < |s|
    requires forall x | x in s :: 0 <= g(x)
    ensures g(s[k]) <= SeqSum(s, g)
  {
    var n := |s| - 1;
    if k == n { SeqSumNonNegative(s[..n], g); } else { SeqSumAtLeast(s[..n], k, g); }
  }
}
