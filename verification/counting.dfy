/** Counting the entries of a sequence that satisfy a predicate. */
module Counting {

  /** How many entries of `s` satisfy `p`. */
  function CountWhere<T>(s: seq<T>, p: T -> bool): (c: nat)
    ensures c <= |s|
  {
    if |s| == 0 then 0 else (if p(s[0]) then 1 else 0) + CountWhere(s[1..], p)
  }

  /** Replacing one entry changes the count by what that entry contributed. */
  lemma {:induction false} CountAfterUpdate<T>(s: seq<T>, i: nat, x: T, p: T -> bool)
    requires i < |s|
    ensures CountWhere(s[i := x], p)
            == CountWhere(s, p) - (if p(s[i]) then 1 else 0) + (if p(x) then 1 else 0)
  {
    if i == 0 {
      assert s[i := x][1..] == s[1..];
    } else {
      assert s[i := x][1..] == s[1..][i - 1 := x];
      CountAfterUpdate(s[1..], i - 1, x, p);
    }
  }

  /** An entry that fails the predicate keeps the count below the length. */
  lemma {:induction false} CountMissesOne<T>(s: seq<T>, i: nat, p: T -> bool)
    requires i < |s| && !p(s[i])
    ensures CountWhere(s, p) < |s|
  {
    if i > 0 {
      CountMissesOne(s[1..], i - 1, p);
    }
  }

  /** An entry that satisfies the predicate is counted. */
  lemma {:induction false} CountHitsOne<T>(s: seq<T>, i: nat, p: T -> bool)
    requires i < |s| && p(s[i])
    ensures CountWhere(s, p) >= 1
  {
    if i > 0 {
      CountHitsOne(s[1..], i - 1, p);
    }
  }

  /** When no entry satisfies the predicate the count is zero. */
  lemma {:induction false} CountNone<T>(s: seq<T>, p: T -> bool)
    requires forall k :: 0 <= k < |s| ==> !p(s[k])
    ensures CountWhere(s, p) == 0
  {
    if |s| > 0 {
      CountNone(s[1..], p);
    }
  }

  /** The sum of `f` over the pairs of two sequences of equal length. */
  function SumBy<A, B>(xs: seq<A>, ys: seq<B>, f: (A, B) -> nat): nat
    requires |xs| == |ys|
  {
    if |xs| == 0 then 0 else f(xs[0], ys[0]) + SumBy(xs[1..], ys[1..], f)
  }

  /** Replacing one pair changes the sum by the difference of that pair's terms. */
  lemma {:induction false} SumByUpdate<A, B>(xs: seq<A>, ys: seq<B>, i: nat, x: A, y: B, f: (A, B) -> nat)
    requires |xs| == |ys| && i < |xs|
    ensures SumBy(xs[i := x], ys[i := y], f) + f(xs[i], ys[i]) == SumBy(xs, ys, f) + f(x, y)
  {
    if i == 0 {
      assert xs[i := x][1..] == xs[1..] && ys[i := y][1..] == ys[1..];
    } else {
      assert xs[i := x][1..] == xs[1..][i - 1 := x] && ys[i := y][1..] == ys[1..][i - 1 := y];
      SumByUpdate(xs[1..], ys[1..], i - 1, x, y, f);
    }
  }

  /** A bound on every term bounds the sum. */
  lemma {:induction false} SumByBound<A, B>(xs: seq<A>, ys: seq<B>, f: (A, B) -> nat, cap: real)
    requires |xs| == |ys|
    requires forall k :: 0 <= k < |xs| ==> (f(xs[k], ys[k]) as real) <= cap
    ensures (SumBy(xs, ys, f) as real) <= (|xs| as real) * cap
  {
    if |xs| > 0 {
      var xs', ys' := xs[1..], ys[1..];
      forall k | 0 <= k < |xs'|
        ensures (f(xs'[k], ys'[k]) as real) <= cap
      {
        assert xs'[k] == xs[k + 1] && ys'[k] == ys[k + 1];
      }
      SumByBound(xs', ys', f, cap);
      assert (|xs| as real) * cap == (|xs'| as real) * cap + cap;
    }
  }
}
