/**
 * Counts and sums over lists of records: the `len(recordset.filtered(...))`,
 * `sum(...)` and SQL `COUNT(*)` / `SUM(...)` aggregates of the reporting code.
 */
module Folds {

  /** The number of elements of `xs` satisfying `p`. */
  function Count<T>(xs: seq<T>, p: T -> bool): (n: nat)
    ensures n <= |xs|
  {
    if |xs| == 0 then 0 else (if p(xs[0]) then 1 else 0) + Count(xs[1..], p)
  }

  /** The elements of `xs` satisfying `p`, in order. */
  function Filter<T>(xs: seq<T>, p: T -> bool): (ys: seq<T>)
    ensures |ys| == Count(xs, p)
    ensures forall y :: y in ys ==> y in xs && p(y)
    ensures forall x :: x in xs && p(x) ==> x in ys
  {
    if |xs| == 0 then []
    else if p(xs[0]) then [xs[0]] + Filter(xs[1..], p)
    else Filter(xs[1..], p)
  }

  /** The sum of `f` over `xs`; the empty sum is 0. */
  function Sum<T>(xs: seq<T>, f: T -> real): real {
    if |xs| == 0 then 0.0 else f(xs[0]) + Sum(xs[1..], f)
  }

  /** `f` where `p` holds and 0 elsewhere: the `CASE WHEN p THEN f ELSE 0 END` of a SQL sum. */
  function Where<T>(p: T -> bool, f: T -> real): T -> real {
    x => if p(x) then f(x) else 0.0
  }

  /** The records whose `key` is `k`. */
  function KeyIs<T>(key: T -> nat, k: nat): T -> bool {
    x => key(x) == k
  }

  /** Applying `Where`: `f` where `p` holds, 0 elsewhere. */
  lemma WhereAt<T>(p: T -> bool, f: T -> real, x: T)
    ensures Where(p, f)(x) == if p(x) then f(x) else 0.0
  {
  }

  /** Applying `KeyIs`: the record's key is `k`. */
  lemma KeyIsAt<T>(key: T -> nat, k: nat, x: T)
    ensures KeyIs(key, k)(x) <==> key(x) == k
  {
  }

  /** The key of every record, in order. */
  function KeysOf<T>(xs: seq<T>, key: T -> nat): (ks: seq<nat>)
    ensures |ks| == |xs|
    ensures forall k :: 0 <= k < |xs| ==> ks[k] == key(xs[k])
  {
    seq(|xs|, k requires 0 <= k < |xs| => key(xs[k]))
  }

  /** The records whose `key` is one of `ks`. */
  function KeyIn<T>(key: T -> nat, ks: seq<nat>): T -> bool {
    x => key(x) in ks
  }

  /** For each key `k`, the sum of `f` over the records whose key is `k`. */
  function GroupTotal<T>(xs: seq<T>, key: T -> nat, f: T -> real): nat -> real {
    (k: nat) => Sum(xs, Where(KeyIs(key, k), f))
  }

  /** Applying `KeyIn`: the record's key is one of `ks`. */
  lemma KeyInAt<T>(key: T -> nat, ks: seq<nat>, x: T)
    ensures KeyIn(key, ks)(x) <==> key(x) in ks
  {
  }

  /** Applying `GroupTotal`: the sum of `f` over the records whose key is `k`. */
  lemma GroupTotalAt<T>(xs: seq<T>, key: T -> nat, f: T -> real, k: nat)
    ensures GroupTotal(xs, key, f)(k) == Sum(xs, Where(KeyIs(key, k), f))
  {
  }

  predicate Distinct<T(==)>(xs: seq<T>) {
    forall i, j :: 0 <= i < j < |xs| ==> xs[i] != xs[j]
  }

  /** The count is 0 exactly when no element satisfies `p`. */
  lemma {:induction false} CountZeroIff<T>(xs: seq<T>, p: T -> bool)
    ensures Count(xs, p) == 0 <==> forall i :: 0 <= i < |xs| ==> !p(xs[i])
  {
    if |xs| > 0 {
      CountZeroIff(xs[1..], p);
      assert forall i :: 1 <= i < |xs| ==> xs[i] == xs[1..][i - 1];
    }
  }

  /** When every element satisfies `p`, all are counted. */
  lemma {:induction false} CountAll<T>(xs: seq<T>, p: T -> bool)
    requires forall i :: 0 <= i < |xs| ==> p(xs[i])
    ensures Count(xs, p) == |xs|
  {
    if |xs| > 0 {
      CountAll(xs[1..], p);
    }
  }

  /** Counting `q` among the elements satisfying `p` counts the elements satisfying both. */
  lemma {:induction false} CountFiltered<T>(xs: seq<T>, p: T -> bool, q: T -> bool, both: T -> bool)
    requires forall i :: 0 <= i < |xs| ==> (both(xs[i]) <==> p(xs[i]) && q(xs[i]))
    ensures Count(Filter(xs, p), q) == Count(xs, both)
  {
    if |xs| > 0 {
      CountFiltered(xs[1..], p, q, both);
      if p(xs[0]) {
        var ys := [xs[0]] + Filter(xs[1..], p);
        assert ys[0] == xs[0] && ys[1..] == Filter(xs[1..], p);
      }
    }
  }

  /** Two lists that agree element by element under `f` and `g` have the same sums. */
  lemma {:induction false} SumCorresponding<T, U>(xs: seq<T>, f: T -> real, ys: seq<U>, g: U -> real)
    requires |xs| == |ys|
    requires forall i :: 0 <= i < |xs| ==> f(xs[i]) == g(ys[i])
    ensures Sum(xs, f) == Sum(ys, g)
  {
    if |xs| > 0 {
      SumCorresponding(xs[1..], f, ys[1..], g);
    }
  }

  /** Summing a pointwise sum is adding the sums. */
  lemma {:induction false} SumAdd<T>(xs: seq<T>, f: T -> real, g: T -> real, h: T -> real)
    requires forall i :: 0 <= i < |xs| ==> h(xs[i]) == f(xs[i]) + g(xs[i])
    ensures Sum(xs, h) == Sum(xs, f) + Sum(xs, g)
  {
    if |xs| > 0 {
      SumAdd(xs[1..], f, g, h);
    }
  }

  /** A sum of terms each between `lo` and `hi` lies between `lo` and `hi` times their number. */
  lemma {:induction false} SumBounds<T>(xs: seq<T>, f: T -> real, lo: real, hi: real)
    requires forall i :: 0 <= i < |xs| ==> lo <= f(xs[i]) <= hi
    ensures lo * |xs| as real <= Sum(xs, f) <= hi * |xs| as real
  {
    if |xs| > 0 {
      SumBounds(xs[1..], f, lo, hi);
    }
  }

  /** Pointwise smaller terms give a smaller sum. */
  lemma {:induction false} SumMonotone<T>(xs: seq<T>, f: T -> real, g: T -> real)
    requires forall i :: 0 <= i < |xs| ==> f(xs[i]) <= g(xs[i])
    ensures Sum(xs, f) <= Sum(xs, g)
  {
    if |xs| > 0 {
      SumMonotone(xs[1..], f, g);
    }
  }

  /** Pointwise smaller terms, one of them strictly, give a strictly smaller sum. */
  lemma {:induction false} SumStrictlyMonotone<T>(xs: seq<T>, f: T -> real, g: T -> real, j: nat)
    requires forall i :: 0 <= i < |xs| ==> f(xs[i]) <= g(xs[i])
    requires j < |xs| && f(xs[j]) < g(xs[j])
    ensures Sum(xs, f) < Sum(xs, g)
  {
    if j == 0 {
      SumMonotone(xs[1..], f, g);
    } else {
      SumStrictlyMonotone(xs[1..], f, g, j - 1);
    }
  }

  /** Summing over the filtered list is summing `f` where `p` holds and 0 elsewhere. */
  lemma {:induction false} SumFilter<T>(xs: seq<T>, p: T -> bool, f: T -> real)
    ensures Sum(Filter(xs, p), f) == Sum(xs, Where(p, f))
  {
    if |xs| > 0 {
      SumFilter(xs[1..], p, f);
    }
  }

  /** The constant 1, summed to count. */
  function One<T>(x: T): real {
    1.0
  }

  /** Summing 1 per record gives the number of records. */
  lemma {:induction false} SumOne<T>(xs: seq<T>)
    ensures Sum(xs, One) == |xs| as real
  {
    if |xs| > 0 {
      SumOne(xs[1..]);
    }
  }

  /** A count is the sum of 1 over the counted elements. */
  lemma {:induction false} CountIsSum<T>(xs: seq<T>, p: T -> bool)
    ensures Count(xs, p) as real == Sum(xs, Where(p, One))
  {
    if |xs| > 0 {
      CountIsSum(xs[1..], p);
    }
  }

  /**
   * Summing the per-key totals over distinct keys gives the total over the
   * records whose key is one of them: each such record is counted in exactly one
   * group.
   */
  lemma {:induction false} SumOfGroupTotals<T>(xs: seq<T>, key: T -> nat, f: T -> real, ks: seq<nat>)
    requires Distinct(ks)
    ensures Sum(ks, GroupTotal(xs, key, f)) == Sum(xs, Where(KeyIn(key, ks), f))
  {
    if |ks| == 0 {
      SumBounds(xs, Where(KeyIn(key, ks), f), 0.0, 0.0);
    } else {
      var rest := ks[1..];
      assert Distinct(rest);
      SumOfGroupTotals(xs, key, f, rest);
      assert ks[0] !in rest by {
        assert forall j :: 0 <= j < |rest| ==> rest[j] == ks[j + 1];
      }
      forall i | 0 <= i < |xs|
        ensures Where(KeyIn(key, ks), f)(xs[i]) == Where(KeyIs(key, ks[0]), f)(xs[i]) + Where(KeyIn(key, rest), f)(xs[i])
      {
        assert key(xs[i]) in ks <==> key(xs[i]) == ks[0] || key(xs[i]) in rest;
      }
      SumAdd(xs, Where(KeyIs(key, ks[0]), f), Where(KeyIn(key, rest), f), Where(KeyIn(key, ks), f));
      assert Sum(ks, GroupTotal(xs, key, f)) == GroupTotal(xs, key, f)(ks[0]) + Sum(rest, GroupTotal(xs, key, f));
    }
  }
}
