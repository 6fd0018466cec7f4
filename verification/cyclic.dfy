/**
The "switch to next" rule shared by the painting layer and the selection mode:
given a fixed, ordered list of variants (an enumeration's `values()`), the
successor of a variant is the one at `(ordinal + 1) % length`, where the
ordinal is the variant's position in that list.
*/
module Cyclic {

  /** No variant occurs twice in the declared order. */
  predicate Distinct<T(==)>(values: seq<T>) {
    forall i, j | 0 <= i < j < |values| :: values[i] != values[j]
  }

  /** Position of `x` in the declared order: its first occurrence. */
  function IndexOf<T(==)>(values: seq<T>, x: T): (i: nat)
    requires x in values
    ensures i < |values| && values[i] == x
    ensures forall j | 0 <= j < i :: values[j] != x
  {
    if values[0] == x then 0 else 1 + IndexOf(values[1..], x)
  }

  /** In a list without repetitions, the ordinal of the variant at position `i` is `i`. */
  lemma IndexOfDistinct<T>(values: seq<T>, i: int)
    requires Distinct(values)
    requires 0 <= i < |values|
    ensures IndexOf(values, values[i]) == i
  {
  }

  /** The ordinal after `i` among `n` variants: `(i + 1) % n`, wrapping from the last back to `0`. */
  function SuccIndex(i: nat, n: nat): (j: nat)
    requires i < n
    ensures j == if i + 1 < n then i + 1 else 0
  {
    ModWrap(i + 1, n);
    (i + 1) % n
  }

  /** The variant after `x` in declared order, wrapping from the last one back to the first. */
  function Next<T(==)>(values: seq<T>, x: T): (y: T)
    requires x in values
    ensures y in values
    ensures IndexOf(values, x) + 1 < |values| ==> y == values[IndexOf(values, x) + 1]
    ensures IndexOf(values, x) + 1 == |values| ==> y == values[0]
  {
    values[SuccIndex(IndexOf(values, x), |values|)]
  }

  /** The variant reached from `x` after `k` successive switches. */
  function Iterate<T(==)>(values: seq<T>, x: T, k: nat): (y: T)
    requires x in values
    ensures y in values
    decreases k
  {
    if k == 0 then x else Next(values, Iterate(values, x, k - 1))
  }

  lemma MulAtLeast(d: int, n: int)
    requires d >= 1 && n > 0
    ensures d * n >= n
  {
    assert d * n == (d - 1) * n + n;
  }

  /** Euclidean division has a unique quotient and remainder. */
  lemma ModUnique(a: int, n: int, q: int, r: int)
    requires n > 0 && 0 <= r < n
    requires a == q * n + r
    ensures a % n == r
  {
    var q', r' := a / n, a % n;
    assert (q - q') * n == r' - r;
    if q > q' {
      MulAtLeast(q - q', n);
    } else if q < q' {
      MulAtLeast(q' - q, n);
    }
  }

  /** Reducing a number below twice the modulus subtracts the modulus at most once. */
  lemma ModWrap(a: int, n: int)
    requires n > 0 && 0 <= a < 2 * n
    ensures a % n == if a < n then a else a - n
  {
    if a < n {
      ModUnique(a, n, 0, a);
    } else {
      ModUnique(a, n, 1, a - n);
    }
  }

  /** Position `k` places after `i` in a cycle of length `n`, for at most one full turn. */
  function Wrap(i: nat, k: nat, n: nat): (p: nat)
    requires i < n && k <= n
  {
    if i + k < n then i + k else i + k - n
  }

  /** The successor of the variant at position `j` is at position `j + 1`, or `0` after the last one. */
  lemma NextAt<T>(values: seq<T>, j: nat)
    requires Distinct(values)
    requires j < |values|
    ensures Next(values, values[j]) == if j + 1 < |values| then values[j + 1] else values[0]
  {
  }

  /** After `k` switches (at most one full turn) the variant is the one `k` places further on, wrapping. */
  lemma {:induction false} IterateIndex<T>(values: seq<T>, x: T, k: nat)
    requires Distinct(values)
    requires x in values
    requires k <= |values|
    ensures Wrap(IndexOf(values, x), k, |values|) < |values|
    ensures Iterate(values, x, k) == values[Wrap(IndexOf(values, x), k, |values|)]
  {
    if k > 0 {
      var i := IndexOf(values, x);
      var w := Wrap(i, k - 1, |values|);
      IterateIndex(values, x, k - 1);
      NextAt(values, w);
      assert Iterate(values, x, k) == Next(values, values[w]);
      assert Wrap(i, k, |values|) == if w + 1 < |values| then w + 1 else 0;
    }
  }

  /** Switching as many times as there are variants returns to the starting variant. */
  lemma CyclePeriod<T>(values: seq<T>, x: T)
    requires Distinct(values)
    requires x in values
    ensures Iterate(values, x, |values|) == x
  {
    IterateIndex(values, x, |values|);
  }

  /** Fewer switches than there are variants never return to an earlier variant: each is visited once. */
  lemma CycleVisitsOnce<T>(values: seq<T>, x: T, j: nat, k: nat)
    requires Distinct(values)
    requires x in values
    requires j < k < |values|
    ensures Iterate(values, x, j) != Iterate(values, x, k)
  {
    var i := IndexOf(values, x);
    IterateIndex(values, x, j);
    IterateIndex(values, x, k);
    var a, b := Wrap(i, j, |values|), Wrap(i, k, |values|);
    if a < b {
      assert values[a] != values[b];
    } else {
      assert values[b] != values[a];
    }
  }

  /** Every variant is reached after fewer switches than there are variants. */
  lemma CycleVisitsAll<T>(values: seq<T>, x: T, y: T)
    requires Distinct(values)
    requires x in values && y in values
    ensures exists k: nat :: k < |values| && Iterate(values, x, k) == y
  {
    var i, t := IndexOf(values, x), IndexOf(values, y);
    var k: nat := if i <= t then t - i else t + |values| - i;
    IterateIndex(values, x, k);
  }
}
