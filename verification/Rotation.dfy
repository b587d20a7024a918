/** Round-robin selection over a fixed ordered list, with a remembered last choice.

  The same rule serves accounts (`_select_round_robin`) and pooled projects
  (`_select_next_project`). */
module Rotation {
  import opened Prelude

  predicate Distinct<T(==)>(items: seq<T>) {
    forall i, j :: 0 <= i < j < |items| ==> items[i] != items[j]
  }

  lemma {:induction false} DistinctSize<T>(s: seq<T>)
    requires Distinct(s)
    ensures |set x | x in s| == |s|
  {
    if s != [] {
      DistinctSize(s[1..]);
      assert s == [s[0]] + s[1..];
      assert (set x | x in s) == {s[0]} + set x | x in s[1..];
    }
  }

  function IndexOf<T(==)>(items: seq<T>, x: T): (i: nat)
    requires x in items
    ensures i < |items| && items[i] == x
    ensures forall k :: 0 <= k < i ==> items[k] != x
  {
    if items[0] == x then 0 else 1 + IndexOf(items[1..], x)
  }

  lemma {:induction false} FirstIndex<T>(items: seq<T>, x: T, i: nat)
    requires i < |items| && items[i] == x && forall k :: 0 <= k < i ==> items[k] != x
    ensures x in items && IndexOf(items, x) == i
  {
  }

  function Successor(k: nat, n: nat): (i: nat)
    requires k < n
    ensures i == if k + 1 == n then 0 else k + 1
  {
    (k + 1) % n
  }

  /** One past the remembered choice, or the front when it is unset or no longer listed. */
  function NextIndex<T(==)>(items: seq<T>, last: Option<T>): (i: nat)
    requires items != []
    ensures i < |items|
    ensures last.None? || last.value !in items ==> i == 0
  {
    if last.Some? && last.value in items then Successor(IndexOf(items, last.value), |items|) else 0
  }

  lemma NextAfter<T>(items: seq<T>, k: nat)
    requires Distinct(items) && k < |items|
    ensures NextIndex(items, Some(items[k])) == Successor(k, |items|)
  {
  }

  function Select<T(==)>(items: seq<T>, last: Option<T>): T
    requires items != []
  {
    items[NextIndex(items, last)]
  }

  /** The choices of `m` successive selections, each remembering the one before. */
  function Picks<T(==)>(items: seq<T>, last: Option<T>, m: nat): (r: seq<T>)
    requires items != []
    ensures |r| == m
    decreases m
  {
    if m == 0 then [] else
      var x := Select(items, last);
      [x] + Picks(items, Some(x), m - 1)
  }

  function Count<T(==)>(x: T, s: seq<T>): nat {
    if s == [] then 0 else (if s[0] == x then 1 else 0) + Count(x, s[1..])
  }

  /** How many other choices come before item `i`. */
  function Wait<T(==)>(items: seq<T>, last: Option<T>, i: nat): (w: nat)
    requires i < |items|
    ensures w < |items|
  {
    var first := NextIndex(items, last);
    if i >= first then i - first else i + |items| - first
  }

  lemma WaitStep<T>(items: seq<T>, last: Option<T>, i: nat)
    requires Distinct(items) && i < |items|
    ensures var x := Select(items, last);
            && (items[i] == x <==> Wait(items, last, i) == 0)
            && Wait(items, Some(x), i) == if items[i] == x then |items| - 1 else Wait(items, last, i) - 1
  {
    NextAfter(items, NextIndex(items, last));
  }

  lemma MulSucc(c: nat, n: nat)
    ensures (c + 1) * n == c * n + n
  {
  }

  /** Item `i` comes up after `Wait` other choices and then at every |items|-th selection. */
  lemma {:induction false} PicksCount<T>(items: seq<T>, last: Option<T>, m: nat, i: nat)
    requires Distinct(items) && i < |items|
    ensures 0 <= m + (|items| - 1 - Wait(items, last, i)) - Count(items[i], Picks(items, last, m)) * |items| < |items|
    decreases m
  {
    if m > 0 {
      var x := Select(items, last);
      var later := Picks(items, Some(x), m - 1);
      PicksCount(items, Some(x), m - 1, i);
      WaitStep(items, last, i);
      assert Picks(items, last, m)[1..] == later;
      MulSucc(Count(items[i], later), |items|);
    }
  }

  lemma MulMonotone(a: nat, b: nat, n: nat)
    requires a <= b
    ensures a * n <= b * n
  {
  }

  lemma QuotientAtLeast(c: nat, a: nat, n: nat)
    requires n > 0 && c * n <= a
    ensures c <= a / n
  {
    if c > a / n {
      MulMonotone(a / n + 1, c, n);
    }
  }

  lemma QuotientAtMost(c: nat, a: nat, n: nat)
    requires n > 0 && a < c * n + n
    ensures a / n <= c
  {
    if a / n > c {
      MulMonotone(c + 1, a / n, n);
    }
  }

  /** `count` is a fair part of `m` among `n`. */
  predicate FairShare(count: nat, m: nat, n: nat)
    requires n > 0
  {
    m / n <= count <= (m + n - 1) / n
  }

  /** Fairness: over any `m` selections from `n` distinct items, whatever was chosen last, each
      item is chosen at least floor(m/n) and at most ceil(m/n) times. */
  lemma Fair<T>(items: seq<T>, last: Option<T>, m: nat, x: T)
    requires Distinct(items) && x in items
    ensures m / |items| <= Count(x, Picks(items, last, m)) <= (m + |items| - 1) / |items|
  {
    var i, n := IndexOf(items, x), |items|;
    var c := Count(x, Picks(items, last, m));
    PicksCount(items, last, m, i);
    QuotientAtLeast(c, m + n - 1, n);
    QuotientAtMost(c, m, n);
  }

  /** Between two choices of the same item every other item is chosen: the first |items|
      selections choose each exactly once. */
  lemma OneRound<T>(items: seq<T>, last: Option<T>, x: T)
    requires Distinct(items) && x in items
    ensures Count(x, Picks(items, last, |items|)) == 1
  {
    var n := |items|;
    Fair(items, last, n, x);
    QuotientAtLeast(1, n, n);
    QuotientAtMost(1, n + n - 1, n);
  }
}
