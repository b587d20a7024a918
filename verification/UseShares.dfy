/** How evenly tabs are used one after another: which pools share the uses out as a rotation would. */
module UseShares {
  import opened Prelude
  import opened LexSort
  import opened Rotation
  import opened ResidentPool
  import opened SequentialUse

  predicate EvenUses<T(==)>(order: seq<T>, k: nat, m: nat)
    requires k < |order|
  {
    forall i :: 0 <= i < |order| ==> FairShare(Count(order[i], Uses(order, k, m)), m, |order|)
  }

  /** One item, or two of which the second is used first. */
  predicate SharesEvenly(n: nat, k: nat) {
    n == 1 || (n == 2 && k == 1)
  }

  lemma CountNext<T>(order: seq<T>, k: nat, m: nat, next: seq<T>, k': nat, x: T)
    requires k < |order| && m > 0 && next == MoveToEnd(order, k) && k' == Wrap(k + 1, |order|)
    ensures Count(x, Uses(order, k, m)) == (if order[k] == x then 1 else 0) + Count(x, Uses(next, k', m - 1))
  {
    NextUse(order, k, m, next, k');
    assert Uses(order, k, m)[1..] == Uses(next, k', m - 1);
  }

  // ---------------------------------------------------------------- the even cases

  lemma {:induction false} OneItem<T>(order: seq<T>, m: nat)
    requires |order| == 1
    ensures Count(order[0], Uses(order, 0, m)) == m
  {
    if m > 0 {
      assert MoveToEnd(order, 0) == order;
      CountNext(order, 0, m, order, 0, order[0]);
      OneItem(order, m - 1);
    }
  }

  lemma MovePair<T>(a: T, b: T)
    ensures MoveToEnd([a, b], 1) == [a, b] && MoveToEnd([a, b], 0) == [b, a]
  {
  }

  /** Two uses from the second of two items are one of each, and leave the items swapped. */
  lemma {:induction false} TwoItems<T>(a: T, b: T, m: nat, x: T)
    requires a != b && (x == a || x == b)
    ensures FairShare(Count(x, Uses([a, b], 1, m)), m, 2)
    decreases m
  {
    MovePair(a, b);
    if m == 0 {
      assert Uses([a, b], 1, m) == [];
    } else {
      CountNext([a, b], 1, m, [a, b], 0, x);
      if m == 1 {
        assert Uses([a, b], 0, 0) == [];
      } else {
        CountNext([a, b], 0, m - 1, [b, a], 1, x);
        TwoItems(b, a, m - 2, x);
      }
    }
  }

  lemma EvenWhen<T>(order: seq<T>, k: nat, m: nat)
    requires Distinct(order) && k < |order| && SharesEvenly(|order|, k)
    ensures EvenUses(order, k, m)
  {
    if |order| == 1 {
      OneItem(order, m);
    } else {
      assert order == [order[0], order[1]];
      forall i | 0 <= i < 2 ensures FairShare(Count(order[i], Uses(order, k, m)), m, 2) {
        TwoItems(order[0], order[1], m, order[i]);
      }
    }
  }

  // ---------------------------------------------------------------- the others repeat an item within a round

  lemma MovedTail<T>(order: seq<T>, k: nat, f: nat, x: T)
    requires k < f <= |order|
    ensures x in MoveToEnd(order, k)[f - 1..] <==> x in order[f..] || x == order[k]
  {
    assert MoveToEnd(order, k)[f - 1..] == order[f..] + [order[k]];
  }

  lemma MovedDistinct<T>(order: seq<T>, k: nat)
    requires Distinct(order) && k < |order|
    ensures Distinct(MoveToEnd(order, k))
  {
  }

  /** With all from position `f` on used already: before `f` uses more an item is used for the second time,
      unless there are two items or less left to reach. */
  lemma {:induction false} Repeats<T>(order: seq<T>, k: nat, f: nat) returns (x: T, m: nat)
    requires Distinct(order) && k < |order| && 1 <= f <= |order| && f + k >= 2
    requires k + 1 == |order| == f ==> |order| >= 3
    ensures x in order && 1 <= m <= f
    ensures Count(x, Uses(order, k, m)) + (if x in order[f..] then 1 else 0) >= 2
    decreases f
  {
    var next, k' := MoveToEnd(order, k), Wrap(k + 1, |order|);
    if k >= f {
      x, m := order[k], 1;
      assert order[f..][k - f] == x;
      CountNext(order, k, 1, next, k', x);
    } else {
      MovedDistinct(order, k);
      x, m := Repeats(next, k', f - 1);
      m := m + 1;
      CountNext(order, k, m, next, k', x);
      MovedTail(order, k, f, x);
      MovedMember(order, k, x);
      NotInTail(order, k, f);
    }
  }

  lemma MovedMember<T>(order: seq<T>, k: nat, x: T)
    requires k < |order| && x in MoveToEnd(order, k)
    ensures x in order
  {
  }

  lemma NotInTail<T>(order: seq<T>, k: nat, f: nat)
    requires Distinct(order) && k < f <= |order|
    ensures order[k] !in order[f..]
  {
  }

  lemma TwiceIsUnfair(count: nat, m: nat, n: nat)
    requires 1 <= m <= n && count >= 2
    ensures !FairShare(count, m, n)
  {
    QuotientAtMost(1, m + n - 1, n);
  }

  lemma UnevenWhen<T>(order: seq<T>, k: nat) returns (m: nat)
    requires Distinct(order) && k < |order| && !SharesEvenly(|order|, k)
    ensures !EvenUses(order, k, m)
  {
    var x;
    x, m := Repeats(order, k, |order|);
    assert x !in order[|order|..];
    TwiceIsUnfair(Count(x, Uses(order, k, m)), m, |order|);
    var i :| 0 <= i < |order| && order[i] == x;
  }

  /** Each item gets its fair part of any number of uses exactly when there is one item, or there are two of
      which the second is used first. */
  lemma EvenUsesIff<T>(order: seq<T>, k: nat)
    requires Distinct(order) && k < |order|
    ensures (forall m: nat :: EvenUses(order, k, m)) <==> SharesEvenly(|order|, k)
  {
    if SharesEvenly(|order|, k) {
      forall m: nat ensures EvenUses(order, k, m) {
        EvenWhen(order, k, m);
      }
    } else {
      var m := UnevenWhen(order, k);
    }
  }

  // ---------------------------------------------------------------- the pool

  /** Each tab has its fair part of the uses. */
  ghost predicate EvenChoices(p: Pool, nows: seq<int>)
    requires |p.tabs| > 0
  {
    forall slot :: slot in p.tabs ==> FairShare(Count(slot, SequentialChoices(p, nows)), |nows|, |p.tabs|)
  }

  /** `m` times in a row. */
  function Clock(t: int, m: nat): (nows: seq<int>)
    ensures |nows| == m && Ticks(t, nows)
    decreases m
  {
    if m == 0 then [] else
      var later := Clock(t + 1, m - 1);
      assert ([t + 1] + later)[1..] == later;
      [t + 1] + later
  }

  lemma OrderIsTabs(tabs: map<Slot, Resident>, i: nat)
    requires i < |ByUsage(tabs, tabs.Keys)|
    ensures ByUsage(tabs, tabs.Keys)[i] in tabs
  {
    ListingLists(tabs);
  }

  lemma ChoicesEvenIff(p: Pool, t: int, nows: seq<int>, order: seq<Slot>)
    requires Alike(p.tabs) && Later(p.tabs, t + 1) && Ticks(t, nows) && order == ByUsage(p.tabs, p.tabs.Keys)
    ensures |order| == |p.tabs|
    ensures EvenChoices(p, nows) <==> EvenUses(order, Pointed(p), |nows|)
  {
    SequentialIsMoveToEnd(p, t, nows, order);
    if EvenChoices(p, nows) {
      forall i | 0 <= i < |order| ensures FairShare(Count(order[i], SequentialChoices(p, nows)), |nows|, |order|) {
        OrderIsTabs(p.tabs, i);
      }
    } else {
      var slot :| slot in p.tabs && !FairShare(Count(slot, SequentialChoices(p, nows)), |nows|, |order|);
      OrderHas(p.tabs, p.tabs.Keys, slot);
      var i :| 0 <= i < |order| && order[i] == slot;
    }
  }

  /** Alike tabs used one after another are shared out evenly, over any number of uses, exactly when there is
      one tab, or there are two and the pick index points at the second. */
  lemma SequentialFairIff(p: Pool, t: int)
    requires Alike(p.tabs) && Later(p.tabs, t + 1)
    ensures (forall nows :: Ticks(t, nows) ==> EvenChoices(p, nows)) <==> SharesEvenly(|p.tabs|, Pointed(p))
  {
    var order := ByUsage(p.tabs, p.tabs.Keys);
    OrderHasAll(p.tabs, p.tabs.Keys);
    assert |p.tabs.Keys| == |p.tabs|;
    if SharesEvenly(|p.tabs|, Pointed(p)) {
      forall nows | Ticks(t, nows) ensures EvenChoices(p, nows) {
        EvenWhen(order, Pointed(p), |nows|);
        ChoicesEvenIff(p, t, nows, order);
      }
    } else {
      var m := UnevenWhen(order, Pointed(p));
      ChoicesEvenIff(p, t, Clock(t, m), order);
    }
  }
}
