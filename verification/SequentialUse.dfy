/** Selections with the chosen tab used in between (src/services/browser_captcha_personal.py): every use
    moves the tab to the end of the usage order while the pick index keeps rotating over it. */
module SequentialUse {
  import opened Prelude
  import opened LexSort
  import opened Rotation
  import opened ResidentPool
  import PoolRuns

  // ---------------------------------------------------------------- rotation composed with move-to-end

  function MoveToEnd<T>(order: seq<T>, k: nat): (r: seq<T>)
    requires k < |order|
    ensures |r| == |order|
  {
    order[..k] + order[k + 1..] + [order[k]]
  }

  /** The items chosen and used one after another, from pick index `k`. */
  function Uses<T>(order: seq<T>, k: nat, m: nat): (r: seq<T>)
    requires k < |order|
    ensures |r| == m
    decreases m
  {
    if m == 0 then [] else [order[k]] + Uses(MoveToEnd(order, k), Wrap(k + 1, |order|), m - 1)
  }

  lemma NextUse<T>(order: seq<T>, k: nat, m: nat, order': seq<T>, k': nat)
    requires k < |order| && m > 0 && order' == MoveToEnd(order, k) && k' == Wrap(k + 1, |order|)
    ensures Uses(order, k, m) == [order[k]] + Uses(order', k', m - 1)
  {
  }

  lemma OneUse<T>(order: seq<T>, k: nat)
    requires k < |order|
    ensures Uses(order, k, 1) == [order[k]]
  {
    assert Uses(MoveToEnd(order, k), Wrap(k + 1, |order|), 0) == [];
  }

  /** With two or more items the last two uses before the index wraps hit the same one. */
  lemma SameTabTwice<T>(order: seq<T>, k: nat, m: nat)
    requires |order| == k + 2 && m == 2
    ensures Uses(order, k, m) == [order[k], order[k]]
  {
    var next := MoveToEnd(order, k);
    NextUse(order, k, m, next, k + 1);
    OneUse(next, k + 1);
    assert next[k + 1] == order[k];
  }

  lemma MoveFirst<T>(a: T, b: T, c: T)
    ensures MoveToEnd([a, b, c], 0) == [b, c, a]
  {
  }

  lemma MoveSecond<T>(a: T, b: T, c: T)
    ensures MoveToEnd([a, b, c], 1) == [a, c, b]
  {
  }

  lemma MoveThird<T>(a: T, b: T, c: T)
    ensures MoveToEnd([a, b, c], 2) == [a, b, c]
  {
  }

  /** One round over three alike tabs: the first, and the last twice. */
  lemma ThreeUses<T>(a: T, b: T, c: T, m: nat)
    requires m >= 3
    ensures Uses([a, b, c], 0, m) == [a, c, c] + Uses([b, a, c], 0, m - 3)
  {
    MoveFirst(a, b, c);
    MoveSecond(b, c, a);
    MoveThird(b, a, c);
    NextUse([a, b, c], 0, m, [b, c, a], 1);
    NextUse([b, c, a], 1, m - 1, [b, a, c], 2);
    NextUse([b, a, c], 2, m - 2, [b, a, c], 0);
  }

  /** So of six uses of three alike tabs one tab gets four. */
  lemma SixUses<T>(a: T, b: T, c: T, m: nat)
    requires m == 6
    ensures Uses([a, b, c], 0, m) == [a, c, c, b, c, c]
  {
    ThreeUses(a, b, c, m);
    ThreeUses(b, a, c, m - 3);
  }

  // ---------------------------------------------------------------- nobody starves

  /** Uses that may pass before item `i` comes up, when the index is at `k` of `n`. */
  function Delay(i: nat, k: nat, n: nat): nat
    requires i < n && k < n
  {
    i * n + if k == 0 then 0 else n - k
  }

  /** Where item `i` goes when item `k` is used. */
  function Shifted(i: nat, k: nat): nat
    requires i != k
  {
    if i < k then i else i - 1
  }

  lemma DelayFalls(i: nat, k: nat, n: nat)
    requires i < n && k < n && i != k
    ensures Delay(Shifted(i, k), Wrap(k + 1, n), n) < Delay(i, k, n)
  {
    if i > k {
      Rotation.MulSucc(i - 1, n);
    }
  }

  /** At least the front of the list is used in every round, so every tab is used within its delay. */
  lemma {:induction false} NobodyStarves<T>(order: seq<T>, k: nat, m: nat, i: nat)
    requires i < |order| && k < |order| && m > Delay(i, k, |order|)
    ensures order[i] in Uses(order, k, m)
    decreases m
  {
    var next := MoveToEnd(order, k);
    var k' := Wrap(k + 1, |order|);
    NextUse(order, k, m, next, k');
    if i != k {
      DelayFalls(i, k, |order|);
      NobodyStarves(next, k', m - 1, Shifted(i, k));
    }
  }

  // ---------------------------------------------------------------- the pool does exactly this

  /** Every tab ready and idle. */
  predicate Alike(tabs: map<Slot, Resident>) {
    |tabs| > 0 && forall s :: s in tabs ==> tabs[s].ready && !tabs[s].busy
  }

  /** Later than anything the pool has recorded. */
  predicate Later(tabs: map<Slot, Resident>, now: int) {
    forall s :: s in tabs ==> tabs[s].lastUsed < now
  }

  function Used(tabs: map<Slot, Resident>, slot: Slot, now: int): map<Slot, Resident>
    requires slot in tabs
  {
    tabs[slot := tabs[slot].(lastUsed := now, useCount := tabs[slot].useCount + 1)]
  }

  /** A selection, and the chosen tab used before the next one. */
  ghost function SelectAndUse(p: Pool, now: int): (Slot, Pool)
    requires |p.tabs| > 0
  {
    var slot := Choose(p).value;
    (slot, Rotate(p).(tabs := Used(p.tabs, slot, now)))
  }

  /** It is a selection followed by the touch that ends a solve. */
  lemma SelectAndUseIsTouch(p: Pool, now: int)
    requires Alike(p.tabs)
    ensures var (slot, q) := SelectAndUse(p, now);
            var touch := PoolRuns.Touch(slot, true, false, now, p.tabs[slot].useCount + 1);
            q == PoolRuns.OutsideStep(ResidentPool.Select(p).1, touch)
  {
  }

  lemma AlikeClass(p: Pool)
    requires Alike(p.tabs)
    ensures BestClass(p.tabs) == p.tabs.Keys
  {
    assert ReadyIdle(p.tabs) == p.tabs.Keys;
    assert |p.tabs.Keys| == |p.tabs|;
  }

  /** The usage order's entries once entry `k` has been used at `now`. */
  ghost function Moved(tabs: map<Slot, Resident>, listing: seq<Keyed<Slot>>, k: nat, now: int): seq<Keyed<Slot>>
    requires k < |listing| && listing[k].item in tabs
  {
    var slot := listing[k].item;
    listing[..k] + listing[k + 1..] + [Keyed(UsageKey(Used(tabs, slot, now), slot), slot)]
  }

  /** What a listing of the tabs is, entry by entry. */
  ghost predicate Lists(tabs: map<Slot, Resident>, listing: seq<Keyed<Slot>>) {
    && |listing| == |tabs| && Sorted(listing)
    && (forall i :: 0 <= i < |listing| ==> listing[i].item in tabs && listing[i].key == UsageKey(tabs, listing[i].item))
    && (forall i, j :: 0 <= i < j < |listing| ==> listing[i].item != listing[j].item)
  }

  lemma ListingLists(tabs: map<Slot, Resident>)
    ensures Lists(tabs, Listing(Ranked(tabs, tabs.Keys)))
  {
    var listing := Listing(Ranked(tabs, tabs.Keys));
    OrderHasAll(tabs, tabs.Keys);
    ListingSorted(Ranked(tabs, tabs.Keys));
    ListingMembers(Ranked(tabs, tabs.Keys));
    assert |tabs.Keys| == |tabs|;
    forall i | 0 <= i < |listing| ensures listing[i] == Keyed(UsageKey(tabs, listing[i].item), listing[i].item) {
      assert listing[i] in listing;
    }
    forall i, j | 0 <= i < j < |listing| ensures listing[i].item != listing[j].item {
      assert ByUsage(tabs, tabs.Keys)[i] != ByUsage(tabs, tabs.Keys)[j];
    }
  }

  lemma MovedLists(tabs: map<Slot, Resident>, listing: seq<Keyed<Slot>>, k: nat, now: int)
    requires Lists(tabs, listing) && k < |listing| && Later(tabs, now)
    ensures Lists(Used(tabs, listing[k].item, now), Moved(tabs, listing, k, now))
  {
    var after, moved := Used(tabs, listing[k].item, now), Moved(tabs, listing, k, now);
    assert after.Keys == tabs.Keys && |after.Keys| == |after| && |tabs.Keys| == |tabs|;
    MovedSorted(tabs, listing, k, now);
    forall i | 0 <= i < |moved| ensures moved[i].item in after && moved[i].key == UsageKey(after, moved[i].item) {
      MovedEntry(tabs, listing, k, now, i);
    }
    MovedApart(listing, k, moved[|moved| - 1], moved);
  }

  lemma MovedEntry(tabs: map<Slot, Resident>, listing: seq<Keyed<Slot>>, k: nat, now: int, i: nat)
    requires Lists(tabs, listing) && k < |listing| && i < |listing|
    ensures var after, x := Used(tabs, listing[k].item, now), Moved(tabs, listing, k, now)[i];
            x.item in after && x.key == UsageKey(after, x.item)
  {
    if i < |listing| - 1 {
      var j := if i < k then i else i + 1;
      assert Moved(tabs, listing, k, now)[i] == listing[j] && listing[j].item != listing[k].item;
    }
  }

  lemma MovedApart<T>(s: seq<Keyed<T>>, k: nat, last: Keyed<T>, moved: seq<Keyed<T>>)
    requires k < |s| && last.item == s[k].item && moved == s[..k] + s[k + 1..] + [last]
    requires forall i, j :: 0 <= i < j < |s| ==> s[i].item != s[j].item
    ensures forall i, j :: 0 <= i < j < |moved| ==> moved[i].item != moved[j].item
  {
  }

  lemma MovedSorted(tabs: map<Slot, Resident>, listing: seq<Keyed<Slot>>, k: nat, now: int)
    requires Lists(tabs, listing) && k < |listing| && Later(tabs, now)
    ensures Sorted(Moved(tabs, listing, k, now))
  {
    var slot := listing[k].item;
    var last := Keyed(UsageKey(Used(tabs, slot, now), slot), slot);
    forall i | 0 <= i < |listing| ensures LexLeq(listing[i].key, last.key) {
      assert listing[i].key[0] == tabs[listing[i].item].lastUsed < now == last.key[0];
    }
  }

  lemma ListsIsListing(tabs: map<Slot, Resident>, s: seq<Keyed<Slot>>)
    requires Lists(tabs, s)
    ensures s == Listing(Ranked(tabs, tabs.Keys))
  {
    var entries := Ranked(tabs, tabs.Keys);
    RankedSize(tabs, tabs.Keys);
    UsageKeysDistinct(tabs, tabs.Keys);
    assert |tabs.Keys| == |tabs|;
    forall x | x in s ensures x in entries {
    }
    assert Distinct(s);
    AllListed(s, entries);
    ListingUnique(entries, s);
  }

  /** A list of distinct members as long as the set has them all. */
  lemma AllListed<T>(s: seq<T>, entries: set<T>)
    requires |s| == |entries| && Distinct(s) && forall x :: x in s ==> x in entries
    ensures forall x :: x in entries ==> x in s
  {
    var listed := set x | x in s;
    DistinctSize(s);
    assert listed <= entries;
    SameSize(listed, entries);
  }

  lemma SameSize<T>(a: set<T>, b: set<T>)
    requires a <= b && |a| == |b|
    ensures a == b
  {
    SubsetSize(b - a, b);
    assert b == a + (b - a);
  }

  lemma MovedItems<T>(s: seq<Keyed<T>>, k: nat, last: Keyed<T>, moved: seq<Keyed<T>>)
    requires k < |s| && last.item == s[k].item && moved == s[..k] + s[k + 1..] + [last]
    ensures Items(moved) == MoveToEnd(Items(s), k)
  {
    var items, end := Items(moved), MoveToEnd(Items(s), k);
    forall i | 0 <= i < |s| ensures items[i] == end[i] {
      assert items[i] == moved[i].item;
    }
    assert items == end;
  }

  /** Using a tab moves it to the end of the usage order and leaves the others where they were. */
  lemma UseMovesToEnd(tabs: map<Slot, Resident>, k: nat, now: int)
    requires k < |ByUsage(tabs, tabs.Keys)| && Later(tabs, now) && ByUsage(tabs, tabs.Keys)[k] in tabs
    ensures var order := ByUsage(tabs, tabs.Keys);
            var after := Used(tabs, order[k], now);
            after.Keys == tabs.Keys && ByUsage(after, tabs.Keys) == MoveToEnd(order, k)
  {
    var listing := Listing(Ranked(tabs, tabs.Keys));
    ListingLists(tabs);
    MovedLists(tabs, listing, k, now);
    ListsIsListing(Used(tabs, listing[k].item, now), Moved(tabs, listing, k, now));
    MovedItems(listing, k, Keyed(UsageKey(Used(tabs, listing[k].item, now), listing[k].item), listing[k].item),
               Moved(tabs, listing, k, now));
  }

  /** The tabs chosen when each is used, at the given times, before the next selection. */
  ghost function SequentialChoices(p: Pool, nows: seq<int>): seq<Slot>
    requires |p.tabs| > 0
    decreases |nows|
  {
    if nows == [] then [] else
      var (slot, q) := SelectAndUse(p, nows[0]);
      assert slot in q.tabs;
      [slot] + SequentialChoices(q, nows[1..])
  }

  /** Times that follow `t` and each other. */
  predicate Ticks(t: int, nows: seq<int>)
    decreases |nows|
  {
    nows == [] || (t < nows[0] && Ticks(nows[0], nows[1..]))
  }

  lemma UseStaysAlike(p: Pool, now: int, slot: Slot)
    requires Alike(p.tabs) && slot in p.tabs && Later(p.tabs, now)
    ensures var after := Used(p.tabs, slot, now);
            Alike(after) && |after| == |p.tabs| && forall later :: now < later ==> Later(after, later)
  {
    var after := Used(p.tabs, slot, now);
    assert after.Keys == p.tabs.Keys && |after.Keys| == |after| && |p.tabs.Keys| == |p.tabs|;
  }

  /** One selection with its use. */
  lemma OneSelection(p: Pool, now: int, order: seq<Slot>, k: nat, q: Pool)
    requires Alike(p.tabs) && Later(p.tabs, now) && k == Pointed(p)
    requires order == ByUsage(p.tabs, p.tabs.Keys) && q == SelectAndUse(p, now).1
    ensures |order| == |p.tabs| == |q.tabs| && Choose(p) == Some(order[k]) && Alike(q.tabs) && Later(q.tabs, now + 1)
    ensures Pointed(q) == Wrap(k + 1, |order|) && ByUsage(q.tabs, q.tabs.Keys) == MoveToEnd(order, k)
  {
    AlikeClass(p);
    ChooseByIndex(p);
    UseStaysAlike(p, now, order[k]);
    UseMovesToEnd(p.tabs, k, now);
    RotatePoints(p, q, k);
  }

  /** The tabs chosen are those of the rotation composed with move-to-end. */
  ghost predicate MovesToEnd(p: Pool, nows: seq<int>, order: seq<Slot>) {
    0 < |p.tabs| == |order| && SequentialChoices(p, nows) == Uses(order, Pointed(p), |nows|)
  }

  lemma ChoicesUnfold(p: Pool, nows: seq<int>, q: Pool)
    requires |p.tabs| > 0 && nows != [] && SelectAndUse(p, nows[0]).1 == q && |q.tabs| > 0
    ensures SequentialChoices(p, nows) == [Choose(p).value] + SequentialChoices(q, nows[1..])
  {
  }

  lemma NextSelection(p: Pool, nows: seq<int>, order: seq<Slot>, k: nat, q: Pool)
    requires 0 < |p.tabs| == |order| && nows != [] && SelectAndUse(p, nows[0]).1 == q && k == Pointed(p)
    requires Choose(p) == Some(order[k]) && |q.tabs| > 0 && Pointed(q) == Wrap(k + 1, |order|)
    requires MovesToEnd(q, nows[1..], MoveToEnd(order, k))
    ensures MovesToEnd(p, nows, order)
  {
    ChoicesUnfold(p, nows, q);
    NextUse(order, k, |nows|, MoveToEnd(order, k), Pointed(q));
  }

  lemma NextTick(t: int, nows: seq<int>)
    requires nows != [] && Ticks(t, nows)
    ensures t < nows[0] && Ticks(nows[0], nows[1..])
  {
  }

  /** Selections of alike tabs, each used before the next, are the rotation composed with move-to-end. */
  lemma {:induction false} SequentialIsMoveToEnd(p: Pool, t: int, nows: seq<int>, order: seq<Slot>)
    requires Alike(p.tabs) && Later(p.tabs, t + 1) && Ticks(t, nows)
    requires order == ByUsage(p.tabs, p.tabs.Keys)
    ensures |order| == |p.tabs| && MovesToEnd(p, nows, order)
    decreases |nows|
  {
    AlikeClass(p);
    ChooseByIndex(p);
    if nows != [] {
      var q, k := SelectAndUse(p, nows[0]).1, Pointed(p);
      NextTick(t, nows);
      OneSelection(p, nows[0], order, k, q);
      SequentialIsMoveToEnd(q, nows[0], nows[1..], MoveToEnd(order, k));
      NextSelection(p, nows, order, k, q);
    }
  }

  /** Even so no tab is left out: of n alike tabs each is used within any n * n uses. */
  lemma EveryTabUsed(p: Pool, t: int, nows: seq<int>, slot: Slot)
    requires Alike(p.tabs) && Later(p.tabs, t + 1) && Ticks(t, nows)
    requires slot in p.tabs && |nows| >= |p.tabs| * |p.tabs|
    ensures slot in SequentialChoices(p, nows)
  {
    var order := ByUsage(p.tabs, p.tabs.Keys);
    OrderHas(p.tabs, p.tabs.Keys, slot);
    SequentialIsMoveToEnd(p, t, nows, order);
    var i := IndexOf(order, slot);
    DelayBound(i, Pointed(p), |order|);
    NobodyStarves(order, Pointed(p), |nows|, i);
  }

  lemma DelayBound(i: nat, k: nat, n: nat)
    requires i < n && k < n
    ensures Delay(i, k, n) < n * n
  {
    MulMonotone(i + 1, n, n);
    MulSucc(i, n);
  }

  /** Two uses in a row before the index wraps fall on one tab: with two alike tabs, the very first two. */
  lemma UsedTwice(p: Pool, t: int, nows: seq<int>)
    requires Alike(p.tabs) && Pointed(p) + 2 == |p.tabs| && Later(p.tabs, t + 1) && Ticks(t, nows) && |nows| == 2
    ensures Choose(p).Some? && SequentialChoices(p, nows) == [Choose(p).value, Choose(p).value]
  {
    var order := ByUsage(p.tabs, p.tabs.Keys);
    AlikeClass(p);
    ChooseByIndex(p);
    SequentialIsMoveToEnd(p, t, nows, order);
    SameTabTwice(order, Pointed(p), 2);
  }

  /** Two fresh tabs used one after the other: one of them is used twice and the other not at all. */
  lemma TwoTabsUnfair(a: Slot, b: Slot, p: Pool, nows: seq<int>)
    requires a != b && p.pick == 0 && p.tabs == map[a := Fresh(0, 0), b := Fresh(1, 0)] && nows == [1, 2]
    ensures var s := SequentialChoices(p, nows); s == [a, a] || s == [b, b]
  {
    assert p.tabs.Keys == {a, b} && |p.tabs.Keys| == |p.tabs|;
    assert Ticks(1, nows[1..]);
    UsedTwice(p, 0, nows);
    assert Choose(p).value in p.tabs;
  }
}
