/** Which tab a selection takes, in terms of the tabs themselves (`_select_resident_slot_locked` of
    src/services/browser_captcha_personal.py). */
module TabChoice {
  import opened Prelude
  import opened LexSort
  import opened Rotation
  import opened ResidentPool

  /** Ready and free comes first, then ready but busy, then free but not ready, then neither. */
  function Rank(r: Resident): int {
    if r.ready then (if r.busy then 1 else 0) else (if r.busy then 3 else 2)
  }

  predicate NameBefore(a: string, b: string) {
    b != "" && (a == "" || a[0] < b[0] || (a[0] == b[0] && NameBefore(a[1..], b[1..])))
  }

  /** Used less recently, or then less often, or then older, or then of a smaller id. */
  predicate Before(tabs: map<Slot, Resident>, s: Slot, t: Slot)
    requires s in tabs && t in tabs
  {
    var a, b := tabs[s], tabs[t];
    if a.lastUsed != b.lastUsed then a.lastUsed < b.lastUsed
    else if a.useCount != b.useCount then a.useCount < b.useCount
    else if a.createdAt != b.createdAt then a.createdAt < b.createdAt
    else NameBefore(s, t)
  }

  lemma {:induction false} NamesByCode(a: string, b: string)
    ensures LexLess(Codes(a), Codes(b)) <==> NameBefore(a, b)
  {
    if a != "" && b != "" {
      NamesByCode(a[1..], b[1..]);
      LexCons(a[0] as int, b[0] as int, Codes(a[1..]), Codes(b[1..]));
    }
  }

  lemma KeysByUse(tabs: map<Slot, Resident>, s: Slot, t: Slot)
    requires s in tabs && t in tabs
    ensures LexLess(UsageKey(tabs, s), UsageKey(tabs, t)) <==> Before(tabs, s, t)
  {
    var a, b := tabs[s], tabs[t];
    NamesByCode(s, t);
    LexCons(a.createdAt, b.createdAt, Codes(s), Codes(t));
    LexCons(a.useCount, b.useCount, [a.createdAt] + Codes(s), [b.createdAt] + Codes(t));
    LexCons(a.lastUsed, b.lastUsed, [a.useCount] + ([a.createdAt] + Codes(s)), [b.useCount] + ([b.createdAt] + Codes(t)));
    KeyParts(tabs, s);
    KeyParts(tabs, t);
  }

  lemma KeyParts(tabs: map<Slot, Resident>, s: Slot)
    requires s in tabs
    ensures UsageKey(tabs, s) == [tabs[s].lastUsed] + ([tabs[s].useCount as int] + ([tabs[s].createdAt] + Codes(s)))
  {
  }

  /** The tabs of a rank. */
  function OfRank(tabs: map<Slot, Resident>, rank: int): set<Slot> {
    set s | s in tabs && Rank(tabs[s]) == rank
  }

  lemma BestIsLowest(tabs: map<Slot, Resident>, s: Slot)
    requires s in BestClass(tabs)
    ensures s in tabs && BestClass(tabs) == OfRank(tabs, Rank(tabs[s]))
    ensures forall t :: t in tabs ==> Rank(tabs[s]) <= Rank(tabs[t])
  {
    assert ReadyIdle(tabs) == OfRank(tabs, 0) && ReadyBusy(tabs) == OfRank(tabs, 1) && ColdIdle(tabs) == OfRank(tabs, 2);
    forall t | t in tabs ensures Rank(tabs[s]) <= Rank(tabs[t]) {
      assert t in OfRank(tabs, Rank(tabs[t]));
    }
    if ReadyIdle(tabs) == {} && ReadyBusy(tabs) == {} && ColdIdle(tabs) == {} {
      forall t | t in tabs ensures t in OfRank(tabs, 3) {
        assert t in OfRank(tabs, Rank(tabs[t]));
      }
    }
  }

  /** Those of the same rank as `s` that come before it. */
  function Ahead(tabs: map<Slot, Resident>, s: Slot): set<Slot>
    requires s in tabs
  {
    set t | t in tabs && Rank(tabs[t]) == Rank(tabs[s]) && Before(tabs, t, s)
  }

  lemma {:induction false} FrontSize(order: seq<Slot>, i: nat)
    requires Distinct(order) && i <= |order|
    ensures |set s | s in order[..i]| == i
  {
    DistinctSize(order[..i]);
  }

  /** Position `i` of the usage order of a class has `i` members of the class before it. */
  lemma AheadAt(tabs: map<Slot, Resident>, items: set<Slot>, i: nat)
    requires items <= tabs.Keys && i < |items|
    ensures |ByUsage(tabs, items)| == |items| && ByUsage(tabs, items)[i] in tabs
    ensures |set t | t in items && Before(tabs, t, ByUsage(tabs, items)[i])| == i
  {
    var order := ByUsage(tabs, items);
    OrderHasAll(tabs, items);
    forall j | 0 <= j < |order| ensures order[j] in items {
      EntryOf(tabs, items, j);
    }
    var front := set s | s in order[..i];
    var ahead := set t | t in items && Before(tabs, t, order[i]);
    forall t | t in items ensures t in ahead <==> t in front {
      OrderHas(tabs, items, t);
      var j :| 0 <= j < |order| && order[j] == t;
      InOrder(tabs, items, i, j);
      if j < i {
        assert order[..i][j] == t;
      }
      if t in front {
        var k :| 0 <= k < i && order[..i][k] == t;
      }
    }
    assert ahead == front;
    FrontSize(order, i);
  }

  lemma EntryOf(tabs: map<Slot, Resident>, items: set<Slot>, j: nat)
    requires j < |ByUsage(tabs, items)|
    ensures ByUsage(tabs, items)[j] in items
    ensures Listing(Ranked(tabs, items))[j] == Keyed(UsageKey(tabs, ByUsage(tabs, items)[j]), ByUsage(tabs, items)[j])
  {
    ListingMembers(Ranked(tabs, items));
    assert Listing(Ranked(tabs, items))[j] in Listing(Ranked(tabs, items));
  }

  lemma InOrder(tabs: map<Slot, Resident>, items: set<Slot>, i: nat, j: nat)
    requires items <= tabs.Keys && i < |ByUsage(tabs, items)| && j < |ByUsage(tabs, items)|
    ensures var order := ByUsage(tabs, items);
            order[i] in tabs && order[j] in tabs && (Before(tabs, order[j], order[i]) <==> j < i)
  {
    var listing := Listing(Ranked(tabs, items));
    ListingSorted(Ranked(tabs, items));
    EntryOf(tabs, items, i);
    EntryOf(tabs, items, j);
    KeysByUse(tabs, listing[j].item, listing[i].item);
    LexTotal(listing[i].key, listing[j].key);
    if j < i {
      OrderHasAll(tabs, items);
      UsageKeysDistinct(tabs, items);
      DistinctEntries(tabs, items, i, j);
    }
  }

  lemma DistinctEntries(tabs: map<Slot, Resident>, items: set<Slot>, i: nat, j: nat)
    requires items <= tabs.Keys && j < i < |ByUsage(tabs, items)|
    ensures Listing(Ranked(tabs, items))[i].key != Listing(Ranked(tabs, items))[j].key
  {
    var listing := Listing(Ranked(tabs, items));
    ListingMembers(Ranked(tabs, items));
    UsageKeysDistinct(tabs, items);
    ListingDistinct(Ranked(tabs, items));
    assert listing[i] in listing && listing[j] in listing;
  }

  /** The tab chosen is of the best rank there is, and the pick index, wrapped round the tabs of that rank,
      counts how many of them come before it. */
  lemma ChoiceIs(p: Pool)
    requires |p.tabs| > 0
    ensures Choose(p).Some? && Choose(p).value in p.tabs
    ensures var s := Choose(p).value;
            var rank := Rank(p.tabs[s]);
            && (forall t :: t in p.tabs ==> rank <= Rank(p.tabs[t]))
            && OfRank(p.tabs, rank) != {}
            && |Ahead(p.tabs, s)| == p.pick % |OfRank(p.tabs, rank)|
  {
    var best := BestClass(p.tabs);
    var s := Choose(p).value;
    BestIsLowest(p.tabs, s);
    OrderHasAll(p.tabs, best);
    var i := Wrap(p.pick, |best|);
    ChooseIsEntry(p, ByUsage(p.tabs, best), i);
    AheadAt(p.tabs, best, i);
    WrapIsRemainder(p.pick, |best|);
    assert Ahead(p.tabs, s) == set t | t in best && Before(p.tabs, t, s);
  }

  /** Every selection moves the index on by one, round all the tabs there are. */
  lemma RotateIs(p: Pool)
    ensures Rotate(p) == p.(pick := if p.tabs == map[] then p.pick else (p.pick + 1) % |p.tabs|)
  {
    if |p.tabs| > 0 {
      WrapIsRemainder(p.pick + 1, |p.tabs|);
    }
  }

  lemma SlotNamesAre()
    ensures SlotName(1) == "slot-1" && SlotName(10) == "slot-10" && SlotName(207) == "slot-207"
  {
    assert Decimal(1) == "1" && Decimal(10) == "10" && Decimal(20) == "20" && Decimal(207) == "207";
  }
}
