/** The shared pool of captcha tabs (src/services/browser_captcha_personal.py).

  Each function below is one atomic section: the code a coroutine runs under the resident lock, or
  between two awaits, as a map from the pool before to the pool after. */
module ResidentPool {
  import opened Prelude
  import opened LexSort
  import opened Rotation

  type Slot = string
  /** A project id with surrounding blanks removed; empty for none. */
  type Project = string
  type Tab = nat

  datatype Resident = Resident(
    tab: Tab, ready: bool, busy: bool, lastUsed: int, useCount: nat, createdAt: int)

  /** `issued` counts the slot ids handed out so far; `pick` is the rotating pick index. */
  datatype Pool = Pool(
    tabs: map<Slot, Resident>, affinity: map<Project, Slot>, streaks: map<Slot, nat>, issued: nat, pick: nat)

  // ---------------------------------------------------------------- slot ids

  function Decimal(n: nat): (r: string)
    ensures r != ""
  {
    var digit := ('0' as int + n % 10) as char;
    if n < 10 then [digit] else Decimal(n / 10) + [digit]
  }

  function Value(s: string): int {
    if s == "" then 0 else 10 * Value(s[..|s| - 1]) + (s[|s| - 1] as int - '0' as int)
  }

  lemma {:induction false} ValueOfDecimal(n: nat)
    ensures Value(Decimal(n)) == n
  {
    var s := Decimal(n);
    if n >= 10 {
      ValueOfDecimal(n / 10);
      assert s[..|s| - 1] == Decimal(n / 10);
    }
  }

  const SLOT_PREFIX: string := "slot-"

  function SlotName(n: nat): Slot {
    SLOT_PREFIX + Decimal(n)
  }

  /** Different numbers give different slot ids. */
  lemma SlotNamesDiffer(a: nat, b: nat)
    requires SlotName(a) == SlotName(b)
    ensures a == b
  {
    assert SlotName(a)[|SLOT_PREFIX|..] == Decimal(a) && SlotName(b)[|SLOT_PREFIX|..] == Decimal(b);
    ValueOfDecimal(a);
    ValueOfDecimal(b);
  }

  /** `slot` is one of the first `n` ids ever handed out. */
  ghost predicate Issued(slot: Slot, n: nat) {
    exists k: nat :: 1 <= k <= n && SlotName(k) == slot
  }

  lemma NextIsNew(n: nat)
    ensures !Issued(SlotName(n + 1), n) && Issued(SlotName(n + 1), n + 1)
  {
    if Issued(SlotName(n + 1), n) {
      var k: nat :| 1 <= k <= n && SlotName(k) == SlotName(n + 1);
      SlotNamesDiffer(k, n + 1);
    }
  }

  // ---------------------------------------------------------------- choosing a slot

  function Forget(affinity: map<Project, Slot>, slot: Slot): map<Project, Slot> {
    map p | p in affinity && affinity[p] != slot :: affinity[p]
  }

  function Without<V>(m: map<string, V>, key: string): map<string, V> {
    m - {key}
  }

  /** The project's slot while it is live; a mapping to a departed slot is dropped. */
  function ResolveAffinity(p: Pool, project: Project): (Option<Slot>, Pool) {
    if project == "" || project !in p.affinity then (None, p)
    else if p.affinity[project] in p.tabs then (Some(p.affinity[project]), p)
    else (None, p.(affinity := Without(p.affinity, project)))
  }

  function ReadyIdle(tabs: map<Slot, Resident>): set<Slot> {
    set s | s in tabs && tabs[s].ready && !tabs[s].busy
  }

  function ReadyBusy(tabs: map<Slot, Resident>): set<Slot> {
    set s | s in tabs && tabs[s].ready && tabs[s].busy
  }

  function ColdIdle(tabs: map<Slot, Resident>): set<Slot> {
    set s | s in tabs && !tabs[s].ready && !tabs[s].busy
  }

  /** The best non-empty class of slots. */
  function BestClass(tabs: map<Slot, Resident>): (r: set<Slot>)
    ensures r <= tabs.Keys && (r == {} <==> |tabs| == 0)
  {
    if ReadyIdle(tabs) != {} then ReadyIdle(tabs)
    else if ReadyBusy(tabs) != {} then ReadyBusy(tabs)
    else if ColdIdle(tabs) != {} then ColdIdle(tabs)
    else tabs.Keys
  }

  /** Least recently used first, then least used, oldest, and slot id. */
  function UsageKey(tabs: map<Slot, Resident>, s: Slot): seq<int> {
    if s in tabs then [tabs[s].lastUsed, tabs[s].useCount, tabs[s].createdAt] + Codes(s) else []
  }

  function Ranked(tabs: map<Slot, Resident>, items: set<Slot>): (r: set<Keyed<Slot>>)
    ensures forall x :: x in r <==> x.item in items && x == Keyed(UsageKey(tabs, x.item), x.item)
  {
    set s | s in items :: Keyed(UsageKey(tabs, s), s)
  }

  lemma {:induction false} RankedSize(tabs: map<Slot, Resident>, items: set<Slot>)
    ensures |Ranked(tabs, items)| == |items|
    decreases |items|
  {
    if items != {} {
      var s := Any(items);
      RankedSize(tabs, items - {s});
      assert Ranked(tabs, items) == Ranked(tabs, items - {s}) + {Keyed(UsageKey(tabs, s), s)};
    }
  }

  lemma UsageKeysDistinct(tabs: map<Slot, Resident>, items: set<Slot>)
    requires items <= tabs.Keys
    ensures DistinctKeys(Ranked(tabs, items))
  {
    forall x, y | x in Ranked(tabs, items) && y in Ranked(tabs, items) && x.key == y.key
      ensures x == y
    {
      assert x.key[3..] == Codes(x.item) && y.key[3..] == Codes(y.item);
      SameCodes(x.item, y.item);
    }
  }

  ghost function ByUsage(tabs: map<Slot, Resident>, items: set<Slot>): seq<Slot> {
    Items(Listing(Ranked(tabs, items)))
  }

  /** The remainder of `a` on division by `n`. */
  function Wrap(a: nat, n: nat): (r: nat)
    requires n > 0
    ensures r < n && (a < n ==> r == a)
    decreases a
  {
    if a < n then a else Wrap(a - n, n)
  }

  lemma {:induction false} WrapQuotient(a: nat, n: nat) returns (q: nat)
    requires n > 0
    ensures a == q * n + Wrap(a, n)
    decreases a
  {
    if a < n {
      q := 0;
    } else {
      q := WrapQuotient(a - n, n);
      MulSucc(q, n);
      q := q + 1;
    }
  }

  lemma WrapIsRemainder(a: nat, n: nat)
    requires n > 0
    ensures Wrap(a, n) == a % n
  {
    var q := WrapQuotient(a, n);
    QuotientAtLeast(q, a, n);
    QuotientAtMost(q, a, n);
    assert a / n == q;
  }

  /** One more can be added before or after. */
  lemma {:induction false} WrapSucc(a: nat, n: nat)
    requires n > 0
    ensures Wrap(a + 1, n) == Wrap(Wrap(a, n) + 1, n)
    decreases a
  {
    if a >= n {
      WrapSucc(a - n, n);
    }
  }

  /** `_select_resident_slot_locked`: rotate over the best class. */
  ghost function Choose(p: Pool): (r: Option<Slot>)
    ensures r.None? <==> |p.tabs| == 0
    ensures r.Some? ==> r.value in BestClass(p.tabs)
  {
    if |p.tabs| == 0 then None
    else
      var best := Ranked(p.tabs, BestClass(p.tabs));
      Some(Nth(best, Wrap(p.pick, |best|)).item)
  }

  function Rotate(p: Pool): Pool {
    if |p.tabs| == 0 then p else p.(pick := Wrap(p.pick + 1, |p.tabs|))
  }

  ghost function Select(p: Pool): (Option<Slot>, Pool) {
    (Choose(p), Rotate(p))
  }

  /** Finds a live slot whenever there is one, and changes only hints. */
  ghost function Resolve(p: Pool, project: Project): (r: (Option<Slot>, Pool))
    ensures r.1.tabs == p.tabs && r.1.streaks == p.streaks && r.1.issued == p.issued
    ensures r.0.None? <==> |p.tabs| == 0
    ensures r.0.Some? ==> r.0.value in p.tabs
  {
    var (slot, q) := ResolveAffinity(p, project);
    if slot.Some? then (slot, q) else Select(q)
  }

  // ---------------------------------------------------------------- changing the pool

  predicate AllBusy(tabs: map<Slot, Resident>) {
    forall s :: s in tabs ==> tabs[s].busy
  }

  /** Whether the slot to use is an existing one (and which), or a new tab should be built. */
  ghost function EnsureCheck(p: Pool, max: nat, force: bool): (r: (bool, Option<Slot>, Pool))
    ensures (r.0 ==> |p.tabs| < max) && (force && |p.tabs| < max ==> r.0)
    ensures r.2.tabs == p.tabs && r.2.streaks == p.streaks && r.2.issued == p.issued
  {
    var (slot, q) := Select(p);
    var wanted := force || slot.None? || (AllBusy(p.tabs) && |p.tabs| < max);
    (wanted && |p.tabs| < max, slot, q)
  }

  function Fresh(tab: Tab, now: int): Resident {
    Resident(tab, true, false, now, 0, now)
  }

  function NextSlot(p: Pool): (Slot, Pool) {
    (SlotName(p.issued + 1), p.(issued := p.issued + 1))
  }

  function AddSlot(p: Pool, slot: Slot, r: Resident): Pool {
    p.(tabs := p.tabs[slot := r])
  }

  function Remember(p: Pool, project: Project, slot: Slot): Pool {
    if project == "" then p else p.(affinity := p.affinity[project := slot])
  }

  /** A slot leaves the pool with everything recorded about it. */
  function Drop(p: Pool, slot: Slot): Pool {
    p.(tabs := Without(p.tabs, slot), affinity := Forget(p.affinity, slot), streaks := Without(p.streaks, slot))
  }

  /** The first half of a rebuild: the named slot, or else the project's, leaves the pool; with
      neither, a new id is taken. */
  ghost function TakeForRebuild(p: Pool, project: Project, named: Option<Slot>): (Slot, Pool) {
    var (slot, q) := if named.Some? then (named, p) else Resolve(p, project);
    if slot.Some? then (slot.value, Drop(q, slot.value)) else NextSlot(q)
  }

  function PublishRebuilt(p: Pool, slot: Slot, r: Resident, project: Project): Pool {
    Remember(AddSlot(p, slot, r), project, slot)
  }

  function Clear(p: Pool): Pool {
    p.(tabs := map[], affinity := map[], streaks := map[])
  }

  function Streak(p: Pool, slot: Slot): nat {
    if slot in p.streaks then p.streaks[slot] else 0
  }

  function Blame(p: Pool, slot: Slot): Pool {
    p.(streaks := p.streaks[slot := Streak(p, slot) + 1])
  }

  function Pardon(p: Pool, slot: Slot): Pool {
    p.(streaks := Without(p.streaks, slot))
  }

  /** A report against the project's slot; None when there is no slot to blame. */
  ghost function CountError(p: Pool, project: Project): (r: (Option<Slot>, Pool))
    ensures r.1.tabs == p.tabs && r.1.issued == p.issued
    ensures r.0.None? <==> |p.tabs| == 0
    ensures r.0.None? ==> r.1.streaks == p.streaks
    ensures r.0.Some? ==> r.0.value in p.tabs && r.1.streaks == p.streaks[r.0.value := Streak(p, r.0.value) + 1]
  {
    var (slot, q) := Resolve(p, project);
    if slot.None? then (None, q) else (slot, Blame(q, slot.value))
  }

  ghost function CountSuccess(p: Pool, project: Project): Pool {
    var (slot, q) := Resolve(p, project);
    if slot.None? then q else Pardon(q, slot.value)
  }

  // ---------------------------------------------------------------- what a choice means

  /** A choice never waits for a busy tab while a ready idle one exists, and never takes a cold tab
      while a ready one exists. */
  lemma ChoicePrefersReady(p: Pool)
    requires |p.tabs| > 0
    ensures var r := p.tabs[Choose(p).value];
            && (ReadyIdle(p.tabs) != {} ==> r.ready && !r.busy)
            && (ReadyBusy(p.tabs) != {} ==> r.ready)
            && (r.busy ==> ReadyIdle(p.tabs) == {})
  {
    var slot := Choose(p).value;
    assert slot in BestClass(p.tabs);
  }

  /** A tab is built only below the limit, and only when forced, or when no existing tab is free. */
  lemma BuildOnlyWhenNeeded(p: Pool, max: nat, force: bool)
    ensures var (create, slot, q) := EnsureCheck(p, max, force);
            && (create ==> |p.tabs| < max && (force || forall s :: s in p.tabs ==> p.tabs[s].busy))
            && (!create ==> slot.Some? || max == 0)
            && (slot.None? <==> |p.tabs| == 0)
            && q == p.(pick := q.pick)
  {
  }

  /** What a rebuild takes: the slot is out of the pool, forgotten everywhere, and nothing else left. */
  lemma TakeEffect(p: Pool, project: Project, named: Option<Slot>)
    requires p.streaks.Keys <= p.tabs.Keys
    ensures var (slot, q) := TakeForRebuild(p, project, named);
            && slot !in q.streaks && q.streaks == Without(p.streaks, slot)
            && (named.Some? ==> slot == named.value)
            && (named.None? && |p.tabs| > 0 ==> slot in p.tabs)
            && (named.Some? || |p.tabs| > 0 ==>
                q.issued == p.issued && q.tabs == Without(p.tabs, slot) && forall k :: k in q.affinity ==>
                    q.affinity[k] != slot)
            && (named.None? && |p.tabs| == 0 ==>
                q.issued == p.issued + 1 && q.tabs == p.tabs && slot == SlotName(q.issued))
  {
  }

  /** The slots chosen by `m` selections in a row. */
  ghost function Choices(p: Pool, m: nat): seq<Slot>
    requires |p.tabs| > 0
    decreases m
  {
    if m == 0 then [] else
      var slot := Choose(p).value;
      [slot] + Choices(Rotate(p), m - 1)
  }

  lemma OrderHasAll(tabs: map<Slot, Resident>, items: set<Slot>)
    ensures |ByUsage(tabs, items)| == |items| == |Ranked(tabs, items)| && Distinct(ByUsage(tabs, items))
  {
    var listing := Listing(Ranked(tabs, items));
    RankedSize(tabs, items);
    ListingDistinct(Ranked(tabs, items));
    ListingMembers(Ranked(tabs, items));
    forall i, j | 0 <= i < j < |listing| ensures listing[i].item != listing[j].item {
      assert listing[i] in listing && listing[j] in listing;
    }
  }

  lemma OrderHas(tabs: map<Slot, Resident>, items: set<Slot>, s: Slot)
    requires s in items
    ensures s in ByUsage(tabs, items)
  {
    ListingMembers(Ranked(tabs, items));
    ItemMember(Listing(Ranked(tabs, items)), Keyed(UsageKey(tabs, s), s));
  }

  /** The choice is the entry of the best class, in usage order, that the pick index points at. */
  lemma ChooseIsEntry(p: Pool, order: seq<Slot>, i: nat)
    requires |p.tabs| > 0 && order == ByUsage(p.tabs, BestClass(p.tabs))
    requires |order| > 0 && i == Wrap(p.pick, |order|)
    ensures Choose(p) == Some(order[i])
  {
    var ranked := Ranked(p.tabs, BestClass(p.tabs));
    assert |ranked| == |order|;
    NthOfListing(ranked, i);
  }

  /** The entry the pick index points at; closing tabs can leave the index at or above the number left. */
  function Pointed(p: Pool): (k: nat)
    requires |p.tabs| > 0
    ensures k < |p.tabs|
  {
    Wrap(p.pick, |p.tabs|)
  }

  /** After a selection it points at the next entry. */
  lemma RotatePoints(p: Pool, q: Pool, k: nat)
    requires 0 < |p.tabs| == |q.tabs| && q.pick == Rotate(p).pick && k == Pointed(p)
    ensures Pointed(q) == Wrap(k + 1, |p.tabs|)
  {
    WrapSucc(p.pick, |p.tabs|);
  }

  lemma ChooseByIndex(p: Pool)
    requires |p.tabs| > 0 && BestClass(p.tabs) == p.tabs.Keys
    ensures var order := ByUsage(p.tabs, p.tabs.Keys);
            |order| == |p.tabs| && Distinct(order) && Choose(p) == Some(order[Pointed(p)])
  {
    OrderHasAll(p.tabs, p.tabs.Keys);
    ChooseIsEntry(p, ByUsage(p.tabs, p.tabs.Keys), Pointed(p));
  }

  lemma NextTurn(order: seq<Slot>, k: nat)
    requires Distinct(order) && k < |order|
    ensures NextIndex(order, Some(order[k])) == Wrap(k + 1, |order|)
  {
    NextAfter(order, k);
  }

  /** `m` turns round a fixed order, from position `k`. */
  function Turns(order: seq<Slot>, k: nat, m: nat): seq<Slot>
    requires k < |order|
    decreases m
  {
    if m == 0 then [] else [order[k]] + Turns(order, Wrap(k + 1, |order|), m - 1)
  }

  lemma {:induction false} TurnsArePicks(order: seq<Slot>, last: Option<Slot>, k: nat, m: nat)
    requires Distinct(order) && k < |order| && NextIndex(order, last) == k
    ensures Turns(order, k, m) == Picks(order, last, m)
    decreases m
  {
    if m > 0 {
      NextTurn(order, k);
      TurnsArePicks(order, Some(order[k]), Wrap(k + 1, |order|), m - 1);
    }
  }

  lemma TurnsFair(order: seq<Slot>, k: nat, m: nat, slot: Slot)
    requires Distinct(order) && k < |order| && slot in order
    ensures m / |order| <= Count(slot, Turns(order, k, m)) <= (m + |order| - 1) / |order|
  {
    var last := if k == 0 then None else Some(order[k - 1]);
    if k > 0 {
      NextTurn(order, k - 1);
    }
    TurnsArePicks(order, last, k, m);
    Fair(order, last, m, slot);
  }

  lemma ChooseAtPick(p: Pool)
    requires |p.tabs| > 0 && BestClass(p.tabs) == p.tabs.Keys && p.pick < |p.tabs|
    ensures var order := ByUsage(p.tabs, p.tabs.Keys);
            |order| == |p.tabs| && Choose(p) == Some(order[p.pick])
  {
    ChooseByIndex(p);
  }

  lemma {:induction false} RoundFrom(p: Pool, m: nat)
    requires |p.tabs| > 0 && BestClass(p.tabs) == p.tabs.Keys && p.pick < |p.tabs|
    ensures |ByUsage(p.tabs, p.tabs.Keys)| == |p.tabs|
    ensures Choices(p, m) == Turns(ByUsage(p.tabs, p.tabs.Keys), p.pick, m)
    decreases m
  {
    ChooseAtPick(p);
    if m > 0 {
      RoundFrom(Rotate(p), m - 1);
    }
  }

  /** A pick index at or above the number of tabs counts as its remainder. */
  lemma PickCountsAsRemainder(p: Pool, q: Pool, m: nat)
    requires |p.tabs| > 0 && BestClass(p.tabs) == p.tabs.Keys && q == p.(pick := Pointed(p))
    ensures Choices(p, m) == Choices(q, m)
  {
    ChooseByIndex(p);
    ChooseByIndex(q);
    RotatePoints(p, Rotate(p), q.pick);
    assert Rotate(p) == Rotate(q);
  }

  /** While every tab is in the same class, selections with no tab used in between go round the pool in
      usage order, from wherever the pick index points. */
  lemma SelectionsGoRound(p: Pool, m: nat)
    requires |p.tabs| > 0 && BestClass(p.tabs) == p.tabs.Keys
    ensures |ByUsage(p.tabs, p.tabs.Keys)| == |p.tabs|
    ensures Choices(p, m) == Turns(ByUsage(p.tabs, p.tabs.Keys), Pointed(p), m)
  {
    PickCountsAsRemainder(p, p.(pick := Pointed(p)), m);
    RoundFrom(p.(pick := Pointed(p)), m);
  }

  /** So `m` such selections choose each of the n tabs floor(m/n) or ceil(m/n) times: a burst is spread evenly. */
  lemma SelectionsFair(p: Pool, m: nat, slot: Slot, order: seq<Slot>)
    requires slot in p.tabs && BestClass(p.tabs) == p.tabs.Keys
    requires order == ByUsage(p.tabs, p.tabs.Keys)
    ensures |order| == |p.tabs|
    ensures m / |order| <= Count(slot, Choices(p, m)) <= (m + |order| - 1) / |order|
  {
    OrderHasAll(p.tabs, p.tabs.Keys);
    OrderHas(p.tabs, p.tabs.Keys, slot);
    SelectionsGoRound(p, m);
    TurnsFair(order, Pointed(p), m, slot);
  }
}
