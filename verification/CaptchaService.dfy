/** The captcha service object (src/services/browser_captcha_personal.py): the sections that read and
    update its tab pool in place, each proved to be the step of the same name in ResidentPool. */
module CaptchaService {
  import opened Prelude
  import opened Text
  import opened LexSort
  import opened ResidentPool
  import opened RecoveryLadder

  /** An idle tab as the reaper sees it. */
  datatype IdleTab = IdleTab(slot: Slot, idle: int)

  /** The reaper's sort entry: by idle time, equal times by slot id. */
  function ByIdle(c: IdleTab): Keyed<IdleTab> {
    Keyed([c.idle] + Codes(c.slot), c)
  }

  predicate Collectable(tabs: map<Slot, Resident>, c: IdleTab, now: int, ttl: int) {
    c.slot in tabs && !tabs[c.slot].busy && c.idle == now - tabs[c.slot].lastUsed && c.idle >= ttl
  }

  class BrowserCaptchaService {
    var residentTabs: map<Slot, Resident>
    var projectAffinity: map<Project, Slot>
    var errorStreaks: map<Slot, nat>
    var slotSeq: nat
    var pickIndex: nat
    var maxTabs: nat
    var minTabs: nat
    var idleTtl: int

    function State(): Pool
      reads this
    {
      Pool(residentTabs, projectAffinity, errorStreaks, slotSeq, pickIndex)
    }

    constructor (max: nat, min: nat, ttl: int)
      ensures State() == Pool(map[], map[], map[], 0, 0) && maxTabs == max && minTabs == min && idleTtl == ttl
    {
      residentTabs, projectAffinity, errorStreaks := map[], map[], map[];
      slotSeq, pickIndex, maxTabs, minTabs, idleTtl := 0, 0, max, min, ttl;
    }

    method NextResidentSlotId() returns (slot: Slot)
      modifies this`slotSeq
      ensures (slot, State()) == NextSlot(old(State()))
    {
      slotSeq := slotSeq + 1;
      slot := SlotName(slotSeq);
    }

    method ForgetProjectAffinityForSlot(slot: Slot)
      modifies this`projectAffinity
      ensures projectAffinity == Forget(old(projectAffinity), slot)
    {
      var before := projectAffinity;
      var unseen := before.Keys;
      while unseen != {}
        invariant unseen <= before.Keys
        invariant forall p :: p in projectAffinity <==> p in before && (p in unseen || before[p] != slot)
        invariant forall p :: p in projectAffinity ==> projectAffinity[p] == before[p]
      {
        var p :| p in unseen;
        if before[p] == slot {
          projectAffinity := projectAffinity - {p};
        }
        unseen := unseen - {p};
      }
    }

    method ResolveAffinitySlot(projectId: string) returns (slot: Option<Slot>)
      modifies this`projectAffinity
      ensures (slot, State()) == ResolveAffinity(old(State()), Strip(projectId))
    {
      var project := Strip(projectId);
      if project == "" || project !in projectAffinity {
        return None;
      }
      slot := Some(projectAffinity[project]);
      if slot.value !in residentTabs {
        projectAffinity := projectAffinity - {project};
        slot := None;
      }
    }

    method RememberProjectAffinity(projectId: string, slot: Slot)
      modifies this`projectAffinity
      ensures State() == Remember(old(State()), Strip(projectId), slot)
    {
      var project := Strip(projectId);
      if project != "" {
        projectAffinity := projectAffinity[project := slot];
      }
    }

    /** The sort entries of a class of slots, in the dictionary's own order. */
    method ListSlots(items: set<Slot>) returns (r: seq<Keyed<Slot>>)
      ensures |r| == |items| && forall x :: x in r <==> x in Ranked(residentTabs, items)
    {
      r := [];
      var unseen := items;
      while unseen != {}
        invariant unseen <= items && |r| + |unseen| == |items|
        invariant forall x :: x in r <==> x in Ranked(residentTabs, items - unseen)
      {
        var s :| s in unseen;
        r := r + [Keyed(UsageKey(residentTabs, s), s)];
        unseen := unseen - {s};
      }
    }

    method OrderByUsage(items: set<Slot>) returns (order: seq<Slot>)
      requires items <= residentTabs.Keys
      ensures order == ByUsage(residentTabs, items)
    {
      var entries := ListSlots(items);
      SortedByUsage(residentTabs, items, entries);
      order := Items(Sort(entries));
    }

    method SelectResidentSlot() returns (slot: Option<Slot>)
      modifies this`pickIndex
      ensures (slot, State()) == Select(old(State()))
    {
      if |residentTabs| == 0 {
        return None;
      }
      var best := BestClass(residentTabs);
      var pool := OrderByUsage(best);
      OrderHasAll(residentTabs, best);
      var i := Remainder(pickIndex, |pool|);
      ChooseIsEntry(State(), pool, i);
      slot := Some(pool[i]);
      pickIndex := Remainder(pickIndex + 1, |residentTabs|);
    }

    static method Remainder(a: nat, n: nat) returns (r: nat)
      requires n > 0
      ensures r == Wrap(a, n)
    {
      WrapIsRemainder(a, n);
      r := a % n;
    }

    method ResolveSlotForProject(projectId: string) returns (slot: Option<Slot>)
      modifies this`projectAffinity, this`pickIndex
      ensures (slot, State()) == Resolve(old(State()), Strip(projectId))
    {
      slot := ResolveAffinitySlot(projectId);
      if slot.None? {
        slot := SelectResidentSlot();
      }
    }

    /** The decision at the head of `_ensure_resident_tab`, taken again under the build lock. */
    method CheckForFreeTab(force: bool) returns (create: bool, slot: Option<Slot>)
      modifies this`pickIndex
      ensures (create, slot, State()) == EnsureCheck(old(State()), maxTabs, force)
    {
      slot := SelectResidentSlot();
      var allBusy := forall s :: s in residentTabs ==> residentTabs[s].busy;
      create := force || slot.None? || (allBusy && |residentTabs| < maxTabs);
      if create && |residentTabs| >= maxTabs {
        create := false;
      }
    }

    method PublishBuiltTab(slot: Slot, tab: Tab, now: int)
      modifies this`residentTabs
      ensures State() == AddSlot(old(State()), slot, Fresh(tab, now))
    {
      residentTabs := residentTabs[slot := Fresh(tab, now)];
    }

    method TakeSlotForRebuild(projectId: string, named: Option<Slot>) returns (slot: Slot, removed: Option<Resident>)
      modifies this`residentTabs, this`projectAffinity, this`errorStreaks, this`slotSeq, this`pickIndex
      ensures (slot, State()) == TakeForRebuild(old(State()), Strip(projectId), named)
      ensures removed == if slot in old(residentTabs) && (named.Some? || |old(residentTabs)| > 0)
          then Some(old(residentTabs)[slot]) else None
    {
      var actual := named;
      if actual.None? {
        actual := ResolveSlotForProject(projectId);
      }
      removed := None;
      if actual.None? {
        slot := NextResidentSlotId();
        return;
      }
      slot := actual.value;
      if slot in residentTabs {
        removed := Some(residentTabs[slot]);
      }
      residentTabs := residentTabs - {slot};
      ForgetProjectAffinityForSlot(slot);
      errorStreaks := errorStreaks - {slot};
    }

    method PublishRebuiltTab(projectId: string, slot: Slot, tab: Tab, now: int)
      modifies this`residentTabs, this`projectAffinity, this`errorStreaks, this`slotSeq, this`pickIndex
      ensures State() == PublishRebuilt(old(State()), slot, Fresh(tab, now), Strip(projectId))
    {
      residentTabs := residentTabs[slot := Fresh(tab, now)];
      RememberProjectAffinity(projectId, slot);
    }

    method CloseResidentTab(slot: Slot) returns (removed: Option<Resident>)
      modifies this`residentTabs, this`projectAffinity, this`errorStreaks, this`slotSeq, this`pickIndex
      ensures State() == Drop(old(State()), slot)
      ensures removed == if slot in old(residentTabs) then Some(old(residentTabs)[slot]) else None
    {
      removed := if slot in residentTabs then Some(residentTabs[slot]) else None;
      residentTabs := residentTabs - {slot};
      ForgetProjectAffinityForSlot(slot);
      errorStreaks := errorStreaks - {slot};
    }

    /** Stopping resident mode, and the pool part of a browser shutdown. */
    method ClearPool()
      modifies this`residentTabs, this`projectAffinity, this`errorStreaks, this`slotSeq, this`pickIndex
      ensures State() == Clear(old(State()))
    {
      residentTabs, projectAffinity, errorStreaks := map[], map[], map[];
    }

    method StopResidentMode(id: string) returns (slot: Option<Slot>)
      modifies this`residentTabs, this`projectAffinity, this`errorStreaks, this`slotSeq, this`pickIndex
      ensures slot == if id == "" then None else if id in old(residentTabs) then Some(id)
          else ResolveAffinity(old(State()), Strip(id)).0
      ensures State() == if slot.Some? then Drop(old(State()), slot.value) else Clear(old(State()))
    {
      slot := None;
      if id != "" {
        if id in residentTabs {
          slot := Some(id);
        } else {
          slot := ResolveAffinitySlot(id);
        }
      }
      if slot.Some? {
        var _ := CloseResidentTab(slot.value);
      } else {
        ClearPool();
      }
    }

    /** The bookkeeping at the head of `report_flow_error`. */
    method CountFlowError(projectId: string) returns (slot: Option<Slot>, streak: nat)
      modifies this`residentTabs, this`projectAffinity, this`errorStreaks, this`slotSeq, this`pickIndex
      ensures projectId == "" ==> slot == None && State() == old(State())
      ensures projectId != "" ==> (slot, State()) == CountError(old(State()), Strip(projectId))
      ensures streak == if slot.Some? then Streak(State(), slot.value) else 0
    {
      slot, streak := None, 0;
      if projectId == "" {
        return;
      }
      slot := ResolveSlotForProject(projectId);
      if slot.Some? {
        streak := BlameSlot(slot.value);
      }
    }

    method BlameSlot(slot: Slot) returns (streak: nat)
      modifies this`errorStreaks
      ensures State() == Blame(old(State()), slot) && streak == Streak(State(), slot)
    {
      streak := (if slot in errorStreaks then errorStreaks[slot] else 0) + 1;
      errorStreaks := errorStreaks[slot := streak];
    }

    /** `_clear_resident_storage_and_reload`; whether the reload heals is the browser's affair. */
    method ClearStorageAndReload(r: Report) returns (healed: bool)
      requires Stripped(r.project)
      modifies this`residentTabs, this`projectAffinity, this`errorStreaks, this`slotSeq, this`pickIndex
      ensures (healed, State()) == ReloadTab(old(State()), r)
    {
      var slot := ResolveSlotForProject(r.project);
      if slot.None? {
        return false;
      }
      var info := residentTabs[slot.value];
      if !r.healed {
        residentTabs := residentTabs[slot.value := info.(ready := false)];
        return false;
      }
      residentTabs := residentTabs[slot.value := info.(ready := true, lastUsed := r.now)];
      RememberProjectAffinity(r.project, slot.value);
      return true;
    }

    /** `_recreate_resident_tab` with nothing in between. */
    method RecreateResidentTab(r: Report)
      requires Stripped(r.project)
      modifies this`residentTabs, this`projectAffinity, this`errorStreaks, this`slotSeq, this`pickIndex
      ensures State() == RecreateTab(old(State()), r)
    {
      var slot, removed := TakeSlotForRebuild(r.project, None);
      if r.built.Some? {
        PublishRebuiltTab(r.project, slot, r.built.value, r.now);
      }
    }

    /** `report_flow_error` run to its end, up to the point where a restart has emptied the pool. */
    method ReportFlowError(projectId: string, l: Ladder, report: Report) returns (rung: Rung)
      requires report.project == Strip(projectId)
      modifies this`residentTabs, this`projectAffinity, this`errorStreaks, this`slotSeq, this`pickIndex
      ensures projectId == "" ==> rung == NoSlot && State() == old(State())
      ensures projectId != "" ==> (rung, State()) == Handle(old(State()), l, report)
    {
      var slot, streak := CountFlowError(projectId);
      if slot.None? {
        return NoSlot;
      }
      if !report.browserUp {
        return OnlyCounted;
      }
      rung := Escalate(l, report.kind, streak);
      if rung == Restart {
        ClearPool();
        return;
      }
      var healed := false;
      if rung == Reload {
        healed := ClearStorageAndReload(report);
      }
      if !healed {
        RecreateResidentTab(report);
      }
    }

    method ReportFlowSuccess(projectId: string)
      modifies this`residentTabs, this`projectAffinity, this`errorStreaks, this`slotSeq, this`pickIndex
      ensures State() == if projectId == "" then old(State()) else CountSuccess(old(State()), Strip(projectId))
    {
      if projectId == "" {
        return;
      }
      var slot := ResolveSlotForProject(projectId);
      if slot.Some? {
        errorStreaks := errorStreaks - {slot.value};
      }
    }

    /** The reaper's choice: only unused tabs idle long enough, the longest idle first, and never so
        many that fewer than the minimum would stay. */
    method CollectIdleTabs(now: int) returns (chosen: seq<IdleTab>)
      ensures forall c :: c in chosen ==> Collectable(residentTabs, c, now, idleTtl)
      ensures forall i, j :: 0 <= i < j < |chosen| ==>
          chosen[i].slot != chosen[j].slot && chosen[i].idle >= chosen[j].idle
      ensures |chosen| == 0 || |residentTabs| - |chosen| >= minTabs
      ensures forall c :: Collectable(residentTabs, c, now, idleTtl) && c !in chosen ==>
                |residentTabs| - |chosen| <= minTabs && forall d :: d in chosen ==> d.idle >= c.idle
    {
      var candidates: seq<Keyed<IdleTab>> := [];
      ghost var found: set<IdleTab> := {};
      var unseen := residentTabs.Keys;
      while unseen != {}
        invariant unseen <= residentTabs.Keys
        invariant forall c :: c in found <==> Collectable(residentTabs, c, now, idleTtl) && c.slot !in unseen
        invariant |candidates| == |found| && forall x :: x in candidates <==> x.item in found && x == ByIdle(x.item)
      {
        var slot :| slot in unseen;
        var idle := now - residentTabs[slot].lastUsed;
        if !residentTabs[slot].busy && idle >= idleTtl {
          candidates := candidates + [ByIdle(IdleTab(slot, idle))];
          found := found + {IdleTab(slot, idle)};
        }
        unseen := unseen - {slot};
      }
      var allowed: nat := if |residentTabs| > minTabs then |residentTabs| - minTabs else 0;
      chosen := LongestIdle(candidates, allowed, found);
    }

    static method LongestIdle(candidates: seq<Keyed<IdleTab>>, allowed: nat, ghost found: set<IdleTab>)
        returns (chosen: seq<IdleTab>)
      requires |candidates| == |found| && forall x :: x in candidates <==> x.item in found && x == ByIdle(x.item)
      ensures |chosen| == if allowed < |candidates| then allowed else |candidates|
      ensures forall c :: c in chosen ==> c in found
      ensures forall i, j :: 0 <= i < j < |chosen| ==> chosen[i] != chosen[j] && chosen[i].idle >= chosen[j].idle
      ensures forall c, d :: c in found && c !in chosen && d in chosen ==> d.idle >= c.idle
      ensures |candidates| <= allowed ==> forall c :: c in found ==> c in chosen
    {
      var sorted := Items(Sort(candidates));
      IdleOrder(candidates, found);
      var k := if allowed < |sorted| then allowed else |sorted|;
      chosen := LastFirst(sorted, k);
      forall c | c in found && c !in chosen
        ensures k < |sorted| && forall d :: d in chosen ==> d.idle >= c.idle
      {
        LastFirstKeeps(sorted, k, c);
      }
    }
  }

  lemma SortedByUsage(tabs: map<Slot, Resident>, items: set<Slot>, entries: seq<Keyed<Slot>>)
    requires items <= tabs.Keys && |entries| == |items| && forall x :: x in entries <==> x in Ranked(tabs, items)
    ensures Items(Sort(entries)) == ByUsage(tabs, items)
  {
    SortMembers(entries);
    SortSorts(entries);
    RankedSize(tabs, items);
    UsageKeysDistinct(tabs, items);
    ListingUnique(Ranked(tabs, items), Sort(entries));
  }

  /** The last `k` entries, last first. */
  function LastFirst<T>(s: seq<T>, k: nat): (r: seq<T>)
    requires k <= |s|
    ensures |r| == k && forall i :: 0 <= i < k ==> r[i] == s[|s| - 1 - i]
  {
    seq(k, i requires 0 <= i < k => s[|s| - 1 - i])
  }

  lemma LastFirstKeeps(s: seq<IdleTab>, k: nat, c: IdleTab)
    requires k <= |s| && c in s && c !in LastFirst(s, k)
    requires forall i, j :: 0 <= i < j < |s| ==> s[i].idle <= s[j].idle
    ensures k < |s| && forall d :: d in LastFirst(s, k) ==> d.idle >= c.idle
  {
    var i :| 0 <= i < |s| && s[i] == c;
    if i >= |s| - k {
      LastFirstHas(s, k, i);
    }
  }

  lemma LastFirstHas(s: seq<IdleTab>, k: nat, i: nat)
    requires k <= |s| && |s| - k <= i < |s|
    ensures s[i] in LastFirst(s, k)
  {
    assert LastFirst(s, k)[|s| - 1 - i] == s[i];
  }

  lemma IdleOrder(candidates: seq<Keyed<IdleTab>>, found: set<IdleTab>)
    requires |candidates| == |found| && forall x :: x in candidates <==> x.item in found && x == ByIdle(x.item)
    ensures var sorted := Items(Sort(candidates));
            && |sorted| == |candidates| && (forall c :: c in sorted <==> c in found)
            && forall i, j :: 0 <= i < j < |sorted| ==> sorted[i] != sorted[j] && sorted[i].idle <= sorted[j].idle
  {
    SortMembers(candidates);
    SortSorts(candidates);
    IdleMembers(Sort(candidates), found);
    IdleDistinct(candidates, found);
    IdleAscending(Sort(candidates));
  }

  lemma IdleDistinct(candidates: seq<Keyed<IdleTab>>, found: set<IdleTab>)
    requires |candidates| == |found| && forall x :: x in candidates <==> x.item in found && x == ByIdle(x.item)
    ensures var sorted := Sort(candidates); forall i, j :: 0 <= i < j < |sorted| ==> sorted[i] != sorted[j]
  {
    var entries := set c | c in found :: ByIdle(c);
    SortMembers(candidates);
    SortSorts(candidates);
    EntriesSize(found);
    IdleKeysDistinct(entries);
    ListingUnique(entries, Sort(candidates));
    ListingDistinct(entries);
  }

  lemma IdleAscending(sorted: seq<Keyed<IdleTab>>)
    requires Sorted(sorted) && forall x :: x in sorted ==> x == ByIdle(x.item)
    ensures forall i, j :: 0 <= i < j < |sorted| ==> sorted[i].item.idle <= sorted[j].item.idle
    ensures forall i, j :: 0 <= i < j < |sorted| && sorted[i].item == sorted[j].item ==> sorted[i] == sorted[j]
  {
    forall i, j | 0 <= i < j < |sorted|
      ensures sorted[i].item.idle <= sorted[j].item.idle && (sorted[i].item == sorted[j].item ==> sorted[i] == sorted[j])
    {
      assert sorted[i] in sorted && sorted[j] in sorted;
      LexHead(sorted[i].key, sorted[j].key);
    }
  }

  lemma IdleKeysDistinct(entries: set<Keyed<IdleTab>>)
    requires forall x :: x in entries ==> x == ByIdle(x.item)
    ensures DistinctKeys(entries)
  {
    forall x, y | x in entries && y in entries && x.key == y.key ensures x == y {
      assert x.key[1..] == Codes(x.item.slot) && y.key[1..] == Codes(y.item.slot);
      SameCodes(x.item.slot, y.item.slot);
      assert x.key[0] == x.item.idle && y.key[0] == y.item.idle;
    }
  }

  lemma IdleMembers(sorted: seq<Keyed<IdleTab>>, found: set<IdleTab>)
    requires forall x :: x in sorted <==> x.item in found && x == ByIdle(x.item)
    ensures forall c :: c in Items(sorted) <==> c in found
  {
    forall c | c in found ensures c in Items(sorted) {
      assert ByIdle(c) in sorted;
      var i :| 0 <= i < |sorted| && sorted[i] == ByIdle(c);
      assert Items(sorted)[i] == c;
    }
    forall c | c in Items(sorted) ensures c in found {
      var i :| 0 <= i < |sorted| && Items(sorted)[i] == c;
      assert sorted[i] in sorted;
    }
  }

  lemma {:induction false} EntriesSize(found: set<IdleTab>)
    ensures |set c | c in found :: ByIdle(c)| == |found|
    decreases |found|
  {
    if found != {} {
      var c := Any(found);
      EntriesSize(found - {c});
      assert (set d | d in found :: ByIdle(d)) == (set d | d in found - {c} :: ByIdle(d)) + {ByIdle(c)};
    }
  }
}
