/** The captcha-tab pool under concurrency: any number of coroutines calling ensure and rebuild, with
    closes, clears, reports and tab use in between. One step is the code between two awaits. */
module PoolRuns {
  import opened Prelude
  import opened ResidentPool

  type Task = nat

  /** Why a tab is being built. */
  datatype Origin = Expand | Rebuild(project: Project)

  /** Where a coroutine stands in `_ensure_resident_tab` or `_rebuild_resident_tab`. */
  datatype Pc =
    | Idle
    | WantBuild(force: bool)                                   // waiting for the build lock
    | WantRebuild(project: Project, named: Option<Slot>)
    | Checking(force: bool)                                    // has the build lock
    | Taking(project: Project, named: Option<Slot>)
    | Reserved(slot: Slot, origin: Origin)                     // owns a slot id that is not in the pool
    | Building(slot: Slot, origin: Origin, occupied: set<Tab>) // saw which tabs the pool occupies
    | Built(slot: Slot, origin: Origin, tab: Tab)

  predicate HoldsBuildLock(pc: Pc) {
    !pc.Idle? && !pc.WantBuild? && !pc.WantRebuild?
  }

  predicate OwnsSlot(pc: Pc) {
    pc.Reserved? || pc.Building? || pc.Built?
  }

  /** `orphans` counts the rebuilds that started at a full pool for a slot no longer in it. */
  datatype World = World(pool: Pool, max: nat, builder: Option<Task>, pcs: map<Task, Pc>, orphans: nat)

  datatype Action =
    | CallEnsure(force: bool)
    | Poll
    | CallRebuild(project: Project, named: Option<Slot>)
    | Acquire
    | Check
    | Take
    | Look
    | Finish(tab: Tab)
    | Fail
    | Publish(now: int)

  /** Sections of everything else that shares the pool. */
  datatype Outside =
    | Touch(slot: Slot, ready: bool, busy: bool, lastUsed: int, useCount: nat)
    | Close(slot: Slot)
    | ClearAll
    | Locate(project: Project)
    | Report(project: Project)
    | Succeed(project: Project)
    | Excuse(slot: Slot)
    | Bind(project: Project, slot: Slot)

  datatype Event = By(task: Task, action: Action) | Env(outside: Outside)

  function PcOf(w: World, t: Task): Pc {
    if t in w.pcs then w.pcs[t] else Idle
  }

  /** Coroutine `t` moves to `pc`, leaving the pool as `pool`. The build lock goes with the place: it
      is taken on entering the critical section and released on leaving it. */
  function Goto(w: World, t: Task, pc: Pc, pool: Pool): (v: World)
    ensures v.max == w.max && v.orphans == w.orphans && v.pool == pool
  {
    var builder := if HoldsBuildLock(pc) then Some(t) else if HoldsBuildLock(PcOf(w, t)) then None else w.builder;
    w.(pool := pool, builder := builder, pcs := w.pcs[t := pc])
  }

  ghost predicate Names(named: Option<Slot>, issued: nat) {
    named.Some? ==> Issued(named.value, issued)
  }

  function TabsOf(tabs: map<Slot, Resident>): set<Tab> {
    set s | s in tabs :: tabs[s].tab
  }

  /** An action that does not fit where the coroutine stands changes nothing. */
  ghost function Act(w: World, t: Task, a: Action): (v: World)
    ensures v.max == w.max && v.orphans >= w.orphans
  {
    var pc := PcOf(w, t);
    match a
    case CallEnsure(force) => if pc.Idle? then FirstCheck(w, t, force) else w
    case Poll => if pc.WantBuild? && !pc.force then PollOnce(w, t) else w
    case CallRebuild(project, named) =>
      if pc.Idle? && Names(named, w.pool.issued) then Goto(w, t, WantRebuild(project, named), w.pool) else w
    case Acquire => if w.builder.None? then Enter(w, t, pc) else w
    case Check => if pc.Checking? then SecondCheck(w, t, pc.force) else w
    case Take => if pc.Taking? then TakeSlot(w, t, pc.project, pc.named) else w
    case Look => if pc.Reserved? then Goto(w, t, Building(pc.slot, pc.origin, TabsOf(w.pool.tabs)), w.pool) else w
    case Finish(tab) => if pc.Building? && tab !in pc.occupied then Goto(w, t, Built(pc.slot, pc.origin, tab), w.pool)
        else w
    case Fail => if OwnsSlot(pc) then GiveUp(w, t, pc.origin) else w
    case Publish(now) => if pc.Built? then Goto(w, t, Idle, Published(w.pool, pc.slot, pc.origin, pc.tab, now)) else w
  }

  ghost function FirstCheck(w: World, t: Task, force: bool): World {
    var (create, _, pool) := EnsureCheck(w.pool, w.max, force);
    Goto(w, t, if create then WantBuild(force) else Idle, pool)
  }

  /** While queueing for the build lock, take a tab that has become free. */
  ghost function PollOnce(w: World, t: Task): World {
    var (slot, pool) := Select(w.pool);
    var free := slot.Some? && w.pool.tabs[slot.value].ready && !w.pool.tabs[slot.value].busy;
    Goto(w, t, if free then Idle else WantBuild(false), pool)
  }

  function Enter(w: World, t: Task, pc: Pc): World {
    match pc
    case WantBuild(force) => Goto(w, t, Checking(force), w.pool)
    case WantRebuild(project, named) => Goto(w, t, Taking(project, named), w.pool)
    case _ => w
  }

  ghost function SecondCheck(w: World, t: Task, force: bool): World {
    var (create, _, pool) := EnsureCheck(w.pool, w.max, force);
    if !create then Goto(w, t, Idle, pool)
    else
      var (slot, reserved) := NextSlot(pool);
      Goto(w, t, Reserved(slot, Expand), reserved)
  }

  /** A rebuild of a slot that is not in the pool, begun when the pool is full. */
  ghost predicate Orphaned(w: World, project: Project, named: Option<Slot>) {
    TakeForRebuild(w.pool, project, named).0 !in w.pool.tabs && |w.pool.tabs| >= w.max
  }

  ghost function TakeSlot(w: World, t: Task, project: Project, named: Option<Slot>): (v: World)
    ensures v.max == w.max && v.orphans == w.orphans + if Orphaned(w, project, named) then 1 else 0
  {
    var (slot, pool) := TakeForRebuild(w.pool, project, named);
    var orphans := w.orphans + if Orphaned(w, project, named) then 1 else 0;
    Goto(w, t, Reserved(slot, Rebuild(project)), pool).(orphans := orphans)
  }

  function GiveUp(w: World, t: Task, origin: Origin): World {
    Goto(w, t, Idle, if origin.Expand? then Rotate(w.pool) else w.pool)
  }

  function Published(p: Pool, slot: Slot, origin: Origin, tab: Tab, now: int): (q: Pool)
    ensures q.tabs == p.tabs[slot := Fresh(tab, now)] && q.streaks == p.streaks && q.issued == p.issued
  {
    match origin
    case Expand => AddSlot(p, slot, Fresh(tab, now))
    case Rebuild(project) => PublishRebuilt(p, slot, Fresh(tab, now), project)
  }

  ghost function OutsideStep(p: Pool, o: Outside): Pool {
    match o
    case Touch(slot, ready, busy, lastUsed, useCount) =>
      if slot in p.tabs then
        p.(tabs := p.tabs[slot := p.tabs[slot].(ready := ready, busy := busy, lastUsed := lastUsed,
            useCount := useCount)])
      else p
    case Close(slot) => Drop(p, slot)
    case ClearAll => Clear(p)
    case Locate(project) => Resolve(p, project).1
    case Report(project) => CountError(p, project).1
    case Succeed(project) => CountSuccess(p, project)
    case Excuse(slot) => Pardon(p, slot)
    case Bind(project, slot) => Remember(p, project, slot)
  }

  ghost function Step(w: World, e: Event): (v: World)
    ensures v.max == w.max && v.orphans >= w.orphans
  {
    match e
    case By(t, a) => Act(w, t, a)
    case Env(o) => w.(pool := OutsideStep(w.pool, o))
  }

  ghost function Run(w: World, es: seq<Event>): (v: World)
    ensures v.max == w.max && v.orphans >= w.orphans
    decreases |es|
  {
    if es == [] then w else Step(Run(w, es[..|es| - 1]), es[|es| - 1])
  }

  function Start(max: nat): World {
    World(Pool(map[], map[], map[], 0, 0), max, None, map[], 0)
  }

  // ---------------------------------------------------------------- the invariant

  /** The build lock is held by exactly the coroutine recorded as its owner. */
  ghost predicate LockHeld(w: World) {
    && (forall t :: t in w.pcs && HoldsBuildLock(w.pcs[t]) ==> w.builder == Some(t))
    && (w.builder.Some? ==> w.builder.value in w.pcs && HoldsBuildLock(w.pcs[w.builder.value]))
  }

  predicate TabsDistinct(tabs: map<Slot, Resident>) {
    forall s, u :: s in tabs && u in tabs && tabs[s].tab == tabs[u].tab ==> s == u
  }

  /** Every live slot id was issued, no two slots share a tab, streaks belong to live slots. */
  ghost predicate PoolSound(p: Pool) {
    && (forall s :: s in p.tabs ==> Issued(s, p.issued))
    && TabsDistinct(p.tabs)
    && p.streaks.Keys <= p.tabs.Keys
  }

  /** What a coroutine in the middle of a build can rely on although it has let the pool go. */
  ghost predicate PcSound(pc: Pc, p: Pool) {
    match pc
    case WantRebuild(_, named) => Names(named, p.issued)
    case Taking(_, named) => Names(named, p.issued)
    case Reserved(slot, _) => Issued(slot, p.issued) && slot !in p.tabs
    case Building(slot, _, occupied) => Issued(slot, p.issued) && slot !in p.tabs && TabsOf(p.tabs) <= occupied
    case Built(slot, _, tab) => Issued(slot, p.issued) && slot !in p.tabs && tab !in TabsOf(p.tabs)
    case _ => true
  }

  function Reservations(w: World): nat {
    if w.builder.Some? && OwnsSlot(PcOf(w, w.builder.value)) then 1 else 0
  }

  ghost predicate Inv(w: World) {
    && LockHeld(w)
    && PoolSound(w.pool)
    && (forall t :: t in w.pcs ==> PcSound(w.pcs[t], w.pool))
    && |w.pool.tabs| + Reservations(w) <= w.max + w.orphans
  }

  /** `q` is `p` with nothing added: fewer slots at most, each keeping its tab. */
  ghost predicate NothingAdded(p: Pool, q: Pool) {
    && q.issued >= p.issued
    && q.tabs.Keys <= p.tabs.Keys
    && (forall s :: s in q.tabs ==> q.tabs[s].tab == p.tabs[s].tab)
    && q.streaks.Keys <= q.tabs.Keys
  }

  lemma KeysBound(a: map<Slot, Resident>, b: map<Slot, Resident>)
    requires a.Keys <= b.Keys
    ensures |a| <= |b|
  {
    assert |a.Keys| == |a| && |b.Keys| == |b|;
    SubsetSize(a.Keys, b.Keys);
  }

  lemma OutsideAddsNothing(p: Pool, o: Outside)
    requires PoolSound(p)
    ensures NothingAdded(p, OutsideStep(p, o))
  {
  }

  lemma NothingAddedKeepsSound(p: Pool, q: Pool)
    requires PoolSound(p) && NothingAdded(p, q)
    ensures PoolSound(q) && |q.tabs| <= |p.tabs|
    ensures forall pc :: PcSound(pc, p) ==> PcSound(pc, q)
  {
    KeysBound(q.tabs, p.tabs);
    assert TabsOf(q.tabs) <= TabsOf(p.tabs);
    assert forall s :: Issued(s, p.issued) ==> Issued(s, q.issued);
  }

  // ---------------------------------------------------------------- every step keeps it

  lemma GotoKeepsLock(w: World, t: Task, pc: Pc, pool: Pool)
    requires LockHeld(w) && (HoldsBuildLock(pc) ==> w.builder.None? || HoldsBuildLock(PcOf(w, t)))
    ensures LockHeld(Goto(w, t, pc, pool))
  {
  }

  lemma GotoKeepsInv(w: World, t: Task, pc: Pc, pool: Pool, orphans: nat)
    requires Inv(w) && NothingAdded(w.pool, pool) && PcSound(pc, pool) && orphans >= w.orphans
    requires HoldsBuildLock(pc) ==> w.builder.None? || HoldsBuildLock(PcOf(w, t))
    requires OwnsSlot(pc) ==> |pool.tabs| + 1 <= w.max + orphans
    ensures Inv(Goto(w, t, pc, pool).(orphans := orphans))
  {
    GotoKeepsLock(w, t, pc, pool);
    NothingAddedKeepsSound(w.pool, pool);
  }

  lemma NothingAddedSelf(p: Pool, q: Pool)
    requires PoolSound(p) && q.tabs == p.tabs && q.streaks == p.streaks && q.issued >= p.issued
    ensures NothingAdded(p, q)
  {
  }

  lemma FirstCheckKeepsInv(w: World, t: Task, force: bool)
    requires Inv(w) && PcOf(w, t).Idle?
    ensures Inv(FirstCheck(w, t, force))
  {
    var (create, _, pool) := EnsureCheck(w.pool, w.max, force);
    NothingAddedSelf(w.pool, pool);
    GotoKeepsInv(w, t, if create then WantBuild(force) else Idle, pool, w.orphans);
  }

  lemma PollKeepsInv(w: World, t: Task)
    requires Inv(w) && PcOf(w, t) == WantBuild(false)
    ensures Inv(PollOnce(w, t))
  {
    var (slot, pool) := Select(w.pool);
    NothingAddedSelf(w.pool, pool);
    GotoKeepsInv(w, t, PollOnce(w, t).pcs[t], pool, w.orphans);
  }

  lemma ReserveIsNew(p: Pool)
    requires PoolSound(p)
    ensures var (slot, q) := NextSlot(p);
        NothingAdded(p, q) && q.tabs == p.tabs && slot !in p.tabs && Issued(slot, q.issued)
  {
    NextIsNew(p.issued);
  }

  lemma CheckKeepsInv(w: World, t: Task, force: bool)
    requires Inv(w) && PcOf(w, t) == Checking(force)
    ensures Inv(SecondCheck(w, t, force))
  {
    var (create, _, pool) := EnsureCheck(w.pool, w.max, force);
    NothingAddedSelf(w.pool, pool);
    if !create {
      GotoKeepsInv(w, t, Idle, pool, w.orphans);
    } else {
      ReserveKeepsInv(w, t, pool);
    }
  }

  lemma ReserveKeepsInv(w: World, t: Task, pool: Pool)
    requires Inv(w) && HoldsBuildLock(PcOf(w, t)) && |w.pool.tabs| < w.max
    requires pool.tabs == w.pool.tabs && pool.streaks == w.pool.streaks && pool.issued == w.pool.issued
    ensures var (slot, reserved) := NextSlot(pool); Inv(Goto(w, t, Reserved(slot, Expand), reserved))
  {
    ReserveIsNew(w.pool);
    var (slot, reserved) := NextSlot(pool);
    NothingAddedSelf(w.pool, reserved);
    GotoKeepsInv(w, t, Reserved(slot, Expand), reserved, w.orphans);
  }

  /** Taking a slot out makes room for it; only an orphan needs room of its own. */
  lemma TakeMakesRoom(w: World, project: Project, named: Option<Slot>)
    requires PoolSound(w.pool) && Names(named, w.pool.issued) && |w.pool.tabs| <= w.max + w.orphans
    ensures var (slot, pool) := TakeForRebuild(w.pool, project, named);
            && NothingAdded(w.pool, pool) && slot !in pool.tabs && Issued(slot, pool.issued)
            && |pool.tabs| + 1 <= w.max + w.orphans + if Orphaned(w, project, named) then 1 else 0
  {
    TakeEffect(w.pool, project, named);
    NextIsNew(w.pool.issued);
    var (slot, pool) := TakeForRebuild(w.pool, project, named);
    assert pool.tabs.Keys == w.pool.tabs.Keys - {slot};
    assert |pool.tabs.Keys| == |w.pool.tabs.Keys| - if slot in w.pool.tabs then 1 else 0;
  }

  lemma TakeKeepsInv(w: World, t: Task, project: Project, named: Option<Slot>)
    requires Inv(w) && PcOf(w, t) == Taking(project, named)
    ensures Inv(TakeSlot(w, t, project, named))
  {
    TakeMakesRoom(w, project, named);
    var (slot, pool) := TakeForRebuild(w.pool, project, named);
    GotoKeepsInv(w, t, Reserved(slot, Rebuild(project)), pool, TakeSlot(w, t, project, named).orphans);
  }

  /** The one step that adds a tab: the slot is not in the pool and the tab is nobody's. */
  lemma PublishKeepsPool(p: Pool, q: Pool, slot: Slot, r: Resident)
    requires PoolSound(p) && PcSound(Built(slot, Expand, r.tab), p)
    requires q.tabs == p.tabs[slot := r] && q.streaks == p.streaks && q.issued == p.issued
    ensures PoolSound(q) && |q.tabs| == |p.tabs| + 1
  {
    assert q.tabs.Keys == p.tabs.Keys + {slot};
    TabsStayDistinct(p.tabs, slot, r);
  }

  lemma TabsStayDistinct(tabs: map<Slot, Resident>, slot: Slot, r: Resident)
    requires TabsDistinct(tabs) && slot !in tabs && r.tab !in TabsOf(tabs)
    ensures TabsDistinct(tabs[slot := r])
  {
    assert forall s :: s in tabs ==> tabs[s].tab in TabsOf(tabs);
  }

  lemma PublishKeepsInv(w: World, t: Task, slot: Slot, origin: Origin, tab: Tab, pool: Pool, now: int)
    requires Inv(w) && PcOf(w, t) == Built(slot, origin, tab) && pool == Published(w.pool, slot, origin, tab, now)
    ensures Inv(Goto(w, t, Idle, pool))
  {
    PublishKeepsPool(w.pool, pool, slot, Fresh(tab, now));
    GotoKeepsLock(w, t, Idle, pool);
    var v := Goto(w, t, Idle, pool);
    forall u | u in v.pcs ensures PcSound(v.pcs[u], pool) {
      if u != t {
        assert !HoldsBuildLock(w.pcs[u]) && PcSound(w.pcs[u], w.pool);
      }
    }
  }

  lemma StepKeepsInv(w: World, e: Event)
    requires Inv(w)
    ensures Inv(Step(w, e))
  {
    match e
    case Env(o) =>
      OutsideAddsNothing(w.pool, o);
      NothingAddedKeepsSound(w.pool, OutsideStep(w.pool, o));
    case By(t, a) => ActKeepsInv(w, t, a);
  }

  lemma ActKeepsInv(w: World, t: Task, a: Action)
    requires Inv(w)
    ensures Inv(Act(w, t, a))
  {
    var pc := PcOf(w, t);
    match a
    case CallEnsure(force) =>
      if pc.Idle? {
        FirstCheckKeepsInv(w, t, force);
      }
    case Poll =>
      if pc == WantBuild(false) {
        PollKeepsInv(w, t);
      }
    case Check =>
      if pc.Checking? {
        CheckKeepsInv(w, t, pc.force);
      }
    case Take =>
      if pc.Taking? {
        TakeKeepsInv(w, t, pc.project, pc.named);
      }
    case Publish(now) =>
      if pc.Built? {
        PublishKeepsInv(w, t, pc.slot, pc.origin, pc.tab, Act(w, t, a).pool, now);
      }
    case _ => WaitingKeepsInv(w, t, a);
  }

  lemma WaitingKeepsInv(w: World, t: Task, a: Action)
    requires Inv(w) && (a.CallRebuild? || a.Acquire? || a.Look? || a.Finish? || a.Fail?)
    ensures Inv(Act(w, t, a))
  {
    var v := Act(w, t, a);
    if v != w {
      NothingAddedSelf(w.pool, v.pool);
      GotoKeepsInv(w, t, v.pcs[t], v.pool, w.orphans);
    }
  }

  lemma {:induction false} RunKeepsInv(w: World, es: seq<Event>)
    requires Inv(w)
    ensures Inv(Run(w, es))
    decreases |es|
  {
    if es != [] {
      RunKeepsInv(w, es[..|es| - 1]);
      StepKeepsInv(Run(w, es[..|es| - 1]), es[|es| - 1]);
    }
  }

  // ---------------------------------------------------------------- what every run keeps

  lemma {:induction false} Reachable(max: nat, es: seq<Event>)
    ensures Inv(Run(Start(max), es))
  {
    RunKeepsInv(Start(max), es);
  }

  /** The pool bound: however ensures, rebuilds, closes, clears and reports interleave, the pool
      exceeds its limit by at most the number of rebuilds that began at a full pool for a slot that had
      left it; with none of those, it never does. */
  lemma PoolBound(max: nat, es: seq<Event>)
    ensures var w := Run(Start(max), es);
            && |w.pool.tabs| <= max + w.orphans
            && (w.orphans == 0 ==> |w.pool.tabs| <= max)
  {
    Reachable(max, es);
  }

  /** At most one coroutine is between taking and releasing the build lock. */
  lemma OneBuilder(max: nat, es: seq<Event>, t: Task, u: Task)
    requires var w := Run(Start(max), es); HoldsBuildLock(PcOf(w, t)) && HoldsBuildLock(PcOf(w, u))
    ensures t == u
  {
    Reachable(max, es);
  }

  /** In every reachable state live slots have issued ids and their own tab, and error streaks belong
      to live slots. */
  lemma SlotsAndTabsDisjoint(max: nat, es: seq<Event>)
    ensures var p := Run(Start(max), es).pool;
            && (forall s :: s in p.tabs ==> Issued(s, p.issued))
            && (forall s, u :: s in p.tabs && u in p.tabs && s != u ==> p.tabs[s].tab != p.tabs[u].tab)
            && (forall s :: s in p.streaks ==> s in p.tabs)
  {
    Reachable(max, es);
  }

  /** Publishing, in any reachable state, overwrites no live slot and takes no live tab, although the
      tab was chosen against the tabs seen before the build. */
  lemma NoOverwrite(max: nat, es: seq<Event>, t: Task, now: int)
    requires PcOf(Run(Start(max), es), t).Built?
    ensures var w := Run(Start(max), es);
            var pc := PcOf(w, t);
            var after := Step(w, By(t, Publish(now))).pool.tabs;
            && pc.slot !in w.pool.tabs && pc.tab !in TabsOf(w.pool.tabs)
            && after == w.pool.tabs[pc.slot := Fresh(pc.tab, now)]
            && |after| == |w.pool.tabs| + 1
  {
    Reachable(max, es);
    var w := Run(Start(max), es);
    var pc := PcOf(w, t);
    assert PcSound(w.pcs[t], w.pool);
    assert Step(w, By(t, Publish(now))).pool == Published(w.pool, pc.slot, pc.origin, pc.tab, now);
    PublishKeepsPool(w.pool, Published(w.pool, pc.slot, pc.origin, pc.tab, now), pc.slot, Fresh(pc.tab, now));
  }

  /** Only publishing adds a slot, and only for the holder of the build lock. */
  lemma OnlyPublishAdds(w: World, e: Event, slot: Slot)
    requires Inv(w) && slot !in w.pool.tabs
    ensures slot in Step(w, e).pool.tabs ==>
              && e.By? && e.action.Publish? && w.builder == Some(e.task)
              && PcOf(w, e.task).Built? && PcOf(w, e.task).slot == slot
  {
    match e
    case Env(o) => OutsideAddsNothing(w.pool, o);
    case By(t, a) =>
      if !a.Publish? {
        ActAddsNothing(w, t, a);
      }
  }

  lemma ActAddsNothing(w: World, t: Task, a: Action)
    requires Inv(w) && !a.Publish?
    ensures Act(w, t, a).pool.tabs.Keys <= w.pool.tabs.Keys
  {
    if a.Take? && PcOf(w, t).Taking? {
      TakeMakesRoom(w, PcOf(w, t).project, PcOf(w, t).named);
    }
  }

  lemma IssuedNeverFalls(w: World, e: Event)
    requires Inv(w)
    ensures Step(w, e).pool.issued >= w.pool.issued
  {
    match e
    case Env(o) => OutsideAddsNothing(w.pool, o);
    case By(t, a) => ActNeverUnissues(w, t, a);
  }

  lemma ActNeverUnissues(w: World, t: Task, a: Action)
    requires Inv(w)
    ensures Act(w, t, a).pool.issued >= w.pool.issued
  {
    if a.Take? && PcOf(w, t).Taking? {
      TakeMakesRoom(w, PcOf(w, t).project, PcOf(w, t).named);
    }
  }

  lemma {:induction false} RunNeverUnissues(w: World, es: seq<Event>)
    requires Inv(w)
    ensures Run(w, es).pool.issued >= w.pool.issued
    decreases |es|
  {
    if es != [] {
      RunNeverUnissues(w, es[..|es| - 1]);
      RunKeepsInv(w, es[..|es| - 1]);
      IssuedNeverFalls(Run(w, es[..|es| - 1]), es[|es| - 1]);
    }
  }

  lemma NewIdSince(w: World, later: seq<Event>, slot: Slot)
    requires Inv(w) && slot in w.pool.tabs
    ensures NextSlot(Run(w, later).pool).0 != slot
  {
    RunNeverUnissues(w, later);
    NextIsNew(Run(w, later).pool.issued);
  }

  /** The next new id was never the id of any slot that was live earlier, gone or not. */
  lemma NewIdNeverUsedBefore(max: nat, es: seq<Event>, later: seq<Event>, slot: Slot)
    requires slot in Run(Start(max), es).pool.tabs
    ensures NextSlot(Run(Run(Start(max), es), later).pool).0 != slot
  {
    Reachable(max, es);
    NewIdSince(Run(Start(max), es), later, slot);
  }
}
