/** How far, and exactly when, rebuilding a departed slot takes the captcha-tab pool over its limit. */
module PoolLimits {
  import opened Prelude
  import opened ResidentPool
  import opened PoolRuns

  /** The steps of one rebuild with nothing in between. */
  function RebuildSteps(t: Task, project: Project, named: Option<Slot>, tab: Tab, now: int): seq<Event> {
    [By(t, CallRebuild(project, named)), By(t, Acquire), By(t, Take)] +
        [By(t, Look), By(t, Finish(tab)), By(t, Publish(now))]
  }

  /** The steps of one forced build with nothing in between. */
  function BuildSteps(t: Task, tab: Tab, now: int): seq<Event> {
    [By(t, CallEnsure(true)), By(t, Acquire), By(t, Check)] + [By(t, Look), By(t, Finish(tab)), By(t, Publish(now))]
  }

  lemma {:induction false} RunAppend(w: World, a: seq<Event>, b: seq<Event>)
    ensures Run(w, a + b) == Run(Run(w, a), b)
    decreases |b|
  {
    if b == [] {
      assert a + b == a;
    } else {
      assert (a + b)[..|a + b| - 1] == a + b[..|b| - 1];
      RunAppend(w, a, b[..|b| - 1]);
    }
  }

  lemma RunOne(w: World, e: Event)
    ensures Run(w, [e]) == Step(w, e)
  {
    assert Run(w, [e][..0]) == w;
  }

  lemma RunFirst(w: World, es: seq<Event>)
    requires es != []
    ensures Run(w, es) == Run(Step(w, es[0]), es[1..])
  {
    assert es == [es[0]] + es[1..];
    RunAppend(w, [es[0]], es[1..]);
    RunOne(w, es[0]);
  }

  /** Nobody holds the build lock and coroutine `t` is idle. */
  predicate Quiet(w: World, t: Task) {
    w.builder.None? && PcOf(w, t).Idle?
  }

  lemma Three(w: World, a: Event, b: Event, c: Event)
    ensures Run(w, [a, b, c]) == Step(Step(Step(w, a), b), c)
  {
    RunFirst(w, [a, b, c]);
    RunFirst(Step(w, a), [b, c]);
    RunOne(Step(Step(w, a), b), c);
  }

  /** The last three steps of either procedure. */
  lemma PublishRun(w: World, t: Task, slot: Slot, origin: Origin, tab: Tab, now: int)
    requires w.builder == Some(t) && PcOf(w, t) == Reserved(slot, origin) && tab !in TabsOf(w.pool.tabs)
    ensures var v := Run(w, [By(t, Look), By(t, Finish(tab)), By(t, Publish(now))]);
            && Quiet(v, t) && v.pool == Published(w.pool, slot, origin, tab, now)
            && v.orphans == w.orphans
  {
    Three(w, By(t, Look), By(t, Finish(tab)), By(t, Publish(now)));
  }

  /** The two steps that queue for the build lock and get it. */
  lemma QueueRun(w: World, t: Task, a: Action)
    requires Quiet(w, t) && (a == CallEnsure(true) || a.CallRebuild?)
    requires if a.CallRebuild? then Names(a.named, w.pool.issued) else |w.pool.tabs| < w.max
    ensures var v := Step(Step(w, By(t, a)), By(t, Acquire));
            && v.builder == Some(t) && v.orphans == w.orphans && v.max == w.max
            && PcOf(v, t) == (if a.CallEnsure? then Checking(true) else Taking(a.project, a.named))
            && v.pool == if a.CallEnsure? then Rotate(w.pool) else w.pool
  {
    CallStep(w, t, a);
    AcquireStep(Step(w, By(t, a)), t);
  }

  lemma CallStep(w: World, t: Task, a: Action)
    requires Quiet(w, t) && (a == CallEnsure(true) || a.CallRebuild?)
    requires if a.CallRebuild? then Names(a.named, w.pool.issued) else |w.pool.tabs| < w.max
    ensures var v := Step(w, By(t, a));
            && v.builder.None? && v.orphans == w.orphans
            && PcOf(v, t) == (if a.CallEnsure? then WantBuild(true) else WantRebuild(a.project, a.named))
            && v.pool == if a.CallEnsure? then Rotate(w.pool) else w.pool
  {
  }

  lemma AcquireStep(w: World, t: Task)
    requires w.builder.None? && (PcOf(w, t).WantBuild? || PcOf(w, t).WantRebuild?)
    ensures var v := Step(w, By(t, Acquire));
            && v.builder == Some(t) && v.orphans == w.orphans && v.pool == w.pool
            && PcOf(v, t) == (match PcOf(w, t)
                              case WantBuild(force) => Checking(force)
                              case WantRebuild(project, named) => Taking(project, named)
                              case pc => pc)
  {
  }

  lemma TakeRun(w: World, t: Task, project: Project, named: Option<Slot>)
    requires Quiet(w, t) && Names(named, w.pool.issued)
    ensures var v := Run(w, [By(t, CallRebuild(project, named)), By(t, Acquire), By(t, Take)]);
            var (slot, pool) := TakeForRebuild(w.pool, project, named);
            && v.builder == Some(t) && PcOf(v, t) == Reserved(slot, Rebuild(project)) && v.pool == pool
            && v.orphans == w.orphans + if Orphaned(w, project, named) then 1 else 0
  {
    Three(w, By(t, CallRebuild(project, named)), By(t, Acquire), By(t, Take));
    QueueRun(w, t, CallRebuild(project, named));
  }

  lemma CheckRun(w: World, t: Task)
    requires Quiet(w, t) && |w.pool.tabs| < w.max
    ensures var v := Run(w, [By(t, CallEnsure(true)), By(t, Acquire), By(t, Check)]);
            && v.builder == Some(t) && v.orphans == w.orphans
            && PcOf(v, t) == Reserved(SlotName(w.pool.issued + 1), Expand)
            && v.pool.issued == w.pool.issued + 1 && v.pool.tabs == w.pool.tabs
  {
    Three(w, By(t, CallEnsure(true)), By(t, Acquire), By(t, Check));
    QueueRun(w, t, CallEnsure(true));
    CheckStep(Step(Step(w, By(t, CallEnsure(true))), By(t, Acquire)), t);
  }

  lemma CheckStep(w: World, t: Task)
    requires PcOf(w, t) == Checking(true) && |w.pool.tabs| < w.max
    ensures var v := Step(w, By(t, Check));
            && v.builder == Some(t) && v.orphans == w.orphans
            && PcOf(v, t) == Reserved(SlotName(w.pool.issued + 1), Expand)
            && v.pool.issued == w.pool.issued + 1 && v.pool.tabs == w.pool.tabs
  {
    ForcedCheck(w, t);
    assert Step(w, By(t, Check)) == SecondCheck(w, t, true);
  }

  lemma ForcedCheck(w: World, t: Task)
    requires |w.pool.tabs| < w.max
    ensures var v := SecondCheck(w, t, true);
            && v.builder == Some(t) && t in v.pcs && v.pcs[t] == Reserved(SlotName(w.pool.issued + 1), Expand)
            && v.pool.issued == w.pool.issued + 1 && v.pool.tabs == w.pool.tabs
  {
    var (create, _, pool) := EnsureCheck(w.pool, w.max, true);
    assert create && pool.issued == w.pool.issued;
  }

  lemma RebuildRun(w: World, t: Task, project: Project, named: Option<Slot>, tab: Tab, now: int)
    requires Quiet(w, t) && Names(named, w.pool.issued)
    requires tab !in TabsOf(TakeForRebuild(w.pool, project, named).1.tabs)
    ensures var v := Run(w, RebuildSteps(t, project, named, tab, now));
            var (slot, pool) := TakeForRebuild(w.pool, project, named);
            && Quiet(v, t) && v.pool == Published(pool, slot, Rebuild(project), tab, now)
            && v.orphans == w.orphans + if Orphaned(w, project, named) then 1 else 0
  {
    var a := [By(t, CallRebuild(project, named)), By(t, Acquire), By(t, Take)];
    TakeRun(w, t, project, named);
    RunAppend(w, a, [By(t, Look), By(t, Finish(tab)), By(t, Publish(now))]);
    PublishRun(Run(w, a), t, TakeForRebuild(w.pool, project, named).0, Rebuild(project), tab, now);
  }

  lemma BuildRun(w: World, t: Task, tab: Tab, now: int)
    requires Quiet(w, t) && |w.pool.tabs| < w.max && tab !in TabsOf(w.pool.tabs)
    ensures var v := Run(w, BuildSteps(t, tab, now));
            && Quiet(v, t) && v.orphans == w.orphans
            && v.pool.issued == w.pool.issued + 1
            && v.pool.tabs == w.pool.tabs[SlotName(w.pool.issued + 1) := Fresh(tab, now)]
  {
    var a := [By(t, CallEnsure(true)), By(t, Acquire), By(t, Check)];
    CheckRun(w, t);
    RunAppend(w, a, [By(t, Look), By(t, Finish(tab)), By(t, Publish(now))]);
    PublishRun(Run(w, a), t, SlotName(w.pool.issued + 1), Expand, tab, now);
  }

  lemma Grown(tabs: map<Slot, Resident>, slot: Slot, r: Resident)
    ensures tabs[slot := r].Keys == tabs.Keys + {slot}
    ensures |tabs[slot := r]| == |tabs| + if slot in tabs then 0 else 1
  {
    var more := tabs[slot := r];
    assert more.Keys == tabs.Keys + {slot};
    assert |more.Keys| == |more| && |tabs.Keys| == |tabs|;
  }

  lemma Shrunk(tabs: map<Slot, Resident>, slot: Slot)
    ensures |Without(tabs, slot)| == |tabs| - if slot in tabs then 1 else 0
  {
    var fewer := Without(tabs, slot);
    assert fewer.Keys == tabs.Keys - {slot};
    assert |fewer.Keys| == |fewer| && |tabs.Keys| == |tabs|;
  }

  /** The pool after a whole rebuild has one tab more exactly when the slot was not in it. */
  lemma RebuiltSize(p: Pool, project: Project, named: Option<Slot>, r: Resident)
    requires p.streaks.Keys <= p.tabs.Keys
    ensures var (slot, q) := TakeForRebuild(p, project, named);
            && |q.tabs[slot := r]| == |p.tabs| + (if slot in p.tabs then 0 else 1)
            && (slot in p.tabs <==> if named.Some? then named.value in p.tabs else |p.tabs| > 0)
  {
    TakeEffect(p, project, named);
    var (slot, q) := TakeForRebuild(p, project, named);
    Shrunk(p.tabs, slot);
    Grown(q.tabs, slot, r);
    assert slot !in p.tabs ==> q.tabs == p.tabs;
  }

  /** A rebuild that nothing interrupts keeps the bound exactly when the slot it was given is still in
      the pool, or there is room, or it was given none. */
  lemma RebuildKeepsBoundIff(w: World, t: Task, project: Project, named: Option<Slot>, tab: Tab, now: int)
    requires Quiet(w, t) && PoolSound(w.pool) && Names(named, w.pool.issued)
    requires 0 < w.max && |w.pool.tabs| <= w.max
    requires tab !in TabsOf(TakeForRebuild(w.pool, project, named).1.tabs)
    ensures |Run(w, RebuildSteps(t, project, named, tab, now)).pool.tabs| <= w.max
            <==> named.None? || named.value in w.pool.tabs || |w.pool.tabs| < w.max
  {
    RebuildRun(w, t, project, named, tab, now);
    RebuiltSize(w.pool, project, named, Fresh(tab, now));
  }

  // ---------------------------------------------------------------- the bound is tight

  /** Coroutine 0 can act, and tab numbers from `b` on are unused. */
  predicate Tidy(w: World, b: nat) {
    Quiet(w, 0) && forall s :: s in w.pool.tabs ==> w.pool.tabs[s].tab < b
  }

  lemma Build(w: World, b: nat) returns (es: seq<Event>, v: World)
    requires Tidy(w, b) && |w.pool.tabs| < w.max && SlotName(w.pool.issued + 1) !in w.pool.tabs
    ensures v == Run(w, es) && Tidy(v, b + 1) && v.orphans == w.orphans && v.pool.issued == w.pool.issued + 1
    ensures v.pool.tabs.Keys == w.pool.tabs.Keys + {SlotName(w.pool.issued + 1)}
    ensures |v.pool.tabs| == |w.pool.tabs| + 1
  {
    es := BuildSteps(0, b, 0);
    v := Run(w, es);
    BuildRun(w, 0, b, 0);
    Grown(w.pool.tabs, SlotName(w.pool.issued + 1), Fresh(b, 0));
  }

  ghost predicate Departed(w: World, n: nat) {
    n <= w.pool.issued && forall k: nat :: k <= n || k > w.pool.issued ==> SlotName(k) !in w.pool.tabs
  }

  /** Closing the only slot empties the pool. */
  lemma CloseOnly(w: World, b: nat, slot: Slot) returns (v: World)
    requires Tidy(w, b) && w.pool.tabs.Keys == {slot}
    ensures v == Run(w, [Env(Close(slot))]) && Tidy(v, b) && |v.pool.tabs| == 0
    ensures v.orphans == w.orphans && v.pool.issued == w.pool.issued && v.max == w.max
  {
    RunOne(w, Env(Close(slot)));
    v := Step(w, Env(Close(slot)));
    assert v.pool == Drop(w.pool, slot);
    assert v.pool.tabs.Keys == {};
  }

  /** Building and closing, over and over: `n` slot ids used up, the pool empty. */
  lemma {:induction false} Churn(w: World, b: nat, n: nat) returns (es: seq<Event>, v: World)
    requires Tidy(w, b) && |w.pool.tabs| == 0 && w.max > 0
    ensures v == Run(w, es) && Tidy(v, b + n) && |v.pool.tabs| == 0
    ensures v.orphans == w.orphans && v.pool.issued == w.pool.issued + n
    decreases n
  {
    if n == 0 {
      es, v := [], w;
    } else {
      var first, built := Build(w, b);
      var slot := SlotName(w.pool.issued + 1);
      assert w.pool.tabs.Keys == {};
      var empty := CloseOnly(built, b + 1, slot);
      var rest;
      rest, v := Churn(empty, b + 1, n - 1);
      es := first + ([Env(Close(slot))] + rest);
      RunAppend(built, [Env(Close(slot))], rest);
      RunAppend(w, first, [Env(Close(slot))] + rest);
    }
  }

  lemma StillDeparted(w: World, v: World, n: nat)
    requires Departed(w, n) && v.pool.issued == w.pool.issued + 1
    requires v.pool.tabs.Keys == w.pool.tabs.Keys + {SlotName(w.pool.issued + 1)}
    ensures Departed(v, n)
  {
    forall j: nat | j <= n || j > v.pool.issued ensures SlotName(j) !in v.pool.tabs {
      if SlotName(j) == SlotName(w.pool.issued + 1) {
        SlotNamesDiffer(j, w.pool.issued + 1);
      }
    }
  }

  lemma {:induction false} Grow(w: World, b: nat, n: nat, k: nat) returns (es: seq<Event>, v: World)
    requires Tidy(w, b) && Departed(w, n) && |w.pool.tabs| + k <= w.max
    ensures v == Run(w, es) && Tidy(v, b + k) && Departed(v, n)
    ensures |v.pool.tabs| == |w.pool.tabs| + k && v.orphans == w.orphans
    decreases k
  {
    if k == 0 {
      es, v := [], w;
    } else {
      var first, more := Build(w, b);
      StillDeparted(w, more, n);
      var rest;
      rest, v := Grow(more, b + 1, n, k - 1);
      es := first + rest;
      RunAppend(w, first, rest);
    }
  }

  lemma TakeDeparted(p: Pool, slot: Slot)
    requires slot !in p.tabs
    ensures var (s, q) := TakeForRebuild(p, "", Some(slot)); s == slot && q.tabs == p.tabs && q.issued == p.issued
  {
  }

  lemma ReviveOne(w: World, b: nat, n: nat) returns (es: seq<Event>, v: World)
    requires Tidy(w, b) && 1 <= n <= w.pool.issued && w.max <= |w.pool.tabs| && SlotName(n) !in w.pool.tabs
    ensures v == Run(w, es) && Tidy(v, b + 1) && v.pool.issued == w.pool.issued && v.orphans == w.orphans + 1
    ensures v.pool.tabs.Keys == w.pool.tabs.Keys + {SlotName(n)} && |v.pool.tabs| == |w.pool.tabs| + 1
  {
    var slot := SlotName(n);
    es := RebuildSteps(0, "", Some(slot), b, 0);
    v := Run(w, es);
    TakeDeparted(w.pool, slot);
    RebuildRun(w, 0, "", Some(slot), b, 0);
    Grown(w.pool.tabs, slot, Fresh(b, 0));
  }

  /** Rebuilding the departed slots 1..n at a full pool adds one tab each. */
  lemma {:induction false} Revive(w: World, b: nat, n: nat) returns (es: seq<Event>, v: World)
    requires Tidy(w, b) && n <= w.pool.issued && w.max <= |w.pool.tabs|
    requires forall k: nat :: 1 <= k <= n ==> SlotName(k) !in w.pool.tabs
    ensures v == Run(w, es) && |v.pool.tabs| == |w.pool.tabs| + n && v.orphans == w.orphans + n
    decreases n
  {
    if n == 0 {
      es, v := [], w;
    } else {
      var first, more := ReviveOne(w, b, n);
      forall k: nat | 1 <= k <= n - 1 ensures SlotName(k) !in more.pool.tabs {
        if SlotName(k) == SlotName(n) {
          SlotNamesDiffer(k, n);
        }
      }
      var rest;
      rest, v := Revive(more, b + 1, n - 1);
      es := first + rest;
      RunAppend(w, first, rest);
    }
  }

  /** The bound of `PoolBound` is reached: for every limit and every n there is a run with n such
      rebuilds that ends n tabs over the limit. */
  lemma OverflowIsTight(max: nat, n: nat)
    requires max > 0
    ensures exists es :: var w := Run(Start(max), es); w.orphans == n && |w.pool.tabs| == max + n
  {
    var w := Start(max);
    var a, wa := Churn(w, 0, n);
    assert wa.pool.tabs.Keys == {};
    var b, wb := Grow(wa, n, n, max);
    var c, wc := Revive(wb, n + max, n);
    RunAppend(w, a, b);
    RunAppend(w, a + b, c);
    assert Run(w, a + b + c) == wc;
  }
}
