/** The steps of the captcha pool one by one, in terms of the tabs, mappings, streaks and places of coroutines
    (src/services/browser_captcha_personal.py). */
module PoolSteps {
  import opened Prelude
  import opened ResidentPool
  import opened PoolRuns

  lemma StartIs(max: nat, t: Task)
    ensures var w := Start(max);
            && w.pool.tabs == map[] && w.pool.affinity == map[] && w.pool.streaks == map[]
            && w.pool.issued == 0 && w.pool.pick == 0
            && w.max == max && w.builder == None && PcOf(w, t) == Idle && w.orphans == 0
  {
  }

  /** The build lock belongs to whoever stands between taking and releasing it, and is free otherwise. */
  lemma BuilderIff(max: nat, es: seq<Event>, t: Task)
    ensures var w := Run(Start(max), es);
            w.builder == Some(t) <==> HoldsBuildLock(PcOf(w, t))
  {
    Reachable(max, es);
  }

  // ---------------------------------------------------------------- coroutines

  /** Where a coroutine must stand for an action. */
  ghost predicate Fits(w: World, pc: Pc, a: Action) {
    match a
    case CallEnsure(_) => pc.Idle?
    case Poll => pc == WantBuild(false)
    case CallRebuild(_, named) => pc.Idle? && (named == None || Issued(named.value, w.pool.issued))
    case Acquire => w.builder == None && (pc.WantBuild? || pc.WantRebuild?)
    case Check => pc.Checking?
    case Take => pc.Taking?
    case Look => pc.Reserved?
    case Finish(tab) => pc.Building? && tab !in pc.occupied
    case Fail => pc.Reserved? || pc.Building? || pc.Built?
    case Publish(_) => pc.Built?
  }

  lemma MisfitChangesNothing(w: World, t: Task, a: Action)
    requires !Fits(w, PcOf(w, t), a)
    ensures Step(w, By(t, a)) == w
  {
    assert Step(w, By(t, a)) == Act(w, t, a);
  }

  /** A rebuild is queued for, and takes the lock, with its project and slot unchanged. */
  lemma RebuildQueues(w: World, t: Task, project: Project, named: Option<Slot>)
    requires Fits(w, PcOf(w, t), CallRebuild(project, named)) && w.builder == None
    ensures var a := Step(w, By(t, CallRebuild(project, named)));
            && PcOf(a, t) == WantRebuild(project, named) && a.pool == w.pool && a.builder == None
            && PcOf(Step(a, By(t, Acquire)), t) == Taking(project, named)
            && Step(a, By(t, Acquire)).builder == Some(t) && Step(a, By(t, Acquire)).pool == w.pool
  {
    var e := By(t, CallRebuild(project, named));
    assert Step(w, e) == Act(w, t, e.action);
    var a := Step(w, e);
    assert Step(a, By(t, Acquire)) == Act(a, t, Acquire);
  }

  /** The slot taken leaves the pool and is reserved; a rebuild counts as orphaned exactly when its slot was not
      in the pool and the pool had no room. */
  lemma TakeIs(w: World, t: Task)
    requires PcOf(w, t).Taking?
    ensures var v, slot := Step(w, By(t, Take)), TakeForRebuild(w.pool, PcOf(w, t).project, PcOf(w, t).named).0;
            && PcOf(v, t) == Reserved(slot, Rebuild(PcOf(w, t).project))
            && v.pool == TakeForRebuild(w.pool, PcOf(w, t).project, PcOf(w, t).named).1
            && v.orphans == (if slot !in w.pool.tabs && |w.pool.tabs| >= w.max then w.orphans + 1 else w.orphans)
            && v.builder == Some(t) && v.max == w.max
  {
    assert Step(w, By(t, Take)) == Act(w, t, Take);
  }

  /** A build that comes to nothing leaves the tabs alone and gives the lock back; a call to ensure a tab then
      falls back on a selection, which moves the pick index. */
  lemma FailIs(w: World, t: Task)
    requires OwnsSlot(PcOf(w, t))
    ensures var v := Step(w, By(t, Fail));
            && PcOf(v, t) == Idle && v.builder == None
            && v.pool == (if PcOf(w, t).origin.Expand? then Rotate(w.pool) else w.pool)
  {
    assert Step(w, By(t, Fail)) == Act(w, t, Fail);
  }

  /** A build looks which tabs the pool occupies, and is given another. */
  lemma BuildIs(w: World, t: Task, tab: Tab, slot: Slot, origin: Origin)
    requires PcOf(w, t) == Reserved(slot, origin)
    ensures var v := Step(w, By(t, Look));
            && v.pool == w.pool
            && (if exists s :: s in w.pool.tabs && w.pool.tabs[s].tab == tab then Step(v, By(t, Finish(tab))) == v
                else PcOf(Step(v, By(t, Finish(tab))), t) == Built(slot, origin, tab)
                     && Step(v, By(t, Finish(tab))).pool == w.pool)
  {
    assert Step(w, By(t, Look)) == Act(w, t, Look);
    var v := Step(w, By(t, Look));
    assert Step(v, By(t, Finish(tab))) == Act(v, t, Finish(tab));
  }

  /** Published, the tab is in the pool as ready and idle, under the reserved slot; after a rebuild its project,
      if it has one, is mapped to it. */
  lemma PublishIs(w: World, t: Task, slot: Slot, origin: Origin, tab: Tab, now: int)
    requires PcOf(w, t) == Built(slot, origin, tab)
    ensures var v := Step(w, By(t, Publish(now)));
            && v.pool.tabs == w.pool.tabs[slot := Resident(tab, true, false, now, 0, now)]
            && v.pool.affinity == (if origin.Rebuild? && origin.project != ""
                                   then w.pool.affinity[origin.project := slot] else w.pool.affinity)
            && v.pool == w.pool.(tabs := v.pool.tabs, affinity := v.pool.affinity)
            && PcOf(v, t) == Idle && v.builder == None
  {
    assert Step(w, By(t, Publish(now))) == Act(w, t, Publish(now));
  }

  // ---------------------------------------------------------------- everything else

  lemma OnlyThePool(w: World, o: Outside)
    ensures Step(w, Env(o)) == w.(pool := OutsideStep(w.pool, o))
  {
  }

  /** Solving on a tab, or healing it, writes its flags and use, and nothing else of the pool. */
  lemma TouchIs(p: Pool, slot: Slot, ready: bool, busy: bool, lastUsed: int, useCount: nat)
    ensures var q := OutsideStep(p, Touch(slot, ready, busy, lastUsed, useCount));
            && q == p.(tabs := q.tabs)
            && q.tabs == if slot !in p.tabs then p.tabs else
                 p.tabs[slot := Resident(p.tabs[slot].tab, ready, busy, lastUsed, useCount, p.tabs[slot].createdAt)]
  {
    var q := OutsideStep(p, Touch(slot, ready, busy, lastUsed, useCount));
    assert slot !in p.tabs ==> q == p;
  }

  /** A closed slot leaves tabs, mappings and streaks; clearing empties all three. No id is ever taken back. */
  lemma CloseIs(p: Pool, slot: Slot)
    ensures var q := OutsideStep(p, Close(slot));
            && q == p.(tabs := p.tabs - {slot}, affinity := q.affinity, streaks := p.streaks - {slot})
            && (forall a :: a in q.affinity <==> a in p.affinity && p.affinity[a] != slot)
            && (forall a :: a in q.affinity ==> q.affinity[a] == p.affinity[a])
    ensures OutsideStep(p, ClearAll) == Pool(map[], map[], map[], p.issued, p.pick)
  {
  }

  /** A report adds one to the streak of the slot it looks up, if there is one. */
  lemma ReportIs(p: Pool, project: Project)
    ensures var (found, q) := Resolve(p, project);
            OutsideStep(p, Report(project)) ==
              match found {
                case None => q
                case Some(s) => q.(streaks := q.streaks[s := 1 + if s in p.streaks then p.streaks[s] else 0])
              }
  {
  }

  /** A success erases the streak of the slot it looks up. */
  lemma SucceedIs(p: Pool, project: Project)
    ensures var (found, q) := Resolve(p, project);
            OutsideStep(p, Succeed(project)) ==
              match found { case None => q case Some(s) => q.(streaks := q.streaks - {s}) }
  {
  }

  /** Looking a project up alone, a recovery that erases a streak, and binding a named project to a slot. */
  lemma OthersAre(p: Pool, project: Project, slot: Slot)
    ensures OutsideStep(p, Locate(project)) == Resolve(p, project).1
    ensures OutsideStep(p, Excuse(slot)) == p.(streaks := p.streaks - {slot})
    ensures OutsideStep(p, Bind(project, slot)) ==
              if project == "" then p else p.(affinity := p.affinity[project := slot])
  {
  }
}
