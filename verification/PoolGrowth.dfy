/** When the pool of captcha tabs grows: exactly when a call to ensure a tab must build one, and that it then
    does (`_ensure_resident_tab` of src/services/browser_captcha_personal.py). */
module PoolGrowth {
  import opened Prelude
  import opened ResidentPool
  import opened PoolRuns
  import opened PoolLimits

  /** No tab is free; so it is for an empty pool. */
  predicate NoneFree(p: Pool) {
    forall s :: s in p.tabs ==> p.tabs[s].busy
  }

  /** A tab must be built exactly when there is room for it and the caller insists or no tab is free. In
      either case the pick index moves on. */
  lemma BuildIff(p: Pool, max: nat, force: bool)
    ensures var (create, slot, q) := EnsureCheck(p, max, force);
            && (create <==> |p.tabs| < max && (force || NoneFree(p)))
            && slot == Choose(p)
            && q == p.(pick := if |p.tabs| == 0 then p.pick else Wrap(p.pick + 1, |p.tabs|))
  {
  }

  /** A caller queues for the build lock exactly then, and otherwise leaves with an existing tab. */
  lemma QueuesIff(w: World, t: Task, force: bool)
    requires PcOf(w, t).Idle?
    ensures var v := Step(w, By(t, CallEnsure(force)));
            && PcOf(v, t) == (if |w.pool.tabs| < w.max && (force || NoneFree(w.pool)) then WantBuild(force) else Idle)
            && v.pool.tabs == w.pool.tabs
            && forall u :: u != t ==> PcOf(v, u) == PcOf(w, u)
  {
    BuildIff(w.pool, w.max, force);
    assert Step(w, By(t, CallEnsure(force))) == FirstCheck(w, t, force);
  }

  /** Under the lock the check is made again, and a slot with a new id is reserved exactly if it still holds. */
  lemma ReservesIff(w: World, t: Task, force: bool)
    requires PcOf(w, t) == Checking(force)
    ensures var v := Step(w, By(t, Check));
            && PcOf(v, t) == (if |w.pool.tabs| < w.max && (force || NoneFree(w.pool))
                              then Reserved(SlotName(w.pool.issued + 1), Expand) else Idle)
            && v.pool.tabs == w.pool.tabs
  {
    SecondCheckIs(w, t, force);
    assert Step(w, By(t, Check)) == SecondCheck(w, t, force);
  }

  lemma SecondCheckIs(w: World, t: Task, force: bool)
    ensures var v := SecondCheck(w, t, force);
            && PcOf(v, t) == (if |w.pool.tabs| < w.max && (force || NoneFree(w.pool))
                              then Reserved(SlotName(w.pool.issued + 1), Expand) else Idle)
            && v.pool.tabs == w.pool.tabs
  {
    BuildIff(w.pool, w.max, force);
  }

  /** One waiting for the lock leaves with an existing tab exactly when a ready one has become free. */
  lemma StopsWaitingIff(w: World, t: Task)
    requires PcOf(w, t) == WantBuild(false)
    ensures var v := Step(w, By(t, Poll));
            && PcOf(v, t) == (if exists s :: s in w.pool.tabs && w.pool.tabs[s].ready && !w.pool.tabs[s].busy
                              then Idle else WantBuild(false))
            && v.pool.tabs == w.pool.tabs
  {
    assert Step(w, By(t, Poll)) == PollOnce(w, t);
    if |w.pool.tabs| > 0 {
      ChoicePrefersReady(w.pool);
      assert Choose(w.pool).value in w.pool.tabs;
    } else {
      assert w.pool.tabs == map[];
    }
    if s :| s in w.pool.tabs && w.pool.tabs[s].ready && !w.pool.tabs[s].busy {
      assert s in ReadyIdle(w.pool.tabs);
      assert w.pool.tabs != map[];
    }
  }

  lemma DemandRun(w: World, t: Task)
    requires Quiet(w, t) && NoneFree(w.pool) && |w.pool.tabs| < w.max
    ensures var v := Run(w, [By(t, CallEnsure(false)), By(t, Acquire), By(t, Check)]);
            && v.builder == Some(t) && PcOf(v, t) == Reserved(SlotName(w.pool.issued + 1), Expand)
            && v.pool.tabs == w.pool.tabs
  {
    Three(w, By(t, CallEnsure(false)), By(t, Acquire), By(t, Check));
    var a := Step(w, By(t, CallEnsure(false)));
    QueuesIff(w, t, false);
    QueueKeeps(w, t);
    AcquireStep(a, t);
    var b := Step(a, By(t, Acquire));
    ReservesIff(b, t, false);
    CheckHolds(b, t);
  }

  lemma QueueKeeps(w: World, t: Task)
    requires Quiet(w, t) && NoneFree(w.pool) && |w.pool.tabs| < w.max
    ensures var v := Step(w, By(t, CallEnsure(false)));
            v.builder.None? && v.max == w.max && v.pool.issued == w.pool.issued
  {
    BuildIff(w.pool, w.max, false);
    assert Step(w, By(t, CallEnsure(false))) == FirstCheck(w, t, false);
  }

  lemma CheckHolds(w: World, t: Task)
    requires PcOf(w, t) == Checking(false) && w.builder == Some(t) && NoneFree(w.pool) && |w.pool.tabs| < w.max
    ensures Step(w, By(t, Check)).builder == Some(t)
  {
    BuildIff(w.pool, w.max, false);
    assert Step(w, By(t, Check)) == SecondCheck(w, t, false);
  }

  /** So on demand the pool does grow: with every tab busy and room left, an undisturbed call ends with one
      more tab, fresh, under a new id. */
  lemma GrowsOnDemand(w: World, t: Task, tab: Tab, now: int)
    requires Quiet(w, t) && NoneFree(w.pool) && |w.pool.tabs| < w.max && tab !in TabsOf(w.pool.tabs)
    ensures var v := Run(w, [By(t, CallEnsure(false)), By(t, Acquire), By(t, Check)] +
                            [By(t, Look), By(t, Finish(tab)), By(t, Publish(now))]);
            && Quiet(v, t)
            && v.pool.tabs == w.pool.tabs[SlotName(w.pool.issued + 1) := Resident(tab, true, false, now, 0, now)]
  {
    var first := [By(t, CallEnsure(false)), By(t, Acquire), By(t, Check)];
    DemandRun(w, t);
    var b := Run(w, first);
    PublishRun(b, t, SlotName(w.pool.issued + 1), Expand, tab, now);
    RunAppend(w, first, [By(t, Look), By(t, Finish(tab)), By(t, Publish(now))]);
  }

  /** And without demand it does not: while a tab is free, a call that does not insist changes no tab. */
  lemma NoGrowthWithoutDemand(w: World, t: Task)
    requires PcOf(w, t).Idle? && !NoneFree(w.pool)
    ensures var v := Step(w, By(t, CallEnsure(false))); PcOf(v, t).Idle? && v.pool.tabs == w.pool.tabs
  {
    QueuesIff(w, t, false);
  }
}
