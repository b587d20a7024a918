/** Where the error-report ladder departs from "restart on the N-th rejection in a row", and what would
    make it so; and that everything else sharing the pool only lowers streaks. */
module LadderGaps {
  import opened Prelude
  import opened LexSort
  import opened ResidentPool
  import opened RecoveryLadder
  import PoolRuns

  // ---------------------------------------------------------------- a rebuild that keeps the streak

  /** The variant: recovery leaves the streak it was asked for in place. */
  ghost function HandleKeeping(p: Pool, l: Ladder, r: Report): (Rung, Pool) {
    var (rung, q) := Handle(p, l, r);
    (rung, if rung == Restart then q else q.(streaks := CountError(p, r.project).1.streaks))
  }

  /** The pools that follow from `ps[0]` by handling the same report again and again. */
  ghost predicate KeptRun(ps: seq<Pool>, l: Ladder, r: Report) {
    forall i :: 0 <= i < |ps| - 1 ==> KeptNext(ps[i], ps[i + 1], l, r)
  }

  ghost predicate KeptNext(p: Pool, q: Pool, l: Ladder, r: Report) {
    q == HandleKeeping(p, l, r).1
  }

  lemma KeptOnce(p: Pool, q: Pool, l: Ladder, r: Report, slot: Slot, streak: nat)
    requires At(p, r, slot, streak) && streak + 1 < l.restart && KeptNext(p, q, l, r)
    ensures At(q, r, slot, streak + 1)
  {
    LiveReport(p, l, r);
    LiveCounts(p, r.project);
  }

  lemma {:induction false} KeptCounts(ps: seq<Pool>, l: Ladder, r: Report, slot: Slot, n: nat)
    requires n < |ps| && n < l.restart && KeptRun(ps, l, r) && At(ps[0], r, slot, 0)
    ensures At(ps[n], r, slot, n)
  {
    if n > 0 {
      KeptCounts(ps, l, r, slot, n - 1);
      assert KeptNext(ps[n - 1], ps[n - 1 + 1], l, r);
      KeptOnce(ps[n - 1], ps[n], l, r, slot, n - 1);
    }
  }

  /** The variant restarts on exactly the restart-th consecutive rejection, whatever the rebuild
      threshold. */
  lemma KeepingRestartsOnNth(ps: seq<Pool>, l: Ladder, r: Report, slot: Slot, n: nat)
    requires n < |ps| && n < l.restart && KeptRun(ps, l, r) && At(ps[0], r, slot, 0)
    ensures HandleKeeping(ps[n], l, r).0 == Restart <==> n == l.restart - 1
  {
    KeptCounts(ps, l, r, slot, n);
    RepeatRung(ps[n], l, r, slot, n);
  }

  // ---------------------------------------------------------------- interludes

  /** Of all the steps that share the pool, only an error report raises a streak. */
  lemma OutsideIsGentle(p: Pool, o: PoolRuns.Outside)
    requires !o.Report?
    ensures Gentle(p, PoolRuns.OutsideStep(p, o))
  {
  }

  lemma BuildsAreGentle(w: PoolRuns.World, t: PoolRuns.Task, a: PoolRuns.Action)
    requires w.pool.streaks.Keys <= w.pool.tabs.Keys
    ensures Gentle(w.pool, PoolRuns.Act(w, t, a).pool)
  {
    var pc := PoolRuns.PcOf(w, t);
    if a.Take? && pc.Taking? {
      TakeEffect(w.pool, pc.project, pc.named);
    }
  }

  // ---------------------------------------------------------------- without a running browser

  predicate LiveAt(p: Pool, project: Project, slot: Slot, streak: nat) {
    Live(p, project) && p.affinity[project] == slot && Streak(p, slot) == streak
  }

  /** A report that finds no browser only counts. */
  lemma DownOnce(p: Pool, l: Ladder, r: Report, slot: Slot, streak: nat)
    requires LiveAt(p, r.project, slot, streak) && !r.browserUp
    ensures Handle(p, l, r).0 == OnlyCounted && LiveAt(Handle(p, l, r).1, r.project, slot, streak + 1)
  {
    LiveCounts(p, r.project);
  }

  ghost predicate DownStreak(p: Pool, l: Ladder, r: Report, slot: Slot, n: nat) {
    LiveAt(AfterRepeats(p, l, r, n), r.project, slot, n)
  }

  lemma {:induction false} DownCounts(p: Pool, l: Ladder, r: Report, slot: Slot, n: nat)
    requires LiveAt(p, r.project, slot, 0) && !r.browserUp
    ensures DownStreak(p, l, r, slot, n)
  {
    if n > 0 {
      DownCounts(p, l, r, slot, n - 1);
      DownOnce(AfterRepeats(p, l, r, n - 1), l, r, slot, n - 1);
    }
  }

  /** So once n reports have come while the browser was down, the first rejection with it up restarts it
      exactly when n + 1 reaches the restart threshold, whatever the rebuild threshold. */
  lemma DownReportsLeadToRestart(p: Pool, l: Ladder, down: Report, up: Report, slot: Slot, n: nat)
    requires LiveAt(p, down.project, slot, 0) && !down.browserUp && down.project == up.project
    requires up.browserUp && up.kind != OtherError
    ensures Handle(AfterRepeats(p, l, down, n), l, up).0 == Restart <==> n + 1 >= l.restart
  {
    DownCounts(p, l, down, slot, n);
    UpAfter(AfterRepeats(p, l, down, n), l, up, slot, n);
  }

  lemma UpAfter(p: Pool, l: Ladder, up: Report, slot: Slot, n: nat)
    requires LiveAt(p, up.project, slot, n) && up.browserUp && up.kind != OtherError
    ensures Handle(p, l, up).0 == Restart <==> n + 1 >= l.restart
  {
    LiveReport(p, l, up);
  }

  // ---------------------------------------------------------------- without a live affinity

  /** Two ready idle tabs, `a` used longer ago than `b`. */
  predicate TwoIdle(p: Pool, a: Slot, b: Slot) {
    && a != b && p.tabs.Keys == {a, b}
    && p.tabs[a].ready && !p.tabs[a].busy && p.tabs[b].ready && !p.tabs[b].busy
    && p.tabs[a].lastUsed < p.tabs[b].lastUsed
  }

  lemma TwoIdleOrder(tabs: map<Slot, Resident>, a: Slot, b: Slot)
    requires a in tabs && b in tabs && tabs[a].lastUsed < tabs[b].lastUsed
    ensures ByUsage(tabs, {a, b}) == [a, b]
  {
    var ka, kb := Keyed(UsageKey(tabs, a), a), Keyed(UsageKey(tabs, b), b);
    assert ka.key[0] < kb.key[0];
    LexTotal(ka.key, kb.key);
    UsageKeysDistinct(tabs, {a, b});
    assert Ranked(tabs, {a, b}) == {ka, kb};
    ListingUnique({ka, kb}, [ka, kb]);
  }

  lemma TwoIdleChoice(p: Pool, a: Slot, b: Slot)
    requires TwoIdle(p, a, b) && p.pick < 2
    ensures Select(p) == (Some(if p.pick == 0 then a else b), p.(pick := 1 - p.pick))
  {
    assert |p.tabs| == |p.tabs.Keys| == 2;
    assert a in ReadyIdle(p.tabs);
    assert BestClass(p.tabs) == {a, b};
    TwoIdleOrder(p.tabs, a, b);
    OrderHasAll(p.tabs, {a, b});
    NthOfListing(Ranked(p.tabs, {a, b}), p.pick);
  }

  /** A project the pool has not met yet. */
  predicate Stranger(p: Pool, project: Project) {
    project != "" && project !in p.affinity
  }

  lemma StrangerResolves(p: Pool, a: Slot, b: Slot, project: Project)
    requires TwoIdle(p, a, b) && p.pick < 2 && Stranger(p, project)
    ensures Resolve(p, project) == (Some(if p.pick == 0 then a else b), p.(pick := 1 - p.pick))
  {
    TwoIdleChoice(p, a, b);
  }

  /** A stranger's rejection blames one tab and heals the other. */
  lemma FirstStranger(p: Pool, l: Ladder, r: Report, a: Slot, b: Slot)
    requires TwoIdle(p, a, b) && p.pick == 0 && Stranger(p, r.project) && p.affinity == map[]
    requires Streak(p, a) == 0 && r.browserUp && r.kind == Rejection && r.healed
    requires l == Ladder(2, 3) && r.now > p.tabs[a].lastUsed
    ensures var (rung, q) := Handle(p, l, r);
            && rung == Reload && TwoIdle(q, a, b) && q.pick == 0 && Streak(q, a) == 1
            && q.affinity == map[r.project := b] && q.tabs[a] == p.tabs[a]
  {
    StrangerResolves(p, a, b, r.project);
    var c := CountError(p, r.project).1;
    StrangerResolves(c, a, b, r.project);
  }

  /** The next one blames the same tab, whose streak asks for a rebuild, and rebuilds the other. */
  lemma SecondStranger(p: Pool, l: Ladder, r: Report, a: Slot, b: Slot)
    requires TwoIdle(p, a, b) && p.pick == 0 && Stranger(p, r.project)
    requires Streak(p, a) == 1 && r.browserUp && r.kind == Rejection && r.built.Some?
    requires l == Ladder(2, 3) && r.now > p.tabs[a].lastUsed
    ensures var (rung, q) := Handle(p, l, r);
            && rung == Recreate && TwoIdle(q, a, b) && q.pick == 0 && Streak(q, a) == 2
            && q.affinity.Keys <= p.affinity.Keys + {r.project}
  {
    StrangerResolves(p, a, b, r.project);
    var c := CountError(p, r.project).1;
    StrangerResolves(c, a, b, r.project);
    SecondRebuilt(c, r, a, b);
  }

  lemma SecondRebuilt(c: Pool, r: Report, a: Slot, b: Slot)
    requires TwoIdle(c, a, b) && c.pick == 1 && Stranger(c, r.project) && r.built.Some? && r.now > c.tabs[a].lastUsed
    ensures var q := RecreateTab(c, r);
            && TwoIdle(q, a, b) && q.pick == 0 && (a in c.streaks ==> Streak(q, a) == Streak(c, a))
            && q.affinity.Keys <= c.affinity.Keys + {r.project}
  {
    StrangerResolves(c, a, b, r.project);
    var (slot, t) := TakeForRebuild(c, r.project, None);
    assert slot == b && t == Drop(c.(pick := 0), b);
    var q := PublishRebuilt(t, b, Fresh(r.built.value, r.now), r.project);
    assert q.tabs.Keys == {a, b};
  }

  /** The third restarts the browser. */
  lemma ThirdStranger(p: Pool, l: Ladder, r: Report, a: Slot, b: Slot)
    requires TwoIdle(p, a, b) && p.pick == 0 && Stranger(p, r.project)
    requires Streak(p, a) == 2 && r.browserUp && r.kind == Rejection && l == Ladder(2, 3)
    ensures Handle(p, l, r).0 == Restart
  {
    StrangerResolves(p, a, b, r.project);
  }

  predicate Rejected(r: Report, since: int) {
    r.project != "" && r.browserUp && r.kind == Rejection && r.healed && r.built.Some? && r.now > since
  }

  lemma LastTwo(p: Pool, l: Ladder, r2: Report, r3: Report, a: Slot, b: Slot)
    requires TwoIdle(p, a, b) && p.pick == 0 && Streak(p, a) == 1 && l == Ladder(2, 3)
    requires Stranger(p, r2.project) && Stranger(p, r3.project) && r2.project != r3.project
    requires Rejected(r2, p.tabs[a].lastUsed) && Rejected(r3, p.tabs[a].lastUsed)
    ensures RestartReached(p, l, [Reported(r2), Reported(r3)])
  {
    SecondStranger(p, l, r2, a, b);
    var q := Handle(p, l, r2).1;
    ThirdStranger(q, l, r3, a, b);
    assert RestartReached(q, l, [Reported(r3)]);
    RestartLater(p, l, [Reported(r2), Reported(r3)]);
  }

  lemma RestartLater(p: Pool, l: Ladder, es: seq<Event>)
    requires es != [] && RestartReached(PoolAfter(p, l, es[0]), l, es[1..])
    ensures RestartReached(p, l, es)
  {
  }

  /** The premise of a live affinity is needed: three projects new to a pool of two idle tabs, rejected
      once each, restart the browser under the default thresholds, although no project was rejected twice. */
  lemma StrangersRestart(p: Pool, r1: Report, r2: Report, r3: Report, a: Slot, b: Slot)
    requires TwoIdle(p, a, b) && p.pick == 0 && p.affinity == map[] && p.streaks == map[]
    requires r1.project != r2.project && r2.project != r3.project && r1.project != r3.project
    requires Rejected(r1, p.tabs[a].lastUsed) && Rejected(r2, p.tabs[a].lastUsed) && Rejected(r3, p.tabs[a].lastUsed)
    ensures RestartReached(p, Configured(0, 0), [Reported(r1), Reported(r2), Reported(r3)])
  {
    assert Configured(0, 0) == Ladder(2, 3);
    FirstStranger(p, Ladder(2, 3), r1, a, b);
    var es := [Reported(r1), Reported(r2), Reported(r3)];
    assert es[1..] == [Reported(r2), Reported(r3)];
    LastTwo(Handle(p, Ladder(2, 3), r1).1, Ladder(2, 3), r2, r3, a, b);
    RestartLater(p, Ladder(2, 3), es);
  }
}
