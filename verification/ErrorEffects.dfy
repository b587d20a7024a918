/** What an error report does to the pool, case by case (`report_flow_error` of
    src/services/browser_captcha_personal.py), in terms of tabs, affinities and streaks alone. */
module ErrorEffects {
  import opened Prelude
  import opened ResidentPool
  import opened RecoveryLadder

  /** The tab is rebuilt: the slot holds the new tab and is the project's and nobody else's, or, when the
      build failed, it is gone. Either way its streak is erased, and no other slot is touched. */
  ghost predicate TabRebuilt(p: Pool, q: Pool, slot: Slot, project: Project, built: Option<Tab>, now: int) {
    && q.tabs.Keys == (if built.Some? then p.tabs.Keys + {slot} else p.tabs.Keys - {slot})
    && (built.Some? ==> q.tabs[slot] == Resident(built.value, true, false, now, 0, now))
    && (forall s :: s in p.tabs && s != slot ==> q.tabs[s] == p.tabs[s])
    && q.streaks.Keys == p.streaks.Keys - {slot}
    && (forall s :: s in p.streaks && s != slot ==> q.streaks[s] == p.streaks[s])
    && (forall k :: k in q.affinity <==> (k in p.affinity && p.affinity[k] != slot) || (k == project && built.Some?))
    && (forall k :: k in q.affinity ==>
          q.affinity[k] == if k == project && built.Some? then slot else p.affinity[k])
    && q.issued == p.issued && q.pick == p.pick
  }

  /** The tab is kept, ready again, with its streak raised by one. */
  predicate TabHealed(p: Pool, q: Pool, slot: Slot, now: int)
    requires slot in p.tabs
  {
    && q.tabs == p.tabs[slot := p.tabs[slot].(ready := true, lastUsed := now)]
    && OnlyCountedAt(p, q, slot)
  }

  /** Apart from the tabs only the slot's streak changes, up by one. */
  predicate OnlyCountedAt(p: Pool, q: Pool, slot: Slot) {
    && q.streaks.Keys == p.streaks.Keys + {slot}
    && q.streaks[slot] == (if slot in p.streaks then p.streaks[slot] + 1 else 1)
    && (forall s :: s in p.streaks && s != slot ==> q.streaks[s] == p.streaks[s])
    && q.affinity == p.affinity && q.issued == p.issued && q.pick == p.pick
  }

  lemma BlameCounts(p: Pool, slot: Slot)
    ensures OnlyCountedAt(p, Blame(p, slot), slot) && Blame(p, slot).tabs == p.tabs
  {
  }

  lemma RebuildRebuilds(p: Pool, r: Report)
    requires Live(p, r.project)
    ensures TabRebuilt(p, RecreateTab(p, r), p.affinity[r.project], r.project, r.built, r.now)
  {
    LiveResolves(p, r.project);
  }

  /** Counting before the rebuild, or unreadying the tab, leaves no trace. */
  lemma RebuiltAnyway(p: Pool, c: Pool, q: Pool, slot: Slot, project: Project, built: Option<Tab>, now: int)
    requires TabRebuilt(c, q, slot, project, built, now) && slot in p.tabs && OnlyCountedAt(p, c, slot)
    requires c.tabs.Keys == p.tabs.Keys && forall s :: s in p.tabs && s != slot ==> c.tabs[s] == p.tabs[s]
    ensures TabRebuilt(p, q, slot, project, built, now)
  {
  }

  lemma ReloadHeals(p: Pool, r: Report)
    requires Live(p, r.project)
    ensures var (healed, q) := ReloadTab(p, r); var slot := p.affinity[r.project];
            && healed == r.healed
            && q == p.(tabs := p.tabs[slot := if r.healed then p.tabs[slot].(ready := true, lastUsed := r.now)
                                              else p.tabs[slot].(ready := false)])
  {
    LiveResolves(p, r.project);
  }

  lemma RecoverRebuilds(p: Pool, c: Pool, r: Report, reload: bool)
    requires Live(p, r.project) && c == Blame(p, p.affinity[r.project])
    ensures var slot, q := p.affinity[r.project], Recover(c, r, reload);
            if reload && r.healed then TabHealed(p, q, slot, r.now)
            else TabRebuilt(p, q, slot, r.project, r.built, r.now)
  {
    var slot := p.affinity[r.project];
    BlameCounts(p, slot);
    ReloadHeals(c, r);
    var (healed, d) := if reload then ReloadTab(c, r) else (false, c);
    if !healed {
      RebuildRebuilds(d, r);
      RebuiltAnyway(p, d, RecreateTab(d, r), slot, r.project, r.built, r.now);
    }
  }

  /** An error that is neither a rejection nor the server's: whatever the streak and the thresholds, the tab
      is rebuilt at once. */
  lemma OtherErrorRebuilds(p: Pool, l: Ladder, r: Report)
    requires Live(p, r.project) && r.browserUp && r.kind == OtherError
    ensures Handle(p, l, r).0 == Recreate
    ensures TabRebuilt(p, Handle(p, l, r).1, p.affinity[r.project], r.project, r.built, r.now)
  {
    LiveCounts(p, r.project);
    RecoverRebuilds(p, Blame(p, p.affinity[r.project]), r, false);
  }

  /** Rejections and server errors, by what the streak now is: from the restart threshold on the pool is
      emptied; from the rebuild threshold on the tab is rebuilt; below both it is kept if the reload heals it
      and rebuilt if not. */
  lemma RejectionEffect(p: Pool, l: Ladder, r: Report)
    requires Live(p, r.project) && r.browserUp && (r.kind == Rejection || r.kind == ServerError)
    ensures var slot := p.affinity[r.project];
            var streak := if slot in p.streaks then p.streaks[slot] + 1 else 1;
            var (rung, q) := Handle(p, l, r);
            && rung == (if streak >= l.restart then Restart else if streak >= l.recreate then Recreate else Reload)
            && if rung == Restart then q == Pool(map[], map[], map[], p.issued, p.pick)
               else if rung == Recreate || !r.healed then TabRebuilt(p, q, slot, r.project, r.built, r.now)
               else TabHealed(p, q, slot, r.now)
  {
    LiveCounts(p, r.project);
    var slot := p.affinity[r.project];
    RecoverRebuilds(p, Blame(p, slot), r, Streak(p, slot) + 1 < l.recreate);
  }

  /** With no tab left there is nothing to reload. */
  lemma NothingToReload(p: Pool, r: Report)
    requires |p.tabs| == 0
    ensures !ReloadTab(p, r).0 && ReloadTab(p, r).1.tabs == p.tabs
  {
  }

  /** Without a browser a report only counts, and without a tab it does nothing to the pool's tabs or streaks. */
  lemma CountedOnly(p: Pool, l: Ladder, r: Report)
    ensures |p.tabs| == 0 ==> Handle(p, l, r).0 == NoSlot && Handle(p, l, r).1.streaks == p.streaks
    ensures Live(p, r.project) && !r.browserUp ==>
              var (rung, q) := Handle(p, l, r);
              rung == OnlyCounted && q.tabs == p.tabs && OnlyCountedAt(p, q, p.affinity[r.project])
  {
    if Live(p, r.project) {
      LiveCounts(p, r.project);
      BlameCounts(p, p.affinity[r.project]);
    }
  }

  /** Whom a report is about: the project's own slot while it lives, and otherwise the pool's choice. A
      mapping to a departed slot is dropped. */
  lemma ResolveIs(p: Pool, project: Project)
    ensures Live(p, project) ==> Resolve(p, project) == (Some(p.affinity[project]), p)
    ensures !Live(p, project) ==>
              var q := p.(affinity := if project == "" then p.affinity else p.affinity - {project});
              Resolve(p, project) == (Choose(p), Rotate(q))
  {
    if !Live(p, project) {
      DeadAffinity(p, project);
    }
  }

  lemma DeadAffinity(p: Pool, project: Project)
    requires !Live(p, project)
    ensures ResolveAffinity(p, project) ==
              (None, p.(affinity := if project == "" then p.affinity else p.affinity - {project}))
  {
    if project != "" && project !in p.affinity {
      assert p.affinity - {project} == p.affinity;
    }
  }

  /** A success erases the streak of the slot it resolves to and nothing else of the streaks. */
  lemma SuccessPardons(p: Pool, project: Project)
    ensures var slot, q := Resolve(p, project).0, CountSuccess(p, project);
            && q.tabs == p.tabs && q.affinity == Resolve(p, project).1.affinity
            && q.streaks == if slot.Some? then p.streaks - {slot.value} else p.streaks
  {
  }

  /** A project is remembered with its slot, over any it had; a blank one never is. */
  lemma RememberIs(p: Pool, project: Project, slot: Slot)
    ensures Remember(p, "", slot) == p
    ensures project != "" ==> Remember(p, project, slot) == p.(affinity := p.affinity[project := slot])
  {
  }

  /** A threshold is never below two and three, and a larger setting stands. */
  lemma ConfiguredIs(recreate: int, restart: int)
    ensures var l := Configured(recreate, restart);
            && l.recreate >= 2 && l.restart >= 3
            && (l.recreate == recreate || (recreate < 2 && l.recreate == 2))
            && (l.restart == restart || (restart < 3 && l.restart == 3))
  {
  }
}
