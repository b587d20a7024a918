/** The escalation of error reports: reload the tab, rebuild it, restart the browser
    (src/services/browser_captcha_personal.py, `report_flow_error`). Reports are taken one at a time,
    each run to its end; the pool may change in any way between them except that streaks only fall. */
module RecoveryLadder {
  import opened Prelude
  import opened ResidentPool
  import Rotation

  /** How many reports in a row trigger each rung. */
  datatype Ladder = Ladder(recreate: nat, restart: nat)

  /** A setting of zero means the default, and smaller ones are raised to it. */
  function Configured(recreate: int, restart: int): Ladder {
    Ladder(if recreate > 2 then recreate else 2, if restart > 3 then restart else 3)
  }

  datatype Kind = Rejection | ServerError | OtherError

  datatype Rung = NoSlot | OnlyCounted | Reload | Recreate | Restart

  /** A report and how the recovery it asks for turns out. */
  datatype Report = Report(project: Project, kind: Kind, browserUp: bool, healed: bool, built: Option<Tab>, now: int)

  function Escalate(l: Ladder, kind: Kind, streak: nat): Rung {
    if kind == OtherError then Recreate
    else if streak >= l.restart then Restart
    else if streak >= l.recreate then Recreate
    else Reload
  }

  /** `_clear_resident_storage_and_reload`: look the slot up again and heal it if the reload works. */
  ghost function ReloadTab(p: Pool, r: Report): (bool, Pool) {
    var (slot, q) := Resolve(p, r.project);
    if slot.None? then (false, q)
    else if r.healed then (true, Remember(Healed(q, slot.value, r.now), r.project, slot.value))
    else (false, Unready(q, slot.value))
  }

  function Healed(p: Pool, slot: Slot, now: int): Pool
    requires slot in p.tabs
  {
    p.(tabs := p.tabs[slot := p.tabs[slot].(ready := true, lastUsed := now)])
  }

  function Unready(p: Pool, slot: Slot): Pool
    requires slot in p.tabs
  {
    p.(tabs := p.tabs[slot := p.tabs[slot].(ready := false)])
  }

  /** `_recreate_resident_tab`, uninterrupted. */
  ghost function RecreateTab(p: Pool, r: Report): Pool {
    var (slot, q) := TakeForRebuild(p, r.project, None);
    if r.built.None? then q else PublishRebuilt(q, slot, Fresh(r.built.value, r.now), r.project)
  }

  /** One report: the rung it reaches and the pool afterwards. A restart empties the pool. */
  ghost function Handle(p: Pool, l: Ladder, r: Report): (Rung, Pool) {
    var (slot, q) := CountError(p, r.project);
    if slot.None? then (NoSlot, q)
    else if !r.browserUp then (OnlyCounted, q)
    else
      var rung := Escalate(l, r.kind, Streak(q, slot.value));
      (rung, if rung == Restart then Clear(q) else Recover(q, r, rung == Reload))
  }

  /** Reload if asked to, and rebuild unless that healed the tab. */
  ghost function Recover(p: Pool, r: Report, reload: bool): Pool {
    var (healed, q) := if reload then ReloadTab(p, r) else (false, p);
    if healed then q else RecreateTab(q, r)
  }

  // ---------------------------------------------------------------- with a live affinity

  predicate Live(p: Pool, project: Project) {
    project != "" && project in p.affinity && p.affinity[project] in p.tabs
  }

  lemma LiveResolves(p: Pool, project: Project)
    requires Live(p, project)
    ensures Resolve(p, project) == (Some(p.affinity[project]), p)
  {
  }

  /** With a live affinity a report blames, reloads and rebuilds the same slot. */
  lemma LiveCounts(p: Pool, project: Project)
    requires Live(p, project)
    ensures CountError(p, project) == (Some(p.affinity[project]), Blame(p, p.affinity[project]))
  {
    LiveResolves(p, project);
  }

  lemma LiveReload(p: Pool, r: Report)
    requires Live(p, r.project)
    ensures var (healed, q) := ReloadTab(p, r);
            && healed == r.healed && q.streaks == p.streaks && q.affinity == p.affinity && q.tabs.Keys == p.tabs.Keys
  {
    LiveResolves(p, r.project);
  }

  /** The rebuild erases the streak that asked for it. */
  lemma LiveRecreate(p: Pool, r: Report)
    requires Live(p, r.project)
    ensures var q := RecreateTab(p, r);
            var slot := p.affinity[r.project];
            && q.streaks == Without(p.streaks, slot) && slot !in q.streaks
            && (r.built.Some? ==> Live(q, r.project) && q.affinity[r.project] == slot)
  {
    LiveResolves(p, r.project);
  }

  lemma LiveRecover(p: Pool, r: Report, reload: bool)
    requires Live(p, r.project)
    ensures var q := Recover(p, r, reload);
            var slot := p.affinity[r.project];
            && q.streaks == (if reload && r.healed then p.streaks else Without(p.streaks, slot))
            && ((reload && r.healed) || r.built.Some? ==> Live(q, r.project) && q.affinity[r.project] == slot)
  {
    LiveReload(p, r);
    var (healed, q) := if reload then ReloadTab(p, r) else (false, p);
    LiveRecreate(q, r);
  }

  predicate Recovers(rung: Rung, r: Report) {
    (rung == Reload && r.healed) || r.built.Some?
  }

  /** The streaks a report leaves: only the blamed slot's changes, up by one or erased. */
  lemma LiveReport(p: Pool, l: Ladder, r: Report)
    requires Live(p, r.project) && r.browserUp
    ensures var slot := p.affinity[r.project];
            var streak := Streak(p, slot) + 1;
            var (rung, q) := Handle(p, l, r);
            && rung == Escalate(l, r.kind, streak)
            && (rung != Restart ==>
                q.streaks == if rung == Reload && r.healed then p.streaks[slot := streak] else Without(p.streaks, slot))
            && (rung != Restart && Recovers(rung, r) ==> Live(q, r.project) && q.affinity[r.project] == slot)
  {
    LiveCounts(p, r.project);
    var streak := Streak(p, p.affinity[r.project]) + 1;
    LiveRecover(Blame(p, p.affinity[r.project]), r, Escalate(l, r.kind, streak) == Reload);
  }

  // ---------------------------------------------------------------- runs

  datatype Event = Reported(report: Report) | Interlude(next: Pool)

  /** What solves, ensures, closes, rebuilds and successes do to the streaks. */
  predicate Gentle(p: Pool, next: Pool) {
    next.streaks.Keys <= p.streaks.Keys && forall s :: s in next.streaks ==> next.streaks[s] <= p.streaks[s]
  }

  ghost function PoolAfter(p: Pool, l: Ladder, e: Event): Pool {
    match e
    case Reported(r) => Handle(p, l, r).1
    case Interlude(next) => next
  }

  ghost predicate Proper(p: Pool, e: Event) {
    match e
    case Reported(r) => Live(p, r.project) && r.browserUp
    case Interlude(next) => Gentle(p, next)
  }

  /** Every report of the run comes with a live affinity and a running browser. */
  ghost predicate ProperRun(p: Pool, l: Ladder, es: seq<Event>)
    decreases |es|
  {
    es == [] || (Proper(p, es[0]) && ProperRun(PoolAfter(p, l, es[0]), l, es[1..]))
  }

  ghost predicate RestartReached(p: Pool, l: Ladder, es: seq<Event>)
    decreases |es|
  {
    es != [] && ((es[0].Reported? && Handle(p, l, es[0].report).0 == Restart) || RestartReached(PoolAfter(p, l, es[0]),
        l, es[1..]))
  }

  ghost function PoolAtEnd(p: Pool, l: Ladder, es: seq<Event>): Pool
    decreases |es|
  {
    if es == [] then p else PoolAtEnd(PoolAfter(p, l, es[0]), l, es[1..])
  }

  predicate Below(p: Pool, n: nat) {
    forall s :: s in p.streaks ==> p.streaks[s] < n
  }

  lemma ReportStaysBelow(p: Pool, l: Ladder, r: Report)
    requires 0 < l.recreate < l.restart && Below(p, l.recreate) && Live(p, r.project) && r.browserUp
    ensures Handle(p, l, r).0 != Restart && Below(Handle(p, l, r).1, l.recreate)
  {
    LiveReport(p, l, r);
  }

  /** The ladder as written: with the rebuild threshold below the restart threshold, no run of reports
      with live affinities ever restarts the browser, and streaks stay below the rebuild threshold. */
  lemma {:induction false} NeverRestarts(p: Pool, l: Ladder, es: seq<Event>)
    requires 0 < l.recreate < l.restart && Below(p, l.recreate) && ProperRun(p, l, es)
    ensures !RestartReached(p, l, es) && Below(PoolAtEnd(p, l, es), l.recreate)
    decreases |es|
  {
    if es != [] {
      if es[0].Reported? {
        ReportStaysBelow(p, l, es[0].report);
      }
      NeverRestarts(PoolAfter(p, l, es[0]), l, es[1..]);
    }
  }

  // ---------------------------------------------------------------- the same failure over and over

  ghost function AfterRepeats(p: Pool, l: Ladder, r: Report, n: nat): Pool {
    if n == 0 then p else Handle(AfterRepeats(p, l, r, n - 1), l, r).1
  }

  /** A rejection for a live project whose reloads heal and whose rebuilds succeed. */
  predicate Recoverable(p: Pool, r: Report) {
    Live(p, r.project) && r.browserUp && r.kind != OtherError && r.healed && r.built.Some?
  }

  /** Such a report's slot, with its streak. */
  predicate At(p: Pool, r: Report, slot: Slot, streak: nat) {
    Recoverable(p, r) && p.affinity[r.project] == slot && Streak(p, slot) == streak
  }

  lemma RepeatOnce(p: Pool, l: Ladder, r: Report, slot: Slot, streak: nat)
    requires At(p, r, slot, streak) && streak + 1 < l.restart && l.recreate > 0
    ensures At(Handle(p, l, r).1, r, slot, if streak + 1 >= l.recreate then 0 else streak + 1)
  {
    LiveReport(p, l, r);
  }

  lemma RepeatTo(p: Pool, l: Ladder, r: Report, slot: Slot, streak: nat, next: nat)
    requires At(p, r, slot, streak) && streak < l.recreate < l.restart
    requires next == if streak + 1 == l.recreate then 0 else streak + 1
    ensures At(Handle(p, l, r).1, r, slot, next)
  {
    RepeatOnce(p, l, r, slot, streak);
  }

  lemma RepeatRung(p: Pool, l: Ladder, r: Report, slot: Slot, streak: nat)
    requires At(p, r, slot, streak)
    ensures Handle(p, l, r).0 == Restart <==> streak + 1 >= l.restart
  {
    LiveReport(p, l, r);
  }

  /** Up by one each time, back to zero at `d`. */
  function Cycle(n: nat, d: nat): (r: nat)
    requires d > 0
    ensures r < d
  {
    if n == 0 || Cycle(n - 1, d) + 1 == d then 0 else Cycle(n - 1, d) + 1
  }

  lemma {:induction false} CycleQuotient(n: nat, d: nat) returns (q: nat)
    requires d > 0
    ensures n == q * d + Cycle(n, d)
  {
    if n == 0 {
      q := 0;
    } else {
      q := CycleQuotient(n - 1, d);
      if Cycle(n, d) == 0 {
        Rotation.MulSucc(q, d);
        q := q + 1;
      }
    }
  }

  lemma CycleIsRemainder(n: nat, d: nat)
    requires d > 0
    ensures Cycle(n, d) == n % d
  {
    var q := CycleQuotient(n, d);
    Rotation.QuotientAtLeast(q, n, d);
    Rotation.QuotientAtMost(q, n, d);
    assert n / d == q;
  }

  /** The streak after n consecutive reports. */
  ghost predicate StreakAfter(p: Pool, l: Ladder, r: Report, slot: Slot, n: nat, streak: nat) {
    At(AfterRepeats(p, l, r, n), r, slot, streak)
  }

  lemma {:induction false} StreakCycles(p: Pool, l: Ladder, r: Report, slot: Slot, n: nat)
    requires At(p, r, slot, 0) && 0 < l.recreate < l.restart
    ensures StreakAfter(p, l, r, slot, n, Cycle(n, l.recreate))
  {
    if n > 0 {
      StreakCycles(p, l, r, slot, n - 1);
      RepeatTo(AfterRepeats(p, l, r, n - 1), l, r, slot, Cycle(n - 1, l.recreate), Cycle(n, l.recreate));
    }
  }

  /** The n-th consecutive report leaves a streak of n modulo the rebuild threshold. */
  lemma StreakClosedForm(p: Pool, l: Ladder, r: Report, slot: Slot, n: nat)
    requires At(p, r, slot, 0) && 0 < l.recreate < l.restart
    ensures StreakAfter(p, l, r, slot, n, n % l.recreate)
  {
    StreakCycles(p, l, r, slot, n);
    CycleIsRemainder(n, l.recreate);
  }

  lemma {:induction false} StreakCounts(p: Pool, l: Ladder, r: Report, slot: Slot, n: nat)
    requires At(p, r, slot, 0) && n < l.restart <= l.recreate
    ensures StreakAfter(p, l, r, slot, n, n)
  {
    if n > 0 {
      StreakCounts(p, l, r, slot, n - 1);
      RepeatOnce(AfterRepeats(p, l, r, n - 1), l, r, slot, n - 1);
    }
  }

  ghost predicate RestartsAt(p: Pool, l: Ladder, r: Report, n: nat) {
    Handle(AfterRepeats(p, l, r, n), l, r).0 == Restart
  }

  /** Otherwise it is the restart-th report that restarts the browser, and none before it. */
  lemma RestartsOnNth(p: Pool, l: Ladder, r: Report, slot: Slot, n: nat)
    requires At(p, r, slot, 0) && n < l.restart <= l.recreate
    ensures RestartsAt(p, l, r, n) <==> n == l.restart - 1
  {
    StreakCounts(p, l, r, slot, n);
    RepeatRung(AfterRepeats(p, l, r, n), l, r, slot, n);
  }

  lemma RepeatsNeverRestart(p: Pool, l: Ladder, r: Report, slot: Slot, n: nat)
    requires At(p, r, slot, 0) && 0 < l.recreate < l.restart
    ensures !RestartsAt(p, l, r, n)
  {
    StreakCycles(p, l, r, slot, n);
    RepeatRung(AfterRepeats(p, l, r, n), l, r, slot, Cycle(n, l.recreate));
  }

  /** Consecutive rejections ever restart the browser iff the restart threshold is not above the rebuild
      threshold. */
  lemma RestartsIff(p: Pool, l: Ladder, r: Report, slot: Slot)
    requires At(p, r, slot, 0) && l.recreate > 0 && l.restart > 0
    ensures (exists n: nat :: RestartsAt(p, l, r, n)) <==> l.restart <= l.recreate
  {
    if l.restart <= l.recreate {
      RestartsOnNth(p, l, r, slot, l.restart - 1);
    } else {
      forall n: nat
        ensures !RestartsAt(p, l, r, n)
      {
        RepeatsNeverRestart(p, l, r, slot, n);
      }
    }
  }
}
