/** The escalation of error reports with recoveries that overlap (src/services/browser_captcha_personal.py,
    `report_flow_error` and what it awaits): any number of reports, each advancing one section at a time,
    with the rest of the service in between. */
module OverlappingReports {
  import opened Prelude
  import opened ResidentPool
  import opened RecoveryLadder

  /** Where a counted report stands: about to look up the tab to reload, reloading it, about to take a slot
      for a rebuild, or building the tab anew. */
  datatype Stage = Reloading | Healing(slot: Slot) | Owing | Building(slot: Slot)

  datatype Flight = Flight(report: Report, stage: Stage)

  /** `flights` are the reports whose recovery is under way; `restarted` whether one restarted the browser. */
  datatype World = World(pool: Pool, flights: map<nat, Flight>, restarted: bool)

  datatype Section =
    | Count(id: nat, report: Report)
    | Look(id: nat)
    | Heal(id: nat)
    | Take(id: nat)
    | Publish(id: nat)
    | Meanwhile(next: Pool)

  predicate Stands(w: World, id: nat, stage: Stage) {
    id in w.flights && w.flights[id].stage == stage
  }

  function Advance(w: World, id: nat, stage: Stage, pool: Pool): World
    requires id in w.flights
  {
    w.(pool := pool, flights := w.flights[id := w.flights[id].(stage := stage)])
  }

  function Land(w: World, id: nat, pool: Pool): World {
    w.(pool := pool, flights := w.flights - {id})
  }

  /** Count the report against its slot and choose the rung. */
  ghost function Counted(w: World, l: Ladder, id: nat, r: Report): World {
    var (slot, q) := CountError(w.pool, r.project);
    if slot.None? || !r.browserUp then w.(pool := q)
    else
      match Escalate(l, r.kind, Streak(q, slot.value))
      case Restart => w.(pool := Clear(q), restarted := true)
      case Reload => w.(pool := q, flights := w.flights[id := Flight(r, Reloading)])
      case _ => w.(pool := q, flights := w.flights[id := Flight(r, Owing)])
  }

  ghost function Looked(w: World, id: nat): World
    requires id in w.flights
  {
    var (slot, q) := Resolve(w.pool, w.flights[id].report.project);
    Advance(w, id, if slot.Some? then Healing(slot.value) else Owing, q)
  }

  /** A reload that worked binds the project to the slot it looked up; one that failed leads to a rebuild.
      What it does to the tab's own fields counts as part of `Meanwhile`. */
  function HealedSlot(w: World, id: nat, slot: Slot): World
    requires id in w.flights
  {
    var r := w.flights[id].report;
    if r.healed then Land(w, id, Remember(w.pool, r.project, slot)) else Advance(w, id, Owing, w.pool)
  }

  ghost function Taken(w: World, id: nat): World
    requires id in w.flights
  {
    var (slot, q) := TakeForRebuild(w.pool, w.flights[id].report.project, None);
    Advance(w, id, Building(slot), q)
  }

  function Rebuilt(w: World, id: nat, slot: Slot): World
    requires id in w.flights
  {
    var r := w.flights[id].report;
    Land(w, id, if r.built.None? then w.pool
                else PublishRebuilt(w.pool, slot, Fresh(r.built.value, r.now), r.project))
  }

  /** A section that does not fit where the report stands changes nothing. */
  ghost function Step(w: World, l: Ladder, e: Section): World {
    match e
    case Count(id, r) => if id in w.flights then w else Counted(w, l, id, r)
    case Look(id) => if Stands(w, id, Reloading) then Looked(w, id) else w
    case Heal(id) =>
      if id in w.flights && w.flights[id].stage.Healing? then HealedSlot(w, id, w.flights[id].stage.slot) else w
    case Take(id) => if Stands(w, id, Owing) then Taken(w, id) else w
    case Publish(id) =>
      if id in w.flights && w.flights[id].stage.Building? then Rebuilt(w, id, w.flights[id].stage.slot) else w
    case Meanwhile(next) => w.(pool := next)
  }

  ghost function Run(w: World, l: Ladder, es: seq<Section>): World
    decreases |es|
  {
    if es == [] then w else Run(Step(w, l, es[0]), l, es[1..])
  }

  // ---------------------------------------------------------------- the invariant

  predicate Owes(w: World, id: nat, slot: Slot) {
    Stands(w, id, Owing) && w.flights[id].report.project != "" && w.flights[id].report.project in w.pool.affinity &&
        w.pool.affinity[w.flights[id].report.project] == slot
  }

  /** The reports that are about to take `slot` for a rebuild. */
  function Debt(w: World, slot: Slot): (r: set<nat>)
    ensures r <= w.flights.Keys
  {
    set id | id in w.flights && Owes(w, id, slot)
  }

  /** A streak is below the rebuild threshold, but for the rebuilds already owed. */
  predicate Covered(w: World, l: Ladder, slot: Slot) {
    Streak(w.pool, slot) < l.recreate + |Debt(w, slot)|
  }

  ghost predicate Inv(w: World, l: Ladder) {
    w.pool.streaks.Keys <= w.pool.tabs.Keys && forall s :: s in w.pool.streaks ==> Covered(w, l, s)
  }

  /** No report about to rebuild a slot is turned away from it while the slot has a streak. */
  ghost predicate KeepsDebts(w: World, v: World) {
    forall s, id :: s in v.pool.streaks && s in w.pool.streaks && Owes(w, id, s) && id in v.flights ==> Owes(v, id, s)
  }

  /** Reports come with a live affinity, a running browser and fewer than `k` others under way; the rest of
      the service raises no streak; and nobody rebinds a project whose rebuild is owed. */
  ghost predicate Steady(w: World, l: Ladder, k: nat, e: Section) {
    match e
    case Count(id, r) => id !in w.flights && Live(w.pool, r.project) && r.browserUp && |w.flights| < k
    case Meanwhile(next) =>
      Gentle(w.pool, next) && next.streaks.Keys <= next.tabs.Keys && KeepsDebts(w, Step(w, l, e))
    case Heal(_) => KeepsDebts(w, Step(w, l, e))
    case Publish(_) => KeepsDebts(w, Step(w, l, e))
    case _ => true
  }

  ghost predicate SteadyRun(w: World, l: Ladder, k: nat, es: seq<Section>)
    decreases |es|
  {
    es == [] || (Steady(w, l, k, es[0]) && SteadyRun(Step(w, l, es[0]), l, k, es[1..]))
  }

  // ---------------------------------------------------------------- every section keeps it

  lemma LessKeepsInv(w: World, v: World, l: Ladder)
    requires Inv(w, l) && Gentle(w.pool, v.pool) && v.pool.streaks.Keys <= v.pool.tabs.Keys
    requires forall s :: s in v.pool.streaks ==> Debt(w, s) <= Debt(v, s)
    ensures Inv(v, l)
  {
    forall s | s in v.pool.streaks ensures Covered(v, l, s) {
      assert Covered(w, l, s);
      SubsetSize(Debt(w, s), Debt(v, s));
    }
  }

  lemma KeptDebts(w: World, v: World, s: Slot)
    requires KeepsDebts(w, v) && s in v.pool.streaks && s in w.pool.streaks
    requires forall id :: id in w.flights && Stands(w, id, Owing) ==> id in v.flights
    ensures Debt(w, s) <= Debt(v, s)
  {
  }

  /** What looking a project up leaves: at most its own mapping to a departed slot is gone. */
  lemma ResolveAffects(p: Pool, project: Project, other: Project)
    requires other in p.affinity && p.affinity[other] in p.tabs
    ensures var q := Resolve(p, project).1; other in q.affinity && q.affinity[other] == p.affinity[other]
  {
  }

  lemma LookKeepsInv(w: World, l: Ladder, id: nat)
    requires Inv(w, l) && Stands(w, id, Reloading)
    ensures Inv(Looked(w, id), l)
  {
    var v := Looked(w, id);
    forall s, i | s in v.pool.streaks && Owes(w, i, s) ensures Owes(v, i, s) {
      ResolveAffects(w.pool, w.flights[id].report.project, w.flights[i].report.project);
    }
    LessKeepsInv(w, v, l);
  }

  /** A report takes the slot it owes a rebuild, and with it that slot's streak and debts. */
  lemma TakeAffects(p: Pool, project: Project, other: Project)
    requires p.streaks.Keys <= p.tabs.Keys && other != "" && other in p.affinity
    ensures var (slot, q) := TakeForRebuild(p, project, None);
            && Gentle(p, q) && q.streaks.Keys <= q.tabs.Keys
            && (p.affinity[other] in q.streaks ==>
                other != project && other in q.affinity && q.affinity[other] == p.affinity[other])
  {
    var (slot, q) := Resolve(p, project);
    if p.affinity[other] in p.tabs {
      ResolveAffects(p, project, other);
    }
  }

  lemma TakeKeepsInv(w: World, l: Ladder, id: nat)
    requires Inv(w, l) && Stands(w, id, Owing)
    ensures Inv(Taken(w, id), l)
  {
    var v := Taken(w, id);
    forall s, i | s in v.pool.streaks && Owes(w, i, s) ensures Owes(v, i, s) {
      TakeAffects(w.pool, w.flights[id].report.project, w.flights[i].report.project);
    }
    LessKeepsInv(w, v, l);
  }

  lemma CountKeepsInv(w: World, l: Ladder, id: nat, r: Report)
    requires Inv(w, l) && id !in w.flights && Live(w.pool, r.project) && r.browserUp && l.recreate > 0
    ensures Inv(Counted(w, l, id, r), l)
  {
    LiveCounts(w.pool, r.project);
    var v, slot := Counted(w, l, id, r), w.pool.affinity[r.project];
    var rung := Escalate(l, r.kind, Streak(w.pool, slot) + 1);
    if rung != Restart {
      var flight := Flight(r, if rung == Reload then Reloading else Owing);
      assert v == w.(pool := Blame(w.pool, slot), flights := w.flights[id := flight]);
      forall s | s in v.pool.streaks ensures Covered(v, l, s) {
        DebtCounted(w, v, l, id, flight, slot, s);
      }
    }
  }

  lemma DebtAdded(w: World, v: World, id: nat, flight: Flight, slot: Slot, s: Slot)
    requires id !in w.flights && v.pool.affinity == w.pool.affinity && v.flights == w.flights[id := flight]
    requires Live(w.pool, flight.report.project) && w.pool.affinity[flight.report.project] == slot
    ensures Debt(v, s) == Debt(w, s) + if flight.stage == Owing && s == slot then {id} else {}
  {
  }

  lemma DebtCounted(w: World, v: World, l: Ladder, id: nat, flight: Flight, slot: Slot, s: Slot)
    requires Inv(w, l) && id !in w.flights && s in v.pool.streaks
    requires v == w.(pool := Blame(w.pool, slot), flights := w.flights[id := flight])
    requires flight.stage == Owing || Streak(w.pool, slot) + 1 < l.recreate
    requires Live(w.pool, flight.report.project) && w.pool.affinity[flight.report.project] == slot
    requires l.recreate > 0
    ensures Covered(v, l, s)
  {
    DebtAdded(w, v, id, flight, slot, s);
    OneMore(Debt(w, s), id);
    assert s in w.pool.streaks ==> Covered(w, l, s);
  }

  lemma OneMore(debt: set<nat>, id: nat)
    ensures id !in debt ==> |debt + {id}| == |debt| + 1
    ensures debt + {} == debt
  {
  }

  // ---------------------------------------------------------------- runs

  lemma StepKeepsInv(w: World, l: Ladder, k: nat, e: Section)
    requires Inv(w, l) && Steady(w, l, k, e) && l.recreate > 0
    ensures Inv(Step(w, l, e), l)
  {
    match e
    case Count(id, r) => CountKeepsInv(w, l, id, r);
    case Look(id) => if Stands(w, id, Reloading) { LookKeepsInv(w, l, id); }
    case Take(id) => if Stands(w, id, Owing) { TakeKeepsInv(w, l, id); }
    case Heal(id) => RestKeepsInv(w, l, e);
    case Publish(id) => RestKeepsInv(w, l, e);
    case Meanwhile(_) => RestKeepsInv(w, l, e);
  }

  lemma RestKeepsInv(w: World, l: Ladder, e: Section)
    requires Inv(w, l) && (e.Heal? || e.Publish? || e.Meanwhile?) && KeepsDebts(w, Step(w, l, e))
    requires e.Meanwhile? ==> Gentle(w.pool, e.next) && e.next.streaks.Keys <= e.next.tabs.Keys
    ensures Inv(Step(w, l, e), l)
  {
    var v := Step(w, l, e);
    forall s | s in v.pool.streaks ensures Debt(w, s) <= Debt(v, s) {
      KeptDebts(w, v, s);
    }
    LessKeepsInv(w, v, l);
  }

  /** A report restarts the browser only while at least restart - recreate others owe its slot a rebuild. */
  lemma RestartNeedsDebt(w: World, l: Ladder, id: nat, r: Report)
    requires Inv(w, l) && Live(w.pool, r.project) && l.recreate > 0 && !w.restarted && Counted(w, l, id, r).restarted
    ensures |Debt(w, w.pool.affinity[r.project])| >= l.restart - l.recreate
    ensures |w.flights| >= l.restart - l.recreate
  {
    LiveCounts(w.pool, r.project);
    var slot := w.pool.affinity[r.project];
    assert slot in w.pool.streaks ==> Covered(w, l, slot);
    DebtBound(w, slot);
  }

  lemma DebtBound(w: World, slot: Slot)
    ensures |Debt(w, slot)| <= |w.flights|
  {
    SubsetSize(Debt(w, slot), w.flights.Keys);
    assert |w.flights.Keys| == |w.flights|;
  }

  lemma FlightsBound(w: World, l: Ladder, k: nat, e: Section)
    requires |w.flights| <= k && Steady(w, l, k, e)
    ensures |Step(w, l, e).flights| <= k
  {
    var v := Step(w, l, e);
    assert |w.flights.Keys| == |w.flights| && |v.flights.Keys| == |v.flights|;
    if e.Count? {
      SubsetSize(v.flights.Keys, w.flights.Keys + {e.id});
    } else {
      SubsetSize(v.flights.Keys, w.flights.Keys);
    }
  }

  /** With at most `k` reports under way no streak passes recreate - 1 + k, and while that is below the
      restart threshold no interleaving restarts the browser. */
  lemma {:induction false} OverlapNeverRestarts(w: World, l: Ladder, k: nat, es: seq<Section>)
    requires Inv(w, l) && |w.flights| <= k && !w.restarted && SteadyRun(w, l, k, es)
    requires l.recreate > 0 && l.recreate - 1 + k < l.restart
    ensures var v := Run(w, l, es); Inv(v, l) && !v.restarted && forall s :: Streak(v.pool, s) <= l.recreate - 1 + k
    decreases |es|
  {
    if es == [] {
      forall s ensures Streak(w.pool, s) <= l.recreate - 1 + k {
        DebtBound(w, s);
      }
    } else {
      var v := Step(w, l, es[0]);
      StepKeepsInv(w, l, k, es[0]);
      FlightsBound(w, l, k, es[0]);
      if v.restarted {
        RestartNeedsDebt(w, l, es[0].id, es[0].report);
        assert false;
      }
      OverlapNeverRestarts(v, l, k, es[1..]);
    }
  }

  // ---------------------------------------------------------------- and is tight

  /** A steady run that ends in a restart. */
  ghost predicate Reaches(w: World, l: Ladder, k: nat, es: seq<Section>) {
    SteadyRun(w, l, k, es) && Run(w, l, es).restarted
  }

  lemma ReachesNext(w: World, l: Ladder, k: nat, e: Section, es: seq<Section>)
    requires Steady(w, l, k, e) && Reaches(Step(w, l, e), l, k, es)
    ensures Reaches(w, l, k, [e] + es)
  {
    assert ([e] + es)[1..] == es;
  }

  /** A rejection whose reload works, for a project bound to `slot`. */
  predicate Bound(w: World, r: Report, slot: Slot, streak: nat) {
    && Live(w.pool, r.project) && w.pool.affinity[r.project] == slot && Streak(w.pool, slot) == streak
    && r.browserUp && r.kind == Rejection && r.healed && !w.restarted
  }

  /** One report after another, each rejected while the ones before still owe their rebuild. */
  function Pile(r: Report, i: nat, m: nat): seq<Section>
    requires i <= m
    decreases m - i
  {
    if i == m then [] else [Count(i, r)] + Pile(r, i + 1, m)
  }

  lemma PileStep(w: World, l: Ladder, r: Report, slot: Slot, i: nat)
    requires 0 < l.recreate && Bound(w, r, slot, l.recreate - 1 + i)
    ensures var v := Counted(w, l, i, r);
            if l.recreate + i >= l.restart then v.restarted
            else Bound(v, r, slot, l.recreate + i) && v.flights == w.flights[i := Flight(r, Owing)]
  {
    LiveCounts(w.pool, r.project);
  }

  lemma {:induction false} PileRestarts(w: World, l: Ladder, k: nat, r: Report, slot: Slot, i: nat, m: nat)
    requires 0 < l.recreate < l.restart && m == l.restart - l.recreate + 1 <= k && i < m
    requires Bound(w, r, slot, l.recreate - 1 + i) && |w.flights| == i && forall id :: id in w.flights ==> id < i
    ensures Reaches(w, l, k, Pile(r, i, m))
    decreases m - i
  {
    var v := Step(w, l, Count(i, r));
    PileStep(w, l, r, slot, i);
    if i + 1 < m {
      assert |v.flights| == i + 1;
      PileRestarts(v, l, k, r, slot, i + 1, m);
    } else {
      assert Pile(r, m, m) == [];
    }
    ReachesNext(w, l, k, Count(i, r), Pile(r, i + 1, m));
  }

  /** First one recovered report at a time, up to the rebuild threshold. */
  function Climb(r: Report, n: nat, rest: seq<Section>): seq<Section> {
    if n == 0 then rest else [Count(0, r)] + ([Look(0)] + ([Heal(0)] + Climb(r, n - 1, rest)))
  }

  lemma ClimbCount(w: World, l: Ladder, r: Report, slot: Slot, streak: nat)
    requires Bound(w, r, slot, streak) && streak + 1 < l.recreate < l.restart && w.flights == map[]
    ensures var v := Step(w, l, Count(0, r)); Bound(v, r, slot, streak + 1) && v.flights == map[0 := Flight(r, Reloading)]
  {
    LiveCounts(w.pool, r.project);
  }

  lemma ClimbHeal(w: World, l: Ladder, r: Report, slot: Slot, streak: nat)
    requires Bound(w, r, slot, streak) && w.flights == map[0 := Flight(r, Reloading)]
    ensures var v := Step(w, l, Look(0)); var u := Step(v, l, Heal(0));
            && v == w.(flights := map[0 := Flight(r, Healing(slot))])
            && KeepsDebts(v, u) && Bound(u, r, slot, streak) && u.flights == map[]
  {
    LiveResolves(w.pool, r.project);
  }

  lemma {:induction false} ClimbRestarts(w: World, l: Ladder, k: nat, r: Report, slot: Slot, n: nat, m: nat)
    requires 0 < l.recreate < l.restart && m == l.restart - l.recreate + 1 <= k && n < l.recreate
    requires Bound(w, r, slot, l.recreate - 1 - n) && w.flights == map[]
    ensures Reaches(w, l, k, Climb(r, n, Pile(r, 0, m)))
    decreases n
  {
    if n == 0 {
      PileRestarts(w, l, k, r, slot, 0, m);
    } else {
      var rest := Climb(r, n - 1, Pile(r, 0, m));
      var v := Step(w, l, Count(0, r));
      ClimbCount(w, l, r, slot, l.recreate - 1 - n);
      ClimbHeal(v, l, r, slot, l.recreate - n);
      var u := Step(v, l, Look(0));
      ClimbRestarts(Step(u, l, Heal(0)), l, k, r, slot, n - 1, m);
      ReachesNext(u, l, k, Heal(0), rest);
      ReachesNext(v, l, k, Look(0), [Heal(0)] + rest);
      ReachesNext(w, l, k, Count(0, r), [Look(0)] + ([Heal(0)] + rest));
    }
  }

  /** From a pool at rest, some steady run with at most `k` reports under way restarts the browser exactly
      when recreate - 1 + k reaches the restart threshold. */
  lemma OverlapRestartsIff(w: World, l: Ladder, k: nat, r: Report, slot: Slot)
    requires 0 < l.recreate < l.restart && Inv(w, l) && Bound(w, r, slot, 0) && w.flights == map[]
    ensures (exists es :: Reaches(w, l, k, es)) <==> l.restart <= l.recreate - 1 + k
  {
    if l.restart <= l.recreate - 1 + k {
      ClimbRestarts(w, l, k, r, slot, l.recreate - 1, l.restart - l.recreate + 1);
    } else {
      forall es ensures !Reaches(w, l, k, es) {
        if SteadyRun(w, l, k, es) {
          OverlapNeverRestarts(w, l, k, es);
        }
      }
    }
  }

  // ---------------------------------------------------------------- rebinding a project

  /** The report's project is solved on another tab before its rebuild: the rebuild takes that tab. */
  lemma TakesTheOther(w: World, l: Ladder, r: Report, r2: Report, slot: Slot, other: Slot, v: World)
    requires Bound(w, r2, slot, l.recreate) && other in w.pool.tabs && other != slot && r.project != r2.project
    requires w.flights == map[0 := Flight(r, Owing)] && Live(w.pool, r.project) && w.pool.affinity[r.project] == other
    requires v == Step(Step(w, l, Take(0)), l, Publish(0))
    ensures Bound(v, r2, slot, l.recreate) && v.flights == map[]
  {
    LiveResolves(w.pool, r.project);
  }

  lemma CountThenRebind(w: World, l: Ladder, r: Report, r2: Report, slot: Slot, other: Slot, next: Pool, v: World)
    requires 0 < l.recreate && l.restart == l.recreate + 1 && w.flights == map[] && r.project != r2.project
    requires Bound(w, r, slot, l.recreate - 1) && Bound(w, r2, slot, l.recreate - 1)
    requires other in w.pool.tabs && next == Remember(Counted(w, l, 0, r).pool, r.project, other)
    requires v == Step(Step(w, l, Count(0, r)), l, Meanwhile(next))
    ensures Bound(v, r2, slot, l.recreate) && other in v.pool.tabs && v.flights == map[0 := Flight(r, Owing)]
    ensures Live(v.pool, r.project) && v.pool.affinity[r.project] == other
  {
    PileStep(w, l, r, slot, 0);
    LiveCounts(w.pool, r.project);
  }

  /** That nobody rebinds a project whose rebuild is owed matters: otherwise two reports that do not
      overlap at all restart the browser where the thresholds are next to each other, as by default. */
  lemma RebindingRestarts(w: World, l: Ladder, r: Report, r2: Report, slot: Slot, other: Slot, next: Pool)
    requires 0 < l.recreate && l.restart == l.recreate + 1 && w.flights == map[] && r.project != r2.project
    requires Bound(w, r, slot, l.recreate - 1) && Bound(w, r2, slot, l.recreate - 1)
    requires other in w.pool.tabs && other != slot && next == Remember(Counted(w, l, 0, r).pool, r.project, other)
    ensures Run(w, l, [Count(0, r)] + ([Meanwhile(next)] + ([Take(0)] + ([Publish(0)] + [Count(1, r2)])))).restarted
  {
    var a := Step(w, l, Count(0, r));
    var b := Step(a, l, Meanwhile(next));
    CountThenRebind(w, l, r, r2, slot, other, next, b);
    var c := Step(b, l, Take(0));
    var d := Step(c, l, Publish(0));
    TakesTheOther(b, l, r, r2, slot, other, d);
    PileStep(d, l, r2, slot, 1);
    RunNext(d, l, Count(1, r2), []);
    RunNext(c, l, Publish(0), [Count(1, r2)]);
    RunNext(b, l, Take(0), [Publish(0)] + [Count(1, r2)]);
    RunNext(a, l, Meanwhile(next), [Take(0)] + ([Publish(0)] + [Count(1, r2)]));
    RunNext(w, l, Count(0, r), [Meanwhile(next)] + ([Take(0)] + ([Publish(0)] + [Count(1, r2)])));
  }

  lemma RunNext(w: World, l: Ladder, e: Section, es: seq<Section>)
    ensures Run(w, l, [e] + es) == Run(Step(w, l, e), l, es)
  {
    assert ([e] + es)[1..] == es;
  }
}
