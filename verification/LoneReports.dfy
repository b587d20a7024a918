/** A report whose sections nothing else comes between does exactly what the report handled in one go does
    (`report_flow_error` of src/services/browser_captcha_personal.py). */
module LoneReports {
  import opened Prelude
  import opened ResidentPool
  import opened RecoveryLadder
  import opened OverlappingReports

  /** The tab's own fields after the reload, which belong to what goes on around the report. */
  function Reloaded(p: Pool, slot: Slot, r: Report): Pool
    requires slot in p.tabs
  {
    if r.healed then Healed(p, slot, r.now) else Unready(p, slot)
  }

  lemma Two(w: World, l: Ladder, a: Section, b: Section)
    ensures Run(w, l, [a, b]) == Step(Step(w, l, a), l, b)
  {
    assert [a, b][1..] == [b] && [b][1..] == [];
    assert Run(Step(w, l, a), l, [b]) == Run(Step(Step(w, l, a), l, b), l, []);
  }

  lemma {:induction false} RunAppends(w: World, l: Ladder, es: seq<Section>, fs: seq<Section>)
    ensures Run(w, l, es + fs) == Run(Run(w, l, es), l, fs)
    decreases |es|
  {
    if es == [] {
      assert es + fs == fs;
    } else {
      assert (es + fs)[1..] == es[1..] + fs;
      RunAppends(Step(w, l, es[0]), l, es[1..], fs);
    }
  }

  lemma RebuildAlone(w: World, l: Ladder, id: nat)
    requires Stands(w, id, Owing)
    ensures Run(w, l, [Take(id), Publish(id)]) ==
            w.(pool := RecreateTab(w.pool, w.flights[id].report), flights := w.flights - {id})
  {
    var v := Step(w, l, Take(id));
    assert v == Taken(w, id);
    assert v.flights - {id} == w.flights - {id};
    Two(w, l, Take(id), Publish(id));
  }

  lemma ReloadAlone(w: World, l: Ladder, id: nat) returns (es: seq<Section>)
    requires Stands(w, id, Reloading) && |w.pool.tabs| > 0
    ensures var r := w.flights[id].report;
            Run(w, l, es) == w.(pool := ReloadTab(w.pool, r).1,
                flights := if r.healed then w.flights - {id} else w.flights[id := Flight(r, Owing)])
  {
    var r := w.flights[id].report;
    var (slot, q) := Resolve(w.pool, r.project);
    var b := Step(w, l, Look(id));
    assert b == Advance(w, id, Healing(slot.value), q);
    var next := Meanwhile(Reloaded(q, slot.value, r));
    var c := Step(b, l, next);
    var d := Step(c, l, Heal(id));
    assert d == HealedSlot(c, id, slot.value);
    assert b.flights - {id} == w.flights - {id};
    assert b.flights[id := Flight(r, Owing)] == w.flights[id := Flight(r, Owing)];
    es := [Look(id)] + [next, Heal(id)];
    Two(b, l, next, Heal(id));
    RunAppends(w, l, [Look(id)], [next, Heal(id)]);
    assert Run(w, l, [Look(id)]) == Run(b, l, []);
  }

  /** Counting ends the report, or leaves its recovery to be done. */
  lemma CountIs(w: World, l: Ladder, id: nat, r: Report)
    requires id !in w.flights
    ensures var (rung, q) := Handle(w.pool, l, r);
            var a, c := Step(w, l, Count(id, r)), CountError(w.pool, r.project).1;
            if rung == Reload || rung == Recreate then
              && a == w.(pool := c, flights := w.flights[id := Flight(r, if rung == Reload then Reloading else Owing)])
              && |c.tabs| > 0 && q == Recover(c, r, rung == Reload)
            else a == w.(pool := q, restarted := w.restarted || rung == Restart)
  {
    assert Step(w, l, Count(id, r)) == Counted(w, l, id, r);
  }

  /** Some run of the sections of one report alone ends in the pool `Handle` computes, with the report over and
      the browser restarted exactly when that is the rung. */
  lemma AloneIsHandle(w: World, l: Ladder, id: nat, r: Report) returns (es: seq<Section>)
    requires id !in w.flights
    ensures var (rung, q) := Handle(w.pool, l, r);
            && es != [] && es[0] == Count(id, r)
            && Run(w, l, es) == w.(pool := q, restarted := w.restarted || rung == Restart)
  {
    var a := Step(w, l, Count(id, r));
    CountIs(w, l, id, r);
    var rest: seq<Section> := [];
    if id in a.flights {
      assert a.flights - {id} == w.flights;
      rest := RecoverAlone(a, l, id);
    }
    es := [Count(id, r)] + rest;
    RunAppends(w, l, [Count(id, r)], rest);
    assert Run(w, l, [Count(id, r)]) == Run(a, l, []);
  }

  lemma RecoverAlone(a: World, l: Ladder, id: nat) returns (es: seq<Section>)
    requires id in a.flights && |a.pool.tabs| > 0
    requires a.flights[id].stage == Reloading || a.flights[id].stage == Owing
    ensures Run(a, l, es) == a.(flights := a.flights - {id},
        pool := Recover(a.pool, a.flights[id].report, a.flights[id].stage == Reloading))
  {
    if a.flights[id].stage == Owing {
      RebuildAlone(a, l, id);
      es := [Take(id), Publish(id)];
    } else {
      es := ReloadAlone(a, l, id);
      var c := Run(a, l, es);
      if !a.flights[id].report.healed {
        RebuildAlone(c, l, id);
        RunAppends(a, l, es, [Take(id), Publish(id)]);
        assert c.flights - {id} == a.flights - {id};
        es := es + [Take(id), Publish(id)];
      }
    }
  }

  /** With no tab to look up, the recovery goes on to a rebuild. */
  lemma NoTabToReload(w: World, l: Ladder, id: nat)
    requires Stands(w, id, Reloading) && |w.pool.tabs| == 0
    ensures Stands(Step(w, l, Look(id)), id, Owing)
  {
    assert Step(w, l, Look(id)) == Looked(w, id);
  }

  /** A report counts once, and each section of it comes once, in its turn. */
  lemma InTurn(w: World, l: Ladder, id: nat, r: Report)
    ensures id in w.flights ==> Step(w, l, Count(id, r)) == w
    ensures !(id in w.flights && w.flights[id].stage.Reloading?) ==> Step(w, l, Look(id)) == w
    ensures !(id in w.flights && w.flights[id].stage.Healing?) ==> Step(w, l, Heal(id)) == w
    ensures !(id in w.flights && w.flights[id].stage.Owing?) ==> Step(w, l, Take(id)) == w
    ensures !(id in w.flights && w.flights[id].stage.Building?) ==> Step(w, l, Publish(id)) == w
  {
  }
}
