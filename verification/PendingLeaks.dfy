/** When pending counts leak: exactly which steps lose a claim, that it is lost for good, and that both
    maps are empty after all requests have finished exactly when no such step was taken. */
module PendingLeaks {
  import opened Prelude
  import opened Holders
  import opened ConcurrencyManager
  import opened LoadBalancer
  import opened PendingRuns
  import opened PendingTight

  /** The two ways to lose a claim: a cancellation before the try block that would give it back, and a
      finish that takes account id zero for no account. */
  predicate Loses(w: World, e: Event) {
    match e
    case Cancel(r) => r in w.holding && r !in w.guarded
    case Finish(r) => r in w.holding && r in w.guarded && w.holding[r].id == 0
    case _ => false
  }

  lemma LostStep(w: World, e: Event)
    requires Apart(w)
    ensures forall r :: r in w.lost ==> r in Step(w, e).lost && Step(w, e).lost[r] == w.lost[r]
    ensures Step(w, e).lost != map[] <==> w.lost != map[] || Loses(w, e)
  {
  }

  /** Some step of the run loses a claim. */
  predicate LosesSomewhere(w: World, es: seq<Event>)
    decreases |es|
  {
    es != [] && (LosesSomewhere(w, es[..|es| - 1]) || Loses(Run(w, es[..|es| - 1]), es[|es| - 1]))
  }

  /** A run has lost a claim iff one of its steps is a cancellation of an unguarded holder or a guarded
      holder of account zero finishing. */
  lemma {:induction false} LostIff(limits: map<Claim, int>, width: nat, es: seq<Event>)
    ensures Run(Start(limits, width), es).lost != map[] <==> LosesSomewhere(Start(limits, width), es)
    decreases |es|
  {
    if es != [] {
      var front := es[..|es| - 1];
      LostIff(limits, width, front);
      RunConserves(limits, width, front);
      LostStep(Run(Start(limits, width), front), es[|es| - 1]);
    }
  }

  /** A lost claim is never given back, and keeps its account's count up, however the run goes on. */
  lemma {:induction false} LostForever(w: World, more: seq<Event>, r: nat)
    requires Conserved(w) && Apart(w) && r in w.lost
    ensures var v := Run(w, more);
            && Conserved(v) && Apart(v)
            && r in v.lost && v.lost[r] == w.lost[r] && CountFor(v.pending, w.lost[r]) > 0
    decreases |more|
  {
    if more != [] {
      var before := more[..|more| - 1];
      LostForever(w, before, r);
      LostStays(Run(w, before), more[|more| - 1], r);
    }
    LostCounts(Run(w, more), r);
  }

  lemma LostStays(w: World, e: Event, r: nat)
    requires Conserved(w) && Apart(w) && r in w.lost
    ensures Conserved(Step(w, e)) && Apart(Step(w, e)) && r in Step(w, e).lost && Step(w, e).lost[r] == w.lost[r]
  {
    StepConserves(w, e);
    StepKeepsApart(w, e);
    LostStep(w, e);
  }

  lemma LostCounts(w: World, r: nat)
    requires Conserved(w) && r in w.lost
    ensures CountFor(w.pending, w.lost[r]) > 0
  {
    CountRemoved(w.lost, r, w.lost[r]);
  }

  /** With every request finished the maps are empty iff nothing was lost. */
  lemma EmptyIff(w: World)
    requires Conserved(w) && w.holding == map[]
    ensures w.pending == Pending(map[], map[]) <==> w.lost == map[]
  {
    if w.lost == map[] {
      forall id: TokenId ensures id !in w.pending.image && id !in w.pending.video {
        NobodyHolds(w, Claim(Image, id));
        NobodyHolds(w, Claim(Video, id));
      }
      assert w.pending.image == map[] && w.pending.video == map[];
    } else {
      var r :| r in w.lost;
      LostCounts(w, r);
    }
  }

  lemma NobodyHolds(w: World, c: Claim)
    requires Conserved(w) && w.holding == map[] && w.lost == map[]
    ensures !Listed(w.pending, c)
  {
    CountEmpty(c);
  }

  /** So once all requests have finished, both maps are empty iff no step of the run lost a claim. */
  lemma AllFinishedMeansEmptyIff(limits: map<Claim, int>, width: nat, es: seq<Event>)
    requires Run(Start(limits, width), es).holding == map[]
    ensures Run(Start(limits, width), es).pending == Pending(map[], map[])
            <==> !LosesSomewhere(Start(limits, width), es)
  {
    RunConserves(limits, width, es);
    EmptyIff(Run(Start(limits, width), es));
    LostIff(limits, width, es);
  }

  /** It happens on any account: selected, counted, cancelled; nobody holds the count, and it stays. */
  lemma CancelledEarlyLeaks(limits: map<Claim, int>, width: nat, c: Claim)
    requires width > 0
    ensures var w := Run(Start(limits, width), [Begin(0, c.kind), Read(0, c.id), Commit(0, c.id), Cancel(0)]);
            w.holding == map[] && w.lost == map[0 := c] && CountFor(w.pending, c) == 1
  {
    var w := Start(limits, width);
    var es := [Begin(0, c.kind), Read(0, c.id)];
    Two(w, es[0], es[1]);
    var v := Step(Step(w, es[0]), es[1]);
    Selected(w, c);
    Two(v, Commit(0, c.id), Cancel(0));
    CountedThenCancelled(v, c);
    RunAppend(w, es, [Commit(0, c.id), Cancel(0)]);
    assert es + [Commit(0, c.id), Cancel(0)] == [Begin(0, c.kind), Read(0, c.id), Commit(0, c.id), Cancel(0)];
  }

  lemma Selected(w: World, c: Claim)
    requires Unknown(w, 0) && w.selecting == map[] && w.width > 0
    ensures var v := Step(Step(w, Begin(0, c.kind)), Read(0, c.id));
            && v == w.(selecting := v.selecting)
            && 0 in v.selecting && v.selecting[0].kind == c.kind && c.id in v.selecting[0].seen
  {
    assert Step(w, Begin(0, c.kind)) == w.(selecting := map[0 := Selecting(c.kind, map[])]);
  }

  lemma CountedThenCancelled(w: World, c: Claim)
    requires 0 in w.selecting && w.selecting[0].kind == c.kind && c.id in w.selecting[0].seen
    requires w.holding == map[] && w.guarded == {} && w.lost == map[] && CountFor(w.pending, c) == 0
    ensures var v := Step(Step(w, Commit(0, c.id)), Cancel(0));
            v.holding == map[] && v.lost == map[0 := c] && CountFor(v.pending, c) == 1
  {
    AddCounts(w.pending, c, c);
    assert Step(w, Commit(0, c.id)) == CommitTo(w, 0, c.id);
  }

  /** From then on, in every continuation, the account is counted although nobody uses it. */
  lemma LeaksForGood(limits: map<Claim, int>, width: nat, c: Claim, more: seq<Event>)
    requires width > 0
    ensures var leak := [Begin(0, c.kind), Read(0, c.id), Commit(0, c.id), Cancel(0)];
            var v := Run(Run(Start(limits, width), leak), more);
            CountFor(v.pending, c) > 0 && 0 in v.lost && v.lost[0] == c
  {
    var leak := [Begin(0, c.kind), Read(0, c.id), Commit(0, c.id), Cancel(0)];
    CancelledEarlyLeaks(limits, width, c);
    RunConserves(limits, width, leak);
    LostForever(Run(Start(limits, width), leak), more, 0);
  }
}
