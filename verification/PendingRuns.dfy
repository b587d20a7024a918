/** Pending counts under concurrency (src/services/load_balancer.py with `handle_generation` of
    src/services/generation_handler.py): requests that read loads at one await, count themselves at a
    later one, and give the count back when they finish. */
module PendingRuns {
  import opened Prelude
  import opened Holders
  import opened ConcurrencyManager
  import opened LoadBalancer

  /** What a selected request holds: one count of one kind against one account. */
  datatype Claim = Claim(kind: Kind, id: TokenId)

  /** A selection under way; `seen` maps each account whose load was read to whether it had room. */
  datatype Selecting = Selecting(kind: Kind, seen: map<TokenId, bool>)

  /** `extra` counts the claims made on an account not seen with room; `lost` are claims nobody will
      give back. At most `width` selections are under way at a time. */
  datatype World = World(
    limits: map<Claim, int>, width: nat, pending: Pending, selecting: map<nat, Selecting>,
    holding: map<nat, Claim>, guarded: set<nat>, lost: map<nat, Claim>, extra: map<Claim, nat>)

  datatype Event =
    | Begin(r: nat, kind: Kind)
    | Read(r: nat, id: TokenId)
    | Commit(r: nat, id: TokenId)
    | GiveUp(r: nat)
    | EditAdd(r: nat, id: TokenId)   // the edit path counts its source account directly
    | EnterTry(r: nat)
    | Cancel(r: nat)                 // before the request is guarded by its finally
    | Finish(r: nat)
    | Relimit(c: Claim, limit: int) // an operator resets an account; no limit when not positive

  function CountFor(p: Pending, c: Claim): nat {
    Counted(if c.kind == Image then p.image else p.video, c.id)
  }

  predicate Listed(p: Pending, c: Claim) {
    c.id in if c.kind == Image then p.image else p.video
  }

  /** Room as `select_token` sees it, with nothing reserved. */
  predicate HasRoom(w: World, c: Claim) {
    var limits := if c in w.limits then map[c.id := w.limits[c]] else map[];
    var remaining := WithPending(Slots(limits, map[]), CountFor(w.pending, c), c.id).1;
    remaining.None? || remaining.value > 0
  }

  function SlotsOf(l: Load, kind: Kind): Slots {
    if kind == Image then l.image else l.video
  }

  /** It is the scheduler's own test: an account has room exactly when its candidate is not saturated. */
  lemma RoomIsUnsaturated(w: World, c: Claim, r: Request, l: Load, t: Token, roll: int)
    requires t.id == c.id && l.pending == w.pending
    requires if c.kind == Image then r.forImage else !r.forImage && r.forVideo
    requires InFlight(SlotsOf(l, c.kind), c.id) == 0
    requires c.id in SlotsOf(l, c.kind).limits <==> c in w.limits
    requires c in w.limits ==> SlotsOf(l, c.kind).limits[c.id] == w.limits[c]
    ensures HasRoom(w, c) <==> !CandidateFor(r, l, t, roll).saturated
  {
  }

  function Extra(w: World, c: Claim): nat {
    if c in w.extra then w.extra[c] else 0
  }

  predicate Unknown(w: World, r: nat) {
    r !in w.selecting && r !in w.holding && r !in w.lost
  }

  function Take(w: World, r: nat, c: Claim): (v: World)
    ensures v.selecting == w.selecting
  {
    w.(pending := AddPending(w.pending, c.id, c.kind == Image, c.kind == Video), holding := w.holding[r := c])
  }

  function TakeExtra(w: World, r: nat, c: Claim): (v: World)
    ensures v.selecting == w.selecting
  {
    Take(w, r, c).(extra := w.extra[c := Extra(w, c) + 1])
  }

  function Drop(w: World, r: nat): World
    requires r in w.holding
  {
    w.(holding := w.holding - {r}, lost := w.lost[r := w.holding[r]])
  }

  function GiveBack(w: World, r: nat): World
    requires r in w.holding
  {
    var c := w.holding[r];
    w.(pending := ReleasePending(w.pending, c.id, c.kind == Image, c.kind == Video), holding := w.holding - {r})
  }

  function Step(w: World, e: Event): (v: World)
    ensures v.width == w.width && (!e.Relimit? ==> v.limits == w.limits)
  {
    match e
    case Begin(r, kind) =>
      if Unknown(w, r) && |w.selecting| < w.width then w.(selecting := w.selecting[r := Selecting(kind, map[])]) else w
    case Read(r, id) =>
      if r in w.selecting && id !in w.selecting[r].seen then ReadLoad(w, r, id) else w
    case Commit(r, id) =>
      if r in w.selecting && id in w.selecting[r].seen then CommitTo(w, r, id) else w
    case GiveUp(r) => w.(selecting := w.selecting - {r})
    case EditAdd(r, id) => if Unknown(w, r) then TakeExtra(w, r, Claim(Video, id)) else w
    case EnterTry(r) => if r in w.holding then w.(guarded := w.guarded + {r}) else w
    case Cancel(r) => if r in w.holding && r !in w.guarded then Drop(w, r) else w
    case Finish(r) =>
      if r in w.holding && r in w.guarded then
        // an account id of zero counts as absent, and is not given back
        if w.holding[r].id == 0 then Drop(w, r) else GiveBack(w, r)
      else w
    case Relimit(c, limit) => w.(limits := if limit > 0 then w.limits[c := limit] else w.limits - {c})
  }

  function CommitTo(w: World, r: nat, id: TokenId): (v: World)
    requires r in w.selecting && id in w.selecting[r].seen
    ensures v.selecting == w.selecting - {r}
  {
    var v := w.(selecting := w.selecting - {r});
    var c := Claim(w.selecting[r].kind, id);
    if w.selecting[r].seen[id] then Take(v, r, c) else TakeExtra(v, r, c)
  }

  function ReadLoad(w: World, r: nat, id: TokenId): World
    requires r in w.selecting
  {
    var s := w.selecting[r];
    w.(selecting := w.selecting[r := s.(seen := s.seen[id := HasRoom(w, Claim(s.kind, id))])])
  }

  /** From the guard on a request's claim can no longer be lost, only given back, unless its account's id is
      zero; before the guard it is lost when the request is cancelled. */
  lemma GuardIs(w: World, r: nat, c: Claim)
    requires r in w.holding && w.holding[r] == c
    ensures var v := Step(w, EnterTry(r));
            && v == w.(guarded := v.guarded) && v.guarded == w.guarded + {r} && Step(v, Cancel(r)) == v
            && Step(v, Finish(r)) == if c.id == 0 then Lose(v, r, c) else
                 v.(pending := ReleasePending(w.pending, c.id, c.kind == Image, c.kind == Video),
                    holding := w.holding - {r})
    ensures r !in w.guarded ==> Step(w, Finish(r)) == w && Step(w, Cancel(r)) == Lose(w, r, c)
  {
  }

  function Lose(w: World, r: nat, c: Claim): World {
    w.(holding := w.holding - {r}, lost := w.lost[r := c])
  }

  /** What a request that holds no claim does when it should hold one changes nothing. */
  lemma NothingToGuard(w: World, r: nat)
    requires r !in w.holding
    ensures Step(w, EnterTry(r)) == w && Step(w, Cancel(r)) == w && Step(w, Finish(r)) == w
  {
  }

  /** A reset of an account does to the one limit what the concurrency manager does to it, and no more. */
  lemma RelimitIs(w: World, c: Claim, limit: int, s: Slots)
    requires c.id in s.limits <==> c in w.limits
    ensures var v, t := Step(w, Relimit(c, limit)), Reset(s, c.id, limit);
            && (c in v.limits <==> c.id in t.limits) && (limit > 0 ==> v.limits[c] == t.limits[c.id])
            && v == w.(limits := v.limits) && v.limits - {c} == w.limits - {c}
  {
  }

  /** The unseen claims on an account: none at first, and one more with each edit that counts its source and
      with each commit to an account that was read as having no room. */
  lemma ExtraIs(w: World, e: Event, c: Claim, limits: map<Claim, int>, width: nat)
    ensures Extra(Start(limits, width), c) == 0
    ensures Extra(Step(w, e), c) == Extra(w, c) + if Unseen(w, e, c) then 1 else 0
  {
  }

  predicate Unseen(w: World, e: Event, c: Claim) {
    match e
    case EditAdd(r, id) => Unknown(w, r) && c == Claim(Video, id)
    case Commit(r, id) =>
      && r in w.selecting && c == Claim(w.selecting[r].kind, id)
      && id in w.selecting[r].seen && !w.selecting[r].seen[id]
    case _ => false
  }

  function Run(w: World, es: seq<Event>): World
    decreases |es|
  {
    if es == [] then w else Step(Run(w, es[..|es| - 1]), es[|es| - 1])
  }

  function Start(limits: map<Claim, int>, width: nat): World {
    World(limits, width, Pending(map[], map[]), map[], map[], {}, map[], map[])
  }

  // ---------------------------------------------------------------- conservation

  /** Every count is somebody's: the live holders plus the lost claims; and no entry stays at zero. */
  ghost predicate Conserved(w: World) {
    forall c: Claim ::
      && CountFor(w.pending, c) == CountOf(w.holding, c) + CountOf(w.lost, c)
      && (Listed(w.pending, c) <==> CountFor(w.pending, c) > 0)
  }

  lemma AddCounts(p: Pending, c: Claim, d: Claim)
    ensures var q := AddPending(p, c.id, c.kind == Image, c.kind == Video);
            && CountFor(q, d) == CountFor(p, d) + (if c == d then 1 else 0)
            && (Listed(q, d) <==> c == d || Listed(p, d))
  {
  }

  lemma ReleaseCounts(p: Pending, c: Claim, d: Claim)
    requires CountFor(p, c) > 0
    ensures var q := ReleasePending(p, c.id, c.kind == Image, c.kind == Video);
            && CountFor(q, d) == CountFor(p, d) - (if c == d then 1 else 0)
            && (Listed(q, d) <==> if c == d then CountFor(p, c) > 1 else Listed(p, d))
  {
  }

  lemma TakeConserves(w: World, r: nat, c: Claim)
    requires Conserved(w) && r !in w.holding
    ensures Conserved(Take(w, r, c))
  {
    forall d: Claim
      ensures CountFor(Take(w, r, c).pending, d) == CountOf(w.holding[r := c], d) + CountOf(w.lost, d)
      ensures Listed(Take(w, r, c).pending, d) <==> CountFor(Take(w, r, c).pending, d) > 0
    {
      AddCounts(w.pending, c, d);
      CountAdded(w.holding, r, c, d);
    }
  }

  lemma DropConserves(w: World, r: nat)
    requires Conserved(w) && r in w.holding && r !in w.lost
    ensures Conserved(Drop(w, r))
  {
    forall d: Claim
      ensures CountOf(Drop(w, r).holding, d) + CountOf(Drop(w, r).lost, d) == CountOf(w.holding, d) + CountOf(w.lost, d)
    {
      CountRemoved(w.holding, r, d);
      CountAdded(w.lost, r, w.holding[r], d);
    }
  }

  lemma GiveBackConserves(w: World, r: nat)
    requires Conserved(w) && r in w.holding
    ensures Conserved(GiveBack(w, r))
    ensures CountFor(w.pending, w.holding[r]) > 0
  {
    var c := w.holding[r];
    CountRemoved(w.holding, r, c);
    forall d: Claim
      ensures CountFor(GiveBack(w, r).pending, d) == CountOf(w.holding - {r}, d) + CountOf(w.lost, d)
      ensures Listed(GiveBack(w, r).pending, d) <==> CountFor(GiveBack(w, r).pending, d) > 0
    {
      ReleaseCounts(w.pending, c, d);
      CountRemoved(w.holding, r, d);
    }
  }

  /** A request is in one place only. */
  predicate Apart(w: World) {
    && (forall r :: r in w.selecting ==> r !in w.holding && r !in w.lost)
    && (forall r :: r in w.holding ==> r !in w.lost)
  }

  lemma StepKeepsApart(w: World, e: Event)
    requires Apart(w)
    ensures Apart(Step(w, e))
  {
    match e
    case Commit(r, id) => CommitKeepsApart(w, r, id);
    case Cancel(r) => EndKeepsApart(w, e);
    case Finish(r) => EndKeepsApart(w, e);
    case _ => RestKeepsApart(w, e);
  }

  lemma CommitKeepsApart(w: World, r: nat, id: TokenId)
    requires Apart(w)
    ensures Apart(Step(w, Commit(r, id)))
  {
  }

  lemma EndKeepsApart(w: World, e: Event)
    requires Apart(w) && (e.Cancel? || e.Finish?)
    ensures Apart(Step(w, e))
  {
  }

  lemma RestKeepsApart(w: World, e: Event)
    requires Apart(w) && !e.Commit? && !e.Cancel? && !e.Finish?
    ensures Apart(Step(w, e))
  {
  }

  lemma SameBooks(w: World, v: World)
    requires Conserved(w) && v.pending == w.pending && v.holding == w.holding && v.lost == w.lost
    ensures Conserved(v)
  {
  }

  /** `v` has the books of `w` with one more claim. */
  lemma TakesConserve(w: World, v: World, r: nat, c: Claim)
    requires Conserved(w) && r !in w.holding
    requires var t := Take(w, r, c); v.pending == t.pending && v.holding == t.holding && v.lost == w.lost
    ensures Conserved(v)
  {
    TakeConserves(w, r, c);
    SameBooks(Take(w, r, c), v);
  }

  lemma StepConserves(w: World, e: Event)
    requires Conserved(w) && Apart(w)
    ensures Conserved(Step(w, e))
  {
    match e
    case Commit(r, id) =>
      if r in w.selecting && id in w.selecting[r].seen {
        TakesConserve(w, Step(w, e), r, Claim(w.selecting[r].kind, id));
      }
    case EditAdd(r, id) =>
      if Unknown(w, r) {
        TakesConserve(w, Step(w, e), r, Claim(Video, id));
      }
    case Cancel(r) => EndConserves(w, e, r);
    case Finish(r) => EndConserves(w, e, r);
    case _ => SameBooks(w, Step(w, e));
  }

  lemma EndConserves(w: World, e: Event, r: nat)
    requires Conserved(w) && Apart(w) && (e == Cancel(r) || e == Finish(r))
    ensures Conserved(Step(w, e))
  {
    if r in w.holding {
      DropConserves(w, r);
      GiveBackConserves(w, r);
    }
  }

  lemma {:induction false} RunConserves(limits: map<Claim, int>, width: nat, es: seq<Event>)
    ensures Conserved(Run(Start(limits, width), es)) && Apart(Run(Start(limits, width), es))
    decreases |es|
  {
    if es == [] {
      forall c: Claim ensures CountOf<Claim>(map[], c) == 0 {
        CountEmpty(c);
      }
    } else {
      RunConserves(limits, width, es[..|es| - 1]);
      StepConserves(Run(Start(limits, width), es[..|es| - 1]), es[|es| - 1]);
      StepKeepsApart(Run(Start(limits, width), es[..|es| - 1]), es[|es| - 1]);
    }
  }

  /** In every run each account's count is the number of live requests holding it, plus the claims lost;
      it has an entry iff that is not zero. */
  lemma PendingConserved(limits: map<Claim, int>, width: nat, es: seq<Event>, c: Claim)
    ensures var w := Run(Start(limits, width), es);
            && CountFor(w.pending, c) == CountOf(w.holding, c) + CountOf(w.lost, c)
            && (Listed(w.pending, c) <==> CountOf(w.holding, c) + CountOf(w.lost, c) > 0)
  {
    RunConserves(limits, width, es);
  }

  /** A finishing request takes back exactly its own count: the floor at one never swallows another's. */
  lemma FinishTakesItsOwn(limits: map<Claim, int>, width: nat, es: seq<Event>, r: nat, c: Claim)
    requires var w := Run(Start(limits, width), es); r in w.holding && r in w.guarded && w.holding[r].id > 0
    ensures var w := Run(Start(limits, width), es);
            CountFor(Step(w, Finish(r)).pending, c) == CountFor(w.pending, c) - if w.holding[r] == c then 1 else 0
  {
    var w := Run(Start(limits, width), es);
    RunConserves(limits, width, es);
    GiveBackConserves(w, r);
    ReleaseCounts(w.pending, w.holding[r], c);
  }

  // ---------------------------------------------------------------- overshoot

  /** The selections that saw room for `c` and have not counted themselves yet. */
  function Tempted(selecting: map<nat, Selecting>, c: Claim): set<nat> {
    set r | r in selecting && selecting[r].kind == c.kind && c.id in selecting[r].seen && selecting[r].seen[c.id]
  }

  /** The bound that a limit of `b` gives, with the selections that may still count themselves. */
  predicate Within(w: World, c: Claim, b: int) {
    CountFor(w.pending, c) + |Tempted(w.selecting, c)| <= b - 1 + w.width + Extra(w, c)
  }

  predicate Capped(w: World, c: Claim, b: int) {
    c in w.limits && w.limits[c] <= b
  }

  lemma TemptedBound(selecting: map<nat, Selecting>, c: Claim)
    ensures |Tempted(selecting, c)| <= |selecting|
  {
    assert |selecting.Keys| == |selecting|;
    SubsetSize(Tempted(selecting, c), selecting.Keys);
  }

  /** Fewer selections, or none tempted by `c` that were not before. */
  lemma FewerTempted(w: World, v: World, c: Claim)
    requires Tempted(v.selecting, c) <= Tempted(w.selecting, c)
    ensures |Tempted(v.selecting, c)| <= |Tempted(w.selecting, c)|
  {
    SubsetSize(Tempted(v.selecting, c), Tempted(w.selecting, c));
  }

  lemma ReadStaysWithin(w: World, r: nat, id: TokenId, c: Claim, b: int)
    requires |w.selecting| <= w.width && Capped(w, c, b) && Within(w, c, b)
    requires r in w.selecting && id !in w.selecting[r].seen
    ensures Within(ReadLoad(w, r, id), c, b)
  {
    var v := ReadLoad(w, r, id);
    assert v.selecting.Keys == w.selecting.Keys;
    assert |v.selecting.Keys| == |v.selecting| && |w.selecting.Keys| == |w.selecting|;
    if c == Claim(w.selecting[r].kind, id) && HasRoom(w, c) {
      TemptedBound(v.selecting, c);
    } else {
      FewerTempted(w, v, c);
    }
  }

  lemma TakeStaysWithin(w: World, r: nat, d: Claim, c: Claim, b: int)
    requires Within(w, c, b)
    requires r in w.selecting && w.selecting[r].kind == d.kind && d.id in w.selecting[r].seen && w.selecting[r].seen[d.id]
    ensures Within(Take(w.(selecting := w.selecting - {r}), r, d), c, b)
  {
    AddCounts(w.pending, d, c);
    var rest := w.selecting - {r};
    assert Tempted(rest, c) == Tempted(w.selecting, c) - {r};
    SubsetSize(Tempted(rest, c), Tempted(w.selecting, c));
    if c == d {
      assert r in Tempted(w.selecting, c);
    }
  }

  lemma ExtraStaysWithin(w: World, v: World, r: nat, d: Claim, c: Claim, b: int)
    requires Within(w, c, b) && v.width == w.width
    requires v == TakeExtra(WithSelections(w, v), r, d)
    requires Tempted(v.selecting, c) <= Tempted(w.selecting, c)
    ensures Within(v, c, b)
  {
    AddCounts(w.pending, d, c);
    FewerTempted(w, v, c);
  }

  /** `w` with the selections of `v`. */
  function WithSelections(w: World, v: World): World {
    w.(selecting := v.selecting)
  }

  lemma FewerSelections(w: World, r: nat)
    ensures |w.selecting - {r}| <= |w.selecting|
  {
    assert (w.selecting - {r}).Keys == w.selecting.Keys - {r};
    assert |(w.selecting - {r}).Keys| == |w.selecting - {r}| && |w.selecting.Keys| == |w.selecting|;
    SubsetSize(w.selecting.Keys - {r}, w.selecting.Keys);
  }

  lemma OneMoreSelection(selecting: map<nat, Selecting>, r: nat, s: Selecting)
    ensures |selecting[r := s]| == |selecting| + if r in selecting then 0 else 1
  {
    var more := selecting[r := s];
    assert more.Keys == selecting.Keys + {r};
    assert |more.Keys| == |more| && |selecting.Keys| == |selecting|;
  }

  lemma SelectionsStayBounded(w: World, e: Event)
    requires |w.selecting| <= w.width
    ensures |Step(w, e).selecting| <= w.width
  {
    match e
    case Begin(r, kind) => BeginFits(w, r, kind);
    case Read(r, id) => ReadKeepsCount(w, r, id);
    case Commit(r, id) => CommitFrees(w, r, id);
    case GiveUp(r) => FewerSelections(w, r);
    case _ => OthersSelectNothing(w, e);
  }

  lemma OthersSelectNothing(w: World, e: Event)
    requires e.EditAdd? || e.EnterTry? || e.Cancel? || e.Finish? || e.Relimit?
    ensures Step(w, e).selecting == w.selecting
  {
  }

  lemma BeginFits(w: World, r: nat, kind: Kind)
    requires |w.selecting| <= w.width
    ensures |Step(w, Begin(r, kind)).selecting| <= w.width
  {
    OneMoreSelection(w.selecting, r, Selecting(kind, map[]));
  }

  lemma CommitFrees(w: World, r: nat, id: TokenId)
    ensures |Step(w, Commit(r, id)).selecting| <= |w.selecting|
  {
    FewerSelections(w, r);
    if r in w.selecting && id in w.selecting[r].seen {
      assert Step(w, Commit(r, id)) == CommitTo(w, r, id);
    }
  }

  lemma ReadKeepsCount(w: World, r: nat, id: TokenId)
    ensures |Step(w, Read(r, id)).selecting| == |w.selecting|
  {
    if r in w.selecting {
      OneMoreSelection(w.selecting, r, ReadLoad(w, r, id).selecting[r]);
    }
  }

  lemma FinishStaysWithin(w: World, r: nat, c: Claim, b: int)
    requires Within(w, c, b) && Conserved(w) && r in w.holding
    ensures Within(GiveBack(w, r), c, b)
  {
    GiveBackConserves(w, r);
    ReleaseCounts(w.pending, w.holding[r], c);
  }

  /** Nothing counted, nobody newly tempted. */
  lemma QuietStaysWithin(w: World, v: World, c: Claim, b: int)
    requires Within(w, c, b) && v.width == w.width && v.extra == w.extra && v.pending == w.pending
    requires Tempted(v.selecting, c) <= Tempted(w.selecting, c)
    ensures Within(v, c, b)
  {
    FewerTempted(w, v, c);
  }

  lemma QuietStepStaysWithin(w: World, e: Event, c: Claim, b: int)
    requires Within(w, c, b) && (e.Begin? || e.GiveUp? || e.EnterTry? || e.Cancel? || e.Relimit?)
    ensures Within(Step(w, e), c, b)
  {
    QuietStaysWithin(w, Step(w, e), c, b);
  }

  lemma CommitStaysWithin(w: World, r: nat, id: TokenId, c: Claim, b: int)
    requires Within(w, c, b) && r in w.selecting && id in w.selecting[r].seen
    ensures Within(Step(w, Commit(r, id)), c, b)
  {
    var d := Claim(w.selecting[r].kind, id);
    if w.selecting[r].seen[id] {
      TakeStaysWithin(w, r, d, c, b);
    } else {
      ExtraStaysWithin(w, Step(w, Commit(r, id)), r, d, c, b);
    }
  }

  lemma StepStaysWithin(w: World, e: Event, c: Claim, b: int)
    requires |w.selecting| <= w.width && Capped(w, c, b) && Within(w, c, b) && Conserved(w)
    ensures Within(Step(w, e), c, b)
  {
    match e
    case Read(r, id) =>
      if r in w.selecting && id !in w.selecting[r].seen {
        ReadStaysWithin(w, r, id, c, b);
      }
    case Commit(r, id) =>
      if r in w.selecting && id in w.selecting[r].seen {
        CommitStaysWithin(w, r, id, c, b);
      }
    case EditAdd(r, id) =>
      if Unknown(w, r) {
        ExtraStaysWithin(w, Step(w, e), r, Claim(Video, id), c, b);
      }
    case Finish(r) =>
      if r in w.holding && r in w.guarded && w.holding[r].id > 0 {
        FinishStaysWithin(w, r, c, b);
      }
    case _ => QuietStepStaysWithin(w, e, c, b);
  }

  /** Whenever the run sets a limit for `c` it is one, and at most `b`. */
  predicate CapKept(es: seq<Event>, c: Claim, b: int) {
    forall i :: 0 <= i < |es| && es[i].Relimit? && es[i].c == c ==> 0 < es[i].limit <= b
  }

  lemma CapKeptIs(es: seq<Event>, e: Event, c: Claim, b: int)
    ensures CapKept([], c, b)
    ensures CapKept(es + [e], c, b) <==> CapKept(es, c, b) && (e.Relimit? && e.c == c ==> 0 < e.limit <= b)
  {
    var all := es + [e];
    assert all[|es|] == e && forall i :: 0 <= i < |es| ==> all[i] == es[i];
  }

  lemma StepStaysCapped(w: World, e: Event, c: Claim, b: int)
    requires Capped(w, c, b) && (e.Relimit? && e.c == c ==> 0 < e.limit <= b)
    ensures Capped(Step(w, e), c, b)
  {
  }

  /** What the bound rests on. */
  ghost predicate Bounded(w: World, c: Claim, b: int) {
    && Conserved(w) && Apart(w) && |w.selecting| <= w.width
    && Capped(w, c, b) && Within(w, c, b)
  }

  lemma StepStaysBounded(w: World, e: Event, c: Claim, b: int)
    requires Bounded(w, c, b) && (e.Relimit? && e.c == c ==> 0 < e.limit <= b)
    ensures Bounded(Step(w, e), c, b)
  {
    StepConserves(w, e);
    StepKeepsApart(w, e);
    SelectionsStayBounded(w, e);
    StepStaysCapped(w, e, c, b);
    StepStaysWithin(w, e, c, b);
  }

  lemma {:induction false} RunStaysBounded(w: World, es: seq<Event>, c: Claim, b: int)
    requires Bounded(w, c, b) && CapKept(es, c, b)
    ensures Bounded(Run(w, es), c, b) && Run(w, es).width == w.width
    decreases |es|
  {
    if es != [] {
      RunStaysBounded(w, es[..|es| - 1], c, b);
      StepStaysBounded(Run(w, es[..|es| - 1]), es[|es| - 1], c, b);
    }
  }

  lemma StartIsBounded(limits: map<Claim, int>, width: nat, c: Claim, b: int)
    requires c in limits && limits[c] <= b && b > 0
    ensures Bounded(Start(limits, width), c, b)
  {
    TemptedBound(map[], c);
    RunConserves(limits, width, []);
  }

  /** The overshoot bound: with at most k selections under way, and while the account's limit, however it
      is reset, stays at or below b, its pending count stays within b - 1 + k, plus the claims made on it
      without having been seen with room. */
  lemma OvershootBound(limits: map<Claim, int>, width: nat, es: seq<Event>, c: Claim, b: int)
    requires c in limits && limits[c] <= b && b > 0 && CapKept(es, c, b)
    ensures var w := Run(Start(limits, width), es);
            CountFor(w.pending, c) <= b - 1 + width + Extra(w, c)
  {
    StartIsBounded(limits, width, c, b);
    RunStaysBounded(Start(limits, width), es, c, b);
  }

  // ---------------------------------------------------------------- lowering a limit

  lemma CommitTempted(w: World, c: Claim, r: nat)
    requires r in Tempted(w.selecting, c)
    ensures var v := Step(w, Commit(r, c.id));
            && v.width == w.width && v.extra == w.extra
            && CountFor(v.pending, c) == CountFor(w.pending, c) + 1
            && |Tempted(v.selecting, c)| == |Tempted(w.selecting, c)| - 1
  {
    var v := Step(w, Commit(r, c.id));
    AddCounts(w.pending, c, c);
    assert v == Take(w.(selecting := w.selecting - {r}), r, c);
    assert Tempted(v.selecting, c) == Tempted(w.selecting, c) - {r};
  }

  lemma RunSnoc(w: World, es: seq<Event>, e: Event)
    ensures Run(w, es + [e]) == Step(Run(w, es), e)
  {
    assert (es + [e])[..|es|] == es;
  }

  /** After a run `es`, everybody tempted counts. */
  lemma {:induction false} AllCount(w: World, es: seq<Event>, c: Claim, b: int) returns (all: seq<Event>)
    requires CapKept(es, c, b)
    ensures CapKept(all, c, b)
    ensures var u, v := Run(w, es), Run(w, all);
            CountFor(v.pending, c) == CountFor(u.pending, c) + |Tempted(u.selecting, c)| && Extra(v, c) == Extra(u, c)
    decreases |Tempted(Run(w, es).selecting, c)|
  {
    var u := Run(w, es);
    all := es;
    if Tempted(u.selecting, c) != {} {
      var r :| r in Tempted(u.selecting, c);
      CommitTempted(u, c, r);
      RunSnoc(w, es, Commit(r, c.id));
      all := AllCount(w, es + [Commit(r, c.id)], c, b);
    }
  }

  /** From any reachable state the bound for a limit of b stands in every run that keeps the limit at or
      below b exactly when the pending count, with the selections that have seen room, is within it now. */
  lemma BoundStandsIff(w: World, c: Claim, b: int)
    requires Conserved(w) && Apart(w) && |w.selecting| <= w.width && Capped(w, c, b)
    ensures (forall es :: CapKept(es, c, b) ==>
                CountFor(Run(w, es).pending, c) <= b - 1 + w.width + Extra(Run(w, es), c))
            <==> Within(w, c, b)
  {
    if Within(w, c, b) {
      forall es | CapKept(es, c, b)
        ensures CountFor(Run(w, es).pending, c) <= b - 1 + w.width + Extra(Run(w, es), c)
      {
        RunStaysBounded(w, es, c, b);
      }
    } else {
      assert Run(w, []) == w;
      var all := AllCount(w, [], c, b);
    }
  }

  /** So a limit can be set to `n` under running requests, in any run, exactly when that much is pending. */
  lemma LimitMayBeSetIff(limits: map<Claim, int>, width: nat, before: seq<Event>, c: Claim, n: int)
    requires n > 0
    ensures var w := Run(Start(limits, width), before);
            var v := Step(w, Relimit(c, n));
            (forall es :: CapKept(es, c, n) ==>
                CountFor(Run(v, es).pending, c) <= n - 1 + v.width + Extra(Run(v, es), c))
            <==> CountFor(w.pending, c) + |Tempted(w.selecting, c)| <= n - 1 + width + Extra(w, c)
  {
    RunConserves(limits, width, before);
    RunSelectionsBounded(limits, width, before);
    RelimitedStandsIff(Run(Start(limits, width), before), c, n);
  }

  lemma RelimitedStandsIff(w: World, c: Claim, n: int)
    requires Conserved(w) && Apart(w) && |w.selecting| <= w.width && n > 0
    ensures var v := Step(w, Relimit(c, n));
            (forall es :: CapKept(es, c, n) ==>
                CountFor(Run(v, es).pending, c) <= n - 1 + v.width + Extra(Run(v, es), c))
            <==> Within(w, c, n)
  {
    var v := w.(limits := w.limits[c := n]);
    SameBooks(w, v);
    BoundStandsIff(v, c, n);
  }

  lemma {:induction false} RunSelectionsBounded(limits: map<Claim, int>, width: nat, es: seq<Event>)
    ensures var w := Run(Start(limits, width), es); |w.selecting| <= w.width == width
    decreases |es|
  {
    if es != [] {
      RunSelectionsBounded(limits, width, es[..|es| - 1]);
      SelectionsStayBounded(Run(Start(limits, width), es[..|es| - 1]), es[|es| - 1]);
    }
  }
}
