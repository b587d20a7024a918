/** Per-account slot counters (src/services/concurrency_manager.py). The source writes every operation
    twice, for images and for videos; here the kind of work is a parameter. */
module ConcurrencyManager {
  import opened Prelude
  import opened Holders

  type TokenId = nat

  datatype Kind = Image | Video

  /** One kind's counters; an account without a limit is unlimited. */
  datatype Slots = Slots(limits: map<TokenId, int>, inflight: map<TokenId, int>)

  predicate Valid(s: Slots) {
    && (forall id :: id in s.limits ==> s.limits[id] > 0)
    && (forall id :: id in s.inflight ==> s.inflight[id] >= 0)
  }

  function InFlight(s: Slots, id: TokenId): int {
    if id in s.inflight then s.inflight[id] else 0
  }

  /** Free slots; None for an unlimited account. */
  function Remaining(s: Slots, id: TokenId): Option<int> {
    if id in s.limits then Some(Max(0, s.limits[id] - InFlight(s, id))) else None
  }

  predicate CanUse(s: Slots, id: TokenId) {
    id in s.limits ==> InFlight(s, id) < s.limits[id]
  }

  function Acquire(s: Slots, id: TokenId): (bool, Slots) {
    if CanUse(s, id) then (true, s.(inflight := s.inflight[id := InFlight(s, id) + 1])) else (false, s)
  }

  function Release(s: Slots, id: TokenId): Slots {
    s.(inflight := s.inflight[id := Max(0, InFlight(s, id) - 1)])
  }

  /** A new limit, or none when it is not positive; work in flight is kept. */
  function Reset(s: Slots, id: TokenId, limit: int): Slots {
    Slots(if limit > 0 then s.limits[id := limit] else s.limits - {id}, s.inflight[id := InFlight(s, id)])
  }

  function Remove(s: Slots, id: TokenId): Slots {
    Slots(s.limits - {id}, s.inflight - {id})
  }

  /** Releasing undoes a successful acquire, for every account and both counters. */
  lemma ReleaseUndoesAcquire(s: Slots, id: TokenId, other: TokenId)
    requires Valid(s) && Acquire(s, id).0
    ensures var t := Release(Acquire(s, id).1, id);
            t.limits == s.limits && InFlight(t, other) == InFlight(s, other) && Remaining(t, other) == Remaining(s, other)
  {
  }

  // ---------------------------------------------------------------- what each operation does

  /** A slot is taken exactly when the account is unlimited or has fewer in flight than its limit. */
  lemma AcquireIff(s: Slots, id: TokenId)
    ensures var (ok, t) := Acquire(s, id);
            var count := if id in s.inflight then s.inflight[id] else 0;
            && (ok <==> id !in s.limits || count < s.limits[id])
            && t == if ok then Slots(s.limits, s.inflight[id := count + 1]) else s
  {
  }

  /** Giving one back takes one off the count, but never below zero. */
  lemma ReleaseIs(s: Slots, id: TokenId)
    ensures var count := if id in s.inflight then s.inflight[id] else 0;
            Release(s, id) == Slots(s.limits, s.inflight[id := if count > 0 then count - 1 else 0])
  {
  }

  /** A reset replaces the one limit, or lifts it, and keeps the count, which has an entry from then on; a removal
      takes both entries away. */
  lemma ResetAndRemove(s: Slots, id: TokenId, limit: int, other: TokenId)
    ensures var t := Reset(s, id, limit);
            && (id in t.limits <==> limit > 0) && (limit > 0 ==> t.limits[id] == limit)
            && id in t.inflight && t.inflight[id] == (if id in s.inflight then s.inflight[id] else 0)
            && (other != id ==> (other in t.limits <==> other in s.limits))
            && (other != id ==> (other in t.inflight <==> other in s.inflight))
            && (other != id && other in s.limits ==> t.limits[other] == s.limits[other])
            && (other != id && other in s.inflight ==> t.inflight[other] == s.inflight[other])
    ensures var t := Remove(s, id);
            && id !in t.limits && id !in t.inflight
            && (other != id ==> (other in t.limits <==> other in s.limits))
            && (other != id ==> (other in t.inflight <==> other in s.inflight))
            && (other != id && other in s.limits ==> t.limits[other] == s.limits[other])
            && (other != id && other in s.inflight ==> t.inflight[other] == s.inflight[other])
  {
  }

  /** Limits are positive and counts are not negative. */
  lemma ValidIff(s: Slots)
    ensures Valid(s) <==> (forall id :: id in s.limits ==> s.limits[id] >= 1)
                          && !exists id :: id in s.inflight && s.inflight[id] < 0
  {
  }

  // ---------------------------------------------------------------- runs

  /** `Enter` and `Leave` are a request taking and giving back its slot; a refused request does not leave.
      `Discard` is the removal of a deleted account. */
  datatype SlotEvent =
    | Enter(request: nat, id: TokenId)
    | Leave(request: nat)
    | SetLimit(id: TokenId, limit: int)
    | Discard(id: TokenId)

  /** `holders` maps each admitted request to its account. */
  datatype Admission = Admission(slots: Slots, holders: map<nat, TokenId>)

  function SlotStep(w: Admission, e: SlotEvent): Admission {
    match e
    case Enter(request, id) =>
      if request in w.holders then w
      else
        var (ok, slots) := Acquire(w.slots, id);
        Admission(slots, if ok then w.holders[request := id] else w.holders)
    case Leave(request) =>
      if request in w.holders then Admission(Release(w.slots, w.holders[request]), w.holders - {request}) else w
    case SetLimit(id, limit) => w.(slots := Reset(w.slots, id, limit))
    case Discard(id) => w.(slots := Remove(w.slots, id))
  }

  /** A request is admitted once, with a slot, and leaves once, giving it back. */
  lemma EnterAndLeave(w: Admission, request: nat, id: TokenId)
    ensures var v := SlotStep(w, Enter(request, id));
            if request !in w.holders && CanUse(w.slots, id) then
              v.holders == w.holders[request := id] && v.slots == Acquire(w.slots, id).1
            else v == w
    ensures var v := SlotStep(w, Leave(request));
            if request in w.holders then
              v.holders == w.holders - {request} && v.slots == Release(w.slots, w.holders[request])
            else v == w
  {
  }

  function SlotRun(w: Admission, es: seq<SlotEvent>): Admission
    decreases |es|
  {
    if es == [] then w else SlotStep(SlotRun(w, es[..|es| - 1]), es[|es| - 1])
  }

  /** Every account's counter is the number of requests that hold it. */
  ghost predicate Balanced(w: Admission) {
    Valid(w.slots) && forall id :: InFlight(w.slots, id) == CountOf(w.holders, id)
  }

  predicate Unheld(w: Admission, id: TokenId) {
    forall r :: r in w.holders ==> w.holders[r] != id
  }

  lemma UnheldCount(w: Admission, id: TokenId)
    ensures Unheld(w, id) <==> CountOf(w.holders, id) == 0
  {
    if CountOf(w.holders, id) == 0 {
      forall r | r in w.holders ensures w.holders[r] != id {
        assert r !in HoldersOf(w.holders, id);
      }
    } else {
      assert HoldersOf(w.holders, id) != {};
    }
  }

  /** A removed account must not be held. */
  predicate Orderly(w: Admission, e: SlotEvent) {
    e.Discard? ==> Unheld(w, e.id)
  }

  lemma EnterKeepsBalance(w: Admission, request: nat, id: TokenId)
    requires Balanced(w) && request !in w.holders
    ensures Balanced(SlotStep(w, Enter(request, id)))
  {
    var v := SlotStep(w, Enter(request, id));
    if CanUse(w.slots, id) {
      forall other ensures InFlight(v.slots, other) == CountOf(v.holders, other) {
        CountAdded(w.holders, request, id, other);
      }
    }
  }

  lemma LeaveKeepsBalance(w: Admission, request: nat)
    requires Balanced(w) && request in w.holders
    ensures Balanced(SlotStep(w, Leave(request)))
  {
    CountRemoved(w.holders, request, w.holders[request]);
    forall other ensures CountOf(w.holders, other) == CountOf(w.holders - {request}, other) +
        if w.holders[request] == other then 1 else 0 {
      CountRemoved(w.holders, request, other);
    }
  }

  lemma DiscardBalancedIff(w: Admission, id: TokenId)
    requires Balanced(w)
    ensures Balanced(SlotStep(w, Discard(id))) <==> Unheld(w, id)
  {
    UnheldCount(w, id);
    assert InFlight(Remove(w.slots, id), id) == 0;
  }

  /** One step keeps the counts right exactly when it does not remove an account in use. */
  lemma StepBalancedIff(w: Admission, e: SlotEvent)
    requires Balanced(w)
    ensures Balanced(SlotStep(w, e)) <==> Orderly(w, e)
  {
    match e
    case Enter(request, id) =>
      if request !in w.holders {
        EnterKeepsBalance(w, request, id);
      }
    case Leave(request) =>
      if request in w.holders {
        LeaveKeepsBalance(w, request);
      }
    case SetLimit(id, limit) =>
    case Discard(id) =>
      DiscardBalancedIff(w, id);
  }

  predicate OrderlyRun(w: Admission, es: seq<SlotEvent>)
    decreases |es|
  {
    es == [] || (OrderlyRun(w, es[..|es| - 1]) && Orderly(SlotRun(w, es[..|es| - 1]), es[|es| - 1]))
  }

  /** Every state the run passes through is balanced. */
  ghost predicate BalancedThroughout(w: Admission, es: seq<SlotEvent>)
    decreases |es|
  {
    Balanced(SlotRun(w, es)) && (es == [] || BalancedThroughout(w, es[..|es| - 1]))
  }

  /** In every run each account's in-flight count is, all along, its number of holders, if and only if no
      account is removed while a request holds it. */
  lemma {:induction false} RunBalancedIff(w: Admission, es: seq<SlotEvent>)
    requires Balanced(w)
    ensures BalancedThroughout(w, es) <==> OrderlyRun(w, es)
    ensures OrderlyRun(w, es) ==> Balanced(SlotRun(w, es))
    decreases |es|
  {
    if es != [] {
      var before := es[..|es| - 1];
      RunBalancedIff(w, before);
      if OrderlyRun(w, before) {
        StepBalancedIff(SlotRun(w, before), es[|es| - 1]);
      }
    }
  }

  /** Even with removals no run ever counts more than the holders: a removal in use loses counts. */
  lemma {:induction false} NeverOvercounts(w: Admission, es: seq<SlotEvent>, id: TokenId)
    requires InFlight(w.slots, id) <= CountOf(w.holders, id)
    ensures InFlight(SlotRun(w, es).slots, id) <= CountOf(SlotRun(w, es).holders, id)
    decreases |es|
  {
    if es != [] {
      var v, e := SlotRun(w, es[..|es| - 1]), es[|es| - 1];
      NeverOvercounts(w, es[..|es| - 1], id);
      if e.Enter? && e.request !in v.holders {
        CountAdded(v.holders, e.request, e.id, id);
      } else if e.Leave? && e.request in v.holders {
        CountRemoved(v.holders, e.request, id);
      }
    }
  }

  predicate WithinLimits(s: Slots) {
    forall id :: id in s.limits ==> InFlight(s, id) <= s.limits[id]
  }

  /** A new limit must not be below the work in flight. */
  predicate Roomy(w: Admission, e: SlotEvent) {
    e.SetLimit? && e.limit > 0 ==> InFlight(w.slots, e.id) <= e.limit
  }

  lemma StepWithinIff(w: Admission, e: SlotEvent)
    requires Valid(w.slots) && WithinLimits(w.slots)
    ensures WithinLimits(SlotStep(w, e).slots) <==> Roomy(w, e)
  {
    if !Roomy(w, e) {
      var t := Reset(w.slots, e.id, e.limit);
      assert e.id in t.limits && InFlight(t, e.id) > t.limits[e.id];
    }
  }

  predicate RoomyRun(w: Admission, es: seq<SlotEvent>)
    decreases |es|
  {
    es == [] || (RoomyRun(w, es[..|es| - 1]) && Roomy(SlotRun(w, es[..|es| - 1]), es[|es| - 1]))
  }

  /** Counts right, and no account with more holders than its limit. */
  ghost predicate Admissible(w: Admission) {
    Balanced(w) && forall id :: id in w.slots.limits ==> CountOf(w.holders, id) <= w.slots.limits[id]
  }

  ghost predicate AdmissibleThroughout(w: Admission, es: seq<SlotEvent>)
    decreases |es|
  {
    Admissible(SlotRun(w, es)) && (es == [] || AdmissibleThroughout(w, es[..|es| - 1]))
  }

  /** Admission control, whatever the interleaving: no account ever has more holders than its limit if and
      only if no account in use is removed and no limit is put below the work in flight. */
  lemma {:induction false} NeverOverAdmittedIff(w: Admission, es: seq<SlotEvent>)
    requires Admissible(w)
    ensures AdmissibleThroughout(w, es) <==> OrderlyRun(w, es) && RoomyRun(w, es)
    ensures OrderlyRun(w, es) && RoomyRun(w, es) ==> Admissible(SlotRun(w, es))
    decreases |es|
  {
    if es != [] {
      var before := es[..|es| - 1];
      NeverOverAdmittedIff(w, before);
      if OrderlyRun(w, before) && RoomyRun(w, before) {
        StepBalancedIff(SlotRun(w, before), es[|es| - 1]);
        StepWithinIff(SlotRun(w, before), es[|es| - 1]);
      }
    }
  }

  function Opened(limits: map<TokenId, int>): Admission {
    Admission(Slots(limits, map[]), map[])
  }

  /** Removing an account in use breaks the count; once the account has a limit again, it takes on more
      requests than the limit. */
  lemma RemovalOverAdmits(id: TokenId, w: Admission, v: Admission)
    requires w == SlotStep(SlotStep(Opened(map[id := 1]), Enter(0, id)), Discard(id))
    requires v == SlotStep(SlotStep(w, SetLimit(id, 1)), Enter(1, id))
    ensures !Balanced(w) && InFlight(w.slots, id) == 0 && CountOf(w.holders, id) == 1
    ensures v.slots.limits == map[id := 1] && CountOf(v.holders, id) == 2
  {
    CountEmpty(id);
    CountAdded(map[], 0, id, id);
    CountAdded(map[0 := id], 1, id, id);
    assert w.holders == map[0 := id] && v.holders == map[0 := id][1 := id];
  }

  // ---------------------------------------------------------------- the manager

  datatype Account = Account(id: TokenId, imageConcurrency: int, videoConcurrency: int)

  function LimitOf(a: Account, kind: Kind): int {
    if kind == Image then a.imageConcurrency else a.videoConcurrency
  }

  /** Each kind has its own setting. */
  lemma LimitsByKind(a: Account)
    ensures LimitOf(a, Image) == a.imageConcurrency && LimitOf(a, Video) == a.videoConcurrency
  {
  }

  function Loaded(accounts: seq<Account>, kind: Kind): Slots {
    if accounts == [] then Slots(map[], map[])
    else
      var last := accounts[|accounts| - 1];
      var s := Loaded(accounts[..|accounts| - 1], kind);
      Slots(if LimitOf(last, kind) > 0 then s.limits[last.id := LimitOf(last, kind)]
          else s.limits, s.inflight[last.id := 0])
  }

  /** What the accounts say about one of them: the last positive limit among its rows. */
  function LastLimit(accounts: seq<Account>, kind: Kind, id: TokenId): Option<int>
    decreases |accounts|
  {
    if accounts == [] then None
    else
      var last := accounts[|accounts| - 1];
      if last.id == id && LimitOf(last, kind) > 0 then Some(LimitOf(last, kind))
      else LastLimit(accounts[..|accounts| - 1], kind, id)
  }

  /** After loading, nothing is in flight, the limits are the positive ones of the accounts, and the counts
      are balanced against no holders. */
  lemma {:induction false} LoadedIsBalanced(accounts: seq<Account>, kind: Kind)
    ensures var s := Loaded(accounts, kind);
            && (forall id :: InFlight(s, id) == 0)
            && (forall id :: LastLimit(accounts, kind, id) == if id in s.limits then Some(s.limits[id]) else None)
            && Admissible(Admission(s, map[]))
    decreases |accounts|
  {
    forall id: TokenId ensures CountOf(map[], id) == 0 {
      CountEmpty(id);
    }
    if accounts != [] {
      var front := Loaded(accounts[..|accounts| - 1], kind);
      LoadedIsBalanced(accounts[..|accounts| - 1], kind);
      forall id ensures InFlight(Loaded(accounts, kind), id) == 0 {
        assert InFlight(front, id) == 0;
      }
    }
  }

  /** Every account of the rows has an entry. */
  lemma {:induction false} LoadedHasAll(accounts: seq<Account>, kind: Kind, id: TokenId)
    ensures id in Loaded(accounts, kind).inflight <==> exists i :: 0 <= i < |accounts| && accounts[i].id == id
    decreases |accounts|
  {
    if accounts != [] {
      var front := accounts[..|accounts| - 1];
      LoadedHasAll(front, kind, id);
      assert forall i :: 0 <= i < |front| ==> front[i] == accounts[i];
    }
  }

  /** With one row for each account its limit is the row's own. */
  lemma {:induction false} OneRowEach(accounts: seq<Account>, kind: Kind, i: nat)
    requires i < |accounts| && forall j, k :: 0 <= j < k < |accounts| ==> accounts[j].id != accounts[k].id
    ensures var limit := LimitOf(accounts[i], kind);
            LastLimit(accounts, kind, accounts[i].id) == if limit > 0 then Some(limit) else None
    decreases |accounts|
  {
    var front := accounts[..|accounts| - 1];
    if i < |front| {
      OneRowEach(front, kind, i);
    } else {
      NoRow(front, kind, accounts[i].id);
    }
  }

  lemma {:induction false} NoRow(accounts: seq<Account>, kind: Kind, id: TokenId)
    requires forall j :: 0 <= j < |accounts| ==> accounts[j].id != id
    ensures LastLimit(accounts, kind, id) == None
    decreases |accounts|
  {
    if accounts != [] {
      NoRow(accounts[..|accounts| - 1], kind, id);
    }
  }

  class Manager {
    var imageLimits: map<TokenId, int>
    var videoLimits: map<TokenId, int>
    var imageInflight: map<TokenId, int>
    var videoInflight: map<TokenId, int>

    function State(kind: Kind): Slots
      reads this
    {
      if kind == Image then Slots(imageLimits, imageInflight) else Slots(videoLimits, videoInflight)
    }

    constructor ()
      ensures forall kind :: State(kind) == Slots(map[], map[])
    {
      imageLimits, videoLimits, imageInflight, videoInflight := map[], map[], map[], map[];
    }

    method SetInflight(kind: Kind, id: TokenId, n: int)
      modifies this
      ensures State(kind) == old(State(kind)).(inflight := old(State(kind)).inflight[id := n])
      ensures forall other :: other != kind ==> State(other) == old(State(other))
    {
      if kind == Image {
        imageInflight := imageInflight[id := n];
      } else {
        videoInflight := videoInflight[id := n];
      }
    }

    method Initialize(accounts: seq<Account>)
      modifies this
      ensures forall kind :: State(kind) == Loaded(accounts, kind)
    {
      imageLimits, videoLimits, imageInflight, videoInflight := map[], map[], map[], map[];
      for i := 0 to |accounts|
        invariant forall kind :: State(kind) == Loaded(accounts[..i], kind)
      {
        var a := accounts[i];
        assert accounts[..i + 1][..i] == accounts[..i];
        imageInflight, videoInflight := imageInflight[a.id := 0], videoInflight[a.id := 0];
        if a.imageConcurrency > 0 {
          imageLimits := imageLimits[a.id := a.imageConcurrency];
        }
        if a.videoConcurrency > 0 {
          videoLimits := videoLimits[a.id := a.videoConcurrency];
        }
      }
      assert accounts[..|accounts|] == accounts;
    }

    method AcquireSlot(kind: Kind, id: TokenId) returns (ok: bool)
      modifies this
      ensures (ok, State(kind)) == Acquire(old(State(kind)), id)
      ensures forall other :: other != kind ==> State(other) == old(State(other))
    {
      var s := State(kind);
      var inflight := InFlight(s, id);
      if id in s.limits && inflight >= s.limits[id] {
        return false;
      }
      SetInflight(kind, id, inflight + 1);
      return true;
    }

    method ReleaseSlot(kind: Kind, id: TokenId)
      modifies this
      ensures State(kind) == Release(old(State(kind)), id)
      ensures forall other :: other != kind ==> State(other) == old(State(other))
    {
      var inflight := InFlight(State(kind), id);
      if inflight <= 0 {
        SetInflight(kind, id, 0);
        return;
      }
      SetInflight(kind, id, inflight - 1);
    }

    method ResetToken(id: TokenId, imageConcurrency: int, videoConcurrency: int)
      modifies this
      ensures State(Image) == Reset(old(State(Image)), id, imageConcurrency)
      ensures State(Video) == Reset(old(State(Video)), id, videoConcurrency)
    {
      imageLimits := if imageConcurrency > 0 then imageLimits[id := imageConcurrency] else imageLimits - {id};
      videoLimits := if videoConcurrency > 0 then videoLimits[id := videoConcurrency] else videoLimits - {id};
      imageInflight := imageInflight[id := if id in imageInflight then imageInflight[id] else 0];
      videoInflight := videoInflight[id := if id in videoInflight then videoInflight[id] else 0];
    }

    method RemoveToken(id: TokenId)
      modifies this
      ensures forall kind :: State(kind) == Remove(old(State(kind)), id)
    {
      imageLimits, videoLimits := imageLimits - {id}, videoLimits - {id};
      imageInflight, videoInflight := imageInflight - {id}, videoInflight - {id};
    }
  }
}
