/** Polling when a selection refreshes the account it chooses (`ensure_valid_token` of
    src/services/token_manager.py): from then on that account needs no refresh, and the split prefers it. */
module PollingRefreshes {
  import opened Prelude
  import opened LexSort
  import opened Rotation
  import opened ConcurrencyManager
  import opened LoadBalancer
  import opened PollingRotation

  /** A call over the accounts `ids` of which those in `stale` need a refresh. */
  predicate Mixed(call: Call, ids: seq<TokenId>, stale: set<TokenId>) {
    && SortedIds(call.candidates) == ids
    && forall i :: 0 <= i < |call.candidates| ==>
         (call.candidates[i].token.stale <==> call.candidates[i].token.id in stale)
  }

  /** The account chosen has a new access token: it needs no refresh any more. */
  function Refreshed(stale: set<TokenId>, x: Option<Candidate>): set<TokenId> {
    match x
    case None => stale
    case Some(y) => stale - {y.token.id}
  }

  /** A run over the accounts `ids`, those in `stale` needing a refresh at first: each selection leaves the
      account it chose refreshed, and nothing else changes who needs a refresh. */
  predicate Refreshes(c: Config, r: Request, calls: seq<Call>, last: Option<TokenId>, ids: seq<TokenId>,
      stale: set<TokenId>)
    decreases |calls|
  {
    calls == [] ||
    (var (x, next) := Selection(c, r, calls[0].load, calls[0].candidates, calls[0].valid, last);
     Mixed(calls[0], ids, stale) && Refreshes(c, r, calls[1..], next, ids, Refreshed(stale, x)))
  }

  /** Those served without reservations: the ready ones, or when there is none those whose refresh works. */
  function Preferred(ids: seq<TokenId>, stale: set<TokenId>, valid: set<TokenId>): set<TokenId> {
    if IdSet(ids) - stale != {} then IdSet(ids) - stale else IdSet(ids) * valid
  }

  lemma ListedIds(cs: seq<Candidate>)
    ensures forall id :: id in IdSet(SortedIds(cs)) <==> exists i :: 0 <= i < |cs| && cs[i].token.id == id
  {
    var sorted := Items(Sort(ById(cs)));
    SameMembers(ById(cs), cs);
    forall i | 0 <= i < |cs| ensures cs[i].token.id in SortedIds(cs) {
      assert cs[i] in sorted;
      var k :| 0 <= k < |sorted| && sorted[k] == cs[i];
      assert Ids(sorted)[k] == cs[i].token.id;
    }
    forall k | 0 <= k < |sorted| ensures exists i :: 0 <= i < |cs| && cs[i].token.id == Ids(sorted)[k] {
      assert sorted[k] in cs;
      var i :| 0 <= i < |cs| && cs[i] == sorted[k];
    }
  }

  lemma PassingMixed(r: Request, call: Call, ids: seq<TokenId>, stale: set<TokenId>, which: bool)
    requires !r.reserve && Mixed(call, ids, stale)
    ensures Passing(r, call.load, call.candidates, call.valid, which)
            == if which then IdSet(ids) * stale * call.valid else IdSet(ids) - stale
  {
    var cs, valid := call.candidates, call.valid;
    ListedIds(cs);
    forall i | 0 <= i < |cs|
      ensures cs[i].token.id in Passing(r, call.load, cs, valid, which) <==> Would(r, call.load, valid, which, cs[i])
    {
      if Would(r, call.load, valid, which, cs[i]) {
        assert cs[i] in cs;
      }
    }
  }

  lemma MixedOffers(r: Request, call: Call, ids: seq<TokenId>, stale: set<TokenId>)
    requires !r.reserve && Mixed(call, ids, stale)
    ensures Offers(r, call, ids, Preferred(ids, stale, call.valid))
  {
    PassingMixed(r, call, ids, stale, false);
    PassingMixed(r, call, ids, stale, true);
    if IdSet(ids) - stale == {} {
      forall id | id in IdSet(ids) ensures id in stale {
        assert id !in IdSet(ids) - stale;
      }
      assert IdSet(ids) * stale * call.valid == IdSet(ids) * call.valid;
    }
  }

  /** One selection of such a run. */
  lemma MixedTurn(c: Config, r: Request, call: Call, last: Option<TokenId>, ids: seq<TokenId>, stale: set<TokenId>)
    requires c.polling && !r.reserve && ids != [] && Distinct(ids) && Mixed(call, ids, stale)
    ensures var (x, next) := Selection(c, r, call.load, call.candidates, call.valid, last);
            var served := Preferred(ids, stale, call.valid);
            && (x.None? <==> served == {})
            && (x.Some? ==> Serves(served, Rotation.Select(ids, last), x.value.token.id))
  {
    MixedOffers(r, call, ids, stale);
    PollingTurn(c, r, call.load, call.candidates, call.valid, last);
  }

  // ---------------------------------------------------------------- while some account is ready

  predicate AllMixed(calls: seq<Call>, ids: seq<TokenId>, stale: set<TokenId>)
    decreases |calls|
  {
    calls == [] || (Mixed(calls[0], ids, stale) && AllMixed(calls[1..], ids, stale))
  }

  lemma ReadyChosen(c: Config, r: Request, call: Call, last: Option<TokenId>, ids: seq<TokenId>, stale: set<TokenId>)
    requires c.polling && !r.reserve && ids != [] && Distinct(ids) && Mixed(call, ids, stale) && IdSet(ids) - stale != {}
    ensures Refreshed(stale, Selection(c, r, call.load, call.candidates, call.valid, last).0) == stale
  {
    MixedTurn(c, r, call, last, ids, stale);
  }

  /** While some account is ready no refresh is tried, so the same accounts need one all along. */
  lemma {:induction false} ReadyRunIff(c: Config, r: Request, calls: seq<Call>, last: Option<TokenId>,
      ids: seq<TokenId>, stale: set<TokenId>)
    requires c.polling && !r.reserve && ids != [] && Distinct(ids) && IdSet(ids) - stale != {}
    ensures Refreshes(c, r, calls, last, ids, stale) <==> AllMixed(calls, ids, stale)
    decreases |calls|
  {
    if calls != [] && Mixed(calls[0], ids, stale) {
      ReadyChosen(c, r, calls[0], last, ids, stale);
      var next := Selection(c, r, calls[0].load, calls[0].candidates, calls[0].valid, last).1;
      ReadyRunIff(c, r, calls[1..], next, ids, stale);
    }
  }

  lemma {:induction false} AllMixedOffer(r: Request, calls: seq<Call>, ids: seq<TokenId>, stale: set<TokenId>,
      ready: set<TokenId>)
    requires !r.reserve && AllMixed(calls, ids, stale) && ready == IdSet(ids) - stale != {}
    ensures AllOffer(r, calls, ids, ready)
    decreases |calls|
  {
    if calls != [] {
      MixedOffers(r, calls[0], ids, stale);
      AllMixedOffer(r, calls[1..], ids, stale, ready);
    }
  }

  lemma {:induction false} RepeatedMixed(call: Call, ids: seq<TokenId>, stale: set<TokenId>, m: nat)
    requires Mixed(call, ids, stale)
    ensures AllMixed(Repeated(call, m), ids, stale)
  {
    if m > 0 {
      RepeatedMixed(call, ids, stale, m - 1);
      assert Repeated(call, m)[1..] == Repeated(call, m - 1);
    }
  }

  lemma ReadyOffers(c: Config, r: Request, calls: seq<Call>, last: Option<TokenId>, ids: seq<TokenId>,
      stale: set<TokenId>, ready: set<TokenId>)
    requires c.polling && !r.reserve && ids != [] && Distinct(ids) && ready == IdSet(ids) - stale != {}
    requires Refreshes(c, r, calls, last, ids, stale)
    ensures AllOffer(r, calls, ids, ready)
  {
    ReadyRunIff(c, r, calls, last, ids, stale);
    AllMixedOffer(r, calls, ids, stale, ready);
  }

  /** While some accounts are ready and the others need a refresh, without reservations: the others are
      never chosen, every ready account gets its turns, floor(m/n) or ceil(m/n) of m, and the one with the
      lowest id gets all the others' turns besides. */
  lemma StaleStarve(c: Config, r: Request, calls: seq<Call>, last: Option<TokenId>, ids: seq<TokenId>,
      stale: set<TokenId>, ready: set<TokenId>, low: TokenId, id: TokenId)
    requires c.polling && !r.reserve && Distinct(ids) && Refreshes(c, r, calls, last, ids, stale)
    requires ready == IdSet(ids) - stale && Lowest(ready, low) && id in ids
    ensures var turns := Picks(ids, last, |calls|);
            && FairShare(Rotation.Count(id, turns), |calls|, |ids|)
            && Rotation.Count(id, Chosen(c, r, calls, last)) == ShareOf(id, turns, ready, low)
            && (id in stale ==> Rotation.Count(id, Chosen(c, r, calls, last)) == 0)
  {
    ReadyOffers(c, r, calls, last, ids, stale, ready);
    PollingShares(c, r, calls, last, ids, ready, low, id);
  }

  // ---------------------------------------------------------------- when all need a refresh

  function Copies(id: TokenId, m: nat): (r: seq<TokenId>)
    ensures |r| == m
  {
    if m == 0 then [] else [id] + Copies(id, m - 1)
  }

  /** All requests go to the one account. */
  predicate AllTo(c: Config, r: Request, calls: seq<Call>, last: Option<TokenId>, id: TokenId) {
    Chosen(c, r, calls, last) == Copies(id, |calls|)
  }

  /** The call chooses `id` and moves the memory to `next`. */
  predicate Selects(c: Config, r: Request, call: Call, last: Option<TokenId>, id: TokenId, next: Option<TokenId>) {
    var (x, after) := Selection(c, r, call.load, call.candidates, call.valid, last);
    x.Some? && x.value.token.id == id && after == next
  }

  lemma TakesNext(c: Config, r: Request, calls: seq<Call>, last: Option<TokenId>, id: TokenId, next: Option<TokenId>)
    requires calls != [] && Selects(c, r, calls[0], last, id, next) && AllTo(c, r, calls[1..], next, id)
    ensures AllTo(c, r, calls, last, id)
  {
  }

  lemma RunNext(c: Config, r: Request, calls: seq<Call>, last: Option<TokenId>, ids: seq<TokenId>,
      stale: set<TokenId>, id: TokenId, next: Option<TokenId>)
    requires calls != [] && Selects(c, r, calls[0], last, id, next) && Refreshes(c, r, calls, last, ids, stale)
    ensures Mixed(calls[0], ids, stale) && Refreshes(c, r, calls[1..], next, ids, stale - {id})
  {
  }

  lemma OnlyChoice(c: Config, r: Request, call: Call, last: Option<TokenId>, ids: seq<TokenId>, stale: set<TokenId>,
      id: TokenId) returns (next: Option<TokenId>)
    requires c.polling && !r.reserve && ids != [] && Distinct(ids) && IdSet(ids) - stale == {id}
    requires Mixed(call, ids, stale)
    ensures Selects(c, r, call, last, id, next) && stale - {id} == stale
  {
    MixedTurn(c, r, call, last, ids, stale);
    assert id in IdSet(ids) - stale;
    next := Selection(c, r, call.load, call.candidates, call.valid, last).1;
  }

  /** The only ready account takes every request. */
  lemma {:induction false} OnlyReady(c: Config, r: Request, calls: seq<Call>, last: Option<TokenId>,
      ids: seq<TokenId>, stale: set<TokenId>, id: TokenId)
    requires c.polling && !r.reserve && ids != [] && Distinct(ids) && IdSet(ids) - stale == {id}
    requires Refreshes(c, r, calls, last, ids, stale)
    ensures AllTo(c, r, calls, last, id)
    decreases |calls|
  {
    if calls != [] {
      var next := OnlyChoice(c, r, calls[0], last, ids, stale, id);
      RunNext(c, r, calls, last, ids, stale, id, next);
      OnlyReady(c, r, calls[1..], next, ids, stale, id);
      TakesNext(c, r, calls, last, id, next);
    }
  }

  /** Monopoly: when every account needs a refresh, the account chosen first is the only one ready from then
      on, and takes every later request: the first turn's account if its refresh works, and otherwise the
      lowest one whose refresh works. */
  lemma FirstTakesAll(c: Config, r: Request, calls: seq<Call>, last: Option<TokenId>, ids: seq<TokenId>,
      stale: set<TokenId>, id: TokenId)
    requires c.polling && !r.reserve && ids != [] && Distinct(ids) && IdSet(ids) <= stale && calls != []
    requires Refreshes(c, r, calls, last, ids, stale)
    requires Serves(IdSet(ids) * calls[0].valid, Rotation.Select(ids, last), id) && id in calls[0].valid
    ensures AllTo(c, r, calls, last, id)
  {
    var next := FirstChoice(c, r, calls[0], last, ids, stale, id);
    RunNext(c, r, calls, last, ids, stale, id, next);
    OnlyReady(c, r, calls[1..], next, ids, stale - {id}, id);
    TakesNext(c, r, calls, last, id, next);
  }

  lemma OneLeft(ids: seq<TokenId>, stale: set<TokenId>, id: TokenId)
    requires IdSet(ids) <= stale && id in IdSet(ids)
    ensures IdSet(ids) - (stale - {id}) == {id}
  {
  }

  lemma FirstChoice(c: Config, r: Request, call: Call, last: Option<TokenId>, ids: seq<TokenId>,
      stale: set<TokenId>, id: TokenId) returns (next: Option<TokenId>)
    requires c.polling && !r.reserve && ids != [] && Distinct(ids) && IdSet(ids) <= stale && Mixed(call, ids, stale)
    requires Serves(IdSet(ids) * call.valid, Rotation.Select(ids, last), id) && id in call.valid
    ensures Selects(c, r, call, last, id, next) && IdSet(ids) - (stale - {id}) == {id}
  {
    var served := IdSet(ids) * call.valid;
    var turn: TokenId := Rotation.Select(ids, last);
    assert IdSet(ids) - stale == {};
    MixedTurn(c, r, call, last, ids, stale);
    assert turn in ids;
    assert id in served;
    var x := Selection(c, r, call.load, call.candidates, call.valid, last).0;
    if turn !in served {
      LowestUnique(served, x.value.token.id, id);
    }
    OneLeft(ids, stale, id);
    next := Selection(c, r, call.load, call.candidates, call.valid, last).1;
  }

  /** And whatever refreshes work when, all requests that are answered at all go to one account. */
  lemma {:induction false} OneTakesAll(c: Config, r: Request, calls: seq<Call>, last: Option<TokenId>,
      ids: seq<TokenId>, stale: set<TokenId>)
    requires c.polling && !r.reserve && ids != [] && Distinct(ids) && IdSet(ids) <= stale
    requires Refreshes(c, r, calls, last, ids, stale)
    ensures exists id, m :: Chosen(c, r, calls, last) == Copies(id, m)
    decreases |calls|
  {
    if calls == [] {
      assert Chosen(c, r, calls, last) == Copies(0, 0);
    } else {
      var (x, next) := Selection(c, r, calls[0].load, calls[0].candidates, calls[0].valid, last);
      MixedTurn(c, r, calls[0], last, ids, stale);
      if x.None? {
        OneTakesAll(c, r, calls[1..], next, ids, stale);
      } else {
        FirstTakesAll(c, r, calls, last, ids, stale, x.value.token.id);
      }
    }
  }

  // ---------------------------------------------------------------- fair in every run

  /** The accounts that can be used, at once or after a refresh. */
  function Usable(ids: seq<TokenId>, stale: set<TokenId>, valid: set<TokenId>): set<TokenId> {
    (IdSet(ids) - stale) + IdSet(ids) * valid
  }

  predicate AllValid(calls: seq<Call>, valid: set<TokenId>) {
    forall i :: 0 <= i < |calls| ==> calls[i].valid == valid
  }

  /** A run in which the same refreshes work all along. */
  predicate SteadyRun(c: Config, r: Request, calls: seq<Call>, last: Option<TokenId>, ids: seq<TokenId>,
      stale: set<TokenId>, valid: set<TokenId>) {
    Refreshes(c, r, calls, last, ids, stale) && AllValid(calls, valid)
  }

  lemma {:induction false} CopiesCount(id: TokenId, m: nat, other: TokenId)
    ensures Rotation.Count(other, Copies(id, m)) == if other == id then m else 0
  {
    if m > 0 {
      CopiesCount(id, m - 1, other);
      assert Copies(id, m)[1..] == Copies(id, m - 1);
    }
  }

  lemma ServedExists(served: set<TokenId>, turn: TokenId) returns (id: TokenId)
    requires served != {}
    ensures Serves(served, turn, id) && id in served
  {
    id := if turn in served then turn else LowestOf(served);
  }

  lemma FairWhenReady(c: Config, r: Request, calls: seq<Call>, last: Option<TokenId>, ids: seq<TokenId>,
      stale: set<TokenId>, ready: set<TokenId>)
    requires c.polling && !r.reserve && ids != [] && Distinct(ids) && Refreshes(c, r, calls, last, ids, stale)
    requires ready == IdSet(ids) - stale != {} && FairCase(ids, ready, ready)
    ensures Even(Chosen(c, r, calls, last), |calls|, ready)
  {
    ReadyOffers(c, r, calls, last, ids, stale, ready);
    FairRun(c, r, calls, last, ids, ready, LowestOf(ready));
  }

  lemma AllToIsEven(c: Config, r: Request, calls: seq<Call>, last: Option<TokenId>, id: TokenId)
    requires AllTo(c, r, calls, last, id)
    ensures Even(Chosen(c, r, calls, last), |calls|, {id})
  {
    CopiesCount(id, |calls|, id);
    assert FairShare(|calls|, |calls|, 1);
  }

  lemma FairWhenAlone(c: Config, r: Request, calls: seq<Call>, last: Option<TokenId>, ids: seq<TokenId>,
      stale: set<TokenId>, valid: set<TokenId>, usable: set<TokenId>)
    requires c.polling && !r.reserve && ids != [] && Distinct(ids) && SteadyRun(c, r, calls, last, ids, stale, valid)
    requires IdSet(ids) <= stale && usable == IdSet(ids) * valid && |usable| == 1
    ensures Even(Chosen(c, r, calls, last), |calls|, usable)
  {
    var id :| id in usable;
    OnlyMember(usable, id);
    if calls == [] {
      assert AllTo(c, r, calls, last, id);
    } else {
      assert Serves(usable, Rotation.Select(ids, last), id);
      FirstTakesAll(c, r, calls, last, ids, stale, id);
    }
    AllToIsEven(c, r, calls, last, id);
  }

  // ---------------------------------------------------------------- runs that are not

  /** The candidates with the flags of a given set. */
  function Flagged(cs: seq<Candidate>, stale: set<TokenId>): (fs: seq<Candidate>)
    ensures |fs| == |cs|
    ensures forall i :: 0 <= i < |cs| ==> fs[i] == Flag(cs[i], stale)
  {
    if cs == [] then [] else [Flag(cs[0], stale)] + Flagged(cs[1..], stale)
  }

  function Flag(x: Candidate, stale: set<TokenId>): Candidate {
    x.(token := x.token.(stale := x.token.id in stale))
  }

  /** Same keys, same ids. */
  predicate Alike(a: seq<Keyed<Candidate>>, b: seq<Keyed<Candidate>>) {
    && |a| == |b|
    && forall i :: 0 <= i < |a| ==> a[i].key == b[i].key && a[i].item.token.id == b[i].item.token.id
  }

  lemma {:induction false} InsertAlike(x: Keyed<Candidate>, y: Keyed<Candidate>, a: seq<Keyed<Candidate>>,
      b: seq<Keyed<Candidate>>)
    requires Alike(a, b) && x.key == y.key && x.item.token.id == y.item.token.id
    ensures Alike(Insert(x, a), Insert(y, b))
  {
    if a != [] && !LexLeq(x.key, a[0].key) {
      InsertAlike(x, y, a[1..], b[1..]);
    }
  }

  lemma {:induction false} SortAlike(a: seq<Keyed<Candidate>>, b: seq<Keyed<Candidate>>)
    requires Alike(a, b)
    ensures Alike(Sort(a), Sort(b))
  {
    if a != [] {
      SortAlike(a[1..], b[1..]);
      InsertAlike(a[0], b[0], Sort(a[1..]), Sort(b[1..]));
    }
  }

  lemma FlaggedMixed(call: Call, ids: seq<TokenId>, stale: set<TokenId>)
    requires SortedIds(call.candidates) == ids
    ensures Mixed(call.(candidates := Flagged(call.candidates, stale)), ids, stale)
  {
    var cs := call.candidates;
    SortAlike(ById(cs), ById(Flagged(cs, stale)));
    assert SortedIds(Flagged(cs, stale)) == SortedIds(cs);
  }

  lemma RunCons(c: Config, r: Request, call: Call, rest: seq<Call>, last: Option<TokenId>, ids: seq<TokenId>,
      stale: set<TokenId>, id: TokenId, next: Option<TokenId>)
    requires Mixed(call, ids, stale) && Selects(c, r, call, last, id, next)
    requires Refreshes(c, r, rest, next, ids, stale - {id})
    ensures Refreshes(c, r, [call] + rest, last, ids, stale)
  {
    assert ([call] + rest)[1..] == rest;
  }

  lemma OnlyReadyRun(c: Config, r: Request, later: Call, last: Option<TokenId>, ids: seq<TokenId>,
      stale: set<TokenId>, id: TokenId, m: nat)
    requires c.polling && !r.reserve && ids != [] && Distinct(ids) && IdSet(ids) - stale == {id}
    requires Mixed(later, ids, stale)
    ensures Refreshes(c, r, Repeated(later, m), last, ids, stale)
  {
    assert id in IdSet(ids) - stale;
    RepeatedMixed(later, ids, stale, m);
    ReadyRunIff(c, r, Repeated(later, m), last, ids, stale);
  }

  lemma ConsValid(call: Call, rest: seq<Call>)
    requires AllValid(rest, call.valid)
    ensures AllValid([call] + rest, call.valid)
  {
  }

  lemma MonopolySteady(c: Config, r: Request, call: Call, later: Call, last: Option<TokenId>, ids: seq<TokenId>,
      stale: set<TokenId>, id: TokenId, m: nat)
    requires c.polling && !r.reserve && ids != [] && Distinct(ids) && IdSet(ids) <= stale && Mixed(call, ids, stale)
    requires Serves(IdSet(ids) * call.valid, Rotation.Select(ids, last), id) && id in call.valid
    requires Mixed(later, ids, stale - {id}) && later.valid == call.valid
    ensures SteadyRun(c, r, [call] + Repeated(later, m), last, ids, stale, call.valid)
  {
    var next := FirstChoice(c, r, call, last, ids, stale, id);
    OnlyReadyRun(c, r, later, next, ids, stale - {id}, id, m);
    RunCons(c, r, call, Repeated(later, m), last, ids, stale, id, next);
    RepeatedValid(later, m);
    ConsValid(call, Repeated(later, m));
  }

  /** The run in which the first account chosen takes the rest. */
  lemma MonopolyRun(c: Config, r: Request, call: Call, last: Option<TokenId>, ids: seq<TokenId>,
      stale: set<TokenId>, id: TokenId, m: nat) returns (calls: seq<Call>)
    requires c.polling && !r.reserve && ids != [] && Distinct(ids) && IdSet(ids) <= stale && Mixed(call, ids, stale)
    requires Serves(IdSet(ids) * call.valid, Rotation.Select(ids, last), id) && id in call.valid
    ensures |calls| == m + 1 && SteadyRun(c, r, calls, last, ids, stale, call.valid) && AllTo(c, r, calls, last, id)
  {
    var later := call.(candidates := Flagged(call.candidates, stale - {id}));
    FlaggedMixed(call, ids, stale - {id});
    MonopolySteady(c, r, call, later, last, ids, stale, id, m);
    calls := [call] + Repeated(later, m);
    FirstTakesAll(c, r, calls, last, ids, stale, id);
  }

  lemma {:induction false} RepeatedValid(call: Call, m: nat)
    ensures AllValid(Repeated(call, m), call.valid)
  {
    if m > 0 {
      RepeatedValid(call, m - 1);
    }
  }

  lemma UnfairWhenStale(c: Config, r: Request, call: Call, last: Option<TokenId>, ids: seq<TokenId>,
      stale: set<TokenId>, usable: set<TokenId>) returns (calls: seq<Call>)
    requires c.polling && !r.reserve && ids != [] && Distinct(ids) && Mixed(call, ids, stale)
    requires IdSet(ids) <= stale && usable == IdSet(ids) * call.valid && |usable| > 1
    ensures SteadyRun(c, r, calls, last, ids, stale, call.valid) && !Even(Chosen(c, r, calls, last), |calls|, usable)
  {
    var id := ServedExists(usable, Rotation.Select(ids, last));
    calls := MonopolyRun(c, r, call, last, ids, stale, id, |usable| - 1);
    var other := Another(usable, id);
    CopiesCount(id, |usable|, other);
    assert |usable| / |usable| == 1;
  }

  lemma UnfairWhenMixed(c: Config, r: Request, call: Call, last: Option<TokenId>, ids: seq<TokenId>,
      stale: set<TokenId>, ready: set<TokenId>, usable: set<TokenId>) returns (calls: seq<Call>)
    requires c.polling && !r.reserve && ids != [] && Distinct(ids) && Mixed(call, ids, stale)
    requires ready == IdSet(ids) - stale != {} && ready <= usable <= IdSet(ids) && !FairCase(ids, ready, usable)
    ensures SteadyRun(c, r, calls, last, ids, stale, call.valid) && !Even(Chosen(c, r, calls, last), |calls|, usable)
  {
    var m := Telling(ids, ready, usable);
    calls := Repeated(call, m);
    MixedOffers(r, call, ids, stale);
    UnfairRun(c, r, call, last, ids, ready, LowestOf(ready), usable);
    RepeatedMixed(call, ids, stale, m);
    RepeatedValid(call, m);
    ReadyRunIff(c, r, calls, last, ids, stale);
  }

  ghost predicate FairInEveryRun(c: Config, r: Request, last: Option<TokenId>, ids: seq<TokenId>,
      stale: set<TokenId>, valid: set<TokenId>, among: set<TokenId>)
    requires among != {}
  {
    forall calls :: SteadyRun(c, r, calls, last, ids, stale, valid) ==> Even(Chosen(c, r, calls, last), |calls|, among)
  }

  lemma FairEverywhere(c: Config, r: Request, last: Option<TokenId>, ids: seq<TokenId>, stale: set<TokenId>,
      valid: set<TokenId>, usable: set<TokenId>)
    requires c.polling && !r.reserve && ids != [] && Distinct(ids)
    requires usable == Usable(ids, stale, valid) != {} && (IdSet(ids) !! stale || |usable| == 1)
    ensures FairInEveryRun(c, r, last, ids, stale, valid, usable)
  {
    var ready := IdSet(ids) - stale;
    forall calls | SteadyRun(c, r, calls, last, ids, stale, valid)
      ensures Even(Chosen(c, r, calls, last), |calls|, usable)
    {
      if ready != {} {
        ReadyIsAll(ids, stale, valid, ready, usable);
        FairWhenReady(c, r, calls, last, ids, stale, ready);
      } else {
        NoneReady(ids, stale, valid, usable);
        FairWhenAlone(c, r, calls, last, ids, stale, valid, usable);
      }
    }
  }

  lemma ReadyIsAll(ids: seq<TokenId>, stale: set<TokenId>, valid: set<TokenId>, ready: set<TokenId>,
      usable: set<TokenId>)
    requires ready == IdSet(ids) - stale != {} && usable == Usable(ids, stale, valid)
    requires IdSet(ids) !! stale || |usable| == 1
    ensures usable == ready && FairCase(ids, ready, ready)
  {
    if IdSet(ids) !! stale {
      assert ready == IdSet(ids);
    } else {
      var id :| id in ready;
      OnlyMember(usable, id);
    }
  }

  lemma NoneReady(ids: seq<TokenId>, stale: set<TokenId>, valid: set<TokenId>, usable: set<TokenId>)
    requires IdSet(ids) - stale == {} && usable == Usable(ids, stale, valid) && ids != []
    ensures IdSet(ids) <= stale && usable == IdSet(ids) * valid && !(IdSet(ids) !! stale)
  {
    forall id | id in IdSet(ids) ensures id in stale {
      assert id !in IdSet(ids) - stale;
    }
    assert ids[0] in IdSet(ids);
  }

  /** Without reservations, polling shares the requests out evenly among the usable accounts in every run, its
      own refreshes included, exactly when no account needs a refresh at first or just one is usable. */
  lemma RefreshFairIff(c: Config, r: Request, call: Call, last: Option<TokenId>, ids: seq<TokenId>,
      stale: set<TokenId>, usable: set<TokenId>)
    requires c.polling && !r.reserve && ids != [] && Distinct(ids) && Mixed(call, ids, stale)
    requires usable == Usable(ids, stale, call.valid) != {}
    ensures FairInEveryRun(c, r, last, ids, stale, call.valid, usable) <==> IdSet(ids) !! stale || |usable| == 1
  {
    var ready := IdSet(ids) - stale;
    if IdSet(ids) !! stale || |usable| == 1 {
      FairEverywhere(c, r, last, ids, stale, call.valid, usable);
    } else if ready != {} {
      var id :| id in IdSet(ids) && id in stale;
      assert id !in ready;
      var calls := UnfairWhenMixed(c, r, call, last, ids, stale, ready, usable);
    } else {
      NoneReady(ids, stale, call.valid, usable);
      var calls := UnfairWhenStale(c, r, call, last, ids, stale, usable);
    }
  }

  /** In particular, where every refresh works, among all accounts exactly when none needs one or there is
      just one. */
  lemma AllValidFairIff(c: Config, r: Request, call: Call, last: Option<TokenId>, ids: seq<TokenId>,
      stale: set<TokenId>)
    requires c.polling && !r.reserve && ids != [] && Distinct(ids) && Mixed(call, ids, stale)
    requires IdSet(ids) * stale <= call.valid
    ensures IdSet(ids) != {}
    ensures FairInEveryRun(c, r, last, ids, stale, call.valid, IdSet(ids)) <==> IdSet(ids) !! stale || |ids| == 1
  {
    assert ids[0] in IdSet(ids);
    assert Usable(ids, stale, call.valid) == IdSet(ids) by {
      forall id | id in IdSet(ids) ensures id in Usable(ids, stale, call.valid) {
        assert id in stale ==> id in IdSet(ids) * stale;
      }
    }
    DistinctSize(ids);
    RefreshFairIff(c, r, call, last, ids, stale, IdSet(ids));
  }

  // ---------------------------------------------------------------- three accounts

  /** Three accounts of which the second needs a refresh: of six selections the first gets four, the third
      two and the second none. */
  lemma SecondStarves(c: Config, r: Request, calls: seq<Call>, ids: seq<TokenId>, stale: set<TokenId>,
      ready: set<TokenId>)
    requires c.polling && !r.reserve && ids == [1, 2, 3] && stale == {2} && ready == {1, 3} && |calls| == 6
    requires Refreshes(c, r, calls, None, ids, stale)
    ensures Chosen(c, r, calls, None) == [1, 1, 3, 1, 1, 3]
  {
    ThreeOffer(c, r, calls, ids, stale, ready);
    ReadyRotates(c, r, calls, ids, ready);
    SixTurns(c, r, calls, ids, ready);
  }

  lemma ThreeOffer(c: Config, r: Request, calls: seq<Call>, ids: seq<TokenId>, stale: set<TokenId>,
      ready: set<TokenId>)
    requires c.polling && !r.reserve && ids == [1, 2, 3] && stale == {2} && ready == {1, 3}
    requires Refreshes(c, r, calls, None, ids, stale)
    ensures AllOffer(r, calls, ids, ready)
  {
    assert IdSet(ids) - stale == ready;
    ReadyOffers(c, r, calls, None, ids, stale, ready);
  }

  lemma ReadyRotates(c: Config, r: Request, calls: seq<Call>, ids: seq<TokenId>, ready: set<TokenId>)
    requires c.polling && ids == [1, 2, 3] && ready == {1, 3} && AllOffer(r, calls, ids, ready)
    ensures Rotates(c, r, calls, None, ids, ready, 1)
  {
    FixedRotates(c, r, calls, None, ids, ready, 1);
  }

  lemma SixTurns(c: Config, r: Request, calls: seq<Call>, ids: seq<TokenId>, ready: set<TokenId>)
    requires ids == [1, 2, 3] && ready == {1, 3} && |calls| == 6 && Rotates(c, r, calls, None, ids, ready, 1)
    ensures Chosen(c, r, calls, None) == [1, 1, 3, 1, 1, 3]
  {
    TwoRounds(ids, |calls|, ready);
  }

  lemma TwoRounds(ids: seq<TokenId>, m: nat, ready: set<TokenId>)
    requires ids == [1, 2, 3] && ready == {1, 3} && m == 6
    ensures Redirect(Picks(ids, None, m), ready, 1) == [1, 1, 3, 1, 1, 3]
  {
    Round(ids, None, m, ready);
    Round(ids, Some(3), m - 3, ready);
    assert Redirect(Picks(ids, Some(3), m - 6), ready, 1) == [];
  }

  lemma Round(ids: seq<TokenId>, last: Option<TokenId>, m: nat, ready: set<TokenId>)
    requires ids == [1, 2, 3] && ready == {1, 3} && m >= 3 && (last == None || last == Some(3))
    ensures Redirect(Picks(ids, last, m), ready, 1) == [1, 1, 3] + Redirect(Picks(ids, Some(3), m - 3), ready, 1)
  {
    NextAfter(ids, 0);
    NextAfter(ids, 1);
    NextAfter(ids, 2);
    NextPicks(ids, last, m, ready, 1, 1);
    NextPicks(ids, Some(1), m - 1, ready, 1, 2);
    NextPicks(ids, Some(2), m - 2, ready, 1, 3);
  }

  lemma {:induction false} SortedStays(es: seq<Keyed<Candidate>>)
    requires forall i, j :: 0 <= i < j < |es| ==> LexLeq(es[i].key, es[j].key)
    ensures Sort(es) == es
  {
    if es != [] {
      SortedStays(es[1..]);
      assert es == [es[0]] + es[1..];
    }
  }

  lemma ThreeRows(call: Call, a: Candidate, b: Candidate, d: Candidate)
    requires call.candidates == [a, b, d] && a.token.id == 1 && b.token.id == 2 && d.token.id == 3
    ensures SortedIds(call.candidates) == [1, 2, 3]
  {
    SortedStays(ById(call.candidates));
    assert Items(ById(call.candidates)) == call.candidates;
  }

  /** It happens: such rows at each of six calls. */
  lemma SecondStarvesHappens(c: Config, r: Request, call: Call, a: Candidate, b: Candidate, d: Candidate)
    requires call.candidates == [a, b, d] && a.token.id == 1 && b.token.id == 2 && d.token.id == 3
    requires !a.token.stale && b.token.stale && !d.token.stale && c.polling && !r.reserve
    ensures Chosen(c, r, Repeated(call, 6), None) == [1, 1, 3, 1, 1, 3]
  {
    var ids := [1, 2, 3];
    ThreeRows(call, a, b, d);
    assert Mixed(call, ids, {2});
    ThreeReady(c, r, call, ids, {2}, 6);
    SecondStarves(c, r, Repeated(call, 6), ids, {2}, {1, 3});
  }

  lemma ThreeReady(c: Config, r: Request, call: Call, ids: seq<TokenId>, stale: set<TokenId>, m: nat)
    requires c.polling && !r.reserve && ids == [1, 2, 3] && stale == {2} && Mixed(call, ids, stale)
    ensures Refreshes(c, r, Repeated(call, m), None, ids, stale)
  {
    assert 1 in IdSet(ids) - stale;
    RepeatedMixed(call, ids, stale, m);
    ReadyRunIff(c, r, Repeated(call, m), None, ids, stale);
  }

  /** Three accounts that all need a refresh, which works: the first takes every request. */
  lemma FirstTakesAllHappens(c: Config, r: Request, call: Call, a: Candidate, b: Candidate, d: Candidate,
      ids: seq<TokenId>, stale: set<TokenId>, m: nat) returns (calls: seq<Call>)
    requires call.candidates == [a, b, d] && a.token.id == 1 && b.token.id == 2 && d.token.id == 3
    requires a.token.stale && b.token.stale && d.token.stale && c.polling && !r.reserve
    requires ids == [1, 2, 3] && stale == {1, 2, 3} && call.valid == stale
    ensures |calls| == m + 1 && Refreshes(c, r, calls, None, ids, stale) && AllTo(c, r, calls, None, 1)
  {
    ThreeRows(call, a, b, d);
    assert Mixed(call, ids, stale);
    FirstOfThree(ids, stale);
    calls := MonopolyRun(c, r, call, None, ids, stale, 1, m);
  }

  lemma FirstOfThree(ids: seq<TokenId>, stale: set<TokenId>)
    requires ids == [1, 2, 3] && stale == {1, 2, 3}
    ensures Distinct(ids) && IdSet(ids) <= stale && Serves(IdSet(ids) * stale, Rotation.Select(ids, None), 1)
  {
    assert ids[0] in IdSet(ids) * stale;
  }
}
