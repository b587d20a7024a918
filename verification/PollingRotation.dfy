/** Polling mode (`call_logic_mode == "polling"` of src/services/load_balancer.py): the turn goes round the
    candidates by id, and the split that puts accounts needing no refresh first may take it away again. */
module PollingRotation {
  import opened Prelude
  import opened LexSort
  import opened Rotation
  import opened ConcurrencyManager
  import opened LoadBalancer

  function SortedIds(cs: seq<Candidate>): seq<TokenId> {
    Ids(Items(Sort(ById(cs))))
  }

  // ---------------------------------------------------------------- one call

  /** `x` needs a refresh or not, as said, and passes. */
  predicate Would(r: Request, l: Load, valid: set<TokenId>, stale: bool, x: Candidate) {
    x.token.stale == stale && Passes(r, l, valid, x)
  }

  function Passing(r: Request, l: Load, cs: seq<Candidate>, valid: set<TokenId>, stale: bool): set<TokenId> {
    set x | x in cs && Would(r, l, valid, stale, x) :: x.token.id
  }

  /** Those a call chooses among: while one that needs no refresh passes, none that needs one counts. */
  function Served(r: Request, l: Load, cs: seq<Candidate>, valid: set<TokenId>): set<TokenId> {
    if Passing(r, l, cs, valid, false) != {} then Passing(r, l, cs, valid, false) else Passing(r, l, cs, valid, true)
  }

  predicate Lowest(ids: set<TokenId>, id: TokenId) {
    id in ids && forall other :: other in ids ==> id <= other
  }

  /** The turn is served when it can be, and otherwise goes to the lowest that can. */
  predicate Serves(served: set<TokenId>, turn: TokenId, id: TokenId) {
    if turn in served then id == turn else Lowest(served, id)
  }

  lemma {:induction false} PassingAppend(r: Request, l: Load, valid: set<TokenId>, a: seq<Candidate>, b: seq<Candidate>)
    ensures FirstPassing(r, l, valid, a + b)
            == if FirstPassing(r, l, valid, a).Some? then FirstPassing(r, l, valid, a) else FirstPassing(r, l, valid, b)
  {
    if a == [] {
      assert a + b == b;
    } else {
      assert (a + b)[0] == a[0] && (a + b)[1..] == a[1..] + b;
      PassingAppend(r, l, valid, a[1..], b);
    }
  }

  /** The first of one freshness that passes. */
  function FirstOf(r: Request, l: Load, valid: set<TokenId>, cs: seq<Candidate>, stale: bool): Option<Candidate> {
    FirstPassing(r, l, valid, Pick(cs, stale))
  }

  lemma FirstOfCons(r: Request, l: Load, valid: set<TokenId>, cs: seq<Candidate>, stale: bool, x: Candidate,
      rest: seq<Candidate>)
    requires cs == [x] + rest
    ensures FirstOf(r, l, valid, cs, stale)
            == if Would(r, l, valid, stale, x) then Some(x) else FirstOf(r, l, valid, rest, stale)
  {
    assert cs[0] == x && cs[1..] == rest;
    if x.token.stale == stale {
      assert Pick(cs, stale) == [x] + Pick(rest, stale);
      assert Pick(cs, stale)[1..] == Pick(rest, stale);
    } else {
      assert Pick(cs, stale) == Pick(rest, stale);
    }
  }

  predicate Ascending(cs: seq<Candidate>) {
    forall i, j :: 0 <= i < j < |cs| ==> cs[i].token.id < cs[j].token.id
  }

  /** `x` is the one with the lowest id that would pass. */
  predicate Leads(r: Request, l: Load, valid: set<TokenId>, cs: seq<Candidate>, stale: bool, x: Option<Candidate>) {
    match x
    case None => forall i :: 0 <= i < |cs| ==> !Would(r, l, valid, stale, cs[i])
    case Some(y) =>
      && (exists i :: 0 <= i < |cs| && cs[i] == y) && Would(r, l, valid, stale, y)
      && forall i :: 0 <= i < |cs| && Would(r, l, valid, stale, cs[i]) ==> y.token.id <= cs[i].token.id
  }

  lemma LeadsCons(r: Request, l: Load, valid: set<TokenId>, cs: seq<Candidate>, stale: bool, x: Option<Candidate>)
    requires Ascending(cs) && cs != [] && Leads(r, l, valid, cs[1..], stale, x)
    ensures Leads(r, l, valid, cs, stale, if Would(r, l, valid, stale, cs[0]) then Some(cs[0]) else x)
  {
    forall i | 0 <= i < |cs| && i > 0 ensures cs[i] == cs[1..][i - 1] {
    }
    if !Would(r, l, valid, stale, cs[0]) && x.Some? {
      var k :| 0 <= k < |cs[1..]| && cs[1..][k] == x.value;
      assert cs[k + 1] == x.value;
    }
  }

  /** In id order the first that passes is the lowest. */
  lemma {:induction false} FirstIsLowest(r: Request, l: Load, valid: set<TokenId>, cs: seq<Candidate>, stale: bool)
    requires Ascending(cs)
    ensures Leads(r, l, valid, cs, stale, FirstOf(r, l, valid, cs, stale))
  {
    if cs != [] {
      FirstIsLowest(r, l, valid, cs[1..], stale);
      LeadsCons(r, l, valid, cs, stale, FirstOf(r, l, valid, cs[1..], stale));
      FirstOfCons(r, l, valid, cs, stale, cs[0], cs[1..]);
    }
  }

  /** Leaving out a candidate that would not be the answer changes nothing. */
  lemma {:induction false} FirstOfExcept(r: Request, l: Load, valid: set<TokenId>, cs: seq<Candidate>, id: TokenId,
      stale: bool)
    requires forall i :: 0 <= i < |cs| && cs[i].token.id == id ==> !Would(r, l, valid, stale, cs[i])
    ensures FirstOf(r, l, valid, Except(cs, id), stale) == FirstOf(r, l, valid, cs, stale)
  {
    if cs != [] {
      FirstOfExcept(r, l, valid, cs[1..], id, stale);
      FirstOfCons(r, l, valid, cs, stale, cs[0], cs[1..]);
      if cs[0].token.id != id {
        FirstOfCons(r, l, valid, Except(cs, id), stale, cs[0], Except(cs[1..], id));
      } else {
        assert Except(cs, id) == Except(cs[1..], id);
      }
    }
  }

  lemma {:induction false} SortedAscends(cs: seq<Candidate>)
    requires Distinct(SortedIds(cs))
    ensures Ascending(Items(Sort(ById(cs))))
  {
    var es := ById(cs);
    var sorted := Sort(es);
    SortSorts(es);
    SortMembers(es);
    forall i | 0 <= i < |sorted| ensures sorted[i].key == [sorted[i].item.token.id] {
      assert sorted[i] in es;
    }
    forall i, j | 0 <= i < j < |sorted| ensures sorted[i].item.token.id < sorted[j].item.token.id {
      LexHead(sorted[i].key, sorted[j].key);
      assert SortedIds(cs)[i] != SortedIds(cs)[j];
    }
  }

  /** The answer when candidate `k` has the turn and the others follow by id. */
  lemma TurnFirst(r: Request, l: Load, valid: set<TokenId>, sorted: seq<Candidate>, k: nat, stale: bool)
    requires Ascending(sorted) && k < |sorted|
    ensures var x := FirstOf(r, l, valid, [sorted[k]] + Except(sorted, sorted[k].token.id), stale);
            if Would(r, l, valid, stale, sorted[k]) then x == Some(sorted[k]) else Leads(r, l, valid, sorted, stale, x)
  {
    var first := sorted[k];
    var rest := Except(sorted, first.token.id);
    FirstOfCons(r, l, valid, [first] + rest, stale, first, rest);
    if !Would(r, l, valid, stale, first) {
      FirstIsLowest(r, l, valid, sorted, stale);
      FirstOfExcept(r, l, valid, sorted, first.token.id, stale);
    }
  }

  lemma PassingHas(r: Request, l: Load, valid: set<TokenId>, sorted: seq<Candidate>, k: nat, stale: bool)
    requires Ascending(sorted) && k < |sorted|
    ensures sorted[k].token.id in Passing(r, l, sorted, valid, stale) <==> Would(r, l, valid, stale, sorted[k])
  {
    if Would(r, l, valid, stale, sorted[k]) {
      assert sorted[k] in sorted;
    }
  }

  lemma TurnServes(r: Request, l: Load, valid: set<TokenId>, sorted: seq<Candidate>, k: nat, stale: bool)
    requires Ascending(sorted) && k < |sorted|
    ensures var x := FirstOf(r, l, valid, [sorted[k]] + Except(sorted, sorted[k].token.id), stale);
            var ids := Passing(r, l, sorted, valid, stale);
            (x.None? <==> ids == {}) && (x.Some? ==> Serves(ids, sorted[k].token.id, x.value.token.id))
  {
    TurnFirst(r, l, valid, sorted, k, stale);
    PassingHas(r, l, valid, sorted, k, stale);
    if !Would(r, l, valid, stale, sorted[k]) {
      LeadsLowest(r, l, valid, sorted, stale,
                  FirstOf(r, l, valid, [sorted[k]] + Except(sorted, sorted[k].token.id), stale));
    }
  }

  lemma LeadsLowest(r: Request, l: Load, valid: set<TokenId>, cs: seq<Candidate>, stale: bool, x: Option<Candidate>)
    requires Leads(r, l, valid, cs, stale, x)
    ensures var ids := Passing(r, l, cs, valid, stale);
            (x.None? <==> ids == {}) && (x.Some? ==> Lowest(ids, x.value.token.id))
  {
    if x.Some? {
      assert x.value.token.id in Passing(r, l, cs, valid, stale);
    }
  }

  lemma SamePassing(r: Request, l: Load, valid: set<TokenId>, cs: seq<Candidate>, sorted: seq<Candidate>, stale: bool)
    requires forall x :: x in sorted <==> x in cs
    ensures Passing(r, l, sorted, valid, stale) == Passing(r, l, cs, valid, stale)
  {
  }

  /** One polling call, whatever it reserves and whoever fails: the memory moves to the account whose turn
      it is; that account is chosen if it is served, and otherwise the lowest id that is. */
  lemma PollingTurn(c: Config, r: Request, l: Load, cs: seq<Candidate>, valid: set<TokenId>, last: Option<TokenId>)
    requires c.polling && cs != [] && Distinct(SortedIds(cs))
    ensures var (x, next) := Selection(c, r, l, cs, valid, last);
            var turn, served := Rotation.Select(SortedIds(cs), last), Served(r, l, cs, valid);
            && next == Some(turn)
            && (x.None? <==> served == {})
            && (x.Some? ==> Serves(served, turn, x.value.token.id))
  {
    var sorted := Items(Sort(ById(cs)));
    var first := sorted[NextIndex(Ids(sorted), last)];
    var order := [first] + Except(sorted, first.token.id);
    SortedAscends(cs);
    SameMembers(ById(cs), cs);
    SamePassing(r, l, valid, cs, sorted, false);
    SamePassing(r, l, valid, cs, sorted, true);
    TurnServes(r, l, valid, sorted, NextIndex(Ids(sorted), last), false);
    TurnServes(r, l, valid, sorted, NextIndex(Ids(sorted), last), true);
    FreshFirstPartitions(order);
    PassingAppend(r, l, valid, Pick(order, false), Pick(order, true));
  }

  // ---------------------------------------------------------------- runs

  /** What one call reads, and which refreshes would succeed; all of it differs from call to call. */
  datatype Call = Call(load: Load, candidates: seq<Candidate>, valid: set<TokenId>)

  /** The ids chosen by successive selections. */
  function Chosen(c: Config, r: Request, calls: seq<Call>, last: Option<TokenId>): seq<TokenId>
    decreases |calls|
  {
    if calls == [] then []
    else
      var (x, next) := Selection(c, r, calls[0].load, calls[0].candidates, calls[0].valid, last);
      (match x case None => [] case Some(y) => [y.token.id]) + Chosen(c, r, calls[1..], next)
  }

  ghost function LowestOf(ids: set<TokenId>): (id: TokenId)
    requires ids != {}
    ensures Lowest(ids, id)
    decreases |ids|
  {
    var x :| x in ids;
    if ids == {x} then x
    else
      var y := LowestOf(ids - {x});
      assert forall other :: other in ids ==> other == x || other in ids - {x};
      if x < y then x else y
  }

  /** What each call makes of its turn: the account itself if the call serves it, the lowest it does serve
      otherwise, and nothing when it serves none. */
  ghost function Answers(r: Request, calls: seq<Call>, turns: seq<TokenId>): seq<TokenId>
    requires |turns| == |calls|
    decreases |calls|
  {
    if calls == [] then []
    else
      var served := Served(r, calls[0].load, calls[0].candidates, calls[0].valid);
      (if served == {} then [] else [if turns[0] in served then turns[0] else LowestOf(served)])
          + Answers(r, calls[1..], turns[1..])
  }

  predicate AllOver(calls: seq<Call>, ids: seq<TokenId>)
    decreases |calls|
  {
    calls == [] || (SortedIds(calls[0].candidates) == ids && AllOver(calls[1..], ids))
  }

  ghost predicate AnswersTurns(c: Config, r: Request, calls: seq<Call>, last: Option<TokenId>,
      ids: seq<TokenId>)
    requires ids != []
  {
    Chosen(c, r, calls, last) == Answers(r, calls, Picks(ids, last, |calls|))
  }

  lemma LowestUnique(ids: set<TokenId>, a: TokenId, b: TokenId)
    requires Lowest(ids, a) && Lowest(ids, b)
    ensures a == b
  {
  }

  lemma NextAnswers(c: Config, r: Request, calls: seq<Call>, last: Option<TokenId>,
      ids: seq<TokenId>, turn: TokenId, served: set<TokenId>)
    requires calls != [] && ids != [] && turn == Rotation.Select(ids, last)
    requires served == Served(r, calls[0].load, calls[0].candidates, calls[0].valid)
    requires var (x, next) := Selection(c, r, calls[0].load, calls[0].candidates, calls[0].valid, last);
             && next == Some(turn) && (x.None? <==> served == {})
             && (x.Some? ==> x.value.token.id == if turn in served then turn else LowestOf(served))
    requires AnswersTurns(c, r, calls[1..], Some(turn), ids)
    ensures AnswersTurns(c, r, calls, last, ids)
  {
    assert Picks(ids, last, |calls|)[1..] == Picks(ids, Some(turn), |calls| - 1);
  }

  /** Over a fixed set of accounts the turn goes round by id, whatever the loads, refreshes, reservations and
      failures: the choices are the calls' answers to the turns of the rotation. */
  lemma {:induction false} PollingIsRotation(c: Config, r: Request, calls: seq<Call>,
      last: Option<TokenId>, ids: seq<TokenId>)
    requires c.polling && ids != [] && Distinct(ids) && AllOver(calls, ids)
    ensures AnswersTurns(c, r, calls, last, ids)
    decreases |calls|
  {
    if calls != [] {
      var turn: TokenId := Rotation.Select(ids, last);
      var served := Served(r, calls[0].load, calls[0].candidates, calls[0].valid);
      PollingTurn(c, r, calls[0].load, calls[0].candidates, calls[0].valid, last);
      if served != {} && turn !in served {
        var (x, _) := Selection(c, r, calls[0].load, calls[0].candidates, calls[0].valid, last);
        LowestUnique(served, x.value.token.id, LowestOf(served));
      }
      PollingIsRotation(c, r, calls[1..], Some(turn), ids);
      NextAnswers(c, r, calls, last, ids, turn, served);
    }
  }

  // ---------------------------------------------------------------- runs that serve the same accounts

  /** A call over the accounts `ids` that serves exactly `served`. */
  predicate Offers(r: Request, call: Call, ids: seq<TokenId>, served: set<TokenId>) {
    SortedIds(call.candidates) == ids && Served(r, call.load, call.candidates, call.valid) == served
  }

  predicate AllOffer(r: Request, calls: seq<Call>, ids: seq<TokenId>, served: set<TokenId>)
    decreases |calls|
  {
    calls == [] || (Offers(r, calls[0], ids, served) && AllOffer(r, calls[1..], ids, served))
  }

  /** Turns of accounts that are not served go to `low`. */
  function Redirect(turns: seq<TokenId>, served: set<TokenId>, low: TokenId): seq<TokenId> {
    if turns == [] then [] else [if turns[0] in served then turns[0] else low] + Redirect(turns[1..], served, low)
  }

  lemma TurnTaken(c: Config, r: Request, call: Call, last: Option<TokenId>,
      ids: seq<TokenId>, served: set<TokenId>, low: TokenId)
    requires c.polling && Offers(r, call, ids, served) && ids != [] && Distinct(ids) && Lowest(served, low)
    ensures var (x, next) := Selection(c, r, call.load, call.candidates, call.valid, last);
            var turn := Rotation.Select(ids, last);
            next == Some(turn) && x.Some? && x.value.token.id == if turn in served then turn else low
  {
    PollingTurn(c, r, call.load, call.candidates, call.valid, last);
  }

  /** The choices are the rotation by id with the turns of accounts that are not served redirected. */
  predicate Rotates(c: Config, r: Request, calls: seq<Call>, last: Option<TokenId>,
      ids: seq<TokenId>, served: set<TokenId>, low: TokenId)
    requires ids != []
  {
    Chosen(c, r, calls, last) == Redirect(Picks(ids, last, |calls|), served, low)
  }

  lemma NextRotates(c: Config, r: Request, calls: seq<Call>, last: Option<TokenId>,
      ids: seq<TokenId>, served: set<TokenId>, low: TokenId, turn: TokenId)
    requires calls != [] && ids != [] && turn == Rotation.Select(ids, last)
    requires var (x, next) := Selection(c, r, calls[0].load, calls[0].candidates, calls[0].valid, last);
             x.Some? && x.value.token.id == (if turn in served then turn else low) && next == Some(turn)
    requires Rotates(c, r, calls[1..], Some(turn), ids, served, low)
    ensures Rotates(c, r, calls, last, ids, served, low)
  {
    NextPicks(ids, last, |calls|, served, low, turn);
  }

  lemma NextPicks(ids: seq<TokenId>, last: Option<TokenId>, m: nat, served: set<TokenId>, low: TokenId, x: TokenId)
    requires ids != [] && m > 0 && x == Rotation.Select(ids, last)
    ensures Redirect(Picks(ids, last, m), served, low)
            == [if x in served then x else low] + Redirect(Picks(ids, Some(x), m - 1), served, low)
  {
    assert Picks(ids, last, m)[1..] == Picks(ids, Some(x), m - 1);
  }

  /** Where the same accounts are served at each call, successive selections are the rotation by id with the
      turns of the others redirected to the lowest that is served. */
  lemma {:induction false} FixedRotates(c: Config, r: Request, calls: seq<Call>,
      last: Option<TokenId>, ids: seq<TokenId>, served: set<TokenId>, low: TokenId)
    requires c.polling && ids != [] && Distinct(ids) && AllOffer(r, calls, ids, served) && Lowest(served, low)
    ensures Rotates(c, r, calls, last, ids, served, low)
    decreases |calls|
  {
    if calls != [] {
      var turn: TokenId := Rotation.Select(ids, last);
      TurnTaken(c, r, calls[0], last, ids, served, low);
      FixedRotates(c, r, calls[1..], Some(turn), ids, served, low);
      NextRotates(c, r, calls, last, ids, served, low, turn);
    }
  }

  // ---------------------------------------------------------------- who gets how much

  lemma OwnTurns(ids: seq<TokenId>, last: Option<TokenId>, m: nat, id: TokenId)
    requires Distinct(ids) && id in ids
    ensures FairShare(Rotation.Count(id, Picks(ids, last, m)), m, |ids|)
  {
    Fair(ids, last, m, id);
  }

  /** How many of the turns are not served. */
  function Missed(turns: seq<TokenId>, served: set<TokenId>): nat {
    if turns == [] then 0 else (if turns[0] in served then 0 else 1) + Missed(turns[1..], served)
  }

  /** What account `id` gets of the selections when these are the `turns`. */
  function ShareOf(id: TokenId, turns: seq<TokenId>, served: set<TokenId>, low: TokenId): nat {
    if id == low then Rotation.Count(id, turns) + Missed(turns, served)
    else if id in served then Rotation.Count(id, turns)
    else 0
  }

  lemma {:induction false} RedirectCounts(turns: seq<TokenId>, served: set<TokenId>, low: TokenId, id: TokenId)
    requires low in served
    ensures Rotation.Count(id, Redirect(turns, served, low)) == ShareOf(id, turns, served, low)
  {
    if turns != [] {
      RedirectCounts(turns[1..], served, low, id);
      assert Redirect(turns, served, low)[1..] == Redirect(turns[1..], served, low);
    }
  }

  /** Where no refresh and no reservation changes which accounts are served, in any m calls over n accounts: each
      has floor(m/n) or ceil(m/n) turns; one that is not served is never chosen, one that is gets its turns, and
      the lowest of those gets all the missed turns besides. */
  lemma PollingShares(c: Config, r: Request, calls: seq<Call>, last: Option<TokenId>,
      ids: seq<TokenId>, served: set<TokenId>, low: TokenId, id: TokenId)
    requires c.polling && Distinct(ids) && AllOffer(r, calls, ids, served) && Lowest(served, low) && id in ids
    ensures var turns := Picks(ids, last, |calls|);
            && FairShare(Rotation.Count(id, turns), |calls|, |ids|)
            && Rotation.Count(id, Chosen(c, r, calls, last)) == ShareOf(id, turns, served, low)
  {
    FixedRotates(c, r, calls, last, ids, served, low);
    RedirectCounts(Picks(ids, last, |calls|), served, low, id);
    OwnTurns(ids, last, |calls|, id);
  }

  // ---------------------------------------------------------------- when it is fair

  /** Each account of `among` has its fair part of the `m` selections. */
  predicate Even(chosen: seq<TokenId>, m: nat, among: set<TokenId>)
    requires among != {}
  {
    forall id :: id in among ==> FairShare(Rotation.Count(id, chosen), m, |among|)
  }

  function IdSet(ids: seq<TokenId>): set<TokenId> {
    set id | id in ids
  }

  lemma {:induction false} NothingRedirected(turns: seq<TokenId>, served: set<TokenId>, low: TokenId)
    requires forall i :: 0 <= i < |turns| ==> turns[i] in served
    ensures Redirect(turns, served, low) == turns
  {
    if turns != [] {
      NothingRedirected(turns[1..], served, low);
    }
  }

  lemma {:induction false} AllRedirected(turns: seq<TokenId>, low: TokenId)
    ensures Rotation.Count(low, Redirect(turns, {low}, low)) == |turns|
  {
    if turns != [] {
      AllRedirected(turns[1..], low);
      assert Redirect(turns, {low}, low)[1..] == Redirect(turns[1..], {low}, low);
    }
  }

  lemma {:induction false} PicksListed(ids: seq<TokenId>, last: Option<TokenId>, m: nat)
    requires ids != []
    ensures forall i :: 0 <= i < m ==> Picks(ids, last, m)[i] in ids
    decreases m
  {
    if m > 0 {
      PicksListed(ids, Some(Rotation.Select(ids, last)), m - 1);
    }
  }

  /** Among accounts that include all the served ones it is fair over every number of calls exactly when all
      of them are served, and either none is passed over or only one is in question. */
  predicate FairCase(ids: seq<TokenId>, served: set<TokenId>, among: set<TokenId>) {
    among == served && (among == IdSet(ids) || |among| == 1)
  }

  lemma FairWhen(ids: seq<TokenId>, last: Option<TokenId>, m: nat, served: set<TokenId>, low: TokenId)
    requires ids != [] && Distinct(ids) && Lowest(served, low) && FairCase(ids, served, served)
    ensures Even(Redirect(Picks(ids, last, m), served, low), m, served)
  {
    if served == IdSet(ids) {
      DistinctSize(ids);
      PicksListed(ids, last, m);
      NothingRedirected(Picks(ids, last, m), served, low);
      forall id | id in served ensures FairShare(Rotation.Count(id, Picks(ids, last, m)), m, |ids|) {
        OwnTurns(ids, last, m, id);
      }
    } else {
      OnlyMember(served, low);
      AllRedirected(Picks(ids, last, m), low);
    }
  }

  lemma OnlyMember(served: set<TokenId>, low: TokenId)
    requires low in served && |served| == 1
    ensures served == {low}
  {
    assert |served - {low}| == 0;
  }

  /** Otherwise this many calls give it away: one for each account in question when one of them is never
      served, and otherwise as many rounds. */
  function Telling(ids: seq<TokenId>, served: set<TokenId>, among: set<TokenId>): nat {
    if among == served then |ids| * |among| else |among|
  }

  lemma UnfairWhen(ids: seq<TokenId>, last: Option<TokenId>, served: set<TokenId>, low: TokenId, among: set<TokenId>)
    requires ids != [] && Distinct(ids) && Lowest(served, low) && served <= among <= IdSet(ids)
    requires !FairCase(ids, served, among)
    ensures var m := Telling(ids, served, among); !Even(Redirect(Picks(ids, last, m), served, low), m, among)
  {
    var m := Telling(ids, served, among);
    var turns := Picks(ids, last, m);
    if among != served {
      var id :| id in among && id !in served;
      RedirectCounts(turns, served, low, id);
      assert m / |among| == 1;
    } else {
      var id := Another(among, low);
      RedirectCounts(turns, served, low, id);
      DistinctSize(ids);
      ProperSize(among, IdSet(ids));
      WholeRounds(ids, last, |among|, id);
      QuotientAtLeast(|ids|, m, |among|);
    }
  }

  lemma Another(among: set<TokenId>, low: TokenId) returns (id: TokenId)
    requires low in among && |among| != 1
    ensures id in among && id != low
  {
    if among == {low} {
      assert false;
    }
    id :| id in among && id != low;
  }

  lemma ProperSize(a: set<TokenId>, b: set<TokenId>)
    requires a <= b && a != b
    ensures |a| < |b|
  {
    var x :| x in b && x !in a;
    SubsetSize(a + {x}, b);
  }

  lemma WholeRounds(ids: seq<TokenId>, last: Option<TokenId>, k: nat, id: TokenId)
    requires Distinct(ids) && id in ids
    ensures Rotation.Count(id, Picks(ids, last, |ids| * k)) <= k
  {
    OwnTurns(ids, last, |ids| * k, id);
    RoundsQuotient(|ids|, k, |ids| * k);
  }

  lemma RoundsQuotient(n: nat, k: nat, m: nat)
    requires n > 0 && m == n * k
    ensures (m + n - 1) / n <= k
  {
    assert m == k * n;
    QuotientAtMost(k, m + n - 1, n);
  }

  // ---------------------------------------------------------------- fair runs

  lemma FairRun(c: Config, r: Request, calls: seq<Call>, last: Option<TokenId>,
      ids: seq<TokenId>, served: set<TokenId>, low: TokenId)
    requires c.polling && ids != [] && Distinct(ids) && AllOffer(r, calls, ids, served) && Lowest(served, low)
    requires FairCase(ids, served, served)
    ensures Even(Chosen(c, r, calls, last), |calls|, served)
  {
    FixedRotates(c, r, calls, last, ids, served, low);
    FairWhen(ids, last, |calls|, served, low);
  }

  function Repeated(call: Call, m: nat): (calls: seq<Call>)
    ensures |calls| == m
  {
    if m == 0 then [] else [call] + Repeated(call, m - 1)
  }

  lemma {:induction false} RepeatedOffers(r: Request, call: Call, ids: seq<TokenId>,
      served: set<TokenId>, m: nat)
    requires Offers(r, call, ids, served)
    ensures AllOffer(r, Repeated(call, m), ids, served)
  {
    if m > 0 {
      RepeatedOffers(r, call, ids, served, m - 1);
      assert Repeated(call, m)[1..] == Repeated(call, m - 1);
    }
  }

  lemma UnfairRun(c: Config, r: Request, call: Call, last: Option<TokenId>,
      ids: seq<TokenId>, served: set<TokenId>, low: TokenId, among: set<TokenId>)
    requires c.polling && ids != [] && Distinct(ids) && Offers(r, call, ids, served) && Lowest(served, low)
    requires served <= among <= IdSet(ids) && !FairCase(ids, served, among)
    ensures var m := Telling(ids, served, among);
            !Even(Chosen(c, r, Repeated(call, m), last), m, among)
  {
    var m := Telling(ids, served, among);
    RepeatedOffers(r, call, ids, served, m);
    FixedRotates(c, r, Repeated(call, m), last, ids, served, low);
    UnfairWhen(ids, last, served, low, among);
  }

  /** Where each call serves the same accounts, so that no refresh takes effect in between, polling is fair
      among any accounts that include these, in every run, exactly when all of them are served and either no
      account at all is passed over or only one is in question. */
  lemma PollingFairIff(c: Config, r: Request, call: Call, last: Option<TokenId>,
      ids: seq<TokenId>, served: set<TokenId>, low: TokenId, among: set<TokenId>)
    requires c.polling && ids != [] && Distinct(ids) && Offers(r, call, ids, served) && Lowest(served, low)
    requires served <= among <= IdSet(ids)
    ensures (forall calls :: AllOffer(r, calls, ids, served) ==>
                Even(Chosen(c, r, calls, last), |calls|, among))
            <==> FairCase(ids, served, among)
  {
    if FairCase(ids, served, among) {
      forall calls | AllOffer(r, calls, ids, served)
        ensures Even(Chosen(c, r, calls, last), |calls|, among)
      {
        FairRun(c, r, calls, last, ids, served, low);
      }
    } else {
      var m := Telling(ids, served, among);
      UnfairRun(c, r, call, last, ids, served, low, among);
      RepeatedOffers(r, call, ids, served, m);
    }
  }

  // ---------------------------------------------------------------- distinct ids stay distinct when sorted

  predicate Apart(es: seq<Keyed<Candidate>>) {
    forall i, j :: 0 <= i < j < |es| ==> es[i].item.token.id != es[j].item.token.id
  }

  lemma {:induction false} InsertApart(x: Keyed<Candidate>, es: seq<Keyed<Candidate>>)
    requires Apart(es) && forall i :: 0 <= i < |es| ==> es[i].item.token.id != x.item.token.id
    ensures Apart(Insert(x, es))
  {
    if es != [] && !LexLeq(x.key, es[0].key) {
      InsertApart(x, es[1..]);
      forall i | 0 <= i < |es| ensures Insert(x, es[1..])[i].item.token.id != es[0].item.token.id {
        InsertEntry(x, es[1..], i);
      }
    }
  }

  lemma {:induction false} SortApart(es: seq<Keyed<Candidate>>)
    requires Apart(es)
    ensures Apart(Sort(es))
  {
    if es != [] {
      var rest := Sort(es[1..]);
      SortApart(es[1..]);
      SortMembers(es[1..]);
      forall i | 0 <= i < |rest| ensures rest[i].item.token.id != es[0].item.token.id {
        assert rest[i] in Sort(es[1..]);
      }
      InsertApart(es[0], rest);
    }
  }

  lemma SortedDistinct(cs: seq<Candidate>)
    requires DistinctIds(cs)
    ensures Distinct(SortedIds(cs))
  {
    forall i, j | 0 <= i < j < |cs| ensures cs[i].token.id != cs[j].token.id {
      assert Ids(cs)[i] != Ids(cs)[j];
    }
    SortApart(ById(cs));
  }
}
