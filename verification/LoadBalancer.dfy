/** Choosing an account for a request (src/services/load_balancer.py). */
module LoadBalancer {
  import opened Prelude
  import opened LexSort
  import opened Rotation
  import opened AccountTiers
  import opened ConcurrencyManager

  /** An account row. `stale` says its access token needs refreshing before use. */
  datatype Token = Token(
    id: TokenId, tier: Option<string>, credits: Option<int>, imageEnabled: bool, videoEnabled: bool,
    stale: bool, quotaMarkedAt: Option<int>, quotaCredits: Option<int>)

  datatype Config = Config(minCredits: int, quotaCooldown: int, polling: bool, preferHigherTier: bool)

  /** What the request asks for; `enforce` and `reserve` are the caller's options. */
  datatype Request = Request(
    forImage: bool, forVideo: bool, model: Option<string>, reserve: bool, enforce: bool, track: bool)

  /** Selections counted but not yet finished, by kind. */
  datatype Pending = Pending(image: map<TokenId, int>, video: map<TokenId, int>)

  /** What the selection reads: both counters, pending, the clock. */
  datatype Load = Load(image: Slots, video: Slots, pending: Pending, now: int)

  datatype Candidate = Candidate(token: Token, inflight: int, remaining: Option<int>, saturated: bool, roll: int)

  // ---------------------------------------------------------------- pending counts

  function Counted(m: map<TokenId, int>, id: TokenId): int {
    Max(0, if id in m then m[id] else 0)
  }

  function Raise(m: map<TokenId, int>, id: TokenId): map<TokenId, int> {
    m[id := Counted(m, id) + 1]
  }

  function Lower(m: map<TokenId, int>, id: TokenId): map<TokenId, int> {
    if Counted(m, id) <= 1 then m - {id} else m[id := Counted(m, id) - 1]
  }

  function AddPending(p: Pending, id: TokenId, forImage: bool, forVideo: bool): Pending {
    if forImage then p.(image := Raise(p.image, id)) else if forVideo then p.(video := Raise(p.video, id)) else p
  }

  function ReleasePending(p: Pending, id: TokenId, forImage: bool, forVideo: bool): Pending {
    if forImage then p.(image := Lower(p.image, id)) else if forVideo then p.(video := Lower(p.video, id)) else p
  }

  // ---------------------------------------------------------------- filtering

  /** A quota mark keeps the account out until it expires or credits rise above its ceiling. */
  predicate QuotaExcludes(c: Config, t: Token, now: int) {
    && t.quotaMarkedAt.Some? && now - t.quotaMarkedAt.value < c.quotaCooldown
    && t.credits.GetOr(0) <= Max(t.quotaCredits.GetOr(0), c.minCredits)
  }

  predicate Eligible(c: Config, r: Request, l: Load, t: Token) {
    && (r.model.GetOr("") != "" ==> Supports(r.model, Some(NormalizeTier(t.tier))))
    && (t.credits.Some? ==> t.credits.value > c.minCredits)
    && !QuotaExcludes(c, t, l.now)
    && (r.forImage ==> t.imageEnabled && (r.enforce ==> CanUse(l.image, t.id)))
    && (r.forVideo ==> t.videoEnabled && (r.enforce ==> CanUse(l.video, t.id)))
  }

  /** In-flight plus pending, and the slots they leave. */
  function TokenLoad(r: Request, l: Load, id: TokenId): (int, Option<int>) {
    if r.forImage then WithPending(l.image, Counted(l.pending.image, id), id)
    else if r.forVideo then WithPending(l.video, Counted(l.pending.video, id), id)
    else (0, None)
  }

  function WithPending(s: Slots, pending: int, id: TokenId): (int, Option<int>) {
    (InFlight(s, id) + pending,
     match Remaining(s, id) case None => None case Some(n) => Some(Max(0, n - pending)))
  }

  function CandidateFor(r: Request, l: Load, t: Token, roll: int): Candidate {
    var (inflight, remaining) := TokenLoad(r, l, t.id);
    Candidate(t, inflight, remaining, remaining.Some? && remaining.value <= 0, roll)
  }

  /** The eligible accounts with their loads, in the order listed. */
  function Candidates(c: Config, r: Request, l: Load, tokens: seq<Token>, rolls: seq<int>): (cs: seq<Candidate>)
    requires |rolls| == |tokens|
    ensures forall x :: x in cs ==> x.token in tokens
  {
    if tokens == [] then []
    else
      var n := |tokens| - 1;
      var before := Candidates(c, r, l, tokens[..n], rolls[..n]);
      if Eligible(c, r, l, tokens[n]) then before + [CandidateFor(r, l, tokens[n], rolls[n])] else before
  }

  lemma {:induction false} CandidatesAreEligible(c: Config, r: Request, l: Load, tokens: seq<Token>, rolls: seq<int>,
      x: Candidate)
    requires |rolls| == |tokens|
    ensures x in Candidates(c, r, l, tokens, rolls) ==>
              exists k :: 0 <= k < |tokens| && Eligible(c, r, l, tokens[k]) && x == CandidateFor(r, l, tokens[k], rolls[k])
  {
    if tokens != [] {
      var n := |tokens| - 1;
      CandidatesAreEligible(c, r, l, tokens[..n], rolls[..n], x);
      if x in Candidates(c, r, l, tokens[..n], rolls[..n]) {
        var k :| 0 <= k < n && Eligible(c, r, l, tokens[..n][k]) && x == CandidateFor(r, l, tokens[..n][k], rolls[..n][k]);
        assert x == CandidateFor(r, l, tokens[k], rolls[k]);
      }
    }
  }

  lemma {:induction false} EligibleAreCandidates(c: Config, r: Request, l: Load, tokens: seq<Token>, rolls: seq<int>,
      k: nat)
    requires |rolls| == |tokens| && k < |tokens| && Eligible(c, r, l, tokens[k])
    ensures CandidateFor(r, l, tokens[k], rolls[k]) in Candidates(c, r, l, tokens, rolls)
  {
    var n := |tokens| - 1;
    if k < n {
      EligibleAreCandidates(c, r, l, tokens[..n], rolls[..n], k);
    }
  }

  // ---------------------------------------------------------------- ordering

  function Bit(b: bool): int {
    if b then 1 else 0
  }

  function TierKey(c: Config, r: Request, t: Token): int {
    if !c.preferHigherTier then 0
    else if r.forImage && RequiredTier(r.model) == TIER_ONE then TierRank(t.tier)
    else -TierRank(t.tier)
  }

  /** Fresh token, room left, tier, then the load. */
  function Key(c: Config, r: Request, x: Candidate): seq<int> {
    [Bit(x.token.stale)] + ([Bit(x.saturated)] + ([TierKey(c, r, x.token)] + LoadKey(x)))
  }

  /** Least loaded, unlimited, most room, random. */
  function LoadKey(x: Candidate): seq<int> {
    [x.inflight] + ([Bit(x.remaining.Some?)] + ([-x.remaining.GetOr(0)] + [x.roll]))
  }

  // ---------------------------------------------------------------- what the key means

  /** `x` is preferred to `y`: one that needs no refresh, then one with room, then the better tier, the
      smaller load, an unlimited account, more room left, and the luck of the draw. */
  predicate Better(c: Config, r: Request, x: Candidate, y: Candidate) {
    if x.token.stale != y.token.stale then y.token.stale
    else if x.saturated != y.saturated then y.saturated
    else if c.preferHigherTier && TierRank(x.token.tier) != TierRank(y.token.tier) then
      // a model any paid tier can run goes to the lower one that suffices
      if r.forImage && RequiredTier(r.model) == TIER_ONE then TierRank(x.token.tier) < TierRank(y.token.tier)
      else TierRank(x.token.tier) > TierRank(y.token.tier)
    else BetterLoad(x, y)
  }

  predicate BetterLoad(x: Candidate, y: Candidate) {
    if x.inflight != y.inflight then x.inflight < y.inflight
    else if x.remaining.None? != y.remaining.None? then x.remaining.None?
    else if x.remaining.Some? && x.remaining != y.remaining then x.remaining.value > y.remaining.value
    else x.roll < y.roll
  }

  lemma LoadKeyOrder(x: Candidate, y: Candidate)
    ensures LexLess(LoadKey(x), LoadKey(y)) <==> BetterLoad(x, y)
  {
    LexCons(x.roll, y.roll, [], []);
    assert [x.roll] + [] == [x.roll] && [y.roll] + [] == [y.roll];
    LexCons(-x.remaining.GetOr(0), -y.remaining.GetOr(0), [x.roll], [y.roll]);
    LexCons(Bit(x.remaining.Some?), Bit(y.remaining.Some?), [-x.remaining.GetOr(0)] + [x.roll], [-y.remaining.GetOr(0)] + [y.roll]);
    LexCons(x.inflight, y.inflight, [Bit(x.remaining.Some?)] + ([-x.remaining.GetOr(0)] + [x.roll]),
        [Bit(y.remaining.Some?)] + ([-y.remaining.GetOr(0)] + [y.roll]));
  }

  /** Comparing keys is exactly that preference. */
  lemma KeyOrder(c: Config, r: Request, x: Candidate, y: Candidate)
    ensures LexLess(Key(c, r, x), Key(c, r, y)) <==> Better(c, r, x, y)
  {
    LoadKeyOrder(x, y);
    var tx, ty := [TierKey(c, r, x.token)] + LoadKey(x), [TierKey(c, r, y.token)] + LoadKey(y);
    LexCons(TierKey(c, r, x.token), TierKey(c, r, y.token), LoadKey(x), LoadKey(y));
    LexCons(Bit(x.saturated), Bit(y.saturated), tx, ty);
    LexCons(Bit(x.token.stale), Bit(y.token.stale), [Bit(x.saturated)] + tx, [Bit(y.saturated)] + ty);
  }

  function Entries(c: Config, r: Request, cs: seq<Candidate>): (es: seq<Keyed<Candidate>>)
    ensures |es| == |cs| && forall i :: 0 <= i < |cs| ==> es[i] == Keyed(Key(c, r, cs[i]), cs[i])
  {
    if cs == [] then [] else [Keyed(Key(c, r, cs[0]), cs[0])] + Entries(c, r, cs[1..])
  }

  function ById(cs: seq<Candidate>): (es: seq<Keyed<Candidate>>)
    ensures |es| == |cs| && forall i :: 0 <= i < |cs| ==> es[i] == Keyed([cs[i].token.id], cs[i])
  {
    if cs == [] then [] else [Keyed([cs[0].token.id as int], cs[0])] + ById(cs[1..])
  }

  function Ids(cs: seq<Candidate>): (ids: seq<TokenId>)
    ensures |ids| == |cs| && forall i :: 0 <= i < |cs| ==> ids[i] == cs[i].token.id
  {
    if cs == [] then [] else [cs[0].token.id] + Ids(cs[1..])
  }

  /** The members that need, or do not need, a refresh, in the order given. */
  function Pick(cs: seq<Candidate>, stale: bool): seq<Candidate> {
    if cs == [] then []
    else (if cs[0].token.stale == stale then [cs[0]] else []) + Pick(cs[1..], stale)
  }

  lemma {:induction false} PickMembers(cs: seq<Candidate>, stale: bool)
    ensures forall x :: x in Pick(cs, stale) <==> x in cs && x.token.stale == stale
  {
    if cs != [] {
      assert cs == [cs[0]] + cs[1..];
      PickMembers(cs[1..], stale);
    }
  }

  function Except(cs: seq<Candidate>, id: TokenId): seq<Candidate> {
    if cs == [] then []
    else (if cs[0].token.id != id then [cs[0]] else []) + Except(cs[1..], id)
  }

  lemma {:induction false} ExceptMembers(cs: seq<Candidate>, id: TokenId)
    ensures forall x :: x in Except(cs, id) <==> x in cs && x.token.id != id
  {
    if cs != [] {
      assert cs == [cs[0]] + cs[1..];
      ExceptMembers(cs[1..], id);
    }
  }

  /** The one whose turn it is, then the others by id. */
  function PollingOrder(cs: seq<Candidate>, last: Option<TokenId>): seq<Candidate> {
    if cs == [] then []
    else
      var sorted := Items(Sort(ById(cs)));
      var first := sorted[NextIndex(Ids(sorted), last)];
      [first] + Except(sorted, first.token.id)
  }

  function DefaultOrder(c: Config, r: Request, cs: seq<Candidate>): seq<Candidate> {
    Items(Sort(Entries(c, r, cs)))
  }

  function FreshFirst(cs: seq<Candidate>): seq<Candidate> {
    if Pick(cs, false) != [] && Pick(cs, true) != [] then Pick(cs, false) + Pick(cs, true) else cs
  }

  function Attempts(c: Config, r: Request, cs: seq<Candidate>, last: Option<TokenId>): seq<Candidate> {
    FreshFirst(if c.polling then PollingOrder(cs, last) else DefaultOrder(c, r, cs))
  }

  // ---------------------------------------------------------------- trying

  /** `valid` are the accounts whose refresh would succeed, if they need one. */
  predicate Passes(r: Request, l: Load, valid: set<TokenId>, x: Candidate) {
    (x.token.stale ==> x.token.id in valid) && CanReserve(r, l, x.token.id)
  }

  predicate CanReserve(r: Request, l: Load, id: TokenId) {
    r.reserve ==> if r.forImage then CanUse(l.image, id) else r.forVideo ==> CanUse(l.video, id)
  }

  function FirstPassing(r: Request, l: Load, valid: set<TokenId>, cs: seq<Candidate>): (x: Option<Candidate>)
    ensures x.None? <==> forall y :: y in cs ==> !Passes(r, l, valid, y)
    ensures x.Some? ==> x.value in cs && Passes(r, l, valid, x.value)
  {
    if cs == [] then None
    else if Passes(r, l, valid, cs[0]) then Some(cs[0])
    else
      assert cs == [cs[0]] + cs[1..];
      FirstPassing(r, l, valid, cs[1..])
  }

  /** The whole selection, undisturbed: the candidate chosen and the rotation's new memory. */
  function Selection(c: Config, r: Request, l: Load, cs: seq<Candidate>, valid: set<TokenId>, last: Option<TokenId>)
    : (Option<Candidate>, Option<TokenId>)
  {
    var attempts := Attempts(c, r, cs, last);
    (FirstPassing(r, l, valid, attempts),
     if c.polling && cs != [] then Some(PollingOrder(cs, last)[0].token.id) else last)
  }

  // ---------------------------------------------------------------- what the order means

  predicate DistinctIds(cs: seq<Candidate>) {
    Distinct(Ids(cs))
  }

  lemma {:induction false} SortKeeps(es: seq<Keyed<Candidate>>, cs: seq<Candidate>, x: Candidate)
    requires |es| == |cs| && forall i :: 0 <= i < |es| ==> es[i].item == cs[i]
    requires x in cs
    ensures x in Items(Sort(es))
  {
    SortMembers(es);
    var i :| 0 <= i < |cs| && cs[i] == x;
    assert es[i] in Sort(es);
    ItemMember(Sort(es), es[i]);
  }

  lemma {:induction false} SortAdds(es: seq<Keyed<Candidate>>, cs: seq<Candidate>, x: Candidate)
    requires |es| == |cs| && forall i :: 0 <= i < |es| ==> es[i].item == cs[i]
    requires x in Items(Sort(es))
    ensures x in cs
  {
    SortMembers(es);
    var sorted := Sort(es);
    var i :| 0 <= i < |sorted| && Items(sorted)[i] == x;
    assert sorted[i] in es;
    var k :| 0 <= k < |es| && es[k] == sorted[i];
    assert cs[k] == x;
  }

  lemma {:induction false} SameMembers(es: seq<Keyed<Candidate>>, cs: seq<Candidate>)
    requires |es| == |cs| && forall i :: 0 <= i < |es| ==> es[i].item == cs[i]
    ensures forall x :: x in Items(Sort(es)) <==> x in cs
  {
    forall x | x in cs ensures x in Items(Sort(es)) {
      SortKeeps(es, cs, x);
    }
    forall x | x in Items(Sort(es)) ensures x in cs {
      SortAdds(es, cs, x);
    }
  }

  lemma PollingMembers(cs: seq<Candidate>, last: Option<TokenId>)
    requires DistinctIds(cs)
    ensures forall x :: x in PollingOrder(cs, last) <==> x in cs
  {
    if cs != [] {
      SameMembers(ById(cs), cs);
      SortMembers(ById(cs));
      var sorted := Items(Sort(ById(cs)));
      var first := sorted[NextIndex(Ids(sorted), last)];
      assert first in sorted;
      ExceptMembers(sorted, first.token.id);
      forall x | x in cs && x.token.id == first.token.id ensures x == first {
        SameId(cs, x, first);
      }
    }
  }

  lemma SameId(cs: seq<Candidate>, x: Candidate, y: Candidate)
    requires DistinctIds(cs) && x in cs && y in cs && x.token.id == y.token.id
    ensures x == y
  {
    var i :| 0 <= i < |cs| && cs[i] == x;
    var j :| 0 <= j < |cs| && cs[j] == y;
    assert Ids(cs)[i] == Ids(cs)[j];
  }

  /** Putting the candidates that need no refresh first is a stable partition, in either mode. */
  lemma {:induction false} FreshFirstPartitions(cs: seq<Candidate>)
    ensures FreshFirst(cs) == Pick(cs, false) + Pick(cs, true)
    ensures Pick(cs, false) == [] ==> Pick(cs, true) == cs
    ensures Pick(cs, true) == [] ==> Pick(cs, false) == cs
  {
    if cs != [] {
      FreshFirstPartitions(cs[1..]);
      assert cs == [cs[0]] + cs[1..];
    }
  }

  lemma {:induction false} AllStale(cs: seq<Candidate>)
    requires forall i :: 0 <= i < |cs| ==> cs[i].token.stale
    ensures Pick(cs, false) == [] && Pick(cs, true) == cs
  {
    if cs != [] {
      AllStale(cs[1..]);
      assert cs == [cs[0]] + cs[1..];
    }
  }

  /** On a list already ordered by freshness it changes nothing. */
  lemma {:induction false} FreshFirstIdentity(cs: seq<Candidate>)
    requires forall i, j :: 0 <= i < j < |cs| ==> Bit(cs[i].token.stale) <= Bit(cs[j].token.stale)
    ensures Pick(cs, false) + Pick(cs, true) == cs
  {
    if cs != [] {
      assert cs == [cs[0]] + cs[1..];
      FreshFirstIdentity(cs[1..]);
      if cs[0].token.stale {
        AllStale(cs[1..]);
      }
    }
  }

  /** So in default mode the split is the identity, and attempts follow the keys. */
  lemma DefaultAttempts(c: Config, r: Request, cs: seq<Candidate>, last: Option<TokenId>)
    requires !c.polling
    ensures Attempts(c, r, cs, last) == DefaultOrder(c, r, cs)
    ensures var order := DefaultOrder(c, r, cs); forall i, j :: 0 <= i < j < |order| ==>
        LexLeq(Key(c, r, order[i]), Key(c, r, order[j]))
  {
    var sorted := Sort(Entries(c, r, cs));
    var order := Items(sorted);
    SortMembers(Entries(c, r, cs));
    SortSorts(Entries(c, r, cs));
    forall i | 0 <= i < |sorted| ensures sorted[i].key == Key(c, r, order[i]) {
      assert sorted[i] in Entries(c, r, cs);
    }
    forall i, j | 0 <= i < j < |order| ensures Bit(order[i].token.stale) <= Bit(order[j].token.stale) {
      LexHead(sorted[i].key, sorted[j].key);
    }
    FreshFirstIdentity(order);
    FreshFirstPartitions(order);
  }

  /** Every candidate is attempted, and nothing else. */
  lemma AttemptsComplete(c: Config, r: Request, cs: seq<Candidate>, last: Option<TokenId>)
    requires DistinctIds(cs)
    ensures forall x :: x in Attempts(c, r, cs, last) <==> x in cs
  {
    var order := if c.polling then PollingOrder(cs, last) else DefaultOrder(c, r, cs);
    FreshFirstPartitions(order);
    PickMembers(order, false);
    PickMembers(order, true);
    if c.polling {
      PollingMembers(cs, last);
    } else {
      SameMembers(Entries(c, r, cs), cs);
    }
  }

  /** Among candidates in key order, none that passes is better than the first that does. */
  lemma {:induction false} FirstIsBest(c: Config, r: Request, l: Load, valid: set<TokenId>, order: seq<Candidate>,
      y: Candidate)
    requires forall i, j :: 0 <= i < j < |order| ==> LexLeq(Key(c, r, order[i]), Key(c, r, order[j]))
    requires y in order && Passes(r, l, valid, y)
    ensures var x := FirstPassing(r, l, valid, order); x.Some? && !Better(c, r, y, x.value)
  {
    assert order == [order[0]] + order[1..];
    if Passes(r, l, valid, order[0]) {
      var k :| 0 <= k < |order| && order[k] == y;
      LexTotal(Key(c, r, y), Key(c, r, y));
      KeyOrder(c, r, y, order[0]);
    } else {
      FirstIsBest(c, r, l, valid, order[1..], y);
    }
  }

  /** The selection refines "the best passing candidate": it fails only when no candidate passes, and
      what it returns passes and, in default mode, no passing candidate is better. */
  lemma SelectionIsBest(c: Config, r: Request, l: Load, cs: seq<Candidate>, valid: set<TokenId>, last: Option<TokenId>)
    requires DistinctIds(cs)
    ensures var x := Selection(c, r, l, cs, valid, last).0;
            && (x.None? <==> forall y :: y in cs ==> !Passes(r, l, valid, y))
            && (x.Some? ==> x.value in cs && Passes(r, l, valid, x.value))
            && (x.Some? && !c.polling ==> forall y :: y in cs && Passes(r, l, valid, y) ==> !Better(c, r, y, x.value))
  {
    AttemptsComplete(c, r, cs, last);
    if !c.polling {
      DefaultAttempts(c, r, cs, last);
      forall y | y in cs && Passes(r, l, valid, y)
        ensures var x := FirstPassing(r, l, valid, DefaultOrder(c, r, cs)); x.Some? && !Better(c, r, y, x.value)
      {
        FirstIsBest(c, r, l, valid, DefaultOrder(c, r, cs), y);
      }
    }
  }

  /** Without reservations a fresh candidate always passes, so while there is one no candidate at all
      is better than the choice, and no refresh is attempted. */
  lemma FreshWinsOutright(c: Config, r: Request, l: Load, cs: seq<Candidate>, valid: set<TokenId>,
      last: Option<TokenId>, ready: Candidate)
    requires DistinctIds(cs) && !c.polling && !r.reserve && ready in cs && !ready.token.stale
    ensures var x := Selection(c, r, l, cs, valid, last).0;
            && x.Some? && !x.value.token.stale && x.value == Attempts(c, r, cs, last)[0]
            && forall y :: y in cs ==> !Better(c, r, y, x.value)
  {
    SelectionIsBest(c, r, l, cs, valid, last);
    AttemptsComplete(c, r, cs, last);
    DefaultAttempts(c, r, cs, last);
    var order := DefaultOrder(c, r, cs);
    var k :| 0 <= k < |order| && order[k] == ready;
    LexTotal(Key(c, r, order[0]), Key(c, r, order[0]));
    LexHead(Key(c, r, order[0]), Key(c, r, order[k]));
    assert Passes(r, l, valid, order[0]);
    forall y | y in cs ensures !Better(c, r, y, order[0]) {
      var i :| 0 <= i < |order| && order[i] == y;
      KeyOrder(c, r, y, order[0]);
    }
  }

  // ---------------------------------------------------------------- with others reserving in between

  /** The position of the first candidate that passes when it is tried, each seeing the load of its moment. */
  function FirstWhenTried(r: Request, loads: seq<Load>, valid: set<TokenId>, cs: seq<Candidate>): (k: Option<nat>)
    requires |loads| == |cs|
    ensures k.Some? ==> k.value < |cs|
  {
    if cs == [] then None
    else if Passes(r, loads[0], valid, cs[0]) then Some(0)
    else
      match FirstWhenTried(r, loads[1..], valid, cs[1..])
      case None => None
      case Some(k) => Some(k + 1)
  }

  lemma {:induction false} FirstWhenTriedIs(r: Request, loads: seq<Load>, valid: set<TokenId>, cs: seq<Candidate>)
    requires |loads| == |cs|
    ensures var k := FirstWhenTried(r, loads, valid, cs);
            && (k.Some? ==> Passes(r, loads[k.value], valid, cs[k.value]))
            && forall i :: 0 <= i < k.GetOr(|cs|) ==> !Passes(r, loads[i], valid, cs[i])
  {
    if cs != [] && !Passes(r, loads[0], valid, cs[0]) {
      FirstWhenTriedIs(r, loads[1..], valid, cs[1..]);
      var k := FirstWhenTried(r, loads, valid, cs);
      forall i | 0 < i < k.GetOr(|cs|) ensures !Passes(r, loads[i], valid, cs[i]) {
        assert loads[i] == loads[1..][i - 1] && cs[i] == cs[1..][i - 1];
      }
    }
  }

  /** With one load throughout it is the undisturbed choice. */
  lemma {:induction false} SameLoadThroughout(r: Request, l: Load, loads: seq<Load>, valid: set<TokenId>,
      cs: seq<Candidate>)
    requires |loads| == |cs| && forall i :: 0 <= i < |loads| ==> loads[i] == l
    ensures var k := FirstWhenTried(r, loads, valid, cs);
            FirstPassing(r, l, valid, cs) == match k case None => None case Some(i) => Some(cs[i])
  {
    if cs != [] {
      SameLoadThroughout(r, l, loads[1..], valid, cs[1..]);
    }
  }

  /** Whatever other requests reserve and release between the attempts: the selection fails only when every
      candidate failed as it was tried; and in default mode every candidate better than the one chosen was
      tried before it and failed at that moment. */
  lemma InterleavedIsBest(c: Config, r: Request, loads: seq<Load>, cs: seq<Candidate>, valid: set<TokenId>,
      last: Option<TokenId>, attempts: seq<Candidate>, y: Candidate)
    requires DistinctIds(cs) && attempts == Attempts(c, r, cs, last) && |loads| == |attempts| && y in cs
    ensures var k := FirstWhenTried(r, loads, valid, attempts);
            && (k.Some? ==> attempts[k.value] in cs && Passes(r, loads[k.value], valid, attempts[k.value]))
            && (k.None? || (!c.polling && Better(c, r, y, attempts[k.value])) ==>
                exists i :: 0 <= i < k.GetOr(|attempts|) && attempts[i] == y && !Passes(r, loads[i], valid, y))
  {
    AttemptsComplete(c, r, cs, last);
    FirstWhenTriedIs(r, loads, valid, attempts);
    var k := FirstWhenTried(r, loads, valid, attempts);
    var i :| 0 <= i < |attempts| && attempts[i] == y;
    if k.Some? {
      assert attempts[k.value] in attempts;
      if !c.polling && Better(c, r, y, attempts[k.value]) && k.value <= i {
        DefaultAttempts(c, r, cs, last);
        NotBetterLater(c, r, attempts, k.value, i);
        assert false;
      }
    }
  }

  lemma NotBetterLater(c: Config, r: Request, order: seq<Candidate>, k: nat, i: nat)
    requires k <= i < |order|
    requires forall a, b :: 0 <= a < b < |order| ==> LexLeq(Key(c, r, order[a]), Key(c, r, order[b]))
    ensures !Better(c, r, order[i], order[k])
  {
    LexTotal(Key(c, r, order[i]), Key(c, r, order[i]));
    KeyOrder(c, r, order[i], order[k]);
  }

  predicate CanServe(c: Config, r: Request, l: Load, valid: set<TokenId>, t: Token, roll: int) {
    Eligible(c, r, l, t) && Passes(r, l, valid, CandidateFor(r, l, t, roll))
  }

  /** The same over account rows: the best of the eligible accounts that pass. */
  lemma BestAccount(c: Config, r: Request, l: Load, tokens: seq<Token>, rolls: seq<int>, valid: set<TokenId>,
      last: Option<TokenId>)
    requires |rolls| == |tokens| && DistinctRows(tokens)
    ensures var x := Selection(c, r, l, Candidates(c, r, l, tokens, rolls), valid, last).0;
            && (x.Some? ==> x.value.token in tokens && Eligible(c, r, l, x.value.token) && Passes(r, l, valid, x.value))
            && forall k :: 0 <= k < |tokens| && CanServe(c, r, l, valid, tokens[k], rolls[k]) ==>
                 && x.Some?
                 && (!c.polling ==> !Better(c, r, CandidateFor(r, l, tokens[k], rolls[k]), x.value))
  {
    var cs := Candidates(c, r, l, tokens, rolls);
    CandidatesDistinct(c, r, l, tokens, rolls);
    SelectionIsBest(c, r, l, cs, valid, last);
    var x := Selection(c, r, l, cs, valid, last).0;
    if x.Some? {
      CandidatesAreEligible(c, r, l, tokens, rolls, x.value);
    }
    forall k | 0 <= k < |tokens| && Eligible(c, r, l, tokens[k])
      ensures CandidateFor(r, l, tokens[k], rolls[k]) in cs
    {
      EligibleAreCandidates(c, r, l, tokens, rolls, k);
    }
  }

  predicate DistinctRows(tokens: seq<Token>) {
    forall i, j :: 0 <= i < j < |tokens| ==> tokens[i].id != tokens[j].id
  }

  lemma {:induction false} CandidatesDistinct(c: Config, r: Request, l: Load, tokens: seq<Token>, rolls: seq<int>)
    requires |rolls| == |tokens| && DistinctRows(tokens)
    ensures DistinctIds(Candidates(c, r, l, tokens, rolls))
  {
    if tokens != [] {
      var n := |tokens| - 1;
      CandidatesDistinct(c, r, l, tokens[..n], rolls[..n]);
      var before := Candidates(c, r, l, tokens[..n], rolls[..n]);
      forall i | 0 <= i < |before| ensures before[i].token.id != tokens[n].id {
        assert before[i] in before;
      }
      DistinctSnoc(before, CandidateFor(r, l, tokens[n], rolls[n]));
    }
  }

  lemma DistinctSnoc(before: seq<Candidate>, x: Candidate)
    requires DistinctIds(before) && forall i :: 0 <= i < |before| ==> before[i].token.id != x.token.id
    ensures DistinctIds(before + [x])
  {
  }

  // ---------------------------------------------------------------- the balancer

  datatype Turn = ImageTurn | VideoTurn | DefaultTurn

  function TurnOf(r: Request): Turn {
    if r.forImage then ImageTurn else if r.forVideo then VideoTurn else DefaultTurn
  }

  function LastOf(turns: map<Turn, TokenId>, turn: Turn): Option<TokenId> {
    if turn in turns then Some(turns[turn]) else None
  }

  function ChosenId(x: Option<Candidate>): Option<TokenId> {
    match x
    case None => None
    case Some(y) => Some(y.token.id)
  }

  class Balancer {
    const manager: Manager
    const config: Config
    var imagePending: map<TokenId, int>
    var videoPending: map<TokenId, int>
    var turns: map<Turn, TokenId>

    constructor (manager: Manager, config: Config)
      ensures this.manager == manager && this.config == config
      ensures PendingState() == Pending(map[], map[]) && turns == map[]
    {
      this.manager, this.config := manager, config;
      imagePending, videoPending, turns := map[], map[], map[];
    }

    function PendingState(): Pending
      reads this
    {
      Pending(imagePending, videoPending)
    }

    function LoadState(now: int): Load
      reads this, manager
    {
      Load(manager.State(Image), manager.State(Video), PendingState(), now)
    }

    method CountSelection(id: TokenId, forImage: bool, forVideo: bool)
      modifies this`imagePending, this`videoPending
      ensures PendingState() == AddPending(old(PendingState()), id, forImage, forVideo)
    {
      if forImage {
        imagePending := imagePending[id := Counted(imagePending, id) + 1];
      } else if forVideo {
        videoPending := videoPending[id := Counted(videoPending, id) + 1];
      }
    }

    method Finish(id: TokenId, forImage: bool, forVideo: bool)
      modifies this`imagePending, this`videoPending
      ensures PendingState() == ReleasePending(old(PendingState()), id, forImage, forVideo)
    {
      if forImage {
        var current := Counted(imagePending, id);
        imagePending := if current <= 1 then imagePending - {id} else imagePending[id := current - 1];
      } else if forVideo {
        var current := Counted(videoPending, id);
        videoPending := if current <= 1 then videoPending - {id} else videoPending[id := current - 1];
      }
    }

    /** Whose turn it is among the candidates sorted by id; the choice is remembered. */
    method SelectRoundRobin(sorted: seq<Candidate>, turn: Turn) returns (first: Candidate)
      requires sorted != []
      modifies this`turns
      ensures first == sorted[NextIndex(Ids(sorted), LastOf(old(turns), turn))]
      ensures turns == old(turns)[turn := first.token.id]
    {
      var start := 0;
      if turn in turns {
        var i := 0;
        while i < |sorted| && sorted[i].token.id != turns[turn]
          invariant 0 <= i <= |sorted|
          invariant forall k :: 0 <= k < i ==> Ids(sorted)[k] != turns[turn]
        {
          i := i + 1;
        }
        if i < |sorted| {
          assert Ids(sorted)[i] == turns[turn];
          FirstIndex(Ids(sorted), turns[turn], i);
          start := Successor(i, |sorted|);
        }
      }
      first := sorted[start];
      turns := turns[turn := first.token.id];
    }

    /** The filter as the source runs it, check by check. */
    method Admits(r: Request, t: Token, now: int) returns (ok: bool)
      ensures ok == Eligible(config, r, LoadState(now), t)
    {
      if r.model.GetOr("") != "" && !Supports(r.model, Some(NormalizeTier(t.tier))) {
        return false;
      }
      if t.credits.Some? && t.credits.value <= config.minCredits {
        return false;
      }
      if QuotaExcludes(config, t, now) {
        return false;
      }
      if r.forImage {
        if !t.imageEnabled || (r.enforce && !CanUse(manager.State(Image), t.id)) {
          return false;
        }
      }
      if r.forVideo {
        if !t.videoEnabled || (r.enforce && !CanUse(manager.State(Video), t.id)) {
          return false;
        }
      }
      return true;
    }

    method CollectCandidates(r: Request, tokens: seq<Token>, rolls: seq<int>, now: int)
        returns (available: seq<Candidate>)
      requires |rolls| == |tokens|
      ensures available == Candidates(config, r, LoadState(now), tokens, rolls)
    {
      available := [];
      var l := LoadState(now);
      for i := 0 to |tokens|
        invariant available == Candidates(config, r, l, tokens[..i], rolls[..i])
      {
        assert tokens[..i + 1][..i] == tokens[..i] && rolls[..i + 1][..i] == rolls[..i];
        var ok := Admits(r, tokens[i], now);
        if ok {
          available := available + [CandidateFor(r, l, tokens[i], rolls[i])];
        }
      }
      assert tokens[..|tokens|] == tokens && rolls[..|rolls|] == rolls;
    }

    method Order(r: Request, available: seq<Candidate>) returns (ordered: seq<Candidate>)
      modifies this`turns
      ensures ordered == Attempts(config, r, available, LastOf(old(turns), TurnOf(r)))
      ensures turns == if config.polling && available != [] then
                         old(turns)[TurnOf(r) := PollingOrder(available, LastOf(old(turns), TurnOf(r)))[0].token.id]
                             else old(turns)
    {
      if !config.polling {
        ordered := Items(Sort(Entries(config, r, available)));
      } else if available == [] {
        ordered := [];
      } else {
        var sorted := Items(Sort(ById(available)));
        var first := SelectRoundRobin(sorted, TurnOf(r));
        ordered := [first] + Except(sorted, first.token.id);
      }
      var ready, waiting := Pick(ordered, false), Pick(ordered, true);
      if ready != [] && waiting != [] {
        ordered := ready + waiting;
      }
    }

    /** Refresh, reserve and count the candidates in turn until one passes. */
    method TryInOrder(r: Request, attempts: seq<Candidate>, valid: set<TokenId>, now: int)
        returns (chosen: Option<TokenId>)
      modifies this`imagePending, this`videoPending, manager
      ensures var l := old(LoadState(now));
              && chosen == ChosenId(FirstPassing(r, l, valid, attempts))
              && (chosen.None? || !r.track ==> PendingState() == l.pending)
              && (chosen.Some? && r.track ==>
                  PendingState() == AddPending(l.pending, chosen.value, r.forImage, r.forVideo))
              && manager.State(Image) == (if chosen.Some? && r.reserve && r.forImage
                  then Acquire(l.image, chosen.value).1 else l.image)
              && manager.State(Video) == (if chosen.Some? && r.reserve && !r.forImage && r.forVideo
                  then Acquire(l.video, chosen.value).1 else l.video)
    {
      ghost var l := LoadState(now);
      var i := 0;
      while i < |attempts|
        invariant 0 <= i <= |attempts|
        invariant FirstPassing(r, l, valid, attempts) == FirstPassing(r, l, valid, attempts[i..])
        invariant LoadState(now) == l
      {
        var x := attempts[i];
        assert attempts[i..][0] == x && attempts[i..][1..] == attempts[i + 1..];
        var ok := !x.token.stale || x.token.id in valid;
        if ok && r.reserve {
          ok := Reserve(x.token.id, r);
        }
        if ok {
          if r.track {
            CountSelection(x.token.id, r.forImage, r.forVideo);
          }
          return Some(x.token.id);
        }
        i := i + 1;
      }
      return None;
    }

    /** `valid` are the accounts whose refresh succeeds. The chosen account's slot and pending count
        are taken as the request asks. */
    method SelectToken(r: Request, tokens: seq<Token>, rolls: seq<int>, valid: set<TokenId>, now: int)
        returns (chosen: Option<TokenId>)
      requires |rolls| == |tokens|
      modifies this, manager
      ensures var l := old(LoadState(now));
              var (x, next) := Selection(config, r, l, Candidates(config, r, l, tokens, rolls), valid,
                  LastOf(old(turns), TurnOf(r)));
              && chosen == ChosenId(x)
              && LastOf(turns, TurnOf(r)) == next && (forall t :: t != TurnOf(r) ==>
                  LastOf(turns, t) == LastOf(old(turns), t))
              && (chosen.None? || !r.track ==> PendingState() == l.pending)
              && (chosen.Some? && r.track ==>
                  PendingState() == AddPending(l.pending, chosen.value, r.forImage, r.forVideo))
              && manager.State(Image) == (if chosen.Some? && r.reserve && r.forImage
                  then Acquire(l.image, chosen.value).1 else l.image)
              && manager.State(Video) == (if chosen.Some? && r.reserve && !r.forImage && r.forVideo
                  then Acquire(l.video, chosen.value).1 else l.video)
    {
      var available := CollectCandidates(r, tokens, rolls, now);
      var attempts := Order(r, available);
      chosen := TryInOrder(r, attempts, valid, now);
    }

    method Reserve(id: TokenId, r: Request) returns (ok: bool)
      modifies manager
      ensures var image, video := old(manager.State(Image)), old(manager.State(Video));
              && ok == (if r.forImage then CanUse(image, id) else r.forVideo ==> CanUse(video, id))
              && manager.State(Image) == (if ok && r.forImage then Acquire(image, id).1 else image)
              && manager.State(Video) == (if ok && !r.forImage && r.forVideo then Acquire(video, id).1 else video)
    {
      if r.forImage {
        ok := manager.AcquireSlot(Image, id);
      } else if r.forVideo {
        ok := manager.AcquireSlot(Video, id);
      } else {
        ok := true;
      }
    }
  }
}
