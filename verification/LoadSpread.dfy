/** How a burst of requests spreads over equal accounts (src/services/load_balancer.py): each selection is
    counted as pending at once, so the next one prefers another account. */
module LoadSpread {
  import opened Prelude
  import opened Holders
  import opened AccountTiers
  import opened ConcurrencyManager
  import opened LoadBalancer
  import PendingRuns
  import LexSort

  /** The claims of one kind waiting on an account. */
  function Waiting(p: Pending, kind: Kind, id: TokenId): int {
    var m := if kind == Image then p.image else p.video;
    if id in m && m[id] > 0 then m[id] else 0
  }

  function SlotsFor(l: Load, kind: Kind): Slots {
    if kind == Image then l.image else l.video
  }

  /** A request for images, or for videos. */
  predicate For(r: Request, kind: Kind) {
    if kind == Image then r.forImage else !r.forImage && r.forVideo
  }

  /** A candidate's load is what its account has in flight and pending, of the kind the request is for; what
      remains of a limit is what that load leaves, and it is saturated when nothing does. */
  lemma CandidateLoad(r: Request, l: Load, t: Token, roll: int, kind: Kind)
    requires For(r, kind)
    ensures var x, slots := CandidateFor(r, l, t, roll), SlotsFor(l, kind);
            && x.token == t && x.roll == roll
            && x.inflight == (if t.id in slots.inflight then slots.inflight[t.id] else 0) + Waiting(l.pending, kind, t.id)
            && (t.id !in slots.limits ==> x.remaining == None && !x.saturated)
            && (t.id in slots.limits ==>
                  && x.remaining == Some(if x.inflight < slots.limits[t.id] then slots.limits[t.id] - x.inflight else 0)
                  && (x.saturated <==> slots.limits[t.id] <= x.inflight))
  {
  }

  /** A request for neither reads no load. */
  lemma NoKindNoLoad(r: Request, l: Load, t: Token, roll: int)
    requires !r.forImage && !r.forVideo
    ensures CandidateFor(r, l, t, roll) == Candidate(t, 0, None, false, roll)
  {
  }

  /** Along runs: the load is the account's slot holders, plus the requests selected for it and not finished,
      plus the claims that leaked. */
  lemma LoadIsHolders(adm: Admission, w: PendingRuns.World, r: Request, l: Load, t: Token, roll: int, kind: Kind)
    requires For(r, kind) && Balanced(adm) && PendingRuns.Conserved(w)
    requires SlotsFor(l, kind) == adm.slots && l.pending == w.pending
    ensures var claim := PendingRuns.Claim(kind, t.id);
            CandidateFor(r, l, t, roll).inflight
            == CountOf(adm.holders, t.id) + CountOf(w.holding, claim) + CountOf(w.lost, claim)
  {
    CandidateLoad(r, l, t, roll, kind);
    assert InFlight(adm.slots, t.id) == CountOf(adm.holders, t.id);
    assert PendingRuns.CountFor(w.pending, PendingRuns.Claim(kind, t.id)) == Waiting(w.pending, kind, t.id);
  }

  /** Equal but for the load. */
  predicate Peers(x: Candidate, y: Candidate) {
    x.token.stale == y.token.stale && x.saturated == y.saturated && TierRank(x.token.tier) == TierRank(y.token.tier)
  }

  lemma LessLoadedIsBetter(c: Config, r: Request, x: Candidate, y: Candidate)
    requires Peers(x, y) && x.inflight < y.inflight
    ensures Better(c, r, x, y) && KeyBefore(c, r, x, y)
  {
    KeyOrder(c, r, x, y);
  }

  /** `x` sorts before `y`. */
  predicate KeyBefore(c: Config, r: Request, x: Candidate, y: Candidate) {
    LexSort.LexLess(Key(c, r, x), Key(c, r, y))
  }


  /** One selection more, counted as pending. */
  function WithOneMore(l: Load, r: Request, id: TokenId): Load {
    l.(pending := AddPending(l.pending, id, r.forImage, r.forVideo))
  }

  lemma OneMoreCounts(l: Load, r: Request, id: TokenId, kind: Kind, other: TokenId)
    requires For(r, kind)
    ensures Waiting(WithOneMore(l, r, id).pending, kind, other) ==
            Waiting(l.pending, kind, other) + if other == id then 1 else 0
  {
  }

  predicate Unlimited(l: Load, kind: Kind, id: TokenId) {
    id !in SlotsFor(l, kind).limits
  }

  /** After one more selection of it an unlimited account is worse than an unlimited peer with the same load,
      whatever the draw. */
  lemma OneMoreLoses(c: Config, r: Request, l: Load, a: Token, b: Token, kind: Kind, rollA: int, rollB: int)
    requires For(r, kind) && a.id != b.id && Unlimited(l, kind, a.id) && Unlimited(l, kind, b.id)
    requires a.stale == b.stale && TierRank(a.tier) == TierRank(b.tier)
    requires CandidateFor(r, l, a, rollA).inflight == CandidateFor(r, l, b, rollB).inflight
    ensures var after := WithOneMore(l, r, a.id);
            Better(c, r, CandidateFor(r, after, b, rollB), CandidateFor(r, after, a, rollA))
  {
    var after := WithOneMore(l, r, a.id);
    CandidateLoad(r, l, a, rollA, kind);
    CandidateLoad(r, l, b, rollB, kind);
    CandidateLoad(r, after, a, rollA, kind);
    CandidateLoad(r, after, b, rollB, kind);
    OneMoreCounts(l, r, a.id, kind, a.id);
    OneMoreCounts(l, r, a.id, kind, b.id);
    LessLoadedIsBetter(c, r, CandidateFor(r, after, b, rollB), CandidateFor(r, after, a, rollA));
  }

  // ---------------------------------------------------------------- a burst

  function LoadOf(r: Request, l: Load, t: Token): int {
    CandidateFor(r, l, t, 0).inflight
  }

  /** Ready, unlimited accounts of one tier, that the request may use. */
  predicate Equals(c: Config, r: Request, l: Load, tokens: seq<Token>, kind: Kind) {
    && tokens != [] && DistinctRows(tokens)
    && forall i :: 0 <= i < |tokens| ==>
         && !tokens[i].stale && TierRank(tokens[i].tier) == TierRank(tokens[0].tier)
         && Unlimited(l, kind, tokens[i].id) && Eligible(c, r, l, tokens[i])
  }

  /** No account has more than one request more than another. */
  predicate Level(r: Request, l: Load, tokens: seq<Token>) {
    forall i, j :: 0 <= i < |tokens| && 0 <= j < |tokens| ==> LoadOf(r, l, tokens[i]) <= LoadOf(r, l, tokens[j]) + 1
  }

  /** The load after successive selections, each with its own draw. */
  function Burst(c: Config, r: Request, l: Load, tokens: seq<Token>, draws: seq<seq<int>>, valid: set<TokenId>): Load
    requires forall i :: 0 <= i < |draws| ==> |draws[i]| == |tokens|
    decreases |draws|
  {
    if draws == [] then l
    else
      var before := Burst(c, r, l, tokens, draws[..|draws| - 1], valid);
      var draw := draws[|draws| - 1];
      match Selection(c, r, before, Candidates(c, r, before, tokens, draw), valid, None).0
      case None => before
      case Some(x) => WithOneMore(before, r, x.token.id)
  }

  /** Each selection of a burst takes an account with the least load. */
  lemma TakesLeast(c: Config, r: Request, l: Load, tokens: seq<Token>, draw: seq<int>, valid: set<TokenId>, kind: Kind)
    returns (k: nat)
    requires For(r, kind) && !c.polling && !r.reserve && |draw| == |tokens| && Equals(c, r, l, tokens, kind)
    ensures k < |tokens|
    ensures var x := Selection(c, r, l, Candidates(c, r, l, tokens, draw), valid, None).0;
            x.Some? && x.value.token == tokens[k]
    ensures forall i :: 0 <= i < |tokens| ==> LoadOf(r, l, tokens[k]) <= LoadOf(r, l, tokens[i])
  {
    var cs := Candidates(c, r, l, tokens, draw);
    BestAccount(c, r, l, tokens, draw, valid, None);
    assert CanServe(c, r, l, valid, tokens[0], draw[0]);
    var x := Selection(c, r, l, cs, valid, None).0;
    CandidatesDistinct(c, r, l, tokens, draw);
    SelectionIsBest(c, r, l, cs, valid, None);
    CandidatesAreEligible(c, r, l, tokens, draw, x.value);
    k :| 0 <= k < |tokens| && x.value == CandidateFor(r, l, tokens[k], draw[k]);
    forall i | 0 <= i < |tokens| ensures LoadOf(r, l, tokens[k]) <= LoadOf(r, l, tokens[i]) {
      assert CanServe(c, r, l, valid, tokens[i], draw[i]);
      PeersByLoad(c, r, l, tokens[i], tokens[k], draw[i], draw[k], kind);
    }
  }

  lemma PeersByLoad(c: Config, r: Request, l: Load, a: Token, b: Token, rollA: int, rollB: int, kind: Kind)
    requires For(r, kind) && !a.stale && !b.stale && TierRank(a.tier) == TierRank(b.tier)
    requires Unlimited(l, kind, a.id) && Unlimited(l, kind, b.id)
    requires !Better(c, r, CandidateFor(r, l, a, rollA), CandidateFor(r, l, b, rollB))
    ensures LoadOf(r, l, b) <= LoadOf(r, l, a)
  {
    CandidateLoad(r, l, a, rollA, kind);
    CandidateLoad(r, l, b, rollB, kind);
    if LoadOf(r, l, a) < LoadOf(r, l, b) {
      LessLoadedIsBetter(c, r, CandidateFor(r, l, a, rollA), CandidateFor(r, l, b, rollB));
    }
  }

  lemma CountStaysLevel(r: Request, l: Load, tokens: seq<Token>, k: nat, kind: Kind)
    requires For(r, kind) && DistinctRows(tokens) && k < |tokens| && Level(r, l, tokens)
    requires forall i :: 0 <= i < |tokens| ==> LoadOf(r, l, tokens[k]) <= LoadOf(r, l, tokens[i])
    ensures Level(r, WithOneMore(l, r, tokens[k].id), tokens)
  {
    var after := WithOneMore(l, r, tokens[k].id);
    forall i | 0 <= i < |tokens|
      ensures LoadOf(r, after, tokens[i]) == LoadOf(r, l, tokens[i]) + if i == k then 1 else 0
    {
      CandidateLoad(r, l, tokens[i], 0, kind);
      CandidateLoad(r, after, tokens[i], 0, kind);
      OneMoreCounts(l, r, tokens[k].id, kind, tokens[i].id);
    }
  }

  lemma SameAccounts(c: Config, r: Request, l: Load, tokens: seq<Token>, kind: Kind, id: TokenId)
    requires Equals(c, r, l, tokens, kind)
    ensures Equals(c, r, WithOneMore(l, r, id), tokens, kind)
  {
    forall i | 0 <= i < |tokens| ensures Eligible(c, r, WithOneMore(l, r, id), tokens[i]) {
      assert Eligible(c, r, l, tokens[i]);
    }
  }

  /** A burst of selections with nothing finishing in between keeps equal accounts within one request of each
      other, however long it is and whatever the draws. */
  lemma {:induction false} BurstStaysLevel(c: Config, r: Request, l: Load, tokens: seq<Token>, draws: seq<seq<int>>,
      valid: set<TokenId>, kind: Kind)
    requires For(r, kind) && !c.polling && !r.reserve && Equals(c, r, l, tokens, kind) && Level(r, l, tokens)
    requires forall i :: 0 <= i < |draws| ==> |draws[i]| == |tokens|
    ensures var after := Burst(c, r, l, tokens, draws, valid);
            Level(r, after, tokens) && Equals(c, r, after, tokens, kind)
    decreases |draws|
  {
    if draws != [] {
      var before := Burst(c, r, l, tokens, draws[..|draws| - 1], valid);
      BurstStaysLevel(c, r, l, tokens, draws[..|draws| - 1], valid, kind);
      var k := TakesLeast(c, r, before, tokens, draws[|draws| - 1], valid, kind);
      CountStaysLevel(r, before, tokens, k, kind);
      SameAccounts(c, r, before, tokens, kind, tokens[k].id);
    }
  }
}
