/** Which accounts a request may use, and which of two it gets (src/services/load_balancer.py). */
module Eligibility {
  import opened Prelude
  import opened Rotation
  import opened AccountTiers
  import opened ConcurrencyManager
  import opened LoadBalancer
  import Text

  /** Out of quota when last seen, not long ago, and with no more credits since than then or than the floor. */
  predicate MarkedExhausted(c: Config, t: Token, now: int) {
    match t.quotaMarkedAt
    case None => false
    case Some(at) =>
      var credits := if t.credits.Some? then t.credits.value else 0;
      var seen := if t.quotaCredits.Some? then t.quotaCredits.value else 0;
      !(now >= at + c.quotaCooldown || (credits > seen && credits > c.minCredits))
  }

  /** No slot left of the kind. */
  predicate Full(s: Slots, id: TokenId) {
    id in s.limits && (if id in s.inflight then s.inflight[id] else 0) >= s.limits[id]
  }

  lemma QuotaIs(c: Config, t: Token, now: int)
    ensures QuotaExcludes(c, t, now) <==> MarkedExhausted(c, t, now)
  {
  }

  lemma FullIs(s: Slots, id: TokenId)
    ensures CanUse(s, id) <==> !Full(s, id)
  {
  }

  lemma TierFits(model: Option<string>, tier: Option<string>)
    ensures Supports(model, Some(NormalizeTier(tier))) <==> TierRank(tier) >= TierRank(Some(RequiredTier(model)))
  {
    NormalRank(tier);
  }

  /** An account is passed over exactly for one of these reasons. */
  lemma ExcludedIff(c: Config, r: Request, l: Load, t: Token)
    ensures !Eligible(c, r, l, t) <==>
              || (r.model.Some? && r.model.value != "" && TierRank(t.tier) < TierRank(Some(RequiredTier(r.model))))
              || (t.credits.Some? && t.credits.value <= c.minCredits)
              || MarkedExhausted(c, t, l.now)
              || (r.forImage && (!t.imageEnabled || (r.enforce && Full(l.image, t.id))))
              || (r.forVideo && (!t.videoEnabled || (r.enforce && Full(l.video, t.id))))
  {
    TierFits(r.model, t.tier);
    QuotaIs(c, t, l.now);
    FullIs(l.image, t.id);
    FullIs(l.video, t.id);
  }

  lemma NormalRank(tier: Option<string>)
    ensures TierRank(Some(NormalizeTier(tier))) == TierRank(tier)
  {
    var name := NormalizeTier(tier);
    RankIs(tier);
    NamedRank(name, TierRank(tier));
  }

  /** Who passes when tried: without a reservation everyone whose refresh works, if it needs one; with one, in
      addition, whoever has a slot left of the kind. */
  lemma PassesIff(r: Request, l: Load, valid: set<TokenId>, x: Candidate)
    ensures Passes(r, l, valid, x) <==>
              && (!x.token.stale || x.token.id in valid)
              && (!r.reserve || (if r.forImage then !Full(l.image, x.token.id)
                                 else !r.forVideo || !Full(l.video, x.token.id)))
  {
  }

  /** Of two candidates that pass, the better one is chosen. */
  lemma BetterWins(c: Config, r: Request, l: Load, x: Candidate, y: Candidate, valid: set<TokenId>,
      last: Option<TokenId>)
    requires !c.polling && x.token.id != y.token.id && Better(c, r, x, y)
    requires Passes(r, l, valid, x) && Passes(r, l, valid, y)
    ensures Selection(c, r, l, [x, y], valid, last).0 == Some(x)
    ensures Selection(c, r, l, [y, x], valid, last).0 == Some(x)
  {
    SelectionIsBest(c, r, l, [x, y], valid, last);
    SelectionIsBest(c, r, l, [y, x], valid, last);
  }

  /** An account that needs no refresh wins over one that does. */
  lemma ReadyWins(c: Config, r: Request, l: Load, x: Candidate, y: Candidate, valid: set<TokenId>,
      last: Option<TokenId>)
    requires !c.polling && x.token.id != y.token.id && Passes(r, l, valid, x) && Passes(r, l, valid, y)
    requires !x.token.stale && y.token.stale
    ensures Selection(c, r, l, [y, x], valid, last).0 == Some(x)
  {
    BetterWins(c, r, l, x, y, valid, last);
  }

  /** Otherwise one with room wins over a full one. */
  lemma RoomWins(c: Config, r: Request, l: Load, x: Candidate, y: Candidate, valid: set<TokenId>,
      last: Option<TokenId>)
    requires !c.polling && x.token.id != y.token.id && Passes(r, l, valid, x) && Passes(r, l, valid, y)
    requires x.token.stale == y.token.stale && !x.saturated && y.saturated
    ensures Selection(c, r, l, [y, x], valid, last).0 == Some(x)
  {
    BetterWins(c, r, l, x, y, valid, last);
  }

  /** A request for images of a model that any paid tier runs. */
  predicate SavesTopTier(r: Request) {
    r.forImage && NeedsPaid(Name(r)) && !NeedsTop(Name(r))
  }

  function Name(r: Request): string {
    Text.LowerAll(Text.Strip(r.model.GetOr("")))
  }

  lemma SavesIff(r: Request)
    ensures r.forImage && RequiredTier(r.model) == TIER_ONE <==> SavesTopTier(r)
  {
    RequiredIs(r.model);
    NamesDiffer();
  }

  /** Then, if higher tiers are preferred, the higher tier wins, but for images of models that any paid tier
      runs the lower one does. */
  lemma TierWins(c: Config, r: Request, l: Load, x: Candidate, y: Candidate, valid: set<TokenId>,
      last: Option<TokenId>)
    requires !c.polling && x.token.id != y.token.id && Passes(r, l, valid, x) && Passes(r, l, valid, y)
    requires x.token.stale == y.token.stale && x.saturated == y.saturated && c.preferHigherTier
    requires if SavesTopTier(r) then TierRank(x.token.tier) < TierRank(y.token.tier)
             else TierRank(x.token.tier) > TierRank(y.token.tier)
    ensures Selection(c, r, l, [y, x], valid, last).0 == Some(x)
  {
    SavesIff(r);
    BetterWins(c, r, l, x, y, valid, last);
  }

  /** Then the smaller load; an unlimited account before a limited one; more room; and the draw. */
  lemma LoadWins(c: Config, r: Request, l: Load, x: Candidate, y: Candidate, valid: set<TokenId>,
      last: Option<TokenId>)
    requires !c.polling && x.token.id != y.token.id && Passes(r, l, valid, x) && Passes(r, l, valid, y)
    requires x.token.stale == y.token.stale && x.saturated == y.saturated
    requires !c.preferHigherTier || TierRank(x.token.tier) == TierRank(y.token.tier)
    requires || x.inflight < y.inflight
             || (x.inflight == y.inflight && x.remaining.None? && y.remaining.Some?)
             || (x.inflight == y.inflight && x.remaining.Some? && y.remaining.Some?
                 && x.remaining.value > y.remaining.value)
             || (x.inflight == y.inflight && x.remaining == y.remaining && x.roll < y.roll)
    ensures Selection(c, r, l, [y, x], valid, last).0 == Some(x)
  {
    BetterWins(c, r, l, x, y, valid, last);
  }

  // ---------------------------------------------------------------- pending counts

  function At(counts: map<TokenId, int>, id: TokenId): int {
    if id in counts && counts[id] > 0 then counts[id] else 0
  }

  function Less(counts: map<TokenId, int>, id: TokenId): map<TokenId, int> {
    if id in counts && counts[id] > 1 then counts[id := counts[id] - 1] else counts - {id}
  }

  /** Counting a selection and taking it back leave every other account and kind alone; counts are of the
      image kind whenever the request is for images, and an entry goes when its count would reach zero. */
  lemma PendingIs(p: Pending, id: TokenId, forImage: bool, forVideo: bool)
    ensures var q := AddPending(p, id, forImage, forVideo);
            && q.image == (if forImage then p.image[id := At(p.image, id) + 1] else p.image)
            && q.video == (if forVideo && !forImage then p.video[id := At(p.video, id) + 1] else p.video)
    ensures var q := ReleasePending(p, id, forImage, forVideo);
            && q.image == (if forImage then Less(p.image, id) else p.image)
            && q.video == (if forVideo && !forImage then Less(p.video, id) else p.video)
  {
  }

  /** Polling keeps one turn for image requests, one for video requests and one for all others; an account
      remembered by one of them, and only by that one, is the one the next turn is after. */
  lemma TurnsAre(r: Request, turns: map<Turn, TokenId>, t: Turn, u: Turn, id: TokenId, x: Candidate)
    ensures TurnOf(r) == (match (r.forImage, r.forVideo)
                          case (true, _) => ImageTurn
                          case (false, true) => VideoTurn
                          case (false, false) => DefaultTurn)
    ensures LastOf(turns[t := id], t) == Some(id) && LastOf(turns - {t}, t) == None
    ensures t != u ==> LastOf(turns[t := id], u) == LastOf(turns, u)
    ensures ChosenId(Some(x)) == Some(x.token.id) && ChosenId(None) == None
  {
  }
}
