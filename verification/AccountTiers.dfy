/** Account tiers and what they may run (src/core/account_tiers.py). */
module AccountTiers {
  import opened Prelude
  import opened Text

  const NOT_PAID := "PAYGATE_TIER_NOT_PAID"
  const TIER_ONE := "PAYGATE_TIER_ONE"
  const TIER_TWO := "PAYGATE_TIER_TWO"

  function NormalizeTier(tier: Option<string>): string {
    var t := Strip(tier.GetOr(""));
    if t == NOT_PAID || t == TIER_ONE || t == TIER_TWO then t else NOT_PAID
  }

  function TierRank(tier: Option<string>): (rank: int)
    ensures 0 <= rank <= 2
  {
    var t := NormalizeTier(tier);
    if t == TIER_TWO then 2 else if t == TIER_ONE then 1 else 0
  }

  function RequiredTier(model: Option<string>): string {
    var m := LowerAll(Strip(model.GetOr("")));
    if m == "" then NOT_PAID
    else if EndsWith(m, "-4k") || EndsWith(m, "_4k") || Contains(m, "_ultra") then TIER_TWO
    else if EndsWith(m, "-2k") || EndsWith(m, "_1080p") then TIER_ONE
    else NOT_PAID
  }

  predicate Supports(model: Option<string>, tier: Option<string>) {
    TierRank(tier) >= TierRank(Some(RequiredTier(model)))
  }

  /** A tier never supports less than a lower one, and the top tier supports everything. */
  lemma SupportsGrows(model: Option<string>, low: Option<string>, high: Option<string>)
    ensures TierRank(low) <= TierRank(high) && Supports(model, low) ==> Supports(model, high)
    ensures TierRank(high) == 2 ==> Supports(model, high)
  {
  }

  /** The tiers by name, blanks aside; anything else counts as not paid. */
  lemma RankIs(tier: Option<string>)
    ensures var name := Strip(tier.GetOr(""));
            && (TierRank(tier) == 2 <==> name == "PAYGATE_TIER_TWO")
            && (TierRank(tier) == 1 <==> name == "PAYGATE_TIER_ONE")
            && NormalizeTier(tier) == (if name == "PAYGATE_TIER_TWO" then name
                                       else if name == "PAYGATE_TIER_ONE" then name else "PAYGATE_TIER_NOT_PAID")
  {
    NamesDiffer();
  }

  lemma NamesDiffer()
    ensures "PAYGATE_TIER_ONE" != "PAYGATE_TIER_TWO" && "PAYGATE_TIER_ONE" != "PAYGATE_TIER_NOT_PAID"
    ensures "PAYGATE_TIER_TWO" != "PAYGATE_TIER_NOT_PAID"
  {
    assert "PAYGATE_TIER_ONE"[13] != "PAYGATE_TIER_TWO"[13];
    assert |"PAYGATE_TIER_ONE"| != |"PAYGATE_TIER_NOT_PAID"| && |"PAYGATE_TIER_TWO"| != |"PAYGATE_TIER_NOT_PAID"|;
  }

  /** The models only the top tier runs, by name in lower case. */
  predicate NeedsTop(name: string) {
    EndsWith(name, "-4k") || EndsWith(name, "_4k") || Contains(name, "_ultra")
  }

  /** The models any paid tier runs. */
  predicate NeedsPaid(name: string) {
    EndsWith(name, "-2k") || EndsWith(name, "_1080p")
  }

  lemma RequiredIs(model: Option<string>)
    ensures var name := LowerAll(Strip(model.GetOr("")));
            RequiredTier(model) == if NeedsTop(name) then "PAYGATE_TIER_TWO"
                                   else if NeedsPaid(name) then "PAYGATE_TIER_ONE" else "PAYGATE_TIER_NOT_PAID"
  {
    var name := LowerAll(Strip(model.GetOr("")));
    if name == "" {
      NoNameNeedsNothing(name);
    }
  }

  lemma NoNameNeedsNothing(name: string)
    requires name == ""
    ensures !NeedsTop(name) && !NeedsPaid(name)
  {
  }

  lemma NamedRank(name: string, rank: int)
    requires name == match rank case 2 => "PAYGATE_TIER_TWO" case 1 => "PAYGATE_TIER_ONE"
                                case _ => "PAYGATE_TIER_NOT_PAID"
    requires 0 <= rank <= 2
    ensures TierRank(Some(name)) == rank
  {
    assert Stripped(name);
    StripFixed(name);
    NamesDiffer();
  }

  lemma RequiredRank(model: Option<string>)
    ensures var name := LowerAll(Strip(model.GetOr("")));
            TierRank(Some(RequiredTier(model))) == if NeedsTop(name) then 2 else if NeedsPaid(name) then 1 else 0
  {
    var name := LowerAll(Strip(model.GetOr("")));
    RequiredIs(model);
    NamedRank(RequiredTier(model), if NeedsTop(name) then 2 else if NeedsPaid(name) then 1 else 0);
  }

  /** The tier a model needs is just enough: no lower one supports it. With RequiredRank, only the top tier runs
      4k and ultra models, only paid ones 2k and 1080p ones, and any the rest. */
  lemma JustEnough(model: Option<string>, tier: Option<string>, need: int)
    requires need == TierRank(Some(RequiredTier(model)))
    ensures TierRank(tier) == need ==> Supports(model, tier)
    ensures TierRank(tier) < need ==> !Supports(model, tier)
  {
  }
}
