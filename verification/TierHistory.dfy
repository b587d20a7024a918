/** Pool membership in terms of the tier strings that verified snapshots carry
    (src/core/account_lifecycle.py with src/core/repositories/token_lifecycle_repository.py). */
module TierHistory {
  import opened Prelude
  import opened AccountLifecycle
  import opened TokenLifecycle

  /** What a snapshot's tier says: true for a paid one, false for none; a missing or unknown one says nothing. */
  function Votes(raw: seq<Option<string>>): seq<bool>
    decreases |raw|
  {
    if raw == [] then []
    else
      var before, last := Votes(raw[..|raw| - 1]), raw[|raw| - 1];
      if last == Some("PAYGATE_TIER_ONE") || last == Some("PAYGATE_TIER_TWO") then before + [true]
      else if last == Some("PAYGATE_TIER_NOT_PAID") then before + [false]
      else before
  }

  /** The last two votes in a row that agree are both against. */
  ghost predicate LastAgreedUnpaid(votes: seq<bool>) {
    exists i: nat :: 0 < i < |votes| && !votes[i - 1] && !votes[i] && NoneAgreeAfter(votes, i)
  }

  predicate NoneAgreeAfter(votes: seq<bool>, i: nat) {
    forall j :: i < j < |votes| ==> votes[j - 1] != votes[j]
  }

  /** The tiers of the snapshots that were accepted, as they came. */
  function AcceptedTiers(db: Db, id: TokenId, os: seq<Observation>): seq<Option<string>>
    decreases |os|
  {
    if os == [] then []
    else
      var before, o := AcceptedTiers(db, id, os[..|os| - 1]), os[|os| - 1];
      if ObserveDb(Observations(db, id, os[..|os| - 1]).0, id, o).Ok? then before + [o.snapshot.tier] else before
  }

  function ClassifyAll(raw: seq<Option<string>>): (tiers: seq<Tier>)
    ensures |tiers| == |raw|
    decreases |raw|
  {
    if raw == [] then [] else ClassifyAll(raw[..|raw| - 1]) + [Classify(raw[|raw| - 1])]
  }

  lemma {:induction false} TiersAreClassified(db: Db, id: TokenId, os: seq<Observation>)
    ensures Observations(db, id, os).2 == ClassifyAll(AcceptedTiers(db, id, os))
    decreases |os|
  {
    if os != [] {
      var before, o := AcceptedTiers(db, id, os[..|os| - 1]), os[|os| - 1];
      TiersAreClassified(db, id, os[..|os| - 1]);
      ClassifySnoc(before, o.snapshot.tier);
    }
  }

  lemma ClassifySnoc(raw: seq<Option<string>>, x: Option<string>)
    ensures ClassifyAll(raw + [x]) == ClassifyAll(raw) + [Classify(x)]
  {
    assert (raw + [x])[..|raw|] == raw;
  }

  predicate Agree(known: seq<Tier>, votes: seq<bool>) {
    |known| == |votes| && forall i :: 0 <= i < |known| ==> known[i] == if votes[i] then Paid else Free
  }

  lemma ClassifyVotes(x: Option<string>)
    ensures x == Some("PAYGATE_TIER_ONE") || x == Some("PAYGATE_TIER_TWO") ==> Classify(x) == Paid
    ensures x == Some("PAYGATE_TIER_NOT_PAID") ==> Classify(x) == Free
    ensures x != Some("PAYGATE_TIER_ONE") && x != Some("PAYGATE_TIER_TWO") && x != Some("PAYGATE_TIER_NOT_PAID") ==>
              Classify(x) == Unknown
  {
    assert "PAYGATE_TIER_ONE" != "PAYGATE_TIER_NOT_PAID" by {
      assert |"PAYGATE_TIER_ONE"| != |"PAYGATE_TIER_NOT_PAID"|;
    }
    assert "PAYGATE_TIER_TWO" != "PAYGATE_TIER_NOT_PAID" by {
      assert |"PAYGATE_TIER_TWO"| != |"PAYGATE_TIER_NOT_PAID"|;
    }
  }

  lemma KnownSnoc(tiers: seq<Tier>, x: Tier)
    ensures Known(tiers + [x]) == if x == Unknown then Known(tiers) else Known(tiers) + [x]
  {
    assert (tiers + [x])[..|tiers|] == tiers;
  }

  lemma {:induction false} KnownAreVotes(raw: seq<Option<string>>)
    ensures Agree(Known(ClassifyAll(raw)), Votes(raw))
    decreases |raw|
  {
    if raw != [] {
      var before, x := raw[..|raw| - 1], raw[|raw| - 1];
      KnownAreVotes(before);
      KnownSnoc(ClassifyAll(before), Classify(x));
      ClassifyVotes(x);
    }
  }

  lemma PairsAgree(known: seq<Tier>, votes: seq<bool>)
    requires Agree(known, votes)
    ensures LastPairFree(known) <==> LastAgreedUnpaid(votes)
  {
    if LastPairFree(known) {
      var i: nat :| LastPair(known, i) && known[i] == Free;
      assert !votes[i - 1] && !votes[i] && NoneAgreeAfter(votes, i);
    }
    if LastAgreedUnpaid(votes) {
      var i: nat :| 0 < i < |votes| && !votes[i - 1] && !votes[i] && NoneAgreeAfter(votes, i);
      assert LastPair(known, i);
    }
  }

  /** An account that started clean is out of the pool, under the membership ban, exactly when the last two
      agreeing tiers among the known ones of its accepted snapshots were both PAYGATE_TIER_NOT_PAID; tiers one
      and two agree with each other, and a missing or unknown tier counts for nothing. */
  lemma CleanAccountByTiers(db: Db, id: TokenId, os: seq<Observation>)
    requires Coupled(db, id) && db.lives[id].membership == State(Active, Unknown, 0)
    ensures var d := Observations(db, id, os).0; var votes := Votes(AcceptedTiers(db, id, os));
            && id in d.tokens
            && (d.tokens[id].active <==> !LastAgreedUnpaid(votes))
            && d.tokens[id].ban == if LastAgreedUnpaid(votes) then Some(MembershipExpired) else None
  {
    CleanAccountClosedForm(db, id, os);
    TiersAreClassified(db, id, os);
    KnownAreVotes(AcceptedTiers(db, id, os));
    PairsAgree(Known(Observations(db, id, os).2), Votes(AcceptedTiers(db, id, os)));
  }

  predicate NeverUnpaid(os: seq<Observation>) {
    forall i :: 0 <= i < |os| ==> os[i].snapshot.tier != Some("PAYGATE_TIER_NOT_PAID")
  }

  lemma {:induction false} AllVotesFor(db: Db, id: TokenId, os: seq<Observation>)
    requires NeverUnpaid(os)
    ensures forall i :: 0 <= i < |Votes(AcceptedTiers(db, id, os))| ==> Votes(AcceptedTiers(db, id, os))[i]
    decreases |os|
  {
    if os != [] {
      AllVotesFor(db, id, os[..|os| - 1]);
      var before, x := AcceptedTiers(db, id, os[..|os| - 1]), os[|os| - 1].snapshot.tier;
      assert (before + [x])[..|before|] == before;
    }
  }

  /** Snapshots that never name PAYGATE_TIER_NOT_PAID never retire a clean account. */
  lemma PayingStays(db: Db, id: TokenId, os: seq<Observation>)
    requires Coupled(db, id) && db.lives[id].membership == State(Active, Unknown, 0) && NeverUnpaid(os)
    ensures var d := Observations(db, id, os).0; id in d.tokens && d.tokens[id].active && d.tokens[id].ban == None
  {
    CleanAccountByTiers(db, id, os);
    AllVotesFor(db, id, os);
  }
}
