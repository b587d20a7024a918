/** Two-observation hysteresis between active and retired accounts
    (src/core/account_lifecycle.py, src/core/token_states.py). */
module AccountLifecycle {
  import opened Prelude
  import opened AccountTiers

  datatype Tier = Paid | Free | Unknown

  datatype Status = Active | Retired

  datatype State = State(confirmed: Status, candidate: Tier, count: int)

  const INITIAL := State(Active, Unknown, 0)

  const REQUIRED_OBSERVATIONS := 2

  /** The tier that speaks against a confirmed status. */
  function Opposing(s: Status): Tier {
    if s == Active then Free else Paid
  }

  /** The checks the state's constructor makes before it accepts the fields. */
  predicate WellFormed(s: State) {
    && (s.count == 0 || s.count == 1)
    && (s.candidate == Unknown ==> s.count == 0)
    && (s.candidate != Unknown ==> s.count == 1 && s.candidate == Opposing(s.confirmed))
  }

  /** The four states there are: settled, or one observation into a change. */
  lemma WellFormedIs(s: State)
    ensures WellFormed(s) <==>
              || s == State(Active, Unknown, 0) || s == State(Retired, Unknown, 0)
              || s == State(Active, Free, 1) || s == State(Retired, Paid, 1)
  {
    assert s == State(s.confirmed, s.candidate, s.count);
    match s.confirmed
    case Active =>
    case Retired =>
  }

  function Classify(tier: Option<string>): Tier {
    if tier == Some(NOT_PAID) then Free
    else if tier == Some(TIER_ONE) || tier == Some(TIER_TWO) then Paid
    else Unknown
  }

  function Transition(s: State, seen: Tier): (r: State)
    ensures WellFormed(s) ==> WellFormed(r)
  {
    if seen == Unknown then s
    else if seen != Opposing(s.confirmed) then
      if s.candidate == Unknown then s else State(s.confirmed, Unknown, 0)
    else
      var n := if s.candidate == seen then s.count + 1 else 1;
      if n < REQUIRED_OBSERVATIONS then State(s.confirmed, seen, n)
      else State(if seen == Free then Retired else Active, Unknown, 0)
  }

  function Observe(s: State, tier: Option<string>): State {
    Transition(s, Classify(tier))
  }

  /** The state after a whole history of observations, oldest first. */
  function After(s: State, history: seq<Tier>): (r: State)
    ensures WellFormed(s) ==> WellFormed(r)
    decreases |history|
  {
    if history == [] then s else Transition(After(s, history[..|history| - 1]), history[|history| - 1])
  }

  // ---------------------------------------------------------------- closed form

  function Known(history: seq<Tier>): (r: seq<Tier>)
    ensures Unknown !in r
    decreases |history|
  {
    if history == [] then []
    else
      var before := Known(history[..|history| - 1]);
      if history[|history| - 1] == Unknown then before else before + [history[|history| - 1]]
  }

  /** The position of the later member of the last adjacent equal pair, if there is one. */
  ghost predicate LastPair(h: seq<Tier>, i: nat) {
    && 0 < i < |h| && h[i - 1] == h[i]
    && forall j :: i < j < |h| ==> h[j - 1] != h[j]
  }

  ghost predicate NoPair(h: seq<Tier>) {
    forall j :: 0 < j < |h| ==> h[j - 1] != h[j]
  }

  /** Status Retired iff the last adjacent equal pair of known tiers is Free, Free; the candidate is
      the last known tier iff that opposes the status. */
  ghost predicate ClosedForm(h: seq<Tier>, s: State) {
    && (s.confirmed == Retired <==> exists i: nat :: LastPair(h, i) && h[i] == Free)
    && (s.confirmed == Active <==> NoPair(h) || exists i: nat :: LastPair(h, i) && h[i] == Paid)
    && s.candidate == (if h != [] && h[|h| - 1] == Opposing(s.confirmed) then h[|h| - 1] else Unknown)
    && s.count == (if s.candidate == Unknown then 0 else 1)
  }

  lemma PairExtends(h: seq<Tier>, x: Tier)
    ensures h != [] && h[|h| - 1] == x ==> LastPair(h + [x], |h|)
    ensures h == [] || h[|h| - 1] != x ==> forall i: nat :: LastPair(h + [x], i) <==> LastPair(h, i)
    ensures h == [] || h[|h| - 1] != x ==> (NoPair(h + [x]) <==> NoPair(h))
  {
    var e := h + [x];
    assert forall j :: 0 <= j < |h| ==> e[j] == h[j];
    if h == [] || h[|h| - 1] != x {
      forall i: nat ensures LastPair(e, i) <==> LastPair(h, i) {
        if LastPair(h, i) {
          assert LastPair(e, i);
        }
      }
      if NoPair(e) {
        assert forall j :: 0 < j < |h| ==> e[j - 1] != e[j];
      }
    }
  }

  lemma LastPairUnique(h: seq<Tier>, i: nat, j: nat)
    requires LastPair(h, i) && LastPair(h, j)
    ensures i == j && !NoPair(h)
  {
  }

  /** The state after any history, in one formula over its known observations. */
  lemma {:induction false} HistoryClosedForm(history: seq<Tier>)
    ensures ClosedForm(Known(history), After(INITIAL, history))
    decreases |history|
  {
    if history == [] {
      assert Known(history) == [] && NoPair(Known(history));
    } else {
      var front, x := history[..|history| - 1], history[|history| - 1];
      HistoryClosedForm(front);
      if x != Unknown {
        ClosedFormStep(Known(front), After(INITIAL, front), x);
      }
    }
  }

  lemma ClosedFormStep(h: seq<Tier>, s: State, x: Tier)
    requires Unknown !in h && ClosedForm(h, s) && x != Unknown
    ensures ClosedForm(h + [x], Transition(s, x))
  {
    var e, t := h + [x], Transition(s, x);
    PairExtends(h, x);
    if h != [] && h[|h| - 1] == x {
      assert LastPair(e, |h|) && e[|h|] == x;
      forall i: nat | LastPair(e, i) ensures i == |h| {
        LastPairUnique(e, i, |h|);
      }
    } else {
      forall i: nat | LastPair(e, i) ensures e[i] == h[i] {
      }
      assert t.confirmed == s.confirmed;
    }
  }

  /** Whatever is observed, and from the initial state on, the constructor's checks never fail. */
  lemma NeverMalformed(history: seq<Tier>)
    ensures WellFormed(After(INITIAL, history))
  {
  }

  /** One stray observation never changes the status: it takes two known ones in a row. */
  lemma OneObservationNeverFlips(s: State, x: Tier, y: Tier)
    requires WellFormed(s) && Transition(s, x).confirmed != s.confirmed
    ensures s.candidate == x == Opposing(s.confirmed)
    ensures Transition(Transition(s, x), y).confirmed == Transition(s, x).confirmed
  {
  }
}
