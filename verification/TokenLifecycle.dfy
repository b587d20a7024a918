/** Verified snapshots, publication and ban ownership
    (src/core/repositories/token_lifecycle_repository.py). Each transaction is one step. */
module TokenLifecycle {
  import opened Prelude
  import opened Text
  import opened AccountLifecycle

  type TokenId = nat

  datatype Reason =
    | RateLimit429 | StRevoked | GrantExpired | MembershipExpired
    | ManualDisabled | ConsecutiveErrors | OnboardingPending | OtherReason(text: string)

  datatype TokenRow = TokenRow(
    email: string, st: string, at: string, atExpires: Option<int>, name: string, credits: int,
    tier: Option<string>, active: bool, ban: Option<Reason>, bannedAt: Option<int>)

  datatype LifeRow = LifeRow(
    membership: State, keepalive: bool, runtimeMode: string, profileState: string, verifiedEmail: Option<string>,
    keepaliveFailures: nat, nextDue: Option<int>, lastTier: Option<string>, lastObserved: Option<int>,
    retiredAt: Option<int>, restoredAt: Option<int>)

  datatype Db = Db(tokens: map<TokenId, TokenRow>, lives: map<TokenId, LifeRow>)

  datatype Snapshot = Snapshot(
    email: string, normalizedEmail: string, name: string, st: string, at: string, atExpires: Option<int>,
    credits: int, tier: Option<string>)

  datatype Failure = NotFound | IdentityMismatch | ProfileMismatch | SessionTaken | WarmRejected | BadRuntimeMode | Vanished

  datatype PoolChange = Unchanged | Retire | Restore

  /** Who may use the account: the three columns every writer below fights over. */
  datatype Pool = Pool(active: bool, ban: Option<Reason>, bannedAt: Option<int>)

  function PoolOf(row: TokenRow): Pool {
    Pool(row.active, row.ban, row.bannedAt)
  }

  function WithPool(row: TokenRow, p: Pool): TokenRow {
    row.(active := p.active, ban := p.ban, bannedAt := p.bannedAt)
  }

  /** Bans owned by an operator or a failure policy: lifecycle writes must leave them alone. */
  predicate Protected(ban: Option<Reason>) {
    ban == Some(ManualDisabled) || ban == Some(RateLimit429) || ban == Some(ConsecutiveErrors)
  }

  predicate AuthRecovery(ban: Option<Reason>) {
    ban == Some(GrantExpired) || ban == Some(StRevoked)
  }

  function NormalizeEmail(email: string): string {
    LowerAll(Strip(email))
  }

  // ---------------------------------------------------------------- transactions

  function ResolvePool(row: Pool, before: Status, after: Status, now: int, allowAuth: bool): (Pool, PoolChange) {
    var p := if allowAuth && AuthRecovery(row.ban) then Pool(true, None, None) else row;
    if before == Active && after == Retired && p.active && p.ban == None then
      (Pool(false, Some(MembershipExpired), Some(now)), Retire)
    else if before == Retired && after == Active && !p.active && p.ban == Some(MembershipExpired) then
      (Pool(true, None, None), Restore)
    else (p, Unchanged)
  }

  /** The first check that rejects a snapshot for `id`, if any. */
  function Rejection(db: Db, id: TokenId, s: Snapshot): Option<Failure> {
    if id !in db.tokens || id !in db.lives then Some(NotFound)
    else
      var verified := NormalizeEmail(db.lives[id].verifiedEmail.GetOr(""));
      if s.normalizedEmail != NormalizeEmail(db.tokens[id].email) then Some(IdentityMismatch)
      else if verified != "" && s.normalizedEmail != verified then Some(ProfileMismatch)
      else if exists other :: other in db.tokens && other != id && db.tokens[other].st == s.st then Some(SessionTaken)
      else None
  }

  function SnapshotToken(row: TokenRow, s: Snapshot, p: Pool): TokenRow {
    TokenRow(row.email, s.st, s.at, if s.atExpires == None then row.atExpires else s.atExpires,
             if s.name == "" then row.name else s.name, s.credits, if s.tier == None then row.tier else s.tier,
             p.active, p.ban, p.bannedAt)
  }

  function SnapshotLife(row: LifeRow, s: Snapshot, next: State, change: PoolChange, now: int, due: Option<int>): LifeRow {
    LifeRow(next, row.keepalive, row.runtimeMode, "ready", Some(s.email), 0,
            if due == None then row.nextDue else due, s.tier, Some(now),
            if change == Retire then Some(now) else row.retiredAt,
            if change == Restore then Some(now) else row.restoredAt)
  }

  /** `apply_verified_snapshot`: all of it, or nothing. */
  function ApplySnapshot(db: Db, id: TokenId, s: Snapshot, now: int, due: Option<int>, allowAuth: bool)
      : Result<(Db, PoolChange), Failure> {
    var bad := Rejection(db, id, s);
    if bad.Some? then Err(bad.value)
    else
      var token, life := db.tokens[id], db.lives[id];
      var next := Observe(life.membership, s.tier);
      var (p, change) := ResolvePool(PoolOf(token), life.membership.confirmed, next.confirmed, now, allowAuth);
      Ok((Db(db.tokens[id := SnapshotToken(token, s, p)], db.lives[id := SnapshotLife(life, s, next, change, now,
          due)]), change))
  }

  /** The second transaction of `publish_verified_account`. */
  function DesiredPool(p: Pool, business: bool): Pool {
    var ban := if p.ban == Some(OnboardingPending) then None else p.ban;
    var active := if ban != None then p.active else business;
    var ban' := if !business && ban == None then Some(ManualDisabled) else ban;
    Pool(active, ban', if ban' == None then None else p.bannedAt)
  }

  function PublishDesired(db: Db, id: TokenId, keepalive: bool, business: bool): Result<Db, Failure> {
    if id !in db.tokens then Err(Vanished)
    else
      var row := db.tokens[id];
      Ok(Db(db.tokens[id := WithPool(row, DesiredPool(PoolOf(row), business))],
          Publishing(db.lives, id, keepalive, "persistent")))
  }

  function Publishing(lives: map<TokenId, LifeRow>, id: TokenId, keepalive: bool, mode: string): map<TokenId, LifeRow> {
    if id in lives then lives[id := lives[id].(keepalive := keepalive, runtimeMode := mode, profileState := "ready")]
        else lives
  }

  /** `finalize_onboarding_state`. */
  function Finalize(db: Db, id: TokenId, keepalive: bool, mode: string, enable: bool, now: int): Result<Db, Failure> {
    if mode != "persistent" && mode != "warm" then Err(BadRuntimeMode)
    else if id !in db.tokens || id !in db.lives then Err(NotFound)
    else
      var row := db.tokens[id];
      var p := if row.ban != Some(OnboardingPending) then PoolOf(row)
               else if enable then Pool(true, None, None) else Pool(false, Some(ManualDisabled), Some(now));
      Ok(Db(db.tokens[id := WithPool(row, p)], Publishing(db.lives, id, keepalive, mode)))
  }

  /** The writers outside this repository, statement by statement (src/services/token_manager.py). */
  datatype Write =
    | SetActive                                // first half of enabling or unbanning
    | ClearBan                                 // its second half
    | Disable(reason: Reason, now: int)        // operator, rate limit, error threshold, revocation
    | MarkRefreshFailure(failure: Reason)      // a failed refresh overwrites ban_reason only

  function WritePool(p: Pool, w: Write): Pool {
    match w
    case SetActive => p.(active := true)
    case ClearBan => p.(ban := None, bannedAt := None)
    case Disable(reason, now) => Pool(false, Some(reason), Some(now))
    case MarkRefreshFailure(failure) => p.(ban := Some(failure))
  }

  function ApplyWrite(db: Db, id: TokenId, w: Write): Db {
    if id in db.tokens then
      db.(tokens := db.tokens[id := WithPool(db.tokens[id], WritePool(PoolOf(db.tokens[id]), w))])
    else db
  }

  // ---------------------------------------------------------------- interleaved runs

  /** A publication between its two transactions. */
  datatype Publication = Publication(id: TokenId, keepalive: bool, business: bool)

  datatype World = World(db: Db, publishing: map<nat, Publication>)

  datatype Event =
    | Snap(id: TokenId, snapshot: Snapshot, now: int, due: Option<int>, allowAuth: bool)
    | PublishBegin(task: nat, id: TokenId, snapshot: Snapshot, mode: string, keepalive: bool, business: bool, now: int)
    | PublishCommit(task: nat)
    | FinalizeOnboarding(id: TokenId, keepalive: bool, mode: string, enable: bool, now: int)
    | External(id: TokenId, write: Write)

  function DbOr(r: Result<Db, Failure>, db: Db): Db {
    match r
    case Ok(d) => d
    case Err(_) => db
  }

  function SnapshotDb(r: Result<(Db, PoolChange), Failure>, db: Db): Db {
    match r
    case Ok((d, _)) => d
    case Err(_) => db
  }

  function Step(w: World, e: Event): World {
    match e
    case Snap(id, s, now, due, allowAuth) => w.(db := SnapshotDb(ApplySnapshot(w.db, id, s, now, due, allowAuth), w.db))
    case PublishBegin(task, id, s, mode, keepalive, business, now) =>
      if mode != "persistent" || task in w.publishing then w
      else
        var r := ApplySnapshot(w.db, id, s, now, None, true);
        if r.Err? then w else World(r.value.0, w.publishing[task := Publication(id, keepalive, business)])
    case PublishCommit(task) =>
      if task !in w.publishing then w
      else
        var p := w.publishing[task];
        World(DbOr(PublishDesired(w.db, p.id, p.keepalive, p.business), w.db), w.publishing - {task})
    case FinalizeOnboarding(id, keepalive, mode, enable, now) =>
      w.(db := DbOr(Finalize(w.db, id, keepalive, mode, enable, now), w.db))
    case External(id, write) => w.(db := ApplyWrite(w.db, id, write))
  }

  function Run(w: World, es: seq<Event>): World
    decreases |es|
  {
    if es == [] then w else Run(Step(w, es[0]), es[1..])
  }

  predicate Untouched(es: seq<Event>, id: TokenId) {
    forall i :: 0 <= i < |es| && es[i].External? ==> es[i].id != id
  }

  // ---------------------------------------------------------------- ban ownership

  predicate ProtectedIn(w: World, id: TokenId) {
    id in w.db.tokens && Protected(w.db.tokens[id].ban)
  }

  lemma SnapshotKeepsProtected(db: Db, target: TokenId, s: Snapshot, now: int, due: Option<int>, allowAuth: bool,
      id: TokenId)
    requires id in db.tokens && Protected(db.tokens[id].ban)
    ensures var d := SnapshotDb(ApplySnapshot(db, target, s, now, due, allowAuth), db);
            id in d.tokens && PoolOf(d.tokens[id]) == PoolOf(db.tokens[id])
  {
  }

  lemma StepKeepsProtected(w: World, e: Event, id: TokenId)
    requires ProtectedIn(w, id)
    requires e.External? ==> e.id != id
    ensures id in Step(w, e).db.tokens && PoolOf(Step(w, e).db.tokens[id]) == PoolOf(w.db.tokens[id])
  {
    match e
    case Snap(target, s, now, due, allowAuth) => SnapshotKeepsProtected(w.db, target, s, now, due, allowAuth, id);
    case PublishBegin(_, target, s, _, _, _, now) => SnapshotKeepsProtected(w.db, target, s, now, None, true, id);
    case _ =>
  }

  /** However snapshots, publications and finalisations interleave, an account under a protected ban
      keeps that ban and is not activated. */
  lemma {:induction false} ProtectedBanSurvives(w: World, es: seq<Event>, id: TokenId)
    requires ProtectedIn(w, id) && Untouched(es, id)
    ensures id in Run(w, es).db.tokens && PoolOf(Run(w, es).db.tokens[id]) == PoolOf(w.db.tokens[id])
    decreases |es|
  {
    if es != [] {
      StepKeepsProtected(w, es[0], id);
      ProtectedBanSurvives(Step(w, es[0]), es[1..], id);
    }
  }

  /** A disable that lands between the two transactions of a publication is still there after the
      second one, whatever else runs around it. */
  lemma DisableBetweenTransactionsWins(w: World, between: seq<Event>, task: nat, id: TokenId, reason: Reason, now: int)
    requires id in w.db.tokens && Protected(Some(reason)) && Untouched(between, id)
    ensures var end := Run(w, [External(id, Disable(reason, now))] + between + [PublishCommit(task)]);
            id in end.db.tokens && PoolOf(end.db.tokens[id]) == Pool(false, Some(reason), Some(now))
  {
    var es := [External(id, Disable(reason, now))] + (between + [PublishCommit(task)]);
    assert [External(id, Disable(reason, now))] + between + [PublishCommit(task)] == es;
    assert es[0] == External(id, Disable(reason, now)) && es[1..] == between + [PublishCommit(task)];
    ProtectedBanSurvives(Step(w, es[0]), es[1..], id);
  }

  /** After the second transaction commits, an account without a ban was wanted in business and is
      active, one with a ban is inactive only by that ban's owner, and only the placeholder was lifted. */
  lemma PublishCommitSettles(w: World, task: nat)
    requires task in w.publishing && w.publishing[task].id in w.db.tokens
    ensures var p := w.publishing[task];
            var before, after := PoolOf(w.db.tokens[p.id]), PoolOf(Step(w, PublishCommit(task)).db.tokens[p.id]);
            && (after.ban == None ==> p.business && after.active && after.bannedAt == None)
            && (after.ban == None <==> p.business && (before.ban == None || before.ban == Some(OnboardingPending)))
            && (after.ban != None && after.ban != before.ban ==>
                !p.business && after.ban == Some(ManualDisabled) && !after.active)
            && (before.ban != None && before.ban != Some(OnboardingPending) ==> after == before)
            && after.ban != Some(OnboardingPending)
  {
  }

  /** No step touches another account's pool columns, except an external write to that account. */
  lemma StepIsLocal(w: World, e: Event, id: TokenId)
    requires id in w.db.tokens
    requires match e {
               case Snap(i, _, _, _, _) => i != id
               case PublishBegin(_, i, _, _, _, _, _) => i != id
               case PublishCommit(task) => task !in w.publishing || w.publishing[task].id != id
               case FinalizeOnboarding(i, _, _, _, _) => i != id
               case External(i, _) => i != id
             }
    ensures id in Step(w, e).db.tokens && Step(w, e).db.tokens[id] == w.db.tokens[id]
  {
  }

  // ---------------------------------------------------------------- identity

  predicate SessionsDistinct(tokens: map<TokenId, TokenRow>) {
    forall i, j :: i in tokens && j in tokens && i != j ==> tokens[i].st != tokens[j].st
  }

  function Verified(life: LifeRow): string {
    NormalizeEmail(life.verifiedEmail.GetOr(""))
  }

  predicate OwnProfile(token: TokenRow, life: LifeRow) {
    Verified(life) == "" || Verified(life) == NormalizeEmail(token.email)
  }

  /** No two accounts share a session token, and a profile once verified stays that account's. */
  predicate IdentitiesHold(db: Db) {
    && SessionsDistinct(db.tokens)
    && forall i :: i in db.tokens && i in db.lives ==> OwnProfile(db.tokens[i], db.lives[i])
  }

  predicate Honest(e: Event) {
    match e
    case Snap(_, s, _, _, _) => s.normalizedEmail == NormalizeEmail(s.email)
    case PublishBegin(_, _, s, _, _, _, _) => s.normalizedEmail == NormalizeEmail(s.email)
    case _ => true
  }

  lemma SnapshotKeepsIdentities(db: Db, id: TokenId, s: Snapshot, now: int, due: Option<int>, allowAuth: bool)
    requires IdentitiesHold(db) && s.normalizedEmail == NormalizeEmail(s.email)
    ensures IdentitiesHold(SnapshotDb(ApplySnapshot(db, id, s, now, due, allowAuth), db))
  {
    var r := ApplySnapshot(db, id, s, now, due, allowAuth);
    if r.Ok? {
      SnapshotEffect(db, id, s, now, due, allowAuth);
      OneIdentityChanged(db, r.value.0, id, s);
    }
  }

  lemma OneIdentityChanged(db: Db, d: Db, id: TokenId, s: Snapshot)
    requires IdentitiesHold(db) && s.normalizedEmail == NormalizeEmail(s.email)
    requires SnapshotWrote(db, d, id, s)
    ensures IdentitiesHold(d)
  {
    assert Verified(d.lives[id]) == NormalizeEmail(s.email) == NormalizeEmail(d.tokens[id].email);
    NewSessionDistinct(db.tokens, d.tokens, id);
    forall i | i in d.tokens && i in d.lives
      ensures OwnProfile(d.tokens[i], d.lives[i])
    {
      if i != id {
        assert OwnProfile(db.tokens[i], db.lives[i]);
      }
    }
  }

  lemma NewSessionDistinct(tokens: map<TokenId, TokenRow>, tokens': map<TokenId, TokenRow>, id: TokenId)
    requires SessionsDistinct(tokens) && tokens'.Keys == tokens.Keys && id in tokens
    requires forall i :: i in tokens && i != id ==> tokens'[i] == tokens[i] && tokens[i].st != tokens'[id].st
    ensures SessionsDistinct(tokens')
  {
  }

  predicate SnapshotWrote(db: Db, d: Db, id: TokenId, s: Snapshot) {
    && d.tokens.Keys == db.tokens.Keys && d.lives.Keys == db.lives.Keys && id in d.tokens && id in d.lives
    && d.tokens[id].email == db.tokens[id].email && s.normalizedEmail == NormalizeEmail(db.tokens[id].email)
    && d.tokens[id].st == s.st && (forall i :: i in db.tokens && i != id ==> db.tokens[i].st != s.st)
    && d.lives[id].verifiedEmail == Some(s.email)
    && (forall i :: i in db.tokens && i != id ==> d.tokens[i] == db.tokens[i])
    && (forall i :: i in db.lives && i != id ==> d.lives[i] == db.lives[i])
  }

  /** What an accepted snapshot leaves behind, and what it leaves alone. */
  lemma SnapshotEffect(db: Db, id: TokenId, s: Snapshot, now: int, due: Option<int>, allowAuth: bool)
    ensures var r := ApplySnapshot(db, id, s, now, due, allowAuth); r.Ok? ==> SnapshotWrote(db, r.value.0, id, s)
  {
  }

  lemma StepKeepsIdentities(w: World, e: Event)
    requires IdentitiesHold(w.db) && Honest(e)
    ensures IdentitiesHold(Step(w, e).db)
  {
    match e
    case Snap(id, s, now, due, allowAuth) => SnapshotKeepsIdentities(w.db, id, s, now, due, allowAuth);
    case PublishBegin(_, id, s, _, _, _, now) => SnapshotKeepsIdentities(w.db, id, s, now, None, true);
    case _ => PoolStepsKeepIdentities(w, e);
  }

  lemma PoolStepsKeepIdentities(w: World, e: Event)
    requires !e.Snap? && !e.PublishBegin?
    ensures var d := Step(w, e).db;
            && d.tokens.Keys == w.db.tokens.Keys && d.lives.Keys == w.db.lives.Keys
            && (forall i :: i in d.tokens ==>
                d.tokens[i].st == w.db.tokens[i].st && d.tokens[i].email == w.db.tokens[i].email)
            && (forall i :: i in d.lives ==> d.lives[i].verifiedEmail == w.db.lives[i].verifiedEmail)
  {
  }

  /** In every run no session token is shared and no verified profile drifts to another account. */
  lemma {:induction false} RunKeepsIdentities(w: World, es: seq<Event>)
    requires IdentitiesHold(w.db) && forall e :: e in es ==> Honest(e)
    ensures IdentitiesHold(Run(w, es).db)
    decreases |es|
  {
    if es != [] {
      StepKeepsIdentities(w, es[0]);
      RunKeepsIdentities(Step(w, es[0]), es[1..]);
    }
  }

  // ---------------------------------------------------------------- pool membership follows hysteresis

  /** In the pool iff confirmed active; out of it by the membership ban iff confirmed retired. */
  predicate Coupled(db: Db, id: TokenId) {
    && id in db.tokens && id in db.lives
    && WellFormed(db.lives[id].membership)
    && (db.tokens[id].active <==> db.lives[id].membership.confirmed == Active)
    && db.tokens[id].ban == if db.lives[id].membership.confirmed == Active then None else Some(MembershipExpired)
  }

  datatype Observation = Observation(snapshot: Snapshot, now: int, due: Option<int>, allowAuth: bool)

  function ObserveDb(db: Db, id: TokenId, o: Observation): Result<(Db, PoolChange), Failure> {
    ApplySnapshot(db, id, o.snapshot, o.now, o.due, o.allowAuth)
  }

  /** A run of snapshots for one account: the final tables, the pool changes made, and the tiers
      of the snapshots that were accepted. */
  function Observations(db: Db, id: TokenId, os: seq<Observation>): (Db, seq<PoolChange>, seq<Tier>)
    decreases |os|
  {
    if os == [] then (db, [], [])
    else
      var (d, changes, tiers) := Observations(db, id, os[..|os| - 1]);
      var o := os[|os| - 1];
      match ObserveDb(d, id, o)
      case Err(_) => (d, changes, tiers)
      case Ok((d', c)) => (d', if c == Unchanged then changes else changes + [c], tiers + [Classify(o.snapshot.tier)])
  }

  /** Changes come strictly in turn: retired, restored, retired, ... from an active account. */
  predicate Alternates(changes: seq<PoolChange>, first: PoolChange) {
    forall i :: 0 <= i < |changes| ==> changes[i] == if i % 2 == 0 then first else Other(first)
  }

  function Other(c: PoolChange): PoolChange {
    match c
    case Retire => Restore
    case Restore => Retire
    case Unchanged => Unchanged
  }

  /** The pool columns that go with a confirmed status. */
  predicate PoolMatches(p: Pool, status: Status) {
    (p.active <==> status == Active) && p.ban == if status == Active then None else Some(MembershipExpired)
  }

  /** What an accepted snapshot writes of the pool and the membership. */
  lemma SnapshotWrites(db: Db, id: TokenId, o: Observation, before: State, after: State, p: Pool, c: PoolChange)
    requires ObserveDb(db, id, o).Ok? && id in db.tokens && id in db.lives && before == db.lives[id].membership
    requires after == Observe(before, o.snapshot.tier)
    requires (p, c) == ResolvePool(PoolOf(db.tokens[id]), before.confirmed, after.confirmed, o.now, o.allowAuth)
    ensures var (d, change) := ObserveDb(db, id, o).value;
            && id in d.tokens && id in d.lives && PoolOf(d.tokens[id]) == p && d.lives[id].membership == after
            && change == c
  {
  }

  lemma SnapshotFinds(db: Db, id: TokenId, o: Observation)
    requires ObserveDb(db, id, o).Ok?
    ensures id in db.tokens && id in db.lives
  {
  }

  lemma MatchedPool(p: Pool, before: Status, after: Status, now: int, auth: bool)
    requires PoolMatches(p, before)
    ensures var (q, c) := ResolvePool(p, before, after, now, auth); PoolMatches(q, after) && c == ChangeFor(before, after)
  {
  }

  /** With a ban that only auth recovery lifts. */
  lemma FailedPool(p: Pool, before: Status, after: Status, now: int, auth: bool)
    requires (p.active <==> before == Active) && AuthRecovery(p.ban)
    ensures var q := ResolvePool(p, before, after, now, auth).0;
            && (PoolMatches(q, after) <==> auth && (before == Active || after == Active))
            && (after == Retired && q.active && q.ban == None <==> auth && before == Retired && after == Retired)
  {
  }

  lemma StrayPool(p: Pool, after: Status, now: int, auth: bool)
    requires p.active && p.ban == None
    ensures ResolvePool(p, Retired, after, now, auth).0 == p
  {
  }

  lemma SnapshotKeepsCoupling(db: Db, id: TokenId, o: Observation)
    requires Coupled(db, id) && ObserveDb(db, id, o).Ok?
    ensures var (d, c) := ObserveDb(db, id, o).value;
            && Coupled(d, id)
            && d.lives[id].membership == Observe(db.lives[id].membership, o.snapshot.tier)
            && c == ChangeFor(db.lives[id].membership.confirmed, d.lives[id].membership.confirmed)
  {
    SnapshotFinds(db, id, o);
    var before := db.lives[id].membership;
    var after := Observe(before, o.snapshot.tier);
    var (p, c) := ResolvePool(PoolOf(db.tokens[id]), before.confirmed, after.confirmed, o.now, o.allowAuth);
    SnapshotWrites(db, id, o, before, after, p, c);
    MatchedPool(PoolOf(db.tokens[id]), before.confirmed, after.confirmed, o.now, o.allowAuth);
  }

  ghost predicate Follows(start: State, d: Db, id: TokenId, changes: seq<PoolChange>, tiers: seq<Tier>) {
    && Coupled(d, id)
    && d.lives[id].membership == After(start, tiers)
    && Alternates(changes, if start.confirmed == Active then Retire else Restore)
    && (d.lives[id].membership.confirmed == start.confirmed <==> |changes| % 2 == 0)
  }

  lemma AlternatesStep(changes: seq<PoolChange>, first: PoolChange, c: PoolChange)
    requires Alternates(changes, first) && c == if |changes| % 2 == 0 then first else Other(first)
    ensures Alternates(changes + [c], first)
  {
  }

  lemma AfterStep(start: State, tiers: seq<Tier>, x: Tier)
    ensures After(start, tiers + [x]) == Transition(After(start, tiers), x)
  {
    assert (tiers + [x])[..|tiers|] == tiers;
  }

  /** `c` is the pool change that goes with the confirmed status moving from `before` to `after`. */
  function ChangeFor(before: Status, after: Status): PoolChange {
    if before == after then Unchanged else if after == Retired then Retire else Restore
  }

  lemma FollowsStep(start: State, d: Db, d': Db, id: TokenId, changes: seq<PoolChange>, tiers: seq<Tier>, x: Tier)
    requires Follows(start, d, id, changes, tiers) && Coupled(d', id)
    requires d'.lives[id].membership == Transition(d.lives[id].membership, x)
    ensures var c := ChangeFor(d.lives[id].membership.confirmed, d'.lives[id].membership.confirmed);
            Follows(start, d', id, if c == Unchanged then changes else changes + [c], tiers + [x])
  {
    AfterStep(start, tiers, x);
    var c := ChangeFor(d.lives[id].membership.confirmed, d'.lives[id].membership.confirmed);
    if c != Unchanged {
      AlternatesStep(changes, if start.confirmed == Active then Retire else Restore, c);
    }
  }

  /** From a coupled row, any run of snapshots keeps pool membership equal to the hysteresis over the
      accepted tiers, and retires and restores strictly in turn. */
  lemma {:induction false} PoolFollowsHysteresis(db: Db, id: TokenId, os: seq<Observation>)
    requires Coupled(db, id)
    ensures var (d, changes, tiers) := Observations(db, id, os); Follows(db.lives[id].membership, d, id, changes, tiers)
    decreases |os|
  {
    if os != [] {
      PoolFollowsHysteresis(db, id, os[..|os| - 1]);
      var (d, changes, tiers) := Observations(db, id, os[..|os| - 1]);
      var o := os[|os| - 1];
      if ObserveDb(d, id, o).Ok? {
        SnapshotKeepsCoupling(d, id, o);
        FollowsStep(db.lives[id].membership, d, ObserveDb(d, id, o).value.0, id, changes, tiers,
            Classify(o.snapshot.tier));
      }
    }
  }

  ghost predicate LastPairFree(h: seq<Tier>) {
    exists i: nat :: LastPair(h, i) && h[i] == Free
  }

  /** So an account that started clean is out of the pool, under the membership ban, exactly when its
      last two agreeing known tiers were free. */
  lemma CleanAccountClosedForm(db: Db, id: TokenId, os: seq<Observation>)
    requires Coupled(db, id) && db.lives[id].membership == INITIAL
    ensures var (d, _, tiers) := Observations(db, id, os);
            && id in d.tokens
            && (d.tokens[id].active <==> !LastPairFree(Known(tiers)))
            && (d.tokens[id].ban == if LastPairFree(Known(tiers)) then Some(MembershipExpired) else None)
  {
    PoolFollowsHysteresis(db, id, os);
    var (d, _, tiers) := Observations(db, id, os);
    assert d.lives[id].membership == After(INITIAL, tiers);
    HistoryClosedForm(tiers);
    assert (After(INITIAL, tiers).confirmed == Retired) == LastPairFree(Known(tiers));
  }

  /** A failed refresh overwrites the ban. The next accepted snapshot restores the coupling exactly when it
      comes with auth recovery and the account was confirmed active or its tier confirms it now. */
  lemma RefreshFailureThenSnapshot(db: Db, id: TokenId, failure: Reason, o: Observation)
    requires Coupled(db, id) && (failure == StRevoked || failure == GrantExpired)
    requires ObserveDb(ApplyWrite(db, id, MarkRefreshFailure(failure)), id, o).Ok?
    ensures var d := ObserveDb(ApplyWrite(db, id, MarkRefreshFailure(failure)), id, o).value.0;
            var before := db.lives[id].membership;
            && (Coupled(d, id) <==>
                o.allowAuth && (before.confirmed == Active || Observe(before, o.snapshot.tier).confirmed == Active))
            && (Stray(d, id) <==>
                o.allowAuth && before.confirmed == Retired && Observe(before, o.snapshot.tier).confirmed == Retired)
  {
    var failed := ApplyWrite(db, id, MarkRefreshFailure(failure));
    var before := db.lives[id].membership;
    var after := Observe(before, o.snapshot.tier);
    var (p, c) := ResolvePool(PoolOf(failed.tokens[id]), before.confirmed, after.confirmed, o.now, o.allowAuth);
    SnapshotWrites(failed, id, o, before, after, p, c);
    FailedPool(PoolOf(failed.tokens[id]), before.confirmed, after.confirmed, o.now, o.allowAuth);
  }

  /** Confirmed retired, yet in the pool. */
  ghost predicate Stray(db: Db, id: TokenId) {
    && id in db.tokens && id in db.lives && db.lives[id].membership.confirmed == Retired
    && db.tokens[id].active && db.tokens[id].ban == None
  }

  /** Whether some prefix of the observations confirms the account active. */
  predicate EverActive(start: State, tiers: seq<Tier>)
    decreases |tiers|
  {
    After(start, tiers).confirmed == Active || (tiers != [] && EverActive(start, tiers[..|tiers| - 1]))
  }

  lemma EverActiveStep(start: State, tiers: seq<Tier>, x: Tier)
    ensures After(start, tiers + [x]) == Transition(After(start, tiers), x)
    ensures EverActive(start, tiers + [x]) <==>
            EverActive(start, tiers) || Transition(After(start, tiers), x).confirmed == Active
  {
    AfterStep(start, tiers, x);
    assert (tiers + [x])[..|tiers|] == tiers;
  }

  ghost predicate StrayFollows(start: State, d: Db, id: TokenId, tiers: seq<Tier>) {
    && id in d.lives && d.lives[id].membership == After(start, tiers)
    && (EverActive(start, tiers) <==> Coupled(d, id)) && (!EverActive(start, tiers) <==> Stray(d, id))
  }

  lemma StrayStep(start: State, d: Db, id: TokenId, tiers: seq<Tier>, o: Observation)
    requires WellFormed(start) && StrayFollows(start, d, id, tiers) && ObserveDb(d, id, o).Ok?
    ensures StrayFollows(start, ObserveDb(d, id, o).value.0, id, tiers + [Classify(o.snapshot.tier)])
  {
    EverActiveStep(start, tiers, Classify(o.snapshot.tier));
    if Coupled(d, id) {
      SnapshotKeepsCoupling(d, id, o);
    } else {
      StrayStays(d, id, o);
    }
  }

  lemma StrayStays(d: Db, id: TokenId, o: Observation)
    requires Stray(d, id) && WellFormed(d.lives[id].membership) && ObserveDb(d, id, o).Ok?
    ensures var e, after := ObserveDb(d, id, o).value.0, Observe(d.lives[id].membership, o.snapshot.tier);
            && id in e.lives && e.lives[id].membership == after
            && (if after.confirmed == Active then Coupled(e, id) else Stray(e, id))
  {
    var before := d.lives[id].membership;
    var after := Observe(before, o.snapshot.tier);
    var (p, c) := ResolvePool(PoolOf(d.tokens[id]), before.confirmed, after.confirmed, o.now, o.allowAuth);
    SnapshotWrites(d, id, o, before, after, p, c);
    StrayPool(PoolOf(d.tokens[id]), after.confirmed, o.now, o.allowAuth);
  }

  /** A stray account serves requests, whatever is observed, until some observations confirm it active;
      from then on pool and membership are coupled again. */
  lemma {:induction false} StrayUntilPaid(db: Db, id: TokenId, os: seq<Observation>)
    requires Stray(db, id) && WellFormed(db.lives[id].membership)
    ensures var (d, _, tiers) := Observations(db, id, os); StrayFollows(db.lives[id].membership, d, id, tiers)
    decreases |os|
  {
    if os != [] {
      var front, o := os[..|os| - 1], os[|os| - 1];
      StrayUntilPaid(db, id, front);
      var (d, _, tiers) := Observations(db, id, front);
      if ObserveDb(d, id, o).Ok? {
        StrayStep(db.lives[id].membership, d, id, tiers, o);
      }
    }
  }

  lemma NoEmail()
    ensures NormalizeEmail("") == ""
  {
  }

  /** An account alone in the tables, never verified: a snapshot with its address is accepted. */
  lemma AcceptedAlone(db: Db, id: TokenId, row: TokenRow, life: LifeRow, s: Snapshot)
    requires db == Db(map[id := row], map[id := life])
    requires s.normalizedEmail == NormalizeEmail(row.email) && life.verifiedEmail == None
    ensures Rejection(db, id, s) == None
  {
    NoEmail();
  }

  /** The checks on a snapshot do not read the pool columns. */
  lemma ChecksIgnorePool(db: Db, id: TokenId, w: Write, s: Snapshot)
    requires Rejection(db, id, s) == None
    ensures Rejection(ApplyWrite(db, id, w), id, s) == None
  {
  }

  lemma AcceptedIff(db: Db, id: TokenId, o: Observation)
    ensures ObserveDb(db, id, o).Ok? <==> Rejection(db, id, o.snapshot) == None
  {
  }

  lemma FreeKeepsRetired(before: State, tier: Option<string>)
    requires before.confirmed == Retired && Classify(tier) == Free
    ensures Observe(before, tier).confirmed == Retired
  {
  }

  lemma CoupledAlone(db: Db, id: TokenId, row: TokenRow, life: LifeRow)
    requires db == Db(map[id := row], map[id := life])
    requires !row.active && row.ban == Some(MembershipExpired) && life.membership == State(Retired, Unknown, 0)
    ensures Coupled(db, id)
  {
  }

  /** A concrete account: retired, its sign-in revoked, observed free once more with auth recovery. */
  lemma RetiredAccountReturns(db: Db, id: TokenId, row: TokenRow, life: LifeRow, o: Observation, failed: Db)
    requires db == Db(map[id := row], map[id := life]) && failed == ApplyWrite(db, id, MarkRefreshFailure(StRevoked))
    requires !row.active && row.ban == Some(MembershipExpired) && life.membership == State(Retired, Unknown, 0)
    requires o.snapshot.normalizedEmail == NormalizeEmail(row.email) && life.verifiedEmail == None
    requires Classify(o.snapshot.tier) == Free && o.allowAuth
    ensures Coupled(db, id) && ObserveDb(failed, id, o).Ok? && Stray(ObserveDb(failed, id, o).value.0, id)
  {
    AcceptedAlone(db, id, row, life, o.snapshot);
    ChecksIgnorePool(db, id, MarkRefreshFailure(StRevoked), o.snapshot);
    AcceptedIff(failed, id, o);
    CoupledAlone(db, id, row, life);
    FreeKeepsRetired(life.membership, o.snapshot.tier);
    RefreshFailureThenSnapshot(db, id, StRevoked, o);
  }

  // ---------------------------------------------------------------- the repository

  class TokenLifecycleRepository {
    var tokens: map<TokenId, TokenRow>
    var lives: map<TokenId, LifeRow>

    function Tables(): Db
      reads this
    {
      Db(tokens, lives)
    }

    method ApplyVerifiedSnapshot(id: TokenId, s: Snapshot, now: int, due: Option<int>, allowAuth: bool)
      returns (r: Result<PoolChange, Failure>)
      modifies this
      ensures var spec := ApplySnapshot(old(Tables()), id, s, now, due, allowAuth);
              && Tables() == SnapshotDb(spec, old(Tables()))
              && r == match spec { case Ok((_, c)) => Ok(c) case Err(e) => Err(e) }
    {
      if id !in tokens || id !in lives {
        return Err(NotFound);
      }
      var token, life := tokens[id], lives[id];
      var verified := NormalizeEmail(life.verifiedEmail.GetOr(""));
      if s.normalizedEmail != NormalizeEmail(token.email) {
        return Err(IdentityMismatch);
      }
      if verified != "" && s.normalizedEmail != verified {
        return Err(ProfileMismatch);
      }
      if exists other :: other in tokens && other != id && tokens[other].st == s.st {
        return Err(SessionTaken);
      }
      var next := Observe(life.membership, s.tier);
      var (p, change) := ResolvePool(PoolOf(token), life.membership.confirmed, next.confirmed, now, allowAuth);
      tokens := tokens[id := SnapshotToken(token, s, p)];
      lives := lives[id := SnapshotLife(life, s, next, change, now, due)];
      return Ok(change);
    }

    /** The desired-state transaction, reading the row afresh. */
    method ApplyDesiredState(id: TokenId, keepalive: bool, business: bool) returns (r: Result<Pool, Failure>)
      modifies this
      ensures var spec := PublishDesired(old(Tables()), id, keepalive, business);
              && Tables() == DbOr(spec, old(Tables()))
              && r == match spec { case Ok(d) => Ok(PoolOf(d.tokens[id])) case Err(e) => Err(e) }
    {
      if id !in tokens {
        return Err(Vanished);
      }
      var active, ban := tokens[id].active, tokens[id].ban;
      if ban == Some(OnboardingPending) {
        ban := None;
      }
      if !business && ban == None {
        active, ban := false, Some(ManualDisabled);
      } else if business && ban == None {
        active := true;
      }
      var p := Pool(active, ban, if ban == None then None else tokens[id].bannedAt);
      tokens := tokens[id := WithPool(tokens[id], p)];
      lives := Publishing(lives, id, keepalive, "persistent");
      return Ok(p);
    }

    /** With nothing running in between, publication is its two transactions in a row. */
    method PublishVerifiedAccount(id: TokenId, s: Snapshot, mode: string, keepalive: bool, business: bool, now: int)
      returns (r: Result<(PoolChange, Pool), Failure>)
      modifies this
      ensures mode != "persistent" ==> r == Err(WarmRejected) && Tables() == old(Tables())
      ensures mode == "persistent" ==>
                var first := ApplySnapshot(old(Tables()), id, s, now, None, true);
                && Tables() == (if first.Err? then old(Tables())
                    else DbOr(PublishDesired(first.value.0, id, keepalive, business), first.value.0))
                && (first.Err? ==> r == Err(first.error))
                && (first.Ok? ==> r == Ok((first.value.1, PoolOf(Tables().tokens[id]))))
    {
      if mode != "persistent" {
        return Err(WarmRejected);
      }
      var change := ApplyVerifiedSnapshot(id, s, now, None, true);
      if change.Err? {
        return Err(change.error);
      }
      var p := ApplyDesiredState(id, keepalive, business);
      r := match p { case Ok(pool) => Ok((change.value, pool)) case Err(_) => Err(Vanished) };
    }

    method FinalizeOnboardingState(id: TokenId, keepalive: bool, mode: string, enable: bool, now: int)
        returns (r: Result<(), Failure>)
      modifies this
      ensures var spec := Finalize(old(Tables()), id, keepalive, mode, enable, now);
              && Tables() == DbOr(spec, old(Tables()))
              && r == match spec { case Ok(_) => Ok(()) case Err(e) => Err(e) }
    {
      if mode != "persistent" && mode != "warm" {
        return Err(BadRuntimeMode);
      }
      if id !in tokens || id !in lives {
        return Err(NotFound);
      }
      var row := tokens[id];
      if row.ban == Some(OnboardingPending) {
        if enable {
          tokens := tokens[id := row.(active := true, ban := None, bannedAt := None)];
        } else {
          tokens := tokens[id := row.(active := false, ban := Some(ManualDisabled), bannedAt := Some(now))];
        }
      }
      lives := Publishing(lives, id, keepalive, mode);
      assert row.ban != Some(OnboardingPending) ==> tokens == old(tokens)[id := WithPool(row, PoolOf(row))];
      return Ok(());
    }
  }
}
