/** What each lifecycle transaction refuses and what it writes, column by column
    (src/core/repositories/token_lifecycle_repository.py). */
module SnapshotEffects {
  import opened Prelude
  import opened Text
  import opened AccountLifecycle
  import opened TokenLifecycle

  // ---------------------------------------------------------------- what is refused

  function Address(email: string): string {
    LowerAll(Strip(email))
  }

  predicate KnownAccount(db: Db, id: TokenId) {
    id in db.tokens && id in db.lives
  }

  /** The snapshot is of the account's own address. */
  predicate OwnAddress(db: Db, id: TokenId, s: Snapshot)
    requires KnownAccount(db, id)
  {
    s.normalizedEmail == Address(db.tokens[id].email)
  }

  /** And of the one its profile was verified with, if it ever was. */
  predicate OwnProfile(db: Db, id: TokenId, s: Snapshot)
    requires KnownAccount(db, id)
  {
    match db.lives[id].verifiedEmail
    case None => true
    case Some(email) => Address(email) == "" || s.normalizedEmail == Address(email)
  }

  predicate SessionFree(db: Db, id: TokenId, s: Snapshot) {
    forall other :: other in db.tokens && db.tokens[other].st == s.st ==> other == id
  }

  lemma NoAddress()
    ensures Address("") == ""
  {
  }

  /** Which check fails first. */
  predicate Refused(db: Db, id: TokenId, s: Snapshot, why: Failure) {
    match why
    case NotFound => !KnownAccount(db, id)
    case IdentityMismatch => KnownAccount(db, id) && !OwnAddress(db, id, s)
    case ProfileMismatch => KnownAccount(db, id) && OwnAddress(db, id, s) && !OwnProfile(db, id, s)
    case SessionTaken =>
      KnownAccount(db, id) && OwnAddress(db, id, s) && OwnProfile(db, id, s) && !SessionFree(db, id, s)
    case _ => false
  }

  predicate Acceptable(db: Db, id: TokenId, s: Snapshot) {
    KnownAccount(db, id) && OwnAddress(db, id, s) && OwnProfile(db, id, s) && SessionFree(db, id, s)
  }

  lemma AddressIs(email: string)
    ensures NormalizeEmail(email) == Address(email)
  {
  }

  lemma TakenIs(db: Db, id: TokenId, s: Snapshot)
    ensures SessionFree(db, id, s) <==> !exists other :: other in db.tokens && other != id && db.tokens[other].st == s.st
  {
  }

  lemma RejectionIs(db: Db, id: TokenId, s: Snapshot)
    ensures Rejection(db, id, s) == None <==> Acceptable(db, id, s)
    ensures Rejection(db, id, s).Some? ==> Refused(db, id, s, Rejection(db, id, s).value)
  {
    TakenIs(db, id, s);
    if KnownAccount(db, id) {
      AddressIs(db.tokens[id].email);
      VerifiedIs(db, id, s);
    }
  }

  lemma VerifiedIs(db: Db, id: TokenId, s: Snapshot)
    requires KnownAccount(db, id)
    ensures var verified := NormalizeEmail(db.lives[id].verifiedEmail.GetOr(""));
            OwnProfile(db, id, s) <==> verified == "" || s.normalizedEmail == verified
  {
    NoAddress();
  }

  lemma OneReason(db: Db, id: TokenId, s: Snapshot, a: Failure, b: Failure)
    requires Refused(db, id, s, a)
    ensures !Acceptable(db, id, s) && (Refused(db, id, s, b) ==> a == b)
  {
  }

  lemma AppliesIff(db: Db, id: TokenId, s: Snapshot, now: int, due: Option<int>, auth: bool)
    ensures var r := ApplySnapshot(db, id, s, now, due, auth);
            if Rejection(db, id, s).Some? then r == Err(Rejection(db, id, s).value) else r.Ok?
  {
  }

  /** The first of the four checks that fails names the refusal; when all hold the snapshot is accepted. */
  lemma RefusedIff(db: Db, id: TokenId, s: Snapshot, now: int, due: Option<int>, auth: bool, why: Failure)
    ensures var r := ApplySnapshot(db, id, s, now, due, auth);
            (r.Ok? <==> Acceptable(db, id, s)) && (r == Err(why) <==> Refused(db, id, s, why))
  {
    AppliesIff(db, id, s, now, due, auth);
    RejectionIs(db, id, s);
    var bad := Rejection(db, id, s);
    if bad.Some? {
      OneReason(db, id, s, bad.value, why);
    } else if Refused(db, id, s, why) {
      OneReason(db, id, s, why, why);
    }
  }

  /** The bans that no lifecycle write may lift: an operator's, and those of the two failure policies. */
  lemma ProtectedIs(ban: Option<Reason>)
    ensures Protected(ban) <==>
              match ban {
                case Some(ManualDisabled) | Some(RateLimit429) | Some(ConsecutiveErrors) => true
                case _ => false
              }
  {
  }

  // ---------------------------------------------------------------- what a snapshot writes

  /** A ban for lost sign-in, lifted by a snapshot that allows it. */
  predicate SignsInAgain(p: Pool, auth: bool) {
    auth && (p.ban == Some(GrantExpired) || p.ban == Some(StRevoked))
  }

  /** The pool columns, by what the account's status was and is. */
  lemma PoolTable(p: Pool, before: Status, after: Status, now: int, auth: bool)
    ensures ResolvePool(p, before, after, now, auth) ==
              if before == Active && after == Retired && (SignsInAgain(p, auth) || (p.active && p.ban == None)) then
                (Pool(false, Some(MembershipExpired), Some(now)), Retire)
              else if before == Retired && after == Active && p == Pool(false, Some(MembershipExpired), p.bannedAt) then
                (Pool(true, None, None), Restore)
              else if SignsInAgain(p, auth) then (Pool(true, None, None), Unchanged)
              else (p, Unchanged)
  {
  }

  lemma AcceptedForm(db: Db, id: TokenId, s: Snapshot, now: int, due: Option<int>, auth: bool)
      returns (token: TokenRow, life: LifeRow, p: Pool, c: PoolChange)
    requires ApplySnapshot(db, id, s, now, due, auth).Ok?
    ensures KnownAccount(db, id)
    ensures ApplySnapshot(db, id, s, now, due, auth) == Ok((Db(db.tokens[id := token], db.lives[id := life]), c))
    ensures token == SnapshotToken(db.tokens[id], s, p)
    ensures life == SnapshotLife(db.lives[id], s, Observe(db.lives[id].membership, s.tier), c, now, due)
    ensures (p, c) == ResolvePool(PoolOf(db.tokens[id]), db.lives[id].membership.confirmed,
                                  Observe(db.lives[id].membership, s.tier).confirmed, now, auth)
  {
    var (d, change) := ApplySnapshot(db, id, s, now, due, auth).value;
    token, life, p, c := d.tokens[id], d.lives[id], PoolOf(d.tokens[id]), change;
  }

  /** The account's row after a snapshot, column by column. */
  predicate TokenWritten(was: TokenRow, token: TokenRow, s: Snapshot) {
    && token.email == was.email && token.st == s.st && token.at == s.at && token.credits == s.credits
    && token.atExpires == (if s.atExpires.Some? then s.atExpires else was.atExpires)
    && token.name == (if s.name != "" then s.name else was.name)
    && token.tier == (if s.tier.Some? then s.tier else was.tier)
  }

  predicate LifeWritten(was: LifeRow, life: LifeRow, s: Snapshot, c: PoolChange, now: int, due: Option<int>) {
    && life.profileState == "ready" && life.verifiedEmail == Some(s.email) && life.keepaliveFailures == 0
    && life.keepalive == was.keepalive && life.runtimeMode == was.runtimeMode
    && life.lastTier == s.tier && life.lastObserved == Some(now)
    && life.nextDue == (if due.Some? then due else was.nextDue)
    && life.retiredAt == (if c == Retire then Some(now) else was.retiredAt)
    && life.restoredAt == (if c == Restore then Some(now) else was.restoredAt)
  }

  lemma RowsWritten(was: TokenRow, life: LifeRow, s: Snapshot, p: Pool, next: State, c: PoolChange, now: int,
      due: Option<int>)
    ensures TokenWritten(was, SnapshotToken(was, s, p), s) && PoolOf(SnapshotToken(was, s, p)) == p
    ensures LifeWritten(life, SnapshotLife(life, s, next, c, now, due), s, c, now, due)
    ensures SnapshotLife(life, s, next, c, now, due).membership == next
  {
  }

  /** An accepted snapshot writes the account's own two rows and no other. */
  lemma SnapshotRows(db: Db, id: TokenId, s: Snapshot, now: int, due: Option<int>, auth: bool)
    requires ApplySnapshot(db, id, s, now, due, auth).Ok?
    ensures KnownAccount(db, id)
    ensures var (d, c) := ApplySnapshot(db, id, s, now, due, auth).value;
            && KnownAccount(d, id)
            && d.tokens == db.tokens[id := d.tokens[id]] && TokenWritten(db.tokens[id], d.tokens[id], s)
            && d.lives == db.lives[id := d.lives[id]] && LifeWritten(db.lives[id], d.lives[id], s, c, now, due)
  {
    var token, life, p, c := AcceptedForm(db, id, s, now, due, auth);
    RowsWritten(db.tokens[id], db.lives[id], s, p, Observe(db.lives[id].membership, s.tier), c, now, due);
  }

  /** Its pool columns and its report of a change follow the table, from the old status to the new one. */
  lemma SnapshotPool(db: Db, id: TokenId, s: Snapshot, now: int, due: Option<int>, auth: bool)
    requires KnownAccount(db, id) && ApplySnapshot(db, id, s, now, due, auth).Ok?
    ensures var (d, c) := ApplySnapshot(db, id, s, now, due, auth).value;
            var before, after := db.lives[id].membership, Observe(db.lives[id].membership, s.tier);
            && KnownAccount(d, id) && d.lives[id].membership == after
            && (PoolOf(d.tokens[id]), c) ==
               ResolvePool(PoolOf(db.tokens[id]), before.confirmed, after.confirmed, now, auth)
  {
    var token, life, p, c := AcceptedForm(db, id, s, now, due, auth);
    RowsWritten(db.tokens[id], db.lives[id], s, p, Observe(db.lives[id].membership, s.tier), c, now, due);
  }

  // ---------------------------------------------------------------- publication

  /** The second transaction of a publication. A ban other than the onboarding placeholder stands, with the
      activity it left; otherwise the account is active iff business is wanted, and under an operator's ban if
      not. The date of a ban stays while there is one. */
  lemma DesiredIs(db: Db, id: TokenId, keepalive: bool, business: bool)
    ensures id !in db.tokens ==> PublishDesired(db, id, keepalive, business) == Err(Vanished)
    ensures id in db.tokens ==>
              && PublishDesired(db, id, keepalive, business).Ok?
              && var d, was := PublishDesired(db, id, keepalive, business).value, db.tokens[id];
                 && d.tokens.Keys == db.tokens.Keys
                 && (forall i :: i in db.tokens && i != id ==> d.tokens[i] == db.tokens[i])
                 && d.tokens[id] == (if was.ban.Some? && was.ban.value != OnboardingPending then was
                                     else if business then was.(active := true, ban := None, bannedAt := None)
                                     else was.(active := false, ban := Some(ManualDisabled)))
  {
  }

  lemma DesiredLives(db: Db, id: TokenId, keepalive: bool, business: bool)
    requires id in db.tokens
    ensures var d := PublishDesired(db, id, keepalive, business).value;
            d.lives == if id !in db.lives then db.lives
                       else db.lives[id := db.lives[id].(keepalive := keepalive, runtimeMode := "persistent",
                                                         profileState := "ready")]
  {
  }

  /** Finalising onboarding refuses an unknown mode before an unknown account; it lifts the placeholder, into
      business or under an operator's ban from now on, and leaves any other pool state alone. */
  lemma FinalizeIs(db: Db, id: TokenId, keepalive: bool, mode: string, enable: bool, now: int)
    ensures var r := Finalize(db, id, keepalive, mode, enable, now);
            && (r == Err(BadRuntimeMode) <==> mode != "persistent" && mode != "warm")
            && (r == Err(NotFound) <==> (mode == "persistent" || mode == "warm") && !KnownAccount(db, id))
            && (r.Ok? <==> (mode == "persistent" || mode == "warm") && KnownAccount(db, id))
            && (r.Ok? ==>
                  var was := db.tokens[id];
                  && r.value.tokens == db.tokens[id :=
                       if was.ban != Some(OnboardingPending) then was
                       else if enable then was.(active := true, ban := None, bannedAt := None)
                       else was.(active := false, ban := Some(ManualDisabled), bannedAt := Some(now))]
                  && r.value.lives == db.lives[id := db.lives[id].(keepalive := keepalive, runtimeMode := mode,
                                                                   profileState := "ready")])
  {
  }

  // ---------------------------------------------------------------- the writers outside

  /** Operators and failure policies write the pool columns of one row and nothing else. */
  lemma WritesAre(db: Db, id: TokenId, w: Write)
    ensures ApplyWrite(db, id, w).lives == db.lives
    ensures id !in db.tokens ==> ApplyWrite(db, id, w).tokens == db.tokens
    ensures id in db.tokens ==>
              var was := db.tokens[id];
              ApplyWrite(db, id, w).tokens == db.tokens[id :=
                match w
                case SetActive => was.(active := true)
                case ClearBan => was.(ban := None, bannedAt := None)
                case Disable(reason, at) => was.(active := false, ban := Some(reason), bannedAt := Some(at))
                case MarkRefreshFailure(failure) => was.(ban := Some(failure))]
  {
  }

  // ---------------------------------------------------------------- steps of a run

  /** Beginning a publication is a snapshot that may lift lost sign-in bans; only a persistent one is taken, and
      its wishes wait for the second transaction. */
  lemma BeginIs(w: World, task: nat, id: TokenId, s: Snapshot, mode: string, keepalive: bool, business: bool, now: int)
    ensures var v := Step(w, PublishBegin(task, id, s, mode, keepalive, business, now));
            var r := ApplySnapshot(w.db, id, s, now, None, true);
            if mode == "persistent" && task !in w.publishing && r.Ok? then
              v == World(r.value.0, w.publishing[task := Publication(id, keepalive, business)])
            else v == w
  {
  }

  /** A commit applies the wishes its own publication began with, once. */
  lemma CommitIs(w: World, task: nat)
    ensures var v := Step(w, PublishCommit(task));
            if task in w.publishing then
              var p := w.publishing[task];
              && v.publishing == w.publishing - {task}
              && v.db == (if p.id in w.db.tokens then PublishDesired(w.db, p.id, p.keepalive, p.business).value else w.db)
            else v == w
  {
  }

  /** A snapshot that is refused changes nothing; one that is not writes what its transaction does. */
  lemma SnapIs(w: World, id: TokenId, s: Snapshot, now: int, due: Option<int>, auth: bool)
    ensures var v, r := Step(w, Snap(id, s, now, due, auth)), ApplySnapshot(w.db, id, s, now, due, auth);
            v.publishing == w.publishing && v.db == if r.Ok? then r.value.0 else w.db
  {
    var r := ApplySnapshot(w.db, id, s, now, due, auth);
    SnapshotDbIs(r, w.db);
    assert Step(w, Snap(id, s, now, due, auth)) == w.(db := SnapshotDb(r, w.db));
  }

  lemma SnapshotDbIs(r: Result<(Db, PoolChange), Failure>, db: Db)
    ensures SnapshotDb(r, db) == if r.Ok? then r.value.0 else db
  {
  }

  /** So with a finalization; and the writers outside do what they do, publications under way or not. */
  lemma OtherSteps(w: World, id: TokenId, keepalive: bool, mode: string, enable: bool, now: int, write: Write)
    ensures Step(w, External(id, write)) == World(ApplyWrite(w.db, id, write), w.publishing)
    ensures var v, r := Step(w, FinalizeOnboarding(id, keepalive, mode, enable, now)),
                        Finalize(w.db, id, keepalive, mode, enable, now);
            v.publishing == w.publishing && v.db == if r.Ok? then r.value else w.db
  {
    assert Step(w, External(id, write)) == w.(db := ApplyWrite(w.db, id, write));
  }
}
