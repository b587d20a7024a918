/** What each account transaction refuses and what it leaves in every table
    (src/core/repositories/token_repository.py). */
module TableEffects {
  import opened Prelude
  import opened TokenTables

  /** Adding is refused exactly for a session token that some account has; otherwise the new account gets the
      next id, an empty statistics row and a warm lifecycle row, and nothing else changes. */
  lemma AddIs(db: Db, account: Account, row: RowId)
    ensures AddToken(db, account, row).Err? <==> exists id :: id in db.tokens && db.tokens[id].st == account.st
    ensures AddToken(db, account, row).Err? ==> AddToken(db, account, row).error == DuplicateSession
    ensures AddToken(db, account, row).Ok? ==>
              var d, id := AddToken(db, account, row).value, db.lastId + 1;
              && d.tokens == db.tokens[id := account] && d.stats == db.stats[row := Child(id, "")]
              && d.lives == db.lives[id := "warm"] && d.lastId == id
              && d.tasks == db.tasks && d.projects == db.projects && d.logs == db.logs && d.jobs == db.jobs
  {
  }

  /** The account is wanted by a job that has not ended: one pending, running or failed. */
  ghost predicate Wanted(db: Db, id: TokenId) {
    exists row :: row in db.jobs
      && (db.jobs[row].target == Some(id) || db.jobs[row].resolved == Some(id))
      && db.jobs[row].state != Completed && db.jobs[row].state != Cancelled
  }

  lemma DeleteRefusedIff(db: Db, id: TokenId)
    ensures DeleteToken(db, id).Err? <==> Wanted(db, id)
    ensures Wanted(db, id) ==> DeleteToken(db, id) == Err(Blocked)
  {
    DeleteNeverTripsForeignKeys(db, id);
    if Wanted(db, id) {
      var row :| row in db.jobs && (db.jobs[row].target == Some(id) || db.jobs[row].resolved == Some(id))
        && db.jobs[row].state != Completed && db.jobs[row].state != Cancelled;
      assert Refers(db.jobs[row], id) && Unfinished(db.jobs[row]);
    }
    if DeleteBlocked(db, id) {
      var row :| row in db.jobs && Refers(db.jobs[row], id) && Unfinished(db.jobs[row]);
      assert db.jobs[row].state != Completed && db.jobs[row].state != Cancelled;
    }
  }

  /** Rows that only name the account stay, without its name. */
  lemma DeleteUnlinks(db: Db, id: TokenId, row: RowId)
    requires DeleteToken(db, id).Ok?
    ensures var d := DeleteToken(db, id).value;
            && d.logs.Keys == db.logs.Keys && d.jobs.Keys == db.jobs.Keys
            && (row in db.logs ==>
                  && d.logs[row].data == db.logs[row].data
                  && d.logs[row].token == if db.logs[row].token == Some(id) then None else db.logs[row].token)
            && (row in db.jobs ==>
                  && d.jobs[row].data == db.jobs[row].data && d.jobs[row].state == db.jobs[row].state
                  && d.jobs[row].target == (if db.jobs[row].target == Some(id) then None else db.jobs[row].target)
                  && d.jobs[row].resolved == if db.jobs[row].resolved == Some(id) then None else db.jobs[row].resolved)
  {
  }

  /** Dropping the account row alone is refused exactly while a statistics, task, project or log row names it;
      otherwise its lifecycle row goes with it and jobs forget it. */
  lemma DropRefusedIff(db: Db, id: TokenId)
    ensures DropAccount(db, id).Err? <==>
              || (exists row :: row in db.stats && db.stats[row].token == id)
              || (exists row :: row in db.tasks && db.tasks[row].token == id)
              || (exists row :: row in db.projects && db.projects[row].token == id)
              || (exists row :: row in db.logs && db.logs[row].token == Some(id))
    ensures DropAccount(db, id).Err? ==> DropAccount(db, id).error == BadReference
    ensures DropAccount(db, id).Ok? ==>
              var d := DropAccount(db, id).value;
              && id !in d.tokens && id !in d.lives && d.stats == db.stats && d.tasks == db.tasks
              && d.projects == db.projects && d.logs == db.logs && d.lastId == db.lastId
              && forall row :: row in d.jobs ==> d.jobs[row].target != Some(id) && d.jobs[row].resolved != Some(id)
  {
  }

  predicate Named(db: Db, token: Option<TokenId>) {
    match token
    case None => true
    case Some(id) => id in db.tokens
  }

  /** A write of another table is refused exactly when it names an account that is not there. */
  lemma WritesAre(db: Db, row: RowId, child: Child, log: Log, job: Job)
    ensures AddTask(db, row, child) ==
              if Named(db, Some(child.token)) then Ok(db.(tasks := db.tasks[row := child])) else Err(BadReference)
    ensures AddProject(db, row, child) ==
              if Named(db, Some(child.token)) then Ok(db.(projects := db.projects[row := child])) else Err(BadReference)
    ensures WriteLog(db, row, log) ==
              if Named(db, log.token) then Ok(db.(logs := db.logs[row := log])) else Err(BadReference)
    ensures WriteJob(db, row, job) ==
              if Named(db, job.target) && Named(db, job.resolved) then Ok(db.(jobs := db.jobs[row := job]))
              else Err(BadReference)
  {
  }

  // ---------------------------------------------------------------- runs

  /** Each event of a run is its transaction, rolled back when refused; a statistics row is never taken twice. */
  lemma StepIs(db: Db, account: Account, row: RowId, child: Child, log: Log, job: Job, id: TokenId)
    ensures row !in db.stats && AddToken(db, account, row).Ok? ==>
              Step(db, NewToken(account, row)) == AddToken(db, account, row).value
    ensures row in db.stats || AddToken(db, account, row).Err? ==> Step(db, NewToken(account, row)) == db
    ensures Step(db, NewTask(row, child)) == match AddTask(db, row, child) case Ok(d) => d case Err(_) => db
    ensures Step(db, NewProject(row, child)) == match AddProject(db, row, child) case Ok(d) => d case Err(_) => db
    ensures Step(db, PutLog(row, log)) == match WriteLog(db, row, log) case Ok(d) => d case Err(_) => db
    ensures Step(db, PutJob(row, job)) == match WriteJob(db, row, job) case Ok(d) => d case Err(_) => db
    ensures Step(db, Remove(id)) == match DeleteToken(db, id) case Ok(d) => d case Err(_) => db
  {
  }

  lemma RunIs(db: Db, e: Event, es: seq<Event>)
    ensures Run(db, []) == db && Run(db, [e] + es) == Run(Step(db, e), es)
  {
    assert ([e] + es)[1..] == es;
  }

  /** What soundness says, table by table. */
  lemma SoundMeans(db: Db)
    requires Sound(db)
    ensures db.lives.Keys == db.tokens.Keys
    ensures forall row :: row in db.tasks ==> db.tasks[row].token in db.tokens
    ensures forall row :: row in db.projects ==> db.projects[row].token in db.tokens
    ensures forall row :: row in db.logs ==> Named(db, db.logs[row].token)
    ensures forall row :: row in db.jobs ==> Named(db, db.jobs[row].target) && Named(db, db.jobs[row].resolved)
    ensures forall row :: row in db.stats ==> db.stats[row].token in db.tokens
    ensures forall id :: id in db.tokens ==> exists row :: row in db.stats && db.stats[row].token == id
    ensures forall a, b :: a in db.stats && b in db.stats && db.stats[a].token == db.stats[b].token ==> a == b
    ensures forall i, j :: i in db.tokens && j in db.tokens && db.tokens[i].st == db.tokens[j].st ==> i == j
    ensures forall id :: id in db.tokens ==> id <= db.lastId
  {
    forall id | id in db.tokens ensures exists row :: row in db.stats && db.stats[row].token == id {
      assert id in Owners(db.stats);
    }
    forall row | row in db.stats ensures db.stats[row].token in db.tokens {
      assert db.stats[row].token in Owners(db.stats);
    }
  }
}
