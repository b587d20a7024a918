/** The account tables and their foreign keys (src/core/repositories/token_repository.py, with the
    schema of src/core/database.py, where foreign keys are enforced). */
module TokenTables {
  import opened Prelude

  type TokenId = nat
  type RowId = nat

  datatype Account = Account(st: string, data: string)

  /** A row of a table whose token reference may not be null. */
  datatype Child = Child(token: TokenId, data: string)

  datatype Log = Log(token: Option<TokenId>, data: string)

  datatype JobState = Pending | Running | Failed | Completed | Cancelled

  datatype Job = Job(target: Option<TokenId>, resolved: Option<TokenId>, state: JobState, data: string)

  /** `lastId` is the autoincrement counter: ids are never used twice. */
  datatype Db = Db(
    tokens: map<TokenId, Account>, stats: map<RowId, Child>, lives: map<TokenId, string>,
    tasks: map<RowId, Child>, projects: map<RowId, Child>, logs: map<RowId, Log>, jobs: map<RowId, Job>,
    lastId: TokenId)

  datatype Error = Blocked | BadReference | DuplicateSession

  predicate Known(db: Db, token: Option<TokenId>) {
    token.Some? ==> token.value in db.tokens
  }

  // ---------------------------------------------------------------- transactions

  /** A new account with its statistics and lifecycle rows. */
  function AddToken(db: Db, account: Account, statsRow: RowId): Result<Db, Error> {
    if exists id :: id in db.tokens && db.tokens[id].st == account.st then Err(DuplicateSession)
    else
      var id := db.lastId + 1;
      Ok(db.(tokens := db.tokens[id := account], stats := db.stats[statsRow := Child(id, "")],
             lives := db.lives[id := "warm"], lastId := id))
  }

  function AddTask(db: Db, row: RowId, task: Child): Result<Db, Error> {
    if task.token in db.tokens then Ok(db.(tasks := db.tasks[row := task])) else Err(BadReference)
  }

  function AddProject(db: Db, row: RowId, project: Child): Result<Db, Error> {
    if project.token in db.tokens then Ok(db.(projects := db.projects[row := project])) else Err(BadReference)
  }

  function WriteLog(db: Db, row: RowId, log: Log): Result<Db, Error> {
    if Known(db, log.token) then Ok(db.(logs := db.logs[row := log])) else Err(BadReference)
  }

  function WriteJob(db: Db, row: RowId, job: Job): Result<Db, Error> {
    if Known(db, job.target) && Known(db, job.resolved) then Ok(db.(jobs := db.jobs[row := job])) else Err(BadReference)
  }

  predicate Refers(job: Job, id: TokenId) {
    job.target == Some(id) || job.resolved == Some(id)
  }

  predicate Unfinished(job: Job) {
    job.state == Pending || job.state == Running || job.state == Failed
  }

  predicate DeleteBlocked(db: Db, id: TokenId) {
    exists row :: row in db.jobs && Refers(db.jobs[row], id) && Unfinished(db.jobs[row])
  }

  function NullIf(token: Option<TokenId>, id: TokenId): Option<TokenId> {
    if token == Some(id) then None else token
  }

  function NullLogs(logs: map<RowId, Log>, id: TokenId): map<RowId, Log> {
    map row | row in logs :: logs[row].(token := NullIf(logs[row].token, id))
  }

  function NullJobs(jobs: map<RowId, Job>, id: TokenId): map<RowId, Job> {
    map row | row in jobs :: jobs[row].(target := NullIf(jobs[row].target, id),
        resolved := NullIf(jobs[row].resolved, id))
  }

  function Others(rows: map<RowId, Child>, id: TokenId): map<RowId, Child> {
    map row | row in rows && rows[row].token != id :: rows[row]
  }

  predicate Referenced(db: Db, id: TokenId) {
    || (exists row :: row in db.stats && db.stats[row].token == id)
    || (exists row :: row in db.tasks && db.tasks[row].token == id)
    || (exists row :: row in db.projects && db.projects[row].token == id)
    || (exists row :: row in db.logs && db.logs[row].token == Some(id))
  }

  /** Deleting the account row alone: refused while plain references remain, cascading otherwise. */
  function DropAccount(db: Db, id: TokenId): Result<Db, Error> {
    if Referenced(db, id) then Err(BadReference)
    else Ok(db.(tokens := db.tokens - {id}, lives := db.lives - {id}, jobs := NullJobs(db.jobs, id)))
  }

  function DropChildren(db: Db, id: TokenId): Db {
    db.(logs := NullLogs(db.logs, id), jobs := NullJobs(db.jobs, id), tasks := Others(db.tasks, id),
        stats := Others(db.stats, id), projects := Others(db.projects, id), lives := db.lives - {id})
  }

  function DeleteToken(db: Db, id: TokenId): Result<Db, Error> {
    if DeleteBlocked(db, id) then Err(Blocked) else DropAccount(DropChildren(db, id), id)
  }

  // ---------------------------------------------------------------- integrity

  predicate ChildrenKnown(rows: map<RowId, Child>, ids: set<TokenId>) {
    forall row :: row in rows ==> rows[row].token in ids
  }

  predicate LogsKnown(logs: map<RowId, Log>, ids: set<TokenId>) {
    forall row :: row in logs && logs[row].token.Some? ==> logs[row].token.value in ids
  }

  predicate JobsKnown(jobs: map<RowId, Job>, ids: set<TokenId>) {
    forall row :: row in jobs ==>
      && (jobs[row].target.Some? ==> jobs[row].target.value in ids)
      && (jobs[row].resolved.Some? ==> jobs[row].resolved.value in ids)
  }

  function Owners(rows: map<RowId, Child>): set<TokenId> {
    set row | row in rows :: rows[row].token
  }

  /** Every account has exactly one row, and no row is anybody else's. */
  predicate OneEach(stats: map<RowId, Child>, ids: set<TokenId>) {
    Owners(stats) == ids && RowsDiffer(stats)
  }

  predicate RowsDiffer(stats: map<RowId, Child>) {
    forall a, b :: a in stats && b in stats && stats[a].token == stats[b].token ==> a == b
  }

  predicate SessionsDiffer(tokens: map<TokenId, Account>) {
    forall i, j :: i in tokens && j in tokens && tokens[i].st == tokens[j].st ==> i == j
  }

  predicate References(db: Db) {
    && ChildrenKnown(db.tasks, db.tokens.Keys)
    && ChildrenKnown(db.projects, db.tokens.Keys) && LogsKnown(db.logs, db.tokens.Keys) &&
        JobsKnown(db.jobs, db.tokens.Keys)
  }

  predicate Sound(db: Db) {
    && References(db) && OneEach(db.stats, db.tokens.Keys) && db.lives.Keys == db.tokens.Keys
    && (forall id :: id in db.tokens ==> id <= db.lastId)
    && SessionsDiffer(db.tokens)
  }

  lemma KnownGrows(db: Db, more: set<TokenId>)
    requires References(db) && db.tokens.Keys <= more
    ensures ChildrenKnown(db.tasks, more) && ChildrenKnown(db.projects, more)
    ensures LogsKnown(db.logs, more) && JobsKnown(db.jobs, more)
  {
  }

  lemma OneMore(stats: map<RowId, Child>, ids: set<TokenId>, row: RowId, id: TokenId)
    requires OneEach(stats, ids) && row !in stats && id !in ids
    ensures OneEach(stats[row := Child(id, "")], ids + {id})
  {
    var more := stats[row := Child(id, "")];
    assert Owners(more) == Owners(stats) + {id} by {
      assert more[row].token == id;
      assert forall k :: k in stats ==> more[k] == stats[k];
    }
    assert forall k :: k in stats ==> stats[k].token in Owners(stats);
  }

  lemma NewSession(tokens: map<TokenId, Account>, id: TokenId, account: Account)
    requires SessionsDiffer(tokens) && id !in tokens
    requires !exists i :: i in tokens && tokens[i].st == account.st
    ensures SessionsDiffer(tokens[id := account]) && tokens[id := account].Keys == tokens.Keys + {id}
  {
  }

  lemma AddTokenKeepsSound(db: Db, account: Account, row: RowId)
    requires Sound(db) && row !in db.stats && AddToken(db, account, row).Ok?
    ensures Sound(AddToken(db, account, row).value)
  {
    var id := db.lastId + 1;
    assert id !in db.tokens;
    NewSession(db.tokens, id, account);
    OneMore(db.stats, db.tokens.Keys, row, id);
    AddedSound(db, AddToken(db, account, row).value, id);
  }

  /** `d` is `db` with an account of its own id, session, statistics and lifecycle more. */
  lemma AddedSound(db: Db, d: Db, id: TokenId)
    requires Sound(db) && d == db.(tokens := d.tokens, stats := d.stats, lives := db.lives[id := "warm"], lastId := id)
    requires d.tokens.Keys == db.tokens.Keys + {id} && SessionsDiffer(d.tokens) && id > db.lastId
    requires OneEach(d.stats, db.tokens.Keys + {id})
    ensures Sound(d)
  {
    KnownGrows(db, d.tokens.Keys);
    SoundParts(d, d.tokens.Keys);
  }

  lemma SoundParts(d: Db, ids: set<TokenId>)
    requires d.tokens.Keys == ids && d.lives.Keys == ids && OneEach(d.stats, ids) && SessionsDiffer(d.tokens)
    requires ChildrenKnown(d.tasks, ids) && ChildrenKnown(d.projects, ids) && LogsKnown(d.logs, ids) &&
        JobsKnown(d.jobs, ids)
    requires forall id :: id in ids ==> id <= d.lastId
    ensures Sound(d)
  {
  }

  lemma OneFewer(stats: map<RowId, Child>, ids: set<TokenId>, id: TokenId)
    requires OneEach(stats, ids)
    ensures OneEach(Others(stats, id), ids - {id})
  {
    var fewer := Others(stats, id);
    forall i | i in ids - {id} ensures i in Owners(fewer) {
      var k :| k in stats && stats[k].token == i;
      assert fewer[k].token == i;
    }
  }

  lemma FewerKnown(db: Db, id: TokenId, ids: set<TokenId>)
    requires References(db) && ids == db.tokens.Keys
    ensures ChildrenKnown(Others(db.tasks, id), ids - {id}) && ChildrenKnown(Others(db.projects, id), ids - {id})
    ensures LogsKnown(NullLogs(db.logs, id), ids - {id}) && JobsKnown(NullJobs(db.jobs, id), ids - {id})
  {
  }

  /** A delete that is not blocked passes every foreign-key check on its way. */
  lemma DeleteNeverTripsForeignKeys(db: Db, id: TokenId)
    ensures DeleteToken(db, id).Err? <==> DeleteBlocked(db, id)
    ensures DeleteToken(db, id) != Err(BadReference)
  {
  }

  lemma DeleteKeepsSound(db: Db, id: TokenId)
    requires Sound(db) && DeleteToken(db, id).Ok?
    ensures Sound(DeleteToken(db, id).value)
  {
    var ids := db.tokens.Keys;
    assert (db.tokens - {id}).Keys == ids - {id} && (db.lives - {id} - {id}).Keys == ids - {id};
    OneFewer(db.stats, ids, id);
    FewerKnown(db, id, ids);
    NullTwice(db.jobs, id);
    FewerSessions(db.tokens, id);
    SoundParts(DeleteToken(db, id).value, ids - {id});
  }

  lemma NullTwice(jobs: map<RowId, Job>, id: TokenId)
    ensures NullJobs(NullJobs(jobs, id), id) == NullJobs(jobs, id)
  {
  }

  lemma FewerSessions(tokens: map<TokenId, Account>, id: TokenId)
    requires SessionsDiffer(tokens)
    ensures SessionsDiffer(tokens - {id})
  {
  }

  /** A successful delete leaves no trace of the account and touches no row of another one. */
  lemma DeleteIsExact(db: Db, id: TokenId, row: RowId)
    requires DeleteToken(db, id).Ok?
    ensures var d := DeleteToken(db, id).value;
            && id !in d.tokens && id !in d.lives && d.lastId == db.lastId
            && (forall other :: other != id ==>
                (other in d.tokens <==> other in db.tokens) && (other in d.lives <==> other in db.lives))
            && (forall other :: other != id && other in db.tokens ==> d.tokens[other] == db.tokens[other])
            && (forall other :: other != id && other in db.lives ==> d.lives[other] == db.lives[other])
    ensures var d := DeleteToken(db, id).value;
            && (row in d.stats <==> row in db.stats && db.stats[row].token != id)
            && (row in d.tasks <==> row in db.tasks && db.tasks[row].token != id)
            && (row in d.projects <==> row in db.projects && db.projects[row].token != id)
            && (row in d.stats ==> d.stats[row] == db.stats[row])
            && (row in d.tasks ==> d.tasks[row] == db.tasks[row])
            && (row in d.projects ==> d.projects[row] == db.projects[row])
    ensures var d := DeleteToken(db, id).value;
            && d.logs.Keys == db.logs.Keys && d.jobs.Keys == db.jobs.Keys
            && (row in db.logs ==> d.logs[row] == db.logs[row].(token := NullIf(db.logs[row].token, id)))
            && (row in db.jobs && !Refers(db.jobs[row], id) ==> d.jobs[row] == db.jobs[row])
            && (row in db.jobs && Unfinished(db.jobs[row]) ==> d.jobs[row] == db.jobs[row])
            && (row in db.jobs ==>
                !Refers(d.jobs[row], id) && d.jobs[row].state == db.jobs[row].state &&
                    d.jobs[row].data == db.jobs[row].data)
  {
  }

  // ---------------------------------------------------------------- runs

  datatype Event =
    | NewToken(account: Account, row: RowId)
    | NewTask(row: RowId, task: Child)
    | NewProject(row: RowId, project: Child)
    | PutLog(row: RowId, log: Log)
    | PutJob(row: RowId, job: Job)
    | Remove(id: TokenId)

  function Attempt(db: Db, e: Event): Result<Db, Error> {
    match e
    case NewToken(account, row) => if row in db.stats then Err(BadReference) else AddToken(db, account, row)
    case NewTask(row, task) => AddTask(db, row, task)
    case NewProject(row, project) => AddProject(db, row, project)
    case PutLog(row, log) => WriteLog(db, row, log)
    case PutJob(row, job) => WriteJob(db, row, job)
    case Remove(id) => DeleteToken(db, id)
  }

  /** A refused transaction is rolled back. */
  function Step(db: Db, e: Event): Db {
    match Attempt(db, e)
    case Ok(d) => d
    case Err(_) => db
  }

  function Run(db: Db, es: seq<Event>): Db
    decreases |es|
  {
    if es == [] then db else Run(Step(db, es[0]), es[1..])
  }

  lemma StepKeepsSound(db: Db, e: Event)
    requires Sound(db)
    ensures Sound(Step(db, e))
  {
    match e
    case NewToken(account, row) =>
      if row !in db.stats && AddToken(db, account, row).Ok? {
        AddTokenKeepsSound(db, account, row);
      }
    case Remove(id) =>
      if DeleteToken(db, id).Ok? {
        DeleteKeepsSound(db, id);
      }
    case _ => WriteKeepsSound(db, e);
  }

  lemma WriteKeepsSound(db: Db, e: Event)
    requires Sound(db) && !e.NewToken? && !e.Remove?
    ensures Sound(Step(db, e))
  {
    if Attempt(db, e).Ok? {
      match e
      case NewTask(row, task) => ChildAdded(db.tasks, row, task, db.tokens.Keys);
      case NewProject(row, project) => ChildAdded(db.projects, row, project, db.tokens.Keys);
      case PutLog(row, log) => LogWritten(db.logs, row, log, db.tokens.Keys);
      case PutJob(row, job) => JobWritten(db.jobs, row, job, db.tokens.Keys);
      WrittenSound(db, Attempt(db, e).value);
    }
  }

  lemma ChildAdded(rows: map<RowId, Child>, row: RowId, child: Child, ids: set<TokenId>)
    requires ChildrenKnown(rows, ids) && child.token in ids
    ensures ChildrenKnown(rows[row := child], ids)
  {
  }

  lemma LogWritten(logs: map<RowId, Log>, row: RowId, log: Log, ids: set<TokenId>)
    requires LogsKnown(logs, ids) && (log.token.Some? ==> log.token.value in ids)
    ensures LogsKnown(logs[row := log], ids)
  {
  }

  lemma JobWritten(jobs: map<RowId, Job>, row: RowId, job: Job, ids: set<TokenId>)
    requires JobsKnown(jobs, ids)
    requires (job.target.Some? ==> job.target.value in ids) && (job.resolved.Some? ==> job.resolved.value in ids)
    ensures JobsKnown(jobs[row := job], ids)
  {
  }

  lemma WrittenSound(db: Db, d: Db)
    requires Sound(db) && d == db.(tasks := d.tasks, projects := d.projects, logs := d.logs, jobs := d.jobs)
    requires ChildrenKnown(d.tasks, db.tokens.Keys) && ChildrenKnown(d.projects, db.tokens.Keys)
    requires LogsKnown(d.logs, db.tokens.Keys) && JobsKnown(d.jobs, db.tokens.Keys)
    ensures Sound(d)
  {
  }

  /** Over any run of adds, writes and deletes, no row refers to a missing account, and every account
      has exactly one statistics and one lifecycle row. */
  lemma {:induction false} RunKeepsSound(db: Db, es: seq<Event>)
    requires Sound(db)
    ensures Sound(Run(db, es))
    decreases |es|
  {
    if es != [] {
      StepKeepsSound(db, es[0]);
      RunKeepsSound(Step(db, es[0]), es[1..]);
    }
  }

  lemma {:induction false} CounterNeverFalls(db: Db, es: seq<Event>)
    ensures Run(db, es).lastId >= db.lastId
    decreases |es|
  {
    if es != [] {
      CounterStep(db, es[0]);
      CounterNeverFalls(Step(db, es[0]), es[1..]);
    }
  }

  lemma CounterStep(db: Db, e: Event)
    ensures Step(db, e).lastId >= db.lastId
  {
  }

  /** A deleted account's id is never given to another: an account added later has a new id. */
  lemma IdsNeverReused(db: Db, es: seq<Event>, account: Account, row: RowId)
    requires Sound(db) && AddToken(Run(db, es), account, row).Ok?
    ensures var d := AddToken(Run(db, es), account, row).value;
            d.lastId in d.tokens && forall old_id :: old_id in db.tokens ==> old_id < d.lastId
  {
    CounterNeverFalls(db, es);
    NewIdFollows(Run(db, es), account, row);
  }

  lemma NewIdFollows(db: Db, account: Account, row: RowId)
    ensures var r := AddToken(db, account, row); r.Ok? ==> r.value.lastId == db.lastId + 1 && db.lastId + 1 in r.value.tokens
  {
  }

  /** A delete blocked by an unfinished job changes nothing; and it is blocked by nothing else. */
  lemma BlockedChangesNothing(db: Db, id: TokenId)
    ensures DeleteBlocked(db, id) ==> Step(db, Remove(id)) == db
    ensures !DeleteBlocked(db, id) ==> id !in Step(db, Remove(id)).tokens
  {
    DeleteNeverTripsForeignKeys(db, id);
  }

  // ---------------------------------------------------------------- the repository

  class TokenRepository {
    var tokens: map<TokenId, Account>
    var stats: map<RowId, Child>
    var lives: map<TokenId, string>
    var tasks: map<RowId, Child>
    var projects: map<RowId, Child>
    var logs: map<RowId, Log>
    var jobs: map<RowId, Job>
    var lastId: TokenId

    function Tables(): Db
      reads this
    {
      Db(tokens, stats, lives, tasks, projects, logs, jobs, lastId)
    }

    method Add(account: Account, statsRow: RowId) returns (r: Result<TokenId, Error>)
      modifies this
      ensures match AddToken(old(Tables()), account, statsRow)
              case Ok(d) => Tables() == d && r == Ok(d.lastId)
              case Err(e) => Tables() == old(Tables()) && r == Err(e)
    {
      if exists id :: id in tokens && tokens[id].st == account.st {
        return Err(DuplicateSession);
      }
      lastId := lastId + 1;
      tokens := tokens[lastId := account];
      stats := stats[statsRow := Child(lastId, "")];
      lives := lives[lastId := "warm"];
      return Ok(lastId);
    }

    /** The statements of the delete in order, the account row last. */
    method Delete(id: TokenId) returns (r: Result<(), Error>)
      modifies this
      ensures match DeleteToken(old(Tables()), id)
              case Ok(d) => Tables() == d && r == Ok(())
              case Err(e) => Tables() == old(Tables()) && r == Err(e)
    {
      if exists row :: row in jobs && Refers(jobs[row], id) && Unfinished(jobs[row]) {
        return Err(Blocked);
      }
      DeleteNeverTripsForeignKeys(Tables(), id);
      logs := NullLogs(logs, id);
      jobs := NullJobs(jobs, id);
      tasks := Others(tasks, id);
      stats := Others(stats, id);
      projects := Others(projects, id);
      lives := lives - {id};
      tokens := tokens - {id};
      NullTwice(old(jobs), id);
      assert lives - {id} == lives;
      return Ok(());
    }
  }
}
