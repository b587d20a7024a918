/** Coalesced access-token refresh (`_refresh_at` and the cancellation in `delete_token` of
    src/services/token_manager.py), with asyncio tasks explicit: a task is scheduled, then runs, then
    is done; one cancelled before it first runs never reaches its own cleanup. */
module RefreshSingleFlight {
  import opened Prelude

  type TokenId = nat
  type TaskId = nat
  type Caller = nat

  datatype Outcome = Refreshed(ok: bool) | Raised(error: string) | Cancelled

  datatype Phase = Scheduled | Running | Done(outcome: Outcome)

  datatype Runner = Runner(token: TokenId, phase: Phase)

  datatype Wait = Waiting(task: TaskId) | Returned(task: TaskId, outcome: Outcome) | Interrupted

  /** `detached` are the tasks a deletion took out of the table. */
  datatype World = World(
    futures: map<TokenId, TaskId>, tasks: map<TaskId, Runner>, callers: map<Caller, Wait>, detached: set<TaskId>)

  datatype Event =
    | Call(caller: Caller, token: TokenId, next: TaskId)
    | Begin(task: TaskId)                     // the runner's first step
    | Finish(task: TaskId, outcome: Outcome)  // its last, with the cleanup
    | Wake(caller: Caller)
    | Delete(token: TokenId)
    | Interrupt(caller: Caller)               // a waiting caller is cancelled, and with it the task it awaits

  predicate Live(w: World, task: TaskId) {
    task in w.tasks && !w.tasks[task].phase.Done?
  }

  function SetPhase(w: World, task: TaskId, phase: Phase): World
    requires task in w.tasks
  {
    w.(tasks := w.tasks[task := w.tasks[task].(phase := phase)])
  }

  /** The task a caller awaits: the one in the table, or else the new one. */
  function Awaited(futures: map<TokenId, TaskId>, token: TokenId, next: TaskId): TaskId {
    if token in futures then futures[token] else next
  }

  function Entered(futures: map<TokenId, TaskId>, token: TokenId, next: TaskId): map<TokenId, TaskId> {
    futures[token := Awaited(futures, token, next)]
  }

  /** Join the task in the table, or schedule one and enter it. */
  function Refresh(w: World, caller: Caller, token: TokenId, next: TaskId): World {
    w.(tasks := if token in w.futures then w.tasks else w.tasks[next := Runner(token, Scheduled)],
       futures := Entered(w.futures, token, next),
       callers := w.callers[caller := Waiting(Awaited(w.futures, token, next))])
  }

  /** The cleanup: remove the entry only while it is still one's own. */
  function CleanUp(futures: map<TokenId, TaskId>, token: TokenId, task: TaskId): map<TokenId, TaskId> {
    if token in futures && futures[token] == task then futures - {token} else futures
  }

  function FinishTask(w: World, task: TaskId, outcome: Outcome): World
    requires task in w.tasks
  {
    SetPhase(w, task, Done(outcome)).(futures := CleanUp(w.futures, w.tasks[task].token, task))
  }

  /** Cancelling a task that has not begun ends it at once; one that runs gets to clean up first. */
  function CancelTask(w: World, task: TaskId): World {
    if task in w.tasks && w.tasks[task].phase == Scheduled then SetPhase(w, task, Done(Cancelled)) else w
  }

  /** What a deletion finds in the table, and the table without it. */
  function TakeOut(futures: map<TokenId, TaskId>, token: TokenId): (Option<TaskId>, map<TokenId, TaskId>) {
    (if token in futures then Some(futures[token]) else None, futures - {token})
  }

  function DeleteEntry(w: World, token: TokenId): World {
    var (found, rest) := TakeOut(w.futures, token);
    match found
    case None => w
    case Some(task) => CancelTask(w.(futures := rest, detached := w.detached + {task}), task)
  }

  function Step(w: World, e: Event): World {
    match e
    case Call(caller, token, next) => if caller in w.callers || next in w.tasks then w
        else Refresh(w, caller, token, next)
    case Begin(task) => if task in w.tasks && w.tasks[task].phase == Scheduled then SetPhase(w, task, Running) else w
    case Finish(task, outcome) => if task in w.tasks && w.tasks[task].phase == Running
        then FinishTask(w, task, outcome) else w
    case Wake(caller) =>
      if caller in w.callers && w.callers[caller].Waiting? then WakeCaller(w, caller, w.callers[caller].task) else w
    case Delete(token) => DeleteEntry(w, token)
    case Interrupt(caller) =>
      if caller in w.callers && w.callers[caller].Waiting? then
        CancelTask(w, w.callers[caller].task).(callers := w.callers[caller := Interrupted])
      else w
  }

  function WakeCaller(w: World, caller: Caller, task: TaskId): World {
    if task in w.tasks && w.tasks[task].phase.Done? then
      w.(callers := w.callers[caller := Returned(task, w.tasks[task].phase.outcome)])
    else w
  }

  function Run(w: World, es: seq<Event>): World
    decreases |es|
  {
    if es == [] then w else Run(Step(w, es[0]), es[1..])
  }

  const START := World(map[], map[], map[], {})

  // ---------------------------------------------------------------- single flight

  /** An entry names a task of its token; a live task nobody detached has its entry. */
  predicate Tied(w: World) {
    && (forall token :: token in w.futures ==>
          var task := w.futures[token]; task in w.tasks && w.tasks[task].token == token && task !in w.detached)
    && (forall task :: task in w.tasks && !w.tasks[task].phase.Done? && task !in w.detached ==>
          w.tasks[task].token in w.futures && w.futures[w.tasks[task].token] == task)
    && (forall task :: task in w.detached ==> task in w.tasks)
  }

  /** Every entry's task is still alive. */
  predicate NoneStuck(w: World) {
    forall token :: token in w.futures ==> Live(w, w.futures[token])
  }

  /** Callers that have returned got their task's own outcome. */
  predicate Faithful(w: World) {
    forall caller :: caller in w.callers ==>
      match w.callers[caller]
      case Waiting(task) => task in w.tasks
      case Returned(task, outcome) => task in w.tasks && w.tasks[task].phase == Done(outcome)
      case Interrupted => true
  }

  lemma StepKeepsTied(w: World, e: Event)
    requires Tied(w)
    ensures Tied(Step(w, e))
  {
  }

  lemma StepKeepsFaithful(w: World, e: Event)
    requires Faithful(w) && Tied(w)
    ensures Faithful(Step(w, e))
  {
  }

  /** An interruption is harmless to the table unless it hits a runner that has not begun. */
  predicate Harmless(w: World, e: Event) {
    e.Interrupt? && e.caller in w.callers && w.callers[e.caller].Waiting? ==>
      var task := w.callers[e.caller].task;
      task in w.tasks && w.tasks[task].phase == Scheduled ==> task in w.detached
  }

  lemma StepKeepsUnstuck(w: World, e: Event)
    requires Tied(w) && NoneStuck(w) && Harmless(w, e)
    ensures NoneStuck(Step(w, e))
  {
  }

  predicate HarmlessRun(w: World, es: seq<Event>)
    decreases |es|
  {
    es == [] || (Harmless(w, es[0]) && HarmlessRun(Step(w, es[0]), es[1..]))
  }

  lemma {:induction false} RunKeepsTied(w: World, es: seq<Event>)
    requires Tied(w) && Faithful(w)
    ensures Tied(Run(w, es)) && Faithful(Run(w, es))
    ensures NoneStuck(w) && HarmlessRun(w, es) ==> NoneStuck(Run(w, es))
    decreases |es|
  {
    if es != [] {
      StepKeepsTied(w, es[0]);
      StepKeepsFaithful(w, es[0]);
      if NoneStuck(w) && Harmless(w, es[0]) {
        StepKeepsUnstuck(w, es[0]);
      }
      RunKeepsTied(Step(w, es[0]), es[1..]);
    }
  }

  /** A run in which no caller is interrupted is harmless. */
  lemma {:induction false} CalmIsHarmless(w: World, es: seq<Event>)
    requires forall i :: 0 <= i < |es| ==> !es[i].Interrupt?
    ensures HarmlessRun(w, es)
    decreases |es|
  {
    if es != [] {
      CalmIsHarmless(Step(w, es[0]), es[1..]);
    }
  }

  /** The attached live runners of a token. */
  function Attached(w: World, token: TokenId): set<TaskId> {
    set task | task in w.tasks && Live(w, task) && w.tasks[task].token == token && task !in w.detached
  }

  /** Every token has an entry iff exactly one attached runner of it is live, and names that one. */
  ghost predicate OneFlight(w: World) {
    forall token :: Attached(w, token) == if token in w.futures then {w.futures[token]} else {}
  }

  lemma OneFlightIff(w: World)
    requires Tied(w)
    ensures OneFlight(w) <==> NoneStuck(w)
  {
    if OneFlight(w) {
      forall token | token in w.futures ensures Live(w, w.futures[token]) {
        assert w.futures[token] in Attached(w, token);
      }
    }
  }

  ghost predicate OneFlightThroughout(w: World, es: seq<Event>)
    decreases |es|
  {
    OneFlight(w) && (es == [] || OneFlightThroughout(Step(w, es[0]), es[1..]))
  }

  lemma StepUnstuckIff(w: World, e: Event)
    requires Tied(w) && NoneStuck(w)
    ensures NoneStuck(Step(w, e)) <==> Harmless(w, e)
  {
    if Harmless(w, e) {
      StepKeepsUnstuck(w, e);
    } else {
      InterruptSticksIff(w, e.caller);
    }
  }

  lemma {:induction false} ThroughoutIff(w: World, es: seq<Event>)
    requires Tied(w) && NoneStuck(w)
    ensures OneFlightThroughout(w, es) <==> HarmlessRun(w, es)
    decreases |es|
  {
    OneFlightIff(w);
    if es != [] {
      StepKeepsTied(w, es[0]);
      StepUnstuckIff(w, es[0]);
      OneFlightIff(Step(w, es[0]));
      if Harmless(w, es[0]) {
        ThroughoutIff(Step(w, es[0]), es[1..]);
      }
    }
  }

  /** Single flight: at every moment of a run each token has an entry iff exactly one attached runner of it
      is live, if and only if no waiter is interrupted while its attached runner has not begun. Attached
      means no deletion took it out. */
  lemma SingleFlightIff(es: seq<Event>)
    ensures OneFlightThroughout(START, es) <==> HarmlessRun(START, es)
  {
    ThroughoutIff(START, es);
  }

  predicate NoDeletes(es: seq<Event>) {
    forall e :: e in es ==> !e.Delete?
  }

  lemma {:induction false} NothingDetached(w: World, es: seq<Event>)
    requires NoDeletes(es)
    ensures Run(w, es).detached == w.detached
    decreases |es|
  {
    if es != [] {
      assert !es[0].Delete?;
      NothingDetached(Step(w, es[0]), es[1..]);
    }
  }

  /** Without deletions at most one refresh of a token is under way, even when callers are interrupted. */
  lemma AtMostOneRunner(es: seq<Event>, a: TaskId, b: TaskId)
    requires NoDeletes(es)
    requires var w := Run(START, es); Live(w, a) && Live(w, b) && w.tasks[a].token == w.tasks[b].token
    ensures a == b
  {
    RunKeepsTied(START, es);
    NothingDetached(START, es);
  }

  /** Everyone who waited for one runner and returned got the same answer, that runner's. */
  lemma JoinersAgree(es: seq<Event>, c: Caller, d: Caller)
    requires var w := Run(START, es);
             c in w.callers && d in w.callers && w.callers[c].Returned? && w.callers[d].Returned? &&
                 w.callers[c].task == w.callers[d].task
    ensures var w := Run(START, es);
            && w.callers[c].outcome == w.callers[d].outcome
            && w.callers[c].task in w.tasks && w.tasks[w.callers[c].task].phase == Done(w.callers[c].outcome)
  {
    RunKeepsTied(START, es);
  }

  /** A runner that a deletion detached never removes its successor's entry. */
  lemma DetachedLeavesSuccessor(es: seq<Event>, task: TaskId, outcome: Outcome)
    requires task in Run(START, es).detached
    ensures Step(Run(START, es), Finish(task, outcome)).futures == Run(START, es).futures
  {
    RunKeepsTied(START, es);
  }

  // ---------------------------------------------------------------- the stuck entry

  /** Interrupting a waiter leaves a dead entry exactly when the attached runner has not begun. */
  lemma InterruptSticksIff(w: World, caller: Caller)
    requires Tied(w) && NoneStuck(w) && caller in w.callers && w.callers[caller].Waiting?
    ensures NoneStuck(Step(w, Interrupt(caller)))
            <==> (var task := w.callers[caller].task; task in w.tasks && w.tasks[task].phase == Scheduled ==>
                task in w.detached)
  {
    var task := w.callers[caller].task;
    if task in w.tasks && w.tasks[task].phase == Scheduled && task !in w.detached {
      assert w.futures[w.tasks[task].token] == task;
    }
  }

  /** `token`'s entry names a task that is over. */
  predicate Stuck(w: World, token: TokenId, outcome: Outcome) {
    token in w.futures && w.futures[token] in w.tasks && w.tasks[w.futures[token]].phase == Done(outcome)
  }

  lemma StuckStep(w: World, e: Event, token: TokenId, outcome: Outcome)
    requires Stuck(w, token, outcome) && e != Delete(token)
    ensures Stuck(Step(w, e), token, outcome) && Step(w, e).futures[token] == w.futures[token]
  {
  }

  /** A dead entry stays until the token is deleted: every later caller is given the dead task and its
      outcome, and no refresh is ever tried again. */
  lemma {:induction false} StuckForGood(w: World, es: seq<Event>, token: TokenId, outcome: Outcome, caller: Caller,
      next: TaskId)
    requires Stuck(w, token, outcome) && forall i :: 0 <= i < |es| ==> es[i] != Delete(token)
    ensures var v := Run(w, es);
            && Stuck(v, token, outcome)
            && (caller !in v.callers && next !in v.tasks ==>
                  var u := Step(Step(v, Call(caller, token, next)), Wake(caller));
                  u.callers[caller] == Returned(w.futures[token], outcome) && u.tasks == v.tasks)
    decreases |es|
  {
    if es != [] {
      StuckStep(w, es[0], token, outcome);
      StuckForGood(Step(w, es[0]), es[1..], token, outcome, caller, next);
    }
  }

  /** It happens: a caller cancelled in the same loop turn that scheduled the refresh. */
  lemma StuckIsReachable(token: TokenId)
    ensures Stuck(Run(START, [Call(0, token, 0), Interrupt(0)]), token, Cancelled)
  {
    var w := Step(START, Call(0, token, 0));
    assert [Call(0, token, 0), Interrupt(0)][1..] == [Interrupt(0)];
    assert [Interrupt(0)][1..] == [];
    assert Run(START, [Call(0, token, 0), Interrupt(0)]) == Step(w, Interrupt(0));
  }

  // ---------------------------------------------------------------- the token manager

  class RefreshTable {
    var futures: map<TokenId, TaskId>

    /** The head of `_refresh_at`: the task to await, and whether it is a new one. */
    method Enter(token: TokenId, next: TaskId) returns (task: TaskId, created: bool)
      modifies this
      ensures created <==> token !in old(futures)
      ensures task == Awaited(old(futures), token, next) && futures == Entered(old(futures), token, next)
    {
      if token in futures {
        return futures[token], false;
      }
      futures := futures[token := next];
      return next, true;
    }

    /** The runner's `finally`. */
    method Leave(token: TokenId, task: TaskId)
      modifies this
      ensures futures == CleanUp(old(futures), token, task)
    {
      if token in futures && futures[token] == task {
        futures := futures - {token};
      }
    }

    /** The head of `delete_token`: the entry is taken out before its task is cancelled. */
    method Take(token: TokenId) returns (task: Option<TaskId>)
      modifies this
      ensures (task, futures) == TakeOut(old(futures), token)
    {
      task := None;
      if token in futures {
        task := Some(futures[token]);
      }
      futures := futures - {token};
    }
  }
}
