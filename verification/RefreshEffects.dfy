/** What each step of a coalesced refresh does to the table, the tasks and the callers
    (src/services/token_manager.py), and that a refresh undisturbed runs to its end. */
module RefreshEffects {
  import opened Prelude
  import opened RefreshSingleFlight

  /** A caller joins the task its token has in the table; with none there it schedules one and enters it. */
  lemma CallIs(w: World, caller: Caller, token: TokenId, next: TaskId)
    requires caller !in w.callers && next !in w.tasks
    ensures var v := Step(w, Call(caller, token, next));
            && v.detached == w.detached
            && (token in w.futures ==>
                  && v.futures == w.futures && v.tasks == w.tasks
                  && v.callers == w.callers[caller := Waiting(w.futures[token])])
            && (token !in w.futures ==>
                  && v.futures == w.futures[token := next] && v.tasks == w.tasks[next := Runner(token, Scheduled)]
                  && v.callers == w.callers[caller := Waiting(next)])
  {
  }

  /** A caller that is known, or a task id that is taken, is no call. */
  lemma NoCall(w: World, caller: Caller, token: TokenId, next: TaskId)
    requires caller in w.callers || next in w.tasks
    ensures Step(w, Call(caller, token, next)) == w
  {
  }

  predicate InPhase(w: World, task: TaskId, phase: Phase) {
    task in w.tasks && w.tasks[task].phase == phase
  }

  /** Exactly a scheduled task begins, and exactly a running one finishes; finishing records the outcome and
      takes the entry away if it is still the task's own. */
  lemma RunnerSteps(w: World, task: TaskId, outcome: Outcome)
    ensures InPhase(w, task, Scheduled) ==>
              Step(w, Begin(task)) == w.(tasks := w.tasks[task := Runner(w.tasks[task].token, Running)])
    ensures !InPhase(w, task, Scheduled) ==> Step(w, Begin(task)) == w
    ensures InPhase(w, task, Running) ==>
              var token := w.tasks[task].token;
              Step(w, Finish(task, outcome)) ==
                w.(tasks := w.tasks[task := Runner(token, Done(outcome))],
                   futures := if token in w.futures && w.futures[token] == task then w.futures - {token} else w.futures)
    ensures !InPhase(w, task, Running) ==> Step(w, Finish(task, outcome)) == w
  {
  }

  predicate WaitsFor(w: World, caller: Caller, task: TaskId) {
    caller in w.callers && w.callers[caller] == Waiting(task)
  }

  /** A waiting caller wakes with its task's outcome once that is over, and not before. */
  lemma WakeIs(w: World, caller: Caller, task: TaskId)
    requires WaitsFor(w, caller, task) && task in w.tasks
    ensures var v := Step(w, Wake(caller));
            match w.tasks[task].phase
            case Done(outcome) => v == w.(callers := w.callers[caller := Returned(task, outcome)])
            case _ => v == w
  {
  }

  function Cancel(w: World, task: TaskId): map<TaskId, Runner>
    requires task in w.tasks
  {
    w.tasks[task := Runner(w.tasks[task].token, Done(Cancelled))]
  }

  /** A deletion takes the token's entry out and cancels its task: one that has not begun is over at once, one
      that runs goes on detached. */
  lemma DeleteIs(w: World, token: TokenId)
    ensures token !in w.futures ==> Step(w, Delete(token)) == w
    ensures token in w.futures && w.futures[token] in w.tasks ==>
              var v, task := Step(w, Delete(token)), w.futures[token];
              && v.futures == w.futures - {token} && v.detached == w.detached + {task} && v.callers == w.callers
              && v.tasks == (if InPhase(w, task, Scheduled) then Cancel(w, task) else w.tasks)
  {
  }

  /** Cancelling a waiting caller ends its wait, and its task too if that has not begun; the table stays. */
  lemma InterruptIs(w: World, caller: Caller, task: TaskId)
    requires WaitsFor(w, caller, task) && task in w.tasks
    ensures var v := Step(w, Interrupt(caller));
            && v.futures == w.futures && v.detached == w.detached && v.callers == w.callers[caller := Interrupted]
            && v.tasks == (if InPhase(w, task, Scheduled) then Cancel(w, task) else w.tasks)
  {
  }

  lemma RunIs(w: World, e: Event, es: seq<Event>)
    ensures Run(w, []) == w && Run(w, [e] + es) == Run(Step(w, e), es)
  {
    assert ([e] + es)[1..] == es;
  }

  /** Two callers of one token share one refresh: both get its outcome, and the table is as it was. */
  lemma SharedRefresh(w: World, a: Caller, b: Caller, token: TokenId, task: TaskId, spare: TaskId, outcome: Outcome)
    requires a !in w.callers && b !in w.callers && a != b && token !in w.futures
    requires task !in w.tasks && spare !in w.tasks && task != spare
    ensures var called := Step(Step(w, Call(a, token, task)), Call(b, token, spare));
            var done := Step(Step(called, Begin(task)), Finish(task, outcome));
            var v := Step(Step(done, Wake(a)), Wake(b));
            && called.futures == w.futures[token := task] && spare !in called.tasks
            && v.futures == w.futures && v.tasks == w.tasks[task := Runner(token, Done(outcome))]
            && v.callers == w.callers[a := Returned(task, outcome)][b := Returned(task, outcome)]
  {
    var first := Step(w, Call(a, token, task));
    CallIs(w, a, token, task);
    CallIs(first, b, token, spare);
    var called := Step(first, Call(b, token, spare));
    RunnerSteps(called, task, outcome);
    var begun := Step(called, Begin(task));
    RunnerSteps(begun, task, outcome);
    var done := Step(begun, Finish(task, outcome));
    assert done.futures == w.futures;
    assert done.tasks == w.tasks[task := Runner(token, Done(outcome))];
    assert WaitsFor(done, a, task);
    WakeIs(done, a, task);
    var woken := Step(done, Wake(a));
    assert WaitsFor(woken, b, task);
    WakeIs(woken, b, task);
    assert w.callers[a := Waiting(task)][b := Waiting(task)][a := Returned(task, outcome)][b := Returned(task, outcome)]
        == w.callers[a := Returned(task, outcome)][b := Returned(task, outcome)];
  }
}
