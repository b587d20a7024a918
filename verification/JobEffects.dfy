/** When each operation on an onboarding job applies and what it writes
    (src/core/repositories/onboarding_job_repository.py). */
module JobEffects {
  import opened Prelude
  import opened OnboardingJobs

  /** No other job is running or failed. */
  predicate OthersAtRest(jobs: Jobs, id: JobId) {
    forall other :: other in jobs && (jobs[other].state == Running || jobs[other].state == Failed) ==> other == id
  }

  /** The job starts over: running from the browser start, with its error and end dates gone and its first start
      remembered. */
  predicate Restarted(was: Job, job: Job, now: int) {
    && job.state == Running && job.phase == "browser_start" && job.error == None
    && job.completedAt == None && job.cancelledAt == None
    && job.startedAt == (match was.startedAt case Some(at) => Some(at) case None => Some(now))
    && job.found == was.found
  }

  /** A start is won exactly by a pending job while no other is running or failed. */
  lemma StartIff(jobs: Jobs, id: JobId, now: int)
    ensures var (won, after) := ClaimStart(jobs, id, now);
            && (won <==> id in jobs && jobs[id].state == Pending && OthersAtRest(jobs, id))
            && (!won ==> after == jobs)
            && (won ==>
                  && id in after && after == jobs[id := after[id]] && Restarted(jobs[id], after[id], now)
                  && after[id].pid == jobs[id].pid && after[id].ticks == jobs[id].ticks
                  && after[id].expiresAt == jobs[id].expiresAt)
  {
  }

  /** A resume is won exactly while the failed job is as it was seen, stopped at a phase that can be resumed,
      has found nothing, and no other is running or failed; it takes away the browser's identity and refreshes
      the expiry. */
  lemma ResumeIff(jobs: Jobs, id: JobId, s: Snapshot, refreshed: int, now: int)
    ensures var (won, after) := ClaimResume(jobs, id, s, refreshed, now);
            && (won <==>
                  && (s.phase == "stop_browser" || s.phase == "verify_account")
                  && id in jobs && jobs[id].state == Failed && jobs[id].found == {}
                  && Snapshot(jobs[id].phase, jobs[id].error, jobs[id].pid, jobs[id].ticks, jobs[id].expiresAt) == s
                  && OthersAtRest(jobs, id))
            && (!won ==> after == jobs)
            && (won ==>
                  && id in after && after == jobs[id := after[id]] && Restarted(jobs[id], after[id], now)
                  && after[id].pid == None && after[id].ticks == None && after[id].expiresAt == Some(refreshed))
  {
  }

  /** The identity of a running or failed job is replaced exactly when it is the expected one; a start time
      without a process is refused. */
  lemma ReplaceIff(jobs: Jobs, id: JobId, expected: Identity, next: Identity)
    ensures var (done, after) := ReplaceIdentity(jobs, id, expected, next);
            && (done == None <==> next.pid == None && next.ticks != None)
            && (done == Some(true) <==>
                  && (next.pid != None || next.ticks == None)
                  && id in jobs && (jobs[id].state == Running || jobs[id].state == Failed)
                  && jobs[id].pid == expected.pid && jobs[id].ticks == expected.ticks)
            && after == if done == Some(true) then jobs[id := jobs[id].(pid := next.pid, ticks := next.ticks)] else jobs
  {
  }

  /** An update applies exactly to a job in the state and phase it insists on, and reports what happened. */
  lemma UpdateIff(jobs: Jobs, id: JobId, c: Change, now: int)
    ensures var (done, after) := UpdateState(jobs, id, c, now);
            && (done == Some(true) <==>
                  && id in jobs
                  && (c.expectedState == None || c.expectedState == Some(jobs[id].state))
                  && (c.expectedPhase == None || c.expectedPhase == Some(jobs[id].phase)))
            && (done == None <==> id !in jobs && c.expectedState == None && c.expectedPhase == None)
            && (done != Some(true) ==> after == jobs)
            && (done == Some(true) ==>
                  id in after && after == jobs[id := after[id]] && Updated(jobs[id], after[id], c, now))
  {
  }

  /** The dates that go with a state: a first start for running; an end for completed and failed, none for
      pending and running; a cancellation for cancelled alone. Any other state leaves the dates. */
  predicate Updated(was: Job, job: Job, c: Change, now: int) {
    && job.state == c.state
    && job.phase == (if c.phase.Some? then c.phase.value else was.phase)
    && job.error == (if c.error.Some? then c.error.value else was.error)
    && job.pid == was.pid && job.ticks == was.ticks && job.expiresAt == was.expiresAt && job.found == was.found
    && job.startedAt == (if c.state == Running && was.startedAt == None then Some(now) else was.startedAt)
    && match c.state
       case Pending => job.completedAt == None && job.cancelledAt == None
       case Running => job.completedAt == None && job.cancelledAt == None
       case Failed => job.completedAt == Some(now) && job.cancelledAt == None
       case Completed => job.completedAt == Some(now) && job.cancelledAt == None
       case Cancelled => job.completedAt == was.completedAt && job.cancelledAt == Some(now)
       case Other(_) => job.completedAt == was.completedAt && job.cancelledAt == was.cancelledAt
  }

  /** Field writes change the fields they name and never the state or the dates. */
  lemma FieldsAre(jobs: Jobs, id: JobId, phase: Option<string>, pid: Option<Option<int>>, ticks: Option<Option<int>>,
      error: Option<Option<string>>, found: set<Finding>, expiresAt: Option<Option<int>>)
    ensures var after := Step(jobs, SetFields(id, phase, pid, ticks, error, found, expiresAt));
            if id !in jobs then after == jobs
            else
              && id in after && after == jobs[id := after[id]]
              && var was, job := jobs[id], after[id];
                 && job.state == was.state && job.startedAt == was.startedAt && job.completedAt == was.completedAt
                 && job.cancelledAt == was.cancelledAt && job.found == found
                 && (phase.Some? ==> job.phase == phase.value) && (phase.None? ==> job.phase == was.phase)
                 && (pid.Some? ==> job.pid == pid.value) && (pid.None? ==> job.pid == was.pid)
                 && (ticks.Some? ==> job.ticks == ticks.value) && (ticks.None? ==> job.ticks == was.ticks)
                 && (error.Some? ==> job.error == error.value) && (error.None? ==> job.error == was.error)
                 && (expiresAt.Some? ==> job.expiresAt == expiresAt.value)
                 && (expiresAt.None? ==> job.expiresAt == was.expiresAt)
  {
  }

  /** A new job does not replace one of the same id, and a deletion takes away that job alone. */
  lemma CreateAndDelete(jobs: Jobs, id: JobId, job: Job)
    ensures Step(jobs, Create(id, job)) == if id in jobs then jobs else jobs[id := job]
    ensures id !in Step(jobs, Delete(id))
    ensures forall other :: other != id ==>
              (other in Step(jobs, Delete(id)) <==> other in jobs)
              && (other in jobs ==> Step(jobs, Delete(id))[other] == jobs[other])
  {
  }

  /** Each event of a run is its operation, and a run is its events in order. */
  lemma StepIs(jobs: Jobs, id: JobId, s: Snapshot, was: Identity, next: Identity, c: Change, at: int, now: int)
    ensures Step(jobs, Start(id, now)) == ClaimStart(jobs, id, now).1
    ensures Step(jobs, Resume(id, s, at, now)) == ClaimResume(jobs, id, s, at, now).1
    ensures Step(jobs, Swap(id, was, next)) == ReplaceIdentity(jobs, id, was, next).1
    ensures Step(jobs, Update(id, c, now)) == UpdateState(jobs, id, c, now).1
  {
  }

  lemma RunIs(jobs: Jobs, e: Event, es: seq<Event>)
    ensures Run(jobs, []) == jobs && Run(jobs, [e] + es) == Run(Step(jobs, e), es)
  {
    assert ([e] + es)[1..] == es;
  }
}
