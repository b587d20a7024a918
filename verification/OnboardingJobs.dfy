/** The onboarding job table as a singleton slot (src/core/repositories/onboarding_job_repository.py).
    Each operation is one transaction, a conditional update that acts as compare-and-swap. */
module OnboardingJobs {
  import opened Prelude

  type JobId = string

  datatype State = Pending | Running | Failed | Completed | Cancelled | Other(name: string)

  /** What a job has found so far; each may still be null. */
  datatype Finding =
    | ResolvedToken | Email | Tier | Credits | AtExpires | ProjectCount | ProfileReady | ConflictStatus

  datatype Job = Job(
    state: State, phase: string, pid: Option<int>, ticks: Option<int>, expiresAt: Option<int>,
    error: Option<string>, found: set<Finding>,
    startedAt: Option<int>, completedAt: Option<int>, cancelledAt: Option<int>)

  type Jobs = map<JobId, Job>

  /** What a resumer saw before it decided to resume. */
  datatype Snapshot = Snapshot(phase: string, error: Option<string>, pid: Option<int>, ticks: Option<int>,
      expiresAt: Option<int>)

  predicate ActiveState(s: State) {
    s == Running || s == Failed
  }

  predicate Active(jobs: Jobs, id: JobId) {
    id in jobs && ActiveState(jobs[id].state)
  }

  predicate OthersIdle(jobs: Jobs, id: JobId) {
    forall other :: other in jobs && other != id ==> !ActiveState(jobs[other].state)
  }

  predicate Resumable(phase: string) {
    phase == "stop_browser" || phase == "verify_account"
  }

  function Claimed(job: Job, now: int): Job {
    job.(state := Running, phase := "browser_start", startedAt := Some(job.startedAt.GetOr(now)),
         completedAt := None, cancelledAt := None, error := None)
  }

  predicate CanStart(jobs: Jobs, id: JobId) {
    id in jobs && jobs[id].state == Pending && OthersIdle(jobs, id)
  }

  function ClaimStart(jobs: Jobs, id: JobId, now: int): (bool, Jobs) {
    if CanStart(jobs, id) then (true, jobs[id := Claimed(jobs[id], now)]) else (false, jobs)
  }

  predicate Matches(job: Job, s: Snapshot) {
    && job.state == Failed && job.phase == s.phase && job.error == s.error
    && job.pid == s.pid && job.ticks == s.ticks && job.expiresAt == s.expiresAt && job.found == {}
  }

  predicate CanResume(jobs: Jobs, id: JobId, s: Snapshot) {
    Resumable(s.phase) && id in jobs && Matches(jobs[id], s) && OthersIdle(jobs, id)
  }

  function ClaimResume(jobs: Jobs, id: JobId, s: Snapshot, refreshed: int, now: int): (bool, Jobs) {
    if CanResume(jobs, id, s) then
      (true, jobs[id := Claimed(jobs[id], now).(pid := None, ticks := None, expiresAt := Some(refreshed))])
    else (false, jobs)
  }

  /** The browser's process id and start time, which change together. */
  datatype Identity = Identity(pid: Option<int>, ticks: Option<int>)

  predicate Whole(i: Identity) {
    i.pid.None? ==> i.ticks.None?
  }

  /** None for a half-empty identity, which is refused. */
  function ReplaceIdentity(jobs: Jobs, id: JobId, expected: Identity, next: Identity): (Option<bool>, Jobs) {
    if !Whole(next) then (None, jobs)
    else if Active(jobs, id) && Identity(jobs[id].pid, jobs[id].ticks) == expected then
      (Some(true), jobs[id := jobs[id].(pid := next.pid, ticks := next.ticks)])
    else (Some(false), jobs)
  }

  /** What `update_state` may change and what it may insist on. */
  datatype Change = Change(
    state: State, phase: Option<string>, error: Option<Option<string>>,
    expectedState: Option<State>, expectedPhase: Option<string>)

  predicate Applies(jobs: Jobs, id: JobId, c: Change) {
    && id in jobs
    && (c.expectedState.Some? ==> jobs[id].state == c.expectedState.value)
    && (c.expectedPhase.Some? ==> jobs[id].phase == c.expectedPhase.value)
  }

  function Changed(job: Job, c: Change, now: int): Job {
    job.(state := c.state, phase := c.phase.GetOr(job.phase), error := c.error.GetOr(job.error),
         startedAt := if c.state == Running then Some(job.startedAt.GetOr(now)) else job.startedAt,
         completedAt := if c.state == Completed || c.state == Failed then Some(now)
                        else if c.state == Pending || c.state == Running then None else job.completedAt,
         cancelledAt := if c.state == Cancelled then Some(now)
                        else if c.state.Other? then job.cancelledAt else None)
  }

  /** None when the job is missing and nothing was insisted on, which is an error. */
  function UpdateState(jobs: Jobs, id: JobId, c: Change, now: int): (Option<bool>, Jobs) {
    if Applies(jobs, id, c) then (Some(true), jobs[id := Changed(jobs[id], c, now)])
    else (if c.expectedState.Some? || c.expectedPhase.Some? then Some(false) else None, jobs)
  }

  // ---------------------------------------------------------------- runs

  datatype Event =
    | Create(id: JobId, job: Job)
    | Start(id: JobId, now: int)
    | Resume(id: JobId, expected: Snapshot, refreshed: int, now: int)
    | Swap(id: JobId, was: Identity, next: Identity)
    | Update(id: JobId, change: Change, now: int)
    | SetFields(id: JobId, phase: Option<string>, pid: Option<Option<int>>, ticks: Option<Option<int>>,
        error: Option<Option<string>>, found: set<Finding>, expiresAt: Option<Option<int>>)
    | Delete(id: JobId)

  function Step(jobs: Jobs, e: Event): Jobs {
    match e
    case Create(id, job) => if id in jobs then jobs else jobs[id := job]
    case Start(id, now) => ClaimStart(jobs, id, now).1
    case Resume(id, s, refreshed, now) => ClaimResume(jobs, id, s, refreshed, now).1
    case Swap(id, was, next) => ReplaceIdentity(jobs, id, was, next).1
    case Update(id, c, now) => UpdateState(jobs, id, c, now).1
    case SetFields(id, phase, pid, ticks, error, found, expiresAt) =>
      if id in jobs then
        jobs[id := jobs[id].(phase := phase.GetOr(jobs[id].phase), pid := pid.GetOr(jobs[id].pid),
            ticks := ticks.GetOr(jobs[id].ticks), error := error.GetOr(jobs[id].error), found := found,
            expiresAt := expiresAt.GetOr(jobs[id].expiresAt))]
      else jobs
    case Delete(id) => jobs - {id}
  }

  function Run(jobs: Jobs, es: seq<Event>): Jobs
    decreases |es|
  {
    if es == [] then jobs else Run(Step(jobs, es[0]), es[1..])
  }

  ghost predicate Singleton(jobs: Jobs) {
    forall i, j :: Active(jobs, i) && Active(jobs, j) ==> i == j
  }

  /** What an event must meet in the state it finds: a new job is idle or finds the others idle, and an
      update into running or failed does not apply, finds its job active already, or the others idle.
      Claims, swaps and everything else need nothing. */
  predicate Keeps(jobs: Jobs, e: Event) {
    match e
    case Create(id, job) => id in jobs || !ActiveState(job.state) || OthersIdle(jobs, id)
    case Update(id, c, _) => !Applies(jobs, id, c) || !ActiveState(c.state) || Active(jobs, id) || OthersIdle(jobs, id)
    case _ => true
  }

  lemma KeepsIsEnough(jobs: Jobs, e: Event)
    requires Singleton(jobs) && Keeps(jobs, e)
    ensures Singleton(Step(jobs, e))
  {
    forall i, j | Active(Step(jobs, e), i) && Active(Step(jobs, e), j)
      ensures i == j
    {
      assert i == e.id || Active(jobs, i);
      assert j == e.id || Active(jobs, j);
      assert Active(jobs, e.id) ==> Active(jobs, i) && Active(jobs, j);
    }
  }

  lemma KeepsIsNeeded(jobs: Jobs, e: Event)
    requires Singleton(Step(jobs, e))
    ensures Keeps(jobs, e)
  {
    var after := Step(jobs, e);
    if !Keeps(jobs, e) {
      var other :| other in jobs && other != e.id && ActiveState(jobs[other].state);
      assert Active(after, other) && Active(after, e.id);
    }
  }

  /** Every event of the run meets its condition in the state it finds. */
  predicate EachKeeps(jobs: Jobs, es: seq<Event>)
    decreases |es|
  {
    es == [] || (Keeps(jobs, es[0]) && EachKeeps(Step(jobs, es[0]), es[1..]))
  }

  /** At most one job is running or failed at every moment of a run iff every event meets its condition:
      in particular in all interleavings of claims, resumes, swaps, deletions, field writes, and updates
      that move an already active job, whether or not they insist on an expected state. */
  lemma {:induction false} SingletonThroughoutIff(jobs: Jobs, es: seq<Event>)
    requires Singleton(jobs)
    ensures (forall n :: 0 <= n <= |es| ==> Singleton(Run(jobs, es[..n]))) <==> EachKeeps(jobs, es)
    decreases |es|
  {
    if es != [] {
      var next := Step(jobs, es[0]);
      forall n | 0 <= n < |es| ensures Run(jobs, es[..n + 1]) == Run(next, es[1..][..n]) {
        assert es[..n + 1][1..] == es[1..][..n];
      }
      if Keeps(jobs, es[0]) {
        KeepsIsEnough(jobs, es[0]);
        SingletonThroughoutIff(next, es[1..]);
        forall n | 0 <= n <= |es| ensures Run(jobs, es[..n]) == if n == 0 then jobs else Run(next, es[1..][..n - 1]) {
        }
        if forall n :: 0 <= n <= |es| ==> Singleton(Run(jobs, es[..n])) {
          forall n | 0 <= n <= |es[1..]| ensures Singleton(Run(next, es[1..][..n])) {
            assert Singleton(Run(jobs, es[..n + 1]));
          }
        }
      } else {
        assert Run(jobs, es[..1]) == next;
        if Singleton(Run(jobs, es[..1])) {
          KeepsIsNeeded(jobs, es[0]);
        }
      }
    }
  }

  lemma RunKeepsSingleton(jobs: Jobs, es: seq<Event>)
    requires Singleton(jobs) && EachKeeps(jobs, es)
    ensures Singleton(Run(jobs, es))
  {
    SingletonThroughoutIff(jobs, es);
    assert es[..|es|] == es;
  }

  /** The facade's plain update of the active job from running to failed is such an event. */
  lemma PlainFailureKeeps(jobs: Jobs, id: JobId, phase: Option<string>, error: Option<Option<string>>, now: int)
    requires Singleton(jobs) && Active(jobs, id)
    ensures var e := Update(id, Change(Failed, phase, error, None, None), now);
            Keeps(jobs, e) && Singleton(Step(jobs, e)) && Active(Step(jobs, e), id)
  {
    KeepsIsEnough(jobs, Update(id, Change(Failed, phase, error, None, None), now));
  }

  /** An arbitrary state update keeps the singleton exactly when it does not apply, leaves the job idle,
      finds it active already, or finds no other job active. */
  lemma UpdateKeepsSingletonIff(jobs: Jobs, id: JobId, c: Change, now: int)
    requires Singleton(jobs)
    ensures Singleton(UpdateState(jobs, id, c, now).1)
            <==> !Applies(jobs, id, c) || !ActiveState(c.state) || Active(jobs, id) || OthersIdle(jobs, id)
  {
    var after := UpdateState(jobs, id, c, now).1;
    if Applies(jobs, id, c) && ActiveState(c.state) && !OthersIdle(jobs, id) {
      var other :| other in jobs && other != id && ActiveState(jobs[other].state);
      assert Active(after, other) && Active(after, id);
      assert Active(jobs, other);
    } else {
      forall i, j | Active(after, i) && Active(after, j)
        ensures i == j
      {
        assert i == id || Active(jobs, i);
        assert j == id || Active(jobs, j);
      }
    }
  }

  // ---------------------------------------------------------------- racing resumers

  /** How many of the events are resumes of `id` with snapshot `s` that win. */
  function Wins(jobs: Jobs, es: seq<Event>, id: JobId, s: Snapshot): nat
    decreases |es|
  {
    if es == [] then 0
    else
      var won := es[0].Resume? && es[0].id == id && es[0].expected == s && CanResume(jobs, id, s);
      (if won then 1 else 0) + Wins(Step(jobs, es[0]), es[1..], id, s)
  }

  /** No event writes the expiry the snapshot saw: resumes refresh it, and fields and new jobs avoid it. */
  predicate MovesOn(e: Event, id: JobId, s: Snapshot) {
    match e
    case Resume(i, _, refreshed, _) => i == id ==> Some(refreshed) != s.expiresAt
    case SetFields(i, _, _, _, _, _, Some(x)) => i == id ==> x != s.expiresAt
    case Create(i, job) => i == id ==> job.expiresAt != s.expiresAt
    case _ => true
  }

  predicate Stale(jobs: Jobs, id: JobId, s: Snapshot) {
    id in jobs ==> jobs[id].expiresAt != s.expiresAt
  }

  lemma StaleStaysStale(jobs: Jobs, e: Event, id: JobId, s: Snapshot)
    requires Stale(jobs, id, s) && MovesOn(e, id, s)
    ensures Stale(Step(jobs, e), id, s)
  {
  }

  lemma {:induction false} NoneWinsStale(jobs: Jobs, es: seq<Event>, id: JobId, s: Snapshot)
    requires Stale(jobs, id, s) && forall e :: e in es ==> MovesOn(e, id, s)
    ensures Wins(jobs, es, id, s) == 0
    decreases |es|
  {
    if es != [] {
      StaleStaysStale(jobs, es[0], id, s);
      NoneWinsStale(Step(jobs, es[0]), es[1..], id, s);
    }
  }

  /** Of any number of resumers holding the same snapshot, in any interleaving with every other
      operation, at most one wins. */
  lemma {:induction false} AtMostOneResumerWins(jobs: Jobs, es: seq<Event>, id: JobId, s: Snapshot)
    requires forall e :: e in es ==> MovesOn(e, id, s)
    ensures Wins(jobs, es, id, s) <= 1
    decreases |es|
  {
    if es != [] {
      var next := Step(jobs, es[0]);
      assert MovesOn(es[0], id, s);
      if es[0].Resume? && es[0].id == id && es[0].expected == s && CanResume(jobs, id, s) {
        NoneWinsStale(next, es[1..], id, s);
      } else {
        AtMostOneResumerWins(next, es[1..], id, s);
      }
    }
  }

  /** With nobody else about, exactly one wins if the job can be resumed, and none otherwise, whatever
      expiry they write. */
  lemma {:induction false} ExactlyOneWins(jobs: Jobs, es: seq<Event>, id: JobId, s: Snapshot)
    requires es != [] && forall e :: e in es ==> e.Resume? && e.id == id && e.expected == s
    ensures Wins(jobs, es, id, s) == if CanResume(jobs, id, s) then 1 else 0
    decreases |es|
  {
    assert es[0] in es;
    var next := Step(jobs, es[0]);
    if |es| > 1 {
      assert forall e :: e in es[1..] ==> e in es;
      ExactlyOneWins(next, es[1..], id, s);
    }
  }

  /** Of two swaps that expect the same identity and would change it, the second loses. */
  lemma SecondSwapLoses(jobs: Jobs, id: JobId, expected: Identity, a: Identity, b: Identity)
    requires a != expected && ReplaceIdentity(jobs, id, expected, a).0 == Some(true)
    ensures ReplaceIdentity(ReplaceIdentity(jobs, id, expected, a).1, id, expected, b).0 != Some(true)
  {
  }

  /** A claimed start excludes every other claim until the winner has left running and failed. */
  lemma StartExcludes(jobs: Jobs, id: JobId, other: JobId, now: int, s: Snapshot)
    requires ClaimStart(jobs, id, now).0 && other != id
    ensures var after := ClaimStart(jobs, id, now).1;
            !CanStart(after, other) && !CanResume(after, other, s) && !CanStart(after, id) && !CanResume(after, id, s)
  {
    assert ActiveState(ClaimStart(jobs, id, now).1[id].state);
  }

  // ---------------------------------------------------------------- the repository

  class OnboardingJobRepository {
    var jobs: Jobs

    method ClaimStartOf(id: JobId, now: int) returns (won: bool)
      modifies this
      ensures (won, jobs) == ClaimStart(old(jobs), id, now)
    {
      won := id in jobs && jobs[id].state == Pending && OthersIdle(jobs, id);
      if won {
        jobs := jobs[id := Claimed(jobs[id], now)];
      }
    }

    method ClaimFailedResume(id: JobId, expected: Snapshot, refreshed: int, now: int) returns (won: bool)
      modifies this
      ensures (won, jobs) == ClaimResume(old(jobs), id, expected, refreshed, now)
    {
      if !Resumable(expected.phase) {
        return false;
      }
      won := id in jobs && Matches(jobs[id], expected) && OthersIdle(jobs, id);
      if won {
        jobs := jobs[id := Claimed(jobs[id], now).(pid := None, ticks := None, expiresAt := Some(refreshed))];
      }
    }

    method ReplaceBrowserIdentity(id: JobId, expected: Identity, next: Identity) returns (won: Option<bool>)
      modifies this
      ensures (won, jobs) == ReplaceIdentity(old(jobs), id, expected, next)
    {
      if next.pid.None? && next.ticks.Some? {
        return None;
      }
      if id in jobs && ActiveState(jobs[id].state) && jobs[id].pid == expected.pid && jobs[id].ticks == expected.ticks {
        jobs := jobs[id := jobs[id].(pid := next.pid, ticks := next.ticks)];
        return Some(true);
      }
      return Some(false);
    }

    method UpdateStateOf(id: JobId, c: Change, now: int) returns (done: Option<bool>)
      modifies this
      ensures (done, jobs) == UpdateState(old(jobs), id, c, now)
    {
      if Applies(jobs, id, c) {
        jobs := jobs[id := Changed(jobs[id], c, now)];
        return Some(true);
      }
      if c.expectedState.Some? || c.expectedPhase.Some? {
        return Some(false);
      }
      return None;
    }
  }
}
