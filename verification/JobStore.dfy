/** The job table as an object (jobs/store.py, jobs/votes.py and the scope skip of admin/store.py).

    One method is one transaction.  Its contract ties the new table to the row specification of JobRows,
    the same specification the protocol interleaves, and says what the transaction guarantees: exactly
    when it commits, what it leaves alone, and what holds afterwards.  The database clock and fresh keys
    are parameters. */
module JobStore {
  import opened Wrappers
  import opened StateMachine
  import opened JobRows

  /** The table after a transaction on one row: written on success, rolled back otherwise. */
  function Written(jobs: Jobs, id: JobId, r: RowResult): Jobs {
    if r.Ok? then jobs[id := r.value] else jobs
  }

  predicate LiveLeaseFor(job: Job, worker: WorkerId, seconds: nat, now: Time) {
    OwnedBy(job, worker) && job.lease.value.expires == now + seconds
  }

  /** A refused transaction leaves the table as it was, and a committed one writes row `id` alone. */
  ghost predicate WritesRow(jobs: Jobs, jobs': Jobs, id: JobId, r: RowResult) {
    if r.Err? then jobs' == jobs
    else id in jobs && jobs'.Keys == jobs.Keys && jobs'[id] == r.value && forall k :: k in jobs && k != id ==> jobs'[k] == jobs[k]
  }

  /** Stored results, payloads, bound accounts and attempts survive. */
  predicate KeepsDurable(row: Job, row': Job) {
    && row'.identity == row.identity && row'.patchset == row.patchset && row'.createdAt == row.createdAt
    && (row.result.Some? ==> row'.result == row.result)
    && (row.publication.Some? ==>
          row'.publication.Some? && row'.publication.value.payload == row.publication.value.payload)
    && (row.vote.Some? ==> row'.vote == row.vote)
    && row'.attempts == row.attempts
  }

  predicate HeldBy(jobs: Jobs, id: JobId, worker: WorkerId, now: Time) {
    id in jobs && LiveLease(jobs[id], worker, now)
  }

  ghost function OnRow(jobs: Jobs, id: JobId, f: Job -> RowResult): RowResult {
    if id in jobs then f(jobs[id]) else Err(NotFound)
  }

  /** A higher Patch Set of the change is stored. */
  ghost predicate Overtaken(jobs: Jobs, change: Change, patchset: nat) {
    exists k :: k in jobs && jobs[k].identity.change == change && jobs[k].patchset > patchset
  }

  /** A POST of the job may be outstanding. */
  predicate Unresolved(row: Job) {
    row.state.Publishing? || (row.state.RetryWait? && row.retryState == Some(Publishing))
  }

  /** The project starts from now, and the event is from before that. */
  predicate Predates(event: Event, projects: map<string, Scope>) {
    event.change.project in projects
    && match (projects[event.change.project], event.occurredAt)
       case (Scope(_, FromNow, startAt), Some(occurredAt)) => occurredAt < startAt
       case _ => false
  }

  /** What becomes of the row that `enqueue` found or created: a new one, or one that INCLUDE_OPEN takes back, is
      received unless it is overtaken; any other is superseded if it is overtaken, unfinished and resolved. */
  ghost predicate Arrives(jobs: Jobs, projects: map<string, Scope>, event: Event, policyVersion: string, now: Time,
                          was: Option<Job>, row: Job)
  {
    match was
    case None =>
      var overtaken := Overtaken(jobs, event.change, event.patchset);
      && row.identity == Identity(event.change, event.revision, policyVersion) && row.patchset == event.patchset
      && row.state == (if Predates(event, projects) then SkippedScope else if overtaken then Superseded else Received)
      && row.createdAt == row.nextAttemptAt == now && row.retryState.None? && row.lease.None?
      && row.attempts == [] && row.epochStart == 0
      && row.result.None? && row.publication.None? && row.vote.None?
    case Some(job) =>
      var overtaken := Overtaken(jobs, job.identity.change, job.patchset);
      if Returns(projects, job) then
        row == job.(state := if overtaken then Superseded else Received, retryState := None, nextAttemptAt := now,
                    lease := if overtaken then None else job.lease)
      else if overtaken && !IsTerminal(job.state) && !Unresolved(job) then
        row == job.(state := Superseded, lease := None)
      else row == job
  }

  /** A skipped row of an enabled project that includes its open changes. */
  predicate Returns(projects: map<string, Scope>, job: Job) {
    job.state.SkippedScope? && job.identity.change.project in projects
    && projects[job.identity.change.project].enabled && projects[job.identity.change.project].mode == IncludeOpen
  }

  /** Whether the row supersedes its elders: it is in scope, and not itself overtaken on its way. */
  ghost predicate Orders(jobs: Jobs, projects: map<string, Scope>, was: Option<Job>, row: Job) {
    && !row.state.SkippedScope?
    && (Overtaken(jobs, row.identity.change, row.patchset) ==>
          was.Some? && IsTerminal(was.value.state) && !Returns(projects, was.value))
  }

  /** An elder of `row` is superseded if it is unfinished and resolved; every other row stays. */
  predicate Yields(elder: Job, row: Job) {
    && elder.identity.change == row.identity.change && elder.patchset < row.patchset
    && !IsTerminal(elder.state) && !Unresolved(elder)
  }

  /** The meaning of `enqueue`, row by row. */
  lemma EnqueueMeans(jobs: Jobs, projects: map<string, Scope>, event: Event, policyVersion: string, id: JobId, now: Time)
    requires id in jobs ==> jobs[id].identity == Identity(event.change, event.revision, policyVersion)
    ensures var jobs' := EnqueueAt(jobs, projects, event, policyVersion, id, now);
            var was := if id in jobs then Some(jobs[id]) else None;
            && jobs'.Keys == jobs.Keys + {id}
            && Arrives(jobs, projects, event, policyVersion, now, was, jobs'[id])
            && forall k :: k in jobs && k != id ==>
                 jobs'[k] == if Orders(jobs, projects, was, jobs'[id]) && Yields(jobs[k], jobs'[id])
                             then jobs[k].(state := Superseded, lease := None, retryState := None) else jobs[k]
  {
    hide HasNewer, PredatesScope, Predates, Overtaken, NewJob;
    var row := Upserted(jobs, projects, event, policyVersion, id, now);
    NewerIsOvertaken(jobs, id, row);
    BornRow(event, policyVersion, projects, now);
    if id !in jobs { assert row == NewJob(event, policyVersion, PredatesScope(event, projects), now); }
  }

  lemma NewerIsOvertaken(jobs: Jobs, id: JobId, row: Job)
    requires id in jobs ==> jobs[id].identity == row.identity && jobs[id].patchset == row.patchset
    ensures HasNewer(jobs[id := row], row) <==> Overtaken(jobs, row.identity.change, row.patchset)
  {
    var after := jobs[id := row];
    if HasNewer(after, row) {
      var k :| k in after && Elder(row, after[k]);
      assert k != id && k in jobs;
    }
    if Overtaken(jobs, row.identity.change, row.patchset) {
      var k :| k in jobs && jobs[k].identity.change == row.identity.change && jobs[k].patchset > row.patchset;
      assert k != id && Elder(row, after[k]);
    }
  }

  lemma BornRow(event: Event, policyVersion: string, projects: map<string, Scope>, now: Time)
    ensures var row := NewJob(event, policyVersion, PredatesScope(event, projects), now);
            && row.state == (if Predates(event, projects) then SkippedScope else Received)
            && row.identity == Identity(event.change, event.revision, policyVersion) && row.patchset == event.patchset
            && row.createdAt == row.nextAttemptAt == now && row.retryState.None? && row.lease.None?
            && row.attempts == [] && row.epochStart == 0
            && row.result.None? && row.publication.None? && row.vote.None?
  {
  }

  /** The meaning of the scope skip, row by row. */
  lemma SkipMeans(jobs: Jobs, project: string, cutoff: Time, now: Time)
    ensures var jobs' := SkipPreCutoff(jobs, project, cutoff, now);
            && jobs'.Keys == jobs.Keys
            && (forall k :: k in jobs' ==> jobs'[k].identity == jobs[k].identity)
            && (forall k :: k in jobs' && jobs'[k].identity.change.project == project && jobs'[k].createdAt < cutoff ==>
                  IsTerminal(jobs'[k].state) || jobs'[k].publication.Some? || !LeaseFree(jobs'[k], now))
            && forall k :: k in jobs' && jobs'[k] != jobs[k] ==>
                 && jobs'[k].state.SkippedScope? && KeepsDurable(jobs[k], jobs'[k])
                 && jobs'[k].identity.change.project == project && jobs'[k].createdAt < cutoff
                 && !IsTerminal(jobs[k].state) && jobs[k].publication.None?
                 && forall worker :: !HeldBy(jobs, k, worker, now)
  {
  }

  /** A worker may take the row: it is unfinished, nobody holds it, its retry is due, its project is enabled when
      projects are managed at all, and no POST of a lower Patch Set is unresolved. */
  ghost predicate Free(jobs: Jobs, projects: map<string, Scope>, id: JobId, now: Time) {
    && id in jobs
    && var job := jobs[id];
    && !job.state.FailedPermanent? && !job.state.Superseded? && !job.state.SkippedScope? && !job.state.Done?
    && (job.lease.Some? ==> job.lease.value.expires <= now)
    && (job.state.RetryWait? ==> now >= job.nextAttemptAt)
    && (projects == map[] || exists p :: p in projects && p == job.identity.change.project && projects[p].enabled)
    && !exists k :: k in jobs && jobs[k].identity.change == job.identity.change && jobs[k].patchset < job.patchset
                    && Unresolved(jobs[k])
  }

  lemma FreeIsClaimable(jobs: Jobs, projects: map<string, Scope>, now: Time)
    ensures forall id :: Free(jobs, projects, id, now) <==> Claimable(jobs, projects, id, now)
    ensures forall id :: Claimable(jobs, projects, id, now) ==> id in jobs
  {
    forall id ensures Free(jobs, projects, id, now) <==> Claimable(jobs, projects, id, now) {
      if id in jobs {
        assert forall k :: k in jobs ==>
          (Elder(jobs[k], jobs[id]) <==>
             jobs[k].identity.change == jobs[id].identity.change && jobs[k].patchset < jobs[id].patchset);
        assert forall k :: k in jobs ==> (NeedsPublishRecovery(jobs[k]) <==> Unresolved(jobs[k]));
      }
    }
  }

  class Store {
    var jobs: Jobs
    var projects: map<string, Scope>

    constructor (projects: map<string, Scope>)
      ensures Valid() && jobs == map[] && this.projects == projects
    {
      this.jobs := map[];
      this.projects := projects;
    }

    /** The unique constraint over change, revision and policy version. */
    ghost predicate Valid()
      reads this
    {
      forall i, j :: i in jobs && j in jobs && jobs[i].identity == jobs[j].identity ==> i == j
    }

    method Enqueue(event: Event, policyVersion: string, freshId: JobId, now: Time) returns (id: JobId, created: bool)
      requires Valid() && freshId !in jobs
      modifies this`jobs
      ensures Valid()
      ensures created <==> forall k :: k in old(jobs) ==>
                old(jobs)[k].identity != Identity(event.change, event.revision, policyVersion)
      ensures if created then id == freshId
              else id in old(jobs) && old(jobs)[id].identity == Identity(event.change, event.revision, policyVersion)
      ensures jobs == EnqueueAt(old(jobs), projects, event, policyVersion, id, now)
      ensures var was := if created then None else Some(old(jobs)[id]);
              && jobs.Keys == old(jobs).Keys + {id}
              && Arrives(old(jobs), projects, event, policyVersion, now, was, jobs[id])
              && forall k :: k in old(jobs) && k != id ==>
                   jobs[k] == if Orders(old(jobs), projects, was, jobs[id]) && Yields(old(jobs)[k], jobs[id])
                              then old(jobs)[k].(state := Superseded, lease := None, retryState := None)
                              else old(jobs)[k]
    {
      hide Arrives, Orders, Yields;
      var identity := Identity(event.change, event.revision, policyVersion);
      if existing :| existing in jobs && jobs[existing].identity == identity {
        id, created := existing, false;
        var job := jobs[id];
        if Revives(job, projects) {
          job := job.(state := Received, retryState := None, nextAttemptAt := now);
        }
        jobs := jobs[id := job];
      } else {
        id, created := freshId, true;
        jobs := jobs[id := NewJob(event, policyVersion, PredatesScope(event, projects), now)];
      }
      OrderPatchSets(id);
      EnqueueMeans(old(jobs), projects, event, policyVersion, id, now);
    }

    method OrderPatchSets(id: JobId)
      requires Valid() && id in jobs
      modifies this`jobs
      ensures Valid()
      ensures jobs == ApplyPatchSetOrdering(old(jobs), id)
    {
      var job := jobs[id];
      if job.state.SkippedScope? { return; }
      if HasNewer(jobs, job) && !IsTerminal(job.state) {
        if NeedsPublishRecovery(job) { return; }
        jobs := jobs[id := job.(state := Superseded, lease := None)];
        return;
      }
      jobs := map k | k in jobs ::
        if Elder(jobs[k], job) && !IsTerminal(jobs[k].state) && !NeedsPublishRecovery(jobs[k])
        then jobs[k].(state := Superseded, lease := None, retryState := None)
        else jobs[k];
    }

    /** Some claimable row is leased, or there is none; a row nobody could resume fails instead. */
    method ClaimNext(worker: WorkerId, leaseSeconds: nat, now: Time) returns (id: Option<JobId>)
      modifies this`jobs
      ensures id.Some? ==>
        && Claimable(old(jobs), projects, id.value, now)
        && var r := ClaimRow(old(jobs)[id.value], worker, leaseSeconds, now);
        && r.Ok? && jobs == old(jobs)[id.value := r.value] && LiveLeaseFor(jobs[id.value], worker, leaseSeconds, now)
      ensures id.None? ==>
        || (jobs == old(jobs) && forall k :: !Claimable(jobs, projects, k, now))
        || exists k :: Claimable(old(jobs), projects, k, now)
                       && old(jobs)[k].state.RetryWait? && old(jobs)[k].retryState.None?
                       && jobs == old(jobs)[k := InvalidPersistedStateRow(old(jobs)[k])]
      ensures id.Some? ==> Free(old(jobs), projects, id.value, now)
      ensures id.Some? ==> var was, row := old(jobs)[id.value], jobs[id.value];
                           && (was.state.RetryWait? ==> was.retryState.Some?)
                           && row == was.(state := if was.state.RetryWait? then was.retryState.value else was.state,
                                          retryState := if was.state.RetryWait? then None else was.retryState,
                                          lease := Some(Lease(worker, now + leaseSeconds)))
      // nothing is left over: otherwise no row is free, or one that nobody could resume has failed
      ensures id.None? ==>
        || (jobs == old(jobs) && forall k :: !Free(jobs, projects, k, now))
        || exists k :: Free(old(jobs), projects, k, now)
                       && old(jobs)[k].state.RetryWait? && old(jobs)[k].retryState.None?
                       && jobs == old(jobs)[k := old(jobs)[k].(state := FailedPermanent)]
    {
      FreeIsClaimable(jobs, projects, now);
      hide Claimable, Free;
      if claimed :| claimed in jobs && Claimable(jobs, projects, claimed, now) {
        var job := jobs[claimed];
        if job.state.RetryWait? {
          if job.retryState.None? {
            jobs := jobs[claimed := job.(state := FailedPermanent)];
            assert Claimable(old(jobs), projects, claimed, now) && Free(old(jobs), projects, claimed, now);
            assert jobs == old(jobs)[claimed := InvalidPersistedStateRow(old(jobs)[claimed])];
            return None;
          }
          job := job.(state := job.retryState.value, retryState := None);
        }
        job := job.(lease := Some(Lease(worker, now + leaseSeconds)));
        jobs := jobs[claimed := job];
        return Some(claimed);
      }
      return None;
    }

    method Heartbeat(id: JobId, worker: WorkerId, leaseSeconds: nat, now: Time) returns (alive: bool)
      modifies this`jobs
      ensures var r := OnRow(old(jobs), id, job => HeartbeatRow(job, worker, leaseSeconds, now));
              alive == r.Ok? && jobs == Written(old(jobs), id, r)
      // never a lost lease, and never a finished job
      ensures alive <==> HeldBy(old(jobs), id, worker, now) && !IsTerminal(old(jobs)[id].state)
      // from then on the lease is live for exactly that long, and nothing else has changed
      ensures alive ==> forall at :: HeldBy(jobs, id, worker, at) <==> at < now + leaseSeconds
      ensures alive ==> jobs == old(jobs)[id := old(jobs)[id].(lease := jobs[id].lease)]
      ensures !alive ==> jobs == old(jobs)
    {
      alive := id in jobs && LiveLease(jobs[id], worker, now) && !IsTerminal(jobs[id].state);
      if alive {
        jobs := jobs[id := jobs[id].(lease := Some(Lease(worker, now + leaseSeconds)))];
      }
    }

    method RefreshPublishGuard(id: JobId, worker: WorkerId, leaseSeconds: nat, now: Time) returns (status: GuardStatus)
      modifies this`jobs
      ensures id !in old(jobs) ==> status.GuardLeaseLost? && jobs == old(jobs)
      ensures id in old(jobs) ==>
        var (s, row) := RefreshGuardRow(old(jobs)[id], HasNewer(old(jobs), old(jobs)[id]), worker, leaseSeconds, now);
        status == s && jobs == old(jobs)[id := row]
      // OK means that the worker holds the publishing job, which nothing has overtaken, for the lease time from now
      ensures status.GuardOk? <==>
        HeldBy(old(jobs), id, worker, now) && old(jobs)[id].state.Publishing?
        && !Overtaken(old(jobs), old(jobs)[id].identity.change, old(jobs)[id].patchset)
      ensures status.GuardSuperseded? <==>
        HeldBy(old(jobs), id, worker, now) && old(jobs)[id].state.Publishing?
        && Overtaken(old(jobs), old(jobs)[id].identity.change, old(jobs)[id].patchset)
      ensures jobs == if status.GuardOk? then old(jobs)[id := old(jobs)[id].(lease := Some(Lease(worker, now + leaseSeconds)))]
                      else old(jobs)
    {
      if id in jobs { NewerIsOvertaken(jobs, id, jobs[id]); assert jobs[id := jobs[id]] == jobs; }
      if id !in jobs { return GuardLeaseLost; }
      var job := jobs[id];
      if !job.state.Publishing? || job.lease.None? || job.lease.value.owner != worker
         || job.lease.value.expires <= now
      {
        return GuardLeaseLost;
      }
      if HasNewer(jobs, job) { return GuardSuperseded; }
      jobs := jobs[id := job.(lease := Some(Lease(worker, now + leaseSeconds)))];
      return GuardOk;
    }

    method Transition(id: JobId, target: JobState, worker: WorkerId, release: bool, now: Time) returns (r: RowResult)
      modifies this`jobs
      ensures r == OnRow(old(jobs), id, job => TransitionRow(job, target, worker, release, now))
      ensures WritesRow(old(jobs), jobs, id, r)
      // the fence is checked before the table
      ensures r.Ok? <==> HeldBy(old(jobs), id, worker, now) && CheckTransition(old(jobs)[id].state, target).Allowed?
      ensures id in old(jobs) ==> (r == Err(LeaseNotHeld) <==> !HeldBy(old(jobs), id, worker, now))
      ensures r.Ok? ==> r.value.state == target && KeepsDurable(old(jobs)[id], r.value)
      // terminal states are final, and a job in one is nobody's
      ensures r.Ok? && IsTerminal(old(jobs)[id].state) ==> target == old(jobs)[id].state
      ensures r.Ok? ==> (HeldBy(jobs, id, worker, now) <==> !release && !IsTerminal(target))
      ensures r.Ok? && IsTerminal(target) ==> forall other, at :: !HeldBy(jobs, id, other, at)
    {
      if id !in jobs { return Err(NotFound); }
      var job := jobs[id];
      if !LiveLease(job, worker, now) { return Err(LeaseNotHeld); }
      var check := CheckTransition(job.state, target);
      if check.MissingRow? { return Err(TransitionRowMissing); }
      if check.Refused? { return Err(InvalidTransition); }
      job := job.(state := target, retryState := None);
      if release || IsTerminal(target) { job := job.(lease := None); }
      jobs := jobs[id := job];
      return Ok(job);
    }

    method ScheduleRetry(id: JobId, resume: JobState, retryAt: Time, worker: WorkerId, now: Time) returns (r: RowResult)
      modifies this`jobs
      ensures ValidRetryTarget(resume) ==>
        r == OnRow(old(jobs), id, job => ScheduleRetryRow(job, resume, retryAt, worker, now))
      ensures !ValidRetryTarget(resume) ==> r == Err(InvalidRetryTarget)
      ensures jobs == Written(old(jobs), id, r)
      // the holder parks an unfinished job; nobody can claim it before `retryAt`, and then it goes on at `resume`
      ensures r.Ok? <==>
        && ValidRetryTarget(resume) && HeldBy(old(jobs), id, worker, now) && !IsTerminal(old(jobs)[id].state)
      ensures r.Ok? ==>
        r.value == old(jobs)[id].(state := RetryWait, retryState := Some(resume), nextAttemptAt := retryAt, lease := None)
    {
      if !ValidRetryTarget(resume) { return Err(InvalidRetryTarget); }
      if id !in jobs { return Err(NotFound); }
      var job := jobs[id];
      if !LiveLease(job, worker, now) { return Err(LeaseNotHeld); }
      var check := CheckTransition(job.state, RetryWait);
      if check.MissingRow? { return Err(TransitionRowMissing); }
      if check.Refused? { return Err(InvalidTransition); }
      job := job.(state := RetryWait, retryState := Some(resume), nextAttemptAt := retryAt, lease := None);
      jobs := jobs[id := job];
      return Ok(job);
    }

    method MarkFailedPermanent(id: JobId, worker: WorkerId, now: Time) returns (r: RowResult)
      modifies this`jobs
      ensures r == OnRow(old(jobs), id, job => MarkFailedPermanentRow(job, worker, now))
      ensures WritesRow(old(jobs), jobs, id, r)
      // the owner can fail its job in every state that is not final
      ensures r.Ok? <==> HeldBy(old(jobs), id, worker, now)
                         && (!IsTerminal(old(jobs)[id].state) || old(jobs)[id].state.FailedPermanent?)
      ensures r.Ok? ==> r.value.state.FailedPermanent? && KeepsDurable(old(jobs)[id], r.value)
      ensures r.Ok? ==> forall other, at :: !HeldBy(jobs, id, other, at)
    {
      if id !in jobs { return Err(NotFound); }
      var job := jobs[id];
      if !LiveLease(job, worker, now) { return Err(LeaseNotHeld); }
      var check := CheckTransition(job.state, FailedPermanent);
      if check.MissingRow? { return Err(TransitionRowMissing); }
      if check.Refused? { return Err(InvalidTransition); }
      job := job.(state := FailedPermanent, retryState := None, lease := None);
      jobs := jobs[id := job];
      return Ok(job);
    }

    method MarkSuperseded(id: JobId, worker: WorkerId, now: Time) returns (r: RowResult)
      modifies this`jobs
      ensures r == OnRow(old(jobs), id, job => MarkSupersededRow(job, worker, now))
      ensures WritesRow(old(jobs), jobs, id, r)
      // idempotent without any lease, and fenced otherwise
      ensures r.Ok? <==> id in old(jobs)
                         && (old(jobs)[id].state.Superseded?
                             || (HeldBy(old(jobs), id, worker, now) && !IsTerminal(old(jobs)[id].state)))
      ensures r.Ok? ==> r.value.state.Superseded? && KeepsDurable(old(jobs)[id], r.value)
      ensures r.Ok? && old(jobs)[id].state.Superseded? ==> jobs == old(jobs)
      ensures r.Ok? && !old(jobs)[id].state.Superseded? ==> forall other, at :: !HeldBy(jobs, id, other, at)
    {
      if id !in jobs { return Err(NotFound); }
      var job := jobs[id];
      if job.state.Superseded? { return Ok(job); }
      if !LiveLease(job, worker, now) { return Err(LeaseNotHeld); }
      var check := CheckTransition(job.state, Superseded);
      if check.MissingRow? { return Err(TransitionRowMissing); }
      if check.Refused? { return Err(InvalidTransition); }
      job := job.(state := Superseded, retryState := None, lease := None);
      jobs := jobs[id := job];
      return Ok(job);
    }

    method RequeueFailed(id: JobId, now: Time) returns (r: RowResult)
      modifies this`jobs
      ensures r == OnRow(old(jobs), id, job => RequeueRow(job, HasNewer(old(jobs), job), now))
      ensures WritesRow(old(jobs), jobs, id, r)
      ensures r.Ok? <==> id in old(jobs) && old(jobs)[id].state.FailedPermanent? && !HasNewer(old(jobs), old(jobs)[id])
      ensures r.Ok? ==> KeepsDurable(old(jobs)[id], r.value) && r.value.result == old(jobs)[id].result
      // a posted review is not posted again, a prepared one is not built again, a finished one is not repeated
      ensures r.Ok? ==> var before := old(jobs)[id];
                        && (r.value.state.Done? <==> before.publication.Some? && before.publication.value.status.Posted?)
                        && (r.value.state.Publishing? <==> before.publication.Some? && !before.publication.value.status.Posted?)
                        && (r.value.state.ReadyToPublish? <==> before.publication.None? && before.result.Some?)
                        && (r.value.state.Received? <==> before.publication.None? && before.result.None?)
                        && (r.value.publication.Some? ==>
                              r.value.publication.value.status == before.publication.value.status
                              || (before.publication.value.status.PublicationFailed?
                                  && r.value.publication.value.status.Pending?))
                        && (before.publication.None? ==> r.value.publication.None?)
                        && (r.value.publication.Some? ==> !r.value.publication.value.status.PublicationFailed?)
      // all budgets start afresh, and the job is free
      ensures r.Ok? ==> (forall stage :: ConsumedAttempts(r.value, stage) == {}) && EpochReviews(r.value) == []
      ensures r.Ok? ==> forall at :: LeaseFree(r.value, at)
    {
      if id !in jobs { return Err(NotFound); }
      var job := jobs[id];
      if !job.state.FailedPermanent? || HasNewer(jobs, job) { return Err(NotRequeueable); }
      if job.publication.Some? && job.publication.value.status.Posted? {
        job := job.(state := Done);
      } else if job.publication.Some? {
        if job.publication.value.status.PublicationFailed? {
          job := job.(publication := Some(job.publication.value.(status := Pending)));
        }
        job := job.(state := Publishing);
      } else if job.result.Some? {
        job := job.(state := ReadyToPublish);
      } else {
        job := job.(state := Received);
      }
      job := job.(epochStart := |job.attempts|, retryState := None, nextAttemptAt := now, lease := None);
      jobs := jobs[id := job];
      return Ok(job);
    }

    method StartAttempt(id: JobId, stage: Stage, worker: WorkerId, now: Time) returns (r: RowResult)
      modifies this`jobs
      ensures r.Ok? <==> id in old(jobs) && LiveLease(old(jobs)[id], worker, now)
      ensures r.Ok? ==> r == StartAttemptRow(old(jobs)[id], stage, worker, now)
      ensures jobs == Written(old(jobs), id, r)
      ensures r.Ok? ==> r.value == old(jobs)[id].(attempts := r.value.attempts)
                        && r.value.attempts == old(jobs)[id].attempts + [Attempt(stage, worker, Unfinished)]
    {
      if id !in jobs || !LiveLease(jobs[id], worker, now) { return Err(LeaseNotHeld); }
      var job := jobs[id];
      job := job.(attempts := job.attempts + [Attempt(stage, worker, Unfinished)]);
      jobs := jobs[id := job];
      return Ok(job);
    }

    method FinishAttempt(id: JobId, attempt: nat, outcome: Outcome) returns (r: RowResult)
      modifies this`jobs
      ensures r == OnRow(old(jobs), id, job => FinishAttemptRow(job, attempt, outcome))
      ensures WritesRow(old(jobs), jobs, id, r)
      // once, by anyone, with or without the lease
      ensures r.Ok? <==> id in old(jobs) && attempt < |old(jobs)[id].attempts|
                         && old(jobs)[id].attempts[attempt].outcome.Unfinished?
      ensures r.Ok? ==> var before := old(jobs)[id];
                        && r.value == before.(attempts := r.value.attempts) && |r.value.attempts| == |before.attempts|
                        && r.value.attempts[attempt].outcome == outcome
                        && forall k :: 0 <= k < |before.attempts| && k != attempt ==>
                             r.value.attempts[k] == before.attempts[k]
      // an unfinished attempt was charged; it stays charged unless it succeeded or the provider was down
      ensures r.Ok? ==>
        forall stage :: ConsumedAttempts(r.value, stage)
                        == ConsumedAttempts(old(jobs)[id], stage) - (if Charged(outcome) then {} else {attempt})
    {
      if id !in jobs || attempt >= |jobs[id].attempts| { return Err(NotFound); }
      var job := jobs[id];
      if !job.attempts[attempt].outcome.Unfinished? { return Err(AlreadyFinished); }
      var finished := job.attempts[attempt].(outcome := outcome);
      job := job.(attempts := job.attempts[attempt := finished]);
      jobs := jobs[id := job];
      return Ok(job);
    }

    method SaveReviewResultAndMarkReady(id: JobId, review: string, worker: WorkerId, now: Time) returns (r: RowResult)
      modifies this`jobs
      ensures r == OnRow(old(jobs), id, job => SaveReviewResultRow(job, review, worker, now))
      ensures WritesRow(old(jobs), jobs, id, r)
      // a repeated call is harmless; only a validated review, or one that was ready before, becomes ready
      ensures r.Ok? <==> HeldBy(old(jobs), id, worker, now)
                         && var state := old(jobs)[id].state;
                            || (state.ReadyToPublish? && old(jobs)[id].result.Some?)
                            || state.Validating? || state.Publishing? || state.RetryWait? || state.FailedTransient?
      // the first result wins
      ensures r.Ok? ==> r.value.state.ReadyToPublish? && KeepsDurable(old(jobs)[id], r.value)
      ensures r.Ok? ==> r.value.result == if old(jobs)[id].result.Some? then old(jobs)[id].result else Some(review)
      ensures r.Ok? && !old(jobs)[id].state.ReadyToPublish? ==> forall other, at :: !HeldBy(jobs, id, other, at)
    {
      if id !in jobs { return Err(NotFound); }
      var job := jobs[id];
      if !LiveLease(job, worker, now) { return Err(LeaseNotHeld); }
      if job.state.ReadyToPublish? {
        if job.result.None? { return Err(ResultMissing); }
        return Ok(job);
      }
      var check := CheckTransition(job.state, ReadyToPublish);
      if check.MissingRow? { return Err(TransitionRowMissing); }
      if check.Refused? { return Err(InvalidTransition); }
      if job.result.None? { job := job.(result := Some(review)); }
      job := job.(state := ReadyToPublish, retryState := None, lease := None);
      jobs := jobs[id := job];
      return Ok(job);
    }

    method BeginPublication(id: JobId, payload: string, worker: WorkerId, now: Time) returns (r: RowResult)
      modifies this`jobs
      ensures r == OnRow(old(jobs), id, job => BeginPublicationRow(job, payload, worker, now))
      ensures WritesRow(old(jobs), jobs, id, r)
      // one payload for ever: any call that commits has this payload stored, and no other one can follow
      ensures r.Ok? <==> HeldBy(old(jobs), id, worker, now) && old(jobs)[id].state.Publishing?
                         && (old(jobs)[id].publication.Some? ==> old(jobs)[id].publication.value.payload == payload)
      ensures r.Ok? ==> r.value.publication.Some? && r.value.publication.value.payload == payload
      ensures r.Ok? ==> r.value == old(jobs)[id].(publication := r.value.publication)
      ensures r.Ok? && old(jobs)[id].publication.Some? ==> jobs == old(jobs)
      // a new row says that no POST was started yet
      ensures r.Ok? && old(jobs)[id].publication.None? ==> r.value.publication.value.status.Pending?
    {
      if id !in jobs { return Err(NotFound); }
      var job := jobs[id];
      if !LiveLease(job, worker, now) { return Err(LeaseNotHeld); }
      if !job.state.Publishing? { return Err(WrongState); }
      if job.publication.None? {
        job := job.(publication := Some(Publication(Pending, payload)));
        jobs := jobs[id := job];
      } else if job.publication.value.payload != payload {
        return Err(PayloadChanged);
      }
      return Ok(job);
    }

    method CompletePublicationAndMarkDone(id: JobId, worker: WorkerId, deferDone: bool, now: Time) returns (r: RowResult)
      modifies this`jobs
      ensures r == OnRow(old(jobs), id, job => CompletePublicationRow(job, worker, deferDone, now))
      ensures WritesRow(old(jobs), jobs, id, r)
      // what Gerrit has seen wins over a supersession, but not over another owner
      ensures r.Ok? ==> r.value.publication.Some? && r.value.publication.value.status.Posted?
                        && KeepsDurable(old(jobs)[id], r.value) && r.value.result == old(jobs)[id].result
      ensures r.Ok? ==> var before := old(jobs)[id];
                        && (before.state.Publishing? || before.state.Superseded? || before.state.Done?)
                        && (before.state.Publishing? && before.lease.Some? ==> OwnedBy(before, worker))
      // done at once, or still in hand for the vote
      ensures r.Ok? && !deferDone ==> r.value.state.Done?
      ensures r.Ok? && deferDone && !old(jobs)[id].state.Done? ==>
                r.value.state.Publishing? && HeldBy(old(jobs), id, worker, now) && HeldBy(jobs, id, worker, now)
      ensures r.Ok? && !deferDone && !old(jobs)[id].state.Done? ==> forall other, at :: !HeldBy(jobs, id, other, at)
      // idempotent
      ensures id in old(jobs) && old(jobs)[id].state.Done? && r.Ok? ==> jobs == old(jobs)
    {
      if id !in jobs || jobs[id].publication.None? { return Err(NotFound); }
      var job := jobs[id];
      if job.state.Done? && job.publication.value.status.Posted? { return Ok(job); }
      if !job.state.Publishing? && !job.state.Superseded? { return Err(WrongState); }
      if job.state.Publishing? && job.lease.Some? && job.lease.value.owner != worker { return Err(LeaseNotHeld); }
      var posted := job.publication.value.(status := Posted);
      if deferDone {
        if !LiveLease(job, worker, now) { return Err(LeaseNotHeld); }
        if !job.state.Publishing? { return Err(WrongState); }
      }
      job := job.(publication := Some(posted), retryState := None);
      if !deferDone { job := job.(state := Done, lease := None); }
      jobs := jobs[id := job];
      return Ok(job);
    }

    /** `mark_publication_ambiguous` and `mark_publication_failed`. */
    method MarkPublication(id: JobId, status: PublicationStatus) returns (r: RowResult)
      modifies this`jobs
      ensures r == OnRow(old(jobs), id, job => MarkPublicationRow(job, status))
      ensures WritesRow(old(jobs), jobs, id, r)
      // anyone may do it, to any job; the payload, the state and the lease are not touched
      ensures r.Ok? <==> id in old(jobs) && old(jobs)[id].publication.Some?
      ensures r.Ok? ==> var before := old(jobs)[id];
                        && r.value.publication.Some? && r.value.publication.value.status == status
                        && r.value.publication.value.payload == before.publication.value.payload
                        && r.value.(publication := None) == before.(publication := None)
    {
      if id !in jobs || jobs[id].publication.None? { return Err(NotFound); }
      var job := jobs[id];
      job := job.(publication := Some(job.publication.value.(status := status)));
      jobs := jobs[id := job];
      return Ok(job);
    }

    method SkipPreCutoffJobs(project: string, cutoff: Time, now: Time)
      requires Valid()
      modifies this`jobs
      ensures Valid()
      ensures jobs == SkipPreCutoff(old(jobs), project, cutoff, now)
      // no job from before the cutoff is left to be claimed, unless a worker holds it or it may have been published
      ensures forall k :: k in jobs && jobs[k].identity.change.project == project && jobs[k].createdAt < cutoff ==>
                IsTerminal(jobs[k].state) || jobs[k].publication.Some? || !LeaseFree(jobs[k], now)
      // and nothing else is skipped
      ensures jobs.Keys == old(jobs).Keys
      ensures forall k :: k in jobs && jobs[k] != old(jobs)[k] ==>
                && jobs[k].state.SkippedScope? && KeepsDurable(old(jobs)[k], jobs[k])
                && jobs[k].identity.change.project == project && jobs[k].createdAt < cutoff
                && !IsTerminal(old(jobs)[k].state) && old(jobs)[k].publication.None?
                && forall worker :: !HeldBy(old(jobs), k, worker, now)
    {
      SkipMeans(jobs, project, cutoff, now);
      jobs := map k | k in jobs ::
        if jobs[k].identity.change.project == project && jobs[k].createdAt < cutoff && !IsTerminal(jobs[k].state)
           && LeaseFree(jobs[k], now) && jobs[k].publication.None?
        then jobs[k].(state := SkippedScope, retryState := None, lease := None)
        else jobs[k];
      assert jobs == SkipPreCutoff(old(jobs), project, cutoff, now);
    }

    method EnsureVote(id: JobId, decision: Option<int>, worker: WorkerId, now: Time) returns (r: RowResult)
      modifies this`jobs
      ensures r == OnRow(old(jobs), id, job => EnsureVoteRow(job, decision, worker, now))
      ensures WritesRow(old(jobs), jobs, id, r)
      ensures r.Ok? <==> HeldBy(old(jobs), id, worker, now) && old(jobs)[id].state.Publishing?
      // the first decision stays, and without one there will never be a vote
      ensures r.Ok? ==> r.value.vote.Some? && r.value == old(jobs)[id].(vote := r.value.vote)
      ensures r.Ok? && old(jobs)[id].vote.Some? ==> jobs == old(jobs)
      ensures r.Ok? && old(jobs)[id].vote.None? ==>
                var vote := r.value.vote.value;
                && vote.decision == decision && (decision.None? <==> IsTerminalVote(vote.status))
                && vote.account.None? && vote.attempts == vote.retryCount == 0
    {
      if id !in jobs { return Err(NotFound); }
      var job := jobs[id];
      if !LiveLease(job, worker, now) || !job.state.Publishing? { return Err(LeaseNotHeld); }
      if job.vote.None? {
        var status := if decision.None? then VoteSkipped else VotePending;
        job := job.(vote := Some(Vote(status, decision, None, 0, 0)));
        jobs := jobs[id := job];
      }
      return Ok(job);
    }

    method DispatchVote(id: JobId, account: AccountId, worker: WorkerId, now: Time) returns (r: RowResult)
      modifies this`jobs
      ensures r == OnRow(old(jobs), id, job => DispatchVoteRow(job, account, worker, now))
      ensures jobs == Written(old(jobs), id, r)
      // the intent comes first: counted, bound to one account, and of unknown outcome from now on
      ensures r.Ok? <==> HeldBy(old(jobs), id, worker, now) && old(jobs)[id].state.Publishing?
                         && old(jobs)[id].vote.Some?
                         && var vote := old(jobs)[id].vote.value;
                            && !vote.status.VoteApplied? && !vote.status.VoteFailed? && !vote.status.VoteSkipped?
                            && (vote.account.None? || vote.account == Some(account))
      ensures r.Ok? ==> var vote := old(jobs)[id].vote.value;
                        r.value == old(jobs)[id].(vote := Some(Vote(VoteAmbiguous, vote.decision, Some(account),
                                                                    vote.attempts + 1, vote.retryCount)))
    {
      if id !in jobs { return Err(NotFound); }
      var job := jobs[id];
      if !LiveLease(job, worker, now) || !job.state.Publishing? { return Err(LeaseNotHeld); }
      if job.vote.None? || IsTerminalVote(job.vote.value.status) { return Err(VoteMissingOrTerminal); }
      var vote := job.vote.value;
      if vote.account.Some? && vote.account.value != account { return Err(AccountChanged); }
      vote := vote.(account := Some(account));
      vote := vote.(attempts := vote.attempts + 1);
      vote := vote.(status := VoteAmbiguous);
      job := job.(vote := Some(vote));
      jobs := jobs[id := job];
      return Ok(job);
    }

    method RetryVote(id: JobId, worker: WorkerId, now: Time) returns (r: RowResult)
      modifies this`jobs
      ensures r == OnRow(old(jobs), id, job => RetryVoteRow(job, worker, now))
      ensures jobs == Written(old(jobs), id, r)
      ensures r.Ok? <==> HeldBy(old(jobs), id, worker, now) && old(jobs)[id].state.Publishing? && old(jobs)[id].vote.Some?
      ensures r.Ok? ==> var vote := old(jobs)[id].vote.value;
                        r.value == old(jobs)[id].(vote := Some(vote.(retryCount := vote.retryCount + 1)))
    {
      if id !in jobs { return Err(NotFound); }
      var job := jobs[id];
      if !LiveLease(job, worker, now) || !job.state.Publishing? { return Err(LeaseNotHeld); }
      if job.vote.None? { return Err(VoteMissingOrTerminal); }
      var vote := job.vote.value;
      vote := vote.(retryCount := vote.retryCount + 1);
      job := job.(vote := Some(vote));
      jobs := jobs[id := job];
      return Ok(job);
    }

    method FinishVote(id: JobId, status: VoteStatus, account: Option<AccountId>, worker: WorkerId, now: Time)
      returns (r: RowResult)
      modifies this`jobs
      ensures IsTerminalVote(status) ==> r == OnRow(old(jobs), id, job => FinishVoteRow(job, status, account, worker, now))
      ensures !IsTerminalVote(status) ==> r == Err(WrongState)
      ensures jobs == Written(old(jobs), id, r)
      // the vote ends, and the job with it, only after the comments are durable
      ensures r.Ok? <==> IsTerminalVote(status) && HeldBy(old(jobs), id, worker, now) && old(jobs)[id].state.Publishing?
                         && old(jobs)[id].publication.Some? && old(jobs)[id].publication.value.status.Posted?
                         && old(jobs)[id].vote.Some?
                         && var vote := old(jobs)[id].vote.value;
                            IsTerminalVote(vote.status) || account.None? || vote.account.None? || vote.account == account
      ensures r.Ok? ==> var was := old(jobs)[id];
                        && r.value == was.(state := Done, retryState := None, lease := None, vote := r.value.vote)
                        && (IsTerminalVote(was.vote.value.status) ==> r.value.vote == was.vote)
                        && (!IsTerminalVote(was.vote.value.status) ==>
                              r.value.vote == Some(was.vote.value.(
                                status := status, account := if account.Some? then account else was.vote.value.account)))
    {
      if !IsTerminalVote(status) { return Err(WrongState); }
      if id !in jobs { return Err(NotFound); }
      var job := jobs[id];
      if !LiveLease(job, worker, now) || !job.state.Publishing? { return Err(LeaseNotHeld); }
      if job.publication.None? || !job.publication.value.status.Posted? { return Err(CommentsNotDurable); }
      if job.vote.None? { return Err(VoteMissingOrTerminal); }
      var vote := job.vote.value;
      if !IsTerminalVote(vote.status) {
        if account.Some? {
          if vote.account.Some? && vote.account != account { return Err(AccountChanged); }
          vote := vote.(account := account);
        }
        vote := vote.(status := status);
        job := job.(vote := Some(vote));
      }
      job := job.(state := Done, retryState := None, lease := None);
      jobs := jobs[id := job];
      return Ok(job);
    }
  }
}
