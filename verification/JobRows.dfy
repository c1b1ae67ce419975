/** One durable job row and what each store transaction does to it.

    Every function here specifies the effect of one transaction of jobs/store.py or jobs/votes.py on
    the row it locks.  The tables joined one-to-one to a job (`review_results`,
    `review_publications`, `review_votes`) are optional fields of the row, and the two lease columns,
    which are always written together, are one field. */
module JobRows {
  import opened Wrappers
  import opened StateMachine

  type JobId = nat
  type WorkerId = nat
  type AccountId = nat
  type Time = int

  datatype Change = Change(project: string, number: nat)

  /** The unique key of `review_jobs`.  The Patch Set number is not part of it. */
  datatype Identity = Identity(change: Change, revision: string, policyVersion: string)

  datatype Lease = Lease(owner: WorkerId, expires: Time)

  datatype Stage = FetchStage | ReviewStage | ValidateStage | PublishStage | ReconcileStage

  /** `provider` marks an attempt whose error class is ProviderUnavailableError. */
  datatype Outcome = Unfinished | Succeeded | Failed(provider: bool)

  datatype Attempt = Attempt(stage: Stage, worker: WorkerId, outcome: Outcome)

  datatype PublicationStatus = Pending | Ambiguous | Posted | PublicationFailed

  datatype Publication = Publication(status: PublicationStatus, payload: string)

  datatype VoteStatus = VotePending | VoteAmbiguous | VoteApplied | VoteFailed | VoteSkipped

  datatype Vote = Vote(
    status: VoteStatus,
    decision: Option<int>,
    account: Option<AccountId>,
    attempts: nat,
    retryCount: nat)

  /** Attempt number n of the source is `attempts[n - 1]`; `attempt_count` is `|attempts|`. */
  datatype Job = Job(
    identity: Identity,
    patchset: nat,
    state: JobState,
    retryState: Option<JobState>,
    nextAttemptAt: Time,
    lease: Option<Lease>,
    attempts: seq<Attempt>,
    epochStart: nat,
    createdAt: Time,
    result: Option<string>,
    publication: Option<Publication>,
    vote: Option<Vote>)

  datatype StoreError =
    | NotFound
    | LeaseNotHeld
    | InvalidTransition
    | TransitionRowMissing
    | InvalidRetryTarget
    | AlreadyFinished
    | ResultMissing
    | WrongState
    | PayloadChanged
    | NotRequeueable
    | VoteMissingOrTerminal
    | AccountChanged
    | CommentsNotDurable

  type RowResult = Result<Job, StoreError>

  predicate IsTerminalVote(status: VoteStatus) {
    status.VoteApplied? || status.VoteFailed? || status.VoteSkipped?
  }

  predicate OwnedBy(job: Job, worker: WorkerId) {
    job.lease.Some? && job.lease.value.owner == worker
  }

  /** `_require_live_lease`. */
  predicate LiveLease(job: Job, worker: WorkerId, now: Time) {
    OwnedBy(job, worker) && now < job.lease.value.expires
  }

  /** No lease, or one whose expiry has passed: the lease part of `_claim_select`. */
  predicate LeaseFree(job: Job, now: Time) {
    job.lease.None? || job.lease.value.expires <= now
  }

  /** `_needs_publish_recovery`: a ReviewInput of this job may already have reached Gerrit. */
  predicate NeedsPublishRecovery(job: Job) {
    job.state.Publishing? || (job.state.RetryWait? && job.retryState == Some(Publishing))
  }

  // ---- Attempt queries --------------------------------------------------------------------

  /** A failed or abandoned attempt counts against its stage's budget, unless the provider was down. */
  predicate Charged(outcome: Outcome) {
    outcome.Unfinished? || outcome == Failed(false)
  }

  predicate Consumed(attempt: Attempt) {
    Charged(attempt.outcome)
  }

  function ConsumedSince(attempts: seq<Attempt>, from: nat, stage: Stage): set<nat> {
    set a: nat | a < |attempts| && a >= from && attempts[a].stage == stage && Consumed(attempts[a])
  }

  /** `count_consumed_retry_attempts`: failed or abandoned attempts of the current retry epoch. */
  function ConsumedAttempts(job: Job, stage: Stage): set<nat> {
    ConsumedSince(job.attempts, job.epochStart, stage)
  }

  /** The outcomes of the attempts of one stage, in attempt order. */
  function Outcomes(attempts: seq<Attempt>, from: nat, stage: Stage): seq<Outcome>
    decreases |attempts|
  {
    if |attempts| <= from then []
    else
      var last := attempts[|attempts| - 1];
      Outcomes(attempts[..|attempts| - 1], from, stage) + if last.stage == stage then [last.outcome] else []
  }

  function EpochReviews(job: Job): seq<Outcome> {
    Outcomes(job.attempts, job.epochStart, ReviewStage)
  }

  /** `provider_retry_status`: the trailing run of finished provider failures. */
  function Streak(outcomes: seq<Outcome>): nat {
    if outcomes == [] || outcomes[|outcomes| - 1] != Failed(true) then 0
    else 1 + Streak(outcomes[..|outcomes| - 1])
  }

  // ---- Transactions of jobs/store.py ------------------------------------------------------

  /** `require_transition` as a guard in front of an update. */
  function Guarded(job: Job, target: JobState, updated: Job): RowResult {
    match CheckTransition(job.state, target)
    case Allowed => Ok(updated)
    case Refused => Err(InvalidTransition)
    case MissingRow => Err(TransitionRowMissing)
  }

  function TransitionRow(job: Job, target: JobState, worker: WorkerId, release: bool, now: Time): RowResult {
    if !LiveLease(job, worker, now) then Err(LeaseNotHeld)
    else Guarded(job, target,
                 job.(state := target, retryState := None,
                      lease := if release || IsTerminal(target) then None else job.lease))
  }

  function ScheduleRetryRow(job: Job, resume: JobState, retryAt: Time, worker: WorkerId, now: Time): RowResult {
    if !ValidRetryTarget(resume) then Err(InvalidRetryTarget)
    else if !LiveLease(job, worker, now) then Err(LeaseNotHeld)
    else Guarded(job, RetryWait,
                 job.(state := RetryWait, retryState := Some(resume), nextAttemptAt := retryAt, lease := None))
  }

  function MarkFailedPermanentRow(job: Job, worker: WorkerId, now: Time): RowResult {
    if !LiveLease(job, worker, now) then Err(LeaseNotHeld)
    else Guarded(job, FailedPermanent, job.(state := FailedPermanent, retryState := None, lease := None))
  }

  function MarkSupersededRow(job: Job, worker: WorkerId, now: Time): RowResult {
    if job.state.Superseded? then Ok(job)
    else if !LiveLease(job, worker, now) then Err(LeaseNotHeld)
    else Guarded(job, Superseded, job.(state := Superseded, retryState := None, lease := None))
  }

  function HeartbeatRow(job: Job, worker: WorkerId, leaseSeconds: nat, now: Time): RowResult {
    if LiveLease(job, worker, now) && !IsTerminal(job.state)
    then Ok(job.(lease := Some(Lease(worker, now + leaseSeconds))))
    else Err(LeaseNotHeld)
  }

  datatype GuardStatus = GuardOk | GuardSuperseded | GuardLeaseLost

  /** `refresh_publish_guard`; `newer` says whether a newer Patch Set of the change is stored. */
  function RefreshGuardRow(job: Job, newer: bool, worker: WorkerId, leaseSeconds: nat, now: Time): (GuardStatus, Job) {
    if !job.state.Publishing? || !LiveLease(job, worker, now) then (GuardLeaseLost, job)
    else if newer then (GuardSuperseded, job)
    else (GuardOk, job.(lease := Some(Lease(worker, now + leaseSeconds))))
  }

  /** The row part of `claim_next`; the row was selected as claimable. */
  function ClaimRow(job: Job, worker: WorkerId, leaseSeconds: nat, now: Time): RowResult {
    var lease := Some(Lease(worker, now + leaseSeconds));
    if !job.state.RetryWait? then Ok(job.(lease := lease))
    else if job.retryState.Some? then Ok(job.(state := job.retryState.value, retryState := None, lease := lease))
    else Err(WrongState)
  }

  /** What `claim_next` leaves behind for a RETRY_WAIT row without a target. */
  function InvalidPersistedStateRow(job: Job): Job {
    job.(state := FailedPermanent)
  }

  function StartAttemptRow(job: Job, stage: Stage, worker: WorkerId, now: Time): RowResult {
    if !LiveLease(job, worker, now) then Err(LeaseNotHeld)
    else Ok(job.(attempts := job.attempts + [Attempt(stage, worker, Unfinished)]))
  }

  /** `finish_attempt`, which is not fenced by the lease. */
  function FinishAttemptRow(job: Job, attempt: nat, outcome: Outcome): RowResult {
    if attempt >= |job.attempts| then Err(NotFound)
    else if !job.attempts[attempt].outcome.Unfinished? then Err(AlreadyFinished)
    else Ok(job.(attempts := job.attempts[attempt := job.attempts[attempt].(outcome := outcome)]))
  }

  function SaveReviewResultRow(job: Job, review: string, worker: WorkerId, now: Time): RowResult {
    if !LiveLease(job, worker, now) then Err(LeaseNotHeld)
    else if job.state.ReadyToPublish? then (if job.result.Some? then Ok(job) else Err(ResultMissing))
    else Guarded(job, ReadyToPublish,
                 job.(state := ReadyToPublish, retryState := None, lease := None,
                      result := if job.result.Some? then job.result else Some(review)))
  }

  /** `begin_publication`; fingerprints are injective, so comparing them compares payloads. */
  function BeginPublicationRow(job: Job, payload: string, worker: WorkerId, now: Time): RowResult {
    if !LiveLease(job, worker, now) then Err(LeaseNotHeld)
    else if !job.state.Publishing? then Err(WrongState)
    else match job.publication
         case None => Ok(job.(publication := Some(Publication(Pending, payload))))
         case Some(stored) => if stored.payload == payload then Ok(job) else Err(PayloadChanged)
  }

  /** `complete_publication_and_mark_done`; only the deferred form is fully fenced. */
  function CompletePublicationRow(job: Job, worker: WorkerId, deferDone: bool, now: Time): RowResult {
    if job.publication.None? then Err(NotFound)
    else if job.state.Done? && job.publication.value.status.Posted? then Ok(job)
    else if !job.state.Publishing? && !job.state.Superseded? then Err(WrongState)
    else if job.state.Publishing? && job.lease.Some? && job.lease.value.owner != worker then Err(LeaseNotHeld)
    else if deferDone && !LiveLease(job, worker, now) then Err(LeaseNotHeld)
    else if deferDone && !job.state.Publishing? then Err(WrongState)
    else
      var posted := job.(publication := Some(job.publication.value.(status := Posted)), retryState := None);
      if deferDone then Ok(posted.(state := Publishing))
      else Ok(posted.(state := Done, lease := None))
  }

  /** `mark_publication_ambiguous` and `mark_publication_failed`, which are not fenced by the lease. */
  function MarkPublicationRow(job: Job, status: PublicationStatus): RowResult {
    if job.publication.None? then Err(NotFound)
    else Ok(job.(publication := Some(job.publication.value.(status := status))))
  }

  /** `requeue_failed`; `newer` as in the publish guard. */
  function RequeueRow(job: Job, newer: bool, now: Time): RowResult {
    if !job.state.FailedPermanent? || newer then Err(NotRequeueable)
    else
      var state :=
        if job.publication.Some? then (if job.publication.value.status.Posted? then Done else Publishing)
        else if job.result.Some? then ReadyToPublish
        else Received;
      var publication :=
        if job.publication.Some? && job.publication.value.status.PublicationFailed?
        then Some(job.publication.value.(status := Pending))
        else job.publication;
      Ok(job.(state := state, publication := publication, epochStart := |job.attempts|,
              retryState := None, nextAttemptAt := now, lease := None))
  }

  // ---- Transactions of jobs/votes.py ------------------------------------------------------

  /** `VoteStore._guard`. */
  predicate VoteFenced(job: Job, worker: WorkerId, now: Time) {
    LiveLease(job, worker, now) && job.state.Publishing?
  }

  function EnsureVoteRow(job: Job, decision: Option<int>, worker: WorkerId, now: Time): RowResult {
    if !VoteFenced(job, worker, now) then Err(LeaseNotHeld)
    else if job.vote.Some? then Ok(job)
    else Ok(job.(vote := Some(Vote(if decision.None? then VoteSkipped else VotePending, decision, None, 0, 0))))
  }

  function DispatchVoteRow(job: Job, account: AccountId, worker: WorkerId, now: Time): RowResult {
    if !VoteFenced(job, worker, now) then Err(LeaseNotHeld)
    else if job.vote.None? || IsTerminalVote(job.vote.value.status) then Err(VoteMissingOrTerminal)
    else if job.vote.value.account.Some? && job.vote.value.account.value != account then Err(AccountChanged)
    else
      var vote := job.vote.value;
      Ok(job.(vote := Some(vote.(account := Some(account), attempts := vote.attempts + 1, status := VoteAmbiguous))))
  }

  function RetryVoteRow(job: Job, worker: WorkerId, now: Time): RowResult {
    if !VoteFenced(job, worker, now) then Err(LeaseNotHeld)
    else if job.vote.None? then Err(VoteMissingOrTerminal)
    else Ok(job.(vote := Some(job.vote.value.(retryCount := job.vote.value.retryCount + 1))))
  }

  function FinishVoteRow(job: Job, status: VoteStatus, account: Option<AccountId>, worker: WorkerId, now: Time): RowResult
  {
    if !IsTerminalVote(status) then Err(WrongState)
    else if !VoteFenced(job, worker, now) then Err(LeaseNotHeld)
    else if job.publication.None? || !job.publication.value.status.Posted? then Err(CommentsNotDurable)
    else if job.vote.None? then Err(VoteMissingOrTerminal)
    else
      var vote := job.vote.value;
      if IsTerminalVote(vote.status) then Ok(job.(state := Done, retryState := None, lease := None))
      else if account.Some? && vote.account.Some? && vote.account != account then Err(AccountChanged)
      else
        var bound := if account.Some? then account else vote.account;
        Ok(job.(vote := Some(vote.(status := status, account := bound)),
                state := Done, retryState := None, lease := None))
  }

  // ---- Transactions over several rows -----------------------------------------------------

  datatype StartMode = FromNow | IncludeOpen

  /** `startAt` is meaningful for FROM_NOW only, as the table's check constraint says. */
  datatype Scope = Scope(enabled: bool, mode: StartMode, startAt: Time)

  datatype Event = Event(change: Change, patchset: nat, revision: string, occurredAt: Option<Time>)

  type Jobs = map<JobId, Job>

  predicate SameChange(a: Job, b: Job) {
    a.identity.change == b.identity.change
  }

  /** `older` is an earlier Patch Set of the change `newer` belongs to. */
  predicate Elder(older: Job, newer: Job) {
    SameChange(older, newer) && older.patchset < newer.patchset
  }

  predicate HasNewer(jobs: Jobs, job: Job) {
    exists k :: k in jobs && Elder(job, jobs[k])
  }

  /** `_claim_select` without its ordering: SKIP LOCKED lets any claimable row come first. */
  predicate Claimable(jobs: Jobs, projects: map<string, Scope>, id: JobId, now: Time) {
    && id in jobs
    && var job := jobs[id];
    && !IsTerminal(job.state)
    && LeaseFree(job, now)
    && (job.state.RetryWait? ==> job.nextAttemptAt <= now)
    && (projects != map[] ==> job.identity.change.project in projects
                              && projects[job.identity.change.project].enabled)
    && (forall k :: k in jobs && Elder(jobs[k], job) ==> !NeedsPublishRecovery(jobs[k]))
  }

  /** The two bulk updates at the end of `_apply_patchset_ordering`, for one elder row. */
  function SupersedeElder(elder: Job): Job {
    if IsTerminal(elder.state) || NeedsPublishRecovery(elder) then elder
    else elder.(state := Superseded, lease := None, retryState := None)
  }

  /** `_apply_patchset_ordering`.  An unresolved publication keeps its row reclaimable. */
  function ApplyPatchSetOrdering(jobs: Jobs, id: JobId): Jobs
    requires id in jobs
  {
    var job := jobs[id];
    if job.state.SkippedScope? then jobs
    else if HasNewer(jobs, job) && !IsTerminal(job.state) then
      if NeedsPublishRecovery(job) then jobs
      else jobs[id := job.(state := Superseded, lease := None)]
    else map k | k in jobs :: if Elder(jobs[k], job) then SupersedeElder(jobs[k]) else jobs[k]
  }

  predicate PredatesScope(event: Event, projects: map<string, Scope>) {
    && event.change.project in projects
    && projects[event.change.project].mode.FromNow?
    && event.occurredAt.Some?
    && event.occurredAt.value < projects[event.change.project].startAt
  }

  function NewJob(event: Event, policyVersion: string, skipped: bool, now: Time): Job {
    Job(Identity(event.change, event.revision, policyVersion), event.patchset,
        if skipped then SkippedScope else Received, None, now, None, [], 0, now, None, None, None)
  }

  /** INCLUDE_OPEN opts an enabled project back into its open changes. */
  predicate Revives(job: Job, projects: map<string, Scope>) {
    && job.state.SkippedScope?
    && job.identity.change.project in projects
    && projects[job.identity.change.project].enabled
    && projects[job.identity.change.project].mode.IncludeOpen?
  }

  /** The row of `id` after the upsert, before the ordering is applied. */
  function Upserted(jobs: Jobs, projects: map<string, Scope>, event: Event, policyVersion: string, id: JobId,
                    now: Time): Job
  {
    if id !in jobs then NewJob(event, policyVersion, PredatesScope(event, projects), now)
    else if Revives(jobs[id], projects) then jobs[id].(state := Received, retryState := None, nextAttemptAt := now)
    else jobs[id]
  }

  /** `enqueue` once the identity has been looked up: `id` is the stored row, or a fresh key. */
  function EnqueueAt(jobs: Jobs, projects: map<string, Scope>, event: Event, policyVersion: string, id: JobId,
                     now: Time): Jobs
  {
    ApplyPatchSetOrdering(jobs[id := Upserted(jobs, projects, event, policyVersion, id, now)], id)
  }

  /** The WHERE clause of `_skip_pre_cutoff_jobs`. */
  predicate PreCutoff(job: Job, project: string, cutoff: Time, now: Time) {
    && job.identity.change.project == project
    && job.createdAt < cutoff
    && !IsTerminal(job.state)
    && LeaseFree(job, now)
    && job.publication.None?
  }

  function SkipPreCutoff(jobs: Jobs, project: string, cutoff: Time, now: Time): Jobs {
    map k | k in jobs ::
      if PreCutoff(jobs[k], project, cutoff, now)
      then jobs[k].(state := SkippedScope, retryState := None, lease := None)
      else jobs[k]
  }
}
