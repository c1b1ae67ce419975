/** Workers, Gerrit and administrators interleaving over the job table (service.py, voting.py).

    One database transaction, one Gerrit read and one landing POST are one atomic step each.  A
    worker is its program counter inside `_process_claimed` together with the local values the code
    still uses.  A worker whose process dies keeps the counter it died at, so a POST it had in
    flight can still land. */
module Protocol {
  import opened Wrappers
  import opened StateMachine
  import opened JobRows

  /** The lease length and the three limits of the retry settings. */
  datatype Config = Config(leaseSeconds: nat, publishAttempts: nat, reviewAttempts: nat, providerAttempts: nat)

  datatype Kind = Comments | CodeReview

  /** One ReviewInput that reached Gerrit. */
  datatype Post = Post(job: JobId, kind: Kind, payload: string, account: AccountId)

  datatype Pc =
    | Idle
      // `_process_review` up to the REVIEW gate: any fenced review operation may come next
    | InReview(job: JobId)
      // the REVIEW gate, one read at a time, the attempt it lets start, and its end
    | StreakRead(job: JobId)
    | ReviewAllowed(job: JobId)
    | ReviewRunning(job: JobId, attempt: nat)
    | ReviewFailed(job: JobId)
    | ReviewSaved(job: JobId, attempt: nat)
      // `_process_publish`, in program order; `state` and `seen` are the local record and row
    | PublishClaimed(job: JobId, state: JobState)
    | PublicationRead(job: JobId, state: JobState, seen: Option<Publication>)
    | LatestPatchSet(job: JobId, seen: Option<Publication>)
    | InPublishing(job: JobId, seen: Option<Publication>)
    | Reconciling(job: JobId, payload: string)
    | ObservedAbsent(job: JobId, payload: string)
    | PublishAllowed(job: JobId, payload: string)
    | AttemptStarted(job: JobId, payload: string, attempt: nat)
    | UncertaintyMarked(job: JobId, payload: string, attempt: nat)
    | Posting(job: JobId, payload: string, attempt: nat, deadline: Time, landed: bool)
    | Acknowledged(job: JobId, attempt: nat)
      // `_resolve_superseded_publish`, waiting for the messages of an unresolved publication
    | ResolvingSuperseded(job: JobId)
      // exception handlers of both paths; `open` is the unfinished PUBLISH attempt, if any
    | Leaving(job: JobId, open: Option<nat>, dispatched: bool)
    | Rescheduling(job: JobId, resume: JobState)
      // `_complete_comment_publication` and `VotePublisher.process`
    | Completing(job: JobId, allowVote: bool)
    | VoteEnsured(job: JobId, allowVote: bool)
    | VoteDeferred(job: JobId, allowVote: bool)
    | VoteLoaded(job: JobId, allowVote: bool, vote: Vote)
    | VoteAbsent(job: JobId)
    | VoteGuarded(job: JobId)
    | VoteDispatched(job: JobId)
    | VotePosting(job: JobId, deadline: Time, landed: bool)
    | VoteRetrying(job: JobId, posted: bool)
    | VoteRetried(job: JobId, posted: bool, count: nat)
    | VoteFinishing(job: JobId, status: VoteStatus, account: Option<AccountId>)

  /** `account` is the Gerrit account the worker's credentials authenticate as. */
  datatype Worker = Worker(alive: bool, account: AccountId, pc: Pc)

  /** `live`, `claimed` and `dispatched` are history: the jobs an enqueue ever left non-terminal,
      the jobs ever claimed, and per job the PUBLISH attempts under which a POST was sent. */
  datatype World = World(
    now: Time,
    jobs: Jobs,
    projects: map<string, Scope>,
    workers: map<WorkerId, Worker>,
    log: seq<Post>,
    live: set<JobId>,
    claimed: set<JobId>,
    dispatched: map<JobId, set<nat>>)

  function Init(now: Time): World {
    World(now, map[], map[], map[], [], {}, {}, map[])
  }

  /** How many POSTs of one kind have landed for a job. */
  function Landed(log: seq<Post>, job: JobId, kind: Kind): nat {
    if log == [] then 0
    else
      var last := log[|log| - 1];
      Landed(log[..|log| - 1], job, kind) + if last.job == job && last.kind == kind then 1 else 0
  }

  // ---- Building blocks --------------------------------------------------------------------

  predicate Acting(W: World, w: WorkerId) {
    w in W.workers && W.workers[w].alive && !W.workers[w].pc.Idle? && W.workers[w].pc.job in W.jobs
  }

  function Goto(W: World, w: WorkerId, pc: Pc): World
    requires w in W.workers
  {
    W.(workers := W.workers[w := W.workers[w].(pc := pc)])
  }

  function Put(W: World, w: WorkerId, job: JobId, row: Job, pc: Pc): World
    requires w in W.workers
  {
    Goto(W, w, pc).(jobs := W.jobs[job := row])
  }

  /** A fenced transaction: go on if it commits; its exception abandons the claim otherwise. */
  function Commit(W: World, w: WorkerId, job: JobId, r: RowResult, pc: Pc): World
    requires w in W.workers
  {
    match r
    case Ok(row) => Put(W, w, job, row, pc)
    case Err(_) => Goto(W, w, Idle)
  }

  function Newer(W: World, job: JobId): bool
    requires job in W.jobs
  {
    HasNewer(W.jobs, W.jobs[job])
  }

  // ---- Environment, administrators and the receiver ---------------------------------------

  function Tick(W: World, seconds: nat): World {
    W.(now := W.now + seconds)
  }

  function Spawn(W: World, w: WorkerId, account: AccountId): World {
    if w in W.workers then W
    else W.(workers := W.workers[w := Worker(true, account, Idle)])
  }

  function Crash(W: World, w: WorkerId): World {
    if w in W.workers then W.(workers := W.workers[w := W.workers[w].(alive := false)]) else W
  }

  /** An exception outside the handled classes reaches the slot loop. */
  function Abort(W: World, w: WorkerId): World {
    if Acting(W, w) then Goto(W, w, Idle) else W
  }

  function Enqueue(W: World, event: Event, policyVersion: string, id: JobId): World {
    var identity := Identity(event.change, event.revision, policyVersion);
    if id in W.jobs && W.jobs[id].identity != identity then W
    else if id !in W.jobs && exists k :: k in W.jobs && W.jobs[k].identity == identity then W
    else
      var jobs := EnqueueAt(W.jobs, W.projects, event, policyVersion, id, W.now);
      W.(jobs := jobs,
         live := if id in jobs && !IsTerminal(jobs[id].state) then W.live + {id} else W.live,
         dispatched := if id in W.jobs then W.dispatched else W.dispatched[id := {}])
  }

  function Requeue(W: World, job: JobId): World {
    if job !in W.jobs then W
    else match RequeueRow(W.jobs[job], Newer(W, job), W.now)
         case Ok(row) => W.(jobs := W.jobs[job := row])
         case Err(_) => W
  }

  function SetProjectEnabled(W: World, project: string, enabled: bool): World {
    if project !in W.projects then W
    else
      var scope := W.projects[project].(enabled := enabled);
      if enabled && scope.mode.FromNow? then
        W.(projects := W.projects[project := scope.(startAt := W.now)],
           jobs := SkipPreCutoff(W.jobs, project, W.now, W.now))
      else W.(projects := W.projects[project := scope])
  }

  function SetReviewStartMode(W: World, project: string, mode: StartMode): World {
    if project !in W.projects then W else UpsertProject(W, project, W.projects[project].enabled, mode)
  }

  function UpsertProject(W: World, project: string, enabled: bool, mode: StartMode): World {
    W.(projects := W.projects[project := Scope(enabled, mode, W.now)],
       jobs := if mode.FromNow? then SkipPreCutoff(W.jobs, project, W.now, W.now) else W.jobs)
  }

  function Claim(cfg: Config, W: World, w: WorkerId, job: JobId): World {
    if !(w in W.workers && W.workers[w].alive && W.workers[w].pc.Idle?) then W
    else if !Claimable(W.jobs, W.projects, job, W.now) then W
    else match ClaimRow(W.jobs[job], w, cfg.leaseSeconds, W.now)
         case Err(_) => W.(jobs := W.jobs[job := InvalidPersistedStateRow(W.jobs[job])])
         case Ok(row) =>
           Put(W, w, job, row,
               if IsReviewState(row.state) then InReview(job)
               else if IsPublishState(row.state) then PublishClaimed(job, row.state)
               else Leaving(job, None, false)).(claimed := W.claimed + {job})
  }

  /** The heartbeat task runs beside the worker, so it may fire for any row the worker owns. */
  function Heartbeat(cfg: Config, W: World, w: WorkerId, job: JobId): World {
    if !(w in W.workers && W.workers[w].alive && job in W.jobs) then W
    else match HeartbeatRow(W.jobs[job], w, cfg.leaseSeconds, W.now)
         case Ok(row) => W.(jobs := W.jobs[job := row])
         case Err(_) => W
  }

  /** Late bookkeeping of a FETCH, VALIDATE or RECONCILE attempt, which no lease fences. */
  function FinishAttempt(W: World, job: JobId, attempt: nat, outcome: Outcome): World {
    if job !in W.jobs || attempt >= |W.jobs[job].attempts| then W
    else if W.jobs[job].attempts[attempt].stage.PublishStage? || W.jobs[job].attempts[attempt].stage.ReviewStage? then W
    else match FinishAttemptRow(W.jobs[job], attempt, outcome)
         case Ok(row) => W.(jobs := W.jobs[job := row])
         case Err(_) => W
  }

  // ---- The review phase -------------------------------------------------------------------

  /** The program counters of a claim that has a review to do. */
  predicate HasReview(pc: Pc) {
    pc.InReview? || pc.StreakRead? || pc.ReviewAllowed? || pc.ReviewRunning? || pc.ReviewFailed?
  }

  function ReviewTransition(W: World, w: WorkerId, target: JobState): World {
    if !Acting(W, w) || !HasReview(W.workers[w].pc) then W
    else if !(target.Fetching? || target.Reviewing? || target.Validating?) then W
    else
      var pc := W.workers[w].pc;
      Commit(W, w, pc.job, TransitionRow(W.jobs[pc.job], target, w, false, W.now), pc)
  }

  /** An attempt of another stage than REVIEW. */
  function ReviewAttempt(W: World, w: WorkerId, stage: Stage): World {
    if !Acting(W, w) || !W.workers[w].pc.InReview? || stage.PublishStage? || stage.ReviewStage? then W
    else
      var pc := W.workers[w].pc;
      Commit(W, w, pc.job, StartAttemptRow(W.jobs[pc.job], stage, w, W.now), pc)
  }

  /** The first read of `_can_start_attempt(REVIEW)`; `waited` says that the provider wait limit has
      passed since the streak began. */
  function ReadStreak(cfg: Config, W: World, w: WorkerId, waited: bool): World {
    if !Acting(W, w) || !W.workers[w].pc.InReview? then W
    else
      var pc := W.workers[w].pc;
      var streak := Streak(EpochReviews(W.jobs[pc.job]));
      if streak > 0 && (streak >= cfg.providerAttempts || waited) then Goto(W, w, Leaving(pc.job, None, false))
      else Goto(W, w, StreakRead(pc.job))
  }

  /** The second read, a transaction of its own. */
  function ReadConsumed(cfg: Config, W: World, w: WorkerId): World {
    if !Acting(W, w) || !W.workers[w].pc.StreakRead? then W
    else
      var pc := W.workers[w].pc;
      if |ConsumedAttempts(W.jobs[pc.job], ReviewStage)| < cfg.reviewAttempts then Goto(W, w, ReviewAllowed(pc.job))
      else Goto(W, w, Leaving(pc.job, None, false))
  }

  function StartReview(W: World, w: WorkerId): World {
    if !Acting(W, w) || !W.workers[w].pc.ReviewAllowed? then W
    else
      var pc := W.workers[w].pc;
      Commit(W, w, pc.job, StartAttemptRow(W.jobs[pc.job], ReviewStage, w, W.now),
             ReviewRunning(pc.job, |W.jobs[pc.job].attempts|))
  }

  /** The model's answer, or the completed progress of an earlier attempt, becomes the durable result. */
  function SaveReview(W: World, w: WorkerId, review: string): World {
    if !Acting(W, w) then W
    else
      var pc := W.workers[w].pc;
      if pc.InReview? || pc.ReviewFailed? then
        Commit(W, w, pc.job, SaveReviewResultRow(W.jobs[pc.job], review, w, W.now), Idle)
      else if pc.ReviewRunning? then
        Commit(W, w, pc.job, SaveReviewResultRow(W.jobs[pc.job], review, w, W.now), ReviewSaved(pc.job, pc.attempt))
      else W
  }

  /** The worker finishes its own REVIEW attempt, whoever holds the lease by now: a failure when the
      model call or the promotion failed, a success only once the result is durable. */
  function FinishReview(W: World, w: WorkerId, outcome: Outcome): World {
    if !Acting(W, w) then W
    else
      var pc := W.workers[w].pc;
      if pc.ReviewRunning? && outcome.Failed? then
        Commit(W, w, pc.job, FinishAttemptRow(W.jobs[pc.job], pc.attempt, outcome), ReviewFailed(pc.job))
      else if pc.ReviewSaved? && (outcome.Succeeded? || outcome == Failed(false)) then
        Commit(W, w, pc.job, FinishAttemptRow(W.jobs[pc.job], pc.attempt, outcome), Idle)
      else W
  }

  // ---- The publish phase ------------------------------------------------------------------

  function ReadPublication(W: World, w: WorkerId): World {
    if !Acting(W, w) || !W.workers[w].pc.PublishClaimed? then W
    else
      var pc := W.workers[w].pc;
      var row := W.jobs[pc.job];
      if row.result.None? then Goto(W, w, Leaving(pc.job, None, false))
      else Goto(W, w, PublicationRead(pc.job, pc.state, row.publication))
  }

  /** `is_latest_known_patchset`, then either branch. */
  function CheckLatest(W: World, w: WorkerId): World {
    if !Acting(W, w) || !W.workers[w].pc.PublicationRead? then W
    else
      var pc := W.workers[w].pc;
      if !W.jobs[pc.job].state.Superseded? && !Newer(W, pc.job) then
        if pc.state.ReadyToPublish? then Goto(W, w, LatestPatchSet(pc.job, pc.seen))
        else Goto(W, w, InPublishing(pc.job, pc.seen))
      else match pc.seen
           case None => Goto(W, w, Leaving(pc.job, None, false))
           case Some(seen) =>
             if seen.status.Posted? then Goto(W, w, Completing(pc.job, false))
             else if seen.status.PublicationFailed? then Goto(W, w, Leaving(pc.job, None, false))
             else Goto(W, w, ResolvingSuperseded(pc.job))
  }

  function EnterPublishing(W: World, w: WorkerId): World {
    if !Acting(W, w) || !W.workers[w].pc.LatestPatchSet? then W
    else
      var pc := W.workers[w].pc;
      Commit(W, w, pc.job, TransitionRow(W.jobs[pc.job], Publishing, w, false, W.now), InPublishing(pc.job, pc.seen))
  }

  /** `begin_publication` when no row was seen; then the branch on the row's status. */
  function BeginPublication(W: World, w: WorkerId, payload: string): World {
    if !Acting(W, w) || !W.workers[w].pc.InPublishing? then W
    else
      var pc := W.workers[w].pc;
      match pc.seen
      case None =>
        (match BeginPublicationRow(W.jobs[pc.job], payload, w, W.now)
         case Ok(row) => Put(W, w, pc.job, row, InPublishing(pc.job, row.publication))
         case Err(_) => Goto(W, w, Idle))
      case Some(seen) =>
        if seen.status.Posted? then Goto(W, w, Completing(pc.job, true))
        else if seen.status.PublicationFailed? then Goto(W, w, Leaving(pc.job, None, false))
        else Commit(W, w, pc.job, StartAttemptRow(W.jobs[pc.job], ReconcileStage, w, W.now),
                    Reconciling(pc.job, seen.payload))
  }

  /** A successful `has_published_review`, which sees every landed POST of the job. */
  function ReadMessages(W: World, w: WorkerId): World {
    if !Acting(W, w) then W
    else
      var pc := W.workers[w].pc;
      if pc.Reconciling? then
        if Landed(W.log, pc.job, Comments) > 0 then Goto(W, w, Completing(pc.job, true))
        else Goto(W, w, ObservedAbsent(pc.job, pc.payload))
      else if pc.ResolvingSuperseded? then
        if Landed(W.log, pc.job, Comments) > 0 then Goto(W, w, Completing(pc.job, false))
        else Goto(W, w, Leaving(pc.job, None, false))
      else W
  }

  /** `_can_start_attempt(PUBLISH)`. */
  function CheckPublishBudget(cfg: Config, W: World, w: WorkerId): World {
    if !Acting(W, w) || !W.workers[w].pc.ObservedAbsent? then W
    else
      var pc := W.workers[w].pc;
      if |ConsumedAttempts(W.jobs[pc.job], PublishStage)| < cfg.publishAttempts
      then Goto(W, w, PublishAllowed(pc.job, pc.payload))
      else Goto(W, w, Leaving(pc.job, None, false))
  }

  function StartPublish(W: World, w: WorkerId): World {
    if !Acting(W, w) || !W.workers[w].pc.PublishAllowed? then W
    else
      var pc := W.workers[w].pc;
      Commit(W, w, pc.job, StartAttemptRow(W.jobs[pc.job], PublishStage, w, W.now),
             AttemptStarted(pc.job, pc.payload, |W.jobs[pc.job].attempts|))
  }

  function MarkUncertain(W: World, w: WorkerId): World {
    if !Acting(W, w) || !W.workers[w].pc.AttemptStarted? then W
    else
      var pc := W.workers[w].pc;
      Commit(W, w, pc.job, MarkPublicationRow(W.jobs[pc.job], Ambiguous),
             UncertaintyMarked(pc.job, pc.payload, pc.attempt))
  }

  /** The guard in front of the comment POST; on OK the request leaves the process. */
  function GuardComments(cfg: Config, W: World, w: WorkerId): World {
    if !Acting(W, w) || !W.workers[w].pc.UncertaintyMarked? then W
    else
      var pc := W.workers[w].pc;
      var (status, row) := RefreshGuardRow(W.jobs[pc.job], Newer(W, pc.job), w, cfg.leaseSeconds, W.now);
      match status
      case GuardLeaseLost => Goto(W, w, Idle)
      case GuardSuperseded => Goto(W, w, Leaving(pc.job, Some(pc.attempt), false))
      case GuardOk =>
        var sent := if pc.job in W.dispatched then W.dispatched[pc.job] else {};
        Put(W, w, pc.job, row, Posting(pc.job, pc.payload, pc.attempt, W.now + cfg.leaseSeconds, false))
        .(dispatched := W.dispatched[pc.job := sent + {pc.attempt}])
  }

  /** A POST in flight reaches Gerrit: before its call returns and before the guarded lease ends. */
  function Land(W: World, w: WorkerId): World {
    if w !in W.workers then W
    else
      var account := W.workers[w].account;
      match W.workers[w].pc
      case Posting(job, payload, attempt, deadline, false) =>
        if W.now < deadline then
          Goto(W, w, Posting(job, payload, attempt, deadline, true))
          .(log := W.log + [Post(job, Comments, payload, account)])
        else W
      case VotePosting(job, deadline, false) =>
        if W.now < deadline then
          Goto(W, w, VotePosting(job, deadline, true)).(log := W.log + [Post(job, CodeReview, "", account)])
        else W
      case _ => W
  }

  /** The call returns.  Only a POST that landed is acknowledged; a failure says nothing. */
  function CommentsReturn(W: World, w: WorkerId, acknowledged: bool): World {
    if !Acting(W, w) || !W.workers[w].pc.Posting? then W
    else
      var pc := W.workers[w].pc;
      if acknowledged then (if pc.landed then Goto(W, w, Acknowledged(pc.job, pc.attempt)) else W)
      else Goto(W, w, Leaving(pc.job, Some(pc.attempt), true))
  }

  function FinishPublishAttempt(W: World, w: WorkerId): World {
    if !Acting(W, w) || !W.workers[w].pc.Acknowledged? then W
    else
      var pc := W.workers[w].pc;
      Commit(W, w, pc.job, FinishAttemptRow(W.jobs[pc.job], pc.attempt, Succeeded), Completing(pc.job, true))
  }

  // ---- Exception handlers -----------------------------------------------------------------

  /** A Gerrit or model error, or a handled permanent failure, enters an exception handler. */
  function Leave(W: World, w: WorkerId): World {
    if !Acting(W, w) then W
    else
      var pc := W.workers[w].pc;
      match pc
      case InReview(j) => Goto(W, w, Leaving(j, None, false))
      case ReviewFailed(j) => Goto(W, w, Leaving(j, None, false))
      case PublishClaimed(j, _) => Goto(W, w, Leaving(j, None, false))
      case PublicationRead(j, _, _) => Goto(W, w, Leaving(j, None, false))
      case LatestPatchSet(j, _) => Goto(W, w, Leaving(j, None, false))
      case InPublishing(j, _) => Goto(W, w, Leaving(j, None, false))
      case Reconciling(j, _) => Goto(W, w, Leaving(j, None, false))
      case ObservedAbsent(j, _) => Goto(W, w, Leaving(j, None, false))
      case PublishAllowed(j, _) => Goto(W, w, Leaving(j, None, false))
      case AttemptStarted(j, _, a) => Goto(W, w, Leaving(j, Some(a), false))
      case UncertaintyMarked(j, _, a) => Goto(W, w, Leaving(j, Some(a), false))
      case ResolvingSuperseded(j) => Goto(W, w, Leaving(j, None, false))
      case _ => W
  }

  /** `_finish_attempt_if_open`; a superseded POST attempt succeeds, a failed one does not. */
  function LeaveFinishAttempt(W: World, w: WorkerId, superseded: bool): World {
    if !Acting(W, w) || !W.workers[w].pc.Leaving? || W.workers[w].pc.open.None? then W
    else
      var pc := W.workers[w].pc;
      var outcome := if superseded && !pc.dispatched then Succeeded else Failed(false);
      match FinishAttemptRow(W.jobs[pc.job], pc.open.value, outcome)
      case Ok(row) => Put(W, w, pc.job, row, pc)
      case Err(_) => W
  }

  function LeaveMarkPublication(W: World, w: WorkerId, failed: bool): World {
    if !Acting(W, w) || !W.workers[w].pc.Leaving? then W
    else
      var pc := W.workers[w].pc;
      Commit(W, w, pc.job, MarkPublicationRow(W.jobs[pc.job], if failed then PublicationFailed else Ambiguous), pc)
  }

  function LeaveSuperseded(W: World, w: WorkerId): World {
    if !Acting(W, w) || !W.workers[w].pc.Leaving? then W
    else
      var pc := W.workers[w].pc;
      Commit(W, w, pc.job, MarkSupersededRow(W.jobs[pc.job], w, W.now), Idle)
  }

  function LeaveFailed(W: World, w: WorkerId): World {
    if !Acting(W, w) || !W.workers[w].pc.Leaving? then W
    else
      var pc := W.workers[w].pc;
      Commit(W, w, pc.job, MarkFailedPermanentRow(W.jobs[pc.job], w, W.now), Idle)
  }

  /** The read half of `_schedule_retry`: it derives the state to resume from the current row. */
  function ChooseResume(W: World, w: WorkerId, publishing: bool): World {
    if !Acting(W, w) || !W.workers[w].pc.Leaving? then W
    else
      var pc := W.workers[w].pc;
      var current := W.jobs[pc.job].state;
      var resume := if publishing && current.ReadyToPublish? then Publishing else current;
      if ValidRetryTarget(resume) then Goto(W, w, Rescheduling(pc.job, resume)) else Goto(W, w, Idle)
  }

  function Reschedule(W: World, w: WorkerId, retryAt: Time): World {
    if !Acting(W, w) || !W.workers[w].pc.Rescheduling? then W
    else
      var pc := W.workers[w].pc;
      Commit(W, w, pc.job, ScheduleRetryRow(W.jobs[pc.job], pc.resume, retryAt, w, W.now), Idle)
  }

  // ---- Completion and voting --------------------------------------------------------------

  /** Without a bound project policy, or from another local state, the job is done at once. */
  function CompleteNow(W: World, w: WorkerId): World {
    if !Acting(W, w) || !W.workers[w].pc.Completing? then W
    else
      var pc := W.workers[w].pc;
      Commit(W, w, pc.job, CompletePublicationRow(W.jobs[pc.job], w, false, W.now), Idle)
  }

  function EnsureVote(W: World, w: WorkerId, decision: Option<int>): World {
    if !Acting(W, w) || !W.workers[w].pc.Completing? then W
    else
      var pc := W.workers[w].pc;
      Commit(W, w, pc.job, EnsureVoteRow(W.jobs[pc.job], decision, w, W.now), VoteEnsured(pc.job, pc.allowVote))
  }

  function CompleteDeferred(W: World, w: WorkerId): World {
    if !Acting(W, w) || !W.workers[w].pc.VoteEnsured? then W
    else
      var pc := W.workers[w].pc;
      Commit(W, w, pc.job, CompletePublicationRow(W.jobs[pc.job], w, true, W.now), VoteDeferred(pc.job, pc.allowVote))
  }

  function LoadVote(W: World, w: WorkerId): World {
    if !Acting(W, w) || !W.workers[w].pc.VoteDeferred? then W
    else
      var pc := W.workers[w].pc;
      match W.jobs[pc.job].vote
      case None => Goto(W, w, Idle)
      case Some(vote) => Goto(W, w, VoteLoaded(pc.job, pc.allowVote, vote))
  }

  /** Where `process` goes from the vote it has loaded; `found` says whether its marker is in the change. */
  function AfterObservation(cfg: Config, pc: Pc, account: AccountId, found: bool, applied: bool): Pc
    requires pc.VoteLoaded?
  {
    if IsTerminalVote(pc.vote.status) then VoteFinishing(pc.job, pc.vote.status, None)
    else if !pc.allowVote then VoteFinishing(pc.job, VoteSkipped, None)
    else if pc.vote.account.Some? && pc.vote.account.value != account then VoteFinishing(pc.job, VoteFailed, None)
    else if found then
      if applied then VoteFinishing(pc.job, VoteApplied, Some(account)) else VoteFinishing(pc.job, VoteFailed, None)
    else if pc.vote.attempts >= cfg.publishAttempts || pc.vote.retryCount >= cfg.publishAttempts
    then VoteFinishing(pc.job, VoteFailed, None)
    else VoteAbsent(pc.job)
  }

  /** From the loaded vote to the decision to POST, with the observation of Gerrit in between.
      `applied` is what the labels show when the marker is found. */
  function ObserveVote(cfg: Config, W: World, w: WorkerId, applied: bool): World {
    if !Acting(W, w) || !W.workers[w].pc.VoteLoaded? then W
    else
      var pc, account := W.workers[w].pc, W.workers[w].account;
      Goto(W, w, AfterObservation(cfg, pc, account, MarkerFound(W.log, pc.job, account), applied))
  }

  /** The marker counts only under the account that is asking. */
  predicate MarkerFound(log: seq<Post>, job: JobId, account: AccountId) {
    exists i :: 0 <= i < |log| && log[i].job == job && log[i].kind.CodeReview? && log[i].account == account
  }

  /** The guard before `dispatch` and the guard in front of the vote POST. */
  function GuardVote(cfg: Config, W: World, w: WorkerId): World {
    if !Acting(W, w) || !(W.workers[w].pc.VoteAbsent? || W.workers[w].pc.VoteDispatched?) then W
    else
      var pc := W.workers[w].pc;
      var (status, row) := RefreshGuardRow(W.jobs[pc.job], Newer(W, pc.job), w, cfg.leaseSeconds, W.now);
      match status
      case GuardLeaseLost => Goto(W, w, Idle)
      case GuardSuperseded => Goto(W, w, VoteFinishing(pc.job, VoteSkipped, None))
      case GuardOk =>
        Put(W, w, pc.job, row,
            if pc.VoteAbsent? then VoteGuarded(pc.job)
            else VotePosting(pc.job, W.now + cfg.leaseSeconds, false))
  }

  function DispatchVote(W: World, w: WorkerId): World {
    if !Acting(W, w) || !W.workers[w].pc.VoteGuarded? then W
    else
      var pc := W.workers[w].pc;
      Commit(W, w, pc.job, DispatchVoteRow(W.jobs[pc.job], W.workers[w].account, w, W.now), VoteDispatched(pc.job))
  }

  /** The vote call returns; a transient failure is retried, any other one finishes the vote. */
  function VoteReturn(W: World, w: WorkerId, acknowledged: bool, transient: bool): World {
    if !Acting(W, w) || !W.workers[w].pc.VotePosting? then W
    else
      var pc := W.workers[w].pc;
      if acknowledged then
        (if pc.landed then Goto(W, w, VoteFinishing(pc.job, VoteApplied, Some(W.workers[w].account))) else W)
      else if transient then Goto(W, w, VoteRetrying(pc.job, true))
      else Goto(W, w, VoteFinishing(pc.job, VoteFailed, None))
  }

  /** A transient error of a read, before or after the vote was dispatched. */
  function VoteTransient(W: World, w: WorkerId): World {
    if !Acting(W, w) then W
    else
      var pc := W.workers[w].pc;
      if pc.VoteLoaded? && !IsTerminalVote(pc.vote.status) && pc.allowVote then Goto(W, w, VoteRetrying(pc.job, false))
      else if pc.VoteDispatched? then Goto(W, w, VoteRetrying(pc.job, true))
      else W
  }

  /** Merged, not permitted, superseded or permanently failing: finish without a POST. */
  function VoteGiveUp(W: World, w: WorkerId, skipped: bool, bind: bool): World {
    if !Acting(W, w) then W
    else
      var pc := W.workers[w].pc;
      if (pc.VoteLoaded? && !IsTerminalVote(pc.vote.status) && pc.allowVote) || pc.VoteAbsent? || pc.VoteDispatched? then
        Goto(W, w, VoteFinishing(pc.job, if skipped then VoteSkipped else VoteFailed,
                                 if bind then Some(W.workers[w].account) else None))
      else W
  }

  function RetryVote(W: World, w: WorkerId): World {
    if !Acting(W, w) || !W.workers[w].pc.VoteRetrying? then W
    else
      var pc := W.workers[w].pc;
      match RetryVoteRow(W.jobs[pc.job], w, W.now)
      case Ok(row) =>
        Put(W, w, pc.job, row,
            VoteRetried(pc.job, pc.posted, if row.vote.Some? then row.vote.value.retryCount else 0))
      case Err(_) => Goto(W, w, Idle)
  }

  function AfterVoteRetry(cfg: Config, W: World, w: WorkerId): World {
    if !Acting(W, w) || !W.workers[w].pc.VoteRetried? then W
    else
      var pc := W.workers[w].pc;
      if pc.count >= cfg.publishAttempts && !pc.posted then Goto(W, w, VoteFinishing(pc.job, VoteFailed, None))
      else Goto(W, w, Rescheduling(pc.job, Publishing))
  }

  function FinishVote(W: World, w: WorkerId): World {
    if !Acting(W, w) || !W.workers[w].pc.VoteFinishing? then W
    else
      var pc := W.workers[w].pc;
      Commit(W, w, pc.job, FinishVoteRow(W.jobs[pc.job], pc.status, pc.account, w, W.now), Idle)
  }

  // ---- Steps and runs ---------------------------------------------------------------------

  datatype Action =
    | ATick(seconds: nat)
    | ASpawn(w: WorkerId, account: AccountId)
    | ACrash(w: WorkerId)
    | AAbort(w: WorkerId)
    | AEnqueue(event: Event, policyVersion: string, id: JobId)
    | ARequeue(id: JobId)
    | ASetProjectEnabled(project: string, enabled: bool)
    | ASetReviewStartMode(project: string, mode: StartMode)
    | AUpsertProject(project: string, enabled: bool, mode: StartMode)
    | AClaim(w: WorkerId, id: JobId)
    | AHeartbeat(w: WorkerId, id: JobId)
    | AFinishAttempt(id: JobId, attempt: nat, outcome: Outcome)
    | AReviewTransition(w: WorkerId, target: JobState)
    | AReviewAttempt(w: WorkerId, stage: Stage)
    | AReadStreak(w: WorkerId, waited: bool)
    | AReadConsumed(w: WorkerId)
    | AStartReview(w: WorkerId)
    | ASaveReview(w: WorkerId, review: string)
    | AFinishReview(w: WorkerId, outcome: Outcome)
    | AReadPublication(w: WorkerId)
    | ACheckLatest(w: WorkerId)
    | AEnterPublishing(w: WorkerId)
    | ABeginPublication(w: WorkerId, payload: string)
    | AReadMessages(w: WorkerId)
    | ACheckPublishBudget(w: WorkerId)
    | AStartPublish(w: WorkerId)
    | AMarkUncertain(w: WorkerId)
    | AGuardComments(w: WorkerId)
    | ALand(w: WorkerId)
    | ACommentsReturn(w: WorkerId, acknowledged: bool)
    | AFinishPublishAttempt(w: WorkerId)
    | ALeave(w: WorkerId)
    | ALeaveFinishAttempt(w: WorkerId, superseded: bool)
    | ALeaveMarkPublication(w: WorkerId, failed: bool)
    | ALeaveSuperseded(w: WorkerId)
    | ALeaveFailed(w: WorkerId)
    | AChooseResume(w: WorkerId, publishing: bool)
    | AReschedule(w: WorkerId, retryAt: Time)
    | ACompleteNow(w: WorkerId)
    | AEnsureVote(w: WorkerId, decision: Option<int>)
    | ACompleteDeferred(w: WorkerId)
    | ALoadVote(w: WorkerId)
    | AObserveVote(w: WorkerId, applied: bool)
    | AGuardVote(w: WorkerId)
    | ADispatchVote(w: WorkerId)
    | AVoteReturn(w: WorkerId, acknowledged: bool, transient: bool)
    | AVoteTransient(w: WorkerId)
    | AVoteGiveUp(w: WorkerId, skipped: bool, bind: bool)
    | ARetryVote(w: WorkerId)
    | AAfterVoteRetry(w: WorkerId)
    | AFinishVote(w: WorkerId)

  /** One step.  An action that is not enabled leaves the world as it is. */
  function Next(cfg: Config, W: World, action: Action): World {
    match action
    case ATick(seconds) => Tick(W, seconds)
    case ASpawn(w, account) => Spawn(W, w, account)
    case ACrash(w) => Crash(W, w)
    case AAbort(w) => Abort(W, w)
    case AEnqueue(event, policyVersion, id) => Enqueue(W, event, policyVersion, id)
    case ARequeue(id) => Requeue(W, id)
    case ASetProjectEnabled(project, enabled) => SetProjectEnabled(W, project, enabled)
    case ASetReviewStartMode(project, mode) => SetReviewStartMode(W, project, mode)
    case AUpsertProject(project, enabled, mode) => UpsertProject(W, project, enabled, mode)
    case AClaim(w, id) => Claim(cfg, W, w, id)
    case AHeartbeat(w, id) => Heartbeat(cfg, W, w, id)
    case AFinishAttempt(id, attempt, outcome) => FinishAttempt(W, id, attempt, outcome)
    case AReviewTransition(w, target) => ReviewTransition(W, w, target)
    case AReviewAttempt(w, stage) => ReviewAttempt(W, w, stage)
    case AReadStreak(w, waited) => ReadStreak(cfg, W, w, waited)
    case AReadConsumed(w) => ReadConsumed(cfg, W, w)
    case AStartReview(w) => StartReview(W, w)
    case ASaveReview(w, review) => SaveReview(W, w, review)
    case AFinishReview(w, outcome) => FinishReview(W, w, outcome)
    case AReadPublication(w) => ReadPublication(W, w)
    case ACheckLatest(w) => CheckLatest(W, w)
    case AEnterPublishing(w) => EnterPublishing(W, w)
    case ABeginPublication(w, payload) => BeginPublication(W, w, payload)
    case AReadMessages(w) => ReadMessages(W, w)
    case ACheckPublishBudget(w) => CheckPublishBudget(cfg, W, w)
    case AStartPublish(w) => StartPublish(W, w)
    case AMarkUncertain(w) => MarkUncertain(W, w)
    case AGuardComments(w) => GuardComments(cfg, W, w)
    case ALand(w) => Land(W, w)
    case ACommentsReturn(w, acknowledged) => CommentsReturn(W, w, acknowledged)
    case AFinishPublishAttempt(w) => FinishPublishAttempt(W, w)
    case ALeave(w) => Leave(W, w)
    case ALeaveFinishAttempt(w, superseded) => LeaveFinishAttempt(W, w, superseded)
    case ALeaveMarkPublication(w, failed) => LeaveMarkPublication(W, w, failed)
    case ALeaveSuperseded(w) => LeaveSuperseded(W, w)
    case ALeaveFailed(w) => LeaveFailed(W, w)
    case AChooseResume(w, publishing) => ChooseResume(W, w, publishing)
    case AReschedule(w, retryAt) => Reschedule(W, w, retryAt)
    case ACompleteNow(w) => CompleteNow(W, w)
    case AEnsureVote(w, decision) => EnsureVote(W, w, decision)
    case ACompleteDeferred(w) => CompleteDeferred(W, w)
    case ALoadVote(w) => LoadVote(W, w)
    case AObserveVote(w, applied) => ObserveVote(cfg, W, w, applied)
    case AGuardVote(w) => GuardVote(cfg, W, w)
    case ADispatchVote(w) => DispatchVote(W, w)
    case AVoteReturn(w, acknowledged, transient) => VoteReturn(W, w, acknowledged, transient)
    case AVoteTransient(w) => VoteTransient(W, w)
    case AVoteGiveUp(w, skipped, bind) => VoteGiveUp(W, w, skipped, bind)
    case ARetryVote(w) => RetryVote(W, w)
    case AAfterVoteRetry(w) => AfterVoteRetry(cfg, W, w)
    case AFinishVote(w) => FinishVote(W, w)
  }

  function Run(cfg: Config, W: World, actions: seq<Action>): World
    decreases |actions|
  {
    if actions == [] then W
    else Next(cfg, Run(cfg, W, actions[..|actions| - 1]), actions[|actions| - 1])
  }
}
