/** What a single step of the protocol may do: to a row, to the log, and to the program counters. */
module ProtocolMoves {
  import opened Wrappers
  import opened StateMachine
  import opened JobRows
  import opened RetryBudget
  import opened Protocol
  import opened ProtocolInvariant
  import opened ProtocolRows
  import opened ProtocolSteps

  /** The idle worker that claims in this step. */
  function ClaimerOf(W: World, action: Action): Option<WorkerId> {
    if action.AClaim? && action.w in W.workers && W.workers[action.w].pc.Idle? then Some(action.w) else None
  }

  /** Results, payloads, bound accounts and terminal votes are final; attempts are only appended; and
      a lease comes to an owner by a claim alone, and is never renewed after it has run out. */
  predicate RowMoves(row: Job, row': Job, claimer: Option<WorkerId>, now: Time, now': Time) {
    && row'.identity == row.identity && row'.patchset == row.patchset && row'.createdAt == row.createdAt
    && (row.result.Some? ==> row'.result == row.result)
    && (row.publication.Some? ==>
          row'.publication.Some? && row'.publication.value.payload == row.publication.value.payload)
    && (row.vote.Some? ==> row'.vote.Some? && VoteMoves(row.vote.value, row'.vote.value))
    && |row.attempts| <= |row'.attempts|
    && (row'.lease.Some? && claimer != Some(row'.lease.value.owner) ==>
          && row.lease.Some? && row.lease.value.owner == row'.lease.value.owner
          && (now' < row'.lease.value.expires ==> now < row.lease.value.expires))
  }

  predicate VoteMoves(vote: Vote, vote': Vote) {
    && vote'.decision == vote.decision
    && (vote.account.Some? ==> vote'.account == vote.account)
    && vote.attempts <= vote'.attempts && vote.retryCount <= vote'.retryCount
    && (IsTerminalVote(vote.status) ==> vote'.status == vote.status)
  }

  /** The job is on its way to a review, now or after a wait. */
  predicate ReviewBound(row: Job) {
    IsReviewState(row.state) || (row.state.RetryWait? && row.retryState.Some? && IsReviewState(row.retryState.value))
  }

  ghost predicate SameReviews(row: Job, row': Job) {
    && row'.epochStart == row.epochStart && EpochReviews(row') == EpochReviews(row)
    && forall a :: IsLast(row.attempts, ReviewStage, a) ==> IsLast(row'.attempts, ReviewStage, a)
  }

  /** What only the steps that are about it may change: REVIEW attempts, retry counts, terminal states, the
      way to a review, and what only the owner of a lease may add. */
  ghost predicate Calm(row: Job, row': Job, action: Action) {
    && (!(action.AStartReview? || action.AFinishReview? || action.ARequeue?) ==> SameReviews(row, row'))
    && (!action.ARetryVote? ==>
          row'.vote.Some? ==> row'.vote.value.retryCount == if row.vote.Some? then row.vote.value.retryCount else 0)
    && (!(action.AEnqueue? || action.ARequeue? || action.ACompleteNow?) ==>
          IsTerminal(row.state) ==> row'.state == row.state)
    && (!(action.AEnqueue? || action.ARequeue?) ==>
          && (ReviewBound(row') ==> ReviewBound(row))
          && (row'.result.Some? && ReviewBound(row') ==> row.result.Some?))
    && (row'.publication.Some? && row.publication.None? ==> row.lease.Some?)
    && (row'.result.Some? && row.result.None? ==> row.lease.Some?)
  }

  /** Only a landing POST touches Gerrit's log, and it appends one entry. */
  predicate Appends(W: World, W': World, action: Action) {
    && W.claimed <= W'.claimed
    && (|| W'.log == W.log
        || (action.ALand? && W' == Land(W, action.w) && W' != W && |W'.log| == |W.log| + 1
            && W'.log[..|W.log|] == W.log && W'.log[|W.log|].job == W.workers[action.w].pc.job
            && (W'.log[|W.log|].kind.CodeReview? ==> W.workers[action.w].pc.VotePosting?)))
  }

  /** A worker that has used up its claim's one retry of the vote, or is leaving without one. */
  predicate Spent(pc: Pc) {
    pc.VoteRetried? || pc.Rescheduling? || pc.VoteFinishing?
  }

  /** Worker `u` goes from `pc` to `pc'`: a claim is the only way to a job, and each read of the REVIEW gate,
      the attempt behind it and the retry of a vote come from the step that is named after them. */
  predicate Follows(cfg: Config, pc: Pc, pc': Pc, u: WorkerId, action: Action) {
    if pc'.Idle? || pc' == pc then true
    else if pc.Idle? then action == AClaim(u, pc'.job) && (pc'.InReview? || pc'.PublishClaimed? || pc'.Leaving?)
    else
      && pc'.job == pc.job
      && (pc'.StreakRead? ==> action.AReadStreak? && action.w == u && pc.InReview?)
      && (pc'.ReviewAllowed? ==> action.AReadConsumed? && action.w == u && pc.StreakRead?)
      && (pc'.ReviewRunning? ==> action.AStartReview? && action.w == u && pc.ReviewAllowed?)
      && (pc'.ReviewSaved? ==>
            action.ASaveReview? && action.w == u && pc.ReviewRunning? && pc'.attempt == pc.attempt)
      && (Spent(pc) ==> Spent(pc'))
      && (pc'.VoteRetried? ==> action.ARetryVote? && action.w == u)
      && (pc'.Rescheduling? ==> pc.Leaving? || (pc.VoteRetried? && (pc.posted || pc.count < cfg.publishAttempts)))
  }

  predicate PcMoves(cfg: Config, W: World, W': World, action: Action, u: WorkerId) {
    u in W'.workers ==>
      if u in W.workers
      then Follows(cfg, W.workers[u].pc, W'.workers[u].pc, u, action) && (W'.workers[u].alive ==> W.workers[u].alive)
      else W'.workers[u].pc.Idle?
  }

  /** The step may have rewritten row `id`, and then by a harmless update; an enqueue alone adds rows. */
  ghost predicate StepsTo(cfg: Config, W: World, W': World, action: Action, id: JobId) {
    && Appends(W, W', action)
    && (forall u :: PcMoves(cfg, W, W', action, u))
    && (id !in W.jobs && id in W'.jobs ==> action.AEnqueue?)
    && (id in W.jobs ==>
          && id in W'.jobs && RowMoves(W.jobs[id], W'.jobs[id], ClaimerOf(W, action), W.now, W'.now)
          && (Inv(cfg, W) ==> Calm(W.jobs[id], W'.jobs[id], action)))
  }

  // ---- Row transactions -------------------------------------------------------------------

  /** A transaction on one row that no claim is part of. */
  ghost predicate Fine(row: Job, r: RowResult, action: Action, now: Time) {
    r.Ok? ==> RowMoves(row, r.value, None, now, now) && Calm(row, r.value, action)
  }

  lemma StaysPut(row: Job, action: Action, now: Time)
    ensures Fine(row, Ok(row), action, now)
  {
  }

  lemma StartsOther(row: Job, stage: Stage, w: WorkerId, action: Action, now: Time)
    requires stage.ReviewStage? ==> action.AStartReview?
    ensures Fine(row, StartAttemptRow(row, stage, w, now), action, now)
  {
    var attempt := Attempt(stage, w, Unfinished);
    if row.epochStart <= |row.attempts| { OutcomesLast(row.attempts, attempt, row.epochStart, ReviewStage); }
    assert EpochReviews(row) + [] == EpochReviews(row);
  }

  lemma FinishesOther(row: Job, a: nat, outcome: Outcome, action: Action, now: Time)
    requires a < |row.attempts| && row.attempts[a].stage.ReviewStage? ==> action.AFinishReview?
    ensures Fine(row, FinishAttemptRow(row, a, outcome), action, now)
  {
    if a < |row.attempts| { OutcomesFinished(row.attempts, row.epochStart, ReviewStage, a, outcome); }
  }

  lemma FinishMovesRow(row: Job, a: nat, outcome: Outcome, now: Time)
    ensures var r := FinishAttemptRow(row, a, outcome); r.Ok? ==> RowMoves(row, r.value, None, now, now)
  {
  }

  lemma LeasedRowMoves(row: Job, target: JobState, resume: JobState, at: Time, w: WorkerId, now: Time)
    ensures var r := TransitionRow(row, target, w, false, now); r.Ok? ==> RowMoves(row, r.value, None, now, now)
    ensures var r := ScheduleRetryRow(row, resume, at, w, now); r.Ok? ==> RowMoves(row, r.value, None, now, now)
  {
    hide CheckTransition;
  }

  lemma ReviewRow(row: Job, target: JobState, w: WorkerId, action: Action, now: Time)
    requires OwnedBy(row, w) ==> IsReviewState(row.state)
    ensures Fine(row, TransitionRow(row, target, w, false, now), action, now)
  {
    hide Outcomes;
  }

  lemma PublishRow(row: Job, w: WorkerId, action: Action, now: Time)
    ensures Fine(row, TransitionRow(row, Publishing, w, false, now), action, now)
  {
    hide Outcomes;
  }

  lemma RetryRow(row: Job, resume: JobState, at: Time, w: WorkerId, action: Action, now: Time)
    requires OwnedBy(row, w) ==> resume == row.state || (row.state.ReadyToPublish? && resume.Publishing?)
    ensures Fine(row, ScheduleRetryRow(row, resume, at, w, now), action, now)
  {
    hide Outcomes;
  }

  lemma SupersededRow(row: Job, w: WorkerId, action: Action, now: Time)
    ensures Fine(row, MarkSupersededRow(row, w, now), action, now)
  {
    hide Outcomes;
  }

  lemma FailedRow(row: Job, w: WorkerId, action: Action, now: Time)
    ensures Fine(row, MarkFailedPermanentRow(row, w, now), action, now)
  {
    hide Outcomes;
  }

  lemma ResultRow(row: Job, review: string, w: WorkerId, action: Action, now: Time)
    ensures Fine(row, SaveReviewResultRow(row, review, w, now), action, now)
  {
    hide Outcomes;
  }

  lemma LeaseRow(row: Job, newer: bool, w: WorkerId, seconds: nat, action: Action, now: Time)
    ensures Fine(row, HeartbeatRow(row, w, seconds, now), action, now)
    ensures Fine(row, Ok(RefreshGuardRow(row, newer, w, seconds, now).1), action, now)
  {
    hide Outcomes;
  }

  lemma PublicationRow(row: Job, payload: string, status: PublicationStatus, w: WorkerId, action: Action, now: Time)
    ensures Fine(row, BeginPublicationRow(row, payload, w, now), action, now)
    ensures Fine(row, MarkPublicationRow(row, status), action, now)
  {
    hide Outcomes;
  }

  lemma CompletionRow(row: Job, w: WorkerId, deferDone: bool, action: Action, now: Time)
    requires !deferDone ==> action.ACompleteNow?
    ensures Fine(row, CompletePublicationRow(row, w, deferDone, now), action, now)
  {
    hide Outcomes;
  }

  lemma VoteRow(row: Job, decision: Option<int>, account: AccountId, w: WorkerId, action: Action, now: Time)
    ensures Fine(row, EnsureVoteRow(row, decision, w, now), action, now)
    ensures Fine(row, DispatchVoteRow(row, account, w, now), action, now)
  {
    hide Outcomes;
  }

  lemma VotedRow(row: Job, status: VoteStatus, account: Option<AccountId>, w: WorkerId, action: Action, now: Time)
    ensures Fine(row, FinishVoteRow(row, status, account, w, now), action, now)
    ensures action.ARetryVote? ==> Fine(row, RetryVoteRow(row, w, now), action, now)
  {
    hide Outcomes;
  }

  // ---- One lemma a step -------------------------------------------------------------------

  lemma OneMoves(cfg: Config, W: World, W': World, w: WorkerId, pc: Pc, action: Action)
    requires w in W.workers && W'.workers == W.workers[w := W.workers[w].(pc := pc)]
    requires Follows(cfg, W.workers[w].pc, pc, w, action)
    ensures forall u :: PcMoves(cfg, W, W', action, u)
  {
    hide Follows;
    NobodyMoves(cfg, action);
  }

  lemma NobodyMoves(cfg: Config, action: Action)
    ensures forall pc, u :: Follows(cfg, pc, Idle, u, action) && Follows(cfg, pc, pc, u, action)
  {
  }

  /** A fenced transaction. */
  lemma CommitMoves(cfg: Config, W: World, w: WorkerId, job: JobId, r: RowResult, pc: Pc, action: Action, id: JobId)
    requires w in W.workers && job in W.jobs && !action.AClaim?
    requires r.Ok? ==> RowMoves(W.jobs[job], r.value, None, W.now, W.now)
    requires r.Ok? && Inv(cfg, W) ==> Calm(W.jobs[job], r.value, action)
    requires Follows(cfg, W.workers[w].pc, pc, w, action)
    ensures StepsTo(cfg, W, Commit(W, w, job, r, pc), action, id)
  {
    hide Inv, RowMoves, Calm, Follows, Land, PcMoves;
    if id in W.jobs { StaysPut(W.jobs[id], action, W.now); }
    NobodyMoves(cfg, action);
    OneMoves(cfg, W, Commit(W, w, job, r, pc), w, if r.Ok? then pc else Idle, action);
  }

  /** The step moves worker `w` alone. */
  predicate Wanders(cfg: Config, W: World, W': World, w: WorkerId, action: Action) {
    W' == W ||
    (w in W.workers && w in W'.workers && W' == Goto(W, w, W'.workers[w].pc)
     && Follows(cfg, W.workers[w].pc, W'.workers[w].pc, w, action))
  }

  lemma WanderMoves(cfg: Config, W: World, W': World, w: WorkerId, action: Action, id: JobId)
    requires Wanders(cfg, W, W', w, action) && !action.AClaim?
    ensures StepsTo(cfg, W, W', action, id)
  {
    hide Inv, RowMoves, Calm, Follows, Land, PcMoves;
    if id in W.jobs { StaysPut(W.jobs[id], action, W.now); }
    if W' == W {
      StandsStill(cfg, W, W', action);
    } else {
      OneMoves(cfg, W, W', w, W'.workers[w].pc, action);
    }
  }

  lemma StandsStill(cfg: Config, W: World, W': World, action: Action)
    requires W'.workers == W.workers
    ensures forall u :: PcMoves(cfg, W, W', action, u)
  {
    hide Follows;
    NobodyMoves(cfg, action);
  }

  /** The step is nobody's. */
  lemma OutsideStep(cfg: Config, W: World, W': World, action: Action, id: JobId)
    requires W'.workers == W.workers && W'.log == W.log && W'.claimed == W.claimed && !action.AClaim?
    requires id !in W.jobs && id in W'.jobs ==> action.AEnqueue?
    requires id in W.jobs ==>
      && id in W'.jobs && RowMoves(W.jobs[id], W'.jobs[id], None, W.now, W'.now)
      && Calm(W.jobs[id], W'.jobs[id], action)
    ensures StepsTo(cfg, W, W', action, id)
  {
    hide Inv, Calm, RowMoves, Land, PcMoves;
    StandsStill(cfg, W, W', action);
  }

  lemma EnqueueMoves(cfg: Config, W: World, event: Event, policyVersion: string, target: JobId, id: JobId)
    ensures StepsTo(cfg, W, Enqueue(W, event, policyVersion, target), AEnqueue(event, policyVersion, target), id)
  {
    hide RowMoves, Calm, Inv, StepsTo;
    var action := AEnqueue(event, policyVersion, target);
    if id in W.jobs { OrderingMoves(W, event, policyVersion, target, id); }
    OutsideStep(cfg, W, Enqueue(W, event, policyVersion, target), action, id);
  }

  lemma OrderingMoves(W: World, event: Event, policyVersion: string, target: JobId, id: JobId)
    requires id in W.jobs
    ensures var action := AEnqueue(event, policyVersion, target);
            var jobs' := EnqueueAt(W.jobs, W.projects, event, policyVersion, target, W.now);
            && id in jobs' && RowMoves(W.jobs[id], jobs'[id], None, W.now, W.now) && Calm(W.jobs[id], jobs'[id], action)
            && RowMoves(W.jobs[id], W.jobs[id], None, W.now, W.now) && Calm(W.jobs[id], W.jobs[id], action)
  {
    hide HasNewer, Revives, PredatesScope, NeedsPublishRecovery, Elder, Outcomes;
  }

  lemma AdminMoves(cfg: Config, W: World, project: string, enabled: bool, mode: StartMode, id: JobId)
    ensures StepsTo(cfg, W, SetProjectEnabled(W, project, enabled), ASetProjectEnabled(project, enabled), id)
    ensures StepsTo(cfg, W, SetReviewStartMode(W, project, mode), ASetReviewStartMode(project, mode), id)
    ensures StepsTo(cfg, W, UpsertProject(W, project, enabled, mode), AUpsertProject(project, enabled, mode), id)
  {
    hide RowMoves, Calm, Inv, PreCutoff, StepsTo;
    if id in W.jobs {
      SkippedMoves(W.jobs[id], project, ASetProjectEnabled(project, enabled), W.now);
      SkippedMoves(W.jobs[id], project, ASetReviewStartMode(project, mode), W.now);
      SkippedMoves(W.jobs[id], project, AUpsertProject(project, enabled, mode), W.now);
    }
    OutsideStep(cfg, W, SetProjectEnabled(W, project, enabled), ASetProjectEnabled(project, enabled), id);
    OutsideStep(cfg, W, SetReviewStartMode(W, project, mode), ASetReviewStartMode(project, mode), id);
    OutsideStep(cfg, W, UpsertProject(W, project, enabled, mode), AUpsertProject(project, enabled, mode), id);
  }

  lemma SkippedMoves(row: Job, project: string, action: Action, now: Time)
    ensures Fine(row, Ok(row), action, now)
    ensures PreCutoff(row, project, now, now) ==>
      Fine(row, Ok(row.(state := SkippedScope, retryState := None, lease := None)), action, now)
  {
    hide Outcomes;
  }

  lemma TickMoves(cfg: Config, W: World, seconds: nat, id: JobId)
    ensures StepsTo(cfg, W, Tick(W, seconds), ATick(seconds), id)
  {
    hide Inv, StepsTo, Calm;
    if id in W.jobs { StaysPut(W.jobs[id], ATick(seconds), W.now); }
    OutsideStep(cfg, W, Tick(W, seconds), ATick(seconds), id);
  }

  lemma TableMoves(cfg: Config, W: World, w: WorkerId, account: AccountId, id: JobId)
    ensures StepsTo(cfg, W, Spawn(W, w, account), ASpawn(w, account), id)
    ensures StepsTo(cfg, W, Crash(W, w), ACrash(w), id)
  {
    hide Inv, RowMoves, Calm;
    if id in W.jobs {
      StaysPut(W.jobs[id], ASpawn(w, account), W.now);
      StaysPut(W.jobs[id], ACrash(w), W.now);
    }
  }

  lemma AbortMoves(cfg: Config, W: World, w: WorkerId, id: JobId)
    ensures StepsTo(cfg, W, Abort(W, w), AAbort(w), id)
  {
    hide Inv, StepsTo;
    WanderMoves(cfg, W, Abort(W, w), w, AAbort(w), id);
  }

  lemma ClaimMoves(cfg: Config, W: World, w: WorkerId, target: JobId, id: JobId)
    ensures StepsTo(cfg, W, Claim(cfg, W, w, target), AClaim(w, target), id)
  {
    hide Inv, HasNewer, Outcomes, Land, RowMoves, Calm;
    if id in W.jobs { ClaimMovesRow(cfg, W, w, target, id); }
  }

  lemma ClaimMovesRow(cfg: Config, W: World, w: WorkerId, target: JobId, id: JobId)
    requires id in W.jobs
    ensures var W', action := Claim(cfg, W, w, target), AClaim(w, target);
            && id in W'.jobs && RowMoves(W.jobs[id], W'.jobs[id], ClaimerOf(W, action), W.now, W'.now)
            && Calm(W.jobs[id], W'.jobs[id], action)
  {
    hide HasNewer, Outcomes;
  }

  lemma HeartbeatMoves(cfg: Config, W: World, w: WorkerId, target: JobId, id: JobId)
    ensures StepsTo(cfg, W, Heartbeat(cfg, W, w, target), AHeartbeat(w, target), id)
  {
    hide Inv, RowMoves, Calm, StepsTo;
    if id in W.jobs {
      LeaseRow(W.jobs[id], false, w, cfg.leaseSeconds, AHeartbeat(w, target), W.now);
      StaysPut(W.jobs[id], AHeartbeat(w, target), W.now);
    }
    OutsideStep(cfg, W, Heartbeat(cfg, W, w, target), AHeartbeat(w, target), id);
  }

  lemma FinishAttemptMoves(cfg: Config, W: World, target: JobId, a: nat, outcome: Outcome, id: JobId)
    ensures StepsTo(cfg, W, FinishAttempt(W, target, a, outcome), AFinishAttempt(target, a, outcome), id)
  {
    hide Inv, RowMoves, Calm, FinishAttemptRow, StepsTo;
    var action := AFinishAttempt(target, a, outcome);
    if id in W.jobs {
      if a < |W.jobs[id].attempts| && !W.jobs[id].attempts[a].stage.ReviewStage? {
        FinishesOther(W.jobs[id], a, outcome, action, W.now);
      }
      StaysPut(W.jobs[id], action, W.now);
    }
    OutsideStep(cfg, W, FinishAttempt(W, target, a, outcome), action, id);
  }

  lemma RequeueMoves(cfg: Config, W: World, target: JobId, id: JobId)
    ensures StepsTo(cfg, W, Requeue(W, target), ARequeue(target), id)
  {
    hide Inv, HasNewer, Outcomes;
  }

  /** What a worker knows of its attempt and of a row it owns. */
  lemma OwnFacts(cfg: Config, W: World, w: WorkerId)
    requires Inv(cfg, W) && Acting(W, w)
    ensures var pc, row := W.workers[w].pc, W.jobs[W.workers[w].pc.job];
            && (pc.Acknowledged? ==> pc.attempt < |row.attempts| && row.attempts[pc.attempt].stage.PublishStage?)
            && (pc.Leaving? && pc.open.Some? ==>
                  pc.open.value < |row.attempts| && row.attempts[pc.open.value].stage.PublishStage?)
            && (HasReview(pc) && OwnedBy(row, w) ==> IsReviewState(row.state))
            && (pc.Rescheduling? && OwnedBy(row, w) ==>
                  pc.resume == row.state || (row.state.ReadyToPublish? && pc.resume.Publishing?))
  {
    hide Inv, ViewOk, Landed;
    ActingOk(cfg, W, w);
  }

  lemma ReviewMoves(cfg: Config, W: World, w: WorkerId, target: JobState, id: JobId)
    ensures StepsTo(cfg, W, ReviewTransition(W, w, target), AReviewTransition(w, target), id)
  {
    var action := AReviewTransition(w, target);
    hide Inv, RowMoves, Calm, TransitionRow;
    WanderMoves(cfg, W, W, w, action, id);
    if Acting(W, w) && HasReview(W.workers[w].pc) {
      var pc := W.workers[w].pc;
      var row := W.jobs[pc.job];
      LeasedRowMoves(row, target, Publishing, 0, w, W.now);
      if Inv(cfg, W) {
        OwnFacts(cfg, W, w);
        ReviewRow(row, target, w, action, W.now);
      }
      CommitMoves(cfg, W, w, pc.job, TransitionRow(row, target, w, false, W.now), pc, action, id);
    }
  }

  lemma EnterMoves(cfg: Config, W: World, w: WorkerId, id: JobId)
    ensures StepsTo(cfg, W, EnterPublishing(W, w), AEnterPublishing(w), id)
  {
    var action := AEnterPublishing(w);
    hide Inv, RowMoves, Calm, TransitionRow;
    if EnterPublishing(W, w) == W {
      WanderMoves(cfg, W, W, w, action, id);
    } else {
      var pc := W.workers[w].pc;
      PublishRow(W.jobs[pc.job], w, action, W.now);
      CommitMoves(cfg, W, w, pc.job, TransitionRow(W.jobs[pc.job], Publishing, w, false, W.now),
                  InPublishing(pc.job, pc.seen), action, id);
    }
  }

  lemma ReviewAttemptMoves(cfg: Config, W: World, w: WorkerId, stage: Stage, id: JobId)
    ensures StepsTo(cfg, W, ReviewAttempt(W, w, stage), AReviewAttempt(w, stage), id)
  {
    var action := AReviewAttempt(w, stage);
    hide Inv, RowMoves, Calm, StartAttemptRow;
    if ReviewAttempt(W, w, stage) == W {
      WanderMoves(cfg, W, W, w, action, id);
    } else {
      var pc := W.workers[w].pc;
      StartsOther(W.jobs[pc.job], stage, w, action, W.now);
      CommitMoves(cfg, W, w, pc.job, StartAttemptRow(W.jobs[pc.job], stage, w, W.now), pc, action, id);
    }
  }

  lemma StartMoves(cfg: Config, W: World, w: WorkerId, id: JobId)
    ensures StepsTo(cfg, W, StartPublish(W, w), AStartPublish(w), id)
    ensures StepsTo(cfg, W, StartReview(W, w), AStartReview(w), id)
  {
    hide Inv, RowMoves, Calm, StartAttemptRow;
    WanderMoves(cfg, W, W, w, AStartPublish(w), id);
    WanderMoves(cfg, W, W, w, AStartReview(w), id);
    if Acting(W, w) {
      var pc := W.workers[w].pc;
      var row := W.jobs[pc.job];
      StartsOther(row, PublishStage, w, AStartPublish(w), W.now);
      StartsOther(row, ReviewStage, w, AStartReview(w), W.now);
      CommitMoves(cfg, W, w, pc.job, StartAttemptRow(row, PublishStage, w, W.now), StartPublish(W, w).workers[w].pc,
                  AStartPublish(w), id);
      CommitMoves(cfg, W, w, pc.job, StartAttemptRow(row, ReviewStage, w, W.now), StartReview(W, w).workers[w].pc,
                  AStartReview(w), id);
    }
  }

  lemma SaveReviewMoves(cfg: Config, W: World, w: WorkerId, review: string, id: JobId)
    ensures StepsTo(cfg, W, SaveReview(W, w, review), ASaveReview(w, review), id)
  {
    var action := ASaveReview(w, review);
    hide Inv, RowMoves, Calm, SaveReviewResultRow;
    WanderMoves(cfg, W, W, w, action, id);
    if Acting(W, w) {
      var pc := W.workers[w].pc;
      var row := W.jobs[pc.job];
      ResultRow(row, review, w, action, W.now);
      CommitMoves(cfg, W, w, pc.job, SaveReviewResultRow(row, review, w, W.now), SaveReview(W, w, review).workers[w].pc,
                  action, id);
    }
  }

  lemma FinishReviewMoves(cfg: Config, W: World, w: WorkerId, outcome: Outcome, id: JobId)
    ensures StepsTo(cfg, W, FinishReview(W, w, outcome), AFinishReview(w, outcome), id)
  {
    var action := AFinishReview(w, outcome);
    hide Inv, RowMoves, Calm, FinishAttemptRow;
    WanderMoves(cfg, W, W, w, action, id);
    if Acting(W, w) && (W.workers[w].pc.ReviewRunning? || W.workers[w].pc.ReviewSaved?) {
      var pc := W.workers[w].pc;
      var row := W.jobs[pc.job];
      FinishesOther(row, pc.attempt, outcome, action, W.now);
      CommitMoves(cfg, W, w, pc.job, FinishAttemptRow(row, pc.attempt, outcome),
                  FinishReview(W, w, outcome).workers[w].pc, action, id);
    }
  }

  lemma BeginMoves(cfg: Config, W: World, w: WorkerId, payload: string, id: JobId)
    ensures StepsTo(cfg, W, BeginPublication(W, w, payload), ABeginPublication(w, payload), id)
  {
    hide Inv, RowMoves, Calm, BeginPublicationRow, StartAttemptRow, StepsTo, Follows;
    var W', action := BeginPublication(W, w, payload), ABeginPublication(w, payload);
    BeginFollows(cfg, W, w, payload);
    if W'.jobs == W.jobs {
      WanderMoves(cfg, W, W', w, action, id);
    } else {
      var row := W.jobs[W.workers[w].pc.job];
      PublicationRow(row, payload, Pending, w, action, W.now);
      StartsOther(row, ReconcileStage, w, action, W.now);
      var r := if W.workers[w].pc.seen.None? then BeginPublicationRow(row, payload, w, W.now)
               else StartAttemptRow(row, ReconcileStage, w, W.now);
      CommitMoves(cfg, W, w, W.workers[w].pc.job, r, W'.workers[w].pc, action, id);
    }
  }

  lemma BeginFollows(cfg: Config, W: World, w: WorkerId, payload: string)
    ensures var W' := BeginPublication(W, w, payload);
            W' == W
            || (w in W.workers && w in W'.workers
                && Follows(cfg, W.workers[w].pc, W'.workers[w].pc, w, ABeginPublication(w, payload)))
  {
    hide BeginPublicationRow, StartAttemptRow;
  }

  lemma MarkUncertainMoves(cfg: Config, W: World, w: WorkerId, id: JobId)
    ensures StepsTo(cfg, W, MarkUncertain(W, w), AMarkUncertain(w), id)
  {
    hide Inv, RowMoves, Calm, HasNewer, MarkPublicationRow, StepsTo;
    WanderMoves(cfg, W, W, w, AMarkUncertain(w), id);
    if Acting(W, w) {
      var pc := W.workers[w].pc;
      PublicationRow(W.jobs[pc.job], "", Ambiguous, w, AMarkUncertain(w), W.now);
      CommitMoves(cfg, W, w, pc.job, MarkPublicationRow(W.jobs[pc.job], Ambiguous), MarkUncertain(W, w).workers[w].pc,
                  AMarkUncertain(w), id);
    }
  }

  lemma GuardMoves(cfg: Config, W: World, w: WorkerId, id: JobId)
    ensures StepsTo(cfg, W, GuardComments(cfg, W, w), AGuardComments(w), id)
  {
    hide Inv, RowMoves, Calm, HasNewer, RefreshGuardRow;
    WanderMoves(cfg, W, W, w, AGuardComments(w), id);
    if Acting(W, w) {
      var pc := W.workers[w].pc;
      var row := W.jobs[pc.job];
      LeaseRow(row, Newer(W, pc.job), w, cfg.leaseSeconds, AGuardComments(w), W.now);
      var guarded := RefreshGuardRow(row, Newer(W, pc.job), w, cfg.leaseSeconds, W.now);
      CommitMoves(cfg, W, w, pc.job, Ok(guarded.1), Idle, AGuardComments(w), id);
      CommitMoves(cfg, W, w, pc.job, Err(NotFound), Idle, AGuardComments(w), id);
    }
  }

  lemma AcknowledgeMoves(cfg: Config, W: World, w: WorkerId, id: JobId)
    ensures StepsTo(cfg, W, FinishPublishAttempt(W, w), AFinishPublishAttempt(w), id)
  {
    var action := AFinishPublishAttempt(w);
    hide Inv, RowMoves, Calm, FinishAttemptRow;
    WanderMoves(cfg, W, W, w, action, id);
    if Acting(W, w) && W.workers[w].pc.Acknowledged? {
      var pc := W.workers[w].pc;
      var row := W.jobs[pc.job];
      FinishMovesRow(row, pc.attempt, Succeeded, W.now);
      if Inv(cfg, W) {
        OwnFacts(cfg, W, w);
        FinishesOther(row, pc.attempt, Succeeded, action, W.now);
      }
      CommitMoves(cfg, W, w, pc.job, FinishAttemptRow(row, pc.attempt, Succeeded), Completing(pc.job, true), action, id);
    }
  }

  lemma FinishMoves(cfg: Config, W: World, w: WorkerId, superseded: bool, id: JobId)
    ensures StepsTo(cfg, W, LeaveFinishAttempt(W, w, superseded), ALeaveFinishAttempt(w, superseded), id)
  {
    var action := ALeaveFinishAttempt(w, superseded);
    hide Inv, RowMoves, Calm, FinishAttemptRow;
    WanderMoves(cfg, W, W, w, action, id);
    if Acting(W, w) && W.workers[w].pc.Leaving? && W.workers[w].pc.open.Some? {
      var pc := W.workers[w].pc;
      var row := W.jobs[pc.job];
      var outcome := if superseded && !pc.dispatched then Succeeded else Failed(false);
      FinishMovesRow(row, pc.open.value, outcome, W.now);
      if Inv(cfg, W) {
        OwnFacts(cfg, W, w);
        FinishesOther(row, pc.open.value, outcome, action, W.now);
      }
      CommitMoves(cfg, W, w, pc.job, FinishAttemptRow(row, pc.open.value, outcome), pc, action, id);
    }
  }

  lemma MarkMoves(cfg: Config, W: World, w: WorkerId, failed: bool, id: JobId)
    ensures StepsTo(cfg, W, LeaveMarkPublication(W, w, failed), ALeaveMarkPublication(w, failed), id)
  {
    var action, status := ALeaveMarkPublication(w, failed), if failed then PublicationFailed else Ambiguous;
    hide Inv, RowMoves, Calm, MarkPublicationRow;
    WanderMoves(cfg, W, W, w, action, id);
    if Acting(W, w) {
      var pc := W.workers[w].pc;
      PublicationRow(W.jobs[pc.job], "", status, w, action, W.now);
      CommitMoves(cfg, W, w, pc.job, MarkPublicationRow(W.jobs[pc.job], status), pc, action, id);
    }
  }

  lemma ExitMoves(cfg: Config, W: World, w: WorkerId, id: JobId)
    ensures StepsTo(cfg, W, LeaveSuperseded(W, w), ALeaveSuperseded(w), id)
    ensures StepsTo(cfg, W, LeaveFailed(W, w), ALeaveFailed(w), id)
  {
    hide Inv, RowMoves, Calm, MarkSupersededRow, MarkFailedPermanentRow;
    WanderMoves(cfg, W, W, w, ALeaveSuperseded(w), id);
    WanderMoves(cfg, W, W, w, ALeaveFailed(w), id);
    if Acting(W, w) {
      var pc := W.workers[w].pc;
      var row := W.jobs[pc.job];
      SupersededRow(row, w, ALeaveSuperseded(w), W.now);
      FailedRow(row, w, ALeaveFailed(w), W.now);
      CommitMoves(cfg, W, w, pc.job, MarkSupersededRow(row, w, W.now), Idle, ALeaveSuperseded(w), id);
      CommitMoves(cfg, W, w, pc.job, MarkFailedPermanentRow(row, w, W.now), Idle, ALeaveFailed(w), id);
    }
  }

  lemma RescheduleMoves(cfg: Config, W: World, w: WorkerId, retryAt: Time, id: JobId)
    ensures StepsTo(cfg, W, Reschedule(W, w, retryAt), AReschedule(w, retryAt), id)
  {
    var action := AReschedule(w, retryAt);
    hide Inv, RowMoves, Calm, ScheduleRetryRow;
    WanderMoves(cfg, W, W, w, action, id);
    if Acting(W, w) && W.workers[w].pc.Rescheduling? {
      var pc := W.workers[w].pc;
      var row := W.jobs[pc.job];
      LeasedRowMoves(row, Publishing, pc.resume, retryAt, w, W.now);
      if Inv(cfg, W) {
        OwnFacts(cfg, W, w);
        RetryRow(row, pc.resume, retryAt, w, action, W.now);
      }
      CommitMoves(cfg, W, w, pc.job, ScheduleRetryRow(row, pc.resume, retryAt, w, W.now), Idle, action, id);
    }
  }

  lemma CompletingMoves(cfg: Config, W: World, w: WorkerId, id: JobId)
    ensures StepsTo(cfg, W, CompleteNow(W, w), ACompleteNow(w), id)
    ensures StepsTo(cfg, W, CompleteDeferred(W, w), ACompleteDeferred(w), id)
  {
    hide Inv, RowMoves, Calm, CompletePublicationRow;
    WanderMoves(cfg, W, W, w, ACompleteNow(w), id);
    WanderMoves(cfg, W, W, w, ACompleteDeferred(w), id);
    if Acting(W, w) {
      var pc := W.workers[w].pc;
      var row := W.jobs[pc.job];
      CompletionRow(row, w, false, ACompleteNow(w), W.now);
      CompletionRow(row, w, true, ACompleteDeferred(w), W.now);
      CommitMoves(cfg, W, w, pc.job, CompletePublicationRow(row, w, false, W.now), Idle, ACompleteNow(w), id);
      CommitMoves(cfg, W, w, pc.job, CompletePublicationRow(row, w, true, W.now),
                  CompleteDeferred(W, w).workers[w].pc, ACompleteDeferred(w), id);
    }
  }

  lemma IntentMoves(cfg: Config, W: World, w: WorkerId, decision: Option<int>, id: JobId)
    ensures StepsTo(cfg, W, EnsureVote(W, w, decision), AEnsureVote(w, decision), id)
    ensures StepsTo(cfg, W, DispatchVote(W, w), ADispatchVote(w), id)
  {
    hide Inv, RowMoves, Calm, EnsureVoteRow, DispatchVoteRow;
    WanderMoves(cfg, W, W, w, AEnsureVote(w, decision), id);
    WanderMoves(cfg, W, W, w, ADispatchVote(w), id);
    if Acting(W, w) {
      var pc, account := W.workers[w].pc, W.workers[w].account;
      var row := W.jobs[pc.job];
      VoteRow(row, decision, account, w, AEnsureVote(w, decision), W.now);
      VoteRow(row, decision, account, w, ADispatchVote(w), W.now);
      CommitMoves(cfg, W, w, pc.job, EnsureVoteRow(row, decision, w, W.now), EnsureVote(W, w, decision).workers[w].pc,
                  AEnsureVote(w, decision), id);
      CommitMoves(cfg, W, w, pc.job, DispatchVoteRow(row, account, w, W.now), DispatchVote(W, w).workers[w].pc,
                  ADispatchVote(w), id);
    }
  }

  lemma VoteGuardMoves(cfg: Config, W: World, w: WorkerId, id: JobId)
    ensures StepsTo(cfg, W, GuardVote(cfg, W, w), AGuardVote(w), id)
  {
    hide Inv, RowMoves, Calm, HasNewer, RefreshGuardRow;
    var W' := GuardVote(cfg, W, w);
    if W'.jobs == W.jobs {
      WanderMoves(cfg, W, W', w, AGuardVote(w), id);
    } else {
      var pc := W.workers[w].pc;
      var row := W.jobs[pc.job];
      LeaseRow(row, Newer(W, pc.job), w, cfg.leaseSeconds, AGuardVote(w), W.now);
      CommitMoves(cfg, W, w, pc.job, Ok(RefreshGuardRow(row, Newer(W, pc.job), w, cfg.leaseSeconds, W.now).1),
                  W'.workers[w].pc, AGuardVote(w), id);
    }
  }

  lemma VotingMoves(cfg: Config, W: World, w: WorkerId, id: JobId)
    ensures StepsTo(cfg, W, RetryVote(W, w), ARetryVote(w), id)
    ensures StepsTo(cfg, W, FinishVote(W, w), AFinishVote(w), id)
  {
    hide Inv, RowMoves, Calm, RetryVoteRow, FinishVoteRow;
    WanderMoves(cfg, W, W, w, ARetryVote(w), id);
    WanderMoves(cfg, W, W, w, AFinishVote(w), id);
    if Acting(W, w) {
      var pc := W.workers[w].pc;
      var row := W.jobs[pc.job];
      VotedRow(row, VoteFailed, None, w, ARetryVote(w), W.now);
      CommitMoves(cfg, W, w, pc.job, RetryVoteRow(row, w, W.now), RetryVote(W, w).workers[w].pc, ARetryVote(w), id);
      if pc.VoteFinishing? {
        VotedRow(row, pc.status, pc.account, w, AFinishVote(w), W.now);
        CommitMoves(cfg, W, w, pc.job, FinishVoteRow(row, pc.status, pc.account, w, W.now), Idle, AFinishVote(w), id);
      }
    }
  }

  lemma GateWanders(cfg: Config, W: World, w: WorkerId, waited: bool)
    ensures Wanders(cfg, W, ReadStreak(cfg, W, w, waited), w, AReadStreak(w, waited))
    ensures Wanders(cfg, W, ReadConsumed(cfg, W, w), w, AReadConsumed(w))
  {
    hide ConsumedAttempts, EpochReviews, Streak;
  }

  lemma PublicationReadWanders(cfg: Config, W: World, w: WorkerId)
    ensures Wanders(cfg, W, ReadPublication(W, w), w, AReadPublication(w))
  {
  }

  lemma LatestWanders(cfg: Config, W: World, w: WorkerId)
    ensures Wanders(cfg, W, CheckLatest(W, w), w, ACheckLatest(w))
  {
    hide HasNewer;
  }

  lemma ChecksWander(cfg: Config, W: World, w: WorkerId)
    ensures Wanders(cfg, W, ReadMessages(W, w), w, AReadMessages(w))
    ensures Wanders(cfg, W, CheckPublishBudget(cfg, W, w), w, ACheckPublishBudget(w))
  {
    hide Landed, ConsumedAttempts;
  }

  lemma LandMoves(cfg: Config, W: World, w: WorkerId, id: JobId)
    ensures StepsTo(cfg, W, Land(W, w), ALand(w), id)
  {
    hide Inv, RowMoves, Calm;
    if id in W.jobs { StaysPut(W.jobs[id], ALand(w), W.now); }
  }

  lemma ReturnsWander(cfg: Config, W: World, w: WorkerId, a: bool)
    ensures Wanders(cfg, W, CommentsReturn(W, w, a), w, ACommentsReturn(w, a))
    ensures Wanders(cfg, W, ChooseResume(W, w, a), w, AChooseResume(w, a))
    ensures Wanders(cfg, W, LoadVote(W, w), w, ALoadVote(w))
  {
  }

  lemma LeaveWanders(cfg: Config, W: World, w: WorkerId)
    ensures Wanders(cfg, W, Leave(W, w), w, ALeave(w))
  {
  }

  lemma VoteReadWanders(cfg: Config, W: World, w: WorkerId, a: bool)
    ensures Wanders(cfg, W, ObserveVote(cfg, W, w, a), w, AObserveVote(w, a))
  {
    hide MarkerFound;
  }

  lemma VoteReplyWanders(cfg: Config, W: World, w: WorkerId, a: bool, b: bool)
    ensures Wanders(cfg, W, VoteReturn(W, w, a, b), w, AVoteReturn(w, a, b))
  {
  }

  lemma FailuresWander(cfg: Config, W: World, w: WorkerId, a: bool, b: bool)
    ensures Wanders(cfg, W, VoteTransient(W, w), w, AVoteTransient(w))
    ensures Wanders(cfg, W, VoteGiveUp(W, w, a, b), w, AVoteGiveUp(w, a, b))
    ensures Wanders(cfg, W, AfterVoteRetry(cfg, W, w), w, AAfterVoteRetry(w))
  {
  }

  lemma GateReadMoves(cfg: Config, W: World, w: WorkerId, waited: bool, id: JobId)
    ensures StepsTo(cfg, W, ReadStreak(cfg, W, w, waited), AReadStreak(w, waited), id)
    ensures StepsTo(cfg, W, ReadConsumed(cfg, W, w), AReadConsumed(w), id)
  {
    hide *;
    GateWanders(cfg, W, w, waited);
    WanderMoves(cfg, W, ReadStreak(cfg, W, w, waited), w, AReadStreak(w, waited), id);
    WanderMoves(cfg, W, ReadConsumed(cfg, W, w), w, AReadConsumed(w), id);
  }

  lemma ReadMoves(cfg: Config, W: World, w: WorkerId, id: JobId)
    ensures StepsTo(cfg, W, ReadPublication(W, w), AReadPublication(w), id)
    ensures StepsTo(cfg, W, CheckLatest(W, w), ACheckLatest(w), id)
  {
    hide *;
    PublicationReadWanders(cfg, W, w);
    LatestWanders(cfg, W, w);
    WanderMoves(cfg, W, ReadPublication(W, w), w, AReadPublication(w), id);
    WanderMoves(cfg, W, CheckLatest(W, w), w, ACheckLatest(w), id);
  }

  lemma CheckMoves(cfg: Config, W: World, w: WorkerId, id: JobId)
    ensures StepsTo(cfg, W, ReadMessages(W, w), AReadMessages(w), id)
    ensures StepsTo(cfg, W, CheckPublishBudget(cfg, W, w), ACheckPublishBudget(w), id)
  {
    hide *;
    ChecksWander(cfg, W, w);
    WanderMoves(cfg, W, ReadMessages(W, w), w, AReadMessages(w), id);
    WanderMoves(cfg, W, CheckPublishBudget(cfg, W, w), w, ACheckPublishBudget(w), id);
  }

  lemma ReturnMoves(cfg: Config, W: World, w: WorkerId, a: bool, id: JobId)
    ensures StepsTo(cfg, W, CommentsReturn(W, w, a), ACommentsReturn(w, a), id)
    ensures StepsTo(cfg, W, ChooseResume(W, w, a), AChooseResume(w, a), id)
    ensures StepsTo(cfg, W, LoadVote(W, w), ALoadVote(w), id)
  {
    hide *;
    ReturnsWander(cfg, W, w, a);
    WanderMoves(cfg, W, CommentsReturn(W, w, a), w, ACommentsReturn(w, a), id);
    WanderMoves(cfg, W, ChooseResume(W, w, a), w, AChooseResume(w, a), id);
    WanderMoves(cfg, W, LoadVote(W, w), w, ALoadVote(w), id);
  }

  lemma LeaveMoves(cfg: Config, W: World, w: WorkerId, id: JobId)
    ensures StepsTo(cfg, W, Leave(W, w), ALeave(w), id)
  {
    hide *;
    LeaveWanders(cfg, W, w);
    WanderMoves(cfg, W, Leave(W, w), w, ALeave(w), id);
  }

  lemma VoteReadMoves(cfg: Config, W: World, w: WorkerId, a: bool, b: bool, id: JobId)
    ensures StepsTo(cfg, W, ObserveVote(cfg, W, w, a), AObserveVote(w, a), id)
    ensures StepsTo(cfg, W, VoteReturn(W, w, a, b), AVoteReturn(w, a, b), id)
  {
    hide *;
    VoteReadWanders(cfg, W, w, a);
    VoteReplyWanders(cfg, W, w, a, b);
    WanderMoves(cfg, W, ObserveVote(cfg, W, w, a), w, AObserveVote(w, a), id);
    WanderMoves(cfg, W, VoteReturn(W, w, a, b), w, AVoteReturn(w, a, b), id);
  }

  lemma FailureMoves(cfg: Config, W: World, w: WorkerId, a: bool, b: bool, id: JobId)
    ensures StepsTo(cfg, W, VoteTransient(W, w), AVoteTransient(w), id)
    ensures StepsTo(cfg, W, VoteGiveUp(W, w, a, b), AVoteGiveUp(w, a, b), id)
    ensures StepsTo(cfg, W, AfterVoteRetry(cfg, W, w), AAfterVoteRetry(w), id)
  {
    hide *;
    FailuresWander(cfg, W, w, a, b);
    WanderMoves(cfg, W, VoteTransient(W, w), w, AVoteTransient(w), id);
    WanderMoves(cfg, W, VoteGiveUp(W, w, a, b), w, AVoteGiveUp(w, a, b), id);
    WanderMoves(cfg, W, AfterVoteRetry(cfg, W, w), w, AAfterVoteRetry(w), id);
  }

  // ---- All steps --------------------------------------------------------------------------

  /** Every step of the protocol is one of these. */
  lemma StepMoves(cfg: Config, W: World, action: Action, id: JobId)
    ensures StepsTo(cfg, W, Next(cfg, W, action), action, id)
  {
    hide StepsTo, Abort, AfterVoteRetry, BeginPublication, CheckLatest, CheckPublishBudget, ChooseResume, Claim,
         CommentsReturn, CompleteDeferred, CompleteNow, Crash, DispatchVote, Enqueue, EnsureVote, EnterPublishing,
         FinishAttempt, FinishPublishAttempt, FinishReview, FinishVote, Goto, GuardComments, GuardVote, Heartbeat,
         Land, Leave, LeaveFailed, LeaveFinishAttempt, LeaveMarkPublication, LeaveSuperseded, LoadVote,
         MarkUncertain, ObserveVote, ReadConsumed, ReadMessages, ReadPublication, ReadStreak, Requeue, Reschedule,
         RetryVote, ReviewAttempt, ReviewTransition, SaveReview, SetProjectEnabled, SetReviewStartMode, Spawn,
         StartPublish, StartReview, Tick, UpsertProject, VoteGiveUp, VoteReturn, VoteTransient;
    if action.ATick? {
      TickMoves(cfg, W, action.seconds, id);
    } else if action.ASpawn? {
      TableMoves(cfg, W, action.w, action.account, id);
    } else if action.ACrash? {
      TableMoves(cfg, W, action.w, 0, id);
    } else if action.AAbort? {
      AbortMoves(cfg, W, action.w, id);
    } else if action.AEnqueue? {
      EnqueueMoves(cfg, W, action.event, action.policyVersion, action.id, id);
    } else if action.ARequeue? {
      RequeueMoves(cfg, W, action.id, id);
    } else if action.ASetProjectEnabled? {
      AdminMoves(cfg, W, action.project, action.enabled, FromNow, id);
    } else if action.ASetReviewStartMode? {
      AdminMoves(cfg, W, action.project, true, action.mode, id);
    } else if action.AUpsertProject? {
      AdminMoves(cfg, W, action.project, action.enabled, action.mode, id);
    } else if action.AClaim? {
      ClaimMoves(cfg, W, action.w, action.id, id);
    } else if action.AHeartbeat? {
      HeartbeatMoves(cfg, W, action.w, action.id, id);
    } else if action.AFinishAttempt? {
      FinishAttemptMoves(cfg, W, action.id, action.attempt, action.outcome, id);
    } else if action.AReviewTransition? {
      ReviewMoves(cfg, W, action.w, action.target, id);
    } else if action.AReviewAttempt? {
      ReviewAttemptMoves(cfg, W, action.w, action.stage, id);
    } else if action.AReadStreak? {
      GateReadMoves(cfg, W, action.w, action.waited, id);
    } else if action.AReadConsumed? {
      GateReadMoves(cfg, W, action.w, true, id);
    } else if action.AStartReview? {
      StartMoves(cfg, W, action.w, id);
    } else if action.ASaveReview? {
      SaveReviewMoves(cfg, W, action.w, action.review, id);
    } else if action.AFinishReview? {
      FinishReviewMoves(cfg, W, action.w, action.outcome, id);
    } else if action.AReadPublication? {
      ReadMoves(cfg, W, action.w, id);
    } else if action.ACheckLatest? {
      ReadMoves(cfg, W, action.w, id);
    } else if action.AEnterPublishing? {
      EnterMoves(cfg, W, action.w, id);
    } else if action.ABeginPublication? {
      BeginMoves(cfg, W, action.w, action.payload, id);
    } else if action.AReadMessages? {
      CheckMoves(cfg, W, action.w, id);
    } else if action.ACheckPublishBudget? {
      CheckMoves(cfg, W, action.w, id);
    } else if action.AStartPublish? {
      StartMoves(cfg, W, action.w, id);
    } else if action.AMarkUncertain? {
      MarkUncertainMoves(cfg, W, action.w, id);
    } else if action.AGuardComments? {
      GuardMoves(cfg, W, action.w, id);
    } else if action.ALeave? {
      LeaveMoves(cfg, W, action.w, id);
    } else if action.ALeaveFinishAttempt? {
      FinishMoves(cfg, W, action.w, action.superseded, id);
    } else if action.ALeaveMarkPublication? {
      MarkMoves(cfg, W, action.w, action.failed, id);
    } else if action.ALeaveSuperseded? {
      ExitMoves(cfg, W, action.w, id);
    } else if action.ALeaveFailed? {
      ExitMoves(cfg, W, action.w, id);
    } else if action.AChooseResume? {
      ReturnMoves(cfg, W, action.w, action.publishing, id);
    } else if action.AReschedule? {
      RescheduleMoves(cfg, W, action.w, action.retryAt, id);
    } else if action.ALand? {
      LandMoves(cfg, W, action.w, id);
    } else if action.ACommentsReturn? {
      ReturnMoves(cfg, W, action.w, action.acknowledged, id);
    } else if action.AFinishPublishAttempt? {
      AcknowledgeMoves(cfg, W, action.w, id);
    } else if action.ACompleteNow? {
      CompletingMoves(cfg, W, action.w, id);
    } else if action.AEnsureVote? {
      IntentMoves(cfg, W, action.w, action.decision, id);
    } else if action.ACompleteDeferred? {
      CompletingMoves(cfg, W, action.w, id);
    } else if action.ALoadVote? {
      ReturnMoves(cfg, W, action.w, true, id);
    } else if action.AObserveVote? {
      VoteReadMoves(cfg, W, action.w, action.applied, true, id);
    } else if action.AGuardVote? {
      VoteGuardMoves(cfg, W, action.w, id);
    } else if action.ADispatchVote? {
      IntentMoves(cfg, W, action.w, None, id);
    } else if action.AVoteReturn? {
      VoteReadMoves(cfg, W, action.w, action.acknowledged, action.transient, id);
    } else if action.AVoteTransient? {
      FailureMoves(cfg, W, action.w, true, true, id);
    } else if action.AVoteGiveUp? {
      FailureMoves(cfg, W, action.w, action.skipped, action.bind, id);
    } else if action.ARetryVote? {
      VotingMoves(cfg, W, action.w, id);
    } else if action.AAfterVoteRetry? {
      FailureMoves(cfg, W, action.w, true, true, id);
    } else {
      VotingMoves(cfg, W, action.w, id);
    }
  }
}
