/** Every action keeps the protocol invariant. */
module ProtocolSteps {
  import opened Wrappers
  import opened StateMachine
  import opened JobRows
  import opened Protocol
  import opened ProtocolInvariant
  import opened ProtocolRows

  ghost function ViewOf(W: World, id: JobId): View
    requires id in W.jobs
  {
    View(W.jobs[id], Landed(W.log, id, Comments), Landed(W.log, id, CodeReview), id in W.live, id in W.claimed,
         Sent(W, id))
  }

  ghost predicate PcFits(cfg: Config, W: World, w: WorkerId, pc: Pc, v: View)
    requires w in W.workers
  {
    pc.Idle? || PcOk(cfg, pc, w, W.workers[w].account, v.row, v.comments, v.votes, v.sent, W.now)
  }

  /** A transaction whose row effect is known to be harmless, followed by a move to `pc`. */
  lemma CommitKeepsInv(cfg: Config, W: World, w: WorkerId, id: JobId, r: RowResult, pc: Pc)
    requires Inv(cfg, W) && w in W.workers && id in W.jobs
    requires pc.Idle? || pc.job == id
    requires r.Ok? ==>
      && Keeps(cfg, ViewOf(W, id), r.value, Some(w), W.now)
      && PcFits(cfg, W, w, pc, ViewOf(W, id).(row := r.value))
    ensures Inv(cfg, Commit(W, w, id, r, pc))
  {
    match r
    case Err(_) => GotoKeepsInv(cfg, W, w, Idle);
    case Ok(row) =>
      var W' := Put(W, w, id, row, pc);
      assert forall k :: Sent(W', k) == Sent(W, k);
      assert RowOk(cfg, W', id);
      assert WorkerOk(cfg, W', w);
      PutKeepsInv(cfg, W, w, id, row, pc, W');
  }

  /** A transaction outside the program counter of any worker. */
  lemma RowOnlyKeepsInv(cfg: Config, W: World, id: JobId, row: Job)
    requires Inv(cfg, W) && id in W.jobs
    requires Keeps(cfg, ViewOf(W, id), row, None, W.now)
    ensures Inv(cfg, W.(jobs := W.jobs[id := row]))
  {
    hide JobOk, PcOk;
    var W' := W.(jobs := W.jobs[id := row]);
    assert forall k :: Sent(W', k) == Sent(W, k);
    assert RowOk(cfg, W', id);
    hide RowOk, WorkersOk;
    JobsKeptByPut(cfg, W, id, row, W');
    PairsKept(W, W');
    forall k | k in W.jobs ensures RowStep(W.jobs[k], W'.jobs[k], Sent(W, k), Sent(W', k), None, W.now) {
      if k != id { RowStepRefl(W.jobs[k], Sent(W, k), None, W.now); }
    }
    AdminKeepsInv(cfg, W, W');
  }

  lemma RowFacts(cfg: Config, W: World, id: JobId)
    requires Inv(cfg, W) && id in W.jobs
    ensures RowOk(cfg, W, id) && ViewOk(cfg, ViewOf(W, id))
  {
    assert RowOk(cfg, W, id);
  }

  lemma WorkerFacts(cfg: Config, W: World, w: WorkerId)
    requires Inv(cfg, W) && w in W.workers
    ensures WorkerOk(cfg, W, w)
  {
  }

  lemma ActingOk(cfg: Config, W: World, w: WorkerId)
    requires Inv(cfg, W) && Acting(W, w)
    ensures cfg.leaseSeconds > 0
    ensures ViewOk(cfg, ViewOf(W, W.workers[w].pc.job))
    ensures PcFits(cfg, W, w, W.workers[w].pc, ViewOf(W, W.workers[w].pc.job))
  {
    assert WorkerOk(cfg, W, w);
    assert RowOk(cfg, W, W.workers[w].pc.job);
  }

  /** The step takes `w` alone to a program counter that suits the row it is at. */
  ghost predicate OnlyMoves(cfg: Config, W: World, w: WorkerId, W': World) {
    W' == W ||
    (&& Acting(W, w) && w in W'.workers && W' == Goto(W, w, W'.workers[w].pc)
     && var v, pc, pc' := ViewOf(W, W.workers[w].pc.job), W.workers[w].pc, W'.workers[w].pc;
     && (pc'.Idle? || pc'.job == pc.job)
     && (PcFits(cfg, W, w, pc, v) ==> PcFits(cfg, W, w, pc', v)))
  }

  lemma MovedKeepsInv(cfg: Config, W: World, w: WorkerId, W': World)
    requires Inv(cfg, W) && OnlyMoves(cfg, W, w, W')
    ensures Inv(cfg, W')
  {
    hide Inv, PcOk, Landed, JobOk;
    if W' != W {
      ActingOk(cfg, W, w);
      GotoKeepsInv(cfg, W, w, W'.workers[w].pc);
    }
  }

  // ---- Environment ------------------------------------------------------------------------

  lemma TickKeepsInv(cfg: Config, W: World, seconds: nat)
    requires Inv(cfg, W)
    ensures Inv(cfg, Tick(W, seconds))
  {
    var W' := Tick(W, seconds);
    assert forall k :: Sent(W', k) == Sent(W, k);
    forall u | u in W'.workers ensures WorkerOk(cfg, W', u) { assert WorkerOk(cfg, W, u); }
    forall k | k in W'.jobs ensures RowOk(cfg, W', k) { assert RowOk(cfg, W, k); }
    LogKept(W, W');
    PairsKept(W, W');
  }

  lemma WorkerTableKeepsInv(cfg: Config, W: World, w: WorkerId, worker: Worker)
    requires Inv(cfg, W)
    requires worker.pc.Idle? || (w in W.workers && worker == W.workers[w].(alive := worker.alive))
    ensures Inv(cfg, W.(workers := W.workers[w := worker]))
  {
    hide RowOk, PairsOk, PcOk;
    var W' := W.(workers := W.workers[w := worker]);
    assert forall k :: Sent(W', k) == Sent(W, k);
    forall u | u in W'.workers ensures WorkerOk(cfg, W', u) {
      if u in W.workers { assert WorkerOk(cfg, W, u); }
    }
    forall k | k in W'.jobs ensures RowOk(cfg, W', k) { RowKept(cfg, W, W', k); }
    LogKept(W, W');
    PairsKept(W, W');
  }

  // ---- Steps of one worker ----------------------------------------------------------------

  lemma ReviewTransitionKeepsInv(cfg: Config, W: World, w: WorkerId, target: JobState)
    requires Inv(cfg, W)
    ensures Inv(cfg, ReviewTransition(W, w, target))
  {
    hide Inv, JobOk, RowStep, Landed;
    if Acting(W, w) && HasReview(W.workers[w].pc) && (target.Fetching? || target.Reviewing? || target.Validating?) {
      ActingOk(cfg, W, w);
      var pc := W.workers[w].pc;
      var v := ViewOf(W, pc.job);
      ReviewTransitionKeeps(cfg, v, target, w, W.now);
      CommitKeepsInv(cfg, W, w, pc.job, TransitionRow(v.row, target, w, false, W.now), pc);
    }
  }

  lemma ReviewAttemptKeepsInv(cfg: Config, W: World, w: WorkerId, stage: Stage)
    requires Inv(cfg, W)
    ensures Inv(cfg, ReviewAttempt(W, w, stage))
  {
    hide Inv, JobOk, RowStep, Landed;
    if Acting(W, w) && W.workers[w].pc.InReview? {
      ActingOk(cfg, W, w);
      var pc := W.workers[w].pc;
      var v := ViewOf(W, pc.job);
      StartAttemptKeeps(cfg, v, stage, w, W.now);
      CommitKeepsInv(cfg, W, w, pc.job, StartAttemptRow(v.row, stage, w, W.now), pc);
    }
  }

  lemma ReviewGateKeepsInv(cfg: Config, W: World, w: WorkerId, waited: bool)
    requires Inv(cfg, W)
    ensures Inv(cfg, ReadStreak(cfg, W, w, waited))
    ensures Inv(cfg, ReadConsumed(cfg, W, w))
  {
    hide Inv, Landed, EpochReviews, Streak, ConsumedAttempts;
    MovedKeepsInv(cfg, W, w, ReadStreak(cfg, W, w, waited));
    MovedKeepsInv(cfg, W, w, ReadConsumed(cfg, W, w));
  }

  lemma StartReviewKeepsInv(cfg: Config, W: World, w: WorkerId)
    requires Inv(cfg, W)
    ensures Inv(cfg, StartReview(W, w))
  {
    hide Inv, JobOk, RowStep, Landed;
    if Acting(W, w) && W.workers[w].pc.ReviewAllowed? {
      ActingOk(cfg, W, w);
      var pc := W.workers[w].pc;
      var v := ViewOf(W, pc.job);
      StartAttemptKeeps(cfg, v, ReviewStage, w, W.now);
      CommitKeepsInv(cfg, W, w, pc.job, StartAttemptRow(v.row, ReviewStage, w, W.now),
                     ReviewRunning(pc.job, |v.row.attempts|));
    }
  }

  lemma SaveReviewKeepsInv(cfg: Config, W: World, w: WorkerId, review: string)
    requires Inv(cfg, W)
    ensures Inv(cfg, SaveReview(W, w, review))
  {
    hide Inv, JobOk, RowStep, Landed;
    if Acting(W, w) && HasReview(W.workers[w].pc) {
      ActingOk(cfg, W, w);
      var pc := W.workers[w].pc;
      var v := ViewOf(W, pc.job);
      SaveReviewKeeps(cfg, v, review, w, W.now);
      CommitKeepsInv(cfg, W, w, pc.job, SaveReviewResultRow(v.row, review, w, W.now),
                     if pc.ReviewRunning? then ReviewSaved(pc.job, pc.attempt) else Idle);
    }
  }

  lemma FinishReviewKeepsInv(cfg: Config, W: World, w: WorkerId, outcome: Outcome)
    requires Inv(cfg, W)
    ensures Inv(cfg, FinishReview(W, w, outcome))
  {
    hide Inv, JobOk, RowStep, Landed;
    if Acting(W, w) && (W.workers[w].pc.ReviewRunning? || W.workers[w].pc.ReviewSaved?) {
      ActingOk(cfg, W, w);
      var pc := W.workers[w].pc;
      var v := ViewOf(W, pc.job);
      FinishAttemptKeeps(cfg, v, pc.attempt, outcome, Some(w), W.now);
      CommitKeepsInv(cfg, W, w, pc.job, FinishAttemptRow(v.row, pc.attempt, outcome),
                     if pc.ReviewRunning? then ReviewFailed(pc.job) else Idle);
    }
  }

  lemma ReadPublicationKeepsInv(cfg: Config, W: World, w: WorkerId)
    requires Inv(cfg, W)
    ensures Inv(cfg, ReadPublication(W, w))
  {
    hide Inv, RowStep, Landed;
    if Acting(W, w) && W.workers[w].pc.PublishClaimed? {
      ActingOk(cfg, W, w);
      GotoKeepsInv(cfg, W, w, ReadPublication(W, w).workers[w].pc);
    }
  }

  lemma CheckLatestKeepsInv(cfg: Config, W: World, w: WorkerId)
    requires Inv(cfg, W)
    ensures Inv(cfg, CheckLatest(W, w))
  {
    hide Inv, Landed, HasNewer;
    MovedKeepsInv(cfg, W, w, CheckLatest(W, w));
  }

  lemma EnterPublishingKeepsInv(cfg: Config, W: World, w: WorkerId)
    requires Inv(cfg, W)
    ensures Inv(cfg, EnterPublishing(W, w))
  {
    hide Inv, Keeps, ViewOk, JobOk, RowStep, Landed;
    if Acting(W, w) && W.workers[w].pc.LatestPatchSet? {
      ActingOk(cfg, W, w);
      var pc := W.workers[w].pc;
      var v := ViewOf(W, pc.job);
      EnterPublishingKeeps(cfg, v, w, W.now);
      CommitKeepsInv(cfg, W, w, pc.job, TransitionRow(v.row, Publishing, w, false, W.now),
                     InPublishing(pc.job, pc.seen));
    }
  }

  lemma BeginPublicationKeepsInv(cfg: Config, W: World, w: WorkerId, payload: string)
    requires Inv(cfg, W)
    ensures Inv(cfg, BeginPublication(W, w, payload))
  {
    hide Inv, RowStep, Landed;
    if Acting(W, w) && W.workers[w].pc.InPublishing? {
      ActingOk(cfg, W, w);
      var pc := W.workers[w].pc;
      var v := ViewOf(W, pc.job);
      match pc.seen
      case None =>
        BeginPublicationKeeps(cfg, v, payload, w, W.now);
        var r := BeginPublicationRow(v.row, payload, w, W.now);
        CommitKeepsInv(cfg, W, w, pc.job, r, if r.Ok? then InPublishing(pc.job, r.value.publication) else Idle);
      case Some(seen) =>
        if seen.status.Posted? {
          GotoKeepsInv(cfg, W, w, Completing(pc.job, true));
        } else if seen.status.PublicationFailed? {
          GotoKeepsInv(cfg, W, w, Leaving(pc.job, None, false));
        } else {
          StartAttemptKeeps(cfg, v, ReconcileStage, w, W.now);
          CommitKeepsInv(cfg, W, w, pc.job, StartAttemptRow(v.row, ReconcileStage, w, W.now),
                         Reconciling(pc.job, seen.payload));
        }
    }
  }

  lemma ReadMessagesKeepsInv(cfg: Config, W: World, w: WorkerId)
    requires Inv(cfg, W)
    ensures Inv(cfg, ReadMessages(W, w))
  {
    hide Inv, Landed, HasNewer;
    MovedKeepsInv(cfg, W, w, ReadMessages(W, w));
  }

  /** Without a landed POST, every attempt that sent one still counts against the budget. */
  lemma SentWithinConsumed(cfg: Config, v: View)
    requires ViewOk(cfg, v) && v.comments == 0
    ensures |InEpoch(v.sent, v.row.epochStart)| <= |ConsumedAttempts(v.row, PublishStage)|
  {
    SubsetSize(InEpoch(v.sent, v.row.epochStart), ConsumedAttempts(v.row, PublishStage));
  }

  lemma CheckPublishBudgetKeepsInv(cfg: Config, W: World, w: WorkerId)
    requires Inv(cfg, W)
    ensures Inv(cfg, CheckPublishBudget(cfg, W, w))
  {
    hide Inv;
    if Acting(W, w) && W.workers[w].pc.ObservedAbsent? {
      ActingOk(cfg, W, w);
      var pc := W.workers[w].pc;
      var v := ViewOf(W, pc.job);
      if v.comments == 0 { SentWithinConsumed(cfg, v); }
      GotoKeepsInv(cfg, W, w, CheckPublishBudget(cfg, W, w).workers[w].pc);
    }
  }

  lemma StartPublishKeepsInv(cfg: Config, W: World, w: WorkerId)
    requires Inv(cfg, W)
    ensures Inv(cfg, StartPublish(W, w))
  {
    hide Inv, Keeps, Landed;
    if Acting(W, w) && W.workers[w].pc.PublishAllowed? {
      ActingOk(cfg, W, w);
      var pc := W.workers[w].pc;
      var v := ViewOf(W, pc.job);
      StartAttemptKeeps(cfg, v, PublishStage, w, W.now);
      CommitKeepsInv(cfg, W, w, pc.job, StartAttemptRow(v.row, PublishStage, w, W.now),
                     AttemptStarted(pc.job, pc.payload, |v.row.attempts|));
    }
  }

  lemma MarkUncertainKeepsInv(cfg: Config, W: World, w: WorkerId)
    requires Inv(cfg, W)
    ensures Inv(cfg, MarkUncertain(W, w))
  {
    hide Inv, Keeps, ViewOk, JobOk, RowStep, Landed;
    if Acting(W, w) && W.workers[w].pc.AttemptStarted? {
      ActingOk(cfg, W, w);
      var pc := W.workers[w].pc;
      var v := ViewOf(W, pc.job);
      MarkPublicationKeeps(cfg, v, Ambiguous, w, W.now);
      CommitKeepsInv(cfg, W, w, pc.job, MarkPublicationRow(v.row, Ambiguous),
                     UncertaintyMarked(pc.job, pc.payload, pc.attempt));
    }
  }

  /** Sending under a fresh attempt uses up one of the attempts the gate left. */
  lemma SendKeeps(cfg: Config, v: View, a: nat, row: Job, w: WorkerId, now: Time)
    requires Keeps(cfg, v, row, Some(w), now)
    requires FreshAttempt(a, v.row, w, v.sent) && row.attempts == v.row.attempts && row.epochStart == v.row.epochStart
    requires |InEpoch(v.sent, v.row.epochStart)| < cfg.publishAttempts
    requires OwnedBy(row, w)
    ensures RowStep(v.row, row, v.sent, v.sent + {a}, Some(w), now)
    ensures ViewOk(cfg, v.(row := row, sent := v.sent + {a}))
  {
    var before, after := InEpoch(v.sent, row.epochStart), InEpoch(v.sent + {a}, row.epochStart);
    SubsetSize(after, before + {a});
  }

  /** The comment guard, on the row alone: the POST it lets out has a live lease behind it. */
  lemma GuardCommentsKeeps(cfg: Config, v: View, newer: bool, pc: Pc, w: WorkerId, account: AccountId, now: Time)
    requires ViewOk(cfg, v) && pc.UncertaintyMarked?
    requires PcOk(cfg, pc, w, account, v.row, v.comments, v.votes, v.sent, now)
    ensures var (status, row) := RefreshGuardRow(v.row, newer, w, cfg.leaseSeconds, now);
            var sent := v.sent + {pc.attempt};
            var pc' := Posting(pc.job, pc.payload, pc.attempt, now + cfg.leaseSeconds, false);
            status.GuardOk? ==>
              && RowStep(v.row, row, v.sent, sent, Some(w), now) && Settles(v.row, row)
              && ViewOk(cfg, v.(row := row, sent := sent))
              && PcOk(cfg, pc', w, account, row, v.comments, v.votes, sent, now)
  {
    var (status, row) := RefreshGuardRow(v.row, newer, w, cfg.leaseSeconds, now);
    if status.GuardOk? {
      GuardKeeps(cfg, v, newer, w, now);
      SendKeeps(cfg, v, pc.attempt, row, w, now);
    }
  }

  lemma GuardCommentsKeepsInv(cfg: Config, W: World, w: WorkerId)
    requires Inv(cfg, W)
    ensures Inv(cfg, GuardComments(cfg, W, w))
  {
    hide Inv, JobOk, PcOk, RowStep, HasNewer, RefreshGuardRow, Landed, IsTerminal;
    if Acting(W, w) && W.workers[w].pc.UncertaintyMarked? {
      ActingOk(cfg, W, w);
      var pc := W.workers[w].pc;
      var v := ViewOf(W, pc.job);
      var (status, row) := RefreshGuardRow(v.row, Newer(W, pc.job), w, cfg.leaseSeconds, W.now);
      match status
      case GuardLeaseLost => GotoKeepsInv(cfg, W, w, Idle);
      case GuardSuperseded => GuardCommentsSkips(cfg, W, w);
      case GuardOk =>
        GuardCommentsKeeps(cfg, v, Newer(W, pc.job), pc, w, W.workers[w].account, W.now);
        SendKeepsInv(cfg, W, w, pc.job, row, GuardComments(cfg, W, w).workers[w].pc, pc.attempt);
    }
  }

  lemma GuardCommentsSkips(cfg: Config, W: World, w: WorkerId)
    requires Inv(cfg, W) && Acting(W, w) && W.workers[w].pc.UncertaintyMarked?
    ensures Inv(cfg, Goto(W, w, Leaving(W.workers[w].pc.job, Some(W.workers[w].pc.attempt), false)))
  {
    hide Inv, Landed;
    MovedKeepsInv(cfg, W, w, Goto(W, w, Leaving(W.workers[w].pc.job, Some(W.workers[w].pc.attempt), false)));
  }

  /** The frame of the one step that sends a comment POST. */
  lemma SendKeepsInv(cfg: Config, W: World, w: WorkerId, id: JobId, row: Job, pc: Pc, a: nat)
    requires Inv(cfg, W) && w in W.workers && id in W.jobs && !pc.Idle? && pc.job == id
    requires RowStep(W.jobs[id], row, Sent(W, id), Sent(W, id) + {a}, Some(w), W.now) && Settles(W.jobs[id], row)
    requires ViewOk(cfg, ViewOf(W, id).(row := row, sent := Sent(W, id) + {a}))
    requires PcFits(cfg, W, w, pc, ViewOf(W, id).(row := row, sent := Sent(W, id) + {a}))
    ensures Inv(cfg, Put(W, w, id, row, pc).(dispatched := W.dispatched[id := Sent(W, id) + {a}]))
  {
    hide Inv, JobOk, PcOk, RowStep;
    var W' := Put(W, w, id, row, pc).(dispatched := W.dispatched[id := Sent(W, id) + {a}]);
    assert Sent(W', id) == Sent(W, id) + {a};
    assert RowOk(cfg, W', id);
    assert WorkerOk(cfg, W', w);
    PutKeepsInv(cfg, W, w, id, row, pc, W');
  }

  lemma CommentsReturnKeepsInv(cfg: Config, W: World, w: WorkerId, acknowledged: bool)
    requires Inv(cfg, W)
    ensures Inv(cfg, CommentsReturn(W, w, acknowledged))
  {
    hide Inv, Landed, HasNewer;
    MovedKeepsInv(cfg, W, w, CommentsReturn(W, w, acknowledged));
  }

  lemma FinishPublishAttemptKeepsInv(cfg: Config, W: World, w: WorkerId)
    requires Inv(cfg, W)
    ensures Inv(cfg, FinishPublishAttempt(W, w))
  {
    hide Inv;
    if Acting(W, w) && W.workers[w].pc.Acknowledged? {
      ActingOk(cfg, W, w);
      var pc := W.workers[w].pc;
      var v := ViewOf(W, pc.job);
      if pc.attempt < |v.row.attempts| {
        FinishAttemptKeeps(cfg, v, pc.attempt, Succeeded, Some(w), W.now);
      }
      CommitKeepsInv(cfg, W, w, pc.job, FinishAttemptRow(v.row, pc.attempt, Succeeded), Completing(pc.job, true));
    }
  }

  lemma LeaveKeepsInv(cfg: Config, W: World, w: WorkerId)
    requires Inv(cfg, W)
    ensures Inv(cfg, Leave(W, w))
  {
    hide Inv, Landed, HasNewer;
    MovedKeepsInv(cfg, W, w, Leave(W, w));
  }

  lemma AbortKeepsInv(cfg: Config, W: World, w: WorkerId)
    requires Inv(cfg, W)
    ensures Inv(cfg, Abort(W, w))
  {
    if w in W.workers { GotoKeepsInv(cfg, W, w, Idle); }
  }

  lemma LeaveMarkKeepsInv(cfg: Config, W: World, w: WorkerId, failed: bool)
    requires Inv(cfg, W)
    ensures Inv(cfg, LeaveMarkPublication(W, w, failed))
  {
    hide Inv, JobOk;
    if Acting(W, w) && W.workers[w].pc.Leaving? {
      ActingOk(cfg, W, w);
      var pc := W.workers[w].pc;
      var v := ViewOf(W, pc.job);
      var status := if failed then PublicationFailed else Ambiguous;
      MarkPublicationKeeps(cfg, v, status, w, W.now);
      CommitKeepsInv(cfg, W, w, pc.job, MarkPublicationRow(v.row, status), pc);
    }
  }

  lemma LeaveTerminalKeepsInv(cfg: Config, W: World, w: WorkerId)
    requires Inv(cfg, W)
    ensures Inv(cfg, LeaveSuperseded(W, w))
    ensures Inv(cfg, LeaveFailed(W, w))
  {
    hide Inv, JobOk, PcOk;
    if Acting(W, w) && W.workers[w].pc.Leaving? {
      ActingOk(cfg, W, w);
      var pc := W.workers[w].pc;
      var v := ViewOf(W, pc.job);
      MarkSupersededKeeps(cfg, v, w, W.now);
      CommitKeepsInv(cfg, W, w, pc.job, MarkSupersededRow(v.row, w, W.now), Idle);
      MarkFailedKeeps(cfg, v, w, W.now);
      CommitKeepsInv(cfg, W, w, pc.job, MarkFailedPermanentRow(v.row, w, W.now), Idle);
    }
  }

  lemma ChooseResumeKeepsInv(cfg: Config, W: World, w: WorkerId, publishing: bool)
    requires Inv(cfg, W)
    ensures Inv(cfg, ChooseResume(W, w, publishing))
  {
    hide Inv, Landed, HasNewer;
    MovedKeepsInv(cfg, W, w, ChooseResume(W, w, publishing));
  }

  lemma LeaveFinishAttemptKeepsInv(cfg: Config, W: World, w: WorkerId, superseded: bool)
    requires Inv(cfg, W)
    ensures Inv(cfg, LeaveFinishAttempt(W, w, superseded))
  {
    hide Inv, Keeps, ViewOk, JobOk, RowStep, Landed;
    if Acting(W, w) && W.workers[w].pc.Leaving? && W.workers[w].pc.open.Some? {
      ActingOk(cfg, W, w);
      var pc := W.workers[w].pc;
      var v := ViewOf(W, pc.job);
      var outcome := if superseded && !pc.dispatched then Succeeded else Failed(false);
      FinishAttemptKeeps(cfg, v, pc.open.value, outcome, Some(w), W.now);
      var r := FinishAttemptRow(v.row, pc.open.value, outcome);
      if r.Ok? { CommitKeepsInv(cfg, W, w, pc.job, r, pc); }
    }
  }

  lemma RescheduleKeepsInv(cfg: Config, W: World, w: WorkerId, retryAt: Time)
    requires Inv(cfg, W)
    ensures Inv(cfg, Reschedule(W, w, retryAt))
  {
    hide Inv;
    if Acting(W, w) && W.workers[w].pc.Rescheduling? {
      ActingOk(cfg, W, w);
      var pc := W.workers[w].pc;
      var v := ViewOf(W, pc.job);
      ScheduleRetryKeeps(cfg, v, pc.resume, retryAt, w, W.now);
      CommitKeepsInv(cfg, W, w, pc.job, ScheduleRetryRow(v.row, pc.resume, retryAt, w, W.now), Idle);
    }
  }

  lemma CompletingKeepsInv(cfg: Config, W: World, w: WorkerId, decision: Option<int>)
    requires Inv(cfg, W)
    ensures Inv(cfg, CompleteNow(W, w))
    ensures Inv(cfg, EnsureVote(W, w, decision))
  {
    hide Inv, Keeps, ViewOk, JobOk, RowStep, Landed;
    if Acting(W, w) && W.workers[w].pc.Completing? {
      ActingOk(cfg, W, w);
      var pc := W.workers[w].pc;
      var v := ViewOf(W, pc.job);
      CompletePublicationKeeps(cfg, v, w, false, W.now);
      CommitKeepsInv(cfg, W, w, pc.job, CompletePublicationRow(v.row, w, false, W.now), Idle);
      EnsureVoteKeeps(cfg, v, decision, w, W.now);
      CommitKeepsInv(cfg, W, w, pc.job, EnsureVoteRow(v.row, decision, w, W.now), VoteEnsured(pc.job, pc.allowVote));
    }
  }

  lemma CompleteDeferredKeepsInv(cfg: Config, W: World, w: WorkerId)
    requires Inv(cfg, W)
    ensures Inv(cfg, CompleteDeferred(W, w))
  {
    hide Inv, Keeps, ViewOk, JobOk, RowStep, Landed;
    if Acting(W, w) && W.workers[w].pc.VoteEnsured? {
      ActingOk(cfg, W, w);
      var pc := W.workers[w].pc;
      var v := ViewOf(W, pc.job);
      CompletePublicationKeeps(cfg, v, w, true, W.now);
      CommitKeepsInv(cfg, W, w, pc.job, CompletePublicationRow(v.row, w, true, W.now),
                     VoteDeferred(pc.job, pc.allowVote));
    }
  }

  lemma LoadVoteKeepsInv(cfg: Config, W: World, w: WorkerId)
    requires Inv(cfg, W)
    ensures Inv(cfg, LoadVote(W, w))
  {
    hide Inv, Landed, HasNewer;
    if Acting(W, w) && W.workers[w].pc.VoteDeferred? { RowFacts(cfg, W, W.workers[w].pc.job); }
    MovedKeepsInv(cfg, W, w, LoadVote(W, w));
  }

  /** A bound account sees its own marker, so an unseen marker means that nothing landed. */
  lemma MarkerComplete(cfg: Config, W: World, id: JobId, account: AccountId)
    requires Inv(cfg, W) && id in W.jobs
    requires W.jobs[id].vote.Some?
    requires W.jobs[id].vote.value.account.None? || W.jobs[id].vote.value.account.value == account
    ensures Landed(W.log, id, CodeReview) > 0 ==> MarkerFound(W.log, id, account)
  {
    LandedWitness(W.log, id, CodeReview);
    if Landed(W.log, id, CodeReview) > 0 {
      var i :| 0 <= i < |W.log| && W.log[i].job == id && W.log[i].kind == CodeReview;
      assert PostOk(W.log[i], W.jobs);
    }
  }

  /** A marker in Gerrit's log is a landed vote. */
  lemma MarkerSound(W: World, id: JobId, account: AccountId)
    ensures MarkerFound(W.log, id, account) ==> Landed(W.log, id, CodeReview) > 0
  {
    LandedWitness(W.log, id, CodeReview);
  }

  /** The observation, on the row alone: a vote is cast only where none of an own account has landed. */
  lemma ObserveVoteKeepsPc(cfg: Config, v: View, pc: Pc, w: WorkerId, account: AccountId, found: bool, applied: bool,
                           now: Time)
    requires ViewOk(cfg, v) && pc.VoteLoaded?
    requires PcOk(cfg, pc, w, account, v.row, v.comments, v.votes, v.sent, now)
    requires v.row.vote.Some? && (v.row.vote.value.account.None? || v.row.vote.value.account.value == account) ==>
      v.votes > 0 ==> found
    requires found ==> v.votes > 0
    ensures var pc' := AfterObservation(cfg, pc, account, found, applied);
            !pc'.Idle? && pc'.job == pc.job && PcOk(cfg, pc', w, account, v.row, v.comments, v.votes, v.sent, now)
  {
  }

  lemma ObserveVoteKeepsInv(cfg: Config, W: World, w: WorkerId, applied: bool)
    requires Inv(cfg, W)
    ensures Inv(cfg, ObserveVote(cfg, W, w, applied))
  {
    hide Inv, ViewOk, JobOk, PcOk, RowStep, Landed, HasNewer, MarkerFound, AfterObservation;
    if Acting(W, w) && W.workers[w].pc.VoteLoaded? {
      ActingOk(cfg, W, w);
      var pc, account := W.workers[w].pc, W.workers[w].account;
      var found, v := MarkerFound(W.log, pc.job, account), ViewOf(W, pc.job);
      if v.row.vote.Some? && (v.row.vote.value.account.None? || v.row.vote.value.account.value == account) {
        MarkerComplete(cfg, W, pc.job, account);
      }
      MarkerSound(W, pc.job, account);
      ObserveVoteKeepsPc(cfg, v, pc, w, account, found, applied, W.now);
      GotoKeepsInv(cfg, W, w, AfterObservation(cfg, pc, account, found, applied));
    }
  }

  lemma GuardVoteKeepsPc(cfg: Config, v: View, newer: bool, pc: Pc, w: WorkerId, account: AccountId, now: Time)
    requires ViewOk(cfg, v) && (pc.VoteAbsent? || pc.VoteDispatched?)
    requires PcOk(cfg, pc, w, account, v.row, v.comments, v.votes, v.sent, now)
    ensures var (status, row) := RefreshGuardRow(v.row, newer, w, cfg.leaseSeconds, now);
            var pc' := if pc.VoteAbsent? then VoteGuarded(pc.job) else VotePosting(pc.job, now + cfg.leaseSeconds, false);
            status.GuardOk? ==> PcOk(cfg, pc', w, account, row, v.comments, v.votes, v.sent, now)
  {
  }

  lemma GuardVoteKeepsInv(cfg: Config, W: World, w: WorkerId)
    requires Inv(cfg, W)
    ensures Inv(cfg, GuardVote(cfg, W, w))
  {
    hide Inv, JobOk, RowStep, PcOk;
    if Acting(W, w) && (W.workers[w].pc.VoteAbsent? || W.workers[w].pc.VoteDispatched?) {
      ActingOk(cfg, W, w);
      var pc := W.workers[w].pc;
      var v := ViewOf(W, pc.job);
      var (status, row) := RefreshGuardRow(v.row, Newer(W, pc.job), w, cfg.leaseSeconds, W.now);
      match status
      case GuardLeaseLost => GotoKeepsInv(cfg, W, w, Idle);
      case GuardSuperseded => GuardVoteSkips(cfg, W, w);
      case GuardOk =>
        GuardKeeps(cfg, v, Newer(W, pc.job), w, W.now);
        GuardVoteKeepsPc(cfg, v, Newer(W, pc.job), pc, w, W.workers[w].account, W.now);
        CommitKeepsInv(cfg, W, w, pc.job, Ok(row), GuardVote(cfg, W, w).workers[w].pc);
    }
  }

  lemma GuardVoteSkips(cfg: Config, W: World, w: WorkerId)
    requires Inv(cfg, W) && Acting(W, w)
    ensures Inv(cfg, Goto(W, w, VoteFinishing(W.workers[w].pc.job, VoteSkipped, None)))
  {
    hide Inv, JobOk, RowStep, Landed;
    GotoKeepsInv(cfg, W, w, VoteFinishing(W.workers[w].pc.job, VoteSkipped, None));
  }

  lemma DispatchVoteKeepsInv(cfg: Config, W: World, w: WorkerId)
    requires Inv(cfg, W)
    ensures Inv(cfg, DispatchVote(W, w))
  {
    hide Inv, Keeps, ViewOk, JobOk, RowStep, Landed;
    if Acting(W, w) && W.workers[w].pc.VoteGuarded? {
      ActingOk(cfg, W, w);
      var pc := W.workers[w].pc;
      var v := ViewOf(W, pc.job);
      var account := W.workers[w].account;
      DispatchVoteKeeps(cfg, v, account, w, W.now);
      CommitKeepsInv(cfg, W, w, pc.job, DispatchVoteRow(v.row, account, w, W.now), VoteDispatched(pc.job));
    }
  }

  lemma VoteReturnKeepsPc(cfg: Config, v: View, pc: Pc, w: WorkerId, account: AccountId, status: VoteStatus, now: Time)
    requires pc.VotePosting? && IsTerminalVote(status) && (status.VoteApplied? ==> pc.landed)
    requires PcOk(cfg, pc, w, account, v.row, v.comments, v.votes, v.sent, now)
    ensures PcOk(cfg, VoteRetrying(pc.job, true), w, account, v.row, v.comments, v.votes, v.sent, now)
    ensures forall a :: PcOk(cfg, VoteFinishing(pc.job, status, a), w, account, v.row, v.comments, v.votes, v.sent, now)
  {
  }

  lemma VoteReturnKeepsInv(cfg: Config, W: World, w: WorkerId, acknowledged: bool, transient: bool)
    requires Inv(cfg, W)
    ensures Inv(cfg, VoteReturn(W, w, acknowledged, transient))
  {
    hide Inv, Landed, HasNewer, ViewOk, JobOk, PcOk;
    if Acting(W, w) && W.workers[w].pc.VotePosting? {
      ActingOk(cfg, W, w);
      var v, pc, account := ViewOf(W, W.workers[w].pc.job), W.workers[w].pc, W.workers[w].account;
      VoteReturnKeepsPc(cfg, v, pc, w, account, if acknowledged && pc.landed then VoteApplied else VoteFailed, W.now);
      MovedKeepsInv(cfg, W, w, VoteReturn(W, w, acknowledged, transient));
    }
  }

  lemma VoteTransientKeepsInv(cfg: Config, W: World, w: WorkerId)
    requires Inv(cfg, W)
    ensures Inv(cfg, VoteTransient(W, w))
  {
    hide Inv, Landed, HasNewer;
    MovedKeepsInv(cfg, W, w, VoteTransient(W, w));
  }

  lemma VoteGiveUpKeepsInv(cfg: Config, W: World, w: WorkerId, skipped: bool, bind: bool)
    requires Inv(cfg, W)
    ensures Inv(cfg, VoteGiveUp(W, w, skipped, bind))
  {
    hide Inv, Landed, HasNewer;
    MovedKeepsInv(cfg, W, w, VoteGiveUp(W, w, skipped, bind));
  }

  lemma AfterVoteRetryKeepsInv(cfg: Config, W: World, w: WorkerId)
    requires Inv(cfg, W)
    ensures Inv(cfg, AfterVoteRetry(cfg, W, w))
  {
    hide Inv, Landed, HasNewer;
    MovedKeepsInv(cfg, W, w, AfterVoteRetry(cfg, W, w));
  }

  lemma RetryVoteKeepsPc(cfg: Config, v: View, pc: Pc, w: WorkerId, account: AccountId, now: Time)
    requires ViewOk(cfg, v) && pc.VoteRetrying?
    requires PcOk(cfg, pc, w, account, v.row, v.comments, v.votes, v.sent, now)
    ensures var r := RetryVoteRow(v.row, w, now);
            r.Ok? ==>
              var count := if r.value.vote.Some? then r.value.vote.value.retryCount else 0;
              PcOk(cfg, VoteRetried(pc.job, pc.posted, count), w, account, r.value, v.comments, v.votes, v.sent, now)
  {
  }

  lemma RetryVoteKeepsInv(cfg: Config, W: World, w: WorkerId)
    requires Inv(cfg, W)
    ensures Inv(cfg, RetryVote(W, w))
  {
    hide Inv, Keeps, ViewOk, JobOk, PcOk, RowStep, Landed, RetryVoteRow;
    if Acting(W, w) && W.workers[w].pc.VoteRetrying? {
      ActingOk(cfg, W, w);
      var pc := W.workers[w].pc;
      var v := ViewOf(W, pc.job);
      RetryVoteKeeps(cfg, v, w, W.now);
      RetryVoteKeepsPc(cfg, v, pc, w, W.workers[w].account, W.now);
      CommitKeepsInv(cfg, W, w, pc.job, RetryVoteRow(v.row, w, W.now), RetryVote(W, w).workers[w].pc);
    }
  }

  lemma FinishVoteKeepsInv(cfg: Config, W: World, w: WorkerId)
    requires Inv(cfg, W)
    ensures Inv(cfg, FinishVote(W, w))
  {
    hide Inv;
    if Acting(W, w) && W.workers[w].pc.VoteFinishing? {
      ActingOk(cfg, W, w);
      var pc := W.workers[w].pc;
      var v := ViewOf(W, pc.job);
      assert pc.status.VoteApplied? ==> v.votes > 0;
      FinishVoteKeeps(cfg, v, pc.status, pc.account, w, W.now);
      CommitKeepsInv(cfg, W, w, pc.job, FinishVoteRow(v.row, pc.status, pc.account, w, W.now), Idle);
    }
  }

  lemma HeartbeatKeepsPc(cfg: Config, pc: Pc, w: WorkerId, account: AccountId, v: View, now: Time)
    requires PcOk(cfg, pc, w, account, v.row, v.comments, v.votes, v.sent, now)
    ensures var r := HeartbeatRow(v.row, w, cfg.leaseSeconds, now);
            r.Ok? ==> PcOk(cfg, pc, w, account, r.value, v.comments, v.votes, v.sent, now)
  {
  }

  lemma HeartbeatKeepsInv(cfg: Config, W: World, w: WorkerId, id: JobId)
    requires Inv(cfg, W)
    ensures Inv(cfg, Heartbeat(cfg, W, w, id))
  {
    hide Inv, JobOk, PcOk, RowStep;
    if w in W.workers && W.workers[w].alive && id in W.jobs {
      RowFacts(cfg, W, id);
      WorkerFacts(cfg, W, w);
      var v := ViewOf(W, id);
      var pc := W.workers[w].pc;
      HeartbeatKeeps(cfg, v, w, W.now);
      var r := HeartbeatRow(v.row, w, cfg.leaseSeconds, W.now);
      if r.Ok? {
        var W' := Put(W, w, id, r.value, pc);
        assert W' == Heartbeat(cfg, W, w, id);
        assert forall k :: Sent(W', k) == Sent(W, k);
        if !pc.Idle? && pc.job == id { HeartbeatKeepsPc(cfg, pc, w, W.workers[w].account, v, W.now); }
        assert RowOk(cfg, W', id);
        assert WorkerOk(cfg, W', w);
        PutKeepsInv(cfg, W, w, id, r.value, pc, W');
      }
    }
  }

  lemma FinishOtherAttemptKeepsInv(cfg: Config, W: World, id: JobId, a: nat, outcome: Outcome)
    requires Inv(cfg, W)
    ensures Inv(cfg, FinishAttempt(W, id, a, outcome))
  {
    if id in W.jobs && a < |W.jobs[id].attempts| && !W.jobs[id].attempts[a].stage.PublishStage? {
      assert RowOk(cfg, W, id);
      var v := ViewOf(W, id);
      FinishAttemptKeeps(cfg, v, a, outcome, None, W.now);
      var r := FinishAttemptRow(v.row, a, outcome);
      if r.Ok? { RowOnlyKeepsInv(cfg, W, id, r.value); }
    }
  }

  // ---- A landing POST ---------------------------------------------------------------------

  /** What the worker of a POST in flight knows about the row at the moment it lands. */
  lemma FlightOwnsJob(cfg: Config, W: World, w: WorkerId)
    requires Inv(cfg, W) && Land(W, w) != W
    ensures var pc := W.workers[w].pc;
            && (pc.Posting? || pc.VotePosting?) && pc.job in W.jobs
            && OwnedBy(W.jobs[pc.job], w) && W.jobs[pc.job].state.Publishing? && W.jobs[pc.job].publication.Some?
            && (pc.Posting? ==> Landed(W.log, pc.job, Comments) == 0
                                && W.jobs[pc.job].publication.value.payload == pc.payload)
            && (pc.VotePosting? ==>
                  && Landed(W.log, pc.job, Comments) > 0 && Landed(W.log, pc.job, CodeReview) == 0
                  && W.jobs[pc.job].vote.Some? && W.jobs[pc.job].vote.value.account == Some(W.workers[w].account))
  {
    assert WorkerOk(cfg, W, w);
    assert RowOk(cfg, W, W.workers[w].pc.job);
  }

  lemma LandCounts(W: World, w: WorkerId, k: JobId, kind: Kind)
    requires Land(W, w) != W
    ensures var post := Land(W, w).log[|W.log|];
            Landed(Land(W, w).log, k, kind) == Landed(W.log, k, kind) + if post.job == k && post.kind == kind then 1 else 0
  {
    LandedAppend(W.log, Land(W, w).log[|W.log|], k, kind);
  }

  lemma LandKeepsRow(cfg: Config, W: World, w: WorkerId, k: JobId)
    requires Inv(cfg, W) && k in W.jobs && Land(W, w) != W
    ensures RowOk(cfg, Land(W, w), k)
  {
    hide Inv, PcOk, LiveLease;
    RowFacts(cfg, W, k);
    FlightOwnsJob(cfg, W, w);
    LandCounts(W, w, k, Comments);
    LandCounts(W, w, k, CodeReview);
    assert Sent(Land(W, w), k) == Sent(W, k);
  }

  /** A worker that does not own the row cannot be hurt by POSTs landing for it. */
  lemma PcOkAfterLanding(cfg: Config, pc: Pc, w: WorkerId, account: AccountId, row: Job, comments: nat, comments': nat,
                         votes: nat, votes': nat, sent: set<nat>, now: Time)
    requires PcOk(cfg, pc, w, account, row, comments, votes, sent, now)
    requires !OwnedBy(row, w) && comments <= comments' && votes <= votes'
    ensures PcOk(cfg, pc, w, account, row, comments', votes', sent, now)
  {
  }

  lemma PcOkOnceLanded(cfg: Config, pc: Pc, w: WorkerId, account: AccountId, row: Job, comments: nat, comments': nat,
                       votes: nat, votes': nat, sent: set<nat>, now: Time)
    requires PcOk(cfg, pc, w, account, row, comments, votes, sent, now)
    requires pc.Posting? ==> comments' > 0
    requires pc.VotePosting? ==> comments' > 0 && votes' > 0
    ensures pc.Posting? ==>
      PcOk(cfg, Posting(pc.job, pc.payload, pc.attempt, pc.deadline, true), w, account, row, comments', votes', sent, now)
    ensures pc.VotePosting? ==>
      PcOk(cfg, VotePosting(pc.job, pc.deadline, true), w, account, row, comments', votes', sent, now)
  {
  }

  lemma LandKeepsPoster(cfg: Config, W: World, w: WorkerId)
    requires Inv(cfg, W) && Land(W, w) != W
    ensures WorkerOk(cfg, Land(W, w), w)
  {
    hide Inv, PcOk;
    WorkerFacts(cfg, W, w);
    FlightOwnsJob(cfg, W, w);
    var pc := W.workers[w].pc;
    var W' := Land(W, w);
    LandCounts(W, w, pc.job, Comments);
    LandCounts(W, w, pc.job, CodeReview);
    assert Sent(W', pc.job) == Sent(W, pc.job);
    PcOkOnceLanded(cfg, pc, w, W.workers[w].account, W.jobs[pc.job],
                   Landed(W.log, pc.job, Comments), Landed(W'.log, pc.job, Comments),
                   Landed(W.log, pc.job, CodeReview), Landed(W'.log, pc.job, CodeReview), Sent(W, pc.job), W.now);
  }

  lemma LandKeepsOther(cfg: Config, W: World, w: WorkerId, u: WorkerId)
    requires Inv(cfg, W) && u in W.workers && u != w && Land(W, w) != W
    ensures WorkerOk(cfg, Land(W, w), u)
  {
    hide Inv, PcOk;
    WorkerFacts(cfg, W, u);
    FlightOwnsJob(cfg, W, w);
    var worker := W.workers[u];
    if !worker.pc.Idle? {
      var k := worker.pc.job;
      var W' := Land(W, w);
      assert W'.workers[u] == worker && W'.jobs == W.jobs && W'.now == W.now && Sent(W', k) == Sent(W, k);
      LandCounts(W, w, k, Comments);
      LandCounts(W, w, k, CodeReview);
      hide Land;
      if k == W.workers[w].pc.job {
        PcOkAfterLanding(cfg, worker.pc, u, worker.account, W.jobs[k],
                         Landed(W.log, k, Comments), Landed(W'.log, k, Comments),
                         Landed(W.log, k, CodeReview), Landed(W'.log, k, CodeReview), Sent(W, k), W.now);
      }
    }
  }

  /** A POST of an earlier Patch Set cannot follow one of a newer: the newer was claimed, so the
      earlier job would be terminal, and a terminal job has no POST in flight. */
  lemma LandFollowsOrder(cfg: Config, W: World, w: WorkerId, a: nat)
    requires Inv(cfg, W) && Land(W, w) != W && W.workers[w].pc.Posting?
    requires a < |W.log| && W.log[a].kind.Comments?
    requires W.workers[w].pc.job in W.jobs && W.log[a].job in W.jobs
    requires SameChange(W.jobs[W.log[a].job], W.jobs[W.workers[w].pc.job])
    ensures W.jobs[W.log[a].job].patchset <= W.jobs[W.workers[w].pc.job].patchset
  {
    var k, id := W.log[a].job, W.workers[w].pc.job;
    LandedWitness(W.log, k, Comments);
    FlightOwnsJob(cfg, W, w);
    assert RowOk(cfg, W, k);
    assert PairOk(W.jobs[id], W.jobs[k], k in W.live, k in W.claimed);
  }

  lemma LandKeepsPosts(cfg: Config, W: World, w: WorkerId, i: nat)
    requires Inv(cfg, W) && Land(W, w) != W && i < |Land(W, w).log|
    ensures PostOk(Land(W, w).log[i], W.jobs)
    ensures i < |W.log| ==> Land(W, w).log[i] == W.log[i]
    ensures i == |W.log| ==> Land(W, w).log[i].job == W.workers[w].pc.job
                             && (Land(W, w).log[i].kind.Comments? ==> W.workers[w].pc.Posting?)
  {
    if i < |W.log| {
      assert PostOk(W.log[i], W.jobs);
    } else {
      FlightOwnsJob(cfg, W, w);
    }
  }

  lemma LogFacts(cfg: Config, W: World)
    requires Inv(cfg, W)
    ensures LogOk(W)
  {
  }

  lemma LandKeepsLog(cfg: Config, W: World, w: WorkerId)
    requires Inv(cfg, W) && Land(W, w) != W
    ensures LogOk(Land(W, w))
  {
    hide Inv, PostOk;
    LogFacts(cfg, W);
    var W' := Land(W, w);
    forall i | 0 <= i < |W'.log| ensures PostOk(W'.log[i], W'.jobs) { LandKeepsPosts(cfg, W, w, i); }
    forall a, b | 0 <= a < b < |W'.log| && W'.log[a].kind.Comments? && W'.log[b].kind.Comments?
                  && W'.log[a].job in W'.jobs && W'.log[b].job in W'.jobs
                  && SameChange(W'.jobs[W'.log[a].job], W'.jobs[W'.log[b].job])
      ensures W'.jobs[W'.log[a].job].patchset <= W'.jobs[W'.log[b].job].patchset
    {
      LandKeepsPosts(cfg, W, w, a);
      LandKeepsPosts(cfg, W, w, b);
      if b == |W.log| { LandFollowsOrder(cfg, W, w, a); }
    }
    assert forall i :: 0 <= i < |W'.log| ==> W'.log[i].job in W'.jobs by {
      forall i | 0 <= i < |W'.log| ensures W'.log[i].job in W'.jobs { PostJob(cfg, W, w, i); }
    }
  }

  lemma PostJob(cfg: Config, W: World, w: WorkerId, i: nat)
    requires Inv(cfg, W) && Land(W, w) != W && i < |Land(W, w).log|
    ensures Land(W, w).log[i].job in W.jobs
  {
    LandKeepsPosts(cfg, W, w, i);
  }

  lemma LandOnlyLands(W: World, w: WorkerId)
    ensures var W' := Land(W, w);
            && W'.jobs == W.jobs && W'.live == W.live && W'.claimed == W.claimed && W'.workers.Keys == W.workers.Keys
  {
  }

  lemma LandKeepsInv(cfg: Config, W: World, w: WorkerId)
    requires Inv(cfg, W)
    ensures Inv(cfg, Land(W, w))
  {
    hide RowOk, WorkerOk, LogOk, PairOk, Landed, Land;
    var W' := Land(W, w);
    if W' != W {
      LandOnlyLands(W, w);
      PairsKept(W, W');
      forall k | k in W'.jobs ensures RowOk(cfg, W', k) { LandKeepsRow(cfg, W, w, k); }
      forall u | u in W'.workers ensures WorkerOk(cfg, W', u) {
        if u == w { LandKeepsPoster(cfg, W, w); } else { LandKeepsOther(cfg, W, w, u); }
      }
      LandKeepsLog(cfg, W, w);
    }
  }
}
