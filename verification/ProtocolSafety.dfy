/** The main results of the protocol, for every run: any interleaving of workers, crashes, lease
    expiry, lost acknowledgements, late events, requeues and scope changes. */
module ProtocolSafety {
  import opened Wrappers
  import opened StateMachine
  import opened JobRows
  import opened Protocol
  import opened ProtocolInvariant
  import opened ProtocolSteps
  import opened ProtocolAdmin
  import opened ProtocolMoves

  lemma SpawnKeepsInv(cfg: Config, W: World, w: WorkerId, account: AccountId)
    requires Inv(cfg, W)
    ensures Inv(cfg, Spawn(W, w, account))
  {
    hide Inv;
    WorkerTableKeepsInv(cfg, W, w, Worker(true, account, Idle));
  }

  lemma CrashKeepsInv(cfg: Config, W: World, w: WorkerId)
    requires Inv(cfg, W)
    ensures Inv(cfg, Crash(W, w))
  {
    hide Inv;
    if w in W.workers { WorkerTableKeepsInv(cfg, W, w, W.workers[w].(alive := false)); }
  }

  /** The steps of a worker within a claim: review, publication, exception handlers and vote. */
  predicate Working(action: Action) {
    || action.AReviewTransition? || action.AReviewAttempt? || action.AReadStreak? || action.AReadConsumed?
    || action.AStartReview? || action.ASaveReview? || action.AFinishReview? || action.AReadPublication?
    || action.ACheckLatest? || action.AEnterPublishing? || action.ABeginPublication? || action.AReadMessages?
    || action.ACheckPublishBudget? || action.AStartPublish? || action.AMarkUncertain? || action.AGuardComments?
    || action.ALeave? || action.ALeaveFinishAttempt? || action.ALeaveMarkPublication?
    || action.ALeaveSuperseded? || action.ALeaveFailed? || action.AChooseResume? || action.AReschedule?
    || action.ALand? || action.ACommentsReturn? || action.AFinishPublishAttempt? || action.ACompleteNow?
    || action.AEnsureVote? || action.ACompleteDeferred? || action.ALoadVote? || action.AObserveVote?
    || action.AGuardVote? || action.ADispatchVote? || action.AVoteReturn? || action.AVoteTransient?
    || action.AVoteGiveUp? || action.ARetryVote? || action.AAfterVoteRetry? || action.AFinishVote?
  }

  lemma WorkingKeepsInv(cfg: Config, W: World, action: Action)
    requires Inv(cfg, W) && Working(action)
    ensures Inv(cfg, Next(cfg, W, action))
  {
    hide Inv, Abort, AfterVoteRetry, BeginPublication, CheckLatest, CheckPublishBudget, ChooseResume, Claim,
         CommentsReturn, CompleteDeferred, CompleteNow, Crash, DispatchVote, Enqueue, EnsureVote, EnterPublishing,
         FinishAttempt, FinishPublishAttempt, FinishReview, FinishVote, Goto, GuardComments, GuardVote, Heartbeat,
         Land, Leave, LeaveFailed, LeaveFinishAttempt, LeaveMarkPublication, LeaveSuperseded, LoadVote,
         MarkUncertain, ObserveVote, ReadConsumed, ReadMessages, ReadPublication, ReadStreak, Requeue, Reschedule,
         RetryVote, ReviewAttempt, ReviewTransition, SaveReview, SetProjectEnabled, SetReviewStartMode, Spawn,
         StartPublish, StartReview, Tick, UpsertProject, VoteGiveUp, VoteReturn, VoteTransient;
    if action.AReviewTransition? {
      ReviewTransitionKeepsInv(cfg, W, action.w, action.target);
    } else if action.AReviewAttempt? {
      ReviewAttemptKeepsInv(cfg, W, action.w, action.stage);
    } else if action.AReadStreak? {
      ReviewGateKeepsInv(cfg, W, action.w, action.waited);
    } else if action.AReadConsumed? {
      ReviewGateKeepsInv(cfg, W, action.w, true);
    } else if action.AStartReview? {
      StartReviewKeepsInv(cfg, W, action.w);
    } else if action.ASaveReview? {
      SaveReviewKeepsInv(cfg, W, action.w, action.review);
    } else if action.AFinishReview? {
      FinishReviewKeepsInv(cfg, W, action.w, action.outcome);
    } else if action.AReadPublication? {
      ReadPublicationKeepsInv(cfg, W, action.w);
    } else if action.ACheckLatest? {
      CheckLatestKeepsInv(cfg, W, action.w);
    } else if action.AEnterPublishing? {
      EnterPublishingKeepsInv(cfg, W, action.w);
    } else if action.ABeginPublication? {
      BeginPublicationKeepsInv(cfg, W, action.w, action.payload);
    } else if action.AReadMessages? {
      ReadMessagesKeepsInv(cfg, W, action.w);
    } else if action.ACheckPublishBudget? {
      CheckPublishBudgetKeepsInv(cfg, W, action.w);
    } else if action.AStartPublish? {
      StartPublishKeepsInv(cfg, W, action.w);
    } else if action.AMarkUncertain? {
      MarkUncertainKeepsInv(cfg, W, action.w);
    } else if action.AGuardComments? {
      GuardCommentsKeepsInv(cfg, W, action.w);
    } else if action.ALeave? {
      LeaveKeepsInv(cfg, W, action.w);
    } else if action.ALeaveFinishAttempt? {
      LeaveFinishAttemptKeepsInv(cfg, W, action.w, action.superseded);
    } else if action.ALeaveMarkPublication? {
      LeaveMarkKeepsInv(cfg, W, action.w, action.failed);
    } else if action.ALeaveSuperseded? {
      LeaveTerminalKeepsInv(cfg, W, action.w);
    } else if action.ALeaveFailed? {
      LeaveTerminalKeepsInv(cfg, W, action.w);
    } else if action.AChooseResume? {
      ChooseResumeKeepsInv(cfg, W, action.w, action.publishing);
    } else if action.AReschedule? {
      RescheduleKeepsInv(cfg, W, action.w, action.retryAt);
    } else if action.ALand? {
      LandKeepsInv(cfg, W, action.w);
    } else if action.ACommentsReturn? {
      CommentsReturnKeepsInv(cfg, W, action.w, action.acknowledged);
    } else if action.AFinishPublishAttempt? {
      FinishPublishAttemptKeepsInv(cfg, W, action.w);
    } else if action.ACompleteNow? {
      CompletingKeepsInv(cfg, W, action.w, None);
    } else if action.AEnsureVote? {
      CompletingKeepsInv(cfg, W, action.w, action.decision);
    } else if action.ACompleteDeferred? {
      CompleteDeferredKeepsInv(cfg, W, action.w);
    } else if action.ALoadVote? {
      LoadVoteKeepsInv(cfg, W, action.w);
    } else if action.AObserveVote? {
      ObserveVoteKeepsInv(cfg, W, action.w, action.applied);
    } else if action.AGuardVote? {
      GuardVoteKeepsInv(cfg, W, action.w);
    } else if action.ADispatchVote? {
      DispatchVoteKeepsInv(cfg, W, action.w);
    } else if action.AVoteReturn? {
      VoteReturnKeepsInv(cfg, W, action.w, action.acknowledged, action.transient);
    } else if action.AVoteTransient? {
      VoteTransientKeepsInv(cfg, W, action.w);
    } else if action.AVoteGiveUp? {
      VoteGiveUpKeepsInv(cfg, W, action.w, action.skipped, action.bind);
    } else if action.ARetryVote? {
      RetryVoteKeepsInv(cfg, W, action.w);
    } else if action.AAfterVoteRetry? {
      AfterVoteRetryKeepsInv(cfg, W, action.w);
    } else {
      FinishVoteKeepsInv(cfg, W, action.w);
    }
  }

  lemma StepKeepsInv(cfg: Config, W: World, action: Action)
    requires Inv(cfg, W)
    ensures Inv(cfg, Next(cfg, W, action))
  {
    hide Inv, Abort, AfterVoteRetry, BeginPublication, CheckLatest, CheckPublishBudget, ChooseResume, Claim,
         CommentsReturn, CompleteDeferred, CompleteNow, Crash, DispatchVote, Enqueue, EnsureVote, EnterPublishing,
         FinishAttempt, FinishPublishAttempt, FinishReview, FinishVote, Goto, GuardComments, GuardVote, Heartbeat,
         Land, Leave, LeaveFailed, LeaveFinishAttempt, LeaveMarkPublication, LeaveSuperseded, LoadVote,
         MarkUncertain, ObserveVote, ReadConsumed, ReadMessages, ReadPublication, ReadStreak, Requeue, Reschedule,
         RetryVote, ReviewAttempt, ReviewTransition, SaveReview, SetProjectEnabled, SetReviewStartMode, Spawn,
         StartPublish, StartReview, Tick, UpsertProject, VoteGiveUp, VoteReturn, VoteTransient;
    if action.ATick? {
      TickKeepsInv(cfg, W, action.seconds);
    } else if action.ASpawn? {
      SpawnKeepsInv(cfg, W, action.w, action.account);
    } else if action.ACrash? {
      CrashKeepsInv(cfg, W, action.w);
    } else if action.AAbort? {
      AbortKeepsInv(cfg, W, action.w);
    } else if action.AEnqueue? {
      EnqueueKeepsInv(cfg, W, action.event, action.policyVersion, action.id);
    } else if action.ARequeue? {
      RequeueKeepsInv(cfg, W, action.id);
    } else if action.ASetProjectEnabled? {
      ScopeKeepsInv(cfg, W, action.project, action.enabled, FromNow);
    } else if action.ASetReviewStartMode? {
      ScopeKeepsInv(cfg, W, action.project, true, action.mode);
    } else if action.AUpsertProject? {
      ScopeKeepsInv(cfg, W, action.project, action.enabled, action.mode);
    } else if action.AClaim? {
      ClaimKeepsInv(cfg, W, action.w, action.id);
    } else if action.AHeartbeat? {
      HeartbeatKeepsInv(cfg, W, action.w, action.id);
    } else if action.AFinishAttempt? {
      FinishOtherAttemptKeepsInv(cfg, W, action.id, action.attempt, action.outcome);
    } else {
      WorkingKeepsInv(cfg, W, action);
    }
  }

  /** The invariant holds in every reachable world. */
  lemma {:induction false} RunKeepsInv(cfg: Config, now: Time, actions: seq<Action>)
    requires cfg.leaseSeconds > 0
    ensures Inv(cfg, Run(cfg, Init(now), actions))
    decreases |actions|
  {
    if actions != [] {
      hide Inv, Next, Init;
      var before := actions[..|actions| - 1];
      RunKeepsInv(cfg, now, before);
      var W, action := Run(cfg, Init(now), before), actions[|actions| - 1];
      StepKeepsInv(cfg, W, action);
    }
  }

  // ---- Publication ------------------------------------------------------------------------

  lemma {:induction false} CountTwice(log: seq<Post>, a: nat, b: nat)
    requires a < b < |log| && log[a].job == log[b].job && log[a].kind == log[b].kind
    ensures Landed(log, log[b].job, log[b].kind) >= 2
    decreases |log|
  {
    var init := log[..|log| - 1];
    if b < |init| {
      CountTwice(init, a, b);
    } else {
      LandedWitness(init, log[b].job, log[b].kind);
      assert init[a] == log[a];
    }
  }

  /** At most one comment review and at most one vote ever land for a job, and every comment review
      that lands carries the payload stored with the job's publication. */
  lemma {:induction false} AtMostOnePost(cfg: Config, now: Time, actions: seq<Action>)
    requires cfg.leaseSeconds > 0
    ensures var W := Run(cfg, Init(now), actions);
            && (forall a, b :: 0 <= a < b < |W.log| && W.log[a].kind == W.log[b].kind ==> W.log[a].job != W.log[b].job)
            && (forall a :: 0 <= a < |W.log| && W.log[a].kind.Comments? ==>
                  && W.log[a].job in W.jobs && W.jobs[W.log[a].job].publication.Some?
                  && W.log[a].payload == W.jobs[W.log[a].job].publication.value.payload)
  {
    var W := Run(cfg, Init(now), actions);
    RunKeepsInv(cfg, now, actions);
    forall a, b | 0 <= a < b < |W.log| && W.log[a].kind == W.log[b].kind ensures W.log[a].job != W.log[b].job {
      LandedOnce(cfg, W, b);
      hide Inv;
      if W.log[a].job == W.log[b].job { CountTwice(W.log, a, b); }
    }
    forall a | 0 <= a < |W.log| ensures PostOk(W.log[a], W.jobs) { }
  }

  lemma LandedOnce(cfg: Config, W: World, b: nat)
    requires Inv(cfg, W) && b < |W.log|
    ensures Landed(W.log, W.log[b].job, W.log[b].kind) <= 1
  {
    assert PostOk(W.log[b], W.jobs);
    assert RowOk(cfg, W, W.log[b].job);
  }

  /** Comment reviews of one change land in Patch Set order. */
  lemma {:induction false} PatchSetsPublishInOrder(cfg: Config, now: Time, actions: seq<Action>, a: nat, b: nat)
    requires cfg.leaseSeconds > 0
    requires var W := Run(cfg, Init(now), actions);
             a < b < |W.log| && W.log[a].kind.Comments? && W.log[b].kind.Comments?
    ensures var W := Run(cfg, Init(now), actions);
            && W.log[a].job in W.jobs && W.log[b].job in W.jobs
            && (SameChange(W.jobs[W.log[a].job], W.jobs[W.log[b].job]) ==>
                  W.jobs[W.log[a].job].patchset <= W.jobs[W.log[b].job].patchset)
  {
    var W := Run(cfg, Init(now), actions);
    RunKeepsInv(cfg, now, actions);
    assert PostOk(W.log[a], W.jobs) && PostOk(W.log[b], W.jobs);
  }

  /** A vote lands only after the job's comment review: its log entry comes later. */
  lemma {:induction false} VotesFollowComments(cfg: Config, now: Time, actions: seq<Action>, b: nat)
    requires cfg.leaseSeconds > 0
    requires var W := Run(cfg, Init(now), actions); b < |W.log| && W.log[b].kind.CodeReview?
    ensures var log := Run(cfg, Init(now), actions).log;
            exists a :: 0 <= a < b && log[a].kind.Comments? && log[a].job == log[b].job
    decreases |actions|
  {
    if actions != [] {
      var before, action := actions[..|actions| - 1], actions[|actions| - 1];
      var W, W' := Run(cfg, Init(now), before), Run(cfg, Init(now), actions);
      StepMoves(cfg, W, action, 0);
      if b < |W.log| {
        VotesFollowComments(cfg, now, before, b);
      } else {
        RunKeepsInv(cfg, now, before);
        hide Inv;
        FlightOwnsJob(cfg, W, action.w);
        LandedWitness(W.log, W'.log[b].job, Comments);
      }
    }
  }

  /** What a worker decides about the comments: it goes on towards a POST exactly when its Patch Set is the latest
      that is stored and not superseded; otherwise it completes what was posted without a vote, looks for what may
      have been posted, and leaves the rest.  Found comments are completed, with a vote only on the way to a POST. */
  lemma PublishDecides(W: World, w: WorkerId)
    requires Acting(W, w)
    ensures var pc, row := W.workers[w].pc, W.jobs[W.workers[w].pc.job];
            var latest := !row.state.Superseded?
                          && forall k :: k in W.jobs && W.jobs[k].identity.change == row.identity.change ==>
                               W.jobs[k].patchset <= row.patchset;
            pc.PublicationRead? ==>
              var next := CheckLatest(W, w).workers[w].pc;
              && next.job == pc.job && CheckLatest(W, w) == Goto(W, w, next)
              && (next.LatestPatchSet? || next.InPublishing? <==> latest)
              && (next.LatestPatchSet? <==> latest && pc.state.ReadyToPublish?)
              && (next.Completing? <==> !latest && pc.seen.Some? && pc.seen.value.status.Posted?)
              && (next.ResolvingSuperseded? <==>
                    !latest && pc.seen.Some? && (pc.seen.value.status.Pending? || pc.seen.value.status.Ambiguous?))
              && (next.Completing? ==> !next.allowVote)
    ensures var pc, next := W.workers[w].pc, ReadMessages(W, w).workers[w].pc;
            var found := exists i :: 0 <= i < |W.log| && W.log[i].job == pc.job && W.log[i].kind == Comments;
            && ((pc.Reconciling? || pc.ResolvingSuperseded?) && found ==> next == Completing(pc.job, pc.Reconciling?))
            && (pc.Reconciling? && !found ==> next == ObservedAbsent(pc.job, pc.payload))
            && (pc.ResolvingSuperseded? && !found ==> next == Leaving(pc.job, None, false))
  {
    hide Landed;
    LandedWitness(W.log, W.workers[w].pc.job, Comments);
  }

  /** What a worker decides about an open vote from what it observes: APPLIED exactly when its marker is found with the
      value, SKIPPED exactly when it may not vote, a POST exactly when nothing was found, the account is the one that
      began and both budgets have room, FAILED otherwise; a terminal vote is only finished. */
  lemma ObservationDecides(cfg: Config, pc: Pc, account: AccountId, found: bool, applied: bool)
    requires pc.VoteLoaded?
    ensures var next, vote := AfterObservation(cfg, pc, account, found, applied), pc.vote;
            var own := vote.account.None? || vote.account == Some(account);
            && next.job == pc.job
            && (next.VoteAbsent? <==>
                  && !IsTerminalVote(vote.status) && pc.allowVote && own && !found
                  && vote.attempts < cfg.publishAttempts && vote.retryCount < cfg.publishAttempts)
            && (!next.VoteAbsent? ==>
                  && next.VoteFinishing?
                  && (if IsTerminalVote(vote.status) then next.status == vote.status && next.account.None?
                      else
                        && (next.status.VoteSkipped? <==> !pc.allowVote)
                        && (next.status.VoteApplied? <==> pc.allowVote && own && found && applied)
                        && (next.status.VoteApplied? <==> next.account == Some(account))
                        && IsTerminalVote(next.status)))
  {
  }

  /** A vote is recorded as APPLIED only when it landed: Gerrit's log holds it, under the account that is stored. */
  lemma AppliedVotesLanded(cfg: Config, now: Time, actions: seq<Action>, id: JobId)
    requires cfg.leaseSeconds > 0
    requires var W := Run(cfg, Init(now), actions);
             id in W.jobs && W.jobs[id].vote.Some? && W.jobs[id].vote.value.status.VoteApplied?
    ensures var W := Run(cfg, Init(now), actions);
            exists b :: 0 <= b < |W.log| && W.log[b].job == id && W.log[b].kind == CodeReview
                        && Some(W.log[b].account) == W.jobs[id].vote.value.account
  {
    var W := Run(cfg, Init(now), actions);
    RunKeepsInv(cfg, now, actions);
    assert RowOk(cfg, W, id);
    LandedWitness(W.log, id, CodeReview);
    var b :| 0 <= b < |W.log| && W.log[b].job == id && W.log[b].kind == CodeReview;
    assert PostOk(W.log[b], W.jobs);
  }

  // ---- Supersession -----------------------------------------------------------------------

  lemma {:induction false} ClaimedStays(cfg: Config, W: World, later: seq<Action>, id: JobId)
    requires id in W.claimed
    ensures id in Run(cfg, W, later).claimed
    decreases |later|
  {
    if later != [] {
      var before := later[..|later| - 1];
      ClaimedStays(cfg, W, before, id);
      StepMoves(cfg, Run(cfg, W, before), later[|later| - 1], 0);
      hide Next;
    }
  }

  lemma {:induction false} RunSplits(cfg: Config, W: World, first: seq<Action>, later: seq<Action>)
    ensures Run(cfg, W, first + later) == Run(cfg, Run(cfg, W, first), later)
    decreases |later|
  {
    if later == [] {
      assert first + later == first;
    } else {
      var shorter := later[..|later| - 1];
      RunSplits(cfg, W, first, shorter);
      assert (first + later)[..|first + later| - 1] == first + shorter;
    }
  }

  /** From the first claim of a job on, every earlier Patch Set of its change is terminal, whatever
      happens afterwards. */
  lemma EldersStayTerminal(cfg: Config, now: Time, first: seq<Action>, later: seq<Action>, id: JobId, elder: JobId)
    requires cfg.leaseSeconds > 0
    requires id in Run(cfg, Init(now), first).claimed
    requires var W := Run(cfg, Run(cfg, Init(now), first), later);
             id in W.jobs && elder in W.jobs && Elder(W.jobs[elder], W.jobs[id])
    ensures IsTerminal(Run(cfg, Run(cfg, Init(now), first), later).jobs[elder].state)
  {
    var W := Run(cfg, Run(cfg, Init(now), first), later);
    RunSplits(cfg, Init(now), first, later);
    RunKeepsInv(cfg, now, first + later);
    ClaimedStays(cfg, Run(cfg, Init(now), first), later, id);
    assert PairOk(W.jobs[elder], W.jobs[id], id in W.live, id in W.claimed);
  }

  // ---- Leases, budgets and persisted states -----------------------------------------------

  predicate ClaimsFor(action: Action, w: WorkerId) {
    action.AClaim? && action.w == w
  }

  /** A worker that holds a live lease now and has claimed nothing since an earlier world held it
      live in that world, too.  Applied to every prefix: a guard that answers OK proves that the job
      was never anybody else's since the claim, so what the worker read of Gerrit still holds. */
  lemma {:induction false} LeaseHeldThroughout(cfg: Config, W: World, later: seq<Action>, id: JobId, w: WorkerId)
    requires id in W.jobs
    requires forall k :: 0 <= k < |later| ==> !ClaimsFor(later[k], w)
    requires var W' := Run(cfg, W, later); id in W'.jobs ==> LiveLease(W'.jobs[id], w, W'.now)
    ensures id in Run(cfg, W, later).jobs
    ensures forall k :: 0 <= k <= |later| ==>
      var P := Run(cfg, W, later[..k]); id in P.jobs && LiveLease(P.jobs[id], w, P.now)
    decreases |later|
  {
    JobsStay(cfg, W, later, id);
    if later != [] {
      var before := later[..|later| - 1];
      var P := Run(cfg, W, before);
      JobsStay(cfg, W, before, id);
      StepMoves(cfg, P, later[|later| - 1], id);
      hide Next;
      assert Run(cfg, W, later) == Next(cfg, P, later[|later| - 1]);
      assert ClaimerOf(P, later[|later| - 1]) != Some(w);
      LeaseHeldThroughout(cfg, W, before, id, w);
      forall k | 0 <= k <= |later|
        ensures var Q := Run(cfg, W, later[..k]); id in Q.jobs && LiveLease(Q.jobs[id], w, Q.now)
      {
        if k == |later| { assert later[..k] == later; } else { assert later[..k] == before[..k]; }
      }
    } else {
      assert forall k :: 0 <= k <= |later| ==> later[..k] == later;
    }
  }

  lemma {:induction false} JobsStay(cfg: Config, W: World, later: seq<Action>, id: JobId)
    requires id in W.jobs
    ensures id in Run(cfg, W, later).jobs
    decreases |later|
  {
    if later != [] {
      hide Next, RowMoves;
      JobsStay(cfg, W, later[..|later| - 1], id);
      StepMoves(cfg, Run(cfg, W, later[..|later| - 1]), later[|later| - 1], id);
    }
  }

  /** A terminal vote keeps its status, a bound account stays bound, and a durable review result or
      publication payload never changes, whatever happens later. */
  lemma {:induction false} DurableRowsAreFinal(cfg: Config, W: World, later: seq<Action>, id: JobId)
    requires id in W.jobs
    ensures id in Run(cfg, W, later).jobs
    ensures var row, row' := W.jobs[id], Run(cfg, W, later).jobs[id];
            && row'.identity == row.identity && row'.patchset == row.patchset
            && (row.result.Some? ==> row'.result == row.result)
            && (row.publication.Some? ==>
                  row'.publication.Some? && row'.publication.value.payload == row.publication.value.payload)
            && (row.vote.Some? ==> row'.vote.Some? && VoteMoves(row.vote.value, row'.vote.value))
    decreases |later|
  {
    if later != [] {
      var before := later[..|later| - 1];
      DurableRowsAreFinal(cfg, W, before, id);
      StepMoves(cfg, Run(cfg, W, before), later[|later| - 1], id);
      hide Next;
    }
  }

  /** Within one retry epoch at most `publishAttempts` comment POSTs leave for Gerrit, and a vote is
      dispatched at most as often, over any number of claims and crashes. */
  lemma {:induction false} PostsWithinBudget(cfg: Config, now: Time, actions: seq<Action>, id: JobId)
    requires cfg.leaseSeconds > 0
    requires id in Run(cfg, Init(now), actions).jobs
    ensures var W := Run(cfg, Init(now), actions);
            && |InEpoch(Sent(W, id), W.jobs[id].epochStart)| <= cfg.publishAttempts
            && (W.jobs[id].vote.Some? ==> W.jobs[id].vote.value.attempts <= cfg.publishAttempts)
  {
    var W := Run(cfg, Init(now), actions);
    RunKeepsInv(cfg, now, actions);
    assert RowOk(cfg, W, id);
  }

  lemma LiveBranches(cfg: Config, W: World, id: JobId, w: WorkerId)
    requires Inv(cfg, W) && id in W.jobs
    ensures var row := W.jobs[id];
            && (IsTerminal(row.state) ==> row.lease.None?)
            && (row.state.RetryWait? ==> row.retryState.Some? && ValidRetryTarget(row.retryState.value))
            && (IsPublishState(row.state) ==> row.result.Some?)
            && (Claimable(W.jobs, W.projects, id, W.now) ==> ClaimRow(row, w, cfg.leaseSeconds, W.now).Ok?)
            && (row.lease.Some? ==> forall target :: !CheckTransition(row.state, target).MissingRow?)
            && (w in W.workers && W.workers[w].pc.PublishClaimed? && W.workers[w].pc.job == id ==> row.result.Some?)
  {
    hide Inv, HasNewer, Landed, SeenOk, PayloadOk;
    RowFacts(cfg, W, id);
    if w in W.workers { WorkerFacts(cfg, W, w); }
  }

  /** What a reachable row looks like, and the branches this makes dead: a claim never meets a
      RETRY_WAIT row without a target, a leased row is never looked up in a missing line of the
      transition table, and a worker sent to publish finds the review result. */
  lemma {:induction false} ReachableRows(cfg: Config, now: Time, actions: seq<Action>, id: JobId, w: WorkerId)
    requires cfg.leaseSeconds > 0
    requires id in Run(cfg, Init(now), actions).jobs
    ensures var W := Run(cfg, Init(now), actions);
            var row := W.jobs[id];
            && (IsTerminal(row.state) ==> row.lease.None?)
            && (row.state.RetryWait? ==> row.retryState.Some? && ValidRetryTarget(row.retryState.value))
            && (IsPublishState(row.state) ==> row.result.Some?)
            && (Claimable(W.jobs, W.projects, id, W.now) ==> ClaimRow(row, w, cfg.leaseSeconds, W.now).Ok?)
            && (row.lease.Some? ==> forall target :: !CheckTransition(row.state, target).MissingRow?)
            && (w in W.workers && W.workers[w].pc.PublishClaimed? && W.workers[w].pc.job == id ==> row.result.Some?)
  {
    hide *;
    RunKeepsInv(cfg, now, actions);
    LiveBranches(cfg, Run(cfg, Init(now), actions), id, w);
  }
}
