/** Each row transaction keeps the row invariant and disturbs no other worker. */
module ProtocolRows {
  import opened Wrappers
  import opened StateMachine
  import opened JobRows
  import opened Protocol
  import opened ProtocolInvariant

  /** A row together with the parts of the world its invariant mentions. */
  datatype View = View(row: Job, comments: nat, votes: nat, live: bool, claimed: bool, sent: set<nat>)

  ghost predicate ViewOk(cfg: Config, v: View) {
    JobOk(cfg, v.row, v.comments, v.votes, v.live, v.claimed, v.sent)
  }

  /** `row'` may replace the row of `v` in a step of `mover` that sends nothing. */
  ghost predicate Keeps(cfg: Config, v: View, row': Job, mover: Option<WorkerId>, now: Time) {
    && RowStep(v.row, row', v.sent, v.sent, mover, now)
    && Settles(v.row, row')
    && ViewOk(cfg, v.(row := row'))
  }

  lemma ReviewTransitionKeeps(cfg: Config, v: View, target: JobState, w: WorkerId, now: Time)
    requires ViewOk(cfg, v) && (target.Fetching? || target.Reviewing? || target.Validating?)
    ensures var r := TransitionRow(v.row, target, w, false, now);
            r.Ok? ==> Keeps(cfg, v, r.value, Some(w), now) && IsReviewState(r.value.state)
  {
  }

  lemma EnterPublishingKeeps(cfg: Config, v: View, w: WorkerId, now: Time)
    requires ViewOk(cfg, v)
    ensures var r := TransitionRow(v.row, Publishing, w, false, now);
            r.Ok? ==> Keeps(cfg, v, r.value, Some(w), now) && r.value.state.Publishing?
  {
  }

  lemma ScheduleRetryKeeps(cfg: Config, v: View, resume: JobState, retryAt: Time, w: WorkerId, now: Time)
    requires ViewOk(cfg, v)
    requires OwnedBy(v.row, w) ==> resume == v.row.state || (v.row.state.ReadyToPublish? && resume.Publishing?)
    ensures var r := ScheduleRetryRow(v.row, resume, retryAt, w, now);
            r.Ok? ==> Keeps(cfg, v, r.value, Some(w), now)
  {
  }

  lemma MarkFailedKeeps(cfg: Config, v: View, w: WorkerId, now: Time)
    requires ViewOk(cfg, v)
    ensures var r := MarkFailedPermanentRow(v.row, w, now); r.Ok? ==> Keeps(cfg, v, r.value, Some(w), now)
  {
  }

  lemma MarkSupersededKeeps(cfg: Config, v: View, w: WorkerId, now: Time)
    requires ViewOk(cfg, v)
    ensures var r := MarkSupersededRow(v.row, w, now); r.Ok? ==> Keeps(cfg, v, r.value, Some(w), now)
  {
  }

  lemma HeartbeatKeeps(cfg: Config, v: View, w: WorkerId, now: Time)
    requires ViewOk(cfg, v)
    ensures var r := HeartbeatRow(v.row, w, cfg.leaseSeconds, now); r.Ok? ==> Keeps(cfg, v, r.value, Some(w), now)
  {
  }

  lemma GuardKeeps(cfg: Config, v: View, newer: bool, w: WorkerId, now: Time)
    requires ViewOk(cfg, v)
    ensures var r := RefreshGuardRow(v.row, newer, w, cfg.leaseSeconds, now); Keeps(cfg, v, r.1, Some(w), now)
  {
  }

  lemma StartAttemptKeeps(cfg: Config, v: View, stage: Stage, w: WorkerId, now: Time)
    requires ViewOk(cfg, v)
    ensures var r := StartAttemptRow(v.row, stage, w, now); r.Ok? ==> Keeps(cfg, v, r.value, Some(w), now)
  {
  }

  /** Finishing is safe for anyone who does not call a sent, unconfirmed POST a success. */
  lemma FinishAttemptKeeps(cfg: Config, v: View, a: nat, outcome: Outcome, mover: Option<WorkerId>, now: Time)
    requires ViewOk(cfg, v) && a < |v.row.attempts|
    requires v.row.attempts[a].stage.PublishStage? ==>
      && mover == Some(v.row.attempts[a].worker)
      && (v.comments > 0 || a !in v.sent || outcome == Failed(false))
    ensures var r := FinishAttemptRow(v.row, a, outcome); r.Ok? ==> Keeps(cfg, v, r.value, mover, now)
  {
  }

  lemma SaveReviewKeeps(cfg: Config, v: View, review: string, w: WorkerId, now: Time)
    requires ViewOk(cfg, v) && (OwnedBy(v.row, w) ==> !v.row.state.Publishing?)
    ensures var r := SaveReviewResultRow(v.row, review, w, now); r.Ok? ==> Keeps(cfg, v, r.value, Some(w), now)
  {
  }

  lemma BeginPublicationKeeps(cfg: Config, v: View, payload: string, w: WorkerId, now: Time)
    requires ViewOk(cfg, v)
    ensures var r := BeginPublicationRow(v.row, payload, w, now);
            r.Ok? ==> Keeps(cfg, v, r.value, Some(w), now) && PayloadOk(payload, r.value)
  {
  }

  lemma CompletePublicationKeeps(cfg: Config, v: View, w: WorkerId, deferDone: bool, now: Time)
    requires ViewOk(cfg, v) && v.comments > 0
    ensures var r := CompletePublicationRow(v.row, w, deferDone, now); r.Ok? ==> Keeps(cfg, v, r.value, Some(w), now)
  {
  }

  lemma MarkPublicationKeeps(cfg: Config, v: View, status: PublicationStatus, w: WorkerId, now: Time)
    requires ViewOk(cfg, v) && !status.Posted?
    ensures var r := MarkPublicationRow(v.row, status); r.Ok? ==> Keeps(cfg, v, r.value, Some(w), now)
  {
  }

  lemma EnsureVoteKeeps(cfg: Config, v: View, decision: Option<int>, w: WorkerId, now: Time)
    requires ViewOk(cfg, v) && v.comments > 0
    ensures var r := EnsureVoteRow(v.row, decision, w, now); r.Ok? ==> Keeps(cfg, v, r.value, Some(w), now)
  {
  }

  lemma DispatchVoteKeeps(cfg: Config, v: View, account: AccountId, w: WorkerId, now: Time)
    requires ViewOk(cfg, v)
    requires OwnedBy(v.row, w) ==> CastableRow(cfg, v.row, account)
    ensures var r := DispatchVoteRow(v.row, account, w, now);
            r.Ok? ==> Keeps(cfg, v, r.value, Some(w), now)
                      && r.value.vote.Some? && r.value.vote.value.account == Some(account)
  {
  }

  lemma RetryVoteKeeps(cfg: Config, v: View, w: WorkerId, now: Time)
    requires ViewOk(cfg, v)
    ensures var r := RetryVoteRow(v.row, w, now); r.Ok? ==> Keeps(cfg, v, r.value, Some(w), now)
  {
  }

  lemma FinishVoteKeeps(cfg: Config, v: View, status: VoteStatus, account: Option<AccountId>, w: WorkerId, now: Time)
    requires ViewOk(cfg, v) && (status.VoteApplied? ==> v.votes > 0)
    ensures var r := FinishVoteRow(v.row, status, account, w, now); r.Ok? ==> Keeps(cfg, v, r.value, Some(w), now)
  {
  }

  lemma ClaimKeeps(cfg: Config, v: View, w: WorkerId, now: Time)
    requires ViewOk(cfg, v) && !IsTerminal(v.row.state) && LeaseFree(v.row, now)
    ensures var r := ClaimRow(v.row, w, cfg.leaseSeconds, now);
            r.Ok? && Keeps(cfg, v.(claimed := true), r.value, Some(w), now)
            && (IsReviewState(r.value.state) || IsPublishState(r.value.state))
            && (IsPublishState(r.value.state) ==> r.value.result.Some?)
  {
  }
}
