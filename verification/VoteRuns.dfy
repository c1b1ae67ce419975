/** Runs of the protocol in which one comment review lands and the vote is then retried as often as the limit
    and the abandoned claims permit (voting.py).  One worker does all the work; no administrator is needed. */
module VoteRuns {
  import opened Wrappers
  import opened StateMachine
  import opened JobRows
  import opened RetryBudget
  import opened Protocol
  import opened ProtocolBudgets
  import opened ProtocolPaths
  import opened ReviewRuns

  const POSTED := Post(JOB, Comments, "c", ACCOUNT)

  lemma NoNewer(s: Scene)
    requires Alone(s)
    ensures !HasNewer(s.jobs, Row(s))
  {
  }

  // ---- From the review to the landed comments ---------------------------------------------

  /** The review is saved, and nothing is published yet. */
  predicate Reviewed(s: Scene) {
    && Alone(s) && s.projects == map[] && s.pcs[0].Idle? && s.pcs[1].Idle? && s.log == []
    && Row(s).state.ReadyToPublish? && LeaseFree(Row(s), s.now) && Row(s).result.Some? && Row(s).publication.None?
    && Row(s).vote.None? && forall a :: 0 <= a < |Row(s).attempts| ==> !Row(s).attempts[a].stage.PublishStage?
  }

  lemma FirstReview(cfg: Config) returns (p: Path, s: Scene, a: nat)
    requires cfg.leaseSeconds > 0 && cfg.reviewAttempts >= 1
    ensures Stands(cfg, p, s) && p.tally == NOTHING && Running(s, 0, a) && Holds(s, 0, JOB) && s.log == []
    ensures Unpublished(Row(s)) && s.pcs[1].Idle? && s.projects == map[] && s.pcs.Keys == {0, 1}
  {
    hide Stands, EpochReviews, CountCharged, Streak, IsLast, Due, Unpublished;
    p, s := Opening(cfg);
    p, s, a := Runs(cfg, p, s, 0, 0, 0, 0);
  }

  lemma Saves(cfg: Config) returns (p: Path, s': Scene)
    requires cfg.leaseSeconds > 0 && cfg.reviewAttempts >= 1
    ensures Stands(cfg, p, s') && p.tally == NOTHING && Reviewed(s') && s'.pcs.Keys == {0, 1}
  {
    hide Stands, Changed, EpochReviews;
    var s, a;
    p, s, a := FirstReview(cfg);
    LastStage(Row(s), a);
    var validating := Row(s).(state := Validating, retryState := None);
    p := TransitionStep(cfg, p, s, 0, ReviewRunning(JOB, a), Validating);
    StillAlone(s, 0, validating, ReviewRunning(JOB, a));
    p := SaveStep(cfg, p, Changed(s, 0, JOB, validating, ReviewRunning(JOB, a)), 0, a);
    var saved := validating.(state := ReadyToPublish, retryState := None, lease := None, result := Some("ok"));
    SameScene(s, 0, validating, saved, ReviewRunning(JOB, a), ReviewSaved(JOB, a));
    StillAlone(s, 0, saved, ReviewSaved(JOB, a));
    p := FinishSavedStep(cfg, p, Changed(s, 0, JOB, saved, ReviewSaved(JOB, a)), 0, a);
    var row := saved.(attempts := Finished(saved.attempts, a, Succeeded));
    SameScene(s, 0, saved, row, ReviewSaved(JOB, a), Idle);
    StillAlone(s, 0, row, Idle);
    s' := Changed(s, 0, JOB, row, Idle);
  }

  function Leased(cfg: Config, s: Scene, row: Job): Job {
    row.(lease := Some(Lease(0, s.now + cfg.leaseSeconds)))
  }

  lemma ReadyClaim(cfg: Config, s: Scene, t: Tally)
    requires Reviewed(s) && !t.unsettled
    ensures Claimable(s.jobs, s.projects, JOB, s.now)
    ensures ClaimRow(Row(s), 0, cfg.leaseSeconds, s.now) == Ok(Leased(cfg, s, Row(s)))
    ensures forall row' :: Count(t, Row(s), row', AClaim(0, JOB)) == t
  {
  }

  /** The row behind an observed absence. */
  function Prepared(cfg: Config, s: Scene): Job
    requires Alone(s)
  {
    Leased(cfg, s, Row(s)).(state := Publishing, retryState := None, publication := Some(Publication(Pending, "c")),
                            attempts := Row(s).attempts + [Attempt(ReconcileStage, 0, Unfinished)])
  }

  lemma Enters(cfg: Config, p: Path, s: Scene) returns (p': Path)
    requires Stands(cfg, p, s) && Reviewed(s) && cfg.leaseSeconds > 0 && !p.tally.unsettled
    ensures var row := Leased(cfg, s, Row(s)).(state := Publishing, retryState := None);
            Stands(cfg, p', Changed(s, 0, JOB, row, InPublishing(JOB, None))) && p'.tally == p.tally
  {
    hide Stands, Changed, Moved, Claimable, ClaimRow, Count, HasNewer;
    ReadyClaim(cfg, s, p.tally);
    var row := Leased(cfg, s, Row(s));
    p' := ClaimStep(cfg, p, s, 0, JOB, row, PublishClaimed(JOB, ReadyToPublish));
    StillAlone(s, 0, row, PublishClaimed(JOB, ReadyToPublish));
    p' := ReadStep(cfg, p', Changed(s, 0, JOB, row, PublishClaimed(JOB, ReadyToPublish)), 0, JOB, ReadyToPublish);
    SameScene(s, 0, row, row, PublishClaimed(JOB, ReadyToPublish), PublicationRead(JOB, ReadyToPublish, None));
    StillAlone(s, 0, row, PublicationRead(JOB, ReadyToPublish, None));
    NoNewer(Changed(s, 0, JOB, row, PublicationRead(JOB, ReadyToPublish, None)));
    p' := LatestStep(cfg, p', Changed(s, 0, JOB, row, PublicationRead(JOB, ReadyToPublish, None)), 0, JOB, ReadyToPublish,
                     None);
    SameScene(s, 0, row, row, PublicationRead(JOB, ReadyToPublish, None), LatestPatchSet(JOB, None));
    StillAlone(s, 0, row, LatestPatchSet(JOB, None));
    p' := EnterStep(cfg, p', Changed(s, 0, JOB, row, LatestPatchSet(JOB, None)), 0, None);
    SameScene(s, 0, row, row.(state := Publishing, retryState := None), LatestPatchSet(JOB, None), InPublishing(JOB, None));
  }

  lemma Observes(cfg: Config, p: Path, s: Scene) returns (p': Path)
    requires Stands(cfg, p, s) && Reviewed(s) && cfg.leaseSeconds > 0 && !p.tally.unsettled
    ensures Stands(cfg, p', Changed(s, 0, JOB, Prepared(cfg, s), ObservedAbsent(JOB, "c"))) && p'.tally == p.tally
  {
    hide Stands, Changed, Moved;
    p' := Enters(cfg, p, s);
    var row := Leased(cfg, s, Row(s)).(state := Publishing, retryState := None);
    StillAlone(s, 0, row, InPublishing(JOB, None));
    p' := BeginStep(cfg, p', Changed(s, 0, JOB, row, InPublishing(JOB, None)), 0, "c");
    var begun := row.(publication := Some(Publication(Pending, "c")));
    var seen := InPublishing(JOB, Some(Publication(Pending, "c")));
    SameScene(s, 0, row, begun, InPublishing(JOB, None), seen);
    StillAlone(s, 0, begun, seen);
    p' := ReconcileStep(cfg, p', Changed(s, 0, JOB, begun, seen), 0, Publication(Pending, "c"));
    var prepared := Prepared(cfg, s);
    SameScene(s, 0, begun, prepared, seen, Reconciling(JOB, "c"));
    StillAlone(s, 0, prepared, Reconciling(JOB, "c"));
    p' := AbsentStep(cfg, p', Changed(s, 0, JOB, prepared, Reconciling(JOB, "c")), 0, "c");
    SameScene(s, 0, prepared, prepared, Reconciling(JOB, "c"), ObservedAbsent(JOB, "c"));
  }

  lemma Prepares(cfg: Config, p: Path, s: Scene) returns (p': Path)
    requires Stands(cfg, p, s) && Reviewed(s) && cfg.leaseSeconds > 0 && cfg.publishAttempts >= 1 && !p.tally.unsettled
    ensures Stands(cfg, p', Changed(s, 0, JOB, Prepared(cfg, s), PublishAllowed(JOB, "c"))) && p'.tally == p.tally
  {
    hide Stands, Changed, Moved;
    var prepared := Prepared(cfg, s);
    p' := Observes(cfg, p, s);
    StillAlone(s, 0, prepared, ObservedAbsent(JOB, "c"));
    p' := AllowStep(cfg, p', Changed(s, 0, JOB, prepared, ObservedAbsent(JOB, "c")), 0, "c");
    SameScene(s, 0, prepared, prepared, ObservedAbsent(JOB, "c"), PublishAllowed(JOB, "c"));
  }

  /** The row once the POST is on its way. */
  function Sent(row: Job, w: WorkerId): Job {
    row.(publication := Some(Publication(Ambiguous, "c")),
         attempts := row.attempts + [Attempt(PublishStage, w, Unfinished)])
  }

  lemma Marks(cfg: Config, p: Path, s: Scene, w: WorkerId, row: Job) returns (p': Path)
    requires Stands(cfg, p, Changed(s, w, JOB, row, PublishAllowed(JOB, "c"))) && Alone(s) && w in s.pcs
    requires FirstRow(row) && row.publication == Some(Publication(Pending, "c"))
    requires row.lease == Some(Lease(w, s.now + cfg.leaseSeconds)) && cfg.leaseSeconds > 0
    ensures Stands(cfg, p', Changed(s, w, JOB, Sent(row, w), UncertaintyMarked(JOB, "c", |row.attempts|)))
    ensures p'.tally == p.tally
  {
    hide Stands, Changed, Moved;
    var a := |row.attempts|;
    StillAlone(s, w, row, PublishAllowed(JOB, "c"));
    p' := StartPublishStep(cfg, p, Changed(s, w, JOB, row, PublishAllowed(JOB, "c")), w, "c");
    var begun := row.(attempts := row.attempts + [Attempt(PublishStage, w, Unfinished)]);
    SameScene(s, w, row, begun, PublishAllowed(JOB, "c"), AttemptStarted(JOB, "c", a));
    StillAlone(s, w, begun, AttemptStarted(JOB, "c", a));
    p' := MarkStep(cfg, p', Changed(s, w, JOB, begun, AttemptStarted(JOB, "c", a)), w, "c", a);
    SameScene(s, w, begun, Sent(row, w), AttemptStarted(JOB, "c", a), UncertaintyMarked(JOB, "c", a));
  }

  lemma Sends(cfg: Config, p: Path, s: Scene, w: WorkerId, row: Job) returns (p': Path)
    requires Stands(cfg, p, Changed(s, w, JOB, row, PublishAllowed(JOB, "c"))) && Alone(s) && w in s.pcs
    requires FirstRow(row) && row.state.Publishing? && row.publication == Some(Publication(Pending, "c"))
    requires row.lease == Some(Lease(w, s.now + cfg.leaseSeconds)) && cfg.leaseSeconds > 0
    ensures var a := |row.attempts|;
            Stands(cfg, p', Changed(s, w, JOB, Sent(row, w), Posting(JOB, "c", a, s.now + cfg.leaseSeconds, false)))
            && p'.tally == p.tally
  {
    hide Stands, Changed, Moved, HasNewer;
    var a := |row.attempts|;
    p' := Marks(cfg, p, s, w, row);
    StillAlone(s, w, Sent(row, w), UncertaintyMarked(JOB, "c", a));
    NoNewer(Changed(s, w, JOB, Sent(row, w), UncertaintyMarked(JOB, "c", a)));
    p' := SendStep(cfg, p', Changed(s, w, JOB, Sent(row, w), UncertaintyMarked(JOB, "c", a)), w, "c", a);
    SameScene(s, w, Sent(row, w), Sent(row, w), UncertaintyMarked(JOB, "c", a),
              Posting(JOB, "c", a, s.now + cfg.leaseSeconds, false));
  }

  /** The POST lands and is acknowledged; the scene has the one log entry. */
  lemma Posts(cfg: Config, p: Path, s: Scene, w: WorkerId, row: Job) returns (p': Path)
    requires Stands(cfg, p, Changed(s, w, JOB, row, PublishAllowed(JOB, "c"))) && Alone(s) && w in s.pcs && cfg.leaseSeconds > 0
    requires FirstRow(row) && row.state.Publishing? && row.publication == Some(Publication(Pending, "c"))
    requires row.lease == Some(Lease(w, s.now + cfg.leaseSeconds)) && s.log == []
    ensures var sent := Sent(row, w);
            var done := sent.(attempts := Finished(sent.attempts, |row.attempts|, Succeeded));
            Stands(cfg, p', Changed(s.(log := [POSTED]), w, JOB, done, Completing(JOB, true))) && p'.tally == p.tally
  {
    hide Stands, Changed, Moved;
    p' := Sends(cfg, p, s, w, row);
    var a, deadline, sent := |row.attempts|, s.now + cfg.leaseSeconds, Sent(row, w);
    StillAlone(s, w, sent, Posting(JOB, "c", a, deadline, false));
    p' := LandStep(cfg, p', Changed(s, w, JOB, sent, Posting(JOB, "c", a, deadline, false)), w, "c", a, deadline);
    var l := s.(log := [POSTED]);
    LandedScene(s, w, sent, Posting(JOB, "c", a, deadline, false), Posting(JOB, "c", a, deadline, true));
    StillAlone(l, w, sent, Posting(JOB, "c", a, deadline, true));
    p' := AcknowledgeStep(cfg, p', Changed(l, w, JOB, sent, Posting(JOB, "c", a, deadline, true)), w, "c", a, deadline);
    SameScene(l, w, sent, sent, Posting(JOB, "c", a, deadline, true), Acknowledged(JOB, a));
    StillAlone(l, w, sent, Acknowledged(JOB, a));
    p' := FinishPublishStep(cfg, p', Changed(l, w, JOB, sent, Acknowledged(JOB, a)), w, a);
    SameScene(l, w, sent, sent.(attempts := Finished(sent.attempts, a, Succeeded)), Acknowledged(JOB, a),
              Completing(JOB, true));
  }

  lemma LandedScene(s: Scene, w: WorkerId, row: Job, pc: Pc, pc': Pc)
    requires s.log == []
    ensures Moved(Changed(s, w, JOB, row, pc), w, pc').(log := Changed(s, w, JOB, row, pc).log + [POSTED])
         == Changed(s.(log := [POSTED]), w, JOB, row, pc')
  {
    SameScene(s, w, row, row, pc, pc');
    assert [] + [POSTED] == [POSTED];
  }

  // ---- One pass of the vote ---------------------------------------------------------------

  /** The comments are durable, the vote is `vote`, and the next claim is due. */
  predicate VoteDue(s: Scene, vote: Vote) {
    && Alone(s) && s.pcs[0].Idle? && s.log == [POSTED]
    && Row(s).publication.Some? && Row(s).publication.value.status.Posted? && Row(s).result.Some?
    && Row(s).vote == Some(vote) && !IsTerminalVote(vote.status)
    && (|| (Row(s).state.Publishing? && Row(s).lease.Some? && Row(s).lease.value.expires <= s.now)
        || (Row(s).state.RetryWait? && Row(s).retryState == Some(Publishing) && Row(s).lease.None?
            && Row(s).nextAttemptAt <= s.now))
  }

  /** The row of the claim that works on the vote. */
  function Voting(cfg: Config, s: Scene): Job
    requires Alone(s)
  {
    Leased(cfg, s, Row(s)).(state := Publishing, retryState := None)
  }

  function Claimed(t: Tally): Tally {
    if t.unsettled then t.(unsettled := false, stranded := t.stranded + 1) else t
  }

  lemma VoteClaim(cfg: Config, s: Scene, vote: Vote, t: Tally) returns (row: Job)
    requires VoteDue(s, vote) && cfg.leaseSeconds > 0
    ensures Claimable(s.jobs, s.projects, JOB, s.now)
    ensures ClaimRow(Row(s), 0, cfg.leaseSeconds, s.now) == Ok(row) && row.(retryState := None) == Voting(cfg, s)
    ensures Count(t, Row(s), row, AClaim(0, JOB)) == Claimed(t)
  {
    row := ClaimRow(Row(s), 0, cfg.leaseSeconds, s.now).value;
  }

  /** Up to the completion of the comments, which are found posted. */
  lemma FindsPosted(cfg: Config, p: Path, s: Scene, vote: Vote) returns (p': Path, row: Job)
    requires Stands(cfg, p, s) && VoteDue(s, vote) && cfg.leaseSeconds > 0
    ensures Stands(cfg, p', Changed(s, 0, JOB, row, Completing(JOB, true))) && p'.tally == Claimed(p.tally)
    ensures row.(retryState := None) == Voting(cfg, s)
  {
    hide Stands, Changed, Moved, Claimable, ClaimRow, Count, HasNewer;
    row := VoteClaim(cfg, s, vote, p.tally);
    var seen := Row(s).publication;
    p' := ClaimStep(cfg, p, s, 0, JOB, row, PublishClaimed(JOB, Publishing));
    StillAlone(s, 0, row, PublishClaimed(JOB, Publishing));
    p' := ReadStep(cfg, p', Changed(s, 0, JOB, row, PublishClaimed(JOB, Publishing)), 0, JOB, Publishing);
    SameScene(s, 0, row, row, PublishClaimed(JOB, Publishing), PublicationRead(JOB, Publishing, seen));
    StillAlone(s, 0, row, PublicationRead(JOB, Publishing, seen));
    NoNewer(Changed(s, 0, JOB, row, PublicationRead(JOB, Publishing, seen)));
    p' := LatestStep(cfg, p', Changed(s, 0, JOB, row, PublicationRead(JOB, Publishing, seen)), 0, JOB, Publishing, seen);
    SameScene(s, 0, row, row, PublicationRead(JOB, Publishing, seen), InPublishing(JOB, seen));
    StillAlone(s, 0, row, InPublishing(JOB, seen));
    p' := PostedStep(cfg, p', Changed(s, 0, JOB, row, InPublishing(JOB, seen)), 0, seen.value);
    SameScene(s, 0, row, row, InPublishing(JOB, seen), Completing(JOB, true));
  }

  lemma Loads(cfg: Config, p: Path, s: Scene, vote: Vote) returns (p': Path)
    requires Stands(cfg, p, s) && VoteDue(s, vote) && cfg.leaseSeconds > 0
    ensures Stands(cfg, p', Changed(s, 0, JOB, Voting(cfg, s), VoteLoaded(JOB, true, vote)))
    ensures p'.tally == Claimed(p.tally)
  {
    hide Stands, Changed, Moved;
    var row;
    p', row := FindsPosted(cfg, p, s, vote);
    StillAlone(s, 0, row, Completing(JOB, true));
    p' := EnsureStep(cfg, p', Changed(s, 0, JOB, row, Completing(JOB, true)), 0);
    SameScene(s, 0, row, row, Completing(JOB, true), VoteEnsured(JOB, true));
    StillAlone(s, 0, row, VoteEnsured(JOB, true));
    p' := DeferStep(cfg, p', Changed(s, 0, JOB, row, VoteEnsured(JOB, true)), 0);
    var voting := Voting(cfg, s);
    SameScene(s, 0, row, voting, VoteEnsured(JOB, true), VoteDeferred(JOB, true));
    StillAlone(s, 0, voting, VoteDeferred(JOB, true));
    p' := LoadStep(cfg, p', Changed(s, 0, JOB, voting, VoteDeferred(JOB, true)), 0, vote);
    SameScene(s, 0, voting, voting, VoteDeferred(JOB, true), VoteLoaded(JOB, true, vote));
  }

  /** Gerrit cannot be read, the retry is committed, and the claim ends there. */
  lemma Strands(cfg: Config, p: Path, s: Scene, vote: Vote) returns (p': Path, s': Scene)
    requires Stands(cfg, p, s) && VoteDue(s, vote) && cfg.leaseSeconds > 0
    ensures Stands(cfg, p', s') && VoteDue(s', vote.(retryCount := vote.retryCount + 1))
    ensures p'.tally == Claimed(p.tally).(unsettled := true)
  {
    hide Stands, Changed, Moved;
    p' := Loads(cfg, p, s, vote);
    var row, count := Voting(cfg, s), vote.retryCount + 1;
    StillAlone(s, 0, row, VoteLoaded(JOB, true, vote));
    p' := UnreadStep(cfg, p', Changed(s, 0, JOB, row, VoteLoaded(JOB, true, vote)), 0, vote);
    SameScene(s, 0, row, row, VoteLoaded(JOB, true, vote), VoteRetrying(JOB, false));
    StillAlone(s, 0, row, VoteRetrying(JOB, false));
    p' := RetryStep(cfg, p', Changed(s, 0, JOB, row, VoteRetrying(JOB, false)), 0, false, vote);
    var retried := row.(vote := Some(vote.(retryCount := count)));
    SameScene(s, 0, row, retried, VoteRetrying(JOB, false), VoteRetried(JOB, false, count));
    p', s' := Expires(cfg, p', s, retried, VoteRetried(JOB, false, count), vote.(retryCount := count));
  }

  function Cast(vote: Vote): Vote {
    vote.(account := Some(ACCOUNT), attempts := vote.attempts + 1, status := VoteAmbiguous)
  }

  /** The row of a live claim that works on `vote`. */
  predicate Works(cfg: Config, s: Scene, row: Job, vote: Vote) {
    && Alone(s) && FirstRow(row) && row.state.Publishing? && row.vote == Some(vote)
    && row.lease == Some(Lease(0, s.now + cfg.leaseSeconds)) && cfg.leaseSeconds > 0
  }

  /** The guard gives a fresh lease again. */
  lemma SameLease(row: Job, expires: Time)
    requires row.lease == Some(Lease(0, expires))
    ensures row.(lease := Some(Lease(0, expires))) == row
  {
  }

  /** The marker is absent, and the guard lets the vote through. */
  lemma Guards(cfg: Config, p: Path, s: Scene, row: Job, vote: Vote) returns (p': Path)
    requires Stands(cfg, p, Changed(s, 0, JOB, row, VoteLoaded(JOB, true, vote))) && Works(cfg, s, row, vote)
    requires s.log == [POSTED] && !IsTerminalVote(vote.status)
    requires vote.attempts < cfg.publishAttempts && vote.retryCount < cfg.publishAttempts
    requires vote.account.None? || vote.account == Some(ACCOUNT)
    ensures Stands(cfg, p', Changed(s, 0, JOB, row, VoteGuarded(JOB))) && p'.tally == p.tally
  {
    hide Stands, Changed, Moved, HasNewer;
    StillAlone(s, 0, row, VoteLoaded(JOB, true, vote));
    p' := ObserveStep(cfg, p, Changed(s, 0, JOB, row, VoteLoaded(JOB, true, vote)), 0, vote);
    SameScene(s, 0, row, row, VoteLoaded(JOB, true, vote), VoteAbsent(JOB));
    StillAlone(s, 0, row, VoteAbsent(JOB));
    NoNewer(Changed(s, 0, JOB, row, VoteAbsent(JOB)));
    p' := VoteGuardStep(cfg, p', Changed(s, 0, JOB, row, VoteAbsent(JOB)), 0, VoteAbsent(JOB));
    SameLease(row, s.now + cfg.leaseSeconds);
    SameScene(s, 0, row, row, VoteAbsent(JOB), VoteGuarded(JOB));
  }

  /** The vote is dispatched. */
  lemma Dispatches(cfg: Config, p: Path, s: Scene, row: Job, vote: Vote) returns (p': Path)
    requires Stands(cfg, p, Changed(s, 0, JOB, row, VoteGuarded(JOB))) && Works(cfg, s, row, vote)
    requires !IsTerminalVote(vote.status) && (vote.account.None? || vote.account == Some(ACCOUNT))
    ensures Stands(cfg, p', Changed(s, 0, JOB, row.(vote := Some(Cast(vote))), VoteDispatched(JOB)))
    ensures p'.tally == p.tally
  {
    hide Stands, Changed, Moved;
    StillAlone(s, 0, row, VoteGuarded(JOB));
    p' := DispatchStep(cfg, p, Changed(s, 0, JOB, row, VoteGuarded(JOB)), 0, vote);
    SameScene(s, 0, row, row.(vote := Some(Cast(vote))), VoteGuarded(JOB), VoteDispatched(JOB));
  }

  /** The POST is sent, and it is lost. */
  lemma Loses(cfg: Config, p: Path, s: Scene, row: Job, vote: Vote) returns (p': Path)
    requires Stands(cfg, p, Changed(s, 0, JOB, row, VoteDispatched(JOB))) && Works(cfg, s, row, vote)
    ensures Stands(cfg, p', Changed(s, 0, JOB, row, VoteRetrying(JOB, true))) && p'.tally == p.tally
  {
    hide Stands, Changed, Moved, HasNewer;
    var deadline := s.now + cfg.leaseSeconds;
    StillAlone(s, 0, row, VoteDispatched(JOB));
    NoNewer(Changed(s, 0, JOB, row, VoteDispatched(JOB)));
    p' := VoteGuardStep(cfg, p, Changed(s, 0, JOB, row, VoteDispatched(JOB)), 0, VoteDispatched(JOB));
    SameLease(row, deadline);
    SameScene(s, 0, row, row, VoteDispatched(JOB), VotePosting(JOB, deadline, false));
    StillAlone(s, 0, row, VotePosting(JOB, deadline, false));
    p' := LostVoteStep(cfg, p', Changed(s, 0, JOB, row, VotePosting(JOB, deadline, false)), 0, deadline);
    SameScene(s, 0, row, row, VotePosting(JOB, deadline, false), VoteRetrying(JOB, true));
  }

  /** The lost POST is counted and the job waits. */
  lemma Waits(cfg: Config, p: Path, s: Scene, row: Job, vote: Vote) returns (p': Path)
    requires Stands(cfg, p, Changed(s, 0, JOB, row, VoteRetrying(JOB, true))) && Works(cfg, s, row, vote)
    ensures var retried := row.(vote := Some(vote.(retryCount := vote.retryCount + 1)));
            var waiting := retried.(state := RetryWait, retryState := Some(Publishing), nextAttemptAt := s.now + 1, lease := None);
            Stands(cfg, p', Changed(s, 0, JOB, waiting, Idle)) && p'.tally == p.tally.(unsettled := false)
  {
    hide Stands, Changed, Moved, Alone;
    BothWork(s);
    var count, retried := vote.retryCount + 1, row.(vote := Some(vote.(retryCount := vote.retryCount + 1)));
    StillAlone(s, 0, row, VoteRetrying(JOB, true));
    p' := RetryStep(cfg, p, Changed(s, 0, JOB, row, VoteRetrying(JOB, true)), 0, true, vote);
    SameScene(s, 0, row, retried, VoteRetrying(JOB, true), VoteRetried(JOB, true, count));
    StillAlone(s, 0, retried, VoteRetried(JOB, true, count));
    p' := AgainStep(cfg, p', Changed(s, 0, JOB, retried, VoteRetried(JOB, true, count)), 0, count);
    SameScene(s, 0, retried, retried, VoteRetried(JOB, true, count), Rescheduling(JOB, Publishing));
    StillAlone(s, 0, retried, Rescheduling(JOB, Publishing));
    p' := RescheduleStep(cfg, p', Changed(s, 0, JOB, retried, Rescheduling(JOB, Publishing)), 0, Publishing, s.now + 1);
    var waiting := retried.(state := RetryWait, retryState := Some(Publishing), nextAttemptAt := s.now + 1, lease := None);
    SameScene(s, 0, retried, waiting, Rescheduling(JOB, Publishing), Idle);
  }

  lemma Reposts(cfg: Config, p: Path, s: Scene, vote: Vote) returns (p': Path, s': Scene)
    requires Stands(cfg, p, s) && VoteDue(s, vote) && cfg.leaseSeconds > 0
    requires vote.attempts < cfg.publishAttempts && vote.retryCount < cfg.publishAttempts
    requires vote.account.None? || vote.account == Some(ACCOUNT)
    ensures Stands(cfg, p', s') && VoteDue(s', Cast(vote).(retryCount := vote.retryCount + 1))
    ensures p'.tally == Claimed(p.tally).(unsettled := false)
  {
    hide Stands, Changed, Moved;
    p' := Loads(cfg, p, s, vote);
    p' := Guards(cfg, p', s, Voting(cfg, s), vote);
    p' := Dispatches(cfg, p', s, Voting(cfg, s), vote);
    var cast := Voting(cfg, s).(vote := Some(Cast(vote)));
    p' := Loses(cfg, p', s, cast, Cast(vote));
    p' := Waits(cfg, p', s, cast, Cast(vote));
    var retried := cast.(vote := Some(Cast(vote).(retryCount := vote.retryCount + 1)));
    var waiting := retried.(state := RetryWait, retryState := Some(Publishing), nextAttemptAt := s.now + 1, lease := None);
    StillAlone(s, 0, waiting, Idle);
    p' := TickStep(cfg, p', Changed(s, 0, JOB, waiting, Idle), 1);
    s' := Changed(s, 0, JOB, waiting, Idle).(now := s.now + 1);
  }

  // ---- The runs ---------------------------------------------------------------------------

  /** The row with its first vote, and the comments posted. */
  function Intended(done: Job): Job
    requires done.publication.Some?
  {
    var voting := done.(vote := if done.vote.Some? then done.vote else Some(Vote(VotePending, Some(1), None, 0, 0)));
    voting.(publication := Some(voting.publication.value.(status := Posted)), retryState := None)
  }

  /** The comments are completed and the vote is intended. */
  lemma Intends(cfg: Config, p: Path, l: Scene, w: WorkerId, done: Job) returns (p': Path)
    requires Stands(cfg, p, Changed(l, w, JOB, done, Completing(JOB, true))) && Alone(l) && w in l.pcs
    requires FirstRow(done) && done.state.Publishing? && done.publication.Some?
    requires done.lease == Some(Lease(w, l.now + cfg.leaseSeconds)) && cfg.leaseSeconds > 0
    ensures Stands(cfg, p', Changed(l, w, JOB, Intended(done), VoteDeferred(JOB, true))) && p'.tally == p.tally
  {
    hide Stands, Changed, Moved;
    StillAlone(l, w, done, Completing(JOB, true));
    p' := EnsureStep(cfg, p, Changed(l, w, JOB, done, Completing(JOB, true)), w);
    var voting := done.(vote := if done.vote.Some? then done.vote else Some(Vote(VotePending, Some(1), None, 0, 0)));
    SameScene(l, w, done, voting, Completing(JOB, true), VoteEnsured(JOB, true));
    StillAlone(l, w, voting, VoteEnsured(JOB, true));
    p' := DeferStep(cfg, p', Changed(l, w, JOB, voting, VoteEnsured(JOB, true)), w);
    SameScene(l, w, voting, Intended(done), VoteEnsured(JOB, true), VoteDeferred(JOB, true));
  }

  /** The claim ends, and its lease runs out. */
  lemma Expires(cfg: Config, p: Path, l: Scene, row: Job, pc: Pc, vote: Vote) returns (p': Path, s': Scene)
    requires Stands(cfg, p, Changed(l, 0, JOB, row, pc)) && Alone(l) && !pc.Idle? && pc.job == JOB && l.log == [POSTED]
    requires FirstRow(row) && row.state.Publishing? && row.vote == Some(vote) && !IsTerminalVote(vote.status)
    requires row.publication.Some? && row.publication.value.status.Posted? && row.result.Some?
    requires row.lease == Some(Lease(0, l.now + cfg.leaseSeconds))
    ensures Stands(cfg, p', s') && p'.tally == p.tally && VoteDue(s', vote)
  {
    hide Stands, Changed, Moved;
    StillAlone(l, 0, row, pc);
    p' := AbortStep(cfg, p, Changed(l, 0, JOB, row, pc), 0, pc);
    SameScene(l, 0, row, row, pc, Idle);
    StillAlone(l, 0, row, Idle);
    p' := TickStep(cfg, p', Changed(l, 0, JOB, row, Idle), cfg.leaseSeconds);
    s' := Changed(l, 0, JOB, row, Idle).(now := l.now + cfg.leaseSeconds);
  }

  /** A concrete run from the first event to a landed, acknowledged comment review and a pending vote. */
  lemma CommentsLand(cfg: Config) returns (p: Path, s': Scene)
    requires cfg.leaseSeconds > 0 && cfg.reviewAttempts >= 1 && cfg.publishAttempts >= 1
    ensures Stands(cfg, p, s') && p.tally == NOTHING && VoteDue(s', Vote(VotePending, Some(1), None, 0, 0))
  {
    hide Stands, Changed, Moved, Finished, VoteDue;
    var s;
    p, s := Saves(cfg);
    p := Prepares(cfg, p, s);
    var row := Prepared(cfg, s);
    p := Posts(cfg, p, s, 0, row);
    var l, sent := s.(log := [POSTED]), Sent(row, 0);
    var done := sent.(attempts := Finished(sent.attempts, |row.attempts|, Succeeded));
    p := Intends(cfg, p, l, 0, done);
    p, s' := Expires(cfg, p, l, Intended(done), VoteDeferred(JOB, true), Vote(VotePending, Some(1), None, 0, 0));
  }

  /** `n` lost POSTs, each settled. */
  lemma {:induction false} LosesPosts(cfg: Config, n: nat) returns (p: Path, s: Scene, vote: Vote)
    requires cfg.leaseSeconds > 0 && cfg.reviewAttempts >= 1 && cfg.publishAttempts >= 1 && n <= cfg.publishAttempts
    ensures Stands(cfg, p, s) && p.tally == NOTHING && VoteDue(s, vote)
    ensures vote.retryCount == vote.attempts == n && (vote.account.None? || vote.account == Some(ACCOUNT))
    decreases n
  {
    hide Stands, VoteDue;
    if n == 0 {
      p, s := CommentsLand(cfg);
      vote := Vote(VotePending, Some(1), None, 0, 0);
    } else {
      var q, r, before := LosesPosts(cfg, n - 1);
      p, s := Reposts(cfg, q, r, before);
      vote := Cast(before).(retryCount := before.retryCount + 1);
    }
  }

  /** The retry limit is used up, and then `k` claims more stop behind a committed retry. */
  lemma {:induction false} Abandons(cfg: Config, k: nat) returns (p: Path, s: Scene, vote: Vote)
    requires cfg.leaseSeconds > 0 && cfg.reviewAttempts >= 1 && cfg.publishAttempts >= 1
    ensures Stands(cfg, p, s) && VoteDue(s, vote) && vote.retryCount == cfg.publishAttempts + k
    ensures p.tally == NOTHING.(unsettled := k > 0, stranded := if k == 0 then 0 else k - 1)
    decreases k
  {
    hide Stands, VoteDue;
    if k == 0 {
      p, s, vote := LosesPosts(cfg, cfg.publishAttempts);
    } else {
      var q, r, before := Abandons(cfg, k - 1);
      p, s := Strands(cfg, q, r, before);
      vote := before.(retryCount := before.retryCount + 1);
    }
  }

  /** The price is exact: for every `k` there is a run in which `k` claims find a committed retry that nothing
      followed up, and the retry count is the limit plus one plus `k`. */
  lemma AbandonedRetriesPrice(cfg: Config, k: nat) returns (actions: seq<Action>)
    requires cfg.leaseSeconds > 0 && cfg.reviewAttempts >= 1 && cfg.publishAttempts >= 1
    ensures var W := Run(cfg, Init(0), actions);
            && JOB in W.jobs && W.jobs[JOB].vote.Some? && W.log == [POSTED]
            && W.jobs[JOB].vote.value.retryCount == cfg.publishAttempts + 1 + k
            && TallyOf(cfg, Init(0), actions, JOB).stranded == k
  {
    hide Run, TallyOf;
    var p, s, vote := Abandons(cfg, k + 1);
    actions := p.actions;
  }
}
