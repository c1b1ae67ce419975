/** Building concrete runs of the protocol, one step at a time. */
module ProtocolPaths {
  import opened Wrappers
  import opened StateMachine
  import opened JobRows
  import opened RetryBudget
  import opened Protocol
  import opened ProtocolBudgets

  const ACCOUNT: AccountId := 7
  const EVENT := Event(Change("p", 1), 1, "r", None)
  const JOB: JobId := 0

  /** The next Patch Set of the same change. */
  const NEXT_EVENT := Event(Change("p", 1), 2, "s", None)
  const NEXT: JobId := 1

  /** A run from the empty store at time 0, where it ends, and what it did to JOB. */
  datatype Path = Path(actions: seq<Action>, W: World, tally: Tally)

  ghost predicate Good(cfg: Config, p: Path) {
    p.W == Run(cfg, Init(0), p.actions) && p.tally == TallyOf(cfg, Init(0), p.actions, JOB)
  }

  function Then(cfg: Config, p: Path, action: Action): Path {
    var W' := Next(cfg, p.W, action);
    Path(p.actions + [action], W', Observe(p.tally, p.W, W', action, JOB))
  }

  lemma ThenGood(cfg: Config, p: Path, action: Action)
    requires Good(cfg, p)
    ensures Good(cfg, Then(cfg, p, action))
  {
    hide Next, Observe;
    assert (p.actions + [action])[..|p.actions|] == p.actions;
  }

  /** What matters of a world whose workers are all alive and use one account. */
  datatype Scene = Scene(now: Time, jobs: Jobs, projects: map<string, Scope>, pcs: map<WorkerId, Pc>, log: seq<Post>)

  ghost predicate At(W: World, s: Scene) {
    && W.now == s.now && W.jobs == s.jobs && W.projects == s.projects && W.log == s.log
    && W.workers.Keys == s.pcs.Keys
    && forall w :: w in s.pcs ==> W.workers[w] == Worker(true, ACCOUNT, s.pcs[w])
  }

  ghost predicate Stands(cfg: Config, p: Path, s: Scene) {
    Good(cfg, p) && At(p.W, s)
  }

  /** Worker `w` is at `pc`, for a stored job. */
  predicate On(s: Scene, w: WorkerId, pc: Pc) {
    w in s.pcs && s.pcs[w] == pc && !pc.Idle? && pc.job in s.jobs
  }

  predicate Holds(s: Scene, w: WorkerId, id: JobId) {
    id in s.jobs && s.jobs[id].lease.Some? && s.jobs[id].lease.value.owner == w && s.now < s.jobs[id].lease.value.expires
  }

  function Moved(s: Scene, w: WorkerId, pc: Pc): Scene {
    s.(pcs := s.pcs[w := pc])
  }

  function Changed(s: Scene, w: WorkerId, id: JobId, row: Job, pc: Pc): Scene {
    s.(jobs := s.jobs[id := row], pcs := s.pcs[w := pc])
  }

  // ---- The two kinds of steps -------------------------------------------------------------

  /** What a worker finds. */
  lemma Sees(cfg: Config, p: Path, s: Scene, w: WorkerId)
    requires Stands(cfg, p, s) && w in s.pcs
    ensures p.W.now == s.now && p.W.jobs == s.jobs && p.W.projects == s.projects && p.W.log == s.log
    ensures w in p.W.workers && p.W.workers[w] == Worker(true, ACCOUNT, s.pcs[w])
  {
    hide Good;
  }

  lemma AtGoto(W: World, s: Scene, w: WorkerId, pc: Pc)
    requires At(W, s) && w in s.pcs
    ensures At(Goto(W, w, pc), Moved(s, w, pc))
  {
  }

  lemma GotoStep(cfg: Config, p: Path, s: Scene, action: Action, w: WorkerId, pc: Pc) returns (p': Path)
    requires Stands(cfg, p, s) && w in s.pcs && w in p.W.workers && Next(cfg, p.W, action) == Goto(p.W, w, pc)
    ensures p' == Then(cfg, p, action) && p'.tally == p.tally && Stands(cfg, p', Moved(s, w, pc))
  {
    hide Next, Good, At, Count, Moved;
    p' := Then(cfg, p, action);
    ThenGood(cfg, p, action);
    AtGoto(p.W, s, w, pc);
    if JOB in p.W.jobs { UnchangedTally(p.tally, p.W.jobs[JOB], action); }
  }

  lemma AtPut(W: World, W': World, s: Scene, w: WorkerId, id: JobId, row: Job, pc: Pc)
    requires At(W, s) && w in s.pcs && id in s.jobs
    requires W' == Put(W, w, id, row, pc).(dispatched := W'.dispatched)
    ensures At(W', Changed(s, w, id, row, pc)) && W.jobs == s.jobs && W'.jobs == s.jobs[id := row]
  {
  }

  lemma PutStep(cfg: Config, p: Path, s: Scene, action: Action, w: WorkerId, id: JobId, row: Job, pc: Pc) returns (p': Path)
    requires Stands(cfg, p, s) && w in s.pcs && w in p.W.workers && id in s.jobs
    requires Next(cfg, p.W, action) == Put(p.W, w, id, row, pc).(dispatched := Next(cfg, p.W, action).dispatched)
    ensures p' == Then(cfg, p, action) && Stands(cfg, p', Changed(s, w, id, row, pc))
    ensures id == JOB ==> p'.tally == Count(p.tally, s.jobs[id], row, action)
  {
    hide Next, Good, At, Count, Changed, Put;
    p' := Then(cfg, p, action);
    ThenGood(cfg, p, action);
    AtPut(p.W, p'.W, s, w, id, row, pc);
  }

  /** Most steps count for nothing. */
  lemma PlainTally(t: Tally, row: Job, row': Job, action: Action)
    requires action.AEnsureVote? || action.AGuardVote? || action.ALand?
    ensures Count(t, row, row', action) == t
  {
  }

  // ---- The world outside ------------------------------------------------------------------

  lemma StartStep(cfg: Config) returns (p: Path)
    ensures Stands(cfg, p, Scene(0, map[], map[], map[], [])) && p.tally == NOTHING
  {
    p := Path([], Init(0), NOTHING);
  }

  lemma SpawnStep(cfg: Config, p: Path, s: Scene, w: WorkerId) returns (p': Path)
    requires Stands(cfg, p, s) && w !in s.pcs
    ensures Stands(cfg, p', Moved(s, w, Idle)) && p'.tally == p.tally
  {
    hide Good, Count;
    p' := Then(cfg, p, ASpawn(w, ACCOUNT));
    ThenGood(cfg, p, ASpawn(w, ACCOUNT));
    if JOB in p.W.jobs { UnchangedTally(p.tally, p.W.jobs[JOB], ASpawn(w, ACCOUNT)); }
  }

  lemma TickStep(cfg: Config, p: Path, s: Scene, seconds: nat) returns (p': Path)
    requires Stands(cfg, p, s)
    ensures Stands(cfg, p', s.(now := s.now + seconds)) && p'.tally == p.tally
  {
    p' := Then(cfg, p, ATick(seconds));
    ThenGood(cfg, p, ATick(seconds));
    hide Good;
  }

  /** The first event of the change. */
  lemma EnqueueStep(cfg: Config, p: Path, s: Scene) returns (p': Path)
    requires Stands(cfg, p, s) && s.jobs == map[] && s.projects == map[]
    ensures Stands(cfg, p', s.(jobs := map[JOB := NewJob(EVENT, "v", false, s.now)])) && p'.tally == p.tally
  {
    var action := AEnqueue(EVENT, "v", JOB);
    p' := Then(cfg, p, action);
    ThenGood(cfg, p, action);
    var jobs: Jobs := map[JOB := NewJob(EVENT, "v", false, s.now)];
    assert ApplyPatchSetOrdering(jobs, JOB) == jobs;
    assert EnqueueAt(map[], map[], EVENT, "v", JOB, s.now) == jobs;
    hide Good;
  }

  lemma ClaimStep(cfg: Config, p: Path, s: Scene, w: WorkerId, id: JobId, row: Job, pc: Pc) returns (p': Path)
    requires Stands(cfg, p, s) && w in s.pcs && s.pcs[w].Idle? && Claimable(s.jobs, s.projects, id, s.now)
    requires ClaimRow(s.jobs[id], w, cfg.leaseSeconds, s.now) == Ok(row)
    requires pc == if IsReviewState(row.state) then InReview(id) else PublishClaimed(id, row.state)
    requires IsReviewState(row.state) || IsPublishState(row.state)
    ensures Stands(cfg, p', Changed(s, w, id, row, pc))
    ensures id == JOB ==> p'.tally == Count(p.tally, s.jobs[id], row, AClaim(w, id))
    ensures id in p'.W.claimed
  {
    p' := Then(cfg, p, AClaim(w, id));
    ThenGood(cfg, p, AClaim(w, id));
    hide Good, Claimable, ClaimRow, Count;
  }

  lemma AbortStep(cfg: Config, p: Path, s: Scene, w: WorkerId, pc: Pc) returns (p': Path)
    requires Stands(cfg, p, s) && On(s, w, pc)
    ensures Stands(cfg, p', Moved(s, w, Idle)) && p'.tally == p.tally
  {
    p' := GotoStep(cfg, p, s, AAbort(w), w, Idle);
  }

  // ---- The review phase -------------------------------------------------------------------

  lemma TransitionStep(cfg: Config, p: Path, s: Scene, w: WorkerId, pc: Pc, target: JobState) returns (p': Path)
    requires Stands(cfg, p, s) && On(s, w, pc) && HasReview(pc) && pc.job == JOB && Holds(s, w, JOB)
    requires var state := s.jobs[JOB].state;
             || (state.Received? && target.Fetching?) || (state.Fetching? && target.Reviewing?)
             || (state.Reviewing? && target.Validating?)
    ensures Stands(cfg, p', Changed(s, w, JOB, s.jobs[JOB].(state := target, retryState := None), pc))
    ensures p'.tally == p.tally
  {
    hide Stands, Moved, Changed, TransitionRow;
    Sees(cfg, p, s, w);
    TransitionOk(s.jobs[JOB], target, w, s.now);
    p' := PutStep(cfg, p, s, AReviewTransition(w, target), w, JOB, s.jobs[JOB].(state := target, retryState := None), pc);
  }

  lemma TransitionOk(row: Job, target: JobState, w: WorkerId, now: Time)
    requires LiveLease(row, w, now)
    requires || (row.state.Received? && target.Fetching?) || (row.state.Fetching? && target.Reviewing?)
             || (row.state.Reviewing? && target.Validating?) || (row.state.ReadyToPublish? && target.Publishing?)
    ensures TransitionRow(row, target, w, false, now) == Ok(row.(state := target, retryState := None))
  {
  }

  /** A FETCH attempt starts and succeeds. */
  lemma FetchStep(cfg: Config, p: Path, s: Scene, w: WorkerId) returns (p': Path)
    requires Stands(cfg, p, s) && On(s, w, InReview(JOB)) && Holds(s, w, JOB)
    ensures Stands(cfg, p', Changed(s, w, JOB, s.jobs[JOB].(attempts := s.jobs[JOB].attempts
                                                                     + [Attempt(FetchStage, w, Unfinished)]),
                                    InReview(JOB)))
    ensures p'.tally == p.tally
  {
    hide Stands, Moved, Changed;
    Sees(cfg, p, s, w);
    var row := s.jobs[JOB].(attempts := s.jobs[JOB].attempts + [Attempt(FetchStage, w, Unfinished)]);
    p' := PutStep(cfg, p, s, AReviewAttempt(w, FetchStage), w, JOB, row, InReview(JOB));
  }

  lemma FetchedStep(cfg: Config, p: Path, s: Scene, a: nat) returns (p': Path)
    requires Stands(cfg, p, s) && JOB in s.jobs && a < |s.jobs[JOB].attempts|
    requires s.jobs[JOB].attempts[a].stage.FetchStage? && s.jobs[JOB].attempts[a].outcome.Unfinished?
    ensures Stands(cfg, p', s.(jobs := s.jobs[JOB := s.jobs[JOB].(attempts := Finished(s.jobs[JOB].attempts, a, Succeeded))]))
    ensures p'.tally == p.tally
  {
    hide Good, Count, Next;
    p' := Then(cfg, p, AFinishAttempt(JOB, a, Succeeded));
    ThenGood(cfg, p, AFinishAttempt(JOB, a, Succeeded));
    FinishAttemptIs(cfg, p.W, a);
    FetchedTally(p.tally, p.W.jobs[JOB], p'.W.jobs[JOB], a);
  }

  lemma FinishAttemptIs(cfg: Config, W: World, a: nat)
    ensures Next(cfg, W, AFinishAttempt(JOB, a, Succeeded)) == FinishAttempt(W, JOB, a, Succeeded)
  {
    hide FinishAttempt;
  }

  lemma FetchedTally(t: Tally, row: Job, row': Job, a: nat)
    ensures Count(t, row, row', AFinishAttempt(JOB, a, Succeeded)) == t
  {
  }

  lemma StreakStep(cfg: Config, p: Path, s: Scene, w: WorkerId) returns (p': Path)
    requires Stands(cfg, p, s) && On(s, w, InReview(JOB))
    requires Streak(EpochReviews(s.jobs[JOB])) == 0 || Streak(EpochReviews(s.jobs[JOB])) < cfg.providerAttempts
    ensures Stands(cfg, p', Moved(s, w, StreakRead(JOB))) && p'.tally == p.tally
  {
    hide Stands, Moved, Changed, Streak, EpochReviews;
    Sees(cfg, p, s, w);
    p' := GotoStep(cfg, p, s, AReadStreak(w, false), w, StreakRead(JOB));
  }

  lemma BudgetStep(cfg: Config, p: Path, s: Scene, w: WorkerId) returns (p': Path)
    requires Stands(cfg, p, s) && On(s, w, StreakRead(JOB))
    requires CountCharged(EpochReviews(s.jobs[JOB])) < cfg.reviewAttempts
    ensures Stands(cfg, p', Moved(s, w, ReviewAllowed(JOB))) && p'.tally == p.tally
  {
    hide Stands, Moved, Changed, Outcomes, ConsumedSince;
    Sees(cfg, p, s, w);
    ConsumedIsCounted(s.jobs[JOB].attempts, s.jobs[JOB].epochStart, ReviewStage);
    p' := GotoStep(cfg, p, s, AReadConsumed(w), w, ReviewAllowed(JOB));
  }

  lemma StartReviewStep(cfg: Config, p: Path, s: Scene, w: WorkerId) returns (p': Path)
    requires Stands(cfg, p, s) && On(s, w, ReviewAllowed(JOB)) && Holds(s, w, JOB)
    requires s.jobs[JOB].epochStart <= |s.jobs[JOB].attempts|
    ensures Stands(cfg, p', Changed(s, w, JOB, s.jobs[JOB].(attempts := s.jobs[JOB].attempts
                                                                     + [Attempt(ReviewStage, w, Unfinished)]),
                                    ReviewRunning(JOB, |s.jobs[JOB].attempts|)))
    ensures p'.tally == Paid(p.tally, s.jobs[JOB])
  {
    hide Stands, Moved, Changed, Count;
    Sees(cfg, p, s, w);
    var row := s.jobs[JOB].(attempts := s.jobs[JOB].attempts + [Attempt(ReviewStage, w, Unfinished)]);
    p' := PutStep(cfg, p, s, AStartReview(w), w, JOB, row, ReviewRunning(JOB, |s.jobs[JOB].attempts|));
    StartTally(p.tally, s.jobs[JOB], row, w);
  }

  /** The tally once an attempt starts behind those of `row`. */
  function Paid(t: Tally, row: Job): Tally {
    t.(repeated := t.repeated + Owed(EpochReviews(row)))
  }

  lemma FailReviewStep(cfg: Config, p: Path, s: Scene, w: WorkerId, a: nat, provider: bool) returns (p': Path)
    requires Stands(cfg, p, s) && On(s, w, ReviewRunning(JOB, a))
    requires a < |s.jobs[JOB].attempts| && s.jobs[JOB].attempts[a].outcome.Unfinished?
    ensures var row := s.jobs[JOB].(attempts := Finished(s.jobs[JOB].attempts, a, Failed(provider)));
            && Stands(cfg, p', Changed(s, w, JOB, row, ReviewFailed(JOB)))
            && p'.tally == Count(p.tally, s.jobs[JOB], row, AFinishReview(w, Failed(provider)))
  {
    hide Stands, Moved, Changed, Count;
    Sees(cfg, p, s, w);
    var row := s.jobs[JOB].(attempts := Finished(s.jobs[JOB].attempts, a, Failed(provider)));
    p' := PutStep(cfg, p, s, AFinishReview(w, Failed(provider)), w, JOB, row, ReviewFailed(JOB));
  }

  lemma LeaveStep(cfg: Config, p: Path, s: Scene, w: WorkerId, pc: Pc) returns (p': Path)
    requires Stands(cfg, p, s) && On(s, w, pc)
    requires pc.InReview? || pc.ReviewFailed? || pc.ObservedAbsent?
    ensures Stands(cfg, p', Moved(s, w, Leaving(pc.job, None, false))) && p'.tally == p.tally
  {
    hide Stands, Moved, Changed;
    Sees(cfg, p, s, w);
    p' := GotoStep(cfg, p, s, ALeave(w), w, Leaving(pc.job, None, false));
  }

  /** A transient failure gives the job back to wait. */
  lemma WaitStep(cfg: Config, p: Path, s: Scene, w: WorkerId, at: Time) returns (p': Path)
    requires Stands(cfg, p, s) && On(s, w, Leaving(JOB, None, false)) && Holds(s, w, JOB) && s.jobs[JOB].state.Reviewing?
    requires !p.tally.unsettled
    ensures var row := s.jobs[JOB].(state := RetryWait, retryState := Some(Reviewing), nextAttemptAt := at, lease := None);
            Stands(cfg, p', Changed(s, w, JOB, row, Idle)) && p'.tally == p.tally
  {
    hide Stands;
    var waiting := Moved(s, w, Rescheduling(JOB, Reviewing));
    p' := ChooseStep(cfg, p, s, w);
    p' := RescheduleStep(cfg, p', waiting, w, Reviewing, at);
    assert s.pcs[w := Rescheduling(JOB, Reviewing)][w := Idle] == s.pcs[w := Idle];
  }

  lemma ChooseStep(cfg: Config, p: Path, s: Scene, w: WorkerId) returns (p': Path)
    requires Stands(cfg, p, s) && On(s, w, Leaving(JOB, None, false)) && s.jobs[JOB].state.Reviewing?
    ensures Stands(cfg, p', Moved(s, w, Rescheduling(JOB, Reviewing))) && p'.tally == p.tally
  {
    hide Stands, Moved;
    Sees(cfg, p, s, w);
    p' := GotoStep(cfg, p, s, AChooseResume(w, false), w, Rescheduling(JOB, Reviewing));
  }

  lemma RescheduleStep(cfg: Config, p: Path, s: Scene, w: WorkerId, resume: JobState, at: Time) returns (p': Path)
    requires Stands(cfg, p, s) && On(s, w, Rescheduling(JOB, resume)) && Holds(s, w, JOB)
    requires s.jobs[JOB].state == resume && (resume.Reviewing? || resume.Publishing?)
    ensures var row := s.jobs[JOB].(state := RetryWait, retryState := Some(resume), nextAttemptAt := at, lease := None);
            Stands(cfg, p', Changed(s, w, JOB, row, Idle)) && p'.tally == p.tally.(unsettled := false)
  {
    hide Stands, Changed, ScheduleRetryRow, Count, Next;
    Sees(cfg, p, s, w);
    RescheduledIs(cfg, p.W, w, at);
    var row := s.jobs[JOB].(state := RetryWait, retryState := Some(resume), nextAttemptAt := at, lease := None);
    WaitOk(s.jobs[JOB], resume, at, w, s.now);
    p' := PutStep(cfg, p, s, AReschedule(w, at), w, JOB, row, Idle);
    WaitTally(p.tally, s.jobs[JOB], row, AReschedule(w, at));
  }

  lemma RescheduledIs(cfg: Config, W: World, w: WorkerId, at: Time)
    ensures Next(cfg, W, AReschedule(w, at)) == Reschedule(W, w, at)
  {
    hide Reschedule;
  }

  lemma WaitTally(t: Tally, row: Job, row': Job, action: Action)
    requires action.AReschedule? && row.lease.Some? && row'.lease.None?
    ensures Count(t, row, row', action) == t.(unsettled := false)
  {
  }

  lemma WaitOk(row: Job, resume: JobState, at: Time, w: WorkerId, now: Time)
    requires LiveLease(row, w, now) && row.state == resume && (resume.Reviewing? || resume.Publishing?)
    ensures ScheduleRetryRow(row, resume, at, w, now)
         == Ok(row.(state := RetryWait, retryState := Some(resume), nextAttemptAt := at, lease := None))
  {
  }

  // ---- The review is saved ----------------------------------------------------------------

  lemma SaveStep(cfg: Config, p: Path, s: Scene, w: WorkerId, a: nat) returns (p': Path)
    requires Stands(cfg, p, s) && On(s, w, ReviewRunning(JOB, a)) && Holds(s, w, JOB)
    requires s.jobs[JOB].state.Validating? && (s.jobs[JOB].result.None? || s.jobs[JOB].result == Some("ok"))
    ensures var row := s.jobs[JOB].(state := ReadyToPublish, retryState := None, lease := None, result := Some("ok"));
            Stands(cfg, p', Changed(s, w, JOB, row, ReviewSaved(JOB, a))) && p'.tally == p.tally
  {
    hide Stands, Moved, Changed;
    Sees(cfg, p, s, w);
    var row := s.jobs[JOB].(state := ReadyToPublish, retryState := None, lease := None, result := Some("ok"));
    p' := PutStep(cfg, p, s, ASaveReview(w, "ok"), w, JOB, row, ReviewSaved(JOB, a));
  }

  lemma FinishSavedStep(cfg: Config, p: Path, s: Scene, w: WorkerId, a: nat) returns (p': Path)
    requires Stands(cfg, p, s) && On(s, w, ReviewSaved(JOB, a))
    requires IsLast(s.jobs[JOB].attempts, ReviewStage, a) && s.jobs[JOB].attempts[a].outcome.Unfinished?
    ensures var row := s.jobs[JOB].(attempts := Finished(s.jobs[JOB].attempts, a, Succeeded));
            Stands(cfg, p', Changed(s, w, JOB, row, Idle)) && p'.tally == p.tally
  {
    hide Stands, Moved, Changed, Count;
    Sees(cfg, p, s, w);
    var row := s.jobs[JOB].(attempts := Finished(s.jobs[JOB].attempts, a, Succeeded));
    p' := PutStep(cfg, p, s, AFinishReview(w, Succeeded), w, JOB, row, Idle);
    FinishTally(p.tally, s.jobs[JOB], row, w, a, Succeeded);
  }

  // ---- The publish phase ------------------------------------------------------------------

  lemma ReadStep(cfg: Config, p: Path, s: Scene, w: WorkerId, id: JobId, state: JobState) returns (p': Path)
    requires Stands(cfg, p, s) && On(s, w, PublishClaimed(id, state)) && s.jobs[id].result.Some?
    ensures Stands(cfg, p', Moved(s, w, PublicationRead(id, state, s.jobs[id].publication))) && p'.tally == p.tally
  {
    hide Stands, Moved;
    Sees(cfg, p, s, w);
    p' := GotoStep(cfg, p, s, AReadPublication(w), w, PublicationRead(id, state, s.jobs[id].publication));
  }

  /** The job is the latest Patch Set. */
  lemma LatestStep(cfg: Config, p: Path, s: Scene, w: WorkerId, id: JobId, state: JobState, seen: Option<Publication>)
    returns (p': Path)
    requires Stands(cfg, p, s) && On(s, w, PublicationRead(id, state, seen))
    requires !s.jobs[id].state.Superseded? && !HasNewer(s.jobs, s.jobs[id])
    ensures Stands(cfg, p', Moved(s, w, if state.ReadyToPublish? then LatestPatchSet(id, seen) else InPublishing(id, seen)))
    ensures p'.tally == p.tally
  {
    hide Stands, Moved, HasNewer;
    Sees(cfg, p, s, w);
    p' := GotoStep(cfg, p, s, ACheckLatest(w), w,
                   if state.ReadyToPublish? then LatestPatchSet(id, seen) else InPublishing(id, seen));
  }

  lemma EnterStep(cfg: Config, p: Path, s: Scene, w: WorkerId, seen: Option<Publication>) returns (p': Path)
    requires Stands(cfg, p, s) && On(s, w, LatestPatchSet(JOB, seen)) && Holds(s, w, JOB) && s.jobs[JOB].state.ReadyToPublish?
    ensures var row := s.jobs[JOB].(state := Publishing, retryState := None);
            Stands(cfg, p', Changed(s, w, JOB, row, InPublishing(JOB, seen))) && p'.tally == p.tally
  {
    hide Stands, Moved, Changed, TransitionRow;
    Sees(cfg, p, s, w);
    TransitionOk(s.jobs[JOB], Publishing, w, s.now);
    p' := PutStep(cfg, p, s, AEnterPublishing(w), w, JOB, s.jobs[JOB].(state := Publishing, retryState := None),
                  InPublishing(JOB, seen));
  }

  /** The publication row is created. */
  lemma BeginStep(cfg: Config, p: Path, s: Scene, w: WorkerId, payload: string) returns (p': Path)
    requires Stands(cfg, p, s) && On(s, w, InPublishing(JOB, None)) && Holds(s, w, JOB)
    requires s.jobs[JOB].state.Publishing? && s.jobs[JOB].publication.None?
    ensures var row := s.jobs[JOB].(publication := Some(Publication(Pending, payload)));
            Stands(cfg, p', Changed(s, w, JOB, row, InPublishing(JOB, row.publication))) && p'.tally == p.tally
  {
    hide Stands, Moved, Changed;
    Sees(cfg, p, s, w);
    var row := s.jobs[JOB].(publication := Some(Publication(Pending, payload)));
    p' := PutStep(cfg, p, s, ABeginPublication(w, payload), w, JOB, row, InPublishing(JOB, row.publication));
  }

  /** An unresolved publication is reconciled first. */
  lemma ReconcileStep(cfg: Config, p: Path, s: Scene, w: WorkerId, seen: Publication) returns (p': Path)
    requires Stands(cfg, p, s) && On(s, w, InPublishing(JOB, Some(seen))) && Holds(s, w, JOB)
    requires seen.status.Pending? || seen.status.Ambiguous?
    ensures var row := s.jobs[JOB].(attempts := s.jobs[JOB].attempts + [Attempt(ReconcileStage, w, Unfinished)]);
            Stands(cfg, p', Changed(s, w, JOB, row, Reconciling(JOB, seen.payload))) && p'.tally == p.tally
  {
    hide Stands, Moved, Changed;
    Sees(cfg, p, s, w);
    var row := s.jobs[JOB].(attempts := s.jobs[JOB].attempts + [Attempt(ReconcileStage, w, Unfinished)]);
    p' := PutStep(cfg, p, s, ABeginPublication(w, ""), w, JOB, row, Reconciling(JOB, seen.payload));
  }

  lemma PostedStep(cfg: Config, p: Path, s: Scene, w: WorkerId, seen: Publication) returns (p': Path)
    requires Stands(cfg, p, s) && On(s, w, InPublishing(JOB, Some(seen))) && seen.status.Posted?
    ensures Stands(cfg, p', Moved(s, w, Completing(JOB, true))) && p'.tally == p.tally
  {
    hide Stands, Moved;
    Sees(cfg, p, s, w);
    p' := GotoStep(cfg, p, s, ABeginPublication(w, ""), w, Completing(JOB, true));
  }

  lemma AbsentStep(cfg: Config, p: Path, s: Scene, w: WorkerId, payload: string) returns (p': Path)
    requires Stands(cfg, p, s) && On(s, w, Reconciling(JOB, payload)) && s.log == []
    ensures Stands(cfg, p', Moved(s, w, ObservedAbsent(JOB, payload))) && p'.tally == p.tally
  {
    hide Stands, Moved;
    Sees(cfg, p, s, w);
    p' := GotoStep(cfg, p, s, AReadMessages(w), w, ObservedAbsent(JOB, payload));
  }

  lemma AllowStep(cfg: Config, p: Path, s: Scene, w: WorkerId, payload: string) returns (p': Path)
    requires Stands(cfg, p, s) && On(s, w, ObservedAbsent(JOB, payload)) && cfg.publishAttempts >= 1
    requires forall a :: 0 <= a < |s.jobs[JOB].attempts| ==> !s.jobs[JOB].attempts[a].stage.PublishStage?
    ensures Stands(cfg, p', Moved(s, w, PublishAllowed(JOB, payload))) && p'.tally == p.tally
  {
    hide Stands, Moved;
    Sees(cfg, p, s, w);
    assert ConsumedAttempts(s.jobs[JOB], PublishStage) == {};
    p' := GotoStep(cfg, p, s, ACheckPublishBudget(w), w, PublishAllowed(JOB, payload));
  }

  lemma StartPublishStep(cfg: Config, p: Path, s: Scene, w: WorkerId, payload: string) returns (p': Path)
    requires Stands(cfg, p, s) && On(s, w, PublishAllowed(JOB, payload)) && Holds(s, w, JOB)
    ensures var row := s.jobs[JOB].(attempts := s.jobs[JOB].attempts + [Attempt(PublishStage, w, Unfinished)]);
            Stands(cfg, p', Changed(s, w, JOB, row, AttemptStarted(JOB, payload, |s.jobs[JOB].attempts|)))
            && p'.tally == p.tally
  {
    hide Stands, Moved, Changed;
    Sees(cfg, p, s, w);
    var row := s.jobs[JOB].(attempts := s.jobs[JOB].attempts + [Attempt(PublishStage, w, Unfinished)]);
    p' := PutStep(cfg, p, s, AStartPublish(w), w, JOB, row, AttemptStarted(JOB, payload, |s.jobs[JOB].attempts|));
  }

  lemma MarkStep(cfg: Config, p: Path, s: Scene, w: WorkerId, payload: string, a: nat) returns (p': Path)
    requires Stands(cfg, p, s) && On(s, w, AttemptStarted(JOB, payload, a)) && s.jobs[JOB].publication.Some?
    ensures var row := s.jobs[JOB].(publication := Some(s.jobs[JOB].publication.value.(status := Ambiguous)));
            Stands(cfg, p', Changed(s, w, JOB, row, UncertaintyMarked(JOB, payload, a))) && p'.tally == p.tally
  {
    hide Stands, Moved, Changed;
    Sees(cfg, p, s, w);
    var row := s.jobs[JOB].(publication := Some(s.jobs[JOB].publication.value.(status := Ambiguous)));
    p' := PutStep(cfg, p, s, AMarkUncertain(w), w, JOB, row, UncertaintyMarked(JOB, payload, a));
  }

  lemma SendStep(cfg: Config, p: Path, s: Scene, w: WorkerId, payload: string, a: nat) returns (p': Path)
    requires Stands(cfg, p, s) && On(s, w, UncertaintyMarked(JOB, payload, a)) && Holds(s, w, JOB)
    requires s.jobs[JOB].state.Publishing? && !HasNewer(s.jobs, s.jobs[JOB])
    ensures var row := s.jobs[JOB].(lease := Some(Lease(w, s.now + cfg.leaseSeconds)));
            Stands(cfg, p', Changed(s, w, JOB, row, Posting(JOB, payload, a, s.now + cfg.leaseSeconds, false)))
            && p'.tally == p.tally
  {
    hide Stands, Moved, Changed, HasNewer;
    Sees(cfg, p, s, w);
    var row := s.jobs[JOB].(lease := Some(Lease(w, s.now + cfg.leaseSeconds)));
    p' := PutStep(cfg, p, s, AGuardComments(w), w, JOB, row, Posting(JOB, payload, a, s.now + cfg.leaseSeconds, false));
  }

  lemma LandStep(cfg: Config, p: Path, s: Scene, w: WorkerId, payload: string, a: nat, deadline: Time) returns (p': Path)
    requires Stands(cfg, p, s) && On(s, w, Posting(JOB, payload, a, deadline, false)) && s.now < deadline
    ensures Stands(cfg, p', Moved(s, w, Posting(JOB, payload, a, deadline, true)).(
                              log := s.log + [Post(JOB, Comments, payload, ACCOUNT)]))
    ensures p'.tally == p.tally
  {
    hide Good, Count, Stands, Moved;
    p' := Then(cfg, p, ALand(w));
    Lands(cfg, p, s, w, payload, a, deadline);
  }

  lemma Lands(cfg: Config, p: Path, s: Scene, w: WorkerId, payload: string, a: nat, deadline: Time)
    requires Stands(cfg, p, s) && On(s, w, Posting(JOB, payload, a, deadline, false)) && s.now < deadline
    ensures Stands(cfg, Then(cfg, p, ALand(w)), Moved(s, w, Posting(JOB, payload, a, deadline, true)).(
                                                  log := s.log + [Post(JOB, Comments, payload, ACCOUNT)]))
    ensures Then(cfg, p, ALand(w)).tally == p.tally
  {
    hide Good, Count;
    ThenGood(cfg, p, ALand(w));
    if JOB in p.W.jobs { UnchangedTally(p.tally, p.W.jobs[JOB], ALand(w)); }
  }

  lemma AcknowledgeStep(cfg: Config, p: Path, s: Scene, w: WorkerId, payload: string, a: nat, deadline: Time)
    returns (p': Path)
    requires Stands(cfg, p, s) && On(s, w, Posting(JOB, payload, a, deadline, true))
    ensures Stands(cfg, p', Moved(s, w, Acknowledged(JOB, a))) && p'.tally == p.tally
  {
    hide Stands, Moved;
    Sees(cfg, p, s, w);
    p' := GotoStep(cfg, p, s, ACommentsReturn(w, true), w, Acknowledged(JOB, a));
  }

  lemma FinishPublishStep(cfg: Config, p: Path, s: Scene, w: WorkerId, a: nat) returns (p': Path)
    requires Stands(cfg, p, s) && On(s, w, Acknowledged(JOB, a))
    requires a < |s.jobs[JOB].attempts| && s.jobs[JOB].attempts[a].outcome.Unfinished?
    ensures var row := s.jobs[JOB].(attempts := Finished(s.jobs[JOB].attempts, a, Succeeded));
            Stands(cfg, p', Changed(s, w, JOB, row, Completing(JOB, true))) && p'.tally == p.tally
  {
    hide Stands, Moved, Changed, EpochReviews;
    Sees(cfg, p, s, w);
    var row := s.jobs[JOB].(attempts := Finished(s.jobs[JOB].attempts, a, Succeeded));
    p' := PutStep(cfg, p, s, AFinishPublishAttempt(w), w, JOB, row, Completing(JOB, true));
  }

  // ---- Voting -----------------------------------------------------------------------------

  lemma EnsureVoteIs(cfg: Config, W: World, w: WorkerId)
    ensures Next(cfg, W, AEnsureVote(w, Some(1))) == EnsureVote(W, w, Some(1))
  {
    hide EnsureVote;
  }

  lemma EnsuredRow(row: Job, w: WorkerId, now: Time)
    requires row.state.Publishing? && LiveLease(row, w, now)
    ensures var vote := if row.vote.Some? then row.vote else Some(Vote(VotePending, Some(1), None, 0, 0));
            EnsureVoteRow(row, Some(1), w, now) == Ok(row.(vote := vote))
  {
  }

  /** A POSITIVE decision; the vote row is created with the first call only. */
  lemma EnsureStep(cfg: Config, p: Path, s: Scene, w: WorkerId) returns (p': Path)
    requires Stands(cfg, p, s) && On(s, w, Completing(JOB, true)) && Holds(s, w, JOB) && s.jobs[JOB].state.Publishing?
    ensures var vote := if s.jobs[JOB].vote.Some? then s.jobs[JOB].vote else Some(Vote(VotePending, Some(1), None, 0, 0));
            Stands(cfg, p', Changed(s, w, JOB, s.jobs[JOB].(vote := vote), VoteEnsured(JOB, true))) && p'.tally == p.tally
  {
    hide Stands, Moved, Changed, Count, EnsureVoteRow, Next;
    Sees(cfg, p, s, w);
    EnsureVoteIs(cfg, p.W, w);
    EnsuredRow(s.jobs[JOB], w, s.now);
    var vote := if s.jobs[JOB].vote.Some? then s.jobs[JOB].vote else Some(Vote(VotePending, Some(1), None, 0, 0));
    p' := PutStep(cfg, p, s, AEnsureVote(w, Some(1)), w, JOB, s.jobs[JOB].(vote := vote), VoteEnsured(JOB, true));
    PlainTally(p.tally, s.jobs[JOB], s.jobs[JOB].(vote := vote), AEnsureVote(w, Some(1)));
  }

  lemma DeferStep(cfg: Config, p: Path, s: Scene, w: WorkerId) returns (p': Path)
    requires Stands(cfg, p, s) && On(s, w, VoteEnsured(JOB, true)) && Holds(s, w, JOB) && s.jobs[JOB].state.Publishing?
    requires s.jobs[JOB].publication.Some?
    ensures var row := s.jobs[JOB].(publication := Some(s.jobs[JOB].publication.value.(status := Posted)), retryState := None);
            Stands(cfg, p', Changed(s, w, JOB, row, VoteDeferred(JOB, true))) && p'.tally == p.tally
  {
    hide Stands, Moved, Changed;
    Sees(cfg, p, s, w);
    var row := s.jobs[JOB].(publication := Some(s.jobs[JOB].publication.value.(status := Posted)), retryState := None);
    p' := PutStep(cfg, p, s, ACompleteDeferred(w), w, JOB, row, VoteDeferred(JOB, true));
  }

  lemma LoadStep(cfg: Config, p: Path, s: Scene, w: WorkerId, vote: Vote) returns (p': Path)
    requires Stands(cfg, p, s) && On(s, w, VoteDeferred(JOB, true)) && s.jobs[JOB].vote == Some(vote)
    ensures Stands(cfg, p', Moved(s, w, VoteLoaded(JOB, true, vote))) && p'.tally == p.tally
  {
    hide Stands, Moved;
    Sees(cfg, p, s, w);
    p' := GotoStep(cfg, p, s, ALoadVote(w), w, VoteLoaded(JOB, true, vote));
  }

  /** Gerrit cannot be read. */
  lemma UnreadStep(cfg: Config, p: Path, s: Scene, w: WorkerId, vote: Vote) returns (p': Path)
    requires Stands(cfg, p, s) && On(s, w, VoteLoaded(JOB, true, vote)) && !IsTerminalVote(vote.status)
    ensures Stands(cfg, p', Moved(s, w, VoteRetrying(JOB, false))) && p'.tally == p.tally
  {
    hide Stands, Moved;
    Sees(cfg, p, s, w);
    p' := GotoStep(cfg, p, s, AVoteTransient(w), w, VoteRetrying(JOB, false));
  }

  /** The marker is not there, and there are attempts and retries left. */
  lemma ObserveStep(cfg: Config, p: Path, s: Scene, w: WorkerId, vote: Vote) returns (p': Path)
    requires Stands(cfg, p, s) && On(s, w, VoteLoaded(JOB, true, vote)) && !IsTerminalVote(vote.status)
    requires vote.attempts < cfg.publishAttempts && vote.retryCount < cfg.publishAttempts
    requires vote.account.None? || vote.account == Some(ACCOUNT)
    requires forall i :: 0 <= i < |s.log| ==> s.log[i].kind.Comments?
    ensures Stands(cfg, p', Moved(s, w, VoteAbsent(JOB))) && p'.tally == p.tally
  {
    hide Stands, Moved;
    Sees(cfg, p, s, w);
    assert !MarkerFound(s.log, JOB, ACCOUNT);
    hide MarkerFound;
    p' := GotoStep(cfg, p, s, AObserveVote(w, true), w, VoteAbsent(JOB));
  }

  lemma GuardVoteIs(cfg: Config, W: World, w: WorkerId)
    ensures Next(cfg, W, AGuardVote(w)) == GuardVote(cfg, W, w)
  {
    hide GuardVote;
  }

  lemma VoteGuardStep(cfg: Config, p: Path, s: Scene, w: WorkerId, pc: Pc) returns (p': Path)
    requires Stands(cfg, p, s) && On(s, w, pc) && (pc == VoteAbsent(JOB) || pc == VoteDispatched(JOB)) && Holds(s, w, JOB)
    requires s.jobs[JOB].state.Publishing? && !HasNewer(s.jobs, s.jobs[JOB])
    ensures var row := s.jobs[JOB].(lease := Some(Lease(w, s.now + cfg.leaseSeconds)));
            Stands(cfg, p', Changed(s, w, JOB, row, if pc.VoteAbsent? then VoteGuarded(JOB)
                                                    else VotePosting(JOB, s.now + cfg.leaseSeconds, false)))
            && p'.tally == p.tally
  {
    hide Stands, Moved, Changed, HasNewer, Count, Next;
    Sees(cfg, p, s, w);
    GuardVoteIs(cfg, p.W, w);
    var row := s.jobs[JOB].(lease := Some(Lease(w, s.now + cfg.leaseSeconds)));
    p' := PutStep(cfg, p, s, AGuardVote(w), w, JOB, row,
                  if pc.VoteAbsent? then VoteGuarded(JOB) else VotePosting(JOB, s.now + cfg.leaseSeconds, false));
    PlainTally(p.tally, s.jobs[JOB], row, AGuardVote(w));
  }

  lemma DispatchStep(cfg: Config, p: Path, s: Scene, w: WorkerId, vote: Vote) returns (p': Path)
    requires Stands(cfg, p, s) && On(s, w, VoteGuarded(JOB)) && Holds(s, w, JOB) && s.jobs[JOB].state.Publishing?
    requires s.jobs[JOB].vote == Some(vote) && !IsTerminalVote(vote.status)
    requires vote.account.None? || vote.account == Some(ACCOUNT)
    ensures var vote' := vote.(account := Some(ACCOUNT), attempts := vote.attempts + 1, status := VoteAmbiguous);
            Stands(cfg, p', Changed(s, w, JOB, s.jobs[JOB].(vote := Some(vote')), VoteDispatched(JOB)))
            && p'.tally == p.tally
  {
    hide Stands, Moved, Changed;
    Sees(cfg, p, s, w);
    var vote' := vote.(account := Some(ACCOUNT), attempts := vote.attempts + 1, status := VoteAmbiguous);
    p' := PutStep(cfg, p, s, ADispatchVote(w), w, JOB, s.jobs[JOB].(vote := Some(vote')), VoteDispatched(JOB));
  }

  /** The vote POST fails without having landed. */
  lemma LostVoteStep(cfg: Config, p: Path, s: Scene, w: WorkerId, deadline: Time) returns (p': Path)
    requires Stands(cfg, p, s) && On(s, w, VotePosting(JOB, deadline, false))
    ensures Stands(cfg, p', Moved(s, w, VoteRetrying(JOB, true))) && p'.tally == p.tally
  {
    hide Stands, Moved;
    Sees(cfg, p, s, w);
    p' := GotoStep(cfg, p, s, AVoteReturn(w, false, true), w, VoteRetrying(JOB, true));
  }

  lemma RetryStep(cfg: Config, p: Path, s: Scene, w: WorkerId, posted: bool, vote: Vote) returns (p': Path)
    requires Stands(cfg, p, s) && On(s, w, VoteRetrying(JOB, posted)) && Holds(s, w, JOB) && s.jobs[JOB].state.Publishing?
    requires s.jobs[JOB].vote == Some(vote)
    ensures var row := s.jobs[JOB].(vote := Some(vote.(retryCount := vote.retryCount + 1)));
            Stands(cfg, p', Changed(s, w, JOB, row, VoteRetried(JOB, posted, vote.retryCount + 1)))
            && p'.tally == p.tally.(unsettled := true)
  {
    hide Stands, Moved, Changed;
    Sees(cfg, p, s, w);
    var row := s.jobs[JOB].(vote := Some(vote.(retryCount := vote.retryCount + 1)));
    p' := PutStep(cfg, p, s, ARetryVote(w), w, JOB, row, VoteRetried(JOB, posted, vote.retryCount + 1));
  }

  /** After a POST the job waits for one more pass, whatever the count. */
  lemma AgainStep(cfg: Config, p: Path, s: Scene, w: WorkerId, count: nat) returns (p': Path)
    requires Stands(cfg, p, s) && On(s, w, VoteRetried(JOB, true, count))
    ensures Stands(cfg, p', Moved(s, w, Rescheduling(JOB, Publishing))) && p'.tally == p.tally
  {
    hide Stands, Moved;
    Sees(cfg, p, s, w);
    p' := GotoStep(cfg, p, s, AAfterVoteRetry(w), w, Rescheduling(JOB, Publishing));
  }

  // ---- A newer Patch Set ------------------------------------------------------------------

  /** A newer Patch Set arrives while a POST of the first one may be outstanding. */
  lemma EnqueueNextStep(cfg: Config, p: Path, s: Scene) returns (p': Path)
    requires Stands(cfg, p, s) && s.jobs.Keys == {JOB} && s.projects == map[] && NeedsPublishRecovery(s.jobs[JOB])
    requires s.jobs[JOB].identity == Identity(EVENT.change, EVENT.revision, "v") && s.jobs[JOB].patchset == 1
    ensures Stands(cfg, p', s.(jobs := s.jobs[NEXT := NewJob(NEXT_EVENT, "v", false, s.now)]))
  {
    hide Stands;
    p' := Then(cfg, p, AEnqueue(NEXT_EVENT, "v", NEXT));
    NextArrives(cfg, p, s);
  }

  lemma NextArrives(cfg: Config, p: Path, s: Scene)
    requires Stands(cfg, p, s) && s.jobs.Keys == {JOB} && s.projects == map[] && NeedsPublishRecovery(s.jobs[JOB])
    requires s.jobs[JOB].identity == Identity(EVENT.change, EVENT.revision, "v") && s.jobs[JOB].patchset == 1
    ensures Stands(cfg, Then(cfg, p, AEnqueue(NEXT_EVENT, "v", NEXT)),
                   s.(jobs := s.jobs[NEXT := NewJob(NEXT_EVENT, "v", false, s.now)]))
  {
    ThenGood(cfg, p, AEnqueue(NEXT_EVENT, "v", NEXT));
    NextJobs(s);
    hide Good, Observe, EnqueueAt, NewJob;
  }

  lemma NextJobs(s: Scene)
    requires s.jobs.Keys == {JOB} && s.projects == map[] && NeedsPublishRecovery(s.jobs[JOB])
    requires s.jobs[JOB].identity == Identity(EVENT.change, EVENT.revision, "v") && s.jobs[JOB].patchset == 1
    ensures EnqueueAt(s.jobs, s.projects, NEXT_EVENT, "v", NEXT, s.now)
         == s.jobs[NEXT := NewJob(NEXT_EVENT, "v", false, s.now)]
    ensures !IsTerminal(NewJob(NEXT_EVENT, "v", false, s.now).state)
  {
    var jobs := s.jobs[NEXT := NewJob(NEXT_EVENT, "v", false, s.now)];
    assert !HasNewer(jobs, jobs[NEXT]);
    assert jobs.Keys == {JOB, NEXT};
    assert ApplyPatchSetOrdering(jobs, NEXT) == jobs;
  }

  /** An exception handler marks the publication FAILED, without any fence. */
  lemma FailPublicationStep(cfg: Config, p: Path, s: Scene, w: WorkerId) returns (p': Path)
    requires Stands(cfg, p, s) && On(s, w, Leaving(JOB, None, false)) && s.jobs[JOB].publication.Some?
    ensures var row := s.jobs[JOB].(publication := Some(s.jobs[JOB].publication.value.(status := PublicationFailed)));
            Stands(cfg, p', Changed(s, w, JOB, row, Leaving(JOB, None, false)))
  {
    hide Stands, Moved, Changed;
    Sees(cfg, p, s, w);
    var row := s.jobs[JOB].(publication := Some(s.jobs[JOB].publication.value.(status := PublicationFailed)));
    p' := PutStep(cfg, p, s, ALeaveMarkPublication(w, true), w, JOB, row, Leaving(JOB, None, false));
  }

  /** A newer Patch Set is stored, and the publication was marked FAILED. */
  lemma OvertakenStep(cfg: Config, p: Path, s: Scene, w: WorkerId, state: JobState, seen: Publication) returns (p': Path)
    requires Stands(cfg, p, s) && On(s, w, PublicationRead(JOB, state, Some(seen))) && seen.status.PublicationFailed?
    requires HasNewer(s.jobs, s.jobs[JOB])
    ensures Stands(cfg, p', Moved(s, w, Leaving(JOB, None, false)))
  {
    hide Stands, Moved, HasNewer;
    Sees(cfg, p, s, w);
    p' := GotoStep(cfg, p, s, ACheckLatest(w), w, Leaving(JOB, None, false));
  }

  /** A newer Patch Set is stored, and the publication was seen as POSTED. */
  lemma SeenPostedStep(cfg: Config, p: Path, s: Scene, w: WorkerId, state: JobState, seen: Publication) returns (p': Path)
    requires Stands(cfg, p, s) && On(s, w, PublicationRead(JOB, state, Some(seen))) && seen.status.Posted?
    requires HasNewer(s.jobs, s.jobs[JOB])
    ensures Stands(cfg, p', Moved(s, w, Completing(JOB, false)))
  {
    hide Stands, Moved, HasNewer;
    Sees(cfg, p, s, w);
    p' := GotoStep(cfg, p, s, ACheckLatest(w), w, Completing(JOB, false));
  }

  lemma SupersedeStep(cfg: Config, p: Path, s: Scene, w: WorkerId) returns (p': Path)
    requires Stands(cfg, p, s) && On(s, w, Leaving(JOB, None, false)) && Holds(s, w, JOB) && s.jobs[JOB].state.Publishing?
    ensures var row := s.jobs[JOB].(state := Superseded, retryState := None, lease := None);
            Stands(cfg, p', Changed(s, w, JOB, row, Idle))
  {
    hide Stands, Moved, Changed;
    Sees(cfg, p, s, w);
    var row := s.jobs[JOB].(state := Superseded, retryState := None, lease := None);
    p' := PutStep(cfg, p, s, ALeaveSuperseded(w), w, JOB, row, Idle);
  }

  // ---- Scope changes ----------------------------------------------------------------------

  function InScope(s: Scene, mode: StartMode): map<string, Scope> {
    s.projects["p" := Scope(true, mode, s.now)]
  }

  /** The project starts from now: its older, unpublished job is skipped. */
  lemma SkipStep(cfg: Config, p: Path, s: Scene) returns (p': Path)
    requires Stands(cfg, p, s) && s.jobs.Keys == {JOB} && PreCutoff(s.jobs[JOB], "p", s.now, s.now)
    ensures var row := s.jobs[JOB].(state := SkippedScope, retryState := None, lease := None);
            Stands(cfg, p', s.(jobs := s.jobs[JOB := row], projects := InScope(s, FromNow))) && p'.tally == p.tally
  {
    hide Good, PreCutoff, SkipPreCutoff, Count;
    p' := Then(cfg, p, AUpsertProject("p", true, FromNow));
    ThenGood(cfg, p, AUpsertProject("p", true, FromNow));
    SkippedJobs(s);
    SkipTally(p.tally, s.jobs[JOB], p'.W.jobs[JOB]);
  }

  lemma SkippedJobs(s: Scene)
    requires s.jobs.Keys == {JOB} && PreCutoff(s.jobs[JOB], "p", s.now, s.now)
    ensures SkipPreCutoff(s.jobs, "p", s.now, s.now)
         == s.jobs[JOB := s.jobs[JOB].(state := SkippedScope, retryState := None, lease := None)]
  {
    hide PreCutoff;
  }

  lemma SkipTally(t: Tally, row: Job, row': Job)
    ensures Count(t, row, row', AUpsertProject("p", true, FromNow)) == t
  {
  }

  /** The project opts in to its open changes. */
  lemma IncludeStep(cfg: Config, p: Path, s: Scene) returns (p': Path)
    requires Stands(cfg, p, s)
    ensures Stands(cfg, p', s.(projects := InScope(s, IncludeOpen))) && p'.tally == p.tally
  {
    p' := Then(cfg, p, AUpsertProject("p", true, IncludeOpen));
    ThenGood(cfg, p, AUpsertProject("p", true, IncludeOpen));
    hide Good, Count;
    if JOB in p.W.jobs { UnchangedTally(p.tally, p.W.jobs[JOB], AUpsertProject("p", true, IncludeOpen)); }
  }

  /** The event comes again, and the skipped job is received once more. */
  lemma ReviveStep(cfg: Config, p: Path, s: Scene) returns (p': Path)
    requires Stands(cfg, p, s) && s.jobs.Keys == {JOB} && s.jobs[JOB].result.Some?
    requires s.jobs[JOB].identity == Identity(EVENT.change, EVENT.revision, "v") && Revives(s.jobs[JOB], s.projects)
    ensures var row := s.jobs[JOB].(state := Received, retryState := None, nextAttemptAt := s.now);
            Stands(cfg, p', s.(jobs := s.jobs[JOB := row])) && p'.tally == p.tally.(revived := true)
  {
    p' := Then(cfg, p, AEnqueue(EVENT, "v", JOB));
    ThenGood(cfg, p, AEnqueue(EVENT, "v", JOB));
    RevivedJobs(s);
    hide Good, EnqueueAt, EpochReviews;
  }

  lemma RevivedJobs(s: Scene)
    requires s.jobs.Keys == {JOB} && Revives(s.jobs[JOB], s.projects)
    ensures EnqueueAt(s.jobs, s.projects, EVENT, "v", JOB, s.now)
         == s.jobs[JOB := s.jobs[JOB].(state := Received, retryState := None, nextAttemptAt := s.now)]
  {
    var jobs := s.jobs[JOB := s.jobs[JOB].(state := Received, retryState := None, nextAttemptAt := s.now)];
    assert !HasNewer(jobs, jobs[JOB]);
    assert ApplyPatchSetOrdering(jobs, JOB) == jobs;
  }
}
