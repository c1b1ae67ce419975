/** The two retry budgets over every run: REVIEW attempts of an epoch (service.py, `_can_start_attempt`)
    and retries of a vote (voting.py, the handler of a transient error).  Each is stated against what the
    run itself did: how often a worker that had lost the job still reported a provider failure, how often a
    review went on after an attempt had succeeded, and how often a claim ended between a committed retry and
    its completion. */
module ProtocolBudgets {
  import opened Wrappers
  import opened StateMachine
  import opened JobRows
  import opened RetryBudget
  import opened Protocol
  import opened ProtocolInvariant
  import opened ProtocolRows
  import opened ProtocolSteps
  import opened ProtocolMoves
  import ProtocolSafety

  /** Per job: late provider failures, repeated reviews and a revival in the current retry epoch; a committed
      retry of the vote that nothing followed up yet; and the claims that found one. */
  datatype Tally = Tally(late: nat, repeated: nat, revived: bool, unsettled: bool, stranded: nat)

  const NOTHING := Tally(0, 0, false, false, 0)

  /** The REVIEW attempts that these let start beyond the limits. */
  function Credit(cfg: Config, t: Tally): nat {
    t.repeated * cfg.providerAttempts + t.late * LatePrice(cfg.reviewAttempts, cfg.providerAttempts)
  }

  lemma CreditGrows(cfg: Config, t: Tally, t': Tally)
    requires t.late <= t'.late && t.repeated <= t'.repeated
    ensures Credit(cfg, t) <= Credit(cfg, t')
    ensures t.late < t'.late ==> Credit(cfg, t') >= Credit(cfg, t) + LatePrice(cfg.reviewAttempts, cfg.providerAttempts)
    ensures t.repeated < t'.repeated ==> Credit(cfg, t') >= Credit(cfg, t) + cfg.providerAttempts
  {
    var late, price, p := t.late, LatePrice(cfg.reviewAttempts, cfg.providerAttempts), cfg.providerAttempts;
    Product(t.late, t'.late, price);
    Product(t.repeated, t'.repeated, p);
    if t.late < t'.late { Product(t.late + 1, t'.late, price); OneMore(t.late, price); }
    if t.repeated < t'.repeated { Product(t.repeated + 1, t'.repeated, p); OneMore(t.repeated, p); }
  }

  lemma SameCredit(cfg: Config, t: Tally, t': Tally)
    requires t'.late == t.late && t'.repeated == t.repeated
    ensures Credit(cfg, t') == Credit(cfg, t)
    ensures forall reviews :: InBlocks(cfg, reviews, t') <==> InBlocks(cfg, reviews, t)
  {
  }

  lemma NoCredit(cfg: Config, t: Tally)
    requires t.late == t.repeated == 0
    ensures Credit(cfg, t) == 0
  {
  }

  lemma CreditOwed(cfg: Config, t: Tally, outcomes: seq<Outcome>)
    ensures Credit(cfg, t.(repeated := t.repeated + Owed(outcomes)))
         == Credit(cfg, t) + OwedAttempts(outcomes, cfg.providerAttempts)
  {
    OneMore(t.repeated, cfg.providerAttempts);
  }

  /** A worker records a provider failure for an attempt of this epoch although it no longer holds the job. */
  predicate LateFailure(row: Job, row': Job, action: Action) {
    && action.AFinishReview? && action.outcome == Failed(true) && !OwnedBy(row, action.w)
    && EpochReviews(row') != EpochReviews(row)
  }

  /** An attempt starts behind one that succeeded, or succeeds when a later one has started. */
  predicate Repeats(row: Job, row': Job, action: Action) {
    var reviews, reviews' := EpochReviews(row), EpochReviews(row');
    || (action.AStartReview? && reviews' != reviews && Owed(reviews) == 1)
    || (action.AFinishReview? && action.outcome.Succeeded? && reviews != [] && |reviews'| == |reviews|
        && reviews'[..|reviews| - 1] != reviews[..|reviews| - 1])
  }

  /** A late event under INCLUDE_OPEN takes a skipped job that has its review result back to RECEIVED. */
  predicate Revival(row: Job, row': Job, action: Action) {
    action.AEnqueue? && row.state.SkippedScope? && !row'.state.SkippedScope? && row.result.Some?
  }

  function Count(t: Tally, row: Job, row': Job, action: Action): Tally {
    if action.ARequeue? && row' != row then t.(late := 0, repeated := 0, revived := false)
    else if LateFailure(row, row', action) then t.(late := t.late + 1)
    else if Repeats(row, row', action) then t.(repeated := t.repeated + 1)
    else if Revival(row, row', action) then t.(revived := true)
    else if action.ARetryVote? && row' != row then t.(unsettled := true)
    else if (action.AReschedule? || action.AFinishVote?) && row' != row then t.(unsettled := false)
    else if action.AClaim? && row' != row && t.unsettled then t.(unsettled := false, stranded := t.stranded + 1)
    else t
  }

  function Observe(t: Tally, W: World, W': World, action: Action, id: JobId): Tally {
    if id in W.jobs && id in W'.jobs then Count(t, W.jobs[id], W'.jobs[id], action) else t
  }

  /** What a run did to job `id`. */
  function TallyOf(cfg: Config, W: World, actions: seq<Action>, id: JobId): Tally
    decreases |actions|
  {
    if actions == [] then NOTHING
    else
      var before, action := actions[..|actions| - 1], actions[|actions| - 1];
      var P := Run(cfg, W, before);
      Observe(TallyOf(cfg, W, before, id), P, Next(cfg, P, action), action, id)
  }

  // ---- REVIEW attempts --------------------------------------------------------------------

  /** What the row of a job owes to the REVIEW budget. */
  predicate Budgeted(cfg: Config, row: Job, t: Tally) {
    && Admitted(EpochReviews(row), Credit(cfg, t), cfg.reviewAttempts, cfg.providerAttempts)
    && (!t.revived ==>
          && t.repeated == 0 && (Owed(EpochReviews(row)) == 1 ==> row.result.Some?)
          && (row.result.Some? ==> !ReviewBound(row)))
  }

  predicate InBlocks(cfg: Config, reviews: seq<Outcome>, t: Tally) {
    Blocks(reviews, Credit(cfg, t) + OwedAttempts(reviews, cfg.providerAttempts), cfg.providerAttempts)
  }

  /** What a worker in front of, inside or just behind a REVIEW attempt knows. */
  predicate ReviewWorkerOk(cfg: Config, pc: Pc, u: WorkerId, row: Job, t: Tally) {
    var reviews := EpochReviews(row);
    match pc
    case StreakRead(_) => OwnedBy(row, u) ==> InBlocks(cfg, reviews, t)
    case ReviewAllowed(_) =>
      OwnedBy(row, u) ==>
        InBlocks(cfg, reviews, t) && CountCharged(reviews) < cfg.reviewAttempts
    case ReviewRunning(_, a) => OwnedBy(row, u) ==> IsLast(row.attempts, ReviewStage, a)
    case ReviewSaved(_, a) =>
      a >= row.epochStart && !t.revived ==> row.result.Some? && IsLast(row.attempts, ReviewStage, a)
    case _ => true
  }

  ghost predicate ReviewWorkersOk(cfg: Config, W: World, id: JobId, t: Tally)
    requires id in W.jobs
  {
    forall u :: u in W.workers && !W.workers[u].pc.Idle? && W.workers[u].pc.job == id ==>
                  ReviewWorkerOk(cfg, W.workers[u].pc, u, W.jobs[id], t)
  }

  ghost predicate ReviewsOk(cfg: Config, W: World, id: JobId, t: Tally) {
    if id in W.jobs
    then Budgeted(cfg, W.jobs[id], t) && ReviewWorkersOk(cfg, W, id, t)
    else t == NOTHING
  }

  lemma SameTally(t: Tally, row: Job, row': Job, action: Action)
    ensures var t' := Count(t, row, row', action);
            && (!action.ARequeue? ==> t.revived ==> t'.revived)
            && (!action.AFinishReview? && !action.AStartReview? && !action.ARequeue? ==>
                  t'.late == t.late && t'.repeated == t.repeated)
            && (!action.AEnqueue? && !action.ARequeue? ==> t'.revived == t.revived)
  {
    hide Outcomes;
  }

  /** What a worker knows survives a calm step of somebody else. */
  lemma ReviewWorkerStays(cfg: Config, pc: Pc, u: WorkerId, row: Job, row': Job, t: Tally, t': Tally)
    requires ReviewWorkerOk(cfg, pc, u, row, t) && SameReviews(row, row')
    requires OwnedBy(row', u) ==> OwnedBy(row, u)
    requires row.result.Some? ==> row'.result.Some?
    requires t'.late == t.late && t'.repeated == t.repeated && (t.revived ==> t'.revived)
    ensures ReviewWorkerOk(cfg, pc, u, row', t')
  {
    hide EpochReviews, Blocks, IsLast, Owed;
  }

  lemma BudgetStays(cfg: Config, row: Job, row': Job, t: Tally, t': Tally)
    requires Budgeted(cfg, row, t) && SameReviews(row, row') && t'.late == t.late && t'.repeated == t.repeated
    requires row.result.Some? ==> row'.result.Some?
    requires !t'.revived ==>
      !t.revived && (row'.result.Some? && ReviewBound(row') ==> row.result.Some? && ReviewBound(row))
    ensures Budgeted(cfg, row', t')
  {
    hide EpochReviews, Admitted, ReviewBound, Owed;
  }

  lemma StepFacts(cfg: Config, W: World, action: Action, id: JobId, u: WorkerId)
    requires Inv(cfg, W) && id in W.jobs
    ensures var W' := Next(cfg, W, action);
            && id in W'.jobs && RowMoves(W.jobs[id], W'.jobs[id], ClaimerOf(W, action), W.now, W'.now)
            && Calm(W.jobs[id], W'.jobs[id], action)
            && PcMoves(cfg, W, W', action, u)
  {
    hide Next, RowMoves, Calm, PcMoves, Inv;
    StepMoves(cfg, W, action, id);
  }

  /** Worker `u` itself reads the gate, starts, saves or finishes. */
  predicate ReviewStepOf(action: Action, u: WorkerId) {
    || (action.AReadStreak? && action.w == u) || (action.AReadConsumed? && action.w == u)
    || (action.AStartReview? && action.w == u) || (action.ASaveReview? && action.w == u)
    || (action.AFinishReview? && action.w == u)
  }

  /** A worker keeps its knowledge over every step of somebody else that does not touch REVIEW attempts. */
  lemma ReviewWorkerKept(cfg: Config, W: World, action: Action, id: JobId, u: WorkerId, t: Tally)
    requires Inv(cfg, W) && id in W.jobs && ReviewWorkersOk(cfg, W, id, t)
    requires !action.ARequeue? && !action.AFinishReview? && !action.AStartReview? && !ReviewStepOf(action, u)
    requires var W' := Next(cfg, W, action); u in W'.workers && !W'.workers[u].pc.Idle? && W'.workers[u].pc.job == id
    ensures var W' := Next(cfg, W, action);
            id in W'.jobs && ReviewWorkerOk(cfg, W'.workers[u].pc, u, W'.jobs[id], Observe(t, W, W', action, id))
  {
    hide Next, Inv, EpochReviews, Blocks, IsLast, Count, Owed, Credit, CountCharged;
    StepFacts(cfg, W, action, id, u);
    var W' := Next(cfg, W, action);
    SameTally(t, W.jobs[id], W'.jobs[id], action);
    if u in W.workers && W'.workers[u].pc == W.workers[u].pc {
      ReviewWorkerStays(cfg, W.workers[u].pc, u, W.jobs[id], W'.jobs[id], t, Observe(t, W, W', action, id));
    }
  }

  /** Calm steps keep the review budget of the row. */
  lemma BudgetKept(cfg: Config, W: World, action: Action, id: JobId, t: Tally)
    requires Inv(cfg, W) && id in W.jobs && Budgeted(cfg, W.jobs[id], t)
    requires !action.ARequeue? && !action.AFinishReview? && !action.AStartReview? && !action.AEnqueue?
    ensures var W' := Next(cfg, W, action);
            id in W'.jobs && Budgeted(cfg, W'.jobs[id], Observe(t, W, W', action, id))
  {
    hide Next, Inv, EpochReviews, Count, ReviewBound, Budgeted;
    StepFacts(cfg, W, action, id, 0);
    var W' := Next(cfg, W, action);
    SameTally(t, W.jobs[id], W'.jobs[id], action);
    BudgetStays(cfg, W.jobs[id], W'.jobs[id], t, Observe(t, W, W', action, id));
  }

  /** A revival restarts the review of a job without a result, or is counted. */
  lemma EnqueueReturns(cfg: Config, W: World, event: Event, policyVersion: string, target: JobId, id: JobId)
    requires id in W.jobs
    ensures var W' := Enqueue(W, event, policyVersion, target);
            && id in W'.jobs && W'.jobs[id].result == W.jobs[id].result
            && (ReviewBound(W'.jobs[id]) && !ReviewBound(W.jobs[id]) ==>
                  W.jobs[id].state.SkippedScope? && !W'.jobs[id].state.SkippedScope?)
  {
    hide HasNewer, PredatesScope, NeedsPublishRecovery, Elder;
  }

  lemma EnqueueIs(cfg: Config, W: World, action: Action)
    requires action.AEnqueue?
    ensures Next(cfg, W, action) == Enqueue(W, action.event, action.policyVersion, action.id)
  {
    hide Enqueue;
  }

  lemma EnqueueTally(t: Tally, row: Job, row': Job, action: Action)
    requires action.AEnqueue?
    ensures var t' := Count(t, row, row', action);
            && t'.late == t.late && t'.repeated == t.repeated
            && (t'.revived <==> t.revived || Revival(row, row', action))
  {
  }

  lemma EnqueueKeepsBudget(cfg: Config, W: World, action: Action, id: JobId, t: Tally)
    requires action.AEnqueue? && Inv(cfg, W) && id in W.jobs && Budgeted(cfg, W.jobs[id], t)
    ensures var W' := Next(cfg, W, action);
            id in W'.jobs && Budgeted(cfg, W'.jobs[id], Observe(t, W, W', action, id))
  {
    hide Next, Inv, EpochReviews, ReviewBound, Budgeted, Enqueue;
    StepFacts(cfg, W, action, id, 0);
    EnqueueIs(cfg, W, action);
    EnqueueReturns(cfg, W, action.event, action.policyVersion, action.id, id);
    var W' := Next(cfg, W, action);
    EnqueueTally(t, W.jobs[id], W'.jobs[id], action);
    BudgetStays(cfg, W.jobs[id], W'.jobs[id], t, Observe(t, W, W', action, id));
  }

  // ---- The gate and its attempt -----------------------------------------------------------

  /** A worker that owns a job it reviews: the job has no result, or was revived with one. */
  lemma OwnerReviews(cfg: Config, W: World, u: WorkerId, id: JobId, t: Tally)
    requires Inv(cfg, W) && u in W.workers && HasReview(W.workers[u].pc) && W.workers[u].pc.job == id && id in W.jobs
    requires OwnedBy(W.jobs[id], u) && !t.revived && Budgeted(cfg, W.jobs[id], t)
    ensures IsReviewState(W.jobs[id].state) && W.jobs[id].result.None?
    ensures Owed(EpochReviews(W.jobs[id])) == 0
  {
    hide Inv, EpochReviews, Admitted, Landed;
    WorkerFacts(cfg, W, u);
  }

  lemma UnchangedTally(t: Tally, row: Job, action: Action)
    ensures Count(t, row, row, action) == t
  {
  }

  lemma StreakReader(cfg: Config, W: World, w: WorkerId, waited: bool, id: JobId, t: Tally)
    requires Inv(cfg, W) && id in W.jobs && ReviewsOk(cfg, W, id, t) && cfg.providerAttempts >= 1
    requires var W' := ReadStreak(cfg, W, w, waited);
             w in W'.workers && !W'.workers[w].pc.Idle? && W'.workers[w].pc.job == id
    ensures ReviewWorkerOk(cfg, ReadStreak(cfg, W, w, waited).workers[w].pc, w, W.jobs[id], t)
  {
    hide Inv, EpochReviews, Streak, Admitted, Blocks, Owed;
    var pc' := ReadStreak(cfg, W, w, waited).workers[w].pc;
    if pc'.StreakRead? && W.workers[w].pc.InReview? && OwnedBy(W.jobs[id], w) {
      StreakAdmits(EpochReviews(W.jobs[id]), Credit(cfg, t), cfg.reviewAttempts, cfg.providerAttempts);
    }
  }

  lemma BudgetReader(cfg: Config, W: World, w: WorkerId, id: JobId, t: Tally)
    requires id in W.jobs && ReviewsOk(cfg, W, id, t)
    requires var W' := ReadConsumed(cfg, W, w);
             w in W'.workers && !W'.workers[w].pc.Idle? && W'.workers[w].pc.job == id
    ensures ReviewWorkerOk(cfg, ReadConsumed(cfg, W, w).workers[w].pc, w, W.jobs[id], t)
  {
    hide Outcomes, ConsumedSince, Blocks, Budgeted, Owed;
    ConsumedIsCounted(W.jobs[id].attempts, W.jobs[id].epochStart, ReviewStage);
  }

  lemma Saver(cfg: Config, W: World, w: WorkerId, review: string, id: JobId, t: Tally)
    requires id in W.jobs && ReviewsOk(cfg, W, id, t)
    requires var W' := SaveReview(W, w, review);
             w in W'.workers && !W'.workers[w].pc.Idle? && W'.workers[w].pc.job == id
    ensures var W' := SaveReview(W, w, review);
            id in W'.jobs && (W'.workers[w].pc.ReviewSaved? ==> ReviewWorkerOk(cfg, W'.workers[w].pc, w, W'.jobs[id], t))
    ensures var W' := SaveReview(W, w, review); !W'.workers[w].pc.ReviewSaved? ==> W' == W
  {
    hide EpochReviews, Blocks, Budgeted, CheckTransition;
  }

  /** The worker that makes the step, after its read or its save. */
  lemma ReviewWorkerMoved(cfg: Config, W: World, action: Action, id: JobId, u: WorkerId, t: Tally)
    requires Inv(cfg, W) && id in W.jobs && ReviewsOk(cfg, W, id, t) && cfg.providerAttempts >= 1
    requires ReviewStepOf(action, u) && !action.AStartReview? && !action.AFinishReview?
    requires var W' := Next(cfg, W, action); u in W'.workers && !W'.workers[u].pc.Idle? && W'.workers[u].pc.job == id
    ensures var W' := Next(cfg, W, action);
            id in W'.jobs && ReviewWorkerOk(cfg, W'.workers[u].pc, u, W'.jobs[id], Observe(t, W, W', action, id))
  {
    hide Inv, Next, ReadStreak, ReadConsumed, SaveReview, ReviewWorkerOk, Budgeted, Count;
    ReviewStepIs(cfg, W, action);
    StepFacts(cfg, W, action, id, u);
    if action.AReadStreak? {
      StreakReader(cfg, W, u, action.waited, id, t);
      UnchangedTally(t, W.jobs[id], action);
    } else if action.AReadConsumed? {
      BudgetReader(cfg, W, u, id, t);
      UnchangedTally(t, W.jobs[id], action);
    } else {
      Saver(cfg, W, u, action.review, id, t);
      SavedTally(t, W.jobs[id], Next(cfg, W, action).jobs[id], action);
    }
  }

  lemma SavedTally(t: Tally, row: Job, row': Job, action: Action)
    requires action.ASaveReview?
    ensures Count(t, row, row', action) == t
  {
  }

  lemma ReviewStepIs(cfg: Config, W: World, action: Action)
    ensures action.AReadStreak? ==>
      Next(cfg, W, action) == ReadStreak(cfg, W, action.w, action.waited) && Next(cfg, W, action).jobs == W.jobs
    ensures action.AReadConsumed? ==>
      Next(cfg, W, action) == ReadConsumed(cfg, W, action.w) && Next(cfg, W, action).jobs == W.jobs
    ensures action.ASaveReview? ==> Next(cfg, W, action) == SaveReview(W, action.w, action.review)
  {
    hide SaveReview, EpochReviews, Streak, ConsumedAttempts;
  }

  // ---- Starting an attempt ----------------------------------------------------------------

  /** What StartReview did, if it did anything to job `id`. */
  lemma StartReviewIs(cfg: Config, W: World, w: WorkerId, id: JobId)
    requires id in W.jobs
    ensures var W' := Next(cfg, W, AStartReview(w));
            && id in W'.jobs
            && (W'.jobs[id] == W.jobs[id] || StartsReview(W, W', w, id))
            && (w in W.workers && w in W'.workers && W'.workers[w].pc.ReviewRunning? && W'.workers[w].pc.job == id ==>
                  W'.workers[w].pc == W.workers[w].pc || StartsReview(W, W', w, id))
  {
  }

  predicate StartsReview(W: World, W': World, w: WorkerId, id: JobId)
    requires id in W.jobs && id in W'.jobs
  {
    && w in W.workers && W.workers[w].pc == ReviewAllowed(id) && OwnedBy(W.jobs[id], w)
    && W'.jobs[id] == W.jobs[id].(attempts := W.jobs[id].attempts + [Attempt(ReviewStage, w, Unfinished)])
    && w in W'.workers && W'.workers[w].pc == ReviewRunning(id, |W.jobs[id].attempts|)
  }

  lemma StartTally(t: Tally, row: Job, row': Job, w: WorkerId)
    requires row.epochStart <= |row.attempts|
    requires row' == row.(attempts := row.attempts + [Attempt(ReviewStage, w, Unfinished)])
    ensures EpochReviews(row') == EpochReviews(row) + [Unfinished]
    ensures Count(t, row, row', AStartReview(w)) == t.(repeated := t.repeated + Owed(EpochReviews(row)))
  {
    OutcomesLast(row.attempts, Attempt(ReviewStage, w, Unfinished), row.epochStart, ReviewStage);
  }

  lemma StartKeepsBudget(cfg: Config, row: Job, row': Job, w: WorkerId, t: Tally)
    requires Budgeted(cfg, row, t) && row.epochStart <= |row.attempts| && (!t.revived ==> row.result.None?)
    requires InBlocks(cfg, EpochReviews(row), t)
    requires CountCharged(EpochReviews(row)) < cfg.reviewAttempts
    requires row' == row.(attempts := row.attempts + [Attempt(ReviewStage, w, Unfinished)])
    ensures Budgeted(cfg, row', Count(t, row, row', AStartReview(w)))
  {
    hide Admitted, Blocks, Outcomes, ReviewBound, Count, Credit, OwedAttempts;
    StartTally(t, row, row', w);
    CreditOwed(cfg, t, EpochReviews(row));
    BudgetAdmits(EpochReviews(row), Credit(cfg, t) + OwedAttempts(EpochReviews(row), cfg.providerAttempts),
                 cfg.reviewAttempts, cfg.providerAttempts);
    assert ReviewBound(row') == ReviewBound(row) by { SameBound(row, row'); }
  }

  lemma SameBound(row: Job, row': Job)
    requires row'.state == row.state && row'.retryState == row.retryState
    ensures ReviewBound(row') == ReviewBound(row)
  {
  }

  /** Others do not hold the job, and nobody starts an attempt once a result is saved. */
  lemma StartKeepsOther(cfg: Config, pc: Pc, u: WorkerId, row: Job, row': Job, w: WorkerId, t: Tally, t': Tally)
    requires ReviewWorkerOk(cfg, pc, u, row, t) && u != w && OwnedBy(row, w) && t'.revived == t.revived
    requires !t.revived ==> row.result.None?
    requires row' == row.(attempts := row.attempts + [Attempt(ReviewStage, w, Unfinished)])
    ensures ReviewWorkerOk(cfg, pc, u, row', t')
  {
    hide EpochReviews, Blocks, IsLast, Owed;
  }

  lemma PcFacts(cfg: Config, W: World, action: Action, u: WorkerId)
    ensures PcMoves(cfg, W, Next(cfg, W, action), action, u)
  {
    hide Next, PcMoves, Inv;
    StepMoves(cfg, W, action, 0);
  }

  lemma StartKeepsReviews(cfg: Config, W: World, w: WorkerId, id: JobId, t: Tally)
    requires Inv(cfg, W) && id in W.jobs && ReviewsOk(cfg, W, id, t)
    ensures ReviewsOk(cfg, Next(cfg, W, AStartReview(w)), id, Observe(t, W, Next(cfg, W, AStartReview(w)), AStartReview(w), id))
  {
    hide Inv, Next, Budgeted, ReviewWorkerOk, EpochReviews, Blocks, RowOk, Count;
    var W' := Next(cfg, W, AStartReview(w));
    StartReviewIs(cfg, W, w, id);
    var row, row' := W.jobs[id], W'.jobs[id];
    var t' := Count(t, row, row', AStartReview(w));
    UnchangedTally(t, row, AStartReview(w));
    SameTally(t, row, row', AStartReview(w));
    if row' != row { StartedBudget(cfg, W, W', w, id, t); }
    forall u | u in W'.workers && !W'.workers[u].pc.Idle? && W'.workers[u].pc.job == id
      ensures ReviewWorkerOk(cfg, W'.workers[u].pc, u, row', t')
    {
      PcFacts(cfg, W, AStartReview(w), u);
      if u in W.workers && W'.workers[u].pc == W.workers[u].pc {
        if row' != row {
          if !t.revived { OwnerOfStart(cfg, W, w, id, t); }
          StartKeepsOther(cfg, W.workers[u].pc, u, row, row', w, t, t');
        }
      } else if W'.workers[u].pc.ReviewRunning? {
        StartedLast(cfg, W'.workers[u].pc, u, row, row', t');
      } else {
        NothingToKnow(cfg, W'.workers[u].pc, u, row', t');
      }
    }
  }

  lemma NothingToKnow(cfg: Config, pc: Pc, u: WorkerId, row: Job, t: Tally)
    requires !pc.StreakRead? && !pc.ReviewAllowed? && !pc.ReviewRunning? && !pc.ReviewSaved?
    ensures ReviewWorkerOk(cfg, pc, u, row, t)
  {
  }

  lemma StartedLast(cfg: Config, pc: Pc, u: WorkerId, row: Job, row': Job, t: Tally)
    requires row'.attempts == row.attempts + [Attempt(ReviewStage, u, Unfinished)]
    requires pc.ReviewRunning? && pc.attempt == |row.attempts|
    ensures ReviewWorkerOk(cfg, pc, u, row', t)
  {
  }

  lemma OwnerOfStart(cfg: Config, W: World, w: WorkerId, id: JobId, t: Tally)
    requires Inv(cfg, W) && id in W.jobs && w in W.workers && W.workers[w].pc == ReviewAllowed(id)
    requires OwnedBy(W.jobs[id], w) && !t.revived && Budgeted(cfg, W.jobs[id], t)
    ensures W.jobs[id].result.None?
  {
    hide Inv, Budgeted, EpochReviews;
    OwnerReviews(cfg, W, w, id, t);
  }

  lemma StartedBudget(cfg: Config, W: World, W': World, w: WorkerId, id: JobId, t: Tally)
    requires Inv(cfg, W) && id in W.jobs && id in W'.jobs && ReviewsOk(cfg, W, id, t)
    requires StartsReview(W, W', w, id)
    ensures Budgeted(cfg, W'.jobs[id], Count(t, W.jobs[id], W'.jobs[id], AStartReview(w)))
  {
    hide Inv, Budgeted, EpochReviews, Blocks, JobOk, Count, Owed;
    RowFacts(cfg, W, id);
    EpochWithin(cfg, ViewOf(W, id));
    assert ReviewWorkerOk(cfg, W.workers[w].pc, w, W.jobs[id], t);
    if !t.revived { OwnerOfStart(cfg, W, w, id, t); }
    StartKeepsBudget(cfg, W.jobs[id], W'.jobs[id], w, t);
  }

  lemma EpochWithin(cfg: Config, v: View)
    requires ViewOk(cfg, v)
    ensures v.row.epochStart <= |v.row.attempts|
  {
  }

  // ---- Finishing an attempt ---------------------------------------------------------------

  /** Worker `w` finishes attempt `a` of job `id`. */
  predicate FinishesReview(W: World, W': World, w: WorkerId, a: nat, outcome: Outcome, id: JobId)
    requires id in W.jobs && id in W'.jobs
  {
    && w in W.workers && a < |W.jobs[id].attempts| && W.jobs[id].attempts[a].outcome.Unfinished?
    && W'.jobs[id] == W.jobs[id].(attempts := Finished(W.jobs[id].attempts, a, outcome))
    && ((W.workers[w].pc == ReviewRunning(id, a) && outcome.Failed?)
        || (W.workers[w].pc == ReviewSaved(id, a) && (outcome.Succeeded? || outcome == Failed(false))))
  }

  lemma FinishReviewIs(cfg: Config, W: World, w: WorkerId, outcome: Outcome, id: JobId) returns (a: nat)
    requires id in W.jobs
    ensures var W' := Next(cfg, W, AFinishReview(w, outcome));
            && id in W'.jobs && (W'.jobs[id] == W.jobs[id] || FinishesReview(W, W', w, a, outcome, id))
            && (w in W.workers && w in W'.workers && !W'.workers[w].pc.Idle? && W'.workers[w].pc.job == id ==>
                  W'.workers[w].pc == W.workers[w].pc || W'.workers[w].pc.ReviewFailed?)
  {
    a := 0;
    if Acting(W, w) && (W.workers[w].pc.ReviewRunning? || W.workers[w].pc.ReviewSaved?) { a := W.workers[w].pc.attempt; }
  }

  /** The attempt was the newest one, belongs to an earlier epoch, keeps its charge, or is counted. */
  predicate Timely(row: Job, a: nat, outcome: Outcome, t: Tally, t': Tally) {
    && t.late <= t'.late && t.repeated <= t'.repeated && t'.revived == t.revived
    && (a < row.epochStart ==> t'.late == t.late && t'.repeated == t.repeated)
    && (a >= row.epochStart && !IsLast(row.attempts, ReviewStage, a) ==>
          (outcome == Failed(true) ==> t.late < t'.late) && (outcome.Succeeded? ==> t.repeated < t'.repeated))
    && (!t.revived && a >= row.epochStart ==>
          t'.repeated == t.repeated && (outcome.Succeeded? ==> row.result.Some? && IsLast(row.attempts, ReviewStage, a)))
  }

  lemma FinishKeepsBudget(cfg: Config, row: Job, row': Job, a: nat, outcome: Outcome, t: Tally, t': Tally)
    requires Budgeted(cfg, row, t) && Timely(row, a, outcome, t, t') && cfg.providerAttempts >= 1
    requires a < |row.attempts| && row.attempts[a].stage.ReviewStage? && row.attempts[a].outcome.Unfinished?
    requires row' == row.(attempts := Finished(row.attempts, a, outcome))
    ensures Budgeted(cfg, row', t')
  {
    hide Admitted, Outcomes, IsLast, ReviewBound, Credit;
    OutcomesFinished(row.attempts, row.epochStart, ReviewStage, a, outcome);
    SameBound(row, row');
    CreditGrows(cfg, t, t');
    if a >= row.epochStart {
      var i := Place(row.attempts, row.epochStart, ReviewStage, a);
      FinishKeepsAdmitted(EpochReviews(row), Credit(cfg, t), Credit(cfg, t'), cfg.reviewAttempts, cfg.providerAttempts, i,
                          outcome);
    } else {
      SameCredit(cfg, t, t');
    }
  }

  lemma FinishKeepsLast(row: Job, a: nat, outcome: Outcome)
    requires a < |row.attempts|
    ensures forall b :: IsLast(row.attempts, ReviewStage, b) <==> IsLast(Finished(row.attempts, a, outcome), ReviewStage, b)
  {
    var after := Finished(row.attempts, a, outcome);
    assert forall k :: 0 <= k < |after| ==> after[k].stage == row.attempts[k].stage;
  }

  /** Somebody else, who may hold the job at the gate while this attempt ends. */
  lemma FinishKeepsOther(cfg: Config, pc: Pc, u: WorkerId, row: Job, row': Job, a: nat, outcome: Outcome, t: Tally, t': Tally)
    requires ReviewWorkerOk(cfg, pc, u, row, t) && Budgeted(cfg, row, t) && Timely(row, a, outcome, t, t')
    requires cfg.providerAttempts >= 1
    requires a < |row.attempts| && row.attempts[a].stage.ReviewStage? && row.attempts[a].outcome.Unfinished?
    requires row' == row.(attempts := Finished(row.attempts, a, outcome))
    requires OwnedBy(row, u) && a >= row.epochStart && outcome == Failed(true) ==> t.late < t'.late
    ensures ReviewWorkerOk(cfg, pc, u, row', t')
  {
    hide Blocks, Admitted, Outcomes, IsLast, Credit, InBlocks, ReviewBound;
    FinishKeepsLast(row, a, outcome);
    OutcomesFinished(row.attempts, row.epochStart, ReviewStage, a, outcome);
    if a < row.epochStart { SameCredit(cfg, t, t'); }
    if OwnedBy(row, u) && (pc.StreakRead? || pc.ReviewAllowed?) && a >= row.epochStart {
      EndKeepsGate(cfg, EpochReviews(row), Place(row.attempts, row.epochStart, ReviewStage, a), outcome, t, t');
    }
  }

  lemma EndKeepsGate(cfg: Config, reviews: seq<Outcome>, i: nat, outcome: Outcome, t: Tally, t': Tally)
    requires InBlocks(cfg, reviews, t) && cfg.providerAttempts >= 1
    requires Admitted(reviews, Credit(cfg, t), cfg.reviewAttempts, cfg.providerAttempts)
    requires i < |reviews| && reviews[i].Unfinished? && t.late <= t'.late && t.repeated <= t'.repeated
    requires outcome == Failed(true) ==> t.late < t'.late
    requires outcome.Succeeded? && i < |reviews| - 1 ==> t.repeated < t'.repeated
    ensures InBlocks(cfg, reviews[i := outcome], t')
    ensures CountCharged(reviews[i := outcome]) <= CountCharged(reviews)
  {
    hide Blocks, Admitted, Credit;
    CreditGrows(cfg, t, t');
    if outcome == Failed(true) {
      LateKeepsBlocks(reviews, Credit(cfg, t), Credit(cfg, t'), cfg.reviewAttempts, cfg.providerAttempts, i);
    } else {
      EndKeepsBlocks(reviews, Credit(cfg, t) + OwedAttempts(reviews, cfg.providerAttempts),
                     Credit(cfg, t') + OwedAttempts(reviews[i := outcome], cfg.providerAttempts), cfg.providerAttempts,
                     i, outcome);
    }
  }

  /** How the tally sees the finish. */
  lemma FinishTally(t: Tally, row: Job, row': Job, w: WorkerId, a: nat, outcome: Outcome)
    requires a < |row.attempts| && row.attempts[a].stage.ReviewStage? && row.attempts[a].outcome.Unfinished?
    requires row' == row.(attempts := Finished(row.attempts, a, outcome)) && !outcome.Unfinished?
    ensures var t' := Count(t, row, row', AFinishReview(w, outcome));
            && t'.revived == t.revived && t.late <= t'.late && t.repeated <= t'.repeated
            && (a < row.epochStart ==> t'.late == t.late && t'.repeated == t.repeated)
            && (a >= row.epochStart && !OwnedBy(row, w) && outcome == Failed(true) ==> t'.late == t.late + 1)
            && (a >= row.epochStart && !IsLast(row.attempts, ReviewStage, a) && outcome.Succeeded? ==>
                  t'.repeated == t.repeated + 1)
            && (IsLast(row.attempts, ReviewStage, a) || !outcome.Succeeded? ==> t'.repeated == t.repeated)
            && (IsLast(row.attempts, ReviewStage, a) && outcome.Succeeded? ==> t' == t)
  {
    hide Outcomes, IsLast;
    OutcomesFinished(row.attempts, row.epochStart, ReviewStage, a, outcome);
    if a >= row.epochStart {
      FrontChanges(EpochReviews(row), Place(row.attempts, row.epochStart, ReviewStage, a), outcome);
    }
  }

  lemma FrontChanges(outcomes: seq<Outcome>, i: nat, outcome: Outcome)
    requires i < |outcomes| && outcomes[i] != outcome
    ensures outcomes[i := outcome][..|outcomes| - 1] != outcomes[..|outcomes| - 1] <==> i != |outcomes| - 1
  {
    var front, after := outcomes[..|outcomes| - 1], outcomes[i := outcome][..|outcomes| - 1];
    if i < |front| { assert front[i] != after[i]; }
  }

  lemma OwnAttempt(cfg: Config, W: World, w: WorkerId)
    requires Inv(cfg, W) && w in W.workers && (W.workers[w].pc.ReviewRunning? || W.workers[w].pc.ReviewSaved?)
    ensures W.workers[w].pc.job in W.jobs && OwnReview(W.workers[w].pc.attempt, W.jobs[W.workers[w].pc.job], w)
  {
    hide Inv, Landed;
    WorkerFacts(cfg, W, w);
  }

  lemma FinishIsTimely(cfg: Config, W: World, W': World, w: WorkerId, a: nat, outcome: Outcome, id: JobId, t: Tally)
    requires Inv(cfg, W) && id in W.jobs && id in W'.jobs && ReviewsOk(cfg, W, id, t)
    requires FinishesReview(W, W', w, a, outcome, id)
    ensures W.jobs[id].attempts[a].stage.ReviewStage?
    ensures Timely(W.jobs[id], a, outcome, t, Count(t, W.jobs[id], W'.jobs[id], AFinishReview(w, outcome)))
  {
    hide Inv, Budgeted, Blocks, Count, IsLast, Owed;
    OwnAttempt(cfg, W, w);
    assert ReviewWorkerOk(cfg, W.workers[w].pc, w, W.jobs[id], t);
    FinishTally(t, W.jobs[id], W'.jobs[id], w, a, outcome);
  }

  lemma FinishSparesOther(cfg: Config, W: World, W': World, w: WorkerId, a: nat, outcome: Outcome, id: JobId, u: WorkerId,
                          t: Tally)
    requires Inv(cfg, W) && id in W.jobs && id in W'.jobs && ReviewsOk(cfg, W, id, t) && cfg.providerAttempts >= 1
    requires FinishesReview(W, W', w, a, outcome, id)
    requires u in W.workers && u != w && !W.workers[u].pc.Idle? && W.workers[u].pc.job == id
    ensures ReviewWorkerOk(cfg, W.workers[u].pc, u, W'.jobs[id], Count(t, W.jobs[id], W'.jobs[id], AFinishReview(w, outcome)))
  {
    hide Inv, Budgeted, Blocks, Count, IsLast, Outcomes, Timely, ReviewWorkerOk;
    var pc, row := W.workers[u].pc, W.jobs[id];
    OwnAttempt(cfg, W, w);
    FinishTally(t, row, W'.jobs[id], w, a, outcome);
    FinishIsTimely(cfg, W, W', w, a, outcome, id, t);
    FinishKeepsOther(cfg, pc, u, row, W'.jobs[id], a, outcome, t, Count(t, row, W'.jobs[id], AFinishReview(w, outcome)));
  }

  lemma FinishKeepsReviews(cfg: Config, W: World, w: WorkerId, outcome: Outcome, id: JobId, t: Tally)
    requires Inv(cfg, W) && id in W.jobs && ReviewsOk(cfg, W, id, t) && cfg.providerAttempts >= 1
    ensures var action := AFinishReview(w, outcome);
            ReviewsOk(cfg, Next(cfg, W, action), id, Observe(t, W, Next(cfg, W, action), action, id))
  {
    hide Inv, Next, Budgeted, ReviewWorkerOk, EpochReviews, Blocks, Count, IsLast, Timely, Owed;
    var action := AFinishReview(w, outcome);
    var W' := Next(cfg, W, action);
    var a := FinishReviewIs(cfg, W, w, outcome, id);
    var row, row', t' := W.jobs[id], W'.jobs[id], Observe(t, W, W', action, id);
    UnchangedTally(t, row, action);
    SameTally(t, row, row', action);
    if row' != row {
      FinishIsTimely(cfg, W, W', w, a, outcome, id, t);
      FinishKeepsBudget(cfg, row, row', a, outcome, t, t');
    }
    forall u | u in W'.workers && !W'.workers[u].pc.Idle? && W'.workers[u].pc.job == id
      ensures ReviewWorkerOk(cfg, W'.workers[u].pc, u, row', t')
    {
      PcFacts(cfg, W, action, u);
      if row' != row && u == w {
        FinisherMoves(cfg, W, w, outcome, id);
        NothingToKnow(cfg, W'.workers[u].pc, u, row', t');
      } else if u in W.workers && W'.workers[u].pc == W.workers[u].pc {
        if row' != row { FinishSparesOther(cfg, W, W', w, a, outcome, id, u, t); }
      } else {
        NothingToKnow(cfg, W'.workers[u].pc, u, row', t');
      }
    }
  }

  lemma FinisherMoves(cfg: Config, W: World, w: WorkerId, outcome: Outcome, id: JobId)
    requires id in W.jobs
    ensures var W' := Next(cfg, W, AFinishReview(w, outcome));
            id in W'.jobs && (W'.jobs[id] != W.jobs[id] ==>
              w in W'.workers && (W'.workers[w].pc.Idle? || W'.workers[w].pc.ReviewFailed?))
  {
  }

  // ---- Requeue, new jobs, and all steps together ------------------------------------------

  lemma RequeueIs(cfg: Config, W: World, target: JobId, id: JobId)
    requires id in W.jobs
    ensures var W' := Next(cfg, W, ARequeue(target));
            && W'.workers == W.workers && id in W'.jobs
            && (W'.jobs[id] == W.jobs[id] || RequeueRow(W.jobs[id], Newer(W, id), W.now) == Ok(W'.jobs[id]))
  {
    hide HasNewer;
  }

  lemma RequeuedRow(cfg: Config, row: Job, newer: bool, now: Time)
    requires RequeueRow(row, newer, now).Ok?
    ensures Budgeted(cfg, RequeueRow(row, newer, now).value, NOTHING)
  {
  }

  lemma RequeuedWorker(cfg: Config, pc: Pc, u: WorkerId, account: AccountId, v: View, newer: bool, now: Time, t: Tally)
    requires RequeueRow(v.row, newer, now).Ok?
    requires pc.ReviewSaved? ==> OwnReview(pc.attempt, v.row, u)
    ensures ReviewWorkerOk(cfg, pc, u, RequeueRow(v.row, newer, now).value, t)
  {
  }

  lemma BudgetIgnores(cfg: Config, row: Job, t: Tally, t': Tally)
    requires Budgeted(cfg, row, t) && t'.late == t.late && t'.repeated == t.repeated && t'.revived == t.revived
    ensures Budgeted(cfg, row, t')
  {
  }

  lemma RequeueTally(t: Tally, row: Job, row': Job, target: JobId)
    requires row' != row
    ensures var t' := Count(t, row, row', ARequeue(target)); t'.late == t'.repeated == 0 && !t'.revived
  {
  }

  lemma RequeueKeepsReviews(cfg: Config, W: World, target: JobId, id: JobId, t: Tally)
    requires Inv(cfg, W) && id in W.jobs && ReviewsOk(cfg, W, id, t)
    ensures var action := ARequeue(target);
            ReviewsOk(cfg, Next(cfg, W, action), id, Observe(t, W, Next(cfg, W, action), action, id))
  {
    hide Inv, Next, Budgeted, ReviewWorkerOk, Count, RequeueRow, HasNewer;
    var action := ARequeue(target);
    var W' := Next(cfg, W, action);
    RequeueIs(cfg, W, target, id);
    var row, row', t' := W.jobs[id], W'.jobs[id], Observe(t, W, W', action, id);
    UnchangedTally(t, row, action);
    if row' != row {
      RequeueTally(t, row, row', target);
      RequeuedRow(cfg, row, Newer(W, id), W.now);
      BudgetIgnores(cfg, row', NOTHING, t');
      forall u | u in W'.workers && !W'.workers[u].pc.Idle? && W'.workers[u].pc.job == id
        ensures ReviewWorkerOk(cfg, W'.workers[u].pc, u, row', t')
      {
        if W.workers[u].pc.ReviewSaved? { OwnAttempt(cfg, W, u); }
        RequeuedWorker(cfg, W.workers[u].pc, u, W.workers[u].account, ViewOf(W, id), Newer(W, id), W.now, t');
      }
    }
  }

  /** A job appears with an enqueue, and nobody works on it yet. */
  lemma NewJobIs(cfg: Config, W: World, action: Action, id: JobId)
    requires Inv(cfg, W) && id !in W.jobs && id in Next(cfg, W, action).jobs
    ensures var W' := Next(cfg, W, action);
            && W'.workers == W.workers && W'.jobs[id].attempts == [] && W'.jobs[id].result.None?
            && W'.jobs[id].vote.None?
  {
    hide Inv, Next, HasNewer, PredatesScope;
    StepMoves(cfg, W, action, id);
    EnqueueIs(cfg, W, action);
  }

  lemma FreshBudget(cfg: Config, row: Job)
    requires row.attempts == [] && row.result.None?
    ensures Budgeted(cfg, row, NOTHING)
  {
  }

  lemma NewJobWithin(cfg: Config, W: World, action: Action, id: JobId, t: Tally)
    requires Inv(cfg, W) && id !in W.jobs && id in Next(cfg, W, action).jobs && t == NOTHING
    ensures ReviewsOk(cfg, Next(cfg, W, action), id, t)
  {
    hide Inv, Next, Budgeted, ReviewWorkerOk;
    NewJobIs(cfg, W, action, id);
    FreshBudget(cfg, Next(cfg, W, action).jobs[id]);
    forall u | u in W.workers && !W.workers[u].pc.Idle? ensures W.workers[u].pc.job != id { WorkerFacts(cfg, W, u); }
  }

  lemma ReviewsStep(cfg: Config, W: World, action: Action, id: JobId, t: Tally)
    requires Inv(cfg, W) && ReviewsOk(cfg, W, id, t) && cfg.providerAttempts >= 1
    ensures ReviewsOk(cfg, Next(cfg, W, action), id, Observe(t, W, Next(cfg, W, action), action, id))
  {
    hide Inv, Next, Budgeted, ReviewWorkerOk, Count, ReviewStepOf;
    var W' := Next(cfg, W, action);
    if id !in W.jobs {
      if id in W'.jobs { NewJobWithin(cfg, W, action, id, t); }
    } else if action.ARequeue? {
      RequeueKeepsReviews(cfg, W, action.id, id, t);
    } else if action.AStartReview? {
      StartKeepsReviews(cfg, W, action.w, id, t);
    } else if action.AFinishReview? {
      FinishKeepsReviews(cfg, W, action.w, action.outcome, id, t);
    } else {
      if action.AEnqueue? { EnqueueKeepsBudget(cfg, W, action, id, t); } else { BudgetKept(cfg, W, action, id, t); }
      forall u | u in W'.workers && !W'.workers[u].pc.Idle? && W'.workers[u].pc.job == id
        ensures ReviewWorkerOk(cfg, W'.workers[u].pc, u, W'.jobs[id], Observe(t, W, W', action, id))
      {
        if ReviewStepOf(action, u) { ReviewWorkerMoved(cfg, W, action, id, u, t); } else { ReviewWorkerKept(cfg, W, action, id, u, t); }
      }
    }
  }

  lemma {:induction false} RunKeepsReviews(cfg: Config, now: Time, actions: seq<Action>, id: JobId)
    requires cfg.leaseSeconds > 0 && cfg.providerAttempts >= 1
    ensures ReviewsOk(cfg, Run(cfg, Init(now), actions), id, TallyOf(cfg, Init(now), actions, id))
    decreases |actions|
  {
    if actions != [] {
      hide Inv, Next, ReviewsOk, Init, Observe;
      var before := actions[..|actions| - 1];
      RunKeepsReviews(cfg, now, before, id);
      ProtocolSafety.RunKeepsInv(cfg, now, before);
      ReviewsStep(cfg, Run(cfg, Init(now), before), actions[|actions| - 1], id, TallyOf(cfg, Init(now), before, id));
    }
  }

  /** In every run, at most reviewAttempts * providerAttempts REVIEW attempts start in one retry epoch, and
      providerAttempts more for every attempt that succeeded without ending the review, which takes a revival, and
      for every provider failure that was recorded after its worker had lost the job; with one review attempt such a
      failure lets only one more start. */
  lemma {:induction false} ReviewsWithinBudget(cfg: Config, now: Time, actions: seq<Action>, id: JobId)
    requires cfg.leaseSeconds > 0 && cfg.providerAttempts >= 1
    requires id in Run(cfg, Init(now), actions).jobs
    ensures var t := TallyOf(cfg, Init(now), actions, id);
            && |EpochReviews(Run(cfg, Init(now), actions).jobs[id])|
                 <= cfg.reviewAttempts * cfg.providerAttempts + Credit(cfg, t)
            && (t.repeated > 0 ==> t.revived)
  {
    var W, t := Run(cfg, Init(now), actions), TallyOf(cfg, Init(now), actions, id);
    hide Next, Run, TallyOf, EpochReviews, Admitted, ReviewWorkerOk, ReviewBound, Owed, Credit;
    RunKeepsReviews(cfg, now, actions, id);
    AdmittedIsBounded(EpochReviews(W.jobs[id]), Credit(cfg, t), cfg.reviewAttempts, cfg.providerAttempts);
  }

  /** The condition on the steps themselves: nobody records a provider failure for a job it has lost, and no
      reviewed job is revived. */
  ghost predicate Punctual(cfg: Config, W: World, actions: seq<Action>, id: JobId) {
    forall k :: 0 <= k < |actions| ==> PunctualStep(cfg, Run(cfg, W, actions[..k]), actions[k], id)
  }

  ghost predicate PunctualStep(cfg: Config, P: World, action: Action, id: JobId) {
    id in P.jobs && id in Next(cfg, P, action).jobs ==>
      var row, row' := P.jobs[id], Next(cfg, P, action).jobs[id];
      !LateFailure(row, row', action) && !Revival(row, row', action)
  }

  lemma {:induction false} PunctualTally(cfg: Config, W: World, actions: seq<Action>, id: JobId)
    requires Punctual(cfg, W, actions, id)
    ensures TallyOf(cfg, W, actions, id).late == 0 && !TallyOf(cfg, W, actions, id).revived
    decreases |actions|
  {
    if actions != [] {
      hide Next, LateFailure, Revival;
      var before := actions[..|actions| - 1];
      assert forall k :: 0 <= k < |before| ==> before[..k] == actions[..k];
      PunctualTally(cfg, W, before, id);
      assert PunctualStep(cfg, Run(cfg, W, before), actions[|actions| - 1], id);
    }
  }

  /** The bound the limits suggest holds for every run with punctual workers and no revival. */
  lemma {:induction false} PunctualReviewsWithinBudget(cfg: Config, now: Time, actions: seq<Action>, id: JobId)
    requires cfg.leaseSeconds > 0 && cfg.providerAttempts >= 1
    requires id in Run(cfg, Init(now), actions).jobs && Punctual(cfg, Init(now), actions, id)
    ensures |EpochReviews(Run(cfg, Init(now), actions).jobs[id])| <= cfg.reviewAttempts * cfg.providerAttempts
  {
    hide *;
    PunctualTally(cfg, Init(now), actions, id);
    ReviewsWithinBudget(cfg, now, actions, id);
    NoCredit(cfg, TallyOf(cfg, Init(now), actions, id));
  }

  // ---- Retries of a vote ------------------------------------------------------------------

  /** What the row of a job owes to the retry limit of its vote. */
  predicate RetriesOk(cfg: Config, row: Job, t: Tally) {
    row.vote.Some? ==>
      && row.vote.value.retryCount <= cfg.publishAttempts + t.stranded + 1
      && (!t.unsettled && !IsTerminalVote(row.vote.value.status) ==>
            row.vote.value.retryCount <= cfg.publishAttempts + t.stranded)
  }

  /** A claim starts with every committed retry settled, and leaves to wait only within the limit. */
  predicate VoterOk(cfg: Config, pc: Pc, u: WorkerId, row: Job, t: Tally) {
    OwnedBy(row, u) && !pc.Idle? && t.unsettled ==>
      && Spent(pc)
      && (pc.Rescheduling? ==> row.vote.Some? && row.vote.value.retryCount <= cfg.publishAttempts)
  }

  ghost predicate VotersOk(cfg: Config, W: World, id: JobId, t: Tally)
    requires id in W.jobs
  {
    forall u :: u in W.workers && !W.workers[u].pc.Idle? && W.workers[u].pc.job == id ==>
                  VoterOk(cfg, W.workers[u].pc, u, W.jobs[id], t)
  }

  ghost predicate VotesOk(cfg: Config, W: World, id: JobId, t: Tally) {
    if id in W.jobs then RetriesOk(cfg, W.jobs[id], t) && VotersOk(cfg, W, id, t) else t == NOTHING
  }

  /** Steps that neither retry, finish nor reschedule a vote, nor claim its job. */
  predicate LeavesVotes(action: Action) {
    !action.ARetryVote? && !action.AReschedule? && !action.AFinishVote? && !action.AClaim?
  }

  lemma VoteTally(t: Tally, row: Job, row': Job, action: Action)
    requires LeavesVotes(action) || row' == row
    ensures var t' := Count(t, row, row', action); t'.unsettled == t.unsettled && t'.stranded == t.stranded
  {
  }

  lemma RetriesStay(cfg: Config, row: Job, row': Job, t: Tally, t': Tally, now: Time, now': Time, claimer: Option<WorkerId>,
                    action: Action)
    requires RetriesOk(cfg, row, t) && RowMoves(row, row', claimer, now, now') && Calm(row, row', action)
    requires !action.ARetryVote? && t'.unsettled == t.unsettled && t'.stranded == t.stranded
    ensures RetriesOk(cfg, row', t')
  {
    hide SameReviews, ReviewBound;
  }

  /** The only worker with a committed retry behind it is past it. */
  lemma VoterStays(cfg: Config, W: World, action: Action, id: JobId, u: WorkerId, t: Tally, t': Tally)
    requires Inv(cfg, W) && id in W.jobs && VotersOk(cfg, W, id, t) && !action.ARetryVote?
    requires t'.unsettled ==> t.unsettled
    requires var W' := Next(cfg, W, action); u in W'.workers && !W'.workers[u].pc.Idle? && W'.workers[u].pc.job == id
    requires ClaimerOf(W, action) == Some(u) ==> !t'.unsettled
    ensures var W' := Next(cfg, W, action); id in W'.jobs && VoterOk(cfg, W'.workers[u].pc, u, W'.jobs[id], t')
  {
    hide Next, Inv, SameReviews, ReviewBound;
    StepFacts(cfg, W, action, id, u);
    if u in W.workers && !W.workers[u].pc.Idle? && W.workers[u].pc.VoteRetried? && W.workers[u].pc.job == id {
      RetriedCount(cfg, W, u);
    }
  }

  /** A worker past its retry knows the count it committed. */
  lemma RetriedCount(cfg: Config, W: World, u: WorkerId)
    requires Inv(cfg, W) && u in W.workers && W.workers[u].pc.VoteRetried?
    ensures var pc := W.workers[u].pc;
            pc.job in W.jobs
            && (OwnedBy(W.jobs[pc.job], u) ==>
                  && W.jobs[pc.job].vote.Some? && W.jobs[pc.job].vote.value.retryCount == pc.count
                  && (pc.posted ==> pc.count <= cfg.publishAttempts))
  {
    hide Inv, Landed;
    WorkerFacts(cfg, W, u);
  }

  lemma QuietVotes(cfg: Config, W: World, action: Action, id: JobId, t: Tally)
    requires Inv(cfg, W) && id in W.jobs && VotesOk(cfg, W, id, t) && LeavesVotes(action)
    ensures VotesOk(cfg, Next(cfg, W, action), id, Observe(t, W, Next(cfg, W, action), action, id))
  {
    hide Inv, Next, RetriesOk, VoterOk, Count, Calm, RowMoves, PcMoves;
    var W' := Next(cfg, W, action);
    var t' := Observe(t, W, W', action, id);
    StepFacts(cfg, W, action, id, 0);
    VoteTally(t, W.jobs[id], W'.jobs[id], action);
    RetriesStay(cfg, W.jobs[id], W'.jobs[id], t, t', W.now, W'.now, ClaimerOf(W, action), action);
    forall u | u in W'.workers && !W'.workers[u].pc.Idle? && W'.workers[u].pc.job == id
      ensures VoterOk(cfg, W'.workers[u].pc, u, W'.jobs[id], t')
    {
      VoterStays(cfg, W, action, id, u, t, t');
    }
  }

  // ---- The steps that settle a retry ------------------------------------------------------

  /** Worker `w` gives the job back to wait. */
  lemma RescheduleIs(cfg: Config, W: World, w: WorkerId, retryAt: Time, id: JobId)
    requires id in W.jobs
    ensures var W' := Next(cfg, W, AReschedule(w, retryAt));
            && id in W'.jobs
            && (W'.jobs[id] != W.jobs[id] ==>
                  && w in W.workers && OwnedBy(W.jobs[id], w) && W'.jobs[id].lease.None?
                  && W.workers[w].pc.Rescheduling? && W.workers[w].pc.job == id
                  && W'.jobs[id].vote == W.jobs[id].vote)
  {
    hide CheckTransition;
  }

  /** Worker `w` finishes the vote of the job. */
  lemma FinishVoteIs(cfg: Config, W: World, w: WorkerId, id: JobId)
    requires id in W.jobs
    ensures var W' := Next(cfg, W, AFinishVote(w));
            && id in W'.jobs
            && (W'.jobs[id] != W.jobs[id] ==>
                  && w in W.workers && OwnedBy(W.jobs[id], w) && W'.jobs[id].lease.None?
                  && W'.jobs[id].vote.Some? && IsTerminalVote(W'.jobs[id].vote.value.status))
  {
  }

  lemma SettleIs(cfg: Config, W: World, action: Action, id: JobId)
    requires id in W.jobs && (action.AReschedule? || action.AFinishVote?)
    ensures var W' := Next(cfg, W, action);
            && id in W'.jobs
            && (W'.jobs[id] != W.jobs[id] ==>
                  && action.w in W.workers && OwnedBy(W.jobs[id], action.w) && W'.jobs[id].lease.None?
                  && (action.AReschedule? ==>
                        W.workers[action.w].pc.Rescheduling? && W.workers[action.w].pc.job == id
                        && W'.jobs[id].vote == W.jobs[id].vote)
                  && (action.AFinishVote? ==> W'.jobs[id].vote.Some? && IsTerminalVote(W'.jobs[id].vote.value.status)))
  {
    hide *;
    if action.AReschedule? {
      RescheduleIs(cfg, W, action.w, action.retryAt, id);
    } else {
      FinishVoteIs(cfg, W, action.w, id);
    }
  }

  lemma SettledTally(t: Tally, row: Job, row': Job, action: Action)
    requires (action.AReschedule? || action.AFinishVote?) && row' != row
    ensures var t' := Count(t, row, row', action); !t'.unsettled && t'.stranded == t.stranded
  {
  }

  lemma SettleKeepsRetries(cfg: Config, W: World, W': World, action: Action, id: JobId, t: Tally)
    requires Inv(cfg, W) && id in W.jobs && VotesOk(cfg, W, id, t) && (action.AReschedule? || action.AFinishVote?)
    requires W' == Next(cfg, W, action) && id in W'.jobs && W'.jobs[id] != W.jobs[id]
    ensures RetriesOk(cfg, W'.jobs[id], t.(unsettled := false)) && W'.jobs[id].lease.None?
  {
    hide Inv, Next, SameReviews, ReviewBound, PcMoves;
    StepFacts(cfg, W, action, id, 0);
    SettleIs(cfg, W, action, id);
    if action.AReschedule? { assert VoterOk(cfg, W.workers[action.w].pc, action.w, W.jobs[id], t); }
  }

  lemma SettleKeepsVotes(cfg: Config, W: World, action: Action, id: JobId, t: Tally)
    requires Inv(cfg, W) && id in W.jobs && VotesOk(cfg, W, id, t) && (action.AReschedule? || action.AFinishVote?)
    ensures VotesOk(cfg, Next(cfg, W, action), id, Observe(t, W, Next(cfg, W, action), action, id))
  {
    hide Inv, Next, RetriesOk, Count, VoterOk;
    var W' := Next(cfg, W, action);
    var t' := Observe(t, W, W', action, id);
    SettleIs(cfg, W, action, id);
    UnchangedTally(t, W.jobs[id], action);
    if W'.jobs[id] != W.jobs[id] {
      SettledTally(t, W.jobs[id], W'.jobs[id], action);
      SettleKeepsRetries(cfg, W, W', action, id, t);
      RetriesIgnore(cfg, W'.jobs[id], t.(unsettled := false), t');
    }
    forall u | u in W'.workers && !W'.workers[u].pc.Idle? && W'.workers[u].pc.job == id
      ensures VoterOk(cfg, W'.workers[u].pc, u, W'.jobs[id], t')
    {
      VoterStays(cfg, W, action, id, u, t, t');
    }
  }

  lemma RetriesIgnore(cfg: Config, row: Job, t: Tally, t': Tally)
    requires RetriesOk(cfg, row, t) && t'.unsettled == t.unsettled && t'.stranded == t.stranded
    ensures RetriesOk(cfg, row, t')
  {
  }

  // ---- The retry and the claim ------------------------------------------------------------

  lemma RetryIs(cfg: Config, W: World, w: WorkerId, id: JobId)
    requires id in W.jobs
    ensures var W' := Next(cfg, W, ARetryVote(w));
            && id in W'.jobs
            && (W'.jobs[id] != W.jobs[id] ==>
                  && w in W.workers && W.workers[w].pc.VoteRetrying? && W.workers[w].pc.job == id
                  && OwnedBy(W.jobs[id], w) && W.jobs[id].vote.Some?
                  && W'.jobs[id] == W.jobs[id].(vote := Some(W.jobs[id].vote.value.(
                                                  retryCount := W.jobs[id].vote.value.retryCount + 1)))
                  && w in W'.workers && W'.workers[w].pc.VoteRetried?)
  {
  }

  /** The vote a worker retries is not terminal. */
  lemma RetryingVote(cfg: Config, W: World, w: WorkerId)
    requires Inv(cfg, W) && w in W.workers && W.workers[w].pc.VoteRetrying?
    ensures var id := W.workers[w].pc.job;
            id in W.jobs
            && (OwnedBy(W.jobs[id], w) ==>
                  W.jobs[id].vote.Some? && !IsTerminalVote(W.jobs[id].vote.value.status))
  {
    hide Inv, Landed;
    WorkerFacts(cfg, W, w);
  }

  lemma RetryTally(t: Tally, row: Job, row': Job, w: WorkerId)
    requires row' != row
    ensures var t' := Count(t, row, row', ARetryVote(w)); t'.unsettled && t'.stranded == t.stranded
  {
  }

  lemma RetryKeepsVotes(cfg: Config, W: World, w: WorkerId, id: JobId, t: Tally)
    requires Inv(cfg, W) && id in W.jobs && VotesOk(cfg, W, id, t)
    ensures VotesOk(cfg, Next(cfg, W, ARetryVote(w)), id,
                    Observe(t, W, Next(cfg, W, ARetryVote(w)), ARetryVote(w), id))
  {
    hide Inv, Next, Count;
    var W' := Next(cfg, W, ARetryVote(w));
    var t' := Observe(t, W, W', ARetryVote(w), id);
    RetryIs(cfg, W, w, id);
    UnchangedTally(t, W.jobs[id], ARetryVote(w));
    if W'.jobs[id] != W.jobs[id] {
      RetryTally(t, W.jobs[id], W'.jobs[id], w);
      RetryingVote(cfg, W, w);
      assert VoterOk(cfg, W.workers[w].pc, w, W.jobs[id], t);
    }
    forall u | u in W'.workers && !W'.workers[u].pc.Idle? && W'.workers[u].pc.job == id
      ensures VoterOk(cfg, W'.workers[u].pc, u, W'.jobs[id], t')
    {
      PcFacts(cfg, W, ARetryVote(w), u);
      if W'.jobs[id] != W.jobs[id] { RetrierOk(cfg, W, w, id, u, t'); }
      else { RetryUntouched(cfg, W, w, id, u, t); }
    }
  }

  lemma RetrierOk(cfg: Config, W: World, w: WorkerId, id: JobId, u: WorkerId, t': Tally)
    requires id in W.jobs && Next(cfg, W, ARetryVote(w)).jobs[id] != W.jobs[id]
    requires var W' := Next(cfg, W, ARetryVote(w)); u in W'.workers && !W'.workers[u].pc.Idle?
    ensures var W' := Next(cfg, W, ARetryVote(w)); id in W'.jobs && VoterOk(cfg, W'.workers[u].pc, u, W'.jobs[id], t')
  {
    hide Next;
    RetryIs(cfg, W, w, id);
  }

  lemma RetryUntouched(cfg: Config, W: World, w: WorkerId, id: JobId, u: WorkerId, t: Tally)
    requires Inv(cfg, W) && id in W.jobs && VotersOk(cfg, W, id, t)
    requires var W' := Next(cfg, W, ARetryVote(w));
             id in W'.jobs && W'.jobs[id] == W.jobs[id]
             && u in W'.workers && !W'.workers[u].pc.Idle? && W'.workers[u].pc.job == id
    ensures VoterOk(cfg, Next(cfg, W, ARetryVote(w)).workers[u].pc, u, W.jobs[id], t)
  {
    hide Inv, RetryVoteRow;
  }

  lemma ClaimIs(cfg: Config, W: World, w: WorkerId, target: JobId, id: JobId)
    requires id in W.jobs && cfg.leaseSeconds > 0
    ensures var W' := Next(cfg, W, AClaim(w, target));
            && id in W'.jobs
            && W'.jobs[id].vote == W.jobs[id].vote
            && (W'.jobs[id] == W.jobs[id] ==>
                  forall u :: u in W'.workers && !W'.workers[u].pc.Idle? && W'.workers[u].pc.job == id ==>
                                u in W.workers && W'.workers[u].pc == W.workers[u].pc)
  {
    hide Claimable, ClaimRow, IsReviewState, IsPublishState;
    if Claimable(W.jobs, W.projects, target, W.now) {
      ClaimIsFree(W.jobs, W.projects, target, W.now);
      ClaimsAnew(W.jobs[target], w, cfg.leaseSeconds, W.now);
    }
  }

  lemma ClaimIsFree(jobs: Jobs, projects: map<string, Scope>, id: JobId, now: Time)
    requires Claimable(jobs, projects, id, now)
    ensures id in jobs && LeaseFree(jobs[id], now)
  {
    hide HasNewer;
  }

  lemma ClaimsAnew(row: Job, w: WorkerId, leaseSeconds: nat, now: Time)
    requires leaseSeconds > 0
    ensures var r := ClaimRow(row, w, leaseSeconds, now);
            r.Ok? ==> r.value.vote == row.vote && (LeaseFree(row, now) ==> r.value != row)
  {
  }

  lemma ClaimTally(t: Tally, row: Job, row': Job, action: Action)
    requires action.AClaim? && row' != row
    ensures var t' := Count(t, row, row', action);
            !t'.unsettled && t'.stranded == t.stranded + if t.unsettled then 1 else 0
  {
  }

  lemma ClaimKeepsVotes(cfg: Config, W: World, w: WorkerId, target: JobId, id: JobId, t: Tally)
    requires Inv(cfg, W) && id in W.jobs && VotesOk(cfg, W, id, t) && cfg.leaseSeconds > 0
    ensures VotesOk(cfg, Next(cfg, W, AClaim(w, target)), id,
                    Observe(t, W, Next(cfg, W, AClaim(w, target)), AClaim(w, target), id))
  {
    hide Inv, Next, Count;
    var W' := Next(cfg, W, AClaim(w, target));
    ClaimIs(cfg, W, w, target, id);
    UnchangedTally(t, W.jobs[id], AClaim(w, target));
    if W'.jobs[id] != W.jobs[id] { ClaimTally(t, W.jobs[id], W'.jobs[id], AClaim(w, target)); }
  }

  lemma VotesStep(cfg: Config, W: World, action: Action, id: JobId, t: Tally)
    requires Inv(cfg, W) && VotesOk(cfg, W, id, t) && cfg.leaseSeconds > 0
    ensures VotesOk(cfg, Next(cfg, W, action), id, Observe(t, W, Next(cfg, W, action), action, id))
  {
    hide Inv, Next, RetriesOk, VoterOk, Count;
    if id !in W.jobs {
      if id in Next(cfg, W, action).jobs { NewVoteWithin(cfg, W, action, id); }
    } else if action.ARetryVote? {
      RetryKeepsVotes(cfg, W, action.w, id, t);
    } else if action.AClaim? {
      ClaimKeepsVotes(cfg, W, action.w, action.id, id, t);
    } else if action.AReschedule? || action.AFinishVote? {
      SettleKeepsVotes(cfg, W, action, id, t);
    } else {
      QuietVotes(cfg, W, action, id, t);
    }
  }

  lemma NewVoteWithin(cfg: Config, W: World, action: Action, id: JobId)
    requires Inv(cfg, W) && id !in W.jobs && id in Next(cfg, W, action).jobs
    ensures VotesOk(cfg, Next(cfg, W, action), id, NOTHING)
  {
    hide Inv, Next;
    NewJobIs(cfg, W, action, id);
  }

  lemma {:induction false} RunKeepsVotes(cfg: Config, now: Time, actions: seq<Action>, id: JobId)
    requires cfg.leaseSeconds > 0
    ensures VotesOk(cfg, Run(cfg, Init(now), actions), id, TallyOf(cfg, Init(now), actions, id))
    decreases |actions|
  {
    if actions != [] {
      hide Inv, Next, VotesOk, Init, Observe;
      var before := actions[..|actions| - 1];
      RunKeepsVotes(cfg, now, before, id);
      ProtocolSafety.RunKeepsInv(cfg, now, before);
      VotesStep(cfg, Run(cfg, Init(now), before), actions[|actions| - 1], id, TallyOf(cfg, Init(now), before, id));
    }
  }

  /** In every run the retry count of a vote exceeds the limit by at most one, and by one more for every claim
      that found a committed retry which the claim before had not acted upon. */
  lemma {:induction false} RetriesWithinLimit(cfg: Config, now: Time, actions: seq<Action>, id: JobId)
    requires cfg.leaseSeconds > 0
    requires var W := Run(cfg, Init(now), actions); id in W.jobs && W.jobs[id].vote.Some?
    ensures Run(cfg, Init(now), actions).jobs[id].vote.value.retryCount
         <= cfg.publishAttempts + 1 + TallyOf(cfg, Init(now), actions, id).stranded
  {
    hide Next, Run, TallyOf, VotersOk;
    RunKeepsVotes(cfg, now, actions, id);
  }
}
