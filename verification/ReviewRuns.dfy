/** Runs of the protocol that use up the REVIEW budget, and runs that exceed it because a worker reports a
    provider failure for a job it has lost, or because a reviewed job is revived.  Two workers are enough, and
    nobody requeues the job. */
module ReviewRuns {
  import opened Wrappers
  import opened StateMachine
  import opened JobRows
  import opened RetryBudget
  import opened Protocol
  import opened ProtocolBudgets
  import opened ProtocolPaths

  function Other(w: WorkerId): WorkerId {
    1 - if w == 0 then 0 else 1
  }

  /** The row of the first event, in its first epoch. */
  predicate FirstRow(row: Job) {
    && row.epochStart == 0 && row.patchset == 1 && row.createdAt == 0
    && row.identity == Identity(EVENT.change, EVENT.revision, "v")
  }

  /** One job in its first epoch, its project in scope, and two workers or more. */
  predicate Alone(s: Scene) {
    && s.now >= 0 && s.jobs.Keys == {JOB} && {0, 1} <= s.pcs.Keys && FirstRow(s.jobs[JOB])
    && (s.projects == map[] || ("p" in s.projects && s.projects["p"].enabled))
  }

  lemma BothWork(s: Scene)
    requires Alone(s)
    ensures 0 in s.pcs && 1 in s.pcs && JOB in s.jobs && FirstRow(s.jobs[JOB])
  {
  }

  function Row(s: Scene): Job
    requires Alone(s)
  {
    s.jobs[JOB]
  }

  /** The job waits for nobody in particular: its retry is due, or its worker let the lease run out. */
  predicate Due(row: Job, now: Time) {
    || (row.state.RetryWait? && row.retryState == Some(Reviewing) && row.lease.None? && row.nextAttemptAt <= now)
    || (row.state.Reviewing? && row.lease.Some? && row.lease.value.expires <= now)
  }

  function Taken(cfg: Config, row: Job, w: WorkerId, now: Time): Job {
    row.(state := Reviewing, retryState := if row.state.RetryWait? then None else row.retryState,
         lease := Some(Lease(w, now + cfg.leaseSeconds)))
  }

  lemma DueIsClaimable(cfg: Config, s: Scene, w: WorkerId)
    requires Alone(s) && Due(Row(s), s.now)
    ensures Claimable(s.jobs, s.projects, JOB, s.now)
    ensures ClaimRow(Row(s), w, cfg.leaseSeconds, s.now) == Ok(Taken(cfg, Row(s), w, s.now))
  {
  }

  lemma TakenTally(t: Tally, row: Job, row': Job, w: WorkerId)
    requires !t.unsettled
    ensures Count(t, row, row', AClaim(w, JOB)) == t
  {
  }

  function Started(row: Job, stage: Stage, w: WorkerId): Job {
    row.(attempts := row.attempts + [Attempt(stage, w, Unfinished)])
  }

  function Ended(row: Job, a: nat, outcome: Outcome): Job
    requires a < |row.attempts|
  {
    row.(attempts := Finished(row.attempts, a, outcome))
  }

  function Fetched(row: Job, w: WorkerId): Job {
    Ended(Started(row, FetchStage, w), |row.attempts|, Succeeded)
  }

  /** A FETCH attempt changes neither the reviews nor the attempts before it. */
  lemma FetchedReviews(row: Job, w: WorkerId)
    requires row.epochStart == 0
    ensures EpochReviews(Fetched(row, w)) == EpochReviews(row)
    ensures Fetched(row, w).attempts == row.attempts + [Attempt(FetchStage, w, Succeeded)]
    ensures forall a :: IsLast(row.attempts, ReviewStage, a) ==> IsLast(Fetched(row, w).attempts, ReviewStage, a)
  {
    OutcomesLast(row.attempts, Attempt(FetchStage, w, Succeeded), 0, ReviewStage);
    assert EpochReviews(row) + [] == EpochReviews(row);
    assert Fetched(row, w).attempts == row.attempts + [Attempt(FetchStage, w, Succeeded)];
  }

  lemma StartedReviews(row: Job, w: WorkerId)
    requires row.epochStart == 0
    ensures EpochReviews(Started(row, ReviewStage, w)) == EpochReviews(row) + [Unfinished]
    ensures IsLast(Started(row, ReviewStage, w).attempts, ReviewStage, |row.attempts|)
  {
    OutcomesLast(row.attempts, Attempt(ReviewStage, w, Unfinished), 0, ReviewStage);
  }

  /** The row a worker has when it stands behind the first read of the gate. */
  function AtGate(cfg: Config, s: Scene, w: WorkerId): Job
    requires Alone(s)
  {
    Fetched(Taken(cfg, Row(s), w, s.now), w)
  }

  lemma SameScene(s: Scene, w: WorkerId, a: Job, b: Job, pc: Pc, pc': Pc)
    ensures Changed(Changed(s, w, JOB, a, pc), w, JOB, b, pc') == Changed(s, w, JOB, b, pc')
    ensures Moved(Changed(s, w, JOB, a, pc), w, pc') == Changed(s, w, JOB, a, pc')
    ensures w in s.pcs && s.pcs[w] == pc ==> Changed(s, w, JOB, a, pc) == s.(jobs := s.jobs[JOB := a])
  {
    assert s.jobs[JOB := a][JOB := b] == s.jobs[JOB := b];
    assert s.pcs[w := pc][w := pc'] == s.pcs[w := pc'];
    if w in s.pcs && s.pcs[w] == pc { assert s.pcs[w := pc] == s.pcs; }
  }

  lemma StillAlone(s: Scene, w: WorkerId, row: Job, pc: Pc)
    requires Alone(s) && w in s.pcs && FirstRow(row)
    ensures Alone(Changed(s, w, JOB, row, pc)) && Row(Changed(s, w, JOB, row, pc)) == row
    ensures Changed(s, w, JOB, row, pc).now == s.now && Changed(s, w, JOB, row, pc).log == s.log
    ensures Changed(s, w, JOB, row, pc).projects == s.projects
    ensures Changed(s, w, JOB, row, pc).pcs == s.pcs[w := pc]
    ensures !pc.Idle? && pc.job == JOB ==> On(Changed(s, w, JOB, row, pc), w, pc)
    ensures row.lease.Some? && row.lease.value.owner == w && s.now < row.lease.value.expires ==>
      Holds(Changed(s, w, JOB, row, pc), w, JOB)
  {
  }

  /** A claim up to the first read of the gate. */
  lemma ReadsStreak(cfg: Config, p: Path, s: Scene, w: WorkerId) returns (p': Path)
    requires Stands(cfg, p, s) && Alone(s) && Due(Row(s), s.now) && cfg.leaseSeconds > 0
    requires w in s.pcs && s.pcs[w].Idle? && !p.tally.unsettled
    requires Streak(EpochReviews(Row(s))) == 0 || Streak(EpochReviews(Row(s))) < cfg.providerAttempts
    ensures Stands(cfg, p', Changed(s, w, JOB, AtGate(cfg, s, w), StreakRead(JOB))) && p'.tally == p.tally
  {
    hide Stands, Changed, Moved, Holds, On, Due, EpochReviews, Streak, Claimable, ClaimRow, Finished, Count, IsLast;
    var taken := Taken(cfg, Row(s), w, s.now);
    DueIsClaimable(cfg, s, w);
    TakenTally(p.tally, Row(s), taken, w);
    p' := ClaimStep(cfg, p, s, w, JOB, taken, InReview(JOB));
    var s1 := Changed(s, w, JOB, taken, InReview(JOB));
    StillAlone(s, w, taken, InReview(JOB));
    p' := FetchStep(cfg, p', s1, w);
    var started := Started(taken, FetchStage, w);
    SameScene(s, w, taken, started, InReview(JOB), InReview(JOB));
    StillAlone(s, w, started, InReview(JOB));
    var s2 := Changed(s, w, JOB, started, InReview(JOB));
    p' := FetchedStep(cfg, p', s2, |taken.attempts|);
    var fetched := Fetched(taken, w);
    SameScene(s2, w, fetched, fetched, InReview(JOB), InReview(JOB));
    SameScene(s, w, started, fetched, InReview(JOB), InReview(JOB));
    StillAlone(s, w, fetched, InReview(JOB));
    TakenReviews(cfg, Row(s), w, s.now);
    FetchedReviews(taken, w);
    p' := StreakStep(cfg, p', Changed(s, w, JOB, fetched, InReview(JOB)), w);
    SameScene(s, w, fetched, fetched, InReview(JOB), StreakRead(JOB));
  }

  lemma TakenReviews(cfg: Config, row: Job, w: WorkerId, now: Time)
    ensures EpochReviews(Taken(cfg, row, w, now)) == EpochReviews(row)
    ensures Taken(cfg, row, w, now).attempts == row.attempts && Taken(cfg, row, w, now).epochStart == row.epochStart
  {
  }

  /** The second read of the gate, and the attempt. */
  lemma StartsReview(cfg: Config, p: Path, s: Scene, w: WorkerId) returns (p': Path)
    requires Stands(cfg, p, s) && Alone(s) && On(s, w, StreakRead(JOB)) && Holds(s, w, JOB)
    requires CountCharged(EpochReviews(Row(s))) < cfg.reviewAttempts
    ensures Stands(cfg, p', Changed(s, w, JOB, Started(Row(s), ReviewStage, w), ReviewRunning(JOB, |Row(s).attempts|)))
    ensures p'.tally == Paid(p.tally, Row(s))
  {
    hide Stands, Changed, Moved, EpochReviews, CountCharged, Owed;
    p' := BudgetStep(cfg, p, s, w);
    var s1 := Moved(s, w, ReviewAllowed(JOB));
    MovedSees(s, w, ReviewAllowed(JOB));
    p' := StartReviewStep(cfg, p', s1, w);
    MovedChanged(s, w, Started(Row(s), ReviewStage, w), ReviewAllowed(JOB), ReviewRunning(JOB, |Row(s).attempts|));
  }

  lemma MovedSees(s: Scene, w: WorkerId, pc: Pc)
    requires Alone(s) && w in s.pcs && !pc.Idle? && pc.job == JOB
    ensures Alone(Moved(s, w, pc)) && On(Moved(s, w, pc), w, pc) && Row(Moved(s, w, pc)) == Row(s)
    ensures Holds(s, w, JOB) ==> Holds(Moved(s, w, pc), w, JOB)
    ensures Moved(s, w, pc).jobs == s.jobs && Moved(s, w, pc).now == s.now
  {
  }

  lemma MovedChanged(s: Scene, w: WorkerId, row: Job, pc: Pc, pc': Pc)
    ensures Changed(Moved(s, w, pc), w, JOB, row, pc') == Changed(s, w, JOB, row, pc')
    ensures Moved(Moved(s, w, pc), w, pc') == Moved(s, w, pc')
  {
    assert s.pcs[w := pc][w := pc'] == s.pcs[w := pc'];
  }

  /** Nothing is published yet. */
  predicate Unpublished(row: Job) {
    && (row.result.None? || row.result == Some("ok")) && row.publication.None? && row.vote.None?
    && forall a :: 0 <= a < |row.attempts| ==> !row.attempts[a].stage.PublishStage?
  }

  // ---- One claim --------------------------------------------------------------------------

  /** How many REVIEW attempts there are, how many are charged, and how long the open streak is. */
  predicate Shows(s: Scene, reviews: nat, charged: nat, streak: nat) {
    && Alone(s) && |EpochReviews(Row(s))| == reviews && CountCharged(EpochReviews(Row(s))) == charged
    && Streak(EpochReviews(Row(s))) == streak
  }

  predicate Waiting(s: Scene, w: WorkerId) {
    Alone(s) && w in s.pcs && s.pcs[w].Idle? && Due(Row(s), s.now)
  }

  /** And the newest REVIEW attempt has not succeeded. */
  predicate Ready(s: Scene, w: WorkerId) {
    Waiting(s, w) && Owed(EpochReviews(Row(s))) == 0
  }

  /** Nothing that was there before is changed for the other worker. */
  predicate Spares(s: Scene, s': Scene, w: WorkerId) {
    && Alone(s) && Alone(s') && s'.projects == s.projects && s'.pcs.Keys == s.pcs.Keys
    && (forall u :: u in s.pcs && u != w ==> s'.pcs[u] == s.pcs[u])
    && |Row(s).attempts| <= |Row(s').attempts|
    && forall a :: 0 <= a < |Row(s).attempts| ==> Row(s').attempts[a] == Row(s).attempts[a]
  }

  /** Worker `w` runs the newest REVIEW attempt. */
  predicate Running(s: Scene, w: WorkerId, a: nat) {
    && Alone(s) && On(s, w, ReviewRunning(JOB, a)) && IsLast(Row(s).attempts, ReviewStage, a)
    && Row(s).attempts[a].outcome.Unfinished? && Row(s).state.Reviewing?
  }

  lemma Appended(outcomes: seq<Outcome>, last: Outcome)
    ensures CountCharged(outcomes + [last]) == CountCharged(outcomes) + if Charged(last) then 1 else 0
    ensures Streak(outcomes + [last]) == if last == Failed(true) then Streak(outcomes) + 1 else 0
    ensures Owed(outcomes + [last]) == if last.Succeeded? then 1 else 0
  {
    ChargedLast(outcomes, last);
    assert (outcomes + [last])[..|outcomes|] == outcomes;
  }

  /** From the first read of the gate into a REVIEW attempt. */
  lemma Begins(cfg: Config, p: Path, s: Scene, w: WorkerId) returns (p': Path, s': Scene, a: nat)
    requires Stands(cfg, p, s) && Alone(s) && On(s, w, StreakRead(JOB)) && Holds(s, w, JOB) && Row(s).state.Reviewing?
    requires CountCharged(EpochReviews(Row(s))) < cfg.reviewAttempts
    ensures a == |Row(s).attempts| && Stands(cfg, p', s') && p'.tally == Paid(p.tally, Row(s))
    ensures s' == Changed(s, w, JOB, Started(Row(s), ReviewStage, w), ReviewRunning(JOB, a))
    ensures Running(s', w, a) && Row(s') == Started(Row(s), ReviewStage, w) && Holds(s', w, JOB)
    ensures s'.pcs == s.pcs[w := ReviewRunning(JOB, a)] && s'.now == s.now && s'.projects == s.projects && s'.log == s.log
    ensures EpochReviews(Row(s')) == EpochReviews(Row(s)) + [Unfinished]
    ensures CountCharged(EpochReviews(Row(s'))) == CountCharged(EpochReviews(Row(s))) + 1
    ensures Streak(EpochReviews(Row(s'))) == 0 && |EpochReviews(Row(s'))| == |EpochReviews(Row(s))| + 1
  {
    hide Stands, Changed, EpochReviews, CountCharged, Streak, IsLast, Started, Owed;
    p' := StartsReview(cfg, p, s, w);
    a := |Row(s).attempts|;
    var row := Started(Row(s), ReviewStage, w);
    s' := Changed(s, w, JOB, row, ReviewRunning(JOB, a));
    StartedRow(Row(s), w);
    StartedReviews(Row(s), w);
    StillAlone(s, w, row, ReviewRunning(JOB, a));
    Appended(EpochReviews(Row(s)), Unfinished);
  }

  /** A claim through both reads of the gate into a REVIEW attempt. */
  lemma Runs(cfg: Config, p: Path, s: Scene, w: WorkerId, n: nat, charged: nat, streak: nat)
    returns (p': Path, s': Scene, a: nat)
    requires Stands(cfg, p, s) && Waiting(s, w) && cfg.leaseSeconds > 0 && !p.tally.unsettled
    requires Shows(s, n, charged, streak) && charged < cfg.reviewAttempts && (streak == 0 || streak < cfg.providerAttempts)
    ensures Stands(cfg, p', s') && p'.tally == Paid(p.tally, Row(s)) && Spares(s, s', w)
    ensures Running(s', w, a) && Holds(s', w, JOB) && Row(s').lease.value.expires == s'.now + cfg.leaseSeconds
    ensures Shows(s', n + 1, charged + 1, 0)
    ensures EpochReviews(Row(s')) == EpochReviews(Row(s)) + [Unfinished] && a >= |Row(s).attempts|
    ensures s'.log == s.log && (Unpublished(Row(s)) ==> Unpublished(Row(s')))
  {
    hide Stands, EpochReviews, CountCharged, Streak, IsLast, Started, AtGate, Unpublished, Owed, Due, Changed;
    p' := ReadsStreak(cfg, p, s, w);
    var gate := AtGate(cfg, s, w);
    GateRow(cfg, s, w);
    StillAlone(s, w, gate, StreakRead(JOB));
    p', s', a := Begins(cfg, p', Changed(s, w, JOB, gate, StreakRead(JOB)), w);
    StartedRow(gate, w);
    StartedUnpublished(cfg, s, w);
  }

  lemma StartedUnpublished(cfg: Config, s: Scene, w: WorkerId)
    requires Alone(s)
    ensures Unpublished(Row(s)) ==> Unpublished(Started(AtGate(cfg, s, w), ReviewStage, w))
    ensures forall pc :: Changed(s, w, JOB, Row(s), pc).log == s.log
  {
  }

  lemma StartedRow(row: Job, w: WorkerId)
    ensures var row' := Started(row, ReviewStage, w);
            && row' == row.(attempts := row'.attempts)
            && |row'.attempts| == |row.attempts| + 1 && row'.attempts[|row.attempts|].outcome.Unfinished?
            && forall a :: 0 <= a < |row.attempts| ==> row'.attempts[a] == row.attempts[a]
  {
  }

  lemma GateRow(cfg: Config, s: Scene, w: WorkerId)
    requires Alone(s)
    ensures var row := AtGate(cfg, s, w);
            && FirstRow(row) && row.state.Reviewing? && row.lease == Some(Lease(w, s.now + cfg.leaseSeconds))
            && EpochReviews(row) == EpochReviews(Row(s)) && |row.attempts| == |Row(s).attempts| + 1
            && forall a :: 0 <= a < |Row(s).attempts| ==> row.attempts[a] == Row(s).attempts[a]
  {
    hide Outcomes, IsLast;
    TakenReviews(cfg, Row(s), w, s.now);
    FetchedReviews(Taken(cfg, Row(s), w, s.now), w);
  }

  /** The running attempt fails while its worker still holds the job. */
  lemma FailsOwn(cfg: Config, p: Path, s: Scene, w: WorkerId, a: nat, provider: bool) returns (p': Path)
    requires Stands(cfg, p, s) && Running(s, w, a) && Holds(s, w, JOB)
    ensures Stands(cfg, p', Changed(s, w, JOB, Ended(Row(s), a, Failed(provider)), Leaving(JOB, None, false)))
    ensures p'.tally == p.tally
  {
    hide Stands, Changed, Moved, EpochReviews, Finished, Count;
    var row := Ended(Row(s), a, Failed(provider));
    p' := FailReviewStep(cfg, p, s, w, a, provider);
    StillAlone(s, w, row, ReviewFailed(JOB));
    OwnFailure(p.tally, Row(s), row, w, provider);
    p' := LeaveStep(cfg, p', Changed(s, w, JOB, row, ReviewFailed(JOB)), w, ReviewFailed(JOB));
    SameScene(s, w, row, row, ReviewFailed(JOB), Leaving(JOB, None, false));
  }

  /** The job waits one second for its next claim. */
  lemma Rests(cfg: Config, p: Path, s: Scene, w: WorkerId, row: Job) returns (p': Path, s': Scene)
    requires Stands(cfg, p, Changed(s, w, JOB, row, Leaving(JOB, None, false))) && Alone(s) && w in s.pcs
    requires FirstRow(row) && row.state.Reviewing? && !p.tally.unsettled
    requires row.lease.Some? && row.lease.value.owner == w && s.now < row.lease.value.expires
    ensures Stands(cfg, p', s') && p'.tally == p.tally && Waiting(s', w)
    ensures s'.projects == s.projects && s'.log == s.log && s'.pcs == s.pcs[w := Idle]
    ensures Row(s').attempts == row.attempts && Row(s').epochStart == row.epochStart && Row(s').result == row.result
    ensures Row(s').publication == row.publication && Row(s').vote == row.vote
  {
    hide Stands, Moved;
    var at := s.now + 1;
    StillAlone(s, w, row, Leaving(JOB, None, false));
    p' := WaitStep(cfg, p, Changed(s, w, JOB, row, Leaving(JOB, None, false)), w, at);
    var waiting := row.(state := RetryWait, retryState := Some(Reviewing), nextAttemptAt := at, lease := None);
    SameScene(s, w, row, waiting, Leaving(JOB, None, false), Idle);
    StillAlone(s, w, waiting, Idle);
    p' := TickStep(cfg, p', Changed(s, w, JOB, waiting, Idle), 1);
    s' := Changed(s, w, JOB, waiting, Idle).(now := at);
  }

  /** And the job waits for its next claim. */
  lemma FailsOnTime(cfg: Config, p: Path, s: Scene, w: WorkerId, a: nat, provider: bool) returns (p': Path, s': Scene)
    requires Stands(cfg, p, s) && Running(s, w, a) && Holds(s, w, JOB) && !p.tally.unsettled
    requires EpochReviews(Row(s)) != []
    ensures Stands(cfg, p', s') && p'.tally == p.tally && Alone(s') && Ready(s', w)
    ensures s'.projects == s.projects && s'.pcs == s.pcs[w := Idle]
    ensures Row(s').attempts == Finished(Row(s).attempts, a, Failed(provider)) && Row(s').result == Row(s).result
    ensures var reviews := EpochReviews(Row(s)); EpochReviews(Row(s')) == reviews[..|reviews| - 1] + [Failed(provider)]
    ensures Unpublished(Row(s)) ==> Unpublished(Row(s'))
  {
    hide Stands, Changed, Moved, EpochReviews, Finished, IsLast;
    LastStage(Row(s), a);
    var row := Ended(Row(s), a, Failed(provider));
    p' := FailsOwn(cfg, p, s, w, a, provider);
    StillAlone(s, w, row, Leaving(JOB, None, false));
    p', s' := Rests(cfg, p', s, w, row);
    EndedReviews(Row(s), a, Failed(provider));
    SameReviewsOf(row, Row(s'));
    Appended(EpochReviews(Row(s))[..|EpochReviews(Row(s))| - 1], Failed(provider));
    EndedUnpublished(Row(s), a, Failed(provider));
  }

  lemma EndedUnpublished(row: Job, a: nat, outcome: Outcome)
    requires a < |row.attempts|
    ensures Unpublished(row) ==> Unpublished(Ended(row, a, outcome))
  {
  }

  lemma SameReviewsOf(row: Job, row': Job)
    requires row'.attempts == row.attempts && row'.epochStart == row.epochStart
    ensures EpochReviews(row') == EpochReviews(row)
  {
  }

  lemma OwnFailure(t: Tally, row: Job, row': Job, w: WorkerId, provider: bool)
    requires OwnedBy(row, w)
    ensures Count(t, row, row', AFinishReview(w, Failed(provider))) == t
  {
  }

  lemma EndedReviews(row: Job, a: nat, outcome: Outcome)
    requires row.epochStart == 0 && IsLast(row.attempts, ReviewStage, a)
    ensures var reviews := EpochReviews(row);
            reviews != [] && EpochReviews(Ended(row, a, outcome)) == reviews[..|reviews| - 1] + [outcome]
  {
    hide Outcomes, IsLast;
    LastStage(row, a);
    OutcomesFinished(row.attempts, 0, ReviewStage, a, outcome);
  }

  lemma LastStage(row: Job, a: nat)
    requires IsLast(row.attempts, ReviewStage, a)
    ensures a < |row.attempts| && row.attempts[a].stage.ReviewStage?
  {
  }

  /** One whole claim: the gate, the attempt, its failure, and the wait. */
  lemma Round(cfg: Config, p: Path, s: Scene, w: WorkerId, provider: bool, n: nat, charged: nat, streak: nat)
    returns (p': Path, s': Scene)
    requires Stands(cfg, p, s) && Waiting(s, w) && cfg.leaseSeconds > 0 && !p.tally.unsettled
    requires Shows(s, n, charged, streak) && charged < cfg.reviewAttempts && (streak == 0 || streak < cfg.providerAttempts)
    ensures Stands(cfg, p', s') && p'.tally == Paid(p.tally, Row(s)) && Spares(s, s', w) && Ready(s', w)
    ensures if provider then Shows(s', n + 1, charged, streak + 1) else Shows(s', n + 1, charged + 1, 0)
    ensures Unpublished(Row(s)) ==> Unpublished(Row(s'))
  {
    hide Stands, EpochReviews, CountCharged, Streak, Due, Holds, IsLast, Unpublished, Owed;
    var q, r, a := Runs(cfg, p, s, w, n, charged, streak);
    p', s' := FailsOnTime(cfg, q, r, w, a, provider);
    var reviews := EpochReviews(Row(s));
    assert (reviews + [Unfinished])[..|reviews|] == reviews;
    Appended(reviews, Failed(provider));
  }

  // ---- Blocks of provider failures --------------------------------------------------------

  /** The attempts of `j` full blocks. */
  function Full(cfg: Config, j: nat): nat {
    j * cfg.providerAttempts
  }

  lemma FullNext(cfg: Config, j: nat)
    ensures Full(cfg, j + 1) == Full(cfg, j) + cfg.providerAttempts && Full(cfg, 0) == 0
  {
  }

  /** `m` provider failures in a row, each on time. */
  lemma {:induction false} Outage(cfg: Config, p: Path, s: Scene, w: WorkerId, n: nat, charged: nat, m: nat)
    returns (p': Path, s': Scene)
    requires Stands(cfg, p, s) && Waiting(s, w) && cfg.leaseSeconds > 0 && !p.tally.unsettled
    requires Shows(s, n, charged, 0) && charged < cfg.reviewAttempts && m < cfg.providerAttempts
    ensures Stands(cfg, p', s') && Spares(s, s', w) && Waiting(s', w)
    ensures if m == 0 then p' == p && s' == s else p'.tally == Paid(p.tally, Row(s)) && Ready(s', w)
    ensures Shows(s', n + m, charged, m) && (Unpublished(Row(s)) ==> Unpublished(Row(s')))
    decreases m
  {
    hide Stands, Due, EpochReviews, CountCharged, Streak, Unpublished, Owed;
    if m == 0 {
      p', s' := p, s;
    } else {
      var q, r := Outage(cfg, p, s, w, n, charged, m - 1);
      p', s' := Round(cfg, q, r, w, true, n + m - 1, charged, m - 1);
    }
  }

  /** One full block up to its last attempt, which is under way. */
  lemma Block(cfg: Config, p: Path, s: Scene, x: WorkerId, n: nat, charged: nat) returns (p': Path, s': Scene, a: nat)
    requires Stands(cfg, p, s) && Waiting(s, x) && !p.tally.unsettled && cfg.leaseSeconds > 0
    requires charged < cfg.reviewAttempts && cfg.providerAttempts >= 1 && Shows(s, n, charged, 0)
    ensures Stands(cfg, p', s') && p'.tally == Paid(p.tally, Row(s)) && Spares(s, s', x)
    ensures Running(s', x, a) && Holds(s', x, JOB) && Row(s').lease.value.expires == s'.now + cfg.leaseSeconds
    ensures Shows(s', n + cfg.providerAttempts, charged + 1, 0) && a >= |Row(s).attempts|
    ensures Unpublished(Row(s)) ==> Unpublished(Row(s'))
  {
    hide Stands, EpochReviews, CountCharged, Streak, IsLast, Due, Unpublished, Owed, Running;
    var q, r := Outage(cfg, p, s, x, n, charged, cfg.providerAttempts - 1);
    p', s', a := Runs(cfg, q, r, x, n + cfg.providerAttempts - 1, charged, cfg.providerAttempts - 1);
  }

  /** A claim that fetches and then meets a transient failure in front of the gate. */
  lemma Opens(cfg: Config, p: Path, s0: Scene) returns (p': Path, s: Scene)
    requires Stands(cfg, p, s0) && Alone(s0) && s0.pcs[0].Idle? && cfg.leaseSeconds > 0 && !p.tally.unsettled
    requires Row(s0).state.Received? && Row(s0).lease.None? && Row(s0).retryState.None?
    ensures Stands(cfg, p', s) && p'.tally == p.tally && Waiting(s, 0) && s.pcs == s0.pcs[0 := Idle] && s.log == s0.log
    ensures s.projects == s0.projects
    ensures EpochReviews(Row(s)) == EpochReviews(Row(s0)) && (Unpublished(Row(s0)) ==> Unpublished(Row(s)))
  {
    hide Stands, Changed, Moved, Claimable, ClaimRow, Finished, Count, EpochReviews, Unpublished;
    FirstClaim(cfg, s0, p.tally);
    var row := Row(s0);
    var taken := row.(lease := Some(Lease(0, s0.now + cfg.leaseSeconds)));
    p' := ClaimStep(cfg, p, s0, 0, JOB, taken, InReview(JOB));
    StillAlone(s0, 0, taken, InReview(JOB));
    var fetching := taken.(state := Fetching, retryState := None);
    p' := TransitionStep(cfg, p', Changed(s0, 0, JOB, taken, InReview(JOB)), 0, InReview(JOB), Fetching);
    SameScene(s0, 0, taken, fetching, InReview(JOB), InReview(JOB));
    p', s := Fetches(cfg, p', s0, fetching);
    SameReviewsOf(row, fetching);
    FetchedReviews(fetching, 0);
    OpenedUnpublished(row, fetching, Row(s));
  }

  lemma OpenedUnpublished(row: Job, fetching: Job, after: Job)
    requires fetching.attempts == row.attempts && fetching.result == row.result
    requires fetching.publication == row.publication && fetching.vote == row.vote
    requires after.attempts == Fetched(fetching, 0).attempts && after.result == row.result
    requires after.publication == row.publication && after.vote == row.vote
    ensures Unpublished(row) ==> Unpublished(after)
    ensures after.epochStart == fetching.epochStart ==> EpochReviews(after) == EpochReviews(Fetched(fetching, 0))
  {
    SameReviewsOf(Fetched(fetching, 0), after.(epochStart := fetching.epochStart));
  }

  lemma Fetches(cfg: Config, p: Path, s0: Scene, fetching: Job) returns (p': Path, s: Scene)
    requires Alone(s0) && cfg.leaseSeconds > 0 && !p.tally.unsettled
    requires fetching.state.Fetching? && FirstRow(fetching) && fetching.lease == Some(Lease(0, s0.now + cfg.leaseSeconds))
    requires Stands(cfg, p, Changed(s0, 0, JOB, fetching, InReview(JOB)))
    ensures Stands(cfg, p', s) && p'.tally == p.tally && Waiting(s, 0) && s.pcs == s0.pcs[0 := Idle] && s.log == s0.log
    ensures s.projects == s0.projects
    ensures Row(s).attempts == Fetched(fetching, 0).attempts && Row(s).result == fetching.result
    ensures Row(s).publication == fetching.publication && Row(s).vote == fetching.vote
  {
    hide Stands, Changed, Moved, Finished;
    var started := Started(fetching, FetchStage, 0);
    StillAlone(s0, 0, fetching, InReview(JOB));
    p' := FetchStep(cfg, p, Changed(s0, 0, JOB, fetching, InReview(JOB)), 0);
    SameScene(s0, 0, fetching, started, InReview(JOB), InReview(JOB));
    StillAlone(s0, 0, started, InReview(JOB));
    var fetched := Fetched(fetching, 0);
    var s1 := Changed(s0, 0, JOB, started, InReview(JOB));
    p' := FetchedStep(cfg, p', s1, |fetching.attempts|);
    SameScene(s1, 0, fetched, fetched, InReview(JOB), InReview(JOB));
    SameScene(s0, 0, started, fetched, InReview(JOB), InReview(JOB));
    p', s := OpeningWaits(cfg, p', s0, fetched);
  }

  lemma OpeningWaits(cfg: Config, p: Path, s0: Scene, fetched: Job) returns (p': Path, s: Scene)
    requires Alone(s0) && cfg.leaseSeconds > 0
    requires fetched.state.Fetching? && FirstRow(fetched) && fetched.lease == Some(Lease(0, s0.now + cfg.leaseSeconds))
    requires Stands(cfg, p, Changed(s0, 0, JOB, fetched, InReview(JOB))) && !p.tally.unsettled
    ensures Stands(cfg, p', s) && p'.tally == p.tally && Waiting(s, 0) && s.pcs == s0.pcs[0 := Idle] && s.projects == s0.projects
    ensures Row(s).attempts == fetched.attempts && s.log == s0.log
    ensures Row(s).result == fetched.result && Row(s).publication == fetched.publication && Row(s).vote == fetched.vote
  {
    hide Stands, Changed, Moved;
    StillAlone(s0, 0, fetched, InReview(JOB));
    var reviewing := fetched.(state := Reviewing, retryState := None);
    p' := TransitionStep(cfg, p, Changed(s0, 0, JOB, fetched, InReview(JOB)), 0, InReview(JOB), Reviewing);
    SameScene(s0, 0, fetched, reviewing, InReview(JOB), InReview(JOB));
    StillAlone(s0, 0, reviewing, InReview(JOB));
    p' := LeaveStep(cfg, p', Changed(s0, 0, JOB, reviewing, InReview(JOB)), 0, InReview(JOB));
    SameScene(s0, 0, reviewing, reviewing, InReview(JOB), Leaving(JOB, None, false));
    StillAlone(s0, 0, reviewing, Leaving(JOB, None, false));
    p', s := Rests(cfg, p', s0, 0, reviewing);
  }

  /** The first event, and a first claim. */
  lemma Opening(cfg: Config) returns (p: Path, s: Scene)
    requires cfg.leaseSeconds > 0
    ensures Stands(cfg, p, s) && p.tally == NOTHING && Ready(s, 0) && s.pcs[1].Idle? && Shows(s, 0, 0, 0)
    ensures Unpublished(Row(s)) && s.log == [] && s.projects == map[] && s.pcs.Keys == {0, 1}
  {
    hide Stands, Moved;
    FirstScenes();
    p := StartStep(cfg);
    p := SpawnStep(cfg, p, Scene(0, map[], map[], map[], []), 0);
    p := SpawnStep(cfg, p, Moved(Scene(0, map[], map[], map[], []), 0, Idle), 1);
    p := EnqueueStep(cfg, p, Enqueued().(jobs := map[]));
    p, s := Opens(cfg, p, Enqueued());
  }

  function Enqueued(): Scene {
    Scene(0, map[JOB := NewJob(EVENT, "v", false, 0)], map[], map[0 := Idle, 1 := Idle], [])
  }

  lemma FirstScenes()
    ensures Moved(Moved(Scene(0, map[], map[], map[], []), 0, Idle), 1, Idle) == Enqueued().(jobs := map[])
    ensures Moved(Scene(0, map[], map[], map[], []), 0, Idle).jobs == map[]
    ensures 1 !in Moved(Scene(0, map[], map[], map[], []), 0, Idle).pcs
    ensures Enqueued().pcs.Keys == {0, 1}
    ensures Alone(Enqueued()) && Unpublished(Row(Enqueued())) && EpochReviews(Row(Enqueued())) == []
  {
  }

  lemma FirstClaim(cfg: Config, s: Scene, t: Tally)
    requires Alone(s) && Row(s).state.Received? && Row(s).lease.None? && !t.unsettled
    ensures Claimable(s.jobs, s.projects, JOB, s.now)
    ensures ClaimRow(Row(s), 0, cfg.leaseSeconds, s.now) == Ok(Row(s).(lease := Some(Lease(0, s.now + cfg.leaseSeconds))))
    ensures forall row' :: Count(t, Row(s), row', AClaim(0, JOB)) == t
  {
  }

  // ---- Late failures ----------------------------------------------------------------------

  /** The worker stalls, and its lease runs out. */
  lemma Stalls(cfg: Config, p: Path, s: Scene, w: WorkerId, a: nat) returns (p': Path, s': Scene)
    requires Stands(cfg, p, s) && Running(s, w, a) && Holds(s, w, JOB)
    requires Row(s).lease.value.expires == s.now + cfg.leaseSeconds
    ensures Stands(cfg, p', s') && p'.tally == p.tally && s' == s.(now := s'.now)
    ensures Running(s', w, a) && Due(Row(s'), s'.now) && Row(s').lease == Row(s).lease
  {
    hide Stands, EpochReviews, IsLast;
    p' := TickStep(cfg, p, s, cfg.leaseSeconds);
    s' := s.(now := s.now + cfg.leaseSeconds);
  }

  /** A stalled worker reports a provider failure for its attempt while the other one has the job, finds that it
      has lost the lease, and stops. */
  lemma FailsLate(cfg: Config, p: Path, s: Scene, y: WorkerId, b: nat) returns (p': Path, s': Scene)
    requires Stands(cfg, p, s) && Alone(s) && On(s, y, ReviewRunning(JOB, b)) && !OwnedBy(Row(s), y)
    requires b < |Row(s).attempts| && Row(s).attempts[b].stage.ReviewStage? && Row(s).attempts[b].outcome.Unfinished?
    ensures Stands(cfg, p', s') && p'.tally == p.tally.(late := p.tally.late + 1)
    ensures Alone(s') && s'.pcs == s.pcs[y := Idle] && s'.now == s.now
    ensures Row(s') == Ended(Row(s), b, Failed(true))
    ensures var reviews, reviews' := EpochReviews(Row(s)), EpochReviews(Row(s'));
            && |reviews'| == |reviews| && CountCharged(reviews') + 1 == CountCharged(reviews) && reviews != []
            && Owed(reviews') <= Owed(reviews)
            && (!IsLast(Row(s).attempts, ReviewStage, b) ==> reviews'[|reviews| - 1] == reviews[|reviews| - 1])
  {
    hide Stands, EpochReviews, CountCharged, Finished, Count;
    var row := Ended(Row(s), b, Failed(true));
    p' := FailReviewStep(cfg, p, s, y, b, true);
    LateReviews(Row(s), b);
    LateTally(p.tally, Row(s), row, y);
    StillAlone(s, y, row, ReviewFailed(JOB));
    p' := AbortStep(cfg, p', Changed(s, y, JOB, row, ReviewFailed(JOB)), y, ReviewFailed(JOB));
    SameScene(s, y, row, row, ReviewFailed(JOB), Idle);
    StillAlone(s, y, row, Idle);
    s' := Changed(s, y, JOB, row, Idle);
  }

  lemma LateReviews(row: Job, b: nat)
    requires row.epochStart == 0 && b < |row.attempts|
    requires row.attempts[b].stage.ReviewStage? && row.attempts[b].outcome.Unfinished?
    ensures var reviews, reviews' := EpochReviews(row), EpochReviews(Ended(row, b, Failed(true)));
            && reviews' != reviews && |reviews'| == |reviews| && CountCharged(reviews') + 1 == CountCharged(reviews)
            && Owed(reviews') <= Owed(reviews)
            && (!IsLast(row.attempts, ReviewStage, b) ==> reviews'[|reviews| - 1] == reviews[|reviews| - 1])
  {
    hide Outcomes, IsLast, CountCharged, Streak;
    OutcomesFinished(row.attempts, 0, ReviewStage, b, Failed(true));
    EndCounts(EpochReviews(row), Place(row.attempts, 0, ReviewStage, b), Failed(true));
  }

  lemma LateTally(t: Tally, row: Job, row': Job, y: WorkerId)
    requires !OwnedBy(row, y) && EpochReviews(row') != EpochReviews(row)
    ensures Count(t, row, row', AFinishReview(y, Failed(true))) == t.(late := t.late + 1)
  {
  }

  /** Worker `y` is stalled in the newest attempt, and the job is due for the other one. */
  predicate Stalled(s: Scene, y: WorkerId, b: nat) {
    (y == 0 || y == 1) && Running(s, y, b) && Due(Row(s), s.now) && s.pcs[Other(y)].Idle?
  }

  lemma NoStreak(outcomes: seq<Outcome>)
    requires outcomes != [] && outcomes[|outcomes| - 1].Unfinished?
    ensures Streak(outcomes) == 0
  {
  }

  /** The newest attempt's outcome is the last one. */
  lemma RunningLast(s: Scene, w: WorkerId, a: nat)
    requires Running(s, w, a)
    ensures var reviews := EpochReviews(Row(s)); reviews != [] && reviews[|reviews| - 1].Unfinished? && Streak(reviews) == 0
    ensures Owed(EpochReviews(Row(s))) == 0
  {
    hide Outcomes, Streak;
    OutcomesFinished(Row(s).attempts, 0, ReviewStage, a, Succeeded);
    NoStreak(EpochReviews(Row(s)));
  }

  /** One more full block, whose last attempt stalls as well. */
  lemma NextStalls(cfg: Config, p: Path, s: Scene, x: WorkerId, n: nat) returns (p': Path, s': Scene, a: nat)
    requires Stands(cfg, p, s) && Ready(s, x) && !p.tally.unsettled && cfg.leaseSeconds > 0
    requires cfg.reviewAttempts >= 1 && cfg.providerAttempts >= 1 && Shows(s, n, cfg.reviewAttempts - 1, 0)
    ensures Stands(cfg, p', s') && p'.tally == p.tally && Spares(s, s', x) && Running(s', x, a) && Due(Row(s'), s'.now)
    ensures Shows(s', n + cfg.providerAttempts, cfg.reviewAttempts, 0) && OwnedBy(Row(s'), x) && a >= |Row(s).attempts|
  {
    hide Stands, EpochReviews, CountCharged, Streak, IsLast, Due, Owed;
    var q, r;
    q, r, a := Block(cfg, p, s, x, n, cfg.reviewAttempts - 1);
    p', s' := Stalls(cfg, q, r, x, a);
  }

  /** One more full block while a worker is stalled, at the price of its late failure. */
  lemma LateBlock(cfg: Config, p: Path, s: Scene, y: WorkerId, b: nat, n: nat) returns (p': Path, s': Scene, a: nat)
    requires Stands(cfg, p, s) && Stalled(s, y, b) && !p.tally.unsettled && cfg.leaseSeconds > 0
    requires cfg.reviewAttempts >= 1 && cfg.providerAttempts >= 1 && Shows(s, n, cfg.reviewAttempts - 1, 0)
    ensures Stands(cfg, p', s') && p'.tally == p.tally.(late := p.tally.late + 1)
    ensures Stalled(s', Other(y), a) && Shows(s', n + cfg.providerAttempts, cfg.reviewAttempts - 1, 0)
  {
    hide Stands, EpochReviews, CountCharged, Streak, IsLast, Due, Owed;
    LastStage(Row(s), b);
    RunningLast(s, y, b);
    var q, t, i := NextStalls(cfg, p, s, Other(y), n);
    OlderIsNotLast(Row(t), b, i);
    RunningLast(t, Other(y), i);
    p', s' := FailsLate(cfg, q, t, y, b);
    a := i;
    NoStreak(EpochReviews(Row(s')));
    StillRunning(t, s', Other(y), a, y, b);
  }

  lemma OlderIsNotLast(row: Job, b: nat, a: nat)
    requires IsLast(row.attempts, ReviewStage, a) && b < a
    ensures b < |row.attempts| && !IsLast(row.attempts, ReviewStage, b)
  {
  }

  lemma StillRunning(s: Scene, s': Scene, x: WorkerId, a: nat, y: WorkerId, b: nat)
    requires Running(s, x, a) && Due(Row(s), s.now) && x != y && b < |Row(s).attempts| && b != a && Alone(s')
    requires s'.pcs == s.pcs[y := Idle] && s'.now == s.now && Row(s') == Ended(Row(s), b, Failed(true))
    ensures Running(s', x, a) && Due(Row(s'), s'.now) && s'.pcs[y].Idle?
  {
  }

  /** Between its two reads the gate can be fooled as well: the streak is read before the stalled worker reports
      its provider failure, and the charges after it. */
  lemma Slips(cfg: Config, p: Path, s: Scene, y: WorkerId, b: nat, n: nat) returns (p': Path, s': Scene)
    requires Stands(cfg, p, s) && Stalled(s, y, b) && !p.tally.unsettled && cfg.leaseSeconds > 0
    requires cfg.reviewAttempts >= 1 && Shows(s, n, cfg.reviewAttempts, 0)
    ensures Stands(cfg, p', s') && p'.tally == p.tally.(late := p.tally.late + 1)
    ensures Alone(s') && On(s', Other(y), StreakRead(JOB)) && Holds(s', Other(y), JOB) && y in s'.pcs && s'.pcs[y].Idle?
    ensures Row(s').state.Reviewing? && Row(s').lease.value.expires == s'.now + cfg.leaseSeconds
    ensures var reviews := EpochReviews(Row(s'));
            |reviews| == n && CountCharged(reviews) == cfg.reviewAttempts - 1 && Owed(reviews) == 0
  {
    hide Stands, EpochReviews, CountCharged, Streak, IsLast, Due, AtGate, Changed, Owed;
    var x := Other(y);
    RunningLast(s, y, b);
    var gate := AtGate(cfg, s, x);
    p' := ReadsStreak(cfg, p, s, x);
    var s1 := Changed(s, x, JOB, gate, StreakRead(JOB));
    GateRow(cfg, s, x);
    StillAlone(s, x, gate, StreakRead(JOB));
    LastStage(Row(s), b);
    p', s' := FailsLate(cfg, p', s1, y, b);
  }

  lemma RacedAttempt(cfg: Config, p: Path, s: Scene, y: WorkerId, b: nat, n: nat) returns (p': Path, s': Scene, a: nat)
    requires Stands(cfg, p, s) && Stalled(s, y, b) && !p.tally.unsettled && cfg.leaseSeconds > 0
    requires cfg.reviewAttempts >= 1 && Shows(s, n, cfg.reviewAttempts, 0)
    ensures Stands(cfg, p', s') && p'.tally == p.tally.(late := p.tally.late + 1)
    ensures Stalled(s', Other(y), a) && Shows(s', n + 1, cfg.reviewAttempts, 0)
  {
    hide Stands, EpochReviews, CountCharged, Streak, IsLast, Due, Changed, Started, Owed;
    var s2, s3;
    p', s2 := Slips(cfg, p, s, y, b, n);
    p', s3, a := Begins(cfg, p', s2, Other(y));
    StartedRow(Row(s2), Other(y));
    p', s' := Stalls(cfg, p', s3, Other(y), a);
  }

  // ---- Revivals ---------------------------------------------------------------------------

  /** The review is saved, its attempt succeeded, and nothing is published. */
  predicate Saved(s: Scene) {
    && Alone(s) && s.pcs[0].Idle? && Row(s).state.ReadyToPublish? && Row(s).lease.None?
    && Row(s).result.Some? && Unpublished(Row(s))
  }

  /** The attempt succeeds once its result is saved. */
  lemma Succeeds(cfg: Config, p: Path, s: Scene, a: nat) returns (p': Path, s': Scene)
    requires Stands(cfg, p, s) && Running(s, 0, a) && Holds(s, 0, JOB) && Unpublished(Row(s))
    ensures Stands(cfg, p', s') && p'.tally == p.tally && Saved(s') && s'.pcs == s.pcs[0 := Idle]
    ensures var reviews := EpochReviews(Row(s));
            reviews != [] && EpochReviews(Row(s')) == reviews[..|reviews| - 1] + [Succeeded]
  {
    hide Stands, Changed, EpochReviews, Finished, Alone;
    BothWork(s);
    LastStage(Row(s), a);
    var validating := Row(s).(state := Validating, retryState := None);
    p' := TransitionStep(cfg, p, s, 0, ReviewRunning(JOB, a), Validating);
    StillAlone(s, 0, validating, ReviewRunning(JOB, a));
    p' := SaveStep(cfg, p', Changed(s, 0, JOB, validating, ReviewRunning(JOB, a)), 0, a);
    var saved := validating.(state := ReadyToPublish, retryState := None, lease := None, result := Some("ok"));
    SameScene(s, 0, validating, saved, ReviewRunning(JOB, a), ReviewSaved(JOB, a));
    StillAlone(s, 0, saved, ReviewSaved(JOB, a));
    p' := FinishSavedStep(cfg, p', Changed(s, 0, JOB, saved, ReviewSaved(JOB, a)), 0, a);
    var row := Ended(saved, a, Succeeded);
    SameScene(s, 0, saved, row, ReviewSaved(JOB, a), Idle);
    StillAlone(s, 0, row, Idle);
    s' := Changed(s, 0, JOB, row, Idle);
    EndedUnpublished(saved, a, Succeeded);
    EndedReviews(Row(s), a, Succeeded);
    SameReviewsOf(Ended(Row(s), a, Succeeded), row);
  }

  /** The administrator skips the reviewed job, opts the project in again, and the event is replayed. */
  lemma Revived(cfg: Config, p: Path, s: Scene) returns (p': Path, s': Scene)
    requires Stands(cfg, p, s) && Saved(s) && cfg.leaseSeconds > 0 && !p.tally.unsettled
    ensures Stands(cfg, p', s') && p'.tally == p.tally.(revived := true) && Waiting(s', 0)
    ensures EpochReviews(Row(s')) == EpochReviews(Row(s)) && Unpublished(Row(s')) && s'.pcs[1] == s.pcs[1]
  {
    hide Stands, EpochReviews;
    p' := TickStep(cfg, p, s, 1);
    var s1 := s.(now := s.now + 1);
    p' := SkipStep(cfg, p', s1);
    var skipped := Row(s).(state := SkippedScope, retryState := None, lease := None);
    var s2 := s1.(jobs := s1.jobs[JOB := skipped], projects := InScope(s1, FromNow));
    p' := IncludeStep(cfg, p', s2);
    var s3 := s2.(projects := InScope(s2, IncludeOpen));
    p' := ReviveStep(cfg, p', s3);
    var row := skipped.(state := Received, retryState := None, nextAttemptAt := s3.now);
    var s4 := s3.(jobs := s3.jobs[JOB := row]);
    SameReviewsOf(Row(s), row);
    p', s' := Opens(cfg, p', s4);
  }

  /** Turning the last, unfinished attempt into a success takes its charge back. */
  lemma SuccessShows(outcomes: seq<Outcome>, after: seq<Outcome>)
    requires outcomes != [] && outcomes[|outcomes| - 1].Unfinished? && after == outcomes[..|outcomes| - 1] + [Succeeded]
    ensures |after| == |outcomes| && CountCharged(after) + 1 == CountCharged(outcomes) && Streak(after) == 0
    ensures Owed(after) == 1
  {
    Appended(outcomes[..|outcomes| - 1], Succeeded);
  }

  /** The tally of a run that went on after `m` successes. */
  function Repeated(m: nat): Tally {
    NOTHING.(repeated := m, revived := m > 0)
  }

  /** `m` full blocks that each end with a success, and the job is revived after each of them. */
  lemma {:induction false} Revivals(cfg: Config, m: nat) returns (p: Path, s: Scene)
    requires cfg.leaseSeconds > 0 && cfg.providerAttempts >= 1 && cfg.reviewAttempts >= 1
    ensures Stands(cfg, p, s) && Waiting(s, 0) && s.pcs[1].Idle? && Unpublished(Row(s))
    ensures Shows(s, Full(cfg, m), 0, 0) && Paid(p.tally, Row(s)) == Repeated(m)
    decreases m
  {
    hide Stands, Due, EpochReviews, CountCharged, Streak, Full, Unpublished, Owed, Running, Holds;
    FullNext(cfg, if m == 0 then 0 else m - 1);
    if m == 0 {
      p, s := Opening(cfg);
    } else {
      var q, r := Revivals(cfg, m - 1);
      var t, u, a := Block(cfg, q, r, 0, Full(cfg, m - 1), 0);
      RunningLast(u, 0, a);
      var v, x := Succeeds(cfg, t, u, a);
      SuccessShows(EpochReviews(Row(u)), EpochReviews(Row(x)));
      p, s := Revived(cfg, v, x);
    }
  }

  /** And then `j` full blocks that each end with a charged failure. */
  lemma {:induction false} Blocks(cfg: Config, m: nat, j: nat) returns (p: Path, s: Scene)
    requires cfg.leaseSeconds > 0 && cfg.providerAttempts >= 1 && cfg.reviewAttempts >= 1 && j <= cfg.reviewAttempts
    ensures Stands(cfg, p, s) && Waiting(s, 0) && s.pcs[1].Idle? && Unpublished(Row(s))
    ensures Shows(s, Full(cfg, m + j), j, 0) && Paid(p.tally, Row(s)) == Repeated(m) && (j > 0 ==> Ready(s, 0))
    decreases j
  {
    hide Stands, Due, EpochReviews, CountCharged, Streak, Full, Unpublished, Owed, Running, Holds;
    FullNext(cfg, if j == 0 then 0 else m + j - 1);
    if j == 0 {
      p, s := Revivals(cfg, m);
    } else {
      var q, r := Blocks(cfg, m, j - 1);
      var t, u, a := Block(cfg, q, r, 0, Full(cfg, m + j - 1), j - 1);
      RunningLast(u, 0, a);
      p, s := FailsOnTime(cfg, t, u, 0, a, false);
      Appended(EpochReviews(Row(u))[..|EpochReviews(Row(u))| - 1], Failed(false));
      ChargedFailure(EpochReviews(Row(u)));
    }
  }

  lemma ChargedFailure(outcomes: seq<Outcome>)
    requires outcomes != [] && outcomes[|outcomes| - 1].Unfinished?
    ensures CountCharged(outcomes[..|outcomes| - 1]) + 1 == CountCharged(outcomes)
  {
  }

  // ---- The runs ---------------------------------------------------------------------------

  /** The bound is reached: reviewAttempts * providerAttempts REVIEW attempts start although nothing was late and
      nothing was repeated; and with `m` repeated reviews, providerAttempts more for each of them. */
  lemma BudgetIsReached(cfg: Config, m: nat) returns (actions: seq<Action>)
    requires cfg.leaseSeconds > 0 && cfg.providerAttempts >= 1 && cfg.reviewAttempts >= 1
    ensures var W := Run(cfg, Init(0), actions);
            && JOB in W.jobs && |EpochReviews(W.jobs[JOB])| == (cfg.reviewAttempts + m) * cfg.providerAttempts
            && TallyOf(cfg, Init(0), actions, JOB) == Repeated(m)
  {
    hide EpochReviews, Run, TallyOf, Owed;
    var p, s := Blocks(cfg, m, cfg.reviewAttempts);
    actions := p.actions;
  }

  /** A worker stalls in the last attempt of a block. */
  lemma StalledAfter(cfg: Config, m: nat, j: nat) returns (p: Path, s: Scene, b: nat)
    requires cfg.leaseSeconds > 0 && cfg.providerAttempts >= 1 && j < cfg.reviewAttempts
    ensures Stands(cfg, p, s) && p.tally == Repeated(m) && Stalled(s, 0, b)
    ensures Shows(s, Full(cfg, m + j + 1), j + 1, 0)
  {
    hide Stands, EpochReviews, CountCharged, Streak, IsLast, Due, Full, Owed;
    p, s := Blocks(cfg, m, j);
    p, s, b := Block(cfg, p, s, 0, Full(cfg, m + j), j);
    p, s := Stalls(cfg, p, s, 0, b);
    FullNext(cfg, m + j);
  }

  lemma {:induction false} LateBlocks(cfg: Config, m: nat, k: nat) returns (p: Path, s: Scene, y: WorkerId, b: nat)
    requires cfg.leaseSeconds > 0 && cfg.providerAttempts >= 1 && cfg.reviewAttempts >= 2
    ensures Stands(cfg, p, s) && p.tally == Repeated(m).(late := k) && Stalled(s, y, b)
    ensures Shows(s, Full(cfg, m + cfg.reviewAttempts - 1 + k), cfg.reviewAttempts - 1, 0)
    decreases k
  {
    hide Stands, Stalled, EpochReviews, CountCharged, Streak, Full;
    if k == 0 {
      p, s, b := StalledAfter(cfg, m, cfg.reviewAttempts - 2);
      y := 0;
    } else {
      var q, r, x, i := LateBlocks(cfg, m, k - 1);
      var n := Full(cfg, m + cfg.reviewAttempts - 2 + k);
      p, s, b := LateBlock(cfg, q, r, x, i, n);
      y := Other(x);
      FullNext(cfg, m + cfg.reviewAttempts - 2 + k);
    }
  }

  /** Nobody waits for the last of them, and the budget is used up. */
  lemma LateBlocksEnd(cfg: Config, m: nat, k: nat) returns (p: Path, s: Scene)
    requires cfg.leaseSeconds > 0 && cfg.providerAttempts >= 1 && cfg.reviewAttempts >= 2
    ensures Stands(cfg, p, s) && p.tally == Repeated(m).(late := k)
    ensures Shows(s, Full(cfg, m + cfg.reviewAttempts + k), cfg.reviewAttempts, 0)
  {
    hide Stands, EpochReviews, CountCharged, Streak, Due, IsLast, Owed, Full;
    var q, r, y, b := LateBlocks(cfg, m, k);
    RunningLast(r, y, b);
    var a;
    p, s, a := Block(cfg, q, r, Other(y), Full(cfg, m + cfg.reviewAttempts - 1 + k), cfg.reviewAttempts - 1);
    FullNext(cfg, m + cfg.reviewAttempts - 1 + k);
  }

  lemma {:induction false} RacedAttempts(cfg: Config, m: nat, k: nat) returns (p: Path, s: Scene, y: WorkerId, b: nat)
    requires cfg.leaseSeconds > 0 && cfg.providerAttempts >= 1 && cfg.reviewAttempts >= 1
    ensures Stands(cfg, p, s) && p.tally == Repeated(m).(late := k) && Stalled(s, y, b)
    ensures Shows(s, Full(cfg, m + cfg.reviewAttempts) + k, cfg.reviewAttempts, 0)
    decreases k
  {
    hide Stands, Stalled, EpochReviews, CountCharged, Streak, Full;
    if k == 0 {
      p, s, b := StalledAfter(cfg, m, cfg.reviewAttempts - 1);
      y := 0;
    } else {
      var q, r, x, i := RacedAttempts(cfg, m, k - 1);
      p, s, b := RacedAttempt(cfg, q, r, x, i, Full(cfg, m + cfg.reviewAttempts) + k - 1);
      y := Other(x);
    }
  }

  /** With any limits the first late provider failure can break the bound, and each further one can let another
      REVIEW attempt start. */
  lemma LateFailuresExceed(cfg: Config, k: nat) returns (actions: seq<Action>)
    requires cfg.leaseSeconds > 0 && cfg.providerAttempts >= 1 && cfg.reviewAttempts >= 1
    ensures var W := Run(cfg, Init(0), actions);
            && JOB in W.jobs && |EpochReviews(W.jobs[JOB])| == cfg.reviewAttempts * cfg.providerAttempts + k
            && TallyOf(cfg, Init(0), actions, JOB) == NOTHING.(late := k)
  {
    hide EpochReviews, CountCharged, Streak, Run, TallyOf, Due, IsLast;
    var p, s, y, b := RacedAttempts(cfg, 0, k);
    actions := p.actions;
  }

  /** The last scene of the runs that are as long as the budgets allow. */
  lemma Longest(cfg: Config, k: nat, m: nat) returns (p: Path, s: Scene)
    requires cfg.leaseSeconds > 0 && cfg.providerAttempts >= 1 && cfg.reviewAttempts >= 1
    ensures Stands(cfg, p, s) && p.tally == Repeated(m).(late := k)
    ensures Shows(s, cfg.reviewAttempts * cfg.providerAttempts + Credit(cfg, Repeated(m).(late := k)), cfg.reviewAttempts, 0)
  {
    hide Stands, EpochReviews, CountCharged, Streak, Due, IsLast, Owed, Full, Credit;
    if cfg.reviewAttempts == 1 {
      var y, b;
      p, s, y, b := RacedAttempts(cfg, m, k);
    } else {
      p, s := LateBlocksEnd(cfg, m, k);
    }
    LongestIs(cfg, k, m);
  }

  lemma LongestIs(cfg: Config, k: nat, m: nat)
    ensures var all := cfg.reviewAttempts * cfg.providerAttempts + Credit(cfg, Repeated(m).(late := k));
            if cfg.reviewAttempts == 1 then all == Full(cfg, m + cfg.reviewAttempts) + k
            else all == Full(cfg, m + cfg.reviewAttempts + k)
  {
    Distribute(m, cfg.reviewAttempts, cfg.providerAttempts);
    Distribute(m + cfg.reviewAttempts, k, cfg.providerAttempts);
  }

  lemma Distribute(a: nat, b: nat, p: nat)
    ensures (a + b) * p == a * p + b * p
  {
  }

  /** The price is exact: for every number `k` of late provider failures and `m` of repeated reviews, and under all
      limits, a run starts as many REVIEW attempts as `ReviewsWithinBudget` allows. */
  lemma PriceIsExact(cfg: Config, k: nat, m: nat) returns (actions: seq<Action>)
    requires cfg.leaseSeconds > 0 && cfg.providerAttempts >= 1 && cfg.reviewAttempts >= 1
    ensures var W, t := Run(cfg, Init(0), actions), TallyOf(cfg, Init(0), actions, JOB);
            && t.late == k && t.repeated == m && JOB in W.jobs
            && |EpochReviews(W.jobs[JOB])| == cfg.reviewAttempts * cfg.providerAttempts + Credit(cfg, t)
  {
    hide EpochReviews, CountCharged, Streak, Run, TallyOf, Credit, Owed;
    var p, s := Longest(cfg, k, m);
    actions := p.actions;
  }
}
