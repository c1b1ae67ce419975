/** A run in which a lower Patch Set becomes DONE after the higher one was claimed and its history could be loaded.
    Worker 2 stalls with a local record of the job as READY_TO_PUBLISH, worker 1 posts the comments and stops in front
    of the vote, and worker 0 marks the publication FAILED after the comments have landed. */
module HistoryRuns {
  import opened Wrappers
  import opened StateMachine
  import opened JobRows
  import opened RetryBudget
  import opened Protocol
  import opened ProtocolBudgets
  import opened ProtocolPaths
  import opened ReviewRuns
  import opened VoteRuns
  import ProtocolHistory

  /** Worker 2 has claimed the reviewed job and has not looked for its publication. */
  predicate Lagging(s: Scene) {
    s.pcs.Keys == {0, 1, 2} && On(s, 2, PublishClaimed(JOB, ReadyToPublish))
  }

  /** Worker 2 claims the reviewed job, and its lease runs out. */
  lemma Lags(cfg: Config) returns (p: Path, s': Scene)
    requires cfg.leaseSeconds > 0 && cfg.reviewAttempts >= 1
    ensures Stands(cfg, p, s') && Reviewed(s') && Lagging(s') && !p.tally.unsettled
  {
    hide Stands, Claimable, ClaimRow, Count;
    var s;
    p, s := Saves(cfg);
    p := SpawnStep(cfg, p, s, 2);
    s := Moved(s, 2, Idle);
    LagsClaim(cfg, s, p.tally);
    var row := Row(s).(lease := Some(Lease(2, s.now + cfg.leaseSeconds)));
    p := ClaimStep(cfg, p, s, 2, JOB, row, PublishClaimed(JOB, ReadyToPublish));
    p := TickStep(cfg, p, Changed(s, 2, JOB, row, PublishClaimed(JOB, ReadyToPublish)), cfg.leaseSeconds);
    s' := Changed(s, 2, JOB, row, PublishClaimed(JOB, ReadyToPublish)).(now := s.now + cfg.leaseSeconds);
  }

  lemma LagsClaim(cfg: Config, s: Scene, t: Tally)
    requires Reviewed(s) && !t.unsettled
    ensures Claimable(s.jobs, s.projects, JOB, s.now)
    ensures ClaimRow(Row(s), 2, cfg.leaseSeconds, s.now) == Ok(Row(s).(lease := Some(Lease(2, s.now + cfg.leaseSeconds))))
    ensures forall row' :: Count(t, Row(s), row', AClaim(2, JOB)) == t
  {
  }

  /** Worker 0 has seen that nothing is posted, and has lost its lease. */
  predicate Overslept(s: Scene) {
    && Alone(s) && Lagging(s) && s.projects == map[] && On(s, 0, ObservedAbsent(JOB, "c")) && s.pcs[1].Idle?
    && s.log == [] && Row(s).state.Publishing? && Row(s).retryState.None? && Row(s).lease.Some?
    && Row(s).lease.value.expires <= s.now && Row(s).result.Some?
    && Row(s).publication == Some(Publication(Pending, "c")) && Row(s).vote.None?
    && forall a :: 0 <= a < |Row(s).attempts| ==> !Row(s).attempts[a].stage.PublishStage?
  }

  lemma Oversleeps(cfg: Config) returns (p: Path, s': Scene)
    requires cfg.leaseSeconds > 0 && cfg.reviewAttempts >= 1
    ensures Stands(cfg, p, s') && Overslept(s') && !p.tally.unsettled
  {
    hide Stands, Changed, Moved;
    var s;
    p, s := Lags(cfg);
    p := Observes(cfg, p, s);
    var row := Prepared(cfg, s);
    StillAlone(s, 0, row, ObservedAbsent(JOB, "c"));
    p := TickStep(cfg, p, Changed(s, 0, JOB, row, ObservedAbsent(JOB, "c")), cfg.leaseSeconds);
    s' := Changed(s, 0, JOB, row, ObservedAbsent(JOB, "c")).(now := s.now + cfg.leaseSeconds);
  }

  function Reclaimed(cfg: Config, s: Scene, w: WorkerId): Job
    requires Alone(s)
  {
    Row(s).(lease := Some(Lease(w, s.now + cfg.leaseSeconds)))
  }

  lemma OversleptClaim(cfg: Config, s: Scene, t: Tally)
    requires Overslept(s) && !t.unsettled
    ensures Claimable(s.jobs, s.projects, JOB, s.now)
    ensures ClaimRow(Row(s), 1, cfg.leaseSeconds, s.now) == Ok(Reclaimed(cfg, s, 1))
    ensures Count(t, Row(s), Reclaimed(cfg, s, 1), AClaim(1, JOB)) == t
  {
  }

  /** Worker 1 takes the job over and reaches the same point. */
  lemma TakesOver(cfg: Config, p: Path, s: Scene) returns (p': Path)
    requires Stands(cfg, p, s) && Overslept(s) && cfg.leaseSeconds > 0 && !p.tally.unsettled
    ensures Stands(cfg, p', Changed(s, 1, JOB, Reclaimed(cfg, s, 1), InPublishing(JOB, Row(s).publication)))
    ensures p'.tally == p.tally
  {
    hide Stands, Changed, Moved, Claimable, ClaimRow, Count, HasNewer;
    OversleptClaim(cfg, s, p.tally);
    var row, seen := Reclaimed(cfg, s, 1), Row(s).publication;
    p' := ClaimStep(cfg, p, s, 1, JOB, row, PublishClaimed(JOB, Publishing));
    StillAlone(s, 1, row, PublishClaimed(JOB, Publishing));
    p' := ReadStep(cfg, p', Changed(s, 1, JOB, row, PublishClaimed(JOB, Publishing)), 1, JOB, Publishing);
    SameScene(s, 1, row, row, PublishClaimed(JOB, Publishing), PublicationRead(JOB, Publishing, seen));
    StillAlone(s, 1, row, PublicationRead(JOB, Publishing, seen));
    NoNewer(Changed(s, 1, JOB, row, PublicationRead(JOB, Publishing, seen)));
    p' := LatestStep(cfg, p', Changed(s, 1, JOB, row, PublicationRead(JOB, Publishing, seen)), 1, JOB, Publishing, seen);
    SameScene(s, 1, row, row, PublicationRead(JOB, Publishing, seen), InPublishing(JOB, seen));
  }

  function Reconciled(row: Job): Job {
    row.(attempts := row.attempts + [Attempt(ReconcileStage, 1, Unfinished)])
  }

  lemma Reconciles(cfg: Config, p: Path, s: Scene, row: Job) returns (p': Path)
    requires Stands(cfg, p, Changed(s, 1, JOB, row, InPublishing(JOB, Some(Publication(Pending, "c"))))) && Alone(s)
    requires FirstRow(row) && row.lease == Some(Lease(1, s.now + cfg.leaseSeconds)) && cfg.leaseSeconds > 0
    ensures Stands(cfg, p', Changed(s, 1, JOB, Reconciled(row), Reconciling(JOB, "c")))
  {
    hide Stands, Changed, Moved;
    var seen := InPublishing(JOB, Some(Publication(Pending, "c")));
    StillAlone(s, 1, row, seen);
    p' := ReconcileStep(cfg, p, Changed(s, 1, JOB, row, seen), 1, Publication(Pending, "c"));
    SameScene(s, 1, row, Reconciled(row), seen, Reconciling(JOB, "c"));
  }

  lemma Allows(cfg: Config, p: Path, s: Scene, row: Job) returns (p': Path)
    requires Stands(cfg, p, Changed(s, 1, JOB, row, Reconciling(JOB, "c"))) && Alone(s)
    requires FirstRow(row) && s.log == [] && cfg.publishAttempts >= 1
    requires forall a :: 0 <= a < |row.attempts| ==> !row.attempts[a].stage.PublishStage?
    ensures Stands(cfg, p', Changed(s, 1, JOB, row, PublishAllowed(JOB, "c")))
  {
    hide Stands, Changed, Moved;
    StillAlone(s, 1, row, Reconciling(JOB, "c"));
    p' := AbsentStep(cfg, p, Changed(s, 1, JOB, row, Reconciling(JOB, "c")), 1, "c");
    SameScene(s, 1, row, row, Reconciling(JOB, "c"), ObservedAbsent(JOB, "c"));
    StillAlone(s, 1, row, ObservedAbsent(JOB, "c"));
    p' := AllowStep(cfg, p', Changed(s, 1, JOB, row, ObservedAbsent(JOB, "c")), 1, "c");
    SameScene(s, 1, row, row, ObservedAbsent(JOB, "c"), PublishAllowed(JOB, "c"));
  }

  /** The comments have landed and are POSTED, as worker 2 has read; worker 1 stalls in front of the vote, worker 0
      before it looks again. */
  predicate Crossed(s: Scene) {
    && s.projects == map[] && s.pcs.Keys == {0, 1, 2} && JOB in s.jobs && FirstRow(s.jobs[JOB])
    && s.jobs[JOB].publication == Some(Publication(Posted, "c"))
    && On(s, 0, ObservedAbsent(JOB, "c")) && On(s, 1, VoteDeferred(JOB, true))
    && On(s, 2, PublicationRead(JOB, ReadyToPublish, Some(Publication(Posted, "c"))))
    && s.jobs[JOB].state.Publishing? && s.jobs[JOB].lease.Some? && s.jobs[JOB].retryState.None?
    && s.jobs[JOB].result.Some? && s.jobs[JOB].vote.Some?
  }

  lemma Crosses(cfg: Config) returns (p: Path, s': Scene)
    requires cfg.leaseSeconds > 0 && cfg.reviewAttempts >= 1 && cfg.publishAttempts >= 1
    ensures Stands(cfg, p, s') && Crossed(s') && s'.jobs.Keys == {JOB}
    ensures s'.jobs[JOB].lease.value.expires == s'.now + cfg.leaseSeconds
  {
    hide Stands, Changed, Moved, Finished;
    var s;
    p, s := Oversleeps(cfg);
    p := TakesOver(cfg, p, s);
    var row := Reclaimed(cfg, s, 1);
    p := Reconciles(cfg, p, s, row);
    var allowed := Reconciled(row);
    p := Allows(cfg, p, s, allowed);
    p := VoteRuns.Posts(cfg, p, s, 1, allowed);
    var sent := Sent(allowed, 1);
    var done := sent.(attempts := Finished(sent.attempts, |allowed.attempts|, Succeeded));
    var l := s.(log := [POSTED]);
    p := Intends(cfg, p, l, 1, done);
    StillAlone(l, 1, Intended(done), VoteDeferred(JOB, true));
    s' := Changed(l, 1, JOB, Intended(done), VoteDeferred(JOB, true));
    p := ReadStep(cfg, p, s', 2, JOB, ReadyToPublish);
    MovedIsChanged(s', 2, PublicationRead(JOB, ReadyToPublish, Some(Publication(Posted, "c"))));
    Later(s', 2, s'.jobs[JOB], PublicationRead(JOB, ReadyToPublish, Some(Publication(Posted, "c"))));
    s' := Moved(s', 2, PublicationRead(JOB, ReadyToPublish, Some(Publication(Posted, "c"))));
  }

  /** Worker 2 goes on to the completion, worker 0 fails and marks the publication FAILED, and the lease of worker 1
      runs out. */
  predicate Marked(s: Scene) {
    && s.projects == map[] && s.pcs.Keys == {0, 1, 2} && s.jobs.Keys == {JOB, NEXT} && FirstRow(s.jobs[JOB])
    && s.pcs[0].Idle? && On(s, 2, Completing(JOB, false))
    && s.jobs[JOB].state.Publishing? && s.jobs[JOB].lease.Some? && s.jobs[JOB].lease.value.expires <= s.now
    && s.jobs[JOB].retryState.None? && s.jobs[JOB].result.Some? && s.jobs[JOB].vote.Some?
    && s.jobs[JOB].publication.Some? && s.jobs[JOB].publication.value.status.PublicationFailed?
    && NextRow(s.jobs[NEXT])
  }

  predicate NextRow(row: Job) {
    && row.identity == Identity(NEXT_EVENT.change, NEXT_EVENT.revision, "v") && row.patchset == 2
    && row.state.Received? && row.lease.None? && row.retryState.None?
  }

  /** The scenes after a worker's steps on JOB. */
  lemma Later(s: Scene, w: WorkerId, row: Job, pc: Pc)
    requires JOB in s.jobs && w in s.pcs
    ensures Changed(s, w, JOB, row, pc) == s.(jobs := s.jobs[JOB := row], pcs := s.pcs[w := pc])
    ensures !pc.Idle? && pc.job == JOB ==> On(Changed(s, w, JOB, row, pc), w, pc)
    ensures row.lease.Some? && row.lease.value.owner == w && s.now < row.lease.value.expires ==>
      Holds(Changed(s, w, JOB, row, pc), w, JOB)
    ensures forall pc' :: Moved(Changed(s, w, JOB, row, pc), w, pc') == Changed(s, w, JOB, row, pc')
    ensures forall row', pc' :: Changed(Changed(s, w, JOB, row, pc), w, JOB, row', pc') == Changed(s, w, JOB, row', pc')
  {
    var after := Changed(s, w, JOB, row, pc);
    forall pc' ensures Moved(after, w, pc') == Changed(s, w, JOB, row, pc') { LastWins(s.pcs, w, pc, pc'); }
    forall row', pc' ensures Changed(after, w, JOB, row', pc') == Changed(s, w, JOB, row', pc') {
      LastWins(s.pcs, w, pc, pc');
      LastWins(s.jobs, JOB, row, row');
    }
  }

  lemma LastWins<K, V>(m: map<K, V>, key: K, first: V, last: V)
    ensures m[key := first][key := last] == m[key := last]
  {
  }

  lemma Marks(cfg: Config, p: Path, s: Scene) returns (p': Path, s': Scene)
    requires Stands(cfg, p, s) && Crossed(s) && s.jobs.Keys == {JOB}
    requires s.jobs[JOB].lease.value.expires == s.now + cfg.leaseSeconds
    ensures Stands(cfg, p', s') && Marked(s')
  {
    hide Stands, Changed, Moved, HasNewer;
    p' := EnqueueNextStep(cfg, p, s);
    var s0 := s.(jobs := s.jobs[NEXT := NewJob(NEXT_EVENT, "v", false, s.now)]);
    var row := s0.jobs[JOB];
    Overtaken(s0);
    p' := SeenPostedStep(cfg, p', s0, 2, ReadyToPublish, Publication(Posted, "c"));
    MovedIsChanged(s0, 2, Completing(JOB, false));
    Later(s0, 2, row, Completing(JOB, false));
    var s1 := Changed(s0, 2, JOB, row, Completing(JOB, false));
    p', s' := Fails(cfg, p', s1);
  }

  lemma Fails(cfg: Config, p: Path, s: Scene) returns (p': Path, s': Scene)
    requires Stands(cfg, p, s) && JOB in s.jobs && On(s, 0, ObservedAbsent(JOB, "c")) && s.jobs[JOB].publication.Some?
    ensures var row := s.jobs[JOB];
            var marked := row.(publication := Some(row.publication.value.(status := PublicationFailed)));
            && s' == s.(jobs := s.jobs[JOB := marked], pcs := s.pcs[0 := Idle], now := s.now + cfg.leaseSeconds)
            && Stands(cfg, p', s')
  {
    hide Stands, Changed, Moved;
    p' := LeaveStep(cfg, p, s, 0, ObservedAbsent(JOB, "c"));
    var row := s.jobs[JOB];
    MovedIsChanged(s, 0, Leaving(JOB, None, false));
    Later(s, 0, row, Leaving(JOB, None, false));
    p' := FailPublicationStep(cfg, p', Changed(s, 0, JOB, row, Leaving(JOB, None, false)), 0);
    var marked := row.(publication := Some(row.publication.value.(status := PublicationFailed)));
    Later(s, 0, marked, Leaving(JOB, None, false));
    p' := AbortStep(cfg, p', Changed(s, 0, JOB, marked, Leaving(JOB, None, false)), 0, Leaving(JOB, None, false));
    Later(s, 0, marked, Idle);
    p' := TickStep(cfg, p', Changed(s, 0, JOB, marked, Idle), cfg.leaseSeconds);
    s' := Changed(s, 0, JOB, marked, Idle).(now := s.now + cfg.leaseSeconds);
  }

  lemma MovedIsChanged(s: Scene, w: WorkerId, pc: Pc)
    requires JOB in s.jobs
    ensures Moved(s, w, pc) == Changed(s, w, JOB, s.jobs[JOB], pc)
  {
    assert s.jobs[JOB := s.jobs[JOB]] == s.jobs;
  }

  lemma MarkedClaim(cfg: Config, s: Scene)
    requires Marked(s)
    ensures Claimable(s.jobs, s.projects, JOB, s.now)
    ensures ClaimRow(s.jobs[JOB], 0, cfg.leaseSeconds, s.now)
         == Ok(s.jobs[JOB].(lease := Some(Lease(0, s.now + cfg.leaseSeconds))))
  {
  }

  lemma Overtaken(s: Scene)
    requires JOB in s.jobs && NEXT in s.jobs && FirstRow(s.jobs[JOB]) && NextRow(s.jobs[NEXT])
    ensures HasNewer(s.jobs, s.jobs[JOB]) && Elder(s.jobs[JOB], s.jobs[NEXT])
  {
    assert Elder(s.jobs[JOB], s.jobs[NEXT]);
  }

  /** Worker 0 claims the job again, finds it overtaken and FAILED, and supersedes it. */
  lemma Supersedes(cfg: Config, p: Path, s: Scene) returns (p': Path)
    requires Stands(cfg, p, s) && Marked(s) && cfg.leaseSeconds > 0
    ensures var row := s.jobs[JOB].(state := Superseded, retryState := None, lease := None);
            Stands(cfg, p', Changed(s, 0, JOB, row, Idle))
  {
    hide Stands, Changed, Moved, Claimable, ClaimRow, HasNewer, Count;
    MarkedClaim(cfg, s);
    var row, seen := s.jobs[JOB].(lease := Some(Lease(0, s.now + cfg.leaseSeconds))), s.jobs[JOB].publication;
    p' := ClaimStep(cfg, p, s, 0, JOB, row, PublishClaimed(JOB, Publishing));
    Later(s, 0, row, PublishClaimed(JOB, Publishing));
    p' := ReadStep(cfg, p', Changed(s, 0, JOB, row, PublishClaimed(JOB, Publishing)), 0, JOB, Publishing);
    Later(s, 0, row, PublicationRead(JOB, Publishing, seen));
    Overtaken(Changed(s, 0, JOB, row, PublicationRead(JOB, Publishing, seen)));
    p' := OvertakenStep(cfg, p', Changed(s, 0, JOB, row, PublicationRead(JOB, Publishing, seen)), 0, Publishing, seen.value);
    Later(s, 0, row, Leaving(JOB, None, false));
    p' := SupersedeStep(cfg, p', Changed(s, 0, JOB, row, Leaving(JOB, None, false)), 0);
  }

  lemma NextClaim(cfg: Config, s: Scene)
    requires s.jobs.Keys == {JOB, NEXT} && s.projects == map[] && NextRow(s.jobs[NEXT]) && s.jobs[JOB].state.Superseded?
    ensures Claimable(s.jobs, s.projects, NEXT, s.now)
    ensures ClaimRow(s.jobs[NEXT], 0, cfg.leaseSeconds, s.now)
         == Ok(s.jobs[NEXT].(lease := Some(Lease(0, s.now + cfg.leaseSeconds))))
  {
  }

  /** The run: the higher Patch Set is claimed, the lower one is SUPERSEDED, and one step later it is DONE.  The lower
      one has a vote row, so a project policy is bound to it. */
  lemma LateCompletionHappens(cfg: Config) returns (first: seq<Action>, action: Action)
    requires cfg.leaseSeconds > 0 && cfg.reviewAttempts >= 1 && cfg.publishAttempts >= 1
    ensures var W := Run(cfg, Init(0), first);
            var W' := Run(cfg, W, [action]);
            && NEXT in W.claimed && JOB in W.jobs && NEXT in W.jobs && Elder(W.jobs[JOB], W.jobs[NEXT])
            && !ProtocolHistory.IsDone(W, JOB) && ProtocolHistory.IsDone(W', JOB) && W.jobs[JOB].vote.Some?
  {
    hide Stands, Run, Next, Init, Changed, Moved, Claimable, ClaimRow, Count, HasNewer, Elder;
    var p, s := Crosses(cfg);
    p, s := Marks(cfg, p, s);
    p := Supersedes(cfg, p, s);
    var row := s.jobs[JOB].(state := Superseded, retryState := None, lease := None);
    Later(s, 0, row, Idle);
    s := Changed(s, 0, JOB, row, Idle);
    NextClaim(cfg, s);
    var taken := s.jobs[NEXT].(lease := Some(Lease(0, s.now + cfg.leaseSeconds)));
    p := ClaimStep(cfg, p, s, 0, NEXT, taken, InReview(NEXT));
    first, action := p.actions, ACompleteNow(2);
    Completes(cfg, p, Changed(s, 0, NEXT, taken, InReview(NEXT)), s, taken);
  }

  lemma Completes(cfg: Config, p: Path, s': Scene, s: Scene, taken: Job)
    requires Stands(cfg, p, s') && s' == Changed(s, 0, NEXT, taken, InReview(NEXT))
    requires s.jobs.Keys == {JOB, NEXT} && 0 in s.pcs && On(s, 2, Completing(JOB, false)) && s.jobs[JOB].vote.Some?
    requires FirstRow(s.jobs[JOB]) && s.jobs[JOB].state.Superseded? && s.jobs[JOB].publication.Some?
    requires taken.identity == Identity(NEXT_EVENT.change, NEXT_EVENT.revision, "v") && taken.patchset == 2
    ensures var W := Run(cfg, Init(0), p.actions);
            && JOB in W.jobs && NEXT in W.jobs && Elder(W.jobs[JOB], W.jobs[NEXT]) && W == p.W
            && W.jobs[JOB].vote.Some?
            && !ProtocolHistory.IsDone(W, JOB) && ProtocolHistory.IsDone(Run(cfg, W, [ACompleteNow(2)]), JOB)
  {
    hide Next, Init;
    var W := p.W;
    ProtocolHistory.CompletedIsDone(cfg, W, ACompleteNow(2), JOB);
    OneStep(cfg, W, ACompleteNow(2));
  }

  lemma OneStep(cfg: Config, W: World, action: Action)
    ensures Run(cfg, W, [action]) == Next(cfg, W, action)
  {
    hide Next;
    assert [action][..0] == [];
  }
}
