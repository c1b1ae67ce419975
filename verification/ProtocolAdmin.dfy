/** Enqueue, requeue, scope changes and claims keep the protocol invariant. */
module ProtocolAdmin {
  import opened Wrappers
  import opened StateMachine
  import opened JobRows
  import opened Protocol
  import opened ProtocolInvariant
  import opened ProtocolRows
  import opened ProtocolSteps
  import JobStore

  /** The harmless part of a step outside every worker, for one row. */
  ghost predicate AdminRow(cfg: Config, W: World, W': World, k: JobId)
    requires k in W.jobs && k in W'.jobs
  {
    && RowStep(W.jobs[k], W'.jobs[k], Sent(W, k), Sent(W', k), None, W.now)
    && RowOk(cfg, W', k)
  }

  // ---- Claims -----------------------------------------------------------------------------

  /** Claiming is what makes every earlier Patch Set terminal for good. */
  lemma ClaimedKeepsPairs(cfg: Config, W: World, id: JobId)
    requires Inv(cfg, W) && id in W.jobs && !IsTerminal(W.jobs[id].state)
    requires forall k :: k in W.jobs && Elder(W.jobs[k], W.jobs[id]) ==> !NeedsPublishRecovery(W.jobs[k])
    ensures PairsOk(W.(claimed := W.claimed + {id}))
  {
    var W' := W.(claimed := W.claimed + {id});
    assert id in W.live by { RowFacts(cfg, W, id); }
    assert PairsOk(W);
    hide Inv;
    forall i, j | i in W'.jobs && j in W'.jobs
      ensures PairOk(W'.jobs[i], W'.jobs[j], j in W'.live, j in W'.claimed)
    {
      assert PairOk(W.jobs[i], W.jobs[j], j in W.live, j in W.claimed);
    }
  }

  lemma ClaimedKeepsRow(cfg: Config, W: World, id: JobId, k: JobId)
    requires Inv(cfg, W) && id in W.jobs && !IsTerminal(W.jobs[id].state) && k in W.jobs
    ensures RowOk(cfg, W.(claimed := W.claimed + {id}), k)
  {
    RowFacts(cfg, W, k);
    hide Inv;
    assert Sent(W.(claimed := W.claimed + {id}), k) == Sent(W, k);
  }

  lemma ClaimedKeepsInv(cfg: Config, W: World, id: JobId)
    requires Inv(cfg, W) && id in W.jobs && !IsTerminal(W.jobs[id].state)
    requires forall k :: k in W.jobs && Elder(W.jobs[k], W.jobs[id]) ==> !NeedsPublishRecovery(W.jobs[k])
    ensures Inv(cfg, W.(claimed := W.claimed + {id}))
  {
    hide RowOk, PcOk, PairsOk, LogOk;
    var W' := W.(claimed := W.claimed + {id});
    forall k ensures Sent(W', k) == Sent(W, k) { }
    ClaimedKeepsPairs(cfg, W, id);
    forall k | k in W'.jobs ensures RowOk(cfg, W', k) { ClaimedKeepsRow(cfg, W, id, k); }
    forall u | u in W'.workers ensures WorkerOk(cfg, W', u) { assert WorkerOk(cfg, W, u); }
    LogKept(W, W') by { assert LogOk(W); }
  }

  lemma ClaimKeepsInv(cfg: Config, W: World, w: WorkerId, id: JobId)
    requires Inv(cfg, W)
    ensures Inv(cfg, Claim(cfg, W, w, id))
  {
    hide Inv, JobOk, RowStep;
    if w in W.workers && W.workers[w].alive && W.workers[w].pc.Idle? && Claimable(W.jobs, W.projects, id, W.now) {
      RowFacts(cfg, W, id);
      var v := ViewOf(W, id);
      ClaimKeeps(cfg, v, w, W.now);
      ClaimedKeepsInv(cfg, W, id);
      var W0 := W.(claimed := W.claimed + {id});
      assert Sent(W0, id) == Sent(W, id);
      assert ViewOf(W0, id) == v.(claimed := true);
      var W' := Claim(cfg, W, w, id);
      CommitKeepsInv(cfg, W0, w, id, ClaimRow(v.row, w, cfg.leaseSeconds, W.now), W'.workers[w].pc);
    }
  }

  // ---- Requeue and scope changes ----------------------------------------------------------

  lemma OtherRowKept(cfg: Config, W: World, W': World, k: JobId)
    requires Inv(cfg, W) && k in W.jobs && k in W'.jobs && W'.jobs[k] == W.jobs[k] && W'.log == W.log
    requires Sent(W', k) == Sent(W, k) && (k in W.live <==> k in W'.live) && W'.claimed == W.claimed
    ensures AdminRow(cfg, W, W', k)
  {
    RowFacts(cfg, W, k);
  }

  lemma RequeueKeepsRow(cfg: Config, W: World, id: JobId)
    requires Inv(cfg, W) && id in W.jobs && RequeueRow(W.jobs[id], Newer(W, id), W.now).Ok?
    ensures AdminRow(cfg, W, Requeue(W, id), id)
  {
    hide Inv, HasNewer;
    RowFacts(cfg, W, id);
    assert Sent(Requeue(W, id), id) == Sent(W, id);
    assert InEpoch(Sent(W, id), |W.jobs[id].attempts|) == {};
  }

  lemma RequeueKeepsPairs(cfg: Config, W: World, id: JobId)
    requires Inv(cfg, W) && id in W.jobs && RequeueRow(W.jobs[id], Newer(W, id), W.now).Ok?
    ensures PairsOk(Requeue(W, id))
  {
    var W' := Requeue(W, id);
    assert PairsOk(W);
    hide JobsOk, WorkersOk, LogOk;
    forall i, j | i in W'.jobs && j in W'.jobs
      ensures PairOk(W'.jobs[i], W'.jobs[j], j in W'.live, j in W'.claimed)
    {
      assert PairOk(W.jobs[i], W.jobs[j], j in W.live, j in W.claimed);
      assert i == id ==> !Elder(W.jobs[i], W.jobs[j]);
    }
  }

  lemma RequeueKeepsInv(cfg: Config, W: World, id: JobId)
    requires Inv(cfg, W)
    ensures Inv(cfg, Requeue(W, id))
  {
    hide RowStep, RowOk, WorkersOk, PairsOk, LogOk;
    if id in W.jobs && RequeueRow(W.jobs[id], Newer(W, id), W.now).Ok? {
      var W' := Requeue(W, id);
      forall k | k in W.jobs ensures AdminRow(cfg, W, W', k) {
        if k == id { RequeueKeepsRow(cfg, W, id); } else { OtherRowKept(cfg, W, W', k); }
      }
      RequeueKeepsPairs(cfg, W, id);
      assert JobsOk(cfg, W') by { forall k | k in W'.jobs ensures RowOk(cfg, W', k) { assert AdminRow(cfg, W, W', k); } }
      AdminKeepsInv(cfg, W, W');
    }
  }

  lemma SkipKeepsRow(cfg: Config, W: World, project: string, W': World, k: JobId)
    requires Inv(cfg, W) && W'.jobs == SkipPreCutoff(W.jobs, project, W.now, W.now)
    requires W' == W.(jobs := W'.jobs, projects := W'.projects) && k in W.jobs
    ensures AdminRow(cfg, W, W', k) && Settles(W.jobs[k], W'.jobs[k])
  {
    hide Inv;
    RowFacts(cfg, W, k);
    assert Sent(W', k) == Sent(W, k);
  }

  lemma SkipKeepsInv(cfg: Config, W: World, project: string, W': World)
    requires Inv(cfg, W)
    requires W' == W.(jobs := W'.jobs, projects := W'.projects)
    requires W'.jobs == W.jobs || W'.jobs == SkipPreCutoff(W.jobs, project, W.now, W.now)
    ensures Inv(cfg, W')
  {
    hide RowStep, RowOk, WorkersOk, PairsOk, LogOk;
    forall k | k in W.jobs ensures AdminRow(cfg, W, W', k) && Settles(W.jobs[k], W'.jobs[k]) {
      if W'.jobs == W.jobs { OtherRowKept(cfg, W, W', k); } else { SkipKeepsRow(cfg, W, project, W', k); }
    }
    SkipKeepsPairs(cfg, W, project, W');
    assert JobsOk(cfg, W') by { forall k | k in W'.jobs ensures RowOk(cfg, W', k) { assert AdminRow(cfg, W, W', k); } }
    AdminKeepsInv(cfg, W, W');
  }

  lemma SkipKeepsPairs(cfg: Config, W: World, project: string, W': World)
    requires Inv(cfg, W)
    requires W' == W.(jobs := W'.jobs, projects := W'.projects)
    requires W'.jobs == W.jobs || W'.jobs == SkipPreCutoff(W.jobs, project, W.now, W.now)
    ensures PairsOk(W')
  {
    hide RowOk, WorkersOk, LogOk, PairOk;
    PairsKept(W, W');
  }

  /** The project starts now: nothing older is left to claim, and only resolved, unheld jobs were skipped. */
  ghost predicate StartsNow(W: World, W': World, project: string) {
    && project in W'.projects && W'.projects[project].startAt == W.now
    && W'.jobs.Keys == W.jobs.Keys
    && (forall k :: k in W'.jobs && W'.jobs[k].identity.change.project == project && W'.jobs[k].createdAt < W.now ==>
          IsTerminal(W'.jobs[k].state) || W'.jobs[k].publication.Some? || !LeaseFree(W'.jobs[k], W.now))
    && (forall k :: k in W'.jobs && W'.jobs[k] != W.jobs[k] ==>
          && W'.jobs[k].state.SkippedScope? && W.jobs[k].identity.change.project == project
          && W.jobs[k].createdAt < W.now && !IsTerminal(W.jobs[k].state) && W.jobs[k].publication.None?)
  }

  /** What the administrators' steps mean: jobs are skipped exactly when a project is switched on, or put, in FROM_NOW;
      otherwise no job changes, and no other project does. */
  lemma ScopeMeans(W: World, project: string, enabled: bool, mode: StartMode)
    ensures project in W.projects ==>
      var W' := SetProjectEnabled(W, project, enabled);
      && W'.projects == W.projects[project := Scope(enabled, W.projects[project].mode, W'.projects[project].startAt)]
      && (if enabled && W.projects[project].mode.FromNow? then StartsNow(W, W', project)
          else W'.jobs == W.jobs && W'.projects[project].startAt == W.projects[project].startAt)
    ensures project in W.projects ==>
      var W' := SetReviewStartMode(W, project, mode);
      && W'.projects == W.projects[project := Scope(W.projects[project].enabled, mode, W'.projects[project].startAt)]
      && (if mode.FromNow? then StartsNow(W, W', project) else W'.jobs == W.jobs)
    ensures project !in W.projects ==>
      SetProjectEnabled(W, project, enabled) == W && SetReviewStartMode(W, project, mode) == W
    ensures var W' := UpsertProject(W, project, enabled, mode);
            && W'.projects == W.projects[project := Scope(enabled, mode, W'.projects[project].startAt)]
            && (if mode.FromNow? then StartsNow(W, W', project) else W'.jobs == W.jobs)
  {
    hide SkipPreCutoff, StartsNow;
    forall W': World | project in W'.projects && W'.projects[project].startAt == W.now
                       && W'.jobs == SkipPreCutoff(W.jobs, project, W.now, W.now)
      ensures StartsNow(W, W', project)
    {
      SkipStarts(W, W', project);
    }
  }

  lemma SkipStarts(W: World, W': World, project: string)
    requires project in W'.projects && W'.projects[project].startAt == W.now
    requires W'.jobs == SkipPreCutoff(W.jobs, project, W.now, W.now)
    ensures StartsNow(W, W', project)
  {
    hide SkipPreCutoff, IsTerminal, LeaseFree, JobStore.HeldBy;
    JobStore.SkipMeans(W.jobs, project, W.now, W.now);
  }

  lemma ScopeKeepsInv(cfg: Config, W: World, project: string, enabled: bool, mode: StartMode)
    requires Inv(cfg, W)
    ensures Inv(cfg, SetProjectEnabled(W, project, enabled))
    ensures Inv(cfg, SetReviewStartMode(W, project, mode))
    ensures Inv(cfg, UpsertProject(W, project, enabled, mode))
  {
    hide Inv;
    SkipKeepsInv(cfg, W, project, SetProjectEnabled(W, project, enabled));
    SkipKeepsInv(cfg, W, project, SetReviewStartMode(W, project, mode));
    SkipKeepsInv(cfg, W, project, UpsertProject(W, project, enabled, mode));
  }

  // ---- Enqueue ----------------------------------------------------------------------------

  /** The identity lookup found `id`, or found nothing and `id` is a fresh key. */
  predicate Resolved(W: World, event: Event, policyVersion: string, id: JobId) {
    var identity := Identity(event.change, event.revision, policyVersion);
    if id in W.jobs then W.jobs[id].identity == identity
    else forall k :: k in W.jobs ==> W.jobs[k].identity != identity
  }

  /** The row of `id` after one enqueue.  It ends terminal when a newer Patch Set is stored, unless a
      POST of it may be outstanding. */
  lemma EnqueueSelf(W: World, event: Event, policyVersion: string, id: JobId)
    requires Resolved(W, event, policyVersion, id)
    ensures var W' := Enqueue(W, event, policyVersion, id);
            var row := Upserted(W.jobs, W.projects, event, policyVersion, id, W.now);
            && W'.jobs.Keys == W.jobs.Keys + {id}
            && (W'.jobs[id] == row
                || (W'.jobs[id] == row.(state := Superseded, lease := None)
                    && !IsTerminal(row.state) && !NeedsPublishRecovery(row)))
            && W'.live == (if IsTerminal(W'.jobs[id].state) then W.live else W.live + {id})
            && W'.claimed == W.claimed
            && (id in W.jobs ==> Sent(W', id) == Sent(W, id)) && (id !in W.jobs ==> Sent(W', id) == {})
            && (NeedsPublishRecovery(row) ==> id in W.jobs && row == W.jobs[id] && W'.jobs[id] == row)
  {
  }

  /** The row of any other job after one enqueue. */
  lemma OrderingOther(jobs: Jobs, id: JobId, k: JobId)
    requires id in jobs && k in jobs && k != id
    ensures var jobs' := ApplyPatchSetOrdering(jobs, id);
            && k in jobs' && id in jobs'
            && (jobs'[k] == jobs[k] || jobs'[k] == SupersedeElder(jobs[k]))
            && (Elder(jobs[id], jobs[k]) ==> IsTerminal(jobs'[id].state) || NeedsPublishRecovery(jobs[id]))
            && (Elder(jobs[k], jobs[id]) && !IsTerminal(jobs'[id].state) && !NeedsPublishRecovery(jobs[id]) ==>
                  jobs'[k] == SupersedeElder(jobs[k]))
  {
    hide NeedsPublishRecovery;
    assert Elder(jobs[id], jobs[k]) ==> HasNewer(jobs, jobs[id]);
  }

  lemma EnqueueOther(W: World, event: Event, policyVersion: string, id: JobId, k: JobId)
    requires Resolved(W, event, policyVersion, id) && k in W.jobs && k != id
    ensures var W' := Enqueue(W, event, policyVersion, id);
            var row := Upserted(W.jobs, W.projects, event, policyVersion, id, W.now);
            && k in W'.jobs && id in W'.jobs
            && (W'.jobs[k] == W.jobs[k] || W'.jobs[k] == SupersedeElder(W.jobs[k]))
            && (k in W'.live <==> k in W.live) && Sent(W', k) == Sent(W, k)
            && (Elder(row, W.jobs[k]) ==> IsTerminal(W'.jobs[id].state) || NeedsPublishRecovery(row))
            && (Elder(W.jobs[k], row) && !IsTerminal(W'.jobs[id].state) && !NeedsPublishRecovery(row) ==>
                  W'.jobs[k] == SupersedeElder(W.jobs[k]))
  {
    hide ApplyPatchSetOrdering, SupersedeElder, NeedsPublishRecovery, Elder, IsTerminal;
    OrderingOther(W.jobs[id := Upserted(W.jobs, W.projects, event, policyVersion, id, W.now)], id, k);
  }

  lemma NothingLandedYet(cfg: Config, W: World, id: JobId, kind: Kind)
    requires Inv(cfg, W) && id !in W.jobs
    ensures Landed(W.log, id, kind) == 0
  {
    LandedWitness(W.log, id, kind);
    assert forall i :: 0 <= i < |W.log| ==> PostOk(W.log[i], W.jobs);
  }

  lemma SupersedeKeeps(cfg: Config, v: View, row: Job, now: Time)
    requires ViewOk(cfg, v) && !IsTerminal(v.row.state) && !NeedsPublishRecovery(v.row)
    requires row == v.row.(state := Superseded, lease := None, retryState := row.retryState)
    ensures Keeps(cfg, v, row, None, now)
  {
  }

  lemma ReviveKeeps(cfg: Config, v: View, row: Job, now: Time)
    requires ViewOk(cfg, v) && v.row.state.SkippedScope?
    requires row == v.row.(state := row.state, retryState := None, nextAttemptAt := now)
    requires row.state.Received? || row.state.Superseded?
    ensures RowStep(v.row, row, v.sent, v.sent, None, now) && ViewOk(cfg, v.(row := row, live := true))
  {
  }

  lemma EnqueueKeepsOther(cfg: Config, W: World, event: Event, policyVersion: string, id: JobId, k: JobId)
    requires Inv(cfg, W) && Resolved(W, event, policyVersion, id) && k in W.jobs && k != id
    ensures k in Enqueue(W, event, policyVersion, id).jobs
            && AdminRow(cfg, W, Enqueue(W, event, policyVersion, id), k)
  {
    RowFacts(cfg, W, k);
    EnqueueOther(W, event, policyVersion, id, k);
    var W' := Enqueue(W, event, policyVersion, id);
    var v, row := ViewOf(W, k), W'.jobs[k];
    assert W'.log == W.log && W'.claimed == W.claimed;
    hide Inv, Enqueue, JobOk, RowStep, Upserted;
    if row == v.row {
      RowStepRefl(row, v.sent, None, W.now);
    } else {
      SupersedeKeeps(cfg, v, row, W.now);
    }
  }

  lemma EnqueueKeepsSelf(cfg: Config, W: World, event: Event, policyVersion: string, id: JobId)
    requires Inv(cfg, W) && Resolved(W, event, policyVersion, id) && id in W.jobs
    ensures id in Enqueue(W, event, policyVersion, id).jobs
            && AdminRow(cfg, W, Enqueue(W, event, policyVersion, id), id)
  {
    RowFacts(cfg, W, id);
    EnqueueSelf(W, event, policyVersion, id);
    var W' := Enqueue(W, event, policyVersion, id);
    var v, row := ViewOf(W, id), W'.jobs[id];
    assert W'.log == W.log;
    hide Inv, Enqueue, JobOk, RowStep;
    LiveGrows(cfg, v.(row := row));
    if v.row.state.SkippedScope? && row != v.row {
      SkippedHasNoLease(cfg, v);
      ReviveKeeps(cfg, v, row, W.now);
    } else if row == v.row {
      RowStepRefl(row, v.sent, None, W.now);
    } else {
      SupersedeKeeps(cfg, v, row, W.now);
    }
  }

  /** A live flag may be raised at any time; one nobody claimed on may also stay down. */
  lemma LiveGrows(cfg: Config, v: View)
    ensures ViewOk(cfg, v) ==> ViewOk(cfg, v.(live := true))
    ensures ViewOk(cfg, v.(live := true)) && IsTerminal(v.row.state) && (v.claimed ==> v.live) ==> ViewOk(cfg, v)
  {
  }

  lemma SkippedHasNoLease(cfg: Config, v: View)
    requires ViewOk(cfg, v) && v.row.state.SkippedScope?
    ensures v.row.lease.None? && (v.claimed ==> v.live)
  {
  }

  /** A row as it is born, and possibly superseded at once. */
  lemma BornOk(cfg: Config, row: Job, event: Event, policyVersion: string, predates: bool, now: Time)
    requires var born := NewJob(event, policyVersion, predates, now);
             row == born || (row == born.(state := Superseded, lease := None) && !IsTerminal(born.state))
    ensures JobOk(cfg, row, 0, 0, !IsTerminal(row.state), false, {})
  {
    assert InEpoch({}, 0) == {};
  }

  lemma EnqueueAddsRow(cfg: Config, W: World, event: Event, policyVersion: string, id: JobId)
    requires Inv(cfg, W) && Resolved(W, event, policyVersion, id) && id !in W.jobs
    ensures id in Enqueue(W, event, policyVersion, id).jobs && RowOk(cfg, Enqueue(W, event, policyVersion, id), id)
  {
    var W' := Enqueue(W, event, policyVersion, id);
    NothingLandedYet(cfg, W, id, Comments);
    NothingLandedYet(cfg, W, id, CodeReview);
    EnqueueSelf(W, event, policyVersion, id);
    NotYetKnown(cfg, W, id);
    BornOk(cfg, W'.jobs[id], event, policyVersion, PredatesScope(event, W.projects), W.now);
    hide Inv, EnqueueAt, JobOk, NewJob, PredatesScope, NeedsPublishRecovery, Resolved;
  }

  lemma NotYetKnown(cfg: Config, W: World, id: JobId)
    requires Inv(cfg, W) && id !in W.jobs
    ensures id !in W.claimed && id !in W.live
  {
  }

  lemma PairFacts(cfg: Config, W: World, i: JobId, j: JobId)
    requires Inv(cfg, W)
    ensures i in W.jobs && j in W.jobs ==> PairOk(W.jobs[i], W.jobs[j], j in W.live, j in W.claimed)
    ensures j !in W.jobs ==> j !in W.live && j !in W.claimed
    ensures j in W.jobs && !IsTerminal(W.jobs[j].state) ==> j in W.live
  {
    if j in W.jobs { RowFacts(cfg, W, j); }
    assert PairsOk(W);
  }

  lemma EnqueueKeepsPair(cfg: Config, W: World, event: Event, policyVersion: string, id: JobId, i: JobId, j: JobId)
    requires Inv(cfg, W) && Resolved(W, event, policyVersion, id)
    requires var jobs' := Enqueue(W, event, policyVersion, id).jobs; i in jobs' && j in jobs'
    ensures var W' := Enqueue(W, event, policyVersion, id);
            PairOk(W'.jobs[i], W'.jobs[j], j in W'.live, j in W'.claimed)
  {
    hide Inv, Enqueue;
    PairFacts(cfg, W, i, j);
    EnqueueSelf(W, event, policyVersion, id);
    if i in W.jobs && i != id { EnqueueOther(W, event, policyVersion, id, i); }
    if j in W.jobs && j != id { EnqueueOther(W, event, policyVersion, id, j); }
  }

  lemma EnqueueKeepsPairs(cfg: Config, W: World, event: Event, policyVersion: string, id: JobId)
    requires Inv(cfg, W) && Resolved(W, event, policyVersion, id)
    ensures PairsOk(Enqueue(W, event, policyVersion, id))
  {
    hide Inv, Enqueue, PairOk;
    var W' := Enqueue(W, event, policyVersion, id);
    forall i, j | i in W'.jobs && j in W'.jobs
      ensures PairOk(W'.jobs[i], W'.jobs[j], j in W'.live, j in W'.claimed)
    {
      EnqueueKeepsPair(cfg, W, event, policyVersion, id, i, j);
    }
  }

  lemma {:induction false} EnqueueKeepsInv(cfg: Config, W: World, event: Event, policyVersion: string, id: JobId)
    requires Inv(cfg, W)
    ensures Inv(cfg, Enqueue(W, event, policyVersion, id))
  {
    hide RowStep, RowOk, WorkersOk, PairsOk, LogOk, EnqueueAt, Upserted;
    if Resolved(W, event, policyVersion, id) {
      var W' := Enqueue(W, event, policyVersion, id);
      EnqueueSelf(W, event, policyVersion, id);
      forall k | k in W.jobs ensures AdminRow(cfg, W, W', k) {
        if k == id { EnqueueKeepsSelf(cfg, W, event, policyVersion, id); }
        else { EnqueueKeepsOther(cfg, W, event, policyVersion, id, k); }
      }
      EnqueueKeepsPairs(cfg, W, event, policyVersion, id);
      assert JobsOk(cfg, W') by {
        forall k | k in W'.jobs ensures RowOk(cfg, W', k) {
          if k in W.jobs { assert AdminRow(cfg, W, W', k); } else { EnqueueAddsRow(cfg, W, event, policyVersion, id); }
        }
      }
      AdminKeepsInv(cfg, W, W');
    }
  }
}
