/** What a worker that loads the finding history of a job (`load_finding_history` of jobs/store.py) sees of the
    lower Patch Sets, and when that is what they will always look like. */
module ProtocolHistory {
  import opened Wrappers
  import opened StateMachine
  import opened JobRows
  import opened Protocol
  import opened ProtocolInvariant
  import opened ProtocolRows
  import opened ProtocolSteps
  import opened ProtocolMoves
  import ProtocolSafety
  import Lineage

  /** The branch of `complete_publication_and_mark_done` that takes a SUPERSEDED job to DONE, without a lease. */
  predicate LateCompletion(W: World, action: Action, elder: JobId) {
    && action.ACompleteNow? && Acting(W, action.w) && W.workers[action.w].pc.Completing?
    && W.workers[action.w].pc.job == elder
    && W.jobs[elder].state.Superseded? && W.jobs[elder].publication.Some?
  }

  predicate IsDone(W: World, id: JobId) {
    id in W.jobs && W.jobs[id].state.Done?
  }

  /** Job `id` was claimed, and `elder` is a lower Patch Set of its change as soon as it is stored. */
  ghost predicate Below(W: World, elder: JobId, id: JobId) {
    id in W.claimed && id in W.jobs && (elder in W.jobs ==> Elder(W.jobs[elder], W.jobs[id]))
  }

  // ---- One step ---------------------------------------------------------------------------

  lemma ElderFacts(cfg: Config, W: World, elder: JobId, id: JobId)
    requires Inv(cfg, W) && Below(W, elder, id) && elder in W.jobs
    ensures IsTerminal(W.jobs[elder].state) && W.jobs[elder].lease.None? && HasNewer(W.jobs, W.jobs[elder])
    ensures W.jobs[elder].publication.Some? ==> !W.jobs[elder].state.SkippedScope?
  {
    RowFacts(cfg, W, elder);
    assert PairOk(W.jobs[elder], W.jobs[id], id in W.live, id in W.claimed);
    hide Inv, JobOk;
    ElderRow(cfg, ViewOf(W, elder));
  }

  lemma ElderRow(cfg: Config, v: View)
    requires ViewOk(cfg, v) && IsTerminal(v.row.state)
    ensures v.row.lease.None? && (v.row.publication.Some? ==> !v.row.state.SkippedScope?)
  {
  }

  /** What the three steps that may touch a terminal row do to such a row. */
  lemma EnqueueSpares(W: World, event: Event, policyVersion: string, target: JobId, elder: JobId)
    requires elder in W.jobs && IsTerminal(W.jobs[elder].state) && HasNewer(W.jobs, W.jobs[elder])
    ensures var W' := Enqueue(W, event, policyVersion, target);
            && elder in W'.jobs
            && (W'.jobs[elder].state == W.jobs[elder].state
                || (W.jobs[elder].state.SkippedScope? && W'.jobs[elder].state.Superseded?))
  {
    hide PredatesScope, Elder;
    var row := W.jobs[elder].(state := Received, retryState := None, nextAttemptAt := W.now);
    StillHasNewer(W.jobs, elder, row);
    StillHasNewer(W.jobs, elder, W.jobs[elder]);
    hide HasNewer;
  }

  lemma StillHasNewer(jobs: Jobs, elder: JobId, row: Job)
    requires elder in jobs && HasNewer(jobs, jobs[elder])
    requires row.identity == jobs[elder].identity && row.patchset == jobs[elder].patchset
    ensures HasNewer(jobs[elder := row], row)
  {
    var k :| k in jobs && Elder(jobs[elder], jobs[k]);
    assert k != elder;
    assert Elder(row, jobs[elder := row][k]);
  }

  lemma RequeueSpares(W: World, target: JobId, elder: JobId)
    requires elder in W.jobs && HasNewer(W.jobs, W.jobs[elder])
    ensures elder in Requeue(W, target).jobs && Requeue(W, target).jobs[elder] == W.jobs[elder]
  {
    hide HasNewer;
  }

  lemma CompleteSpares(W: World, w: WorkerId, elder: JobId)
    requires elder in W.jobs && IsTerminal(W.jobs[elder].state)
    ensures var W' := CompleteNow(W, w);
            && elder in W'.jobs
            && (LateCompletion(W, ACompleteNow(w), elder) ==> W'.jobs[elder].state.Done?)
            && (!LateCompletion(W, ACompleteNow(w), elder) ==> W'.jobs[elder].state == W.jobs[elder].state)
  {
  }

  lemma SpecialStepIs(cfg: Config, W: World, action: Action)
    ensures action.AEnqueue? ==> Next(cfg, W, action) == Enqueue(W, action.event, action.policyVersion, action.id)
    ensures action.ARequeue? ==> Next(cfg, W, action) == Requeue(W, action.id)
    ensures action.ACompleteNow? ==> Next(cfg, W, action) == CompleteNow(W, action.w)
  {
    hide Enqueue, Requeue, CompleteNow;
  }

  /** After the first claim above it, a lower Patch Set changes its state in one of two ways only: a skipped one is
      superseded, and a superseded one is completed late. */
  lemma ElderStep(cfg: Config, W: World, action: Action, elder: JobId, id: JobId)
    requires Inv(cfg, W) && Below(W, elder, id) && elder in W.jobs
    ensures var W' := Next(cfg, W, action);
            && Below(W', elder, id) && elder in W'.jobs
            && W'.jobs[elder].result == W.jobs[elder].result
            && (W'.jobs[elder].publication.Some? ==> W.jobs[elder].publication.Some?)
            && (LateCompletion(W, action, elder) ==> W'.jobs[elder].state.Done?)
            && (!LateCompletion(W, action, elder) ==>
                  W'.jobs[elder].state == W.jobs[elder].state
                  || (W.jobs[elder].state.SkippedScope? && W'.jobs[elder].state.Superseded?))
  {
    hide Next, Inv, Enqueue, Requeue, CompleteNow, HasNewer, SameReviews, ReviewBound, PcMoves, LateCompletion;
    ElderFacts(cfg, W, elder, id);
    StepMoves(cfg, W, action, elder);
    StepMoves(cfg, W, action, id);
    SpecialStepIs(cfg, W, action);
    OnlyCompletion(W, action, elder);
    if action.AEnqueue? { EnqueueSpares(W, action.event, action.policyVersion, action.id, elder); }
    if action.ARequeue? { RequeueSpares(W, action.id, elder); }
    if action.ACompleteNow? { CompleteSpares(W, action.w, elder); }
  }

  lemma OnlyCompletion(W: World, action: Action, elder: JobId)
    ensures LateCompletion(W, action, elder) ==> action.ACompleteNow? && action == ACompleteNow(action.w)
  {
  }

  /** A lower Patch Set that arrives after the claim is born superseded or skipped. */
  lemma LateElder(cfg: Config, W: World, action: Action, elder: JobId, id: JobId)
    requires Inv(cfg, W) && Below(W, elder, id) && elder !in W.jobs
    requires elder in Next(cfg, W, action).jobs ==> Elder(Next(cfg, W, action).jobs[elder], W.jobs[id])
    ensures var W' := Next(cfg, W, action);
            && Below(W', elder, id)
            && (elder in W'.jobs ==>
                  && (W'.jobs[elder].state.Superseded? || W'.jobs[elder].state.SkippedScope?)
                  && W'.jobs[elder].result.None? && W'.jobs[elder].publication.None?)
  {
    hide Next, Inv, Enqueue, HasNewer, SameReviews, ReviewBound, PcMoves, Calm;
    StepMoves(cfg, W, action, elder);
    StepMoves(cfg, W, action, id);
    SpecialStepIs(cfg, W, action);
    if elder in Next(cfg, W, action).jobs {
      BornElder(W, action.event, action.policyVersion, action.id, elder, id);
    }
  }

  lemma BornElder(W: World, event: Event, policyVersion: string, target: JobId, elder: JobId, id: JobId)
    requires elder !in W.jobs && id in W.jobs && elder in Enqueue(W, event, policyVersion, target).jobs
    requires Elder(Enqueue(W, event, policyVersion, target).jobs[elder], W.jobs[id])
    ensures var row := Enqueue(W, event, policyVersion, target).jobs[elder];
            (row.state.Superseded? || row.state.SkippedScope?) && row.result.None? && row.publication.None?
  {
    var row := NewJob(event, policyVersion, PredatesScope(event, W.projects), W.now);
    assert Elder(row, W.jobs[elder := row][id]);
    assert HasNewer(W.jobs[elder := row], row);
    hide HasNewer, PredatesScope;
  }

  // ---- Runs -------------------------------------------------------------------------------

  /** No lower Patch Set is completed late. */
  ghost predicate NoLateCompletion(cfg: Config, W: World, later: seq<Action>, elder: JobId) {
    forall k :: 0 <= k < |later| ==> !LateCompletion(Run(cfg, W, later[..k]), later[k], elder)
  }

  /** A finding of the history as it is stored with a result: the text of the result, decoded. */
  type Decoder = string -> (Option<bool>, seq<Lineage.Id>, seq<Lineage.Tag>)

  /** What the history query finds of one job. */
  function Snapshot(W: World, id: JobId, decode: Decoder): Lineage.Review {
    if id in W.jobs && W.jobs[id].result.Some? then
      var (complete, findings, tags) := decode(W.jobs[id].result.value);
      Lineage.Review(W.jobs[id].state.Done?, complete, findings, tags)
    else Lineage.Review(false, None, [], [])
  }

  lemma SnapshotStep(cfg: Config, W: World, action: Action, elder: JobId, id: JobId, decode: Decoder)
    requires Inv(cfg, W) && Below(W, elder, id) && !LateCompletion(W, action, elder)
    requires elder in Next(cfg, W, action).jobs ==> Elder(Next(cfg, W, action).jobs[elder], W.jobs[id])
    ensures var W' := Next(cfg, W, action);
            && Below(W', elder, id) && (IsDone(W', elder) <==> IsDone(W, elder))
            && Snapshot(W', elder, decode) == Snapshot(W, elder, decode)
  {
    hide Next, Inv, LateCompletion;
    if elder in W.jobs { ElderStep(cfg, W, action, elder, id); } else { LateElder(cfg, W, action, elder, id); }
  }

  lemma ElderBefore(cfg: Config, W: World, action: Action, elder: JobId, id: JobId)
    requires id in W.jobs
    requires var W' := Next(cfg, W, action);
             id in W'.jobs && (elder in W'.jobs ==> Elder(W'.jobs[elder], W'.jobs[id]))
    ensures elder in W.jobs ==> Elder(W.jobs[elder], W.jobs[id])
    ensures elder in Next(cfg, W, action).jobs ==> Elder(Next(cfg, W, action).jobs[elder], W.jobs[id])
  {
    hide Next, Inv, Calm, PcMoves;
    StepMoves(cfg, W, action, elder);
    StepMoves(cfg, W, action, id);
  }

  lemma ClaimedStored(cfg: Config, W: World, id: JobId)
    requires Inv(cfg, W) && id in W.claimed
    ensures id in W.jobs
  {
  }

  lemma FirstSteps(later: seq<Action>)
    requires later != []
    ensures forall k :: 0 <= k < |later| ==> later[..|later| - 1][..k] == later[..k]
  {
  }

  /** A lower Patch Set looks to the end of the run as it looked when the higher one was claimed, unless it is
      completed late in between. */
  lemma {:induction false} ElderIsFinal(cfg: Config, W: World, later: seq<Action>, elder: JobId, id: JobId, decode: Decoder)
    requires Inv(cfg, W) && id in W.claimed && NoLateCompletion(cfg, W, later, elder)
    requires var E := Run(cfg, W, later);
             id in E.jobs && (elder in E.jobs ==> Elder(E.jobs[elder], E.jobs[id]))
    ensures var E := Run(cfg, W, later);
            && Inv(cfg, E) && Below(E, elder, id) && (IsDone(E, elder) <==> IsDone(W, elder))
            && Snapshot(E, elder, decode) == Snapshot(W, elder, decode)
    decreases |later|
  {
    hide Next, Inv, LateCompletion, Snapshot, Elder;
    if later == [] {
    } else {
      var before, action := later[..|later| - 1], later[|later| - 1];
      var P := Run(cfg, W, before);
      ProtocolSafety.ClaimedStays(cfg, W, before, id);
      RunKeeps(cfg, W, before);
      ClaimedStored(cfg, P, id);
      ElderBefore(cfg, P, action, elder, id);
      FirstSteps(later);
      ElderIsFinal(cfg, W, before, elder, id, decode);
      SnapshotStep(cfg, P, action, elder, id, decode);
      ProtocolSafety.StepKeepsInv(cfg, P, action);
    }
  }

  lemma {:induction false} RunKeeps(cfg: Config, W: World, later: seq<Action>)
    requires Inv(cfg, W)
    ensures Inv(cfg, Run(cfg, W, later))
    decreases |later|
  {
    hide Next, Inv;
    if later != [] {
      RunKeeps(cfg, W, later[..|later| - 1]);
      ProtocolSafety.StepKeepsInv(cfg, Run(cfg, W, later[..|later| - 1]), later[|later| - 1]);
    }
  }

  lemma {:induction false} DoneStays(cfg: Config, W: World, later: seq<Action>, elder: JobId, id: JobId)
    requires Inv(cfg, W) && id in W.claimed && IsDone(W, elder)
    requires var E := Run(cfg, W, later); id in E.jobs && (elder in E.jobs ==> Elder(E.jobs[elder], E.jobs[id]))
    ensures IsDone(Run(cfg, W, later), elder)
    decreases |later|
  {
    hide Next, Inv, LateCompletion, Elder;
    if later != [] {
      var before, action := later[..|later| - 1], later[|later| - 1];
      var P := Run(cfg, W, before);
      ProtocolSafety.ClaimedStays(cfg, W, before, id);
      RunKeeps(cfg, W, before);
      ClaimedStored(cfg, P, id);
      ElderBefore(cfg, P, action, elder, id);
      DoneStays(cfg, W, before, elder, id);
      ElderStep(cfg, P, action, elder, id);
    }
  }

  lemma LateIsNotDone(W: World, action: Action, elder: JobId)
    requires LateCompletion(W, action, elder)
    ensures !IsDone(W, elder) && elder in W.jobs
  {
  }

  lemma {:induction false} ElderAlong(cfg: Config, W: World, later: seq<Action>, elder: JobId, id: JobId)
    requires id in W.jobs
    requires var E := Run(cfg, W, later); id in E.jobs && (elder in E.jobs ==> Elder(E.jobs[elder], E.jobs[id]))
    ensures elder in W.jobs ==> Elder(W.jobs[elder], W.jobs[id])
    decreases |later|
  {
    hide Next, Elder;
    if later != [] {
      var before := later[..|later| - 1];
      ProtocolSafety.JobsStay(cfg, W, before, id);
      ElderBefore(cfg, Run(cfg, W, before), later[|later| - 1], elder, id);
      ElderAlong(cfg, W, before, elder, id);
    }
  }

  lemma SplitAt(cfg: Config, W: World, later: seq<Action>, k: nat)
    requires k <= |later|
    ensures Run(cfg, W, later) == Run(cfg, Run(cfg, W, later[..k]), later[k..])
    ensures k < |later| ==> Run(cfg, W, later[..k + 1]) == Next(cfg, Run(cfg, W, later[..k]), later[k])
  {
    hide Next;
    assert later[..k] + later[k..] == later;
    ProtocolSafety.RunSplits(cfg, W, later[..k], later[k..]);
    if k < |later| { assert later[..k + 1][..k] == later[..k]; }
  }

  /** A late completion shows: the job was not DONE at the claim, and it is at the end. */
  lemma LateCompletionShows(cfg: Config, W: World, later: seq<Action>, k: nat, elder: JobId, id: JobId)
    requires Inv(cfg, W) && id in W.claimed && k < |later|
    requires LateCompletion(Run(cfg, W, later[..k]), later[k], elder)
    requires var E := Run(cfg, W, later); id in E.jobs && (elder in E.jobs ==> Elder(E.jobs[elder], E.jobs[id]))
    ensures !IsDone(W, elder) && IsDone(Run(cfg, W, later), elder)
  {
    hide Next, Inv, LateCompletion, Elder, IsDone;
    var P := Run(cfg, W, later[..k]);
    SplitAt(cfg, W, later, k);
    SplitAt(cfg, W, later, k + 1);
    LateIsNotDone(P, later[k], elder);
    RunKeeps(cfg, W, later[..k]);
    ProtocolSafety.ClaimedStays(cfg, W, later[..k], id);
    ClaimedStored(cfg, P, id);
    ElderAlong(cfg, P, later[k..], elder, id);
    if IsDone(W, elder) { DoneStays(cfg, W, later[..k], elder, id); }
    ElderStep(cfg, P, later[k], elder, id);
    ProtocolSafety.StepKeepsInv(cfg, P, later[k]);
    CompletedIsDone(cfg, P, later[k], elder);
    DoneStays(cfg, Run(cfg, W, later[..k + 1]), later[k + 1..], elder, id);
  }

  lemma CompletedIsDone(cfg: Config, W: World, action: Action, elder: JobId)
    requires LateCompletion(W, action, elder)
    ensures IsDone(Next(cfg, W, action), elder)
  {
    SpecialStepIs(cfg, W, action);
    hide Next;
  }

  /** From any moment after the claim on, whether a lower Patch Set is DONE is final if and only if no completion of
      a SUPERSEDED publication of it comes later. */
  lemma DoneIsFinal(cfg: Config, now: Time, first: seq<Action>, later: seq<Action>, elder: JobId, id: JobId)
    requires cfg.leaseSeconds > 0 && id in Run(cfg, Init(now), first).claimed
    requires var E := Run(cfg, Run(cfg, Init(now), first), later);
             id in E.jobs && (elder in E.jobs ==> Elder(E.jobs[elder], E.jobs[id]))
    ensures var W := Run(cfg, Init(now), first);
            (IsDone(Run(cfg, W, later), elder) <==> IsDone(W, elder)) <==> NoLateCompletion(cfg, W, later, elder)
  {
    hide Inv, Init, IsDone, LateCompletion, Elder, Snapshot;
    var W := Run(cfg, Init(now), first);
    ProtocolSafety.RunKeepsInv(cfg, now, first);
    if NoLateCompletion(cfg, W, later, elder) {
      ElderIsFinal(cfg, W, later, elder, id, _ => (None, [], []));
    } else {
      var k :| 0 <= k < |later| && LateCompletion(Run(cfg, W, later[..k]), later[k], elder);
      LateCompletionShows(cfg, W, later, k, elder, id);
    }
  }

  // ---- A condition at the claim -----------------------------------------------------------

  /** Nobody alive still works on the lower Patch Set, or there is nothing left that could be completed late. */
  ghost predicate Settled(W: World, elder: JobId) {
    elder in W.jobs && W.jobs[elder].state.Superseded? && W.jobs[elder].publication.Some? ==>
      forall u :: u in W.workers && W.workers[u].alive && !W.workers[u].pc.Idle? ==> W.workers[u].pc.job != elder
  }

  lemma ClaimRefused(cfg: Config, W: World, u: WorkerId, elder: JobId)
    requires elder in W.jobs && IsTerminal(W.jobs[elder].state)
    ensures Next(cfg, W, AClaim(u, elder)) == W
  {
    hide HasNewer;
  }

  /** Nobody starts to work on a terminal job. */
  lemma NobodyComes(cfg: Config, W: World, action: Action, u: WorkerId, elder: JobId)
    requires elder in W.jobs && IsTerminal(W.jobs[elder].state)
    requires var W' := Next(cfg, W, action);
             u in W'.workers && W'.workers[u].alive && !W'.workers[u].pc.Idle? && W'.workers[u].pc.job == elder
    ensures u in W.workers && W.workers[u].alive && !W.workers[u].pc.Idle? && W.workers[u].pc.job == elder
  {
    hide Next, Inv, Calm, RowMoves, Appends;
    if action.AClaim? && action.id == elder { ClaimRefused(cfg, W, action.w, elder); }
    StepMoves(cfg, W, action, u);
    assert PcMoves(cfg, W, Next(cfg, W, action), action, u);
  }

  lemma SettledStep(cfg: Config, W: World, action: Action, elder: JobId, id: JobId)
    requires Inv(cfg, W) && Below(W, elder, id) && Settled(W, elder)
    requires elder in Next(cfg, W, action).jobs ==> Elder(Next(cfg, W, action).jobs[elder], W.jobs[id])
    ensures !LateCompletion(W, action, elder) && Settled(Next(cfg, W, action), elder)
  {
    hide Next, Inv, Elder;
    var W' := Next(cfg, W, action);
    if elder !in W.jobs {
      LateElder(cfg, W, action, elder, id);
    } else {
      ElderStep(cfg, W, action, elder, id);
      ElderFacts(cfg, W, elder, id);
      forall u | u in W'.workers && W'.workers[u].alive && !W'.workers[u].pc.Idle? && W'.workers[u].pc.job == elder
        ensures u in W.workers && W.workers[u].alive && !W.workers[u].pc.Idle? && W.workers[u].pc.job == elder
      {
        NobodyComes(cfg, W, action, u, elder);
      }
    }
  }

  /** If nobody works on a lower Patch Set any more when the higher one is claimed, its state is final. */
  lemma {:induction false} SettledIsFinal(cfg: Config, W: World, later: seq<Action>, elder: JobId, id: JobId)
    requires Inv(cfg, W) && id in W.claimed && Settled(W, elder)
    requires var E := Run(cfg, W, later); id in E.jobs && (elder in E.jobs ==> Elder(E.jobs[elder], E.jobs[id]))
    ensures NoLateCompletion(cfg, W, later, elder) && Settled(Run(cfg, W, later), elder)
    decreases |later|
  {
    hide Next, Inv, LateCompletion, Settled, Elder;
    if later != [] {
      var before, action := later[..|later| - 1], later[|later| - 1];
      var P := Run(cfg, W, before);
      ProtocolSafety.ClaimedStays(cfg, W, before, id);
      RunKeeps(cfg, W, before);
      ClaimedStored(cfg, P, id);
      ElderBefore(cfg, P, action, elder, id);
      SettledIsFinal(cfg, W, before, elder, id);
      SettledStep(cfg, P, action, elder, id);
      FirstSteps(later);
      forall k | 0 <= k < |later| ensures !LateCompletion(Run(cfg, W, later[..k]), later[k], elder) {
        if k < |before| { assert !LateCompletion(Run(cfg, W, before[..k]), before[k], elder); }
      }
    }
  }

  // ---- Findings over the Patch Sets of a run ----------------------------------------------

  function Snapshots(W: World, ids: seq<JobId>, decode: Decoder): (reviews: seq<Lineage.Review>)
    ensures |reviews| == |ids| && forall i :: 0 <= i < |ids| ==> reviews[i] == Snapshot(W, ids[i], decode)
  {
    seq(|ids|, i requires 0 <= i < |ids| => Snapshot(W, ids[i], decode))
  }

  /** The jobs of one change and policy version, one per Patch Set, in Patch Set order. */
  ghost predicate Chain(W: World, ids: seq<JobId>) {
    && (forall i :: 0 <= i < |ids| ==> ids[i] in W.jobs)
    && forall i, j :: 0 <= i < j < |ids| ==> Elder(W.jobs[ids[i]], W.jobs[ids[j]])
  }

  /** The stored tags of job `ids[p]` were computed from the history that a worker loaded after `load` steps of the
      run, within a claim of the job; and no lower Patch Set was completed late after that. */
  ghost predicate LoadedAt(cfg: Config, now: Time, actions: seq<Action>, ids: seq<JobId>, decode: Decoder, p: nat, load: nat)
    requires p < |ids|
  {
    && load <= |actions|
    && var L, E := Run(cfg, Init(now), actions[..load]), Run(cfg, Init(now), actions);
    && var review := Snapshot(E, ids[p], decode);
    && ids[p] in L.claimed
    && review.tags == Lineage.Tags(review.findings, Lineage.LoadHistory(Snapshots(L, ids[..p], decode)))
    && forall i :: 0 <= i < p ==> NoLateCompletion(cfg, L, actions[load..], ids[i])
  }

  lemma HistoryIsFinal(cfg: Config, now: Time, actions: seq<Action>, ids: seq<JobId>, decode: Decoder, p: nat, load: nat)
    requires cfg.leaseSeconds > 0 && p < |ids| && Chain(Run(cfg, Init(now), actions), ids)
    requires LoadedAt(cfg, now, actions, ids, decode, p, load)
    ensures Snapshots(Run(cfg, Init(now), actions[..load]), ids[..p], decode)
         == Snapshots(Run(cfg, Init(now), actions), ids, decode)[..p]
  {
    hide Inv, Next, Init, Snapshot, NoLateCompletion, Elder, Run;
    var L, E := Run(cfg, Init(now), actions[..load]), Run(cfg, Init(now), actions);
    ProtocolSafety.RunKeepsInv(cfg, now, actions[..load]);
    SplitAt(cfg, Init(now), actions, load);
    forall i | 0 <= i < p ensures Snapshot(L, ids[i], decode) == Snapshot(E, ids[i], decode) {
      ElderIsFinal(cfg, L, actions[load..], ids[i], ids[p], decode);
    }
  }

  /** An id is NEW in the first DONE Patch Set that reports it and in no other, if every stored review was tagged
      against a history that no late completion changed afterwards. */
  lemma NewOncePerRun(cfg: Config, now: Time, actions: seq<Action>, ids: seq<JobId>, decode: Decoder, loads: seq<nat>,
                      q: nat, finding: Lineage.Id) returns (p: nat)
    requires cfg.leaseSeconds > 0 && Chain(Run(cfg, Init(now), actions), ids) && |loads| == |ids|
    requires forall k :: 0 <= k < |ids| && Snapshot(Run(cfg, Init(now), actions), ids[k], decode).done ==>
               LoadedAt(cfg, now, actions, ids, decode, k, loads[k])
    requires q < |ids|
    requires var review := Snapshot(Run(cfg, Init(now), actions), ids[q], decode);
             review.done && finding in review.findings
    ensures var reviews := Snapshots(Run(cfg, Init(now), actions), ids, decode);
            && p <= q && Lineage.IsNewIn(reviews, p, finding)
            && forall other :: Lineage.IsNewIn(reviews, other, finding) ==> other == p
  {
    hide Next, Init, Snapshot, Chain, Run;
    var reviews := Snapshots(Run(cfg, Init(now), actions), ids, decode);
    forall k | 0 <= k < |reviews| && reviews[k].done
      ensures reviews[k].tags == Lineage.Tags(reviews[k].findings, Lineage.LoadHistory(reviews[..k]))
    {
      HistoryIsFinal(cfg, now, actions, ids, decode, k, loads[k]);
    }
    p := Lineage.NewExactlyOnce(reviews, q, finding);
  }
}
