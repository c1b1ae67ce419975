/** The inductive invariant of the protocol: what a job row, a worker and Gerrit's log always
    agree on, and the frame lemmas that carry it over a step. */
module ProtocolInvariant {
  import opened Wrappers
  import opened StateMachine
  import opened JobRows
  import opened Protocol

  function InEpoch(sent: set<nat>, epochStart: nat): set<nat> {
    set a | a in sent && a >= epochStart
  }

  /** Everything one job's row owes: its columns, its landed POSTs and its history. */
  ghost predicate JobOk(cfg: Config, row: Job, comments: nat, votes: nat, live: bool, claimed: bool, sent: set<nat>) {
    // the row itself
    && (IsTerminal(row.state) ==> row.lease.None?)
    && (row.state.RetryWait? ==> row.lease.None? && row.retryState.Some? && ValidRetryTarget(row.retryState.value))
    && !row.state.FailedTransient?
    && (IsPublishState(row.state) ==> row.result.Some?)
    && (row.state.RetryWait? && IsPublishState(row.retryState.value) ==> row.result.Some?)
    && (row.publication.Some? ==>
          row.result.Some? && !row.state.SkippedScope? && (IsTerminal(row.state) || NeedsPublishRecovery(row)))
    && (row.vote.Some? ==> row.publication.Some? && row.vote.value.attempts <= cfg.publishAttempts)
    // Gerrit's log
    && comments <= 1 && votes <= 1
    && (comments > 0 ==> row.publication.Some? && claimed)
    && (row.publication.Some? && row.publication.value.status.Posted? ==> comments > 0)
    && (row.vote.Some? || votes > 0 ==> comments > 0)
    && (votes > 0 ==> row.vote.Some? && row.vote.value.account.Some?)
    && (row.vote.Some? && row.vote.value.status.VoteApplied? ==> votes > 0)
    // history
    && (!IsTerminal(row.state) ==> live)
    && (row.lease.Some? || row.state.FailedPermanent? ==> claimed)
    && (claimed ==> live)
    && row.epochStart <= |row.attempts|
    && (forall a :: a in sent ==> a < |row.attempts| && row.attempts[a].stage.PublishStage?)
    && |InEpoch(sent, row.epochStart)| <= cfg.publishAttempts
    && (comments == 0 ==> forall a :: a in sent && a >= row.epochStart ==> Consumed(row.attempts[a]))
  }

  predicate SeenOk(seen: Option<Publication>, row: Job, comments: nat) {
    seen.Some? ==> PayloadOk(seen.value.payload, row) && (seen.value.status.Posted? ==> comments > 0)
  }

  predicate PayloadOk(payload: string, row: Job) {
    row.publication.Some? && row.publication.value.payload == payload
  }

  /** An open PUBLISH attempt of worker `w` under which nothing was sent yet. */
  predicate FreshAttempt(a: nat, row: Job, w: WorkerId, sent: set<nat>) {
    a < |row.attempts| && row.attempts[a] == Attempt(PublishStage, w, Unfinished) && a !in sent
  }

  /** A REVIEW attempt of worker `w`. */
  predicate OwnReview(a: nat, row: Job, w: WorkerId) {
    a < |row.attempts| && row.attempts[a].stage.ReviewStage? && row.attempts[a].worker == w
  }

  /** A loaded vote that may still be cast by `account`. */
  predicate Castable(cfg: Config, vote: Vote, account: AccountId) {
    && Undecided(cfg, vote)
    && (vote.account.None? || vote.account.value == account)
    && vote.attempts < cfg.publishAttempts
  }

  /** A vote that is not terminal and has retries left. */
  predicate Undecided(cfg: Config, vote: Vote) {
    !IsTerminalVote(vote.status) && vote.retryCount < cfg.publishAttempts
  }

  /** What a worker at `pc` may rely on.  Facts under `OwnedBy` hold only while nobody has taken the
      job over; the others are stable whoever owns it. */
  ghost predicate PcOk(cfg: Config, pc: Pc, w: WorkerId, account: AccountId, row: Job, comments: nat, votes: nat,
                       sent: set<nat>, now: Time)
  {
    var owned := OwnedBy(row, w);
    match pc
    case Idle => true
    case InReview(_) => owned ==> IsReviewState(row.state)
    case StreakRead(_) => owned ==> IsReviewState(row.state)
    case ReviewAllowed(_) => owned ==> IsReviewState(row.state)
    case ReviewRunning(_, a) => OwnReview(a, row, w) && (owned ==> IsReviewState(row.state))
    case ReviewFailed(_) => owned ==> IsReviewState(row.state)
    case ReviewSaved(_, a) => OwnReview(a, row, w)
    case PublishClaimed(_, state) => IsPublishState(state) && row.result.Some? && (owned ==> row.state == state)
    case PublicationRead(_, state, seen) =>
      IsPublishState(state) && SeenOk(seen, row, comments) && (owned ==> row.state == state)
    case LatestPatchSet(_, seen) => SeenOk(seen, row, comments) && (owned ==> row.state.ReadyToPublish?)
    case InPublishing(_, seen) => SeenOk(seen, row, comments) && (owned ==> row.state.Publishing?)
    case Reconciling(_, payload) => PayloadOk(payload, row) && (owned ==> row.state.Publishing?)
    case ObservedAbsent(_, payload) => PayloadOk(payload, row) && (owned ==> row.state.Publishing? && comments == 0)
    case PublishAllowed(_, payload) =>
      PayloadOk(payload, row)
      && (owned ==> row.state.Publishing? && comments == 0 && |InEpoch(sent, row.epochStart)| < cfg.publishAttempts)
    case AttemptStarted(_, payload, a) =>
      PayloadOk(payload, row) && FreshAttempt(a, row, w, sent)
      && (owned ==> row.state.Publishing? && comments == 0 && |InEpoch(sent, row.epochStart)| < cfg.publishAttempts)
    case UncertaintyMarked(_, payload, a) =>
      PayloadOk(payload, row) && FreshAttempt(a, row, w, sent)
      && (owned ==> row.state.Publishing? && comments == 0 && |InEpoch(sent, row.epochStart)| < cfg.publishAttempts)
    case Posting(_, payload, a, deadline, landed) =>
      && PayloadOk(payload, row)
      && a < |row.attempts| && row.attempts[a].stage.PublishStage? && row.attempts[a].worker == w
      && (landed ==> comments > 0)
      && deadline <= now + cfg.leaseSeconds
      && (!landed && now < deadline ==>
            owned && row.state.Publishing? && deadline <= row.lease.value.expires && comments == 0)
    case Acknowledged(_, a) =>
      comments > 0 && a < |row.attempts| && row.attempts[a].stage.PublishStage? && row.attempts[a].worker == w
    case ResolvingSuperseded(_) => owned ==> IsPublishState(row.state)
    case Leaving(_, open, dispatched) =>
      open.Some? ==>
        && open.value < |row.attempts|
        && row.attempts[open.value].stage.PublishStage? && row.attempts[open.value].worker == w
        && (!dispatched ==> open.value !in sent)
    case Rescheduling(_, resume) =>
      owned ==> resume == row.state || (row.state.ReadyToPublish? && resume.Publishing?)
    case Completing(_, _) => comments > 0
    case VoteEnsured(_, _) => comments > 0 && (owned ==> row.state.Publishing?)
    case VoteDeferred(_, _) => comments > 0 && (owned ==> row.state.Publishing?)
    case VoteLoaded(_, _, vote) =>
      && comments > 0 && (vote.status.VoteApplied? ==> votes > 0)
      && (owned ==> row.state.Publishing? && row.vote == Some(vote))
    case VoteAbsent(_) => comments > 0 && (owned ==> votes == 0 && CastableRow(cfg, row, account))
    case VoteGuarded(_) => comments > 0 && (owned ==> votes == 0 && CastableRow(cfg, row, account))
    case VoteDispatched(_) =>
      && comments > 0
      && row.vote.Some? && row.vote.value.account == Some(account)
      && (owned ==> votes == 0 && row.state.Publishing? && Undecided(cfg, row.vote.value))
    case VotePosting(_, deadline, landed) =>
      && comments > 0
      && row.vote.Some? && row.vote.value.account == Some(account)
      && (landed ==> votes > 0)
      && deadline <= now + cfg.leaseSeconds
      && (owned ==> row.state.Publishing? && Undecided(cfg, row.vote.value))
      && (!landed && now < deadline ==>
            owned && row.state.Publishing? && deadline <= row.lease.value.expires && votes == 0)
    case VoteRetrying(_, posted) =>
      owned ==>
        && row.state.Publishing? && row.vote.Some? && !IsTerminalVote(row.vote.value.status)
        && (posted ==> Undecided(cfg, row.vote.value))
    case VoteRetried(_, posted, count) =>
      owned ==>
        && row.state.Publishing? && row.vote.Some? && row.vote.value.retryCount == count
        && (posted ==> count <= cfg.publishAttempts)
    case VoteFinishing(_, status, _) => IsTerminalVote(status) && (status.VoteApplied? ==> votes > 0)
  }

  predicate CastableRow(cfg: Config, row: Job, account: AccountId) {
    row.state.Publishing? && row.vote.Some? && Castable(cfg, row.vote.value, account)
  }

  /** Once `newer` was live every earlier Patch Set is terminal or awaits publish recovery, and once
      it was claimed every earlier one is terminal. */
  predicate PairOk(older: Job, newer: Job, live: bool, claimed: bool) {
    Elder(older, newer) ==>
      && (live ==> IsTerminal(older.state) || NeedsPublishRecovery(older))
      && (claimed ==> IsTerminal(older.state))
  }

  ghost predicate PostOk(post: Post, jobs: Jobs) {
    && post.job in jobs
    && jobs[post.job].publication.Some?
    && (post.kind.Comments? ==> post.payload == jobs[post.job].publication.value.payload)
    && (post.kind.CodeReview? ==>
          jobs[post.job].vote.Some? && jobs[post.job].vote.value.account == Some(post.account))
  }

  function Sent(W: World, id: JobId): set<nat> {
    if id in W.dispatched then W.dispatched[id] else {}
  }

  ghost predicate RowOk(cfg: Config, W: World, id: JobId)
    requires id in W.jobs
  {
    JobOk(cfg, W.jobs[id], Landed(W.log, id, Comments), Landed(W.log, id, CodeReview),
          id in W.live, id in W.claimed, Sent(W, id))
  }

  ghost predicate JobsOk(cfg: Config, W: World) {
    forall id :: id in W.jobs ==> RowOk(cfg, W, id)
  }

  ghost predicate WorkerOk(cfg: Config, W: World, w: WorkerId)
    requires w in W.workers
  {
    var worker := W.workers[w];
    !worker.pc.Idle? ==>
      && worker.pc.job in W.jobs
      && PcOk(cfg, worker.pc, w, worker.account, W.jobs[worker.pc.job], Landed(W.log, worker.pc.job, Comments),
              Landed(W.log, worker.pc.job, CodeReview), Sent(W, worker.pc.job), W.now)
  }

  ghost predicate WorkersOk(cfg: Config, W: World) {
    forall w :: w in W.workers ==> WorkerOk(cfg, W, w)
  }

  ghost predicate PairsOk(W: World) {
    forall i, j :: i in W.jobs && j in W.jobs ==> PairOk(W.jobs[i], W.jobs[j], j in W.live, j in W.claimed)
  }

  /** Gerrit's log: stored payloads only, and comment reviews of a change in Patch Set order. */
  ghost predicate LogOk(W: World) {
    && (forall i :: 0 <= i < |W.log| ==> PostOk(W.log[i], W.jobs))
    && (forall a, b :: 0 <= a < b < |W.log| && W.log[a].kind.Comments? && W.log[b].kind.Comments?
                       && SameChange(W.jobs[W.log[a].job], W.jobs[W.log[b].job]) ==>
          W.jobs[W.log[a].job].patchset <= W.jobs[W.log[b].job].patchset)
  }

  ghost predicate Inv(cfg: Config, W: World) {
    && cfg.leaseSeconds > 0
    && JobsOk(cfg, W) && WorkersOk(cfg, W) && PairsOk(W) && LogOk(W)
    && W.claimed <= W.jobs.Keys && W.live <= W.jobs.Keys
  }

  // ---- The log ----------------------------------------------------------------------------

  lemma LandedAppend(log: seq<Post>, post: Post, job: JobId, kind: Kind)
    ensures Landed(log + [post], job, kind)
            == Landed(log, job, kind) + if post.job == job && post.kind == kind then 1 else 0
  {
    assert (log + [post])[..|log|] == log;
  }

  lemma {:induction false} LandedWitness(log: seq<Post>, job: JobId, kind: Kind)
    ensures Landed(log, job, kind) > 0 <==> exists i :: 0 <= i < |log| && log[i].job == job && log[i].kind == kind
  {
    if log != [] {
      var init := log[..|log| - 1];
      LandedWitness(init, job, kind);
      assert forall i :: 0 <= i < |init| ==> init[i] == log[i];
      if Landed(init, job, kind) > 0 {
        var i :| 0 <= i < |init| && init[i].job == job && init[i].kind == kind;
        assert log[i].job == job;
      }
    }
  }

  // ---- Frames -----------------------------------------------------------------------------

  /** What a transaction may do to a row without disturbing any worker but `mover`. */
  ghost predicate RowStep(row: Job, row': Job, sent: set<nat>, sent': set<nat>, mover: Option<WorkerId>, now: Time) {
    && row'.identity == row.identity && row'.patchset == row.patchset
    && (row.result.Some? ==> row'.result == row.result)
    && (row.publication.Some? ==> PayloadOk(row.publication.value.payload, row'))
    && (row.vote.Some? && row.vote.value.account.Some? ==>
          row'.vote.Some? && row'.vote.value.account == row.vote.value.account)
    && |row.attempts| <= |row'.attempts|
    && (forall a :: 0 <= a < |row.attempts| ==>
          && row'.attempts[a].stage == row.attempts[a].stage && row'.attempts[a].worker == row.attempts[a].worker
          && (row.attempts[a].stage.PublishStage? && mover != Some(row.attempts[a].worker) ==>
                row'.attempts[a] == row.attempts[a]))
    && sent <= sent'
    && (forall a :: a in sent' && a < |row.attempts| && mover != Some(row.attempts[a].worker) ==> a in sent)
    // an owner other than the mover sees its row unchanged where it matters
    && (row'.lease.Some? && mover != Some(row'.lease.value.owner) ==>
          && row.lease == row'.lease && row.state == row'.state && row.vote == row'.vote
          && row.epochStart == row'.epochStart && sent == sent')
    // and its lease is not taken from it while it publishes
    && (row.lease.Some? && mover != Some(row.lease.value.owner) && now < row.lease.value.expires && row.state.Publishing?
        ==>
        row'.lease.Some? && mover != Some(row'.lease.value.owner))
  }

  /** Terminal rows stay terminal, and an unresolved publication is resolved or stays unresolved. */
  predicate Settles(row: Job, row': Job) {
    && (IsTerminal(row.state) ==> IsTerminal(row'.state))
    && (NeedsPublishRecovery(row) ==> IsTerminal(row'.state) || NeedsPublishRecovery(row'))
  }

  lemma PcOkStable(cfg: Config, pc: Pc, w: WorkerId, account: AccountId, row: Job, row': Job, comments: nat, votes: nat,
                   sent: set<nat>, sent': set<nat>, mover: Option<WorkerId>, now: Time)
    requires PcOk(cfg, pc, w, account, row, comments, votes, sent, now)
    requires RowStep(row, row', sent, sent', mover, now) && mover != Some(w)
    ensures PcOk(cfg, pc, w, account, row', comments, votes, sent', now)
  {
  }

  lemma RowStepRefl(row: Job, sent: set<nat>, mover: Option<WorkerId>, now: Time)
    ensures RowStep(row, row, sent, sent, mover, now)
  {
  }

  /** A worker other than the mover keeps its facts over any row step of its job. */
  lemma WorkerKept(cfg: Config, W: World, W': World, u: WorkerId, mover: Option<WorkerId>)
    requires u in W.workers && u in W'.workers && W'.workers[u] == W.workers[u] && mover != Some(u)
    requires W'.now == W.now && W'.log == W.log
    requires WorkerOk(cfg, W, u)
    requires !W.workers[u].pc.Idle? ==>
      var id := W.workers[u].pc.job;
      id in W.jobs && id in W'.jobs && RowStep(W.jobs[id], W'.jobs[id], Sent(W, id), Sent(W', id), mover, W.now)
    ensures WorkerOk(cfg, W', u)
  {
    if !W.workers[u].pc.Idle? {
      var id := W.workers[u].pc.job;
      PcOkStable(cfg, W.workers[u].pc, u, W.workers[u].account, W.jobs[id], W'.jobs[id], Landed(W.log, id, Comments),
                 Landed(W.log, id, CodeReview), Sent(W, id), Sent(W', id), mover, W.now);
    }
  }

  lemma PairsKept(W: World, W': World)
    requires PairsOk(W)
    requires W'.jobs.Keys == W.jobs.Keys && W'.live == W.live && W'.claimed == W.claimed
    requires forall k :: k in W.jobs ==>
      && W'.jobs[k].identity == W.jobs[k].identity && W'.jobs[k].patchset == W.jobs[k].patchset
      && Settles(W.jobs[k], W'.jobs[k])
    ensures PairsOk(W')
  {
    forall i, j | i in W'.jobs && j in W'.jobs
      ensures PairOk(W'.jobs[i], W'.jobs[j], j in W'.live, j in W'.claimed)
    {
      assert PairOk(W.jobs[i], W.jobs[j], j in W.live, j in W.claimed);
    }
  }

  lemma LogKept(W: World, W': World)
    requires LogOk(W) && W'.log == W.log
    requires forall k :: k in W.jobs ==>
      && k in W'.jobs
      && W'.jobs[k].identity == W.jobs[k].identity && W'.jobs[k].patchset == W.jobs[k].patchset
      && (W.jobs[k].publication.Some? ==> PayloadOk(W.jobs[k].publication.value.payload, W'.jobs[k]))
      && (W.jobs[k].vote.Some? && W.jobs[k].vote.value.account.Some? ==>
            W'.jobs[k].vote.Some? && W'.jobs[k].vote.value.account == W.jobs[k].vote.value.account)
    ensures LogOk(W')
  {
    forall i | 0 <= i < |W.log| ensures PostOk(W.log[i], W'.jobs) { assert PostOk(W.log[i], W.jobs); }
  }

  lemma WorkersKeptByPut(cfg: Config, W: World, w: WorkerId, id: JobId, row: Job, W': World)
    requires WorkersOk(cfg, W) && w in W.workers && id in W.jobs
    requires w in W'.workers && W'.workers == W.workers[w := W'.workers[w]] && W'.jobs == W.jobs[id := row]
    requires W'.now == W.now && W'.log == W.log
    requires forall k :: k != id ==> Sent(W', k) == Sent(W, k)
    requires RowStep(W.jobs[id], row, Sent(W, id), Sent(W', id), Some(w), W.now)
    requires WorkerOk(cfg, W', w)
    ensures WorkersOk(cfg, W')
  {
    forall u | u in W'.workers && u != w ensures WorkerOk(cfg, W', u) {
      assert WorkerOk(cfg, W, u);
      if !W.workers[u].pc.Idle? {
        var k := W.workers[u].pc.job;
        if k != id { RowStepRefl(W.jobs[k], Sent(W, k), Some(w), W.now); }
      }
      WorkerKept(cfg, W, W', u, Some(w));
    }
  }

  lemma JobsKeptByPut(cfg: Config, W: World, id: JobId, row: Job, W': World)
    requires JobsOk(cfg, W) && id in W.jobs
    requires W'.jobs == W.jobs[id := row] && W'.log == W.log && W'.live == W.live && W'.claimed == W.claimed
    requires forall k :: k != id ==> Sent(W', k) == Sent(W, k)
    requires RowOk(cfg, W', id)
    ensures JobsOk(cfg, W')
  {
    forall k | k in W'.jobs ensures RowOk(cfg, W', k) {
      assert RowOk(cfg, W, k);
    }
  }

  lemma RowStepKeepsRest(W: World, id: JobId, row: Job, w: WorkerId, W': World)
    requires PairsOk(W) && LogOk(W) && id in W.jobs
    requires W'.jobs == W.jobs[id := row] && W'.log == W.log && W'.live == W.live && W'.claimed == W.claimed
    requires RowStep(W.jobs[id], row, Sent(W, id), Sent(W', id), Some(w), W.now) && Settles(W.jobs[id], row)
    ensures PairsOk(W') && LogOk(W')
  {
    PairsKept(W, W');
    LogKept(W, W');
  }

  /** The frame of a step by worker `w` that rewrites row `id` and moves `w` to `pc`. */
  lemma PutKeepsInv(cfg: Config, W: World, w: WorkerId, id: JobId, row: Job, pc: Pc, W': World)
    requires Inv(cfg, W) && w in W.workers && id in W.jobs
    requires W' == Put(W, w, id, row, pc).(dispatched := W'.dispatched)
    requires forall k :: k != id ==> Sent(W', k) == Sent(W, k)
    requires RowStep(W.jobs[id], row, Sent(W, id), Sent(W', id), Some(w), W.now) && Settles(W.jobs[id], row)
    requires RowOk(cfg, W', id)
    requires WorkerOk(cfg, W', w)
    ensures Inv(cfg, W')
  {
    WorkersKeptByPut(cfg, W, w, id, row, W');
    RowStepKeepsRest(W, id, row, w, W');
    JobsKeptByPut(cfg, W, id, row, W');
  }

  lemma RowKept(cfg: Config, W: World, W': World, k: JobId)
    requires k in W.jobs && k in W'.jobs && RowOk(cfg, W, k)
    requires W'.jobs[k] == W.jobs[k] && W'.log == W.log && W'.live == W.live && W'.claimed == W.claimed
    requires Sent(W', k) == Sent(W, k)
    ensures RowOk(cfg, W', k)
  {
  }

  lemma GotoKeepsInv(cfg: Config, W: World, w: WorkerId, pc: Pc)
    requires Inv(cfg, W) && w in W.workers
    requires !pc.Idle? ==>
      && pc.job in W.jobs
      && PcOk(cfg, pc, w, W.workers[w].account, W.jobs[pc.job], Landed(W.log, pc.job, Comments),
              Landed(W.log, pc.job, CodeReview), Sent(W, pc.job), W.now)
    ensures Inv(cfg, Goto(W, w, pc))
  {
    hide RowOk, PairsOk;
    var W' := Goto(W, w, pc);
    assert forall k :: Sent(W', k) == Sent(W, k);
    assert PairsOk(W') by { PairsKept(W, W'); }
    forall k | k in W'.jobs ensures RowOk(cfg, W', k) { RowKept(cfg, W, W', k); }
    forall u | u in W'.workers ensures WorkerOk(cfg, W', u) { assert WorkerOk(cfg, W, u); }
    LogKept(W, W');
  }

  /** The frame of a step outside every worker: each old row changes as if nobody moved. */
  lemma AdminKeepsInv(cfg: Config, W: World, W': World)
    requires Inv(cfg, W)
    requires W'.now == W.now && W'.workers == W.workers && W'.log == W.log && W'.claimed == W.claimed
    requires W'.live <= W'.jobs.Keys
    requires forall k :: k in W.jobs ==> k in W'.jobs
    requires forall k :: k in W.jobs ==> RowStep(W.jobs[k], W'.jobs[k], Sent(W, k), Sent(W', k), None, W.now)
    requires JobsOk(cfg, W') && PairsOk(W')
    ensures Inv(cfg, W')
  {
    hide RowOk, PcOk, WorkerOk;
    WorkersKeptByAdmin(cfg, W, W');
    LogKept(W, W');
  }

  lemma WorkersKeptByAdmin(cfg: Config, W: World, W': World)
    requires WorkersOk(cfg, W)
    requires W'.now == W.now && W'.workers == W.workers && W'.log == W.log
    requires forall k :: k in W.jobs ==> k in W'.jobs
    requires forall k :: k in W.jobs ==> RowStep(W.jobs[k], W'.jobs[k], Sent(W, k), Sent(W', k), None, W.now)
    ensures WorkersOk(cfg, W')
  {
    forall u | u in W'.workers ensures WorkerOk(cfg, W', u) {
      assert WorkerOk(cfg, W, u);
      WorkerKept(cfg, W, W', u, None);
    }
  }
}
