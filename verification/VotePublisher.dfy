/** One pass of `VotePublisher.process` over the job table (voting.py).  What Gerrit answers, the clock at each
    transaction and where the process dies are parameters, so the contracts speak about every pass; passes and
    transactions that interleave are steps of `Protocol`, and `ProtocolBudgets` bounds what any number of them adds
    to the retry count. */
module VotePublisher {
  import opened Wrappers
  import opened StateMachine
  import opened JobRows
  import opened JobStore

  /** What a call to Gerrit returns or raises. */
  datatype Answer<T> = Got(value: T) | NewerRevision | NotOpen(merged: bool) | PermanentFailure | TransientFailure

  datatype Observed = Observed(markerFound: bool, labelExists: bool, current: Option<int>, merged: bool, canVote: bool)

  /** What a pass meets: the account it is logged in as, the vote preflight, the revision check in front of the
      POST, and the label in the answer to the POST.  The transactions are numbered 0 (first guard), 1 (dispatch),
      2 (second guard), 3 (retry), 4 (reschedule) and 5 (finish); number k happens at `clock(k)` unless the process
      has died by then, and at 6 the pass has ended. */
  datatype Course = Course(
    login: Answer<AccountId>,
    observed: Answer<Observed>,
    checked: Answer<()>,
    posted: Answer<Option<int>>,
    retryAt: Time,
    clock: nat -> Time,
    died: nat)

  /** `Abandoned`: an exception reached the worker loop, or the process died. */
  datatype PassEnd = Finished | Rescheduled | Abandoned

  // ---- What a pass comes to, from what it meets -------------------------------------------

  predicate Gone<T>(answer: Answer<T>) {
    answer.NewerRevision? || (answer.NotOpen? && answer.merged)
  }

  /** The account that started the vote is the one that asks. */
  predicate Recognized(vote: Vote, c: Course) {
    c.login.Got? && (vote.account.None? || vote.account.value == c.login.value)
  }

  predicate Sees(vote: Vote, c: Course) {
    Recognized(vote, c) && c.observed.Got?
  }

  /** A request goes out: nothing found, nothing in the way, budget left and no newer Patch Set stored. */
  predicate Sends(limit: nat, vote: Vote, overtaken: bool, c: Course) {
    && Sees(vote, c) && !c.observed.value.markerFound && !c.observed.value.merged && c.observed.value.canVote
    && vote.attempts < limit && vote.retryCount < limit && !overtaken
  }

  /** Gerrit has the value: under the marker of this very vote, or in the answer to the POST. */
  predicate Lands(limit: nat, vote: Vote, overtaken: bool, c: Course) {
    || (Sees(vote, c) && c.observed.value.markerFound && c.observed.value.labelExists && c.observed.value.current == vote.decision)
    || (Sends(limit, vote, overtaken, c) && c.checked.Got? && c.posted.Got? && c.posted.value.Some? && c.posted.value == vote.decision)
  }

  /** There is nothing left to vote on: the change is merged, or the Patch Set is overtaken. */
  predicate Lapses(limit: nat, vote: Vote, overtaken: bool, c: Course) {
    || Gone(c.login)
    || (Recognized(vote, c) && Gone(c.observed))
    || (Sees(vote, c) && !c.observed.value.markerFound && c.observed.value.merged)
    || (overtaken && Sends(limit, vote, false, c))
    || (Sends(limit, vote, overtaken, c) && (Gone(c.checked) || (c.checked.Got? && Gone(c.posted))))
  }

  /** A transient error on the way. */
  predicate Stumbles(limit: nat, vote: Vote, overtaken: bool, c: Course) {
    || c.login.TransientFailure?
    || (Recognized(vote, c) && c.observed.TransientFailure?)
    || (Sends(limit, vote, overtaken, c) && (c.checked.TransientFailure? || (c.checked.Got? && c.posted.TransientFailure?)))
  }

  /** The status that a pass of an open vote stores when it finishes, cause by cause. */
  ghost predicate Concludes(limit: nat, allowVote: bool, vote: Vote, overtaken: bool, c: Course, status: VoteStatus) {
    && IsTerminalVote(status)
    && (status == VoteApplied <==> allowVote && Lands(limit, vote, overtaken, c))
    && (status == VoteSkipped <==> !allowVote || Lapses(limit, vote, overtaken, c))
  }

  /** The worker holds a job with durable comments through the whole pass, and does not die. */
  ghost predicate Punctual(row: Job, worker: WorkerId, leaseSeconds: nat, c: Course) {
    && row.state.Publishing? && row.publication.Some? && row.publication.value.status.Posted?
    && row.lease.Some? && row.lease.value.owner == worker
    && (forall k :: 0 <= k < 6 ==> c.clock(k) < row.lease.value.expires)
    && (forall j, k :: 0 <= j < 6 && 0 <= k < 6 ==> c.clock(k) < c.clock(j) + leaseSeconds)
    && c.died > 6
  }

  /** What any pass may do to the vote it finds, however it ends. */
  predicate PassOk(limit: nat, before: Vote, after: Vote) {
    && after.decision == before.decision
    && (before.account.Some? ==> after.account == before.account)
    && (IsTerminalVote(before.status) ==> after == before)
    && before.attempts <= after.attempts <= before.attempts + 1
    && before.retryCount <= after.retryCount <= before.retryCount + 1
    && (after.attempts > before.attempts ==>
          before.attempts < limit && before.retryCount < limit && after.account.Some?)
  }

  /** Only row `id` may change, of it only its place in the queue, its lease and its vote, and it keeps a vote. */
  ghost predicate Touches(jobs: Jobs, jobs': Jobs, id: JobId) {
    && jobs.Keys == jobs'.Keys && id in jobs && jobs[id].vote.Some? && jobs'[id].vote.Some?
    && jobs'[id] == jobs[id].(state := jobs'[id].state, retryState := jobs'[id].retryState, lease := jobs'[id].lease,
                              nextAttemptAt := jobs'[id].nextAttemptAt, vote := jobs'[id].vote)
    && forall k :: k in jobs && k != id ==> jobs'[k] == jobs[k]
  }

  /** Where the job is when the pass ends. */
  predicate Ends(row: Job, end: PassEnd, c: Course) {
    && (end.Abandoned? || c.died > 6)
    && match end
    case Finished => row.state.Done? && row.lease.None? && row.retryState.None?
    case Rescheduled =>
      row.state.RetryWait? && row.lease.None? && row.retryState == Some(Publishing) && row.nextAttemptAt == c.retryAt
    case Abandoned => true
  }

  class Publisher {
    const store: Store
    const limit: nat
    const leaseSeconds: nat

    constructor (store: Store, limit: nat, leaseSeconds: nat)
      ensures this.store == store && this.limit == limit && this.leaseSeconds == leaseSeconds
    {
      this.store, this.limit, this.leaseSeconds := store, limit, leaseSeconds;
    }

    /** The closure `finish`: the terminal vote and the DONE job in one transaction. */
    method Finish(id: JobId, status: VoteStatus, account: Option<AccountId>, worker: WorkerId, c: Course)
      returns (end: PassEnd)
      requires id in store.jobs && store.jobs[id].vote.Some? && IsTerminalVote(status)
      modifies store`jobs
      ensures Touches(old(store.jobs), store.jobs, id) && Ends(store.jobs[id], end, c)
      ensures var before, after := old(store.jobs)[id].vote.value, store.jobs[id].vote.value;
              && (IsTerminalVote(before.status) ==> after == before)
              && after == before.(status := after.status, account := after.account)
              && (before.account.Some? || account.None? ==> after.account == before.account)
              && (end.Finished? && !IsTerminalVote(before.status) ==>
                    after == before.(status := status, account := if account.Some? then account else before.account))
              && (end.Finished? || after == before || after.status == status)
      ensures !end.Rescheduled?
      ensures var row := old(store.jobs)[id];
              Punctual(row, worker, leaseSeconds, c)
              && (IsTerminalVote(row.vote.value.status) || account.None? || row.vote.value.account.None?
                  || row.vote.value.account == account) ==>
                end.Finished?
    {
      hide FinishVoteRow, OnRow;
      if c.died <= 5 { return Abandoned; }
      var r := store.FinishVote(id, status, account, worker, c.clock(5));
      if r.Err? || c.died <= 6 { return Abandoned; }
      return Finished;
    }

    /** The handler of a transient error; `posted` permits one more read-only pass after the limit. */
    method Retry(id: JobId, posted: bool, worker: WorkerId, c: Course) returns (end: PassEnd)
      requires id in store.jobs && store.jobs[id].vote.Some? && !IsTerminalVote(store.jobs[id].vote.value.status)
      modifies store`jobs
      ensures Touches(old(store.jobs), store.jobs, id) && Ends(store.jobs[id], end, c)
      ensures var before, after := old(store.jobs)[id].vote.value, store.jobs[id].vote.value;
              && after == before.(status := after.status, retryCount := after.retryCount)
              && before.retryCount <= after.retryCount <= before.retryCount + 1
              && (!end.Abandoned? ==> after.retryCount == before.retryCount + 1)
              // the retry is counted first; at the limit it is the end, unless a POST may still be confirmed
              && (end.Finished? ==> after.status == VoteFailed && after.retryCount >= limit && !posted)
              && (end.Rescheduled? ==> after.status == before.status && (after.retryCount < limit || posted))
      ensures Punctual(old(store.jobs)[id], worker, leaseSeconds, c) ==> !end.Abandoned?
    {
      hide RetryVoteRow, ScheduleRetryRow, OnRow;
      if c.died <= 3 { return Abandoned; }
      var r := store.RetryVote(id, worker, c.clock(3));
      if r.Err? || c.died <= 4 { return Abandoned; }
      if r.value.vote.value.retryCount >= limit && !posted {
        end := Finish(id, VoteFailed, None, worker, c);
      } else {
        r := store.ScheduleRetry(id, Publishing, c.retryAt, worker, c.clock(4));
        end := if r.Ok? && c.died > 6 then Rescheduled else Abandoned;
      }
    }

    /** The exception handlers of `process`. */
    method Handle<T>(id: JobId, raised: Answer<T>, posted: bool, worker: WorkerId, c: Course) returns (end: PassEnd)
      requires id in store.jobs && store.jobs[id].vote.Some? && !IsTerminalVote(store.jobs[id].vote.value.status)
      requires !raised.Got?
      modifies store`jobs
      ensures Touches(old(store.jobs), store.jobs, id) && Ends(store.jobs[id], end, c)
      ensures var before, after := old(store.jobs)[id].vote.value, store.jobs[id].vote.value;
              && after == before.(status := after.status, retryCount := after.retryCount)
              && before.retryCount <= after.retryCount <= before.retryCount + 1
              && (!raised.TransientFailure? ==> !end.Rescheduled? && after.retryCount == before.retryCount)
              && (raised.TransientFailure? && !end.Abandoned? ==>
                    && after.retryCount == before.retryCount + 1
                    && (end.Rescheduled? <==> after.retryCount < limit || posted))
              && (end.Rescheduled? ==> after.status == before.status)
              && (end.Finished? ==> after.status == if Gone(raised) then VoteSkipped else VoteFailed)
      ensures Punctual(old(store.jobs)[id], worker, leaseSeconds, c) ==> !end.Abandoned?
    {
      match raised
      case NewerRevision => end := Finish(id, VoteSkipped, None, worker, c);
      case NotOpen(merged) => end := Finish(id, if merged then VoteSkipped else VoteFailed, None, worker, c);
      case PermanentFailure => end := Finish(id, VoteFailed, None, worker, c);
      case TransientFailure => end := Retry(id, posted, worker, c);
    }

    /** One pass, from the loaded vote to the end of the claim. */
    method Process(id: JobId, allowVote: bool, worker: WorkerId, c: Course) returns (end: PassEnd)
      requires id in store.jobs && store.jobs[id].vote.Some?
      modifies store`jobs
      ensures Touches(old(store.jobs), store.jobs, id) && Ends(store.jobs[id], end, c)
      ensures PassOk(limit, old(store.jobs)[id].vote.value, store.jobs[id].vote.value)
      // the outcome: what the finished vote says, when the pass comes back, and what it has spent
      ensures var before, after := old(store.jobs)[id].vote.value, store.jobs[id].vote.value;
              var overtaken := Overtaken(old(store.jobs), old(store.jobs)[id].identity.change, old(store.jobs)[id].patchset);
              && (after.attempts > before.attempts ==> allowVote && Sends(limit, before, overtaken, c))
              && (!IsTerminalVote(before.status) && end.Finished? ==>
                    Concludes(limit, allowVote, before, overtaken, c, after.status))
              && (!IsTerminalVote(before.status) && !end.Abandoned? ==>
                    var sent := allowVote && Sends(limit, before, overtaken, c);
                    var stumbled := allowVote && Stumbles(limit, before, overtaken, c);
                    && after.attempts == before.attempts + (if sent then 1 else 0)
                    && after.retryCount == before.retryCount + (if stumbled then 1 else 0)
                    && (end.Rescheduled? <==> stumbled && (sent || after.retryCount < limit)))
              && (end.Rescheduled? ==> !IsTerminalVote(after.status) && after.retryCount == before.retryCount + 1 <= limit)
              && (end.Finished? ==> IsTerminalVote(after.status))
              && (end.Finished? && !IsTerminalVote(before.status) && after.status.VoteApplied? ==>
                    after.account == Some(c.login.value))
      ensures Punctual(old(store.jobs)[id], worker, leaseSeconds, c) ==> !end.Abandoned?
    {
      hide Overtaken, Punctual, Ends, Touches;
      var vote := store.jobs[id].vote.value;
      if IsTerminalVote(vote.status) {
        end := Finish(id, vote.status, None, worker, c);
        return;
      }
      if !allowVote {
        end := Finish(id, VoteSkipped, None, worker, c);
        return;
      }
      if !c.login.Got? {
        end := Handle(id, c.login, false, worker, c);
        return;
      }
      var account := c.login.value;
      if vote.account.Some? && vote.account.value != account {
        end := Finish(id, VoteFailed, None, worker, c);
        return;
      }
      if !c.observed.Got? {
        end := Handle(id, c.observed, false, worker, c);
        return;
      }
      var observation := c.observed.value;
      if observation.markerFound {
        if observation.labelExists && observation.current == vote.decision {
          end := Finish(id, VoteApplied, Some(account), worker, c);
        } else {
          end := Finish(id, VoteFailed, None, worker, c);
        }
      } else if observation.merged {
        end := Finish(id, VoteSkipped, Some(account), worker, c);
      } else if !observation.canVote {
        end := Finish(id, VoteFailed, Some(account), worker, c);
      } else if vote.attempts >= limit || vote.retryCount >= limit {
        end := Finish(id, VoteFailed, None, worker, c);
      } else {
        end := Post(id, account, worker, c);
      }
    }

    /** Guard, dispatch, guard and POST. */
    method Post(id: JobId, account: AccountId, worker: WorkerId, c: Course) returns (end: PassEnd)
      requires id in store.jobs && store.jobs[id].vote.Some? && !IsTerminalVote(store.jobs[id].vote.value.status)
      requires var vote := store.jobs[id].vote.value; vote.account.Some? ==> vote.account.value == account
      modifies store`jobs
      ensures Touches(old(store.jobs), store.jobs, id) && Ends(store.jobs[id], end, c)
      ensures var before, after := old(store.jobs)[id].vote.value, store.jobs[id].vote.value;
              var overtaken := Overtaken(old(store.jobs), old(store.jobs)[id].identity.change, old(store.jobs)[id].patchset);
              if overtaken then
                && before == after.(status := before.status)
                && !end.Rescheduled? && (end.Finished? ==> after.status == VoteSkipped)
              else
                || (end.Abandoned? && after == before)
                || var vote := before.(account := Some(account), attempts := before.attempts + 1, status := VoteAmbiguous);
                   && after == vote.(status := after.status, retryCount := after.retryCount)
                   && SentBy(vote, false, after, end, c)
      ensures Punctual(old(store.jobs)[id], worker, leaseSeconds, c) ==> !end.Abandoned?
    {
      hide Overtaken, SentBy, OnRow, DispatchVoteRow, RefreshGuardRow;
      if c.died <= 0 { return Abandoned; }
      var guarded := store.RefreshPublishGuard(id, worker, leaseSeconds, c.clock(0));
      if guarded.GuardLeaseLost? { return Abandoned; }
      if guarded.GuardSuperseded? {
        end := Finish(id, VoteSkipped, None, worker, c);
        return;
      }
      StillLatest(old(store.jobs), store.jobs, id);
      if c.died <= 1 { return Abandoned; }
      var r := store.DispatchVote(id, account, worker, c.clock(1));
      if r.Err? { return Abandoned; }
      StillLatest(old(store.jobs), store.jobs, id);
      end := Send(id, account, worker, c);
    }

    /** How a dispatched vote goes on: `vote` is the counted intent. */
    ghost predicate SentBy(vote: Vote, overtaken: bool, after: Vote, end: PassEnd, c: Course) {
      && vote.retryCount <= after.retryCount <= vote.retryCount + 1
      && var stumbled := c.checked.TransientFailure? || (c.checked.Got? && !overtaken && c.posted.TransientFailure?);
      && (end.Rescheduled? <==> stumbled && !end.Abandoned?)
      && (!end.Abandoned? ==> after.retryCount == vote.retryCount + if stumbled then 1 else 0)
      && (end.Rescheduled? ==> after.status == VoteAmbiguous)
      && (end.Finished? ==>
            && IsTerminalVote(after.status)
            && (after.status == VoteApplied <==>
                  c.checked.Got? && !overtaken && c.posted.Got? && c.posted.value.Some? && c.posted.value == vote.decision)
            && (after.status == VoteSkipped <==> Gone(c.checked) || (c.checked.Got? && (overtaken || Gone(c.posted)))))
    }

    /** `publish_review_input` and the verdict on its answer. */
    method Send(id: JobId, account: AccountId, worker: WorkerId, c: Course) returns (end: PassEnd)
      requires id in store.jobs && store.jobs[id].vote.Some? && store.jobs[id].vote.value.status == VoteAmbiguous
      requires store.jobs[id].vote.value.account == Some(account)
      modifies store`jobs
      ensures Touches(old(store.jobs), store.jobs, id) && Ends(store.jobs[id], end, c)
      ensures var before, after := old(store.jobs)[id].vote.value, store.jobs[id].vote.value;
              var overtaken := Overtaken(old(store.jobs), old(store.jobs)[id].identity.change, old(store.jobs)[id].patchset);
              && after == before.(status := after.status, retryCount := after.retryCount)
              && SentBy(before, overtaken, after, end, c)
      ensures Punctual(old(store.jobs)[id], worker, leaseSeconds, c) ==> !end.Abandoned?
    {
      hide Overtaken, OnRow, RefreshGuardRow, Punctual, HasNewer;
      GuardKeepsTime(old(store.jobs)[id], worker, leaseSeconds, c);
      if !c.checked.Got? {
        end := Handle(id, c.checked, true, worker, c);
        return;
      }
      if c.died <= 2 { return Abandoned; }
      var guarded := store.RefreshPublishGuard(id, worker, leaseSeconds, c.clock(2));
      if guarded.GuardLeaseLost? { return Abandoned; }
      if guarded.GuardSuperseded? {
        end := Handle<()>(id, NewerRevision, true, worker, c);
        return;
      }
      if !c.posted.Got? {
        end := Handle(id, c.posted, true, worker, c);
        return;
      }
      var shown, value := c.posted.value, store.jobs[id].vote.value.decision;
      if shown.Some? && shown == value {
        end := Finish(id, VoteApplied, Some(account), worker, c);
      } else {
        end := Finish(id, VoteFailed, None, worker, c);
      }
    }
  }

  /** The guard extends the lease by the lease time, so the pass stays punctual. */
  lemma GuardKeepsTime(row: Job, worker: WorkerId, leaseSeconds: nat, c: Course)
    ensures Punctual(row, worker, leaseSeconds, c) ==>
              && LiveLease(row, worker, c.clock(2)) && row.state.Publishing?
              && Punctual(row.(lease := Some(Lease(worker, c.clock(2) + leaseSeconds))), worker, leaseSeconds, c)
              && c.died > 2
  {
  }

  /** A pass changes no identity and no Patch Set, so it does not change who is overtaken. */
  lemma StillLatest(jobs: Jobs, jobs': Jobs, id: JobId)
    requires Touches(jobs, jobs', id)
    ensures Overtaken(jobs', jobs'[id].identity.change, jobs'[id].patchset)
            <==> Overtaken(jobs, jobs[id].identity.change, jobs[id].patchset)
  {
    var change, patchset := jobs[id].identity.change, jobs[id].patchset;
    assert forall k :: k in jobs ==> jobs'[k].identity == jobs[k].identity && jobs'[k].patchset == jobs[k].patchset;
    if Overtaken(jobs', change, patchset) {
      var k :| k in jobs' && jobs'[k].identity.change == change && jobs'[k].patchset > patchset;
      assert jobs[k].identity.change == change && jobs[k].patchset > patchset;
    }
    if Overtaken(jobs, change, patchset) {
      var k :| k in jobs && jobs[k].identity.change == change && jobs[k].patchset > patchset;
      assert jobs'[k].identity.change == change && jobs'[k].patchset > patchset;
    }
  }
}
