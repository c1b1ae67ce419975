/** `NativeFirmwareReviewEngine.review` as the driver of the two phases over one durable progress row
    (review/native.py, jobs/progress.py).  Prompts, the choice of the frozen candidates and the finding
    validator are parameters; every await may fail, and a crash is such a failure. */
module Engine {
  import opened Wrappers
  import opened WorkForest
  import opened Ledger
  import opened Scheduler
  import opened RoundRobin
  import opened Progress

  datatype SaveResult = Stored | Unconfirmed | Rejected

  datatype Outcome = Skipped | Reviewed(result: ReviewResult) | Failed

  function Results(items: seq<WorkItem>, cps: Checkpoints): seq<Finding>
    requires forall item :: item in items ==> item.key in cps
  {
    if items == [] then [] else Results(items[..|items| - 1], cps) + cps[items[|items| - 1].key].result
  }

  /** `done` and `open` are all leaves of the forest, each once, and exactly those in `done` are DONE. */
  ghost predicate Separated(roots: seq<WorkItem>, cps: Checkpoints, done: seq<WorkItem>, open: seq<WorkItem>) {
    && multiset(Leaves(roots, cps)) == multiset(done + open) && AllHave(done, cps, Done)
    && forall item :: item in open && item.key in cps ==> !cps[item.key].status.Done?
  }

  /** No request of the log is about a checkpointed item. */
  predicate AsksOnlyNew(log: seq<Invocation>, cps: Checkpoints) {
    forall invocation :: invocation in log ==> invocation.key !in cps
  }

  lemma AsksMore(log: seq<Invocation>, more: seq<Invocation>, cps: Checkpoints)
    requires AsksOnlyNew(log, cps) && AsksOnlyNew(more, cps)
    ensures AsksOnlyNew(log + more, cps)
  {
  }

  lemma AsksOlder(log: seq<Invocation>, cps: Checkpoints, older: Checkpoints)
    requires AsksOnlyNew(log, cps) && Extends(cps, older)
    ensures AsksOnlyNew(log, older)
  {
  }

  lemma ChargeStep(usage: Usage, phase: Phase, rest: Checkpoints, key: Key)
    requires key in rest
    ensures Plus(Plus(usage, Charge(phase, rest[key])), Charged(phase, rest - {key})) == Plus(usage, Charged(phase, rest))
    ensures !(rest[key].phase == phase && rest[key].status != Split) ==> Plus(usage, Charge(phase, rest[key])) == usage
    ensures rest[key].phase == phase && rest[key].status != Split ==> Charge(phase, rest[key]) == rest[key].usage
  {
    hide Charged;
    ChargedRemove(phase, rest, key);
    PlusNothing(usage);
  }

  /** The charging loop of `review`: the order of the checkpoints does not matter. */
  method ChargeAll(phase: Phase, cps: Checkpoints) returns (usage: Usage)
    ensures usage == Charged(phase, cps)
  {
    hide Charge, Plus;
    usage := NOTHING;
    var rest := cps;
    PlusNothing(Charged(phase, cps));
    while rest != map[]
      invariant Plus(usage, Charged(phase, rest)) == Charged(phase, cps)
      decreases |rest|
    {
      var key :| key in rest;
      ChargeStep(usage, phase, rest, key);
      var cp := rest[key];
      if cp.phase == phase && cp.status != Split { usage := Plus(usage, cp.usage); }
      rest := rest - {key};
    }
    PlusNothing(usage);
  }

  method CollectResults(items: seq<WorkItem>, cps: Checkpoints) returns (findings: seq<Finding>)
    requires forall item :: item in items ==> item.key in cps
    ensures findings == Results(items, cps)
  {
    findings := [];
    for i := 0 to |items|
      invariant findings == Results(items[..i], cps)
    {
      assert items[..i + 1][..i] == items[..i];
      findings := findings + cps[items[i].key].result;
    }
    assert items[..|items|] == items;
  }

  /** Where the attempts over one durable row have got to; `forgiven` counts the truncated answers refunded. */
  datatype State = State(row: Option<ReviewProgress>, rows: nat, usage: Usage, invocations: seq<Invocation>, forgiven: nat)

  /** What an attempt charges for the row it finds: the exploration frozen with it, and every checkpoint of the
      phase under way that is not SPLIT. */
  ghost function RowCharge(row: Option<ReviewProgress>): Usage {
    match row
    case None => NOTHING
    case Some(p) =>
      if p.stage.Exploring? then Charged(Candidate, p.checkpoints)
      else Plus(p.candidateUsage, Charged(Verification, p.checkpoints))
  }

  /** The account of an attempt is exact: what the row charged, and one for each request and each read since, less
      the truncated answers forgiven. */
  ghost predicate Exact(opening: Usage, was: State, now: State) {
    && was.invocations <= now.invocations && was.forgiven <= now.forgiven
    && var log, forgiven := now.invocations[|was.invocations|..], now.forgiven - was.forgiven;
    && now.usage.llmCalls + forgiven == opening.llmCalls + Requests(log)
    && now.usage.toolCalls == opening.toolCalls + Reads(log)
  }

  lemma ExactRun(opening: Usage, was: State, now: State, log: seq<Invocation>, forgiven: nat)
    requires Balanced(opening, log, forgiven, now.usage)
    requires now.invocations == was.invocations + log && now.forgiven == was.forgiven + forgiven
    ensures Exact(opening, was, now)
  {
    assert now.invocations[|was.invocations|..] == log;
  }

  lemma ExactThen(opening: Usage, first: State, middle: State, last: State)
    requires Exact(opening, first, middle) && Exact(middle.usage, middle, last)
    ensures Exact(opening, first, last)
  {
    LogJoins(first.invocations, middle.invocations, last.invocations);
  }

  lemma ExactKept(opening: Usage, was: State, middle: State, now: State)
    requires Exact(opening, was, middle)
    requires now.usage == middle.usage && now.invocations == middle.invocations && now.forgiven == middle.forgiven
    ensures Exact(opening, was, now)
  {
  }

  lemma LogJoins(first: seq<Invocation>, middle: seq<Invocation>, last: seq<Invocation>)
    requires first <= middle <= last
    ensures Requests(last[|first|..]) == Requests(middle[|first|..]) + Requests(last[|middle|..])
    ensures Reads(last[|first|..]) == Reads(middle[|first|..]) + Reads(last[|middle|..])
  {
    assert last[|first|..] == middle[|first|..] + last[|middle|..];
    RequestsAppend(middle[|first|..], last[|middle|..]);
  }

  /** What the row would charge on the next resume was really spent: the charge grows by no more than what was
      asked since, less what was forgiven. */
  ghost predicate Paid(was: State, now: State) {
    && was.invocations <= now.invocations && was.forgiven <= now.forgiven
    && var log, forgiven := now.invocations[|was.invocations|..], now.forgiven - was.forgiven;
    && RowCharge(now.row).llmCalls + forgiven <= RowCharge(was.row).llmCalls + Requests(log)
    && RowCharge(now.row).toolCalls <= RowCharge(was.row).toolCalls + Reads(log)
  }

  lemma PaidThen(first: State, middle: State, last: State)
    requires Paid(first, middle) && Paid(middle, last)
    ensures Paid(first, last)
  {
    hide RowCharge;
    LogJoins(first.invocations, middle.invocations, last.invocations);
  }

  /** Either nothing was asked and the row is as it was, or the charge stays within the limits and covers what
      the row would charge on resuming. */
  ghost predicate StaysWithin(limits: Limits, was: State, now: State) {
    || (now.usage == was.usage && now.invocations == was.invocations && (was.row.Some? ==> now.row == was.row))
    || (&& now.row.Some? && AtMost(ResumeUsage(now.row.value), now.usage)
        && Fits(now.usage, limits, Verification))
  }

  /** A stored result is never worked on again. */
  predicate KeepsResult(was: State, now: State) {
    was.row.Some? && was.row.value.stage.Finished? ==> now == was
  }

  /** Nothing was asked, and the row is as it was or a new one that charges nothing. */
  ghost predicate Unasked(was: State, now: State) {
    && now.usage == was.usage && now.invocations == was.invocations && now.forgiven == was.forgiven
    && RowCharge(now.row) == RowCharge(was.row)
  }

  lemma Idle(limits: Limits, was: State, now: State)
    requires now == was || (was.row.None? && Unasked(was, now))
    ensures StaysWithin(limits, was, now) && KeepsResult(was, now) && Unasked(was, now) && Paid(was, now)
  {
    hide RowCharge;
  }

  lemma Onward(limits: Limits, first: State, middle: State, last: State)
    requires StaysWithin(limits, first, middle) && KeepsResult(first, middle)
    requires StaysWithin(limits, middle, last) && KeepsResult(middle, last)
    ensures StaysWithin(limits, first, last) && KeepsResult(first, last)
    ensures middle.row.Some? && middle.row.value.stage.Finished? ==> last == middle
  {
  }

  class NativeEngine {
    const limits: Limits
    const diff: string
    const maxChars: nat
    const maxChunks: nat
    const maxFindings: nat
    /** Deduplication, ranking and cap of the candidates, with the previous findings added. */
    const freeze: seq<Finding> -> seq<Finding>
    const validate: seq<Finding> -> seq<Finding>

    var row: Option<ReviewProgress>
    var usage: Usage
    var invocations: seq<Invocation>
    ghost var rows: seq<ReviewProgress>
    ghost var forgiven: nat
    /** The calls and saves that failed, and the answers nothing could be done with. */
    ghost var faults: nat

    constructor (limits: Limits, diff: string, maxChars: nat, maxChunks: nat, maxFindings: nat,
                 freeze: seq<Finding> -> seq<Finding>, validate: seq<Finding> -> seq<Finding>)
      requires maxChars >= 1
      ensures Valid() && row == None && rows == [] && usage == NOTHING && invocations == []
      ensures this.limits == limits && this.diff == diff && this.maxChars == maxChars && this.maxChunks == maxChunks
      ensures this.maxFindings == maxFindings && this.freeze == freeze && this.validate == validate
    {
      this.limits, this.diff, this.maxChars, this.maxChunks := limits, diff, maxChars, maxChunks;
      this.maxFindings, this.freeze, this.validate := maxFindings, freeze, validate;
      row, usage, invocations, rows, forgiven, faults := None, NOTHING, [], [], 0, 0;
    }

    ghost predicate Valid()
      reads this`row, this`rows
    {
      maxChars >= 1 && RowHistory(limits, diff, maxChars, rows, row)
    }

    ghost function Now(): (now: State)
      reads this`row, this`rows, this`usage, this`invocations, this`forgiven
      ensures now == State(row, |rows|, usage, invocations, forgiven)
    {
      State(row, |rows|, usage, invocations, forgiven)
    }

    /** The guarded save: the lease may be lost, the guard may reject, the commit may go unacknowledged. */
    method Save(next: ReviewProgress) returns (outcome: SaveResult)
      requires Valid() && RowOk(limits, diff, maxChars, next)
      requires row.Some? ==> Extends(next.checkpoints, row.value.checkpoints)
      modifies this`row, this`rows, this`faults
      ensures Valid() && faults == old(faults) + if outcome.Unconfirmed? then 1 else 0
      ensures outcome.Rejected? ==> old(row).Some? && !Accepts(old(row).value, next)
      ensures outcome.Stored? ==> row == Some(next)
      ensures (row == old(row) && rows == old(rows)) || (row == Some(next) && rows == old(rows) + [next])
    {
      hide *;
      var reached, committed, acknowledged: bool := *, *, *;
      if reached && row.Some? && !Accepts(row.value, next) { return Rejected; }
      if reached && committed {
        AddRow(next);
        row := Some(next);
        rows := rows + [next];
        Revalid();
      }
      if reached && committed && acknowledged { return Stored; }
      faults := faults + 1;
      return Unconfirmed;
    }

    lemma AddRow(next: ReviewProgress)
      requires Valid() && RowOk(limits, diff, maxChars, next)
      requires row.Some? ==> Accepts(row.value, next) && Extends(next.checkpoints, row.value.checkpoints)
      ensures maxChars >= 1 && RowHistory(limits, diff, maxChars, rows + [next], Some(next))
    {
      hide RowOk, RowHistory, Accepts, Extends;
      RowHistoryAdd(limits, diff, maxChars, rows, row, next);
    }

    lemma Revalid()
      requires maxChars >= 1 && RowHistory(limits, diff, maxChars, rows, row)
      ensures Valid()
    {
    }

    lemma RowFacts()
      requires Valid() && row.Some?
      ensures maxChars >= 1 && RowOk(limits, diff, maxChars, row.value)
    {
      hide RowOk, AcceptedHistory;
    }

    // ---- Candidate phase ------------------------------------------------------------------

    /** Runs the scheduler and keeps whatever it saved, also when it fails. */
    method ExploreRun(p: ReviewProgress) returns (runner: RoundRobinReview, failure: Option<Failure>)
      requires Valid() && row == Some(p) && p.stage.Exploring?
      requires usage == Charged(Candidate, p.checkpoints)
      modifies this
      ensures old(rows) <= rows
      ensures Valid() && row == Some(p.(checkpoints := runner.store)) && fresh(runner)
      ensures Extends(runner.store, p.checkpoints)
      ensures usage == runner.usage && AtMost(Charged(Candidate, runner.store), usage) && Fits(usage, limits, Candidate)
      ensures Exact(old(usage), old(Now()), Now())
      ensures failure.Some? <==> faults > old(faults)
      ensures faults >= old(faults)
      ensures old(invocations) <= invocations && AsksOnlyNew(invocations[|old(invocations)|..], p.checkpoints)
      ensures failure.None? ==>
        && runner.store == runner.checkpoints
        && PhaseEnds(limits, Candidate, CandidateRoots(diff, maxChars), p.checkpoints, runner.checkpoints,
                     runner.completed, runner.pending, maxChunks, usage)
    {
      hide *;
      RowFacts();
      ExploringFacts(p);
      runner := new RoundRobinReview(limits, Candidate, CandidateRoots(diff, maxChars), maxChunks, p.checkpoints, usage);
      failure := runner.Run();
      ExploreSaves(p, runner);
      usage := runner.usage;
      invocations := invocations + runner.invocations;
      assert invocations[|old(invocations)|..] == runner.invocations;
      forgiven, faults := forgiven + runner.truncations, faults + runner.faults;
      rows := rows + AsRows(p, runner.saves);
      row := Some(p.(checkpoints := runner.store));
      Revalid();
      ExactRun(old(usage), old(Now()), Now(), runner.invocations, runner.truncations);
    }

    lemma ExploringFacts(p: ReviewProgress)
      requires maxChars >= 1 && RowOk(limits, diff, maxChars, p) && p.stage.Exploring?
      ensures Roots(CandidateRoots(diff, maxChars)) && Incomparable(CandidateRoots(diff, maxChars))
      ensures InPhase(CandidateRoots(diff, maxChars), Candidate) && Resumable(CandidateRoots(diff, maxChars), p.checkpoints)
    {
      RootsAreTheInput(diff, maxChars, []);
      hide CandidateRoots, Resumable;
    }

    lemma ExploreSaves(p: ReviewProgress, runner: RoundRobinReview)
      requires Valid() && row == Some(p) && p.stage.Exploring? && runner.Safe()
      requires runner.limits == limits && runner.phase == Candidate && runner.roots == CandidateRoots(diff, maxChars)
      requires runner.began == p.checkpoints && runner.opening == Charged(Candidate, p.checkpoints)
      ensures RowHistory(limits, diff, maxChars, rows + AsRows(p, runner.saves), Some(p.(checkpoints := runner.store)))
      ensures Extends(runner.store, p.checkpoints) && AsksOnlyNew(runner.invocations, p.checkpoints)
      ensures AtMost(Charged(Candidate, runner.store), runner.usage) && Fits(runner.usage, limits, Candidate)
      ensures Balanced(runner.opening, runner.invocations, runner.truncations, runner.usage)
    {
      hide RowOk, GoodSave, Charged, Asked, Extends, Balanced;
      RowFacts();
      forall i | 0 <= i < |runner.saves|
        ensures RowOk(limits, diff, maxChars, p.(checkpoints := runner.saves[i])) && Extends(runner.saves[i], p.checkpoints)
      {
        CandidateSaveOk(limits, diff, maxChars, p, runner.saves[i]);
      }
      RunIsAccepted(limits, diff, maxChars, rows, p, runner.saves);
      SelfExtends(p.checkpoints);
      FitsFrom(p, runner.usage);
    }

    lemma SelfExtends(cps: Checkpoints)
      ensures Extends(cps, cps)
    {
    }

    lemma FitsFrom(p: ReviewProgress, spent: Usage)
      requires maxChars >= 1 && RowOk(limits, diff, maxChars, p) && p.stage.Exploring?
      requires spent.llmCalls <= Larger(Charged(Candidate, p.checkpoints).llmCalls, CallCap(limits, Candidate))
      requires spent.toolCalls <= Larger(Charged(Candidate, p.checkpoints).toolCalls, ToolCap(limits, Candidate))
      ensures Fits(spent, limits, Candidate)
    {
      hide Resumable, Charged, CandidateRoots;
    }

    /** Explores the candidates and freezes them: a later attempt can never reopen the exploration. */
    method Explore(p: ReviewProgress)
      returns (next: Option<ReviewProgress>, ghost done: seq<WorkItem>, ghost open: seq<WorkItem>)
      requires Valid() && row == Some(p) && p.stage.Exploring? && usage == Charged(Candidate, p.checkpoints)
      modifies this
      ensures old(rows) <= rows
      ensures Valid() && row.Some? && Extends(row.value.checkpoints, p.checkpoints)
      ensures Fits(usage, limits, Candidate) && AtMost(ResumeUsage(row.value), usage)
      ensures old(invocations) <= invocations && AsksOnlyNew(invocations[|old(invocations)|..], p.checkpoints)
      ensures Exact(old(usage), old(Now()), Now())
      ensures next.None? <==> faults > old(faults)
      ensures faults >= old(faults)
      ensures next.Some? ==> row == next && next.value.stage.Verifying?
      ensures next.Some? ==> next.value.candidateUsage == Charged(Candidate, next.value.checkpoints)
      ensures next.Some? ==>
        && Separated(CandidateRoots(diff, maxChars), next.value.checkpoints, done, open)
        && (forall item :: item in done ==> item.key in next.value.checkpoints)
        && next.value.frozen == freeze(Results(done, next.value.checkpoints))
        && next.value.coverage == Coverage(open == [], |done|, |done| + |open|)
    {
      hide *;
      var runner, failure := ExploreRun(p);
      ExploringUsage(p.(checkpoints := runner.store));
      done, open := runner.completed, runner.pending;
      if failure.Some? { return None, done, open; }
      RowFacts();
      RunFacts(Candidate, CandidateRoots(diff, maxChars), p.checkpoints, runner, maxChunks);
      var candidates := CollectResults(runner.completed, runner.checkpoints);
      var coverage := Coverage(runner.pending == [], |runner.completed|, |runner.completed| + |runner.pending|);
      var charged := ChargeAll(Candidate, runner.checkpoints);
      var limitations: seq<string> := *;
      var frozen := ReviewProgress(Verifying, runner.checkpoints, freeze(candidates), coverage, charged, limitations, None);
      Freezing(row.value, frozen);
      ghost var explored := Now();
      var outcome := Save(frozen);
      ExactKept(old(usage), old(Now()), explored, Now());
      assert outcome != Rejected;
      next := if outcome == Stored then Some(frozen) else None;
    }

    lemma ExploringUsage(p: ReviewProgress)
      requires p.stage.Exploring?
      ensures ResumeUsage(p) == Charged(Candidate, p.checkpoints)
    {
    }

    lemma RunFacts(phase: Phase, roots: seq<WorkItem>, began: Checkpoints, runner: RoundRobinReview, units: nat)
      requires PhaseEnds(limits, phase, roots, began, runner.checkpoints, runner.completed, runner.pending, units, usage)
      ensures forall item :: item in runner.completed ==> item.key in runner.checkpoints
      ensures Separated(roots, runner.checkpoints, runner.completed, runner.pending)
      ensures runner.pending == [] ==> AllDone(roots, runner.checkpoints)
    {
      hide Leaves, Having, Incomparable;
      if runner.pending == [] {
        NothingPending(limits, phase, roots, began, runner.checkpoints, runner.completed, runner.pending, units, usage);
      }
    }

    lemma Freezing(p: ReviewProgress, next: ReviewProgress)
      requires maxChars >= 1 && RowOk(limits, diff, maxChars, p) && p.stage.Exploring? && next.stage.Verifying?
      requires next.checkpoints == p.checkpoints && next.candidateUsage == Charged(Candidate, p.checkpoints)
      requires next.coverage.complete ==> AllDone(CandidateRoots(diff, maxChars), p.checkpoints)
      ensures RowOk(limits, diff, maxChars, next) && Accepts(p, next)
      ensures Extends(next.checkpoints, p.checkpoints)
      ensures ResumeUsage(next) == Charged(Candidate, p.checkpoints)
    {
      hide Charged, AllDone, CandidateRoots, VerificationRoots, Leaves;
      FrozenRowOk(limits, diff, maxChars, p, next);
    }

    // ---- Verification phase ---------------------------------------------------------------

    method VerifyRun(p: ReviewProgress) returns (runner: RoundRobinReview, failure: Option<Failure>)
      requires Valid() && row == Some(p) && p.stage.Verifying?
      requires AtMost(ResumeUsage(p), usage) && Fits(usage, limits, Verification)
      modifies this
      ensures old(rows) <= rows
      ensures Valid() && row == Some(p.(checkpoints := runner.store)) && fresh(runner)
      ensures Extends(runner.store, p.checkpoints)
      ensures usage == runner.usage && AtMost(ResumeUsage(row.value), usage) && Fits(usage, limits, Verification)
      ensures Exact(old(usage), old(Now()), Now())
      ensures failure.Some? <==> faults > old(faults)
      ensures faults >= old(faults)
      ensures old(invocations) <= invocations && AsksOnlyNew(invocations[|old(invocations)|..], p.checkpoints)
      ensures failure.None? ==>
        && runner.store == runner.checkpoints
        && PhaseEnds(limits, Verification, VerificationRoots(p.frozen), p.checkpoints, runner.checkpoints,
                     runner.completed, runner.pending, Larger(1, |p.frozen|), usage)
    {
      hide *;
      RowFacts();
      VerifyingFacts(p);
      ghost var spentBefore := usage;
      runner := new RoundRobinReview(limits, Verification, VerificationRoots(p.frozen), Larger(1, |p.frozen|),
                                     p.checkpoints, usage);
      failure := runner.Run();
      VerifySaves(p, runner, spentBefore);
      usage := runner.usage;
      invocations := invocations + runner.invocations;
      assert invocations[|old(invocations)|..] == runner.invocations;
      forgiven, faults := forgiven + runner.truncations, faults + runner.faults;
      rows := rows + AsRows(p, runner.saves);
      row := Some(p.(checkpoints := runner.store));
      Revalid();
      ExactRun(old(usage), old(Now()), Now(), runner.invocations, runner.truncations);
    }

    lemma VerifyingFacts(p: ReviewProgress)
      requires maxChars >= 1 && RowOk(limits, diff, maxChars, p) && p.stage.Verifying?
      ensures Roots(VerificationRoots(p.frozen)) && Incomparable(VerificationRoots(p.frozen))
      ensures InPhase(VerificationRoots(p.frozen), Verification)
      ensures Resumable(VerificationRoots(p.frozen), p.checkpoints)
    {
      RootsAreTheInput(diff, maxChars, p.frozen);
      hide VerificationRoots, Resumable, CandidateRow;
    }

    lemma VerifySaves(p: ReviewProgress, runner: RoundRobinReview, spentBefore: Usage)
      requires Valid() && row == Some(p) && p.stage.Verifying? && runner.Safe()
      requires AtMost(ResumeUsage(p), spentBefore) && Fits(spentBefore, limits, Verification)
      requires runner.limits == limits && runner.phase == Verification && runner.roots == VerificationRoots(p.frozen)
      requires runner.began == p.checkpoints && runner.opening == spentBefore
      ensures RowHistory(limits, diff, maxChars, rows + AsRows(p, runner.saves), Some(p.(checkpoints := runner.store)))
      ensures Extends(runner.store, p.checkpoints) && AsksOnlyNew(runner.invocations, p.checkpoints)
      ensures AtMost(ResumeUsage(p.(checkpoints := runner.store)), runner.usage)
      ensures Fits(runner.usage, limits, Verification)
      ensures Balanced(runner.opening, runner.invocations, runner.truncations, runner.usage)
    {
      hide RowOk, GoodSave, Charged, Asked, Extends, VerificationRoots, Balanced;
      RowFacts();
      forall i | 0 <= i < |runner.saves|
        ensures RowOk(limits, diff, maxChars, p.(checkpoints := runner.saves[i])) && Extends(runner.saves[i], p.checkpoints)
      {
        VerificationSaveOk(limits, diff, maxChars, p, spentBefore, runner.saves[i]);
      }
      RunIsAccepted(limits, diff, maxChars, rows, p, runner.saves);
      SelfExtends(p.checkpoints);
    }

    /** Verifies the frozen candidates and stores the completed review. */
    method Verify(p: ReviewProgress)
      returns (outcome: Outcome, ghost done: seq<WorkItem>, ghost open: seq<WorkItem>, ghost limited: bool)
      requires Valid() && row == Some(p) && p.stage.Verifying?
      requires AtMost(ResumeUsage(p), usage) && Fits(usage, limits, Verification)
      modifies this
      ensures old(rows) <= rows
      ensures Valid() && row.Some? && Extends(row.value.checkpoints, p.checkpoints)
      ensures Fits(usage, limits, Verification) && AtMost(ResumeUsage(row.value), usage)
      ensures old(invocations) <= invocations && AsksOnlyNew(invocations[|old(invocations)|..], p.checkpoints)
      ensures Exact(old(usage), old(Now()), Now())
      ensures outcome.Reviewed? ==> row.value.stage.Finished? && row.value.result == Some(outcome.result)
      ensures !outcome.Skipped?
      ensures outcome.Failed? <==> faults > old(faults)
      ensures faults >= old(faults)
      ensures outcome.Reviewed? ==>
        && Separated(VerificationRoots(p.frozen), row.value.checkpoints, done, open)
        && (forall item :: item in done ==> item.key in row.value.checkpoints)
        && var validated := validate(Results(done, row.value.checkpoints));
        && outcome.result.findings <= validated
        && |outcome.result.findings| == (if |validated| < maxFindings then |validated| else maxFindings)
        && (outcome.result.complete <==>
              open == [] && p.coverage.complete && p.candidateLimitations == [] && !limited && |validated| <= maxFindings)
    {
      hide *;
      var runner, failure := VerifyRun(p);
      done, open := runner.completed, runner.pending;
      limited := false;
      if failure.Some? { return Failed, done, open, limited; }
      RunFacts(Verification, VerificationRoots(p.frozen), p.checkpoints, runner, Larger(1, |p.frozen|));
      var verified := CollectResults(runner.completed, runner.checkpoints);
      var validated := validate(verified);
      var findings := if |validated| > maxFindings then validated[..maxFindings] else validated;
      var limitations: seq<string> := *;
      limited := limitations != [];
      var unlimited := p.candidateLimitations == [] && limitations == [];
      var complete := p.coverage.complete && runner.pending == [] && unlimited && |validated| <= maxFindings;
      var result := ReviewResult(findings, complete);
      RowFacts();
      var finished := row.value.(stage := Finished, result := Some(result));
      Finishing(row.value, result);
      ghost var verifiedAll := Now();
      var saved := Save(finished);
      ExactKept(old(usage), old(Now()), verifiedAll, Now());
      assert saved != Rejected;
      outcome := if saved == Stored then Reviewed(result) else Failed;
    }

    lemma Finishing(p: ReviewProgress, result: ReviewResult)
      requires maxChars >= 1 && RowOk(limits, diff, maxChars, p) && p.stage.Verifying?
      requires result.complete ==> p.coverage.complete && p.candidateLimitations == []
      requires result.complete ==> AllDone(VerificationRoots(p.frozen), p.checkpoints)
      ensures var next := p.(stage := Finished, result := Some(result));
              && RowOk(limits, diff, maxChars, next) && Accepts(p, next)
              && Extends(next.checkpoints, p.checkpoints) && ResumeUsage(next) == ResumeUsage(p)
    {
      hide RowOk, AllDone, Accepts, Charged;
      FinishedRowOk(limits, diff, maxChars, p, result);
    }

    // ---- Attempts -------------------------------------------------------------------------

    method ExploreAndVerify(p: ReviewProgress) returns (outcome: Outcome)
      requires Valid() && row == Some(p) && p.stage.Exploring? && usage == Charged(Candidate, p.checkpoints)
      modifies this
      ensures old(rows) <= rows
      ensures Valid() && row.Some? && Extends(row.value.checkpoints, p.checkpoints)
      ensures Fits(usage, limits, Verification) && AtMost(ResumeUsage(row.value), usage)
      ensures old(invocations) <= invocations && AsksOnlyNew(invocations[|old(invocations)|..], p.checkpoints)
      ensures Exact(old(usage), old(Now()), Now())
      ensures outcome.Reviewed? ==> row.value.stage.Finished? && row.value.result == Some(outcome.result)
      ensures !outcome.Skipped?
      ensures outcome.Failed? <==> faults > old(faults)
      ensures faults >= old(faults)
    {
      hide *;
      var next, explored, unexplored := Explore(p);
      VerificationFits(usage);
      if next.None? { return Failed; }
      ghost var log, frozen, middle := invocations, row.value.checkpoints, Now();
      ghost var verified, unverified, limited;
      outcome, verified, unverified, limited := Verify(next.value);
      ExactThen(old(usage), old(Now()), middle, Now());
      AsksOlder(invocations[|log|..], frozen, p.checkpoints);
      AsksMore(log[|old(invocations)|..], invocations[|log|..], p.checkpoints);
      assert invocations[|old(invocations)|..] == log[|old(invocations)|..] + invocations[|log|..];
      ExtendsAll(row.value.checkpoints, frozen, p.checkpoints);
    }

    lemma ExtendsAll(last: Checkpoints, middle: Checkpoints, first: Checkpoints)
      requires Extends(last, middle) && Extends(middle, first)
      ensures Extends(last, first)
    {
    }

    /** Candidate exploration never touches the reserve, so verification starts with at least that much. */
    lemma VerificationFits(spent: Usage)
      requires Fits(spent, limits, Candidate)
      ensures Fits(spent, limits, Verification)
      ensures limits.callReserve <= limits.maxCalls ==>
        RemainingCalls(limits, Verification, spent) >= limits.callReserve
      ensures limits.toolReserve <= limits.maxTools ==>
        RemainingTools(limits, Verification, spent) >= limits.toolReserve
    {
    }

    lemma NoneAsked()
      requires Valid()
      ensures maxChars >= 1
      ensures forall cps :: AsksOnlyNew([], cps)
      ensures row.Some? ==> Extends(row.value.checkpoints, row.value.checkpoints)
    {
    }

    lemma BlankRow(blank: ReviewProgress)
      requires blank == ReviewProgress(Exploring, map[], [], Coverage(false, 0, 0), NOTHING, [], None) && maxChars >= 1
      ensures RowOk(limits, diff, maxChars, blank)
    {
      hide CandidateRoots, Leaves;
    }

    lemma Charging(p: ReviewProgress)
      requires maxChars >= 1 && RowOk(limits, diff, maxChars, p) && !p.stage.Finished?
      ensures p.stage.Verifying? ==>
        && Fits(ResumeUsage(p), limits, Verification) && AtMost(ResumeUsage(p), ResumeUsage(p))
        && ResumeUsage(p) == Plus(p.candidateUsage, Charged(Verification, p.checkpoints))
      ensures !p.stage.Verifying? ==> p.stage.Exploring?
      ensures RowCharge(Some(p)) == if p.stage.Exploring? then Charged(Candidate, p.checkpoints)
                                    else Plus(p.candidateUsage, Charged(Verification, p.checkpoints))
    {
      hide Charged, Resumable, AllDone, CandidateRoots;
    }

    lemma ResultFacts(p: ReviewProgress)
      requires maxChars >= 1 && RowOk(limits, diff, maxChars, p) && p.stage.Finished?
      ensures p.result.Some?
    {
      hide CandidateRow, VerificationRow, AllDone;
    }

    /** One review attempt, from whatever the earlier ones left in the durable row.  `nothing` stands for a
        change with a skip reason, without changed files or with a blank diff. */
    method Review(nothing: bool) returns (outcome: Outcome)
      requires Valid()
      modifies this
      ensures old(rows) <= rows
      ensures Valid() && (old(row).Some? ==> row.Some? && Extends(row.value.checkpoints, old(row).value.checkpoints))
      ensures old(invocations) <= invocations
      ensures old(row).Some? ==> AsksOnlyNew(invocations[|old(invocations)|..], old(row).value.checkpoints)
      ensures StaysWithin(limits, old(Now()), Now()) && KeepsResult(old(Now()), Now())
      // the charge is exact, so a resume charges nothing that was not spent
      ensures Unasked(old(Now()), Now()) || Exact(RowCharge(old(row)), old(Now()), Now())
      ensures Paid(old(Now()), Now())
      ensures outcome.Reviewed? ==>
        row.Some? && row.value.stage.Finished? && row.value.result == Some(outcome.result)
      ensures outcome.Skipped? <==> nothing
      ensures outcome.Failed? <==> faults > old(faults)
      ensures faults >= old(faults)
    {
      hide *;
      NoneAsked();
      assert invocations[|old(invocations)|..] == [];
      ghost var began := Now();
      Idle(limits, began, began);
      if nothing { return Skipped; }
      if * {
        faults := faults + 1;
        return Failed;
      }
      if row.None? {
        var blank := ReviewProgress(Exploring, map[], [], Coverage(false, 0, 0), NOTHING, [], None);
        BlankRow(blank);
        var saved := Save(blank);
        BlankCharges(blank, began, Now());
        Idle(limits, began, Now());
        if saved != Stored { return Failed; }
      }
      ghost var found := Now();
      assert RowCharge(found.row) == RowCharge(began.row);
      var p := row.value;
      RowFacts();
      if p.stage.Finished? {
        ResultFacts(p);
        return Reviewed(p.result.value);
      }
      Charging(p);
      if p.stage.Exploring? {
        usage := ChargeAll(Candidate, p.checkpoints);
        ghost var charged := Now();
        outcome := ExploreAndVerify(p);
        SameAccount(RowCharge(began.row), began, charged, Now());
      } else {
        var verifying := ChargeAll(Verification, p.checkpoints);
        usage := Plus(p.candidateUsage, verifying);
        ghost var charged := Now();
        ghost var verified, unverified, limited;
        outcome, verified, unverified, limited := Verify(p);
        SameAccount(RowCharge(began.row), began, charged, Now());
      }
      Worked(began);
    }

    lemma BlankCharges(blank: ReviewProgress, was: State, now: State)
      requires was.row.None? && (now.row == was.row || now.row == Some(blank))
      requires blank.stage.Exploring? && blank.checkpoints == map[]
      requires now.usage == was.usage && now.invocations == was.invocations && now.forgiven == was.forgiven
      ensures Unasked(was, now)
    {
    }

    lemma SameAccount(opening: Usage, was: State, charged: State, now: State)
      requires Exact(opening, charged, now)
      requires charged.invocations == was.invocations && charged.forgiven == was.forgiven
      ensures Exact(opening, was, now)
    {
    }

    lemma Worked(was: State)
      requires was.row.Some? ==> !was.row.value.stage.Finished?
      requires row.Some? && AtMost(ResumeUsage(row.value), usage) && Fits(usage, limits, Verification)
      requires Exact(RowCharge(was.row), was, Now())
      ensures StaysWithin(limits, was, Now()) && KeepsResult(was, Now()) && Paid(was, Now())
    {
      hide Charged, Requests, Reads;
    }

    /** Any number of attempts over the same durable row, each ending anywhere: no checkpoint is lost, no
        checkpointed item is asked for again, every attempt stays within the limits, what the row charges has been
        spent in one of them, and all that return a result return the one that is stored. */
    method Attempts(n: nat) returns (outcomes: seq<Outcome>)
      requires Valid()
      modifies this
      ensures old(rows) <= rows
      ensures Valid() && (old(row).Some? ==> row.Some? && Extends(row.value.checkpoints, old(row).value.checkpoints))
      ensures old(invocations) <= invocations
      ensures old(row).Some? ==> AsksOnlyNew(invocations[|old(invocations)|..], old(row).value.checkpoints)
      ensures StaysWithin(limits, old(Now()), Now()) && KeepsResult(old(Now()), Now()) && Paid(old(Now()), Now())
      ensures |outcomes| == n
      ensures faults == old(faults) ==> forall i :: 0 <= i < n ==> outcomes[i].Reviewed?
      ensures forall i :: 0 <= i < n && outcomes[i].Reviewed? ==>
        row.Some? && row.value.stage.Finished? && row.value.result == Some(outcomes[i].result)
    {
      hide *;
      NoneAsked();
      ghost var began := Now();
      Idle(limits, began, began);
      outcomes := [];
      assert invocations[|old(invocations)|..] == [];
      for i := 0 to n
        invariant old(rows) <= rows && Valid()
        invariant old(row).Some? ==> row.Some? && Extends(row.value.checkpoints, old(row).value.checkpoints)
        invariant old(invocations) <= invocations
        invariant old(row).Some? ==> AsksOnlyNew(invocations[|old(invocations)|..], old(row).value.checkpoints)
        invariant StaysWithin(limits, old(Now()), Now()) && KeepsResult(old(Now()), Now()) && Paid(old(Now()), Now())
        invariant |outcomes| == i && faults >= old(faults)
        invariant faults == old(faults) ==> forall j :: 0 <= j < i ==> outcomes[j].Reviewed?
        invariant forall j :: 0 <= j < i && outcomes[j].Reviewed? ==>
          row.Some? && row.value.stage.Finished? && row.value.result == Some(outcomes[j].result)
      {
        ghost var log, was, middle := invocations, row, Now();
        var outcome := Review(false);
        Onward(limits, began, middle, Now());
        PaidThen(began, middle, Now());
        outcomes := outcomes + [outcome];
        assert invocations[|old(invocations)|..] == log[|old(invocations)|..] + invocations[|log|..];
        if old(row).Some? {
          AsksOlder(invocations[|log|..], was.value.checkpoints, old(row).value.checkpoints);
          AsksMore(log[|old(invocations)|..], invocations[|log|..], old(row).value.checkpoints);
          ExtendsAll(row.value.checkpoints, was.value.checkpoints, old(row).value.checkpoints);
        }
      }
    }
  }
}
