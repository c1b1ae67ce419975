/** Durable review progress: the compare-and-save guard of jobs/progress.py, and what every stored row of
    a review satisfies (review/progress.py, review/native.py). */
module Progress {
  import opened Wrappers
  import opened WorkForest
  import opened Ledger
  import opened Scheduler
  import Chunking

  datatype Stage = Exploring | Verifying | Finished

  datatype Coverage = Coverage(complete: bool, chunksReviewed: nat, chunksTotal: nat)

  datatype ReviewResult = ReviewResult(findings: seq<Finding>, complete: bool)

  /** `phase` of the source is the stage. */
  datatype ReviewProgress = ReviewProgress(
    stage: Stage,
    checkpoints: Checkpoints,
    frozen: seq<Finding>,
    coverage: Coverage,
    candidateUsage: Usage,
    candidateLimitations: seq<string>,
    result: Option<ReviewResult>)

  // ---- The guard of `save` ----------------------------------------------------------------

  function Order(stage: Stage): nat {
    match stage case Exploring => 0 case Verifying => 1 case Finished => 2
  }

  /** The stored row `was` may be replaced by `next`. */
  predicate Accepts(was: ReviewProgress, next: ReviewProgress) {
    && Order(next.stage) >= Order(was.stage)
    && (was.stage.Finished? ==> was.result == next.result)
    && (!was.stage.Exploring? ==>
          was.frozen == next.frozen && was.candidateUsage == next.candidateUsage && was.coverage == next.coverage
          && was.candidateLimitations == next.candidateLimitations)
  }

  predicate AcceptedHistory(rows: seq<ReviewProgress>) {
    forall i :: 0 < i < |rows| ==> Accepts(rows[i - 1], rows[i])
  }

  /** Along any accepted sequence of saves the stage never moves back, the candidate manifest is constant
      once verification has begun, and a completed result never changes. */
  lemma {:induction false} ManifestIsImmutable(rows: seq<ReviewProgress>, i: nat, j: nat)
    requires AcceptedHistory(rows) && i <= j < |rows|
    ensures Order(rows[i].stage) <= Order(rows[j].stage)
    ensures !rows[i].stage.Exploring? ==>
      && rows[i].frozen == rows[j].frozen && rows[i].coverage == rows[j].coverage
      && rows[i].candidateUsage == rows[j].candidateUsage
      && rows[i].candidateLimitations == rows[j].candidateLimitations
    ensures rows[i].stage.Finished? ==> rows[j].stage.Finished? && rows[i].result == rows[j].result
    decreases j
  {
    if i < j {
      ManifestIsImmutable(rows, i, j - 1);
      assert Accepts(rows[j - 1], rows[j]);
    }
  }

  // ---- The work of the two phases ---------------------------------------------------------

  function CandidateRoots(diff: string, maxChars: nat): seq<WorkItem>
    requires maxChars >= 1
  {
    var chunks := Chunking.Chunks(diff, maxChars);
    seq(|chunks|, i requires 0 <= i < |chunks| => WorkItem(Key(Candidate, [i]), Diff(chunks[i])))
  }

  const MAX_BATCH := 8
  const MAX_BATCH_JSON := 32000

  function JsonLength(findings: seq<Finding>): nat {
    if findings == [] then 0 else JsonLength(findings[..|findings| - 1]) + findings[|findings| - 1].jsonLength
  }

  /** The loop of `_verification_work`, from the state where `current` is collected. */
  function BatchesFrom(findings: seq<Finding>, current: seq<Finding>): seq<seq<Finding>>
    decreases |findings|
  {
    if findings == [] then (if current == [] then [] else [current])
    else if current != [] && (|current| >= MAX_BATCH || JsonLength(current) + findings[0].jsonLength > MAX_BATCH_JSON) then
      [current] + BatchesFrom(findings[1..], [findings[0]])
    else BatchesFrom(findings[1..], current + [findings[0]])
  }

  function VerificationRoots(frozen: seq<Finding>): seq<WorkItem> {
    var batches := BatchesFrom(frozen, []);
    seq(|batches|, i requires 0 <= i < |batches| => WorkItem(Key(Verification, [i]), Batch(batches[i])))
  }

  method VerificationBatches(findings: seq<Finding>) returns (batches: seq<seq<Finding>>)
    ensures batches == BatchesFrom(findings, [])
  {
    batches := [];
    var current, size := [], 0;
    assert findings[0..] == findings;
    for i := 0 to |findings|
      invariant batches + BatchesFrom(findings[i..], current) == BatchesFrom(findings, [])
      invariant size == JsonLength(current)
    {
      var finding := findings[i];
      ghost var wasBatches, wasCurrent := batches, current;
      assert findings[i..][0] == finding && findings[i..][1..] == findings[i + 1..];
      if current != [] && (|current| >= MAX_BATCH || size + finding.jsonLength > MAX_BATCH_JSON) {
        batches := batches + [current];
        current, size := [], 0;
        assert [] + [finding] == [finding];
      }
      assert (current + [finding])[..|current|] == current;
      current := current + [finding];
      size := size + finding.jsonLength;
    }
    if current != [] { batches := batches + [current]; }
  }

  function Joined(batches: seq<seq<Finding>>): seq<Finding> {
    if batches == [] then [] else batches[0] + Joined(batches[1..])
  }

  predicate BatchOk(batch: seq<Finding>) {
    0 < |batch| <= MAX_BATCH && (|batch| > 1 ==> JsonLength(batch) <= MAX_BATCH_JSON)
  }

  /** Batching loses and reorders nothing; every batch is non-empty and bounded in count, and in JSON size
      unless it is a single finding. */
  lemma {:induction false} BatchesKeepFindings(findings: seq<Finding>, current: seq<Finding>)
    requires current == [] || BatchOk(current)
    ensures Joined(BatchesFrom(findings, current)) == current + findings
    ensures forall i :: 0 <= i < |BatchesFrom(findings, current)| ==> BatchOk(BatchesFrom(findings, current)[i])
    decreases |findings|
  {
    if findings == [] {
      assert Joined([current]) == current + Joined([current][1..]);
    } else {
      assert (current + [findings[0]])[..|current|] == current;
      assert current + findings == current + [findings[0]] + findings[1..];
      if current != [] && (|current| >= MAX_BATCH || JsonLength(current) + findings[0].jsonLength > MAX_BATCH_JSON) {
        BatchesKeepFindings(findings[1..], [findings[0]]);
        var rest := BatchesFrom(findings[1..], [findings[0]]);
        assert ([current] + rest)[1..] == rest;
      } else {
        BatchesKeepFindings(findings[1..], current + [findings[0]]);
      }
    }
  }

  /** A batch is closed only when the next finding has no room in it: eight are in it already, or the JSON would be
      too long. */
  lemma {:induction false} BatchesAreFull(findings: seq<Finding>, current: seq<Finding>, i: nat)
    requires (current == [] || BatchOk(current)) && i + 1 < |BatchesFrom(findings, current)|
    ensures var batch, next := BatchesFrom(findings, current)[i], BatchesFrom(findings, current)[i + 1];
            next != [] && (|batch| == MAX_BATCH || JsonLength(batch) + next[0].jsonLength > MAX_BATCH_JSON)
    decreases |findings|
  {
    if findings != [] {
      assert (current + [findings[0]])[..|current|] == current;
      if current != [] && (|current| >= MAX_BATCH || JsonLength(current) + findings[0].jsonLength > MAX_BATCH_JSON) {
        BatchBegins(findings[1..], [findings[0]]);
        if i > 0 { BatchesAreFull(findings[1..], [findings[0]], i - 1); }
      } else {
        BatchesAreFull(findings[1..], current + [findings[0]], i);
      }
    }
  }

  lemma {:induction false} BatchBegins(findings: seq<Finding>, current: seq<Finding>)
    requires current != []
    ensures BatchesFrom(findings, current) != [] && current <= BatchesFrom(findings, current)[0]
    decreases |findings|
  {
    if findings != [] && !(|current| >= MAX_BATCH || JsonLength(current) + findings[0].jsonLength > MAX_BATCH_JSON) {
      BatchBegins(findings[1..], current + [findings[0]]);
    }
  }

  lemma {:induction false} BatchItems(items: seq<WorkItem>, batches: seq<seq<Finding>>)
    requires |items| == |batches|
    requires forall i :: 0 <= i < |items| ==> items[i].payload == Batch(batches[i])
    ensures Findings(items) == Joined(batches)
  {
    if items != [] { BatchItems(items[1..], batches[1..]); }
  }

  lemma {:induction false} DiffItems(items: seq<WorkItem>, chunks: seq<string>)
    requires |items| == |chunks|
    requires forall i :: 0 <= i < |items| ==> items[i].payload == Diff(chunks[i])
    ensures Text(items) == Chunking.Concat(chunks)
  {
    if items != [] { DiffItems(items[1..], chunks[1..]); }
  }

  predicate WellRooted(items: seq<WorkItem>, phase: Phase) {
    Roots(items) && Incomparable(items) && InPhase(items, phase)
  }

  lemma IndexedRoots(items: seq<WorkItem>, phase: Phase)
    requires forall i :: 0 <= i < |items| ==> items[i].key == Key(phase, [i])
    ensures WellRooted(items, phase)
  {
    forall i, j | 0 <= i < j < |items| ensures !Comparable(items[i].key, items[j].key) {
      assert items[i].key.path[0] == i && items[j].key.path[0] == j;
    }
  }

  /** The candidate work is the diff, and the verification work is the frozen candidate list. */
  lemma RootsAreTheInput(diff: string, maxChars: nat, frozen: seq<Finding>)
    requires maxChars >= 1
    ensures WellRooted(CandidateRoots(diff, maxChars), Candidate) && Text(CandidateRoots(diff, maxChars)) == diff
    ensures WellRooted(VerificationRoots(frozen), Verification) && Findings(VerificationRoots(frozen)) == frozen
  {
    hide Chunking.Chunks, BatchesFrom;
    Chunking.ChunksCoverDiff(diff, maxChars);
    DiffItems(CandidateRoots(diff, maxChars), Chunking.Chunks(diff, maxChars));
    BatchesKeepFindings(frozen, []);
    assert [] + frozen == frozen;
    BatchItems(VerificationRoots(frozen), BatchesFrom(frozen, []));
    IndexedRoots(CandidateRoots(diff, maxChars), Candidate);
    IndexedRoots(VerificationRoots(frozen), Verification);
  }

  // ---- Stored rows ------------------------------------------------------------------------

  predicate AllDone(roots: seq<WorkItem>, cps: Checkpoints) {
    forall leaf :: leaf in Leaves(roots, cps) ==> leaf.key in cps && cps[leaf.key].status.Done?
  }

  /** What a resumed attempt charges before it does anything. */
  ghost function ResumeUsage(row: ReviewProgress): Usage {
    if row.stage.Exploring? then Charged(Candidate, row.checkpoints)
    else Plus(row.candidateUsage, Charged(Verification, row.checkpoints))
  }

  predicate Fits(usage: Usage, limits: Limits, phase: Phase) {
    usage.llmCalls <= CallCap(limits, phase) && usage.toolCalls <= ToolCap(limits, phase)
  }

  predicate InCandidatePhase(cps: Checkpoints) {
    forall key :: key in cps ==> key.phase.Candidate?
  }

  ghost predicate CandidateRow(limits: Limits, diff: string, maxChars: nat, cps: Checkpoints)
    requires maxChars >= 1
  {
    Resumable(CandidateRoots(diff, maxChars), cps) && Fits(Charged(Candidate, cps), limits, Candidate)
  }

  ghost predicate VerificationRow(limits: Limits, diff: string, maxChars: nat, row: ReviewProgress)
    requires maxChars >= 1
  {
    && row.candidateUsage == Charged(Candidate, row.checkpoints)
    && (row.coverage.complete ==> AllDone(CandidateRoots(diff, maxChars), row.checkpoints))
    && Resumable(VerificationRoots(row.frozen), row.checkpoints)
    && Fits(ResumeUsage(row), limits, Verification)
  }

  /** Holds for every row the engine ever stores. */
  ghost predicate RowOk(limits: Limits, diff: string, maxChars: nat, row: ReviewProgress)
    requires maxChars >= 1
  {
    && CandidateRow(limits, diff, maxChars, row.checkpoints)
    && (row.stage.Exploring? ==> InCandidatePhase(row.checkpoints))
    && (!row.stage.Exploring? ==> VerificationRow(limits, diff, maxChars, row))
    && (row.stage.Finished? ==>
          && row.result.Some?
          && (row.result.value.complete ==>
                && row.coverage.complete && row.candidateLimitations == []
                && AllDone(VerificationRoots(row.frozen), row.checkpoints)))
  }

  /** A review that calls itself complete met no limitation while exploring, and has a stored DONE answer for
      pieces that add up to the whole diff, and one for batches that add up to the whole candidate list. */
  lemma CompleteMeansReviewed(limits: Limits, diff: string, maxChars: nat, row: ReviewProgress)
    requires maxChars >= 1 && RowOk(limits, diff, maxChars, row)
    requires row.stage.Finished? && row.result.value.complete
    ensures row.coverage.complete && row.candidateLimitations == []
    ensures var chunks := Leaves(CandidateRoots(diff, maxChars), row.checkpoints);
            && Text(chunks) == diff && Incomparable(chunks)
            && forall leaf :: leaf in chunks ==> leaf.key in row.checkpoints && row.checkpoints[leaf.key].status.Done?
    ensures var batches := Leaves(VerificationRoots(row.frozen), row.checkpoints);
            && Findings(batches) == row.frozen && Incomparable(batches)
            && forall leaf :: leaf in batches ==> leaf.key in row.checkpoints && row.checkpoints[leaf.key].status.Done?
  {
    hide Leaves, CandidateRoots, VerificationRoots, Resumable, Incomparable;
    RootsAreTheInput(diff, maxChars, row.frozen);
    LeavesCover(CandidateRoots(diff, maxChars), row.checkpoints);
    LeavesCover(VerificationRoots(row.frozen), row.checkpoints);
    LeavesIncomparable(CandidateRoots(diff, maxChars), row.checkpoints);
    LeavesIncomparable(VerificationRoots(row.frozen), row.checkpoints);
  }

  /** Whenever verification starts from a stored row, the reserve is still there for it. */
  lemma ReserveIsKept(limits: Limits, diff: string, maxChars: nat, row: ReviewProgress)
    requires maxChars >= 1 && RowOk(limits, diff, maxChars, row) && !row.stage.Exploring?
    requires limits.callReserve <= limits.maxCalls && limits.toolReserve <= limits.maxTools
    ensures RemainingCalls(limits, Verification, ResumeUsage(row)) + Charged(Verification, row.checkpoints).llmCalls
         >= limits.callReserve
    ensures RemainingTools(limits, Verification, ResumeUsage(row)) + Charged(Verification, row.checkpoints).toolCalls
         >= limits.toolReserve
  {
    hide Resumable, AllDone, Charged;
  }

  // ---- Checkpoints of the other phase ------------------------------------------------------

  /** `later` adds only checkpoints of `phase`. */
  predicate AddsOnly(earlier: Checkpoints, later: Checkpoints, phase: Phase) {
    Extends(later, earlier) && Agrees(later) && forall key :: key in later && key !in earlier ==> key.phase == phase
  }

  lemma {:induction false} OtherPhaseLeaves(items: seq<WorkItem>, earlier: Checkpoints, later: Checkpoints, phase: Phase)
    requires AddsOnly(earlier, later, phase) && forall item :: item in items ==> item.key.phase != phase
    ensures Leaves(items, later) == Leaves(items, earlier)
    decreases Total(Weight, items)
  {
    if items != [] {
      hide Children, Weight;
      OtherPhaseLeaves(items[1..], earlier, later, phase);
      if Divided(items[0], earlier) {
        ChildrenShrink(items[0]);
        ChildrenIncomparable(items[0]);
        OtherPhaseLeaves(Children(items[0]).value, earlier, later, phase);
      }
    }
  }

  lemma {:induction false} OtherPhaseCharges(earlier: Checkpoints, later: Checkpoints, phase: Phase, other: Phase)
    requires AddsOnly(earlier, later, phase) && other != phase
    ensures Charged(other, later) == Charged(other, earlier)
    decreases |later|
  {
    hide Charged;
    var added := later.Keys - earlier.Keys;
    if added == {} {
      assert forall key :: key in later ==> key in earlier by {
        assert forall key :: key in later && key !in earlier ==> key in added;
      }
      assert later == earlier;
    } else {
      var key :| key in added;
      var less := later - {key};
      assert AddsOnly(earlier, less, phase);
      ChargedRemove(other, later, key);
      PlusNothing(Charged(other, less));
      OtherPhaseCharges(earlier, less, phase, other);
    }
  }

  lemma {:induction false} NothingCharged(cps: Checkpoints, phase: Phase)
    requires Agrees(cps) && forall key :: key in cps ==> key.phase != phase
    ensures Charged(phase, cps) == NOTHING
    decreases |cps|
  {
    if cps != map[] {
      var key :| key in cps;
      ChargedRemove(phase, cps, key);
      NothingCharged(cps - {key}, phase);
      PlusNothing(NOTHING);
    }
  }

  // ---- From saves of a run to stored rows -------------------------------------------------

  /** All rows ever stored, oldest first: each is sound, each was accepted over the one before, and no
      stored checkpoint is ever lost or changed. */
  ghost predicate RowHistory(limits: Limits, diff: string, maxChars: nat, rows: seq<ReviewProgress>,
                             row: Option<ReviewProgress>)
    requires maxChars >= 1
  {
    && (forall i :: 0 <= i < |rows| ==> RowOk(limits, diff, maxChars, rows[i]))
    && AcceptedHistory(rows)
    && (forall i, j :: 0 <= i < j < |rows| ==> Extends(rows[j].checkpoints, rows[i].checkpoints))
    && row == (if rows == [] then None else Some(rows[|rows| - 1]))
  }

  lemma RowHistoryAdd(limits: Limits, diff: string, maxChars: nat, rows: seq<ReviewProgress>,
                      row: Option<ReviewProgress>, next: ReviewProgress)
    requires maxChars >= 1 && RowHistory(limits, diff, maxChars, rows, row) && RowOk(limits, diff, maxChars, next)
    requires row.Some? ==> Accepts(row.value, next) && Extends(next.checkpoints, row.value.checkpoints)
    ensures RowHistory(limits, diff, maxChars, rows + [next], Some(next))
  {
    hide RowOk, Accepts;
    var all := rows + [next];
    forall i, j | 0 <= i < j < |all| ensures Extends(all[j].checkpoints, all[i].checkpoints) {
      if j == |rows| && i < |rows| - 1 {
        assert Extends(rows[|rows| - 1].checkpoints, rows[i].checkpoints);
      }
    }
  }

  function AsRows(row: ReviewProgress, saves: seq<Checkpoints>): seq<ReviewProgress> {
    if saves == [] then []
    else AsRows(row, saves[..|saves| - 1]) + [row.(checkpoints := saves[|saves| - 1])]
  }

  /** The saves of a run are rows that differ only in their checkpoints, so the guard accepts each. */
  lemma {:induction false} RunIsAccepted(limits: Limits, diff: string, maxChars: nat, rows: seq<ReviewProgress>,
                                         row: ReviewProgress, saves: seq<Checkpoints>)
    requires maxChars >= 1 && RowHistory(limits, diff, maxChars, rows, Some(row))
    requires forall i :: 0 <= i < |saves| ==>
      RowOk(limits, diff, maxChars, row.(checkpoints := saves[i])) && Extends(saves[i], row.checkpoints)
    requires forall i, j :: 0 <= i < j < |saves| ==> Extends(saves[j], saves[i])
    ensures RowHistory(limits, diff, maxChars, rows + AsRows(row, saves),
                       Some(row.(checkpoints := if saves == [] then row.checkpoints else saves[|saves| - 1])))
    decreases |saves|
  {
    if saves == [] {
      assert rows + AsRows(row, saves) == rows;
      assert row.(checkpoints := row.checkpoints) == row;
    } else {
      hide RowOk, RowHistory;
      var front, last := saves[..|saves| - 1], row.(checkpoints := saves[|saves| - 1]);
      RunIsAccepted(limits, diff, maxChars, rows, row, front);
      var before := row.(checkpoints := if front == [] then row.checkpoints else front[|front| - 1]);
      RowHistoryAdd(limits, diff, maxChars, rows + AsRows(row, front), Some(before), last);
      assert rows + AsRows(row, saves) == rows + AsRows(row, front) + [last];
    }
  }

  /** Every save of a candidate run is a sound row. */
  lemma CandidateSaveOk(limits: Limits, diff: string, maxChars: nat, row: ReviewProgress, saved: Checkpoints)
    requires maxChars >= 1 && RowOk(limits, diff, maxChars, row) && row.stage.Exploring?
    requires GoodSave(limits, Candidate, CandidateRoots(diff, maxChars), row.checkpoints,
                      Charged(Candidate, row.checkpoints), saved)
    ensures RowOk(limits, diff, maxChars, row.(checkpoints := saved)) && Extends(saved, row.checkpoints)
  {
    hide Resumable, Charged, CandidateRoots;
  }

  /** Verification checkpoints leave the candidate part alone. */
  lemma CandidatePartKept(limits: Limits, diff: string, maxChars: nat, earlier: Checkpoints, later: Checkpoints)
    requires maxChars >= 1 && AddsOnly(earlier, later, Verification) && Closed(later)
    requires CandidateRow(limits, diff, maxChars, earlier)
    ensures CandidateRow(limits, diff, maxChars, later) && Charged(Candidate, later) == Charged(Candidate, earlier)
    ensures AllDone(CandidateRoots(diff, maxChars), earlier) ==> AllDone(CandidateRoots(diff, maxChars), later)
  {
    hide Leaves, Charged, CandidateRoots, VerificationRoots, Closed, Comparable;
    OtherPhaseCharges(earlier, later, Verification, Candidate);
    RootsAreTheInput(diff, maxChars, []);
    var roots := CandidateRoots(diff, maxChars);
    OtherPhaseLeaves(roots, earlier, later, Verification);
    LeavesInPhase(roots, later, Candidate);
    assert forall leaf :: leaf in Leaves(roots, later) ==> (leaf.key in later <==> leaf.key in earlier);
  }

  /** Every save of a verification run is a sound row: it leaves the candidate part alone. */
  lemma VerificationSaveOk(limits: Limits, diff: string, maxChars: nat, row: ReviewProgress, usage: Usage,
                           saved: Checkpoints)
    requires maxChars >= 1 && RowOk(limits, diff, maxChars, row) && row.stage.Verifying?
    requires Fits(usage, limits, Verification)
    requires ResumeUsage(row).llmCalls <= usage.llmCalls && ResumeUsage(row).toolCalls <= usage.toolCalls
    requires GoodSave(limits, Verification, VerificationRoots(row.frozen), row.checkpoints, usage, saved)
    ensures RowOk(limits, diff, maxChars, row.(checkpoints := saved)) && Extends(saved, row.checkpoints)
  {
    SaveAdds(limits, VerificationRoots(row.frozen), row.checkpoints, usage, saved);
    SaveFits(limits, row, usage, saved);
    hide CandidateRow, AllDone, Resumable, Charged, CandidateRoots, VerificationRoots, Closed, AddsOnly, GoodSave, Fits,
         ResumeUsage;
    CandidatePartKept(limits, diff, maxChars, row.checkpoints, saved);
  }

  lemma SaveFits(limits: Limits, row: ReviewProgress, usage: Usage, saved: Checkpoints)
    requires row.stage.Verifying? && Fits(usage, limits, Verification)
    requires ResumeUsage(row).llmCalls <= usage.llmCalls && ResumeUsage(row).toolCalls <= usage.toolCalls
    requires GoodSave(limits, Verification, VerificationRoots(row.frozen), row.checkpoints, usage, saved)
    ensures Fits(ResumeUsage(row.(checkpoints := saved)), limits, Verification)
    ensures Resumable(VerificationRoots(row.frozen), saved) && Extends(saved, row.checkpoints)
  {
    hide Resumable, Charged, VerificationRoots, Extends;
  }

  lemma SaveAdds(limits: Limits, roots: seq<WorkItem>, began: Checkpoints, usage: Usage, saved: Checkpoints)
    requires GoodSave(limits, Verification, roots, began, usage, saved)
    ensures AddsOnly(began, saved, Verification) && Closed(saved)
  {
    hide Leaves, Closed;
  }

  lemma NothingPending(limits: Limits, phase: Phase, roots: seq<WorkItem>, began: Checkpoints, cps: Checkpoints,
                       completed: seq<WorkItem>, pending: seq<WorkItem>, maxUnits: nat, usage: Usage)
    requires PhaseEnds(limits, phase, roots, began, cps, completed, pending, maxUnits, usage) && pending == []
    ensures AllDone(roots, cps)
  {
    hide Leaves, Having, Incomparable;
    forall leaf | leaf in Leaves(roots, cps) ensures leaf.key in cps && cps[leaf.key].status.Done? {
      assert leaf in multiset(Leaves(roots, cps));
      assert leaf in completed + pending;
    }
  }

  /** Freezing the candidates: the row that opens verification. */
  lemma {:induction false} FrozenRowOk(limits: Limits, diff: string, maxChars: nat, row: ReviewProgress,
                                       next: ReviewProgress)
    requires maxChars >= 1 && RowOk(limits, diff, maxChars, row) && row.stage.Exploring? && next.stage.Verifying?
    requires next.checkpoints == row.checkpoints && next.candidateUsage == Charged(Candidate, row.checkpoints)
    requires next.coverage.complete ==> AllDone(CandidateRoots(diff, maxChars), row.checkpoints)
    ensures RowOk(limits, diff, maxChars, next) && Accepts(row, next)
    ensures ResumeUsage(next) == Charged(Candidate, row.checkpoints)
  {
    hide Charged, AllDone, Resumable, CandidateRoots, VerificationRoots, Plus, Closed, Agrees;
    ResumableFacts(CandidateRoots(diff, maxChars), row.checkpoints);
    NothingVerified(row.checkpoints, next.frozen);
    PlusNothing(next.candidateUsage);
    CapsGrow(limits);
  }

  lemma ResumableFacts(roots: seq<WorkItem>, cps: Checkpoints)
    requires Resumable(roots, cps)
    ensures Closed(cps) && Agrees(cps)
  {
  }

  lemma NothingVerified(cps: Checkpoints, frozen: seq<Finding>)
    requires InCandidatePhase(cps) && Closed(cps) && Agrees(cps)
    ensures Resumable(VerificationRoots(frozen), cps) && Charged(Verification, cps) == NOTHING
  {
    hide Leaves, Closed, VerificationRoots, Comparable, Charged;
    NothingCharged(cps, Verification);
    RootsAreTheInput("", 1, frozen);
    LeavesInPhase(VerificationRoots(frozen), cps, Verification);
  }

  lemma CapsGrow(limits: Limits)
    ensures CallCap(limits, Candidate) <= CallCap(limits, Verification)
    ensures ToolCap(limits, Candidate) <= ToolCap(limits, Verification)
  {
  }

  /** The row that completes the review. */
  lemma FinishedRowOk(limits: Limits, diff: string, maxChars: nat, row: ReviewProgress, result: ReviewResult)
    requires maxChars >= 1 && RowOk(limits, diff, maxChars, row) && row.stage.Verifying?
    requires result.complete ==> row.coverage.complete && row.candidateLimitations == []
    requires result.complete ==> AllDone(VerificationRoots(row.frozen), row.checkpoints)
    ensures var next := row.(stage := Finished, result := Some(result));
            RowOk(limits, diff, maxChars, next) && Accepts(row, next)
  {
    hide AllDone, Resumable, CandidateRoots, VerificationRoots;
  }
}
