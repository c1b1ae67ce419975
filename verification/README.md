# Verification model of the review agent

This project models the parts of the repository where mistakes would be expensive, and proves what they
promise. All proofs are for every input, every run or every interleaving.

- **The durable job, lease and publication protocol** (`JobRows`, `JobStore`, `Protocol` and the modules after
  it). One database transaction, one Gerrit read and one landing POST are one atomic step. Workers claim jobs
  under expiring leases, die anywhere, lose acknowledgements and are overtaken by newer Patch Sets while
  administrators requeue, skip and revive jobs. `JobRows` says what each transaction does to a row;
  `JobStore.Store` is the table with one method per transaction, proved against it; `Protocol` interleaves the same
  specifications in 51 kinds of steps. `ProtocolInvariant` to `ProtocolAdmin` prove one inductive invariant,
  `ProtocolMoves` what a step may change, `ProtocolSafety` the results about runs.
- **Voting and retry budgets.** `VotePublisher` is one pass of the vote protocol over the table. `RetryBudget` is the
  arithmetic of the REVIEW gate, `ProtocolBudgets` bounds REVIEW attempts and vote retries over every run, and
  `ProtocolPaths`, `ReviewRuns` and `VoteRuns` build the runs that reach these bounds.
- **History across Patch Sets.** `ProtocolHistory` says when the history that a review was tagged against is final,
  `HistoryRuns` is a run in which it is not, and `Lineage` tags and resolves findings.
- **The review scheduler with checkpointed resume.** `Chunking` cuts a diff; `WorkForest` is the forest of items
  that the checkpoints describe; `Ledger` and `Scheduler` hold the accounts; `RoundRobin` is the scheduler itself;
  `Progress` and `Engine` drive its two phases over one durable row, through any number of crashes.
- **Two small cores.** `Pagination` (the Gerrit walk) and `BoundedReader` (many line ranges in one pass).

## Assumptions

- A POST reaches Gerrit before its call returns and before the lease that its guard set ends, or never. An
  acknowledged POST has landed. Gerrit reads see every landed POST.
- Review messages are non-empty and identify their job; hashes and fingerprints are injective, so a key is the
  identity it hashes.
- A worker slot runs one claim at a time, has a unique id and one Gerrit account. Time is one global clock, read by
  each transaction.
- The model, the tools, the parsers, the ranking of candidates and the finding validator are arbitrary; so are the
  answers of Gerrit and of the progress backend at every call.
- Limits do not change between the attempts of one job. A verifier reserve is a natural number; where a result needs
  it, it is at most its maximum.

## Where the code does less than one might expect

- The retry count of a vote can exceed the limit plus one. The count is committed in one transaction and acted upon
  in the next, so every claim that ends between the two adds one more. `ProtocolBudgets.RetriesWithinLimit` bounds the
  count in every run by the limit plus one plus the number of such claims, and `VoteRuns.AbandonedRetriesPrice` gives
  for every such number a run that reaches the bound. So runs without such a claim keep the limit plus one, and every
  further one can exceed it.
- REVIEW attempts per epoch can exceed `review_attempts` times `llm_provider_attempts`. The gate reads the streak,
  then the count, and starts the attempt in three transactions, and `finish_attempt` is not fenced by the lease. A
  provider failure that is recorded by a worker that has lost the job can hide from the streak, or slip between the
  two reads, while its charge is given back. So can a success that does not end the review, because the job is skipped
  by a scope change and revived. `ProtocolBudgets.ReviewsWithinBudget` prices each such event at
  `llm_provider_attempts` attempts in every run, a late failure at one attempt when only one review attempt is allowed,
  and `PunctualReviewsWithinBudget` gives the plain bound without them. `ReviewRuns.PriceIsExact` reaches the bound
  under all limits and for any number of such events; `LateFailuresExceed` breaks the plain bound by late failures
  alone.
- A SUPERSEDED Patch Set can still become DONE: completing a publication is fenced only by the owner of a live job. A
  worker that stalled with a READY_TO_PUBLISH record completes at once what it then sees as POSTED, also after a stale
  mark made the publication FAILED, the job was superseded, and a higher Patch Set loaded its history
  (`HistoryRuns.LateCompletionHappens`, for a job with a bound policy). `ProtocolHistory.DoneIsFinal` shows that such a
  completion is the only way in which the history can change, `SettledIsFinal` gives a condition to check when it is
  loaded, and `NewOncePerRun` follows from its absence.
- The scheduler's comment on its STOPPED branch says that context-rejected calls can use up reservations. They
  cannot: `Scheduler.TurnHasSlot` shows the branch is never taken, and no run writes a STOPPED checkpoint.
- The transition table has no row for SKIPPED_SCOPE. `ProtocolSafety.ReachableRows` shows that no leased job is ever
  in that state, so the lookup that would raise a KeyError does not happen.

## Model

| member | source | states |
|---|---|---|
| `JobStore.Store.Enqueue` | src/pe_review_agent/jobs/store.py:212-283 | Without a row for change, revision and policy one is created, SKIPPED_SCOPE exactly when the project starts from now and the event is from before that, else SUPERSEDED when a newer Patch Set is stored, else RECEIVED. A known row is revived only out of SKIPPED_SCOPE when its project is enabled under INCLUDE_OPEN, and superseded when it is overtaken, unfinished and resolved. Every unfinished, resolved elder of a row in scope that is not itself overtaken is superseded; every other row stays. |
| `JobStore.EnqueueMeans` | src/pe_review_agent/jobs/store.py:212-356 | The same about the transaction that the protocol interleaves. |
| `JobStore.Store.OrderPatchSets` | src/pe_review_agent/jobs/store.py:285-356 | A job older than a stored one is superseded; a newest one supersedes all its elders; an outstanding publication keeps its row reclaimable in both cases. |
| `JobStore.Store.ClaimNext` | src/pe_review_agent/jobs/store.py:391-410 | A row is leased for the lease time only if it is unfinished, unheld, due if it waits for a retry, its project enabled if projects are managed at all, and no POST of a lower Patch Set is unresolved; out of RETRY_WAIT it is in its recorded state. Nothing is handed out only when no row is like that, or when such a row without a recorded state failed permanently. |
| `JobStore.Store.Heartbeat` | src/pe_review_agent/jobs/store.py:412-428 | Alive exactly for the live lease holder of a job that is not terminal; afterwards the lease is live for exactly the lease time and nothing else has changed. |
| `JobStore.Store.RefreshPublishGuard` | src/pe_review_agent/jobs/store.py:430-475 | OK exactly for the live lease holder of a PUBLISHING job whose change has no higher Patch Set stored, superseded exactly for one that has; only OK extends the lease, from now by the lease time, and nothing else changes. |
| `JobStore.Store.Transition` | src/pe_review_agent/jobs/store.py:477-498 | Commits exactly for the live lease holder and a move the table has, the fence being checked first; every durable field survives; terminal states are final, and a job moved into one is held by nobody. |
| `JobStore.Store.ScheduleRetry` | src/pe_review_agent/jobs/store.py:500-527 | Commits exactly for a valid target and the live lease holder of an unfinished job, which then waits for its time with the lease given back. |
| `JobStore.Store.MarkFailedPermanent` | src/pe_review_agent/jobs/store.py:529-551 | The lease holder, and nobody else, can fail its job from every state that is not final; result, payload, vote and attempts survive and nobody holds the job afterwards. |
| `JobStore.Store.MarkSuperseded` | src/pe_review_agent/jobs/store.py:553-574 | On a superseded job it succeeds for anyone and changes nothing; otherwise only the lease holder of a job that is not terminal succeeds, and nobody holds the job afterwards. |
| `JobStore.Store.RequeueFailed` | src/pe_review_agent/jobs/store.py:579-654 | Succeeds exactly for a failed job without a newer Patch Set. It is DONE if its review was posted, PUBLISHING with a pending payload if one was prepared, READY_TO_PUBLISH if only a result is stored, RECEIVED otherwise; all budgets of the job start afresh and any worker may claim it. |
| `JobStore.Store.StartAttempt` | src/pe_review_agent/jobs/store.py:656-679 | Succeeds exactly for the live lease holder and appends one unfinished attempt of the stage. |
| `JobStore.Store.FinishAttempt` | src/pe_review_agent/jobs/store.py:730-752 | Succeeds once per attempt, for anyone, with or without the lease; only this attempt changes, and it stays charged to its budget unless it succeeded or the provider was down. |
| `JobStore.Store.SaveReviewResultAndMarkReady` | src/pe_review_agent/jobs/store.py:883-999 | Only the lease holder succeeds, from exactly these states; the first result stays whatever is saved later, and the lease is given back. |
| `JobStore.Store.BeginPublication` | src/pe_review_agent/jobs/store.py:1078-1122 | One payload for ever: a call commits exactly when the lease holder is publishing and no other payload is stored, and then this one is; a new row says that nothing was posted. |
| `JobStore.Store.CompletePublicationAndMarkDone` | src/pe_review_agent/jobs/store.py:1142-1211 | A publication that Gerrit has seen is completed even after supersession, but never against another owner; with the vote still due only the live lease holder succeeds and keeps the lease; idempotent when done. |
| `JobStore.Store.MarkPublication` | src/pe_review_agent/jobs/store.py:1213-1239 | Succeeds for anyone on every job with a publication; the payload, the state and the lease are not touched. |
| `JobStore.Store.SkipPreCutoffJobs` | src/pe_review_agent/admin/store.py:1026-1063 | Afterwards no job of the project from before the cutoff can be claimed unless it may have been published or is held; no job that was held, published or finished is touched, and durable fields survive. |
| `JobStore.Store.EnsureVote` | src/pe_review_agent/jobs/votes.py:22-45 | Succeeds exactly for the live lease holder of a publishing job; the first decision stays, and a vote without a decision is terminal from the start. |
| `JobStore.Store.DispatchVote` | src/pe_review_agent/jobs/votes.py:51-79 | Commits exactly for the live lease holder of a publishing job with a vote that is not terminal and not bound to another account; before the POST the attempt is counted, the account bound and the outcome unknown. |
| `JobStore.Store.RetryVote` | src/pe_review_agent/jobs/votes.py:81-106 | Commits exactly for the live lease holder of a publishing job with a vote; it counts one retry and changes nothing else. |
| `JobStore.Store.FinishVote` | src/pe_review_agent/jobs/votes.py:108-153 | Commits exactly for a terminal status, the live lease holder of a publishing job with durable comments, and no other bound account; the job is DONE and unheld in the same transaction; an open vote has the given status and account, a terminal one stays. |
| `ProtocolSafety.RunKeepsInv` | src/pe_review_agent/service.py:528-669 | The inductive invariant of jobs, workers, pairs of Patch Sets and Gerrit's log holds after every run of all 51 kinds of steps. |
| `ProtocolSafety.AtMostOnePost` | src/pe_review_agent/service.py:590-669 | For every run: at most one comment review and at most one vote land per job, and every landed comment review carries the stored payload. |
| `ProtocolSafety.PatchSetsPublishInOrder` | src/pe_review_agent/jobs/store.py:285-356 | Comment reviews of one change land in Patch Set order. |
| `ProtocolSafety.PublishDecides` | src/pe_review_agent/service.py:528-620 | What a worker in the interleaved model decides about the comments: towards a POST exactly when its Patch Set is the latest stored and not superseded; otherwise what was posted is completed without a vote, what may have been posted is looked for, and the rest is left; found comments are completed. |
| `ProtocolSafety.VotesFollowComments` | src/pe_review_agent/service.py:739-777 | A vote lands only after the comment review of its job. |
| `ProtocolSafety.AppliedVotesLanded` | src/pe_review_agent/voting.py:120-185 | In every run a vote that is recorded as APPLIED has landed, under the account that is stored with it. |
| `ProtocolSafety.ObservationDecides` | src/pe_review_agent/voting.py:96-157 | What a worker in the interleaved model decides from its observation of an open vote: APPLIED exactly when its marker is found with the value, SKIPPED exactly when it may not vote, on to a POST exactly when nothing is found, the account is the one that began and both budgets have room, FAILED otherwise. |
| `ProtocolSafety.EldersStayTerminal` | src/pe_review_agent/jobs/store.py:113-156 | From the first claim of a job on, every lower Patch Set of the change is terminal for ever. |
| `ProtocolSafety.LeaseHeldThroughout` | src/pe_review_agent/jobs/store.py:430-475 | A worker that holds a live lease and claimed nothing since an earlier moment held it live at every moment between. |
| `ProtocolSafety.DurableRowsAreFinal` | src/pe_review_agent/jobs/store.py:1078-1122 | Identity, stored result, publication payload, terminal vote status and bound vote account never change in any continuation. |
| `ProtocolSafety.PostsWithinBudget` | src/pe_review_agent/service.py:1015-1053 | Per retry epoch at most publish_attempts comment POSTs leave, and a vote is dispatched at most publish_attempts times. |
| `ProtocolSafety.ReachableRows` | src/pe_review_agent/jobs/state_machine.py:10-98 | In every reachable row: terminal means unleased, RETRY_WAIT has a valid target, publish states have a result; so the invalid-state, missing-result and missing-table-row branches are dead. |
| `StateMachine.TableMeans` | src/pe_review_agent/jobs/state_machine.py:10-98 | The moves of the table: forward one working state at a time, back only out of publishing, done only by publishing; every unfinished job can be parked, failed or superseded, and a parked one goes on anywhere but at the start; only SKIPPED_SCOPE has no row. |
| `StateMachine.ClassesFitTable` | src/pe_review_agent/jobs/state_machine.py:95-117 | Exactly the terminal states have no way out, and a job can be resumed exactly in the working states that a parked one may move to. |
| `ProtocolMoves.StepMoves` | src/pe_review_agent/jobs/store.py:391-475 | Every step of any process changes a row only in the ways that leases, durable rows, votes and attempts permit; it appends at most one landing to Gerrit's log, and only a late event adds a row. |
| `ProtocolSteps.LandKeepsInv` | src/pe_review_agent/gerrit/client.py:280-317 | A POST landing late keeps the whole invariant: it is the first of its kind for the job. |
| `ProtocolSteps.GuardCommentsKeepsInv` | src/pe_review_agent/service.py:645-669 | The guard in front of the comment POST re-establishes ownership before the request leaves. |
| `ProtocolAdmin.EnqueueKeepsInv` | src/pe_review_agent/jobs/store.py:212-356 | Late and out-of-order events keep the order of Patch Sets, including events born under SKIPPED_SCOPE. |
| `ProtocolAdmin.RequeueKeepsInv` | src/pe_review_agent/jobs/store.py:579-654 | An administrator's requeue keeps the invariant. |
| `ProtocolAdmin.ScopeKeepsInv` | src/pe_review_agent/admin/store.py:574-612 | Enabling, mode changes and upserts with their bulk skip keep the invariant. |
| `ProtocolAdmin.ScopeMeans` | src/pe_review_agent/admin/store.py:574-612 | Jobs are skipped exactly when a project is switched on, or put, in FROM_NOW; it starts at that moment, nothing older is left to claim, and only unfinished jobs without a publication were skipped; otherwise no job changes, and no other project does. |
| `VotePublisher.Publisher.Process` | src/pe_review_agent/voting.py:96-220 | For every answer of Gerrit, every clock and every death: a finished pass of an open vote stores APPLIED exactly when the value was found under its own marker or confirmed by the POST, SKIPPED exactly when it may not vote, the change is merged or the Patch Set overtaken, and FAILED otherwise; a request is dispatched exactly when nothing was found, nothing is in the way, both budgets have room and no newer Patch Set is stored; a transient error is counted once and rescheduled exactly below the limit or after a POST; a pass that keeps its lease comes to an end. |
| `VotePublisher.Publisher.Post` | src/pe_review_agent/voting.py:150-171 | Guard, dispatch, guard and POST: skipped when overtaken, otherwise the counted and bound intent goes on as in Send. |
| `VotePublisher.Publisher.Send` | src/pe_review_agent/voting.py:165-196 | For every answer to the POST: APPLIED exactly when it confirms the value that was decided, SKIPPED exactly when the change is merged or overtaken, rescheduled exactly after a transient error, FAILED otherwise. |
| `VotePublisher.Publisher.Retry` | src/pe_review_agent/voting.py:198-220 | One counted retry; then FAILED at the limit unless a POST was sent, and rescheduled otherwise. |
| `VotePublisher.Publisher.Handle` | src/pe_review_agent/voting.py:186-220 | The exception handlers: an overtaken or merged change is SKIPPED, any other closed one and a permanent error FAILED, a transient error retried. |
| `VotePublisher.Publisher.Finish` | src/pe_review_agent/voting.py:80-95 | A finished call stores the given status and account in an open vote and leaves a terminal one, with the job DONE; a call that does not finish has stored that or nothing; it finishes when the lease is kept and the process lives. |
| `ProtocolBudgets.RetriesWithinLimit` | src/pe_review_agent/voting.py:198-220 | In every run the retry count of a vote is at most the limit plus one, plus the number of claims that found a committed retry which nothing had followed up. |
| `ProtocolBudgets.VotesStep` | src/pe_review_agent/jobs/votes.py:81-106 | What every single step keeps of that bound, for the row and for every worker on its way to a retry. |
| `ProtocolBudgets.RunKeepsVotes` | src/pe_review_agent/voting.py:96-220 | The same after every run. |
| `VoteRuns.AbandonedRetriesPrice` | src/pe_review_agent/voting.py:198-220 | The bound is exact: for every k there is a run with exactly k such claims whose retry count is the limit plus one plus k, the comment review landed once. |
| `VoteRuns.CommentsLand` | src/pe_review_agent/service.py:528-669 | A concrete run from the first event over fetch, review and publication to a landed, acknowledged comment review and a pending vote. |
| `VoteRuns.Strands` | src/pe_review_agent/voting.py:198-220 | One more claim that stops between the committed retry and its completion raises the count by one and leaves the vote due. |
| `VoteRuns.Reposts` | src/pe_review_agent/voting.py:150-220 | One more claim whose vote POST is lost raises attempts and retries by one and reschedules. |
| `ProtocolBudgets.ReviewsWithinBudget` | src/pe_review_agent/service.py:1015-1053 | In every run at most review_attempts * llm_provider_attempts REVIEW attempts start per retry epoch, and llm_provider_attempts more for every success that did not end the review, which takes a revival, and for every provider failure recorded by a worker that had lost the job; with one review attempt such a failure lets one more start. |
| `ProtocolBudgets.PunctualReviewsWithinBudget` | src/pe_review_agent/service.py:1015-1053 | In every run without a late provider failure and without the revival of a reviewed job at most review_attempts * llm_provider_attempts REVIEW attempts start per retry epoch. |
| `ProtocolBudgets.ReviewsStep` | src/pe_review_agent/service.py:335-421 | What every single step keeps of that bound, for the row and for every worker between the two gate reads, before the start, and inside an attempt. |
| `ProtocolBudgets.RunKeepsReviews` | src/pe_review_agent/jobs/store.py:656-752 | The same after every run. |
| `ReviewRuns.BudgetIsReached` | src/pe_review_agent/admin/store.py:574-612 | For all limits and every m there is a run with nothing late, in which the job is revived after m successes, and (review_attempts + m) * llm_provider_attempts attempts start; for m = 0 that is the plain bound. |
| `ReviewRuns.PriceIsExact` | src/pe_review_agent/jobs/store.py:730-752 | The bound is exact under all limits: for every k and m a run with exactly k late failures and m such successes starts exactly as many REVIEW attempts as it allows. |
| `ReviewRuns.LateFailuresExceed` | src/pe_review_agent/service.py:1015-1053 | For all limits and every k: k workers whose leases end during an attempt, and who report the provider failure late, let k attempts more start than the limits suggest. |
| `ReviewRuns.LateBlock` | src/pe_review_agent/service.py:374-421 | The step behind the price: a stalled worker's late failure leads to llm_provider_attempts further attempts, the last of them stalled again. |
| `RetryBudget.ConsumedIsCounted` | src/pe_review_agent/jobs/store.py:175-191 | The stored count of consumed attempts equals the count over the epoch's outcomes. |
| `RetryBudget.StreakAdmits` | src/pe_review_agent/jobs/store.py:693-728 | An open provider streak leaves room for one more attempt in the current block. |
| `RetryBudget.LateKeepsBlocks` | src/pe_review_agent/jobs/store.py:730-752 | What a late provider failure costs behind the back of a worker at the gate: a block, or a single attempt when only one review attempt is allowed. |
| `RetryBudget.FinishKeepsAdmitted` | src/pe_review_agent/jobs/store.py:730-752 | The newest attempt may end in any way; an older one that takes its charge back needs credit for a block, and with one review attempt no older one can be under way. |
| `RetryBudget.OutcomesFinished` | src/pe_review_agent/jobs/store.py:730-752 | Finishing an attempt rewrites exactly its own outcome among those of its stage and epoch, and the last one is the last started. |
| `Chunking.ChunksCoverDiff` | src/pe_review_agent/review/chunking.py:17-57 | Chunks concatenate to the diff, none exceeds the limit, and none is empty unless the diff is. |
| `Chunking.FittingSectionsStayWhole` | src/pe_review_agent/review/chunking.py:17-57 | No chunk boundary falls inside a file section that fits. |
| `Chunking.SectionsAreFiles` | src/pe_review_agent/review/chunking.py:24-34 | Each section starts at a header, unless it precedes the first one, ends before the next or with the diff, and has no other header in it. |
| `Chunking.FewestChunks` | src/pe_review_agent/review/chunking.py:17-57 | No grouping of the sections into contiguous runs within the limit has fewer groups than there are chunks. |
| `Chunking.ChunkDiff` | src/pe_review_agent/review/chunking.py:17-57 | The accumulating loop with its flush computes the specified chunks. |
| `Chunking.SplitText` | src/pe_review_agent/review/chunking.py:60-71 | The offset loop computes the specified pieces of an oversized section. |
| `Chunking.SplitTextParts` | src/pe_review_agent/review/chunking.py:60-71 | The pieces concatenate to the text, each non-empty and within the limit. |
| `Chunking.CutsFollowNewlines` | src/pe_review_agent/review/chunking.py:60-71 | A piece is all that is left when it fits; else it ends behind the last newline in the second half of what fits, or holds all that fits when there is none. |
| `Chunking.Starts` | src/pe_review_agent/review/chunking.py:24-31 | Sections start at 0 and exactly at the header lines. |
| `Chunking.HeadersBeginLines` | src/pe_review_agent/review/chunking.py:6-8 | A header is exactly a line that begins with the words of a git diff header. |
| `Chunking.LastNewline` | src/pe_review_agent/review/chunking.py:60-71 | The last newline of the window, or none. |
| `Chunking.SplitChunkShrinks` | src/pe_review_agent/review/native.py:581-593 | A rejected chunk splits exactly above 4000 characters, into at least two non-empty, strictly smaller pieces that concatenate to it: its chunks within three fifths of its length, or within 4000 if that is less. |
| `Chunking.AnyCutShrinks` | src/pe_review_agent/review/native.py:581-593 | The same for every cutting limit below the length. |
| `WorkForest.ChildrenShrink` | src/pe_review_agent/review/native.py:365-407 | Every split, of a diff or of a verification batch, yields at least two non-empty, strictly smaller pieces with the same content, of smaller total weight; a batch is halved, the odd finding in the second half. |
| `WorkForest.Divisible` | src/pe_review_agent/review/native.py:365-407 | Exactly diff text above 4000 characters and batches of more than one finding can be split. |
| `WorkForest.LeavesCover` | src/pe_review_agent/review/scheduling.py:118-143 | Whatever has been split, the leaves of the forest hold the original content in document order. |
| `WorkForest.LeavesIncomparable` | src/pe_review_agent/review/native.py:1035-1057 | All leaves have distinct keys, none below another. |
| `WorkForest.LeavesSplit` | src/pe_review_agent/review/scheduling.py:297-304 | A SPLIT checkpoint replaces exactly one leaf by its pieces. |
| `WorkForest.LeavesKept` | src/pe_review_agent/review/scheduling.py:484-506 | A DONE or STOPPED checkpoint leaves the forest as it is. |
| `Ledger.PlacedSplit` | src/pe_review_agent/review/scheduling.py:297-304 | After a split every leaf is still in exactly one of completed, pending, waiting and working. |
| `Ledger.PlacedDone` | src/pe_review_agent/review/scheduling.py:306-309 | After a finished item every leaf is still in exactly one place. |
| `Ledger.ChargedAdd` | src/pe_review_agent/review/native.py:121-130 | A new checkpoint adds its charge, zero for SPLIT, to the sum over all checkpoints. |
| `Scheduler.TurnHasSlot` | src/pe_review_agent/review/scheduling.py:179-193 | The session whose turn it is always has a free request slot: the STOPPED branch is never taken. |
| `Scheduler.ReservedSlots` | src/pe_review_agent/review/scheduling.py:150-152 | What is reserved: one slot for each live session, and one more for each that has not begun and was admitted with two. |
| `Scheduler.Caps` | src/pe_review_agent/review/scheduling.py:34-48 | What a phase may spend: the maximum in verification, the maximum less the reserve, or nothing, while exploring. |
| `Scheduler.FinalAfterAllRounds` | src/pe_review_agent/review/scheduling.py:195-202 | With an ample budget a session that is not forced to finish has its final request after exactly max_tool_rounds requests with tools. |
| `Scheduler.RefundExact` | src/pe_review_agent/review/scheduling.py:351-363 | A refund takes back exactly what the truncated request was charged; its lower clamps never bite. |
| `Scheduler.OutstandingSplit` | src/pe_review_agent/review/scheduling.py:259-312 | A split lowers the weight of the outstanding work. |
| `Scheduler.GoodAfter` | src/pe_review_agent/review/scheduling.py:484-506 | A checkpoint keeps the stored charges within what was spent and within the phase's cap. |
| `Scheduler.HistoryAdd` | src/pe_review_agent/review/scheduling.py:484-506 | Every save only adds checkpoints to the save before. |
| `RoundRobin.RoundRobinReview.Run` | src/pe_review_agent/review/scheduling.py:105-321 | Ends for all answers, in failure exactly when a call failed or nothing could be done with an answer; charges exactly its requests and reads less the truncated answers it forgave, never more than the phase may; asks for no item checkpointed before; offers tools at most max_tool_rounds times per item and asks at most twice more; counts what it reused and saved; every leaf ends completed or pending, all DONE ones completed; charges are the opening plus what was checkpointed plus what split sessions gave up. |
| `RoundRobin.RoundRobinReview.Expand` | src/pe_review_agent/review/scheduling.py:118-140 | Rebuilds the forest below an item, its leaves sorted by status in document order; succeeds on everything that was ever saved. |
| `RoundRobin.RoundRobinReview.ExpandAll` | src/pe_review_agent/review/scheduling.py:142-143 | The same for a list of items. |
| `RoundRobin.RoundRobinReview.Admit` | src/pe_review_agent/review/scheduling.py:149-169 | The items waiting longest are in new sessions behind the live ones, in order, each with both slots while tools are left to use in between, except a lone one with a single slot; an item is left waiting only when the units are used up or another session could not have its slots. |
| `RoundRobin.RoundRobinReview.Start` | src/pe_review_agent/review/scheduling.py:162-167 | A new session takes the first waiting item and the reserved slots. |
| `RoundRobin.RoundRobinReview.Turn` | src/pe_review_agent/review/scheduling.py:173-177 | The session at the head has its turn: a queued tool call, or else a request; the others keep their order, the invariants hold and the termination measure falls. |
| `RoundRobin.RoundRobinReview.LlmTurn` | src/pe_review_agent/review/scheduling.py:179-309 | Tools are offered exactly when the session is not forced to finish, had fewer than max_tool_rounds requests with tools, finds two free slots beside the reserved ones, and a read is left; so with an ample budget its final request comes after exactly max_tool_rounds with tools. A truncated answer is forgiven and asked for once more without tools. Then the item is split, or its session goes to the back with the calls it asked for, or its result is stored as parsed; the turn fails exactly when a call failed or nothing could be done with the answer. |
| `RoundRobin.RoundRobinReview.Request` | src/pe_review_agent/review/scheduling.py:222-251 | The request of a turn: a truncated answer is forgiven and asked for once more, without tools, so that only the last answer is charged. |
| `RoundRobin.RoundRobinReview.Recover` | src/pe_review_agent/review/scheduling.py:225-251 | After the recovery session and budget are charged with the second answer alone. |
| `RoundRobin.RoundRobinReview.LlmStep` | src/pe_review_agent/review/scheduling.py:365-416 | A dispatched request is audited, with whether tools were offered, and charged to session and budget; a final one offers none. |
| `RoundRobin.RoundRobinReview.Refund` | src/pe_review_agent/review/scheduling.py:351-363 | Each account that was charged with the truncated answer is back exactly where it was before, the clamps losing nothing; no account grows and the tool budget is kept. |
| `RoundRobin.RoundRobinReview.Forgive` | src/pe_review_agent/review/scheduling.py:230-238 | After a refund both accounts are as if the truncated request had not been charged. |
| `RoundRobin.RoundRobinReview.Answer` | src/pe_review_agent/review/scheduling.py:259-309 | For every answer: a rejected context replaces the item by its pieces, tool calls send the session to the back of the queue one round further unless the request was final, and any other answer is stored as the parser understood it; nothing else fails but the save. |
| `RoundRobin.RoundRobinReview.ToolStep` | src/pe_review_agent/review/scheduling.py:425-482 | A repeated call costs nothing, one beyond the budget costs nothing and forces the session to finish, any other costs one read; so does a round of nothing but repetitions; only an answered call counts as seen. |
| `RoundRobin.RoundRobinReview.ToolTurn` | src/pe_review_agent/review/scheduling.py:173-177 | The session goes to the back of the queue with that one call handled; all invariants hold and the queue of calls is shorter. |
| `RoundRobin.RoundRobinReview.Checkpoint` | src/pe_review_agent/review/scheduling.py:484-506 | Memory first, then the durable save, which may fail or go unacknowledged; everything ever saved stays resumable. |
| `RoundRobin.RoundRobinReview.Finish` | src/pe_review_agent/review/scheduling.py:306-309 | DONE: the item is completed, its result and its charge are stored. |
| `RoundRobin.RoundRobinReview.SplitSession` | src/pe_review_agent/review/scheduling.py:297-304 | SPLIT: the item is replaced by its pieces, its charge given up. |
| `RoundRobin.RoundRobinReview.Divide` | src/pe_review_agent/review/scheduling.py:259-282 | Splitting a session keeps the other reservations. |
| `RoundRobin.RoundRobinReview.Conclude` | src/pe_review_agent/review/scheduling.py:294-309 | A parsed answer is stored with everything the session has spent, and the item completed; a bad answer leaves no checkpoint and is the failure of the run. |
| `RoundRobin.RoundRobinReview.Resume` | src/pe_review_agent/review/scheduling.py:283-293 | A session that asks for tools goes to the back of the queue with one reserved slot. |
| `Progress.ManifestIsImmutable` | src/pe_review_agent/jobs/progress.py:51-75 | Along any accepted saves the stage never moves back; frozen candidates, usage, coverage and limitations are constant once verification began; a completed result never changes. |
| `Progress.RunIsAccepted` | src/pe_review_agent/jobs/progress.py:51-88 | All saves of a scheduler run are accepted by the guard, one after the other. |
| `Progress.BatchesKeepFindings` | src/pe_review_agent/review/native.py:378-397 | Batches join to the finding list; each has 1 to 8 findings and at most 32000 JSON characters unless it is a single finding. |
| `Progress.BatchesAreFull` | src/pe_review_agent/review/native.py:378-397 | A batch is closed only when it has eight findings or the next one would make its JSON too long. |
| `Progress.VerificationBatches` | src/pe_review_agent/review/native.py:378-397 | The batching loop computes the specified batches. |
| `Progress.RootsAreTheInput` | src/pe_review_agent/review/native.py:140-144 | The candidate work is the diff and the verification work the frozen list, with distinct keys. |
| `Progress.CompleteMeansReviewed` | src/pe_review_agent/review/native.py:246-256 | A review stored as complete met no limitation while exploring, and has DONE answers for pieces that add up to the whole diff and for batches that add up to the whole candidate list. |
| `Progress.ReserveIsKept` | src/pe_review_agent/review/native.py:202-211 | Whenever verification resumes from a stored row, remaining budget plus what verification already charged is at least the reserve. |
| `Progress.CandidateSaveOk` | src/pe_review_agent/review/native.py:163-170 | Every save of the candidate phase is a sound row. |
| `Progress.VerificationSaveOk` | src/pe_review_agent/review/native.py:230-237 | Every save of the verification phase is a sound row and leaves the candidate part alone. |
| `Progress.FrozenRowOk` | src/pe_review_agent/review/native.py:190-211 | The row that freezes the candidates is sound and accepted. |
| `Progress.FinishedRowOk` | src/pe_review_agent/review/native.py:320-322 | The row that completes the review is sound and accepted. |
| `Engine.NativeEngine.Review` | src/pe_review_agent/review/native.py:76-323 | One attempt from any stored row: it charges exactly what that row charges (exploring, the non-SPLIT candidate checkpoints; verifying, the frozen candidate usage and the non-SPLIT verification checkpoints) plus its own requests and reads less the truncated answers forgiven, or it asks for nothing; what the row charges afterwards was spent; it stays within the limits, saves only sound rows, loses no checkpoint, asks for no checkpointed item; it fails exactly when a call or a save failed or an answer was useless; a returned result is the stored one, and a stored result is never worked on again. |
| `Engine.NativeEngine.Attempts` | src/pe_review_agent/service.py:235-443 | The same over any number of attempts that end anywhere: what the row charges in the end was spent in one of them, and all that return a result return the one that is stored. |
| `Engine.NativeEngine.Save` | src/pe_review_agent/jobs/progress.py:51-88 | Rejects exactly what the guard refuses; commits at most once. |
| `Engine.NativeEngine.Explore` | src/pe_review_agent/review/native.py:145-211 | Candidate phase and freeze: the frozen list comes from the stored results of all DONE leaves, the coverage counts all leaves, and the frozen usage is the sum of the charges; the attempt charges exactly what it asked for. |
| `Engine.NativeEngine.Verify` | src/pe_review_agent/review/native.py:213-323 | Verification phase and completion: the findings are the first validated ones of all DONE batches; a review is complete exactly when no batch is open, the exploration was complete, no limitation was met and no finding was cut off; the attempt charges exactly what it asked for. |
| `Engine.NativeEngine.VerificationFits` | src/pe_review_agent/review/native.py:202-211 | In the same attempt, too, verification starts with at least the reserve left. |
| `Engine.ChargeAll` | src/pe_review_agent/review/native.py:121-130 | The charging loop sums the non-SPLIT checkpoints of a phase, in any order. |
| `Engine.CollectResults` | src/pe_review_agent/review/native.py:171-177 | The findings of the completed items in order. |
| `Pagination.QueryProject` | src/pe_review_agent/gerrit/client.py:382-447 | Ends for every server; all changes that matched unchanged are returned, none twice; every item returned was reported by one of its requests and every reported change is returned; on a static server exactly the matching set, with no change transferred twice. It gives up exactly before a query that is longer than allowed, whose exclusions were all reported within one millisecond; so on a static server with room for the changes of every millisecond it does not. |
| `Pagination.BoundaryRoundsUp` | src/pe_review_agent/gerrit/client.py:733-751 | The search boundary is the update time rounded up to the next millisecond, carry included. |
| `Pagination.WalkStep` | src/pe_review_agent/gerrit/client.py:412-446 | One page keeps every unseen stable change reachable. |
| `Pagination.Answer` | src/pe_review_agent/gerrit/client.py:399-409 | Any honest server: newest first, inclusive boundary, any page length. |
| `Pagination.ExclusionBytes` | src/pe_review_agent/gerrit/client.py:389-398 | The exclusions make the query longer by nine bytes and the digits of each number, so the size limit bounds the exclusions. |
| `Pagination.DigitsFit` | src/pe_review_agent/gerrit/client.py:389-398 | A number is counted with exactly the digits it takes to write it. |
| `Pagination.Record` | src/pe_review_agent/gerrit/client.py:412-424 | Each change is appended once. |
| `BoundedReader.ReadRanges` | src/pe_review_agent/repos/tools.py:561-662 | For every file, all ranges and all segment sizes each range gets exactly its text: its numbered lines joined in order when all are shown and fit, the truncation of the join at the first line that does not fit, the error when a line before that is binary or not UTF-8, and <empty> when there is no such line; and the same as the simple reader gives it alone. |
| `BoundedReader.ReadAloneReads` | src/pe_review_agent/repos/tools.py:561-662 | The simple reader gives the text described over the physical lines. |
| `BoundedReader.ReadsOnce` | src/pe_review_agent/repos/tools.py:561-662 | The description determines one text. |
| `BoundedReader.WholeRange` | src/pe_review_agent/repos/tools.py:593-645 | When all wanted lines are shown and fit, the text is their join, or <empty> when there are none. |
| `BoundedReader.EmptyMeansNoLine` | src/pe_review_agent/repos/tools.py:652-662 | A range is <empty> exactly when the file has no line in it. |
| `BoundedReader.ShownLineIs` | src/pe_review_agent/repos/tools.py:593-632 | How one line is shown: its number, the separator and its content without line ends, decoded, cut at the line cap and marked when it was longer. |
| `BoundedReader.RawLinesAre` | src/pe_review_agent/repos/tools.py:665-697 | The physical lines glue together to the file, each ending at its only newline. |
| `BoundedReader.JoinIs` | src/pe_review_agent/repos/tools.py:593-645 | Joining puts one newline between consecutive lines. |
| `BoundedReader.DecimalIs` | src/pe_review_agent/repos/tools.py:593-632 | Line numbers are printed in decimal without leading zeros. |
| `BoundedReader.IterateLines` | src/pe_review_agent/repos/tools.py:665-697 | The captured lines depend on the physical lines only, not on the segments read. |
| `BoundedReader.AdvanceAll` | src/pe_review_agent/repos/tools.py:593-650 | The inner loop over the active keys advances each range by the line. |
| `BoundedReader.FoldWider` | src/pe_review_agent/repos/tools.py:561-662 | Reading more of the file than a range asks for changes nothing for it. |
| `BoundedReader.SettledIsFinal` | src/pe_review_agent/repos/tools.py:646-650 | The early exit is taken only when no later line could matter. |
| `BoundedReader.ReadIsBounded` | src/pe_review_agent/repos/tools.py:532-540 | Every result that is not an error stays within the cap when the cap has room for the marker. |
| `BoundedReader.Truncate` | src/pe_review_agent/repos/tools.py:532-540 | Short values are unchanged; long ones become a prefix of whole characters that loses at most three bytes of what has room, plus the marker. |
| `BoundedReader.WholeCharsFit` | src/pe_review_agent/repos/tools.py:532-540 | A cut UTF-8 text keeps as many whole characters as fit and nothing of the next one. |
| `Lineage.Reconcile` | src/pe_review_agent/review/lineage.py:25-96 | Tags every finding, counts the tags and lists the resolved ones in baseline order. |
| `Lineage.ResolvedAre` | src/pe_review_agent/review/lineage.py:56-64 | Resolved are exactly the baseline's findings that a complete review does not report, each once, in the order of the baseline; a partial review resolves none. |
| `Lineage.CountIs` | src/pe_review_agent/review/lineage.py:39-54 | Each count is the number of findings with its tag, and the three add up to all findings. |
| `Lineage.BaselineSplits` | src/pe_review_agent/review/lineage.py:56-64 | A complete review splits the baseline exactly into persisting and resolved ids; a partial one resolves nothing. |
| `Lineage.BaselineIsLatest` | src/pe_review_agent/jobs/store.py:1007-1019 | The baseline is the latest DONE review that is not partial. |
| `Lineage.NewExactlyOnce` | src/pe_review_agent/jobs/store.py:1001-1076 | In a chain of reviews tagged against their final histories an id is NEW in the first DONE Patch Set that reports it, and in no other. |
| `Lineage.TagsMean` | src/pe_review_agent/jobs/store.py:1001-1076 | In a chain of reviews a finding is PERSISTING exactly when the latest DONE review that is not partial has it, NEW exactly when no DONE review below has it, and REOPENED otherwise. |
| `ProtocolHistory.DoneIsFinal` | src/pe_review_agent/jobs/store.py:1142-1211 | For every run and continuation after the first claim of a job: whether a lower Patch Set is DONE stays as it is if and only if no worker completes the publication of that Patch Set while it is SUPERSEDED. |
| `ProtocolHistory.ElderIsFinal` | src/pe_review_agent/jobs/store.py:1001-1076 | Without such a completion everything the history query reads of a lower Patch Set is final. |
| `ProtocolHistory.ElderStep` | src/pe_review_agent/jobs/store.py:113-156 | After the claim a step changes the state of a lower Patch Set in two ways only: a skipped one is superseded, a superseded one completed late. |
| `ProtocolHistory.LateElder` | src/pe_review_agent/jobs/store.py:212-283 | A lower Patch Set that arrives after the claim is born superseded or skipped, without a result. |
| `ProtocolHistory.SettledIsFinal` | src/pe_review_agent/service.py:779-850 | It is enough that, when the history is loaded, no live worker still works on a superseded Patch Set with a publication. |
| `ProtocolHistory.HistoryIsFinal` | src/pe_review_agent/jobs/store.py:1001-1076 | The history that a claim loaded is the one the chain ends with, when no late completion came after. |
| `ProtocolHistory.NewOncePerRun` | src/pe_review_agent/jobs/store.py:1001-1076 | Over every run: an id is NEW in the first DONE Patch Set that reports it and in no other, when no late completion followed the loads. |
| `HistoryRuns.LateCompletionHappens` | src/pe_review_agent/service.py:739-777 | The completion does happen, for a job with a bound policy: a worker with a stale READY_TO_PUBLISH record completes a publication it saw as POSTED, after the Patch Set was superseded and the higher one claimed. |
| `Lineage.InlineAreNotInBaseline` | src/pe_review_agent/review/lineage.py:99-103 | Inline comments are posted for exactly the findings the baseline does not contain, each as often as it is reported. |

## Left out

- HTTP, SSH, git, SQL, asyncio and real clocks: they are atomic steps, parameters and free answers here.
- Prompts, JSON parsing, summaries, languages, metrics, logging, the web UI, deployment and migrations.
- Settings overrides, dashboards, allowlists and retention pruning: they would only add easy members.
- The columns superseded_by, claimed_at and last_error, tool events, and the ordering of claimable rows; rows locked
  by another claim are skipped, so any claimable row may come first.
- The review phase of a worker in the protocol: between the gates any fenced review operation may come next in any
  order, which covers every order the code uses; error exits may take any handler.
- The gates of FETCH and RECONCILE attempts: their attempts are steps without a gate, which covers all outcomes of one;
  their budgets would repeat the one of REVIEW without the streak.
- The waiting time of the provider streak: the gate may refuse because of it at any time. The runs of `ReviewRuns` and
  `VoteRuns` wait one second between claims and assume that this limit is not reached.
- Which jobs have a bound project policy: a worker in front of a completion may complete at once or defer the job for its
  vote, which covers both.
- Which limitations a session collects: the candidate and the verification phase hand over arbitrary lists of them.
- The paths of chunks and their inheritance by pieces; the changed-line parser of git diffs.
- The order in which Python sorts candidates, confidences, and the inclusion of previous findings: the frozen candidate
  list is an arbitrary function of the collected findings.
- Python's mutable session objects are values in the scheduler's queue, so aliasing between queue and turn is not modelled.
- The recursion of `expand` runs over lists of items instead of one closure call per child; the order is the same.
- One `RoundRobinReview` object per phase, where the source uses one object for both and shares its budget; the budget
  is handed over.
- File names and I/O errors of the bounded reader, and lines numbered below one.
- Chunking.SplitChunkShrinks: the target is three fifths of the length in whole numbers, where the source truncates a
  floating-point product; `Chunking.AnyCutShrinks` gives the same for every target below the length.
- RoundRobin.RoundRobinReview.ToolStep: tool keys are opaque, so equal keys say nothing about equal results.
- Engine.NativeEngine.Review: a blank diff is one of the reasons of its parameter, because whitespace stripping is not modelled.
- Engine.NativeEngine.Attempts: repeats the review attempt alone; fetching the change and promoting the result between
  attempts belong to the protocol.
- JobStore.Store.MarkPublication: nothing is claimed about the publication row of a finished job, because a stale worker may
  overwrite its status; safety is stated over Gerrit's log and the job states.
- ProtocolHistory.NewOncePerRun: that the stored tags were computed from a history loaded within the claim is a hypothesis
  on the run, because findings are opaque texts in the protocol.
- Protocol.VoteGiveUp: which observations end a vote without a POST is open in the interleaved model; `VotePublisher` says it.
- VotePublisher.Publisher.Process: no other transaction runs between the steps of one pass here; passes that interleave
  with everything else are the vote steps of `Protocol`, about which `ProtocolSafety` and `ProtocolBudgets` speak.
- BoundedReader.ReadRanges: strict decoding of one line is an arbitrary function of its captured bytes.
