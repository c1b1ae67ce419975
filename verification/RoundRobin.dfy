/** `RoundRobinReview.run` of review/scheduling.py.  One object is one run: the locals of `run` are its
    fields.  The model, the tools, the parser and the durable backend answer arbitrarily, and a crash of
    the process is an answer that ends the run. */
module RoundRobin {
  import opened Wrappers
  import opened WorkForest
  import opened Ledger
  import opened Scheduler

  class RoundRobinReview {
    const limits: Limits
    const phase: Phase
    const roots: seq<WorkItem>
    const maxUnits: nat
    ghost const began: Checkpoints
    ghost const opening: Usage

    var usage: Usage
    var checkpoints: Checkpoints
    var store: Checkpoints
    var invocations: seq<Invocation>
    var waiting: seq<WorkItem>
    var active: seq<Session>
    var completed: seq<WorkItem>
    var pending: seq<WorkItem>
    var reused: nat
    var saved: nat

    ghost var saves: seq<Checkpoints>
    ghost var settled: Usage
    ghost var wasted: Usage
    ghost var truncations: nat
    /** The calls that failed and the answers nothing could be done with. */
    ghost var faults: nat

    constructor (limits: Limits, phase: Phase, roots: seq<WorkItem>, maxUnits: nat,
                 checkpoints: Checkpoints, usage: Usage)
      requires Roots(roots) && Incomparable(roots) && InPhase(roots, phase) && Resumable(roots, checkpoints)
      ensures this.limits == limits && this.phase == phase && this.roots == roots && this.maxUnits == maxUnits
      ensures this.checkpoints == store == began == checkpoints && this.usage == opening == usage
      ensures Fresh()
    {
      this.limits, this.phase, this.roots, this.maxUnits := limits, phase, roots, maxUnits;
      this.began, this.opening := checkpoints, usage;
      this.usage, this.checkpoints, this.store, this.invocations := usage, checkpoints, checkpoints, [];
      waiting, active, completed, pending, reused, saved := [], [], [], [], 0, 0;
      saves, settled, wasted, truncations, faults := [], NOTHING, NOTHING, 0, 0;
    }

    ghost predicate Fresh()
      reads this
    {
      && Roots(roots) && Incomparable(roots) && InPhase(roots, phase) && Resumable(roots, checkpoints)
      && checkpoints == store == began && usage == opening
      && invocations == [] && waiting == completed == pending == [] && active == [] && reused == saved == 0
      && saves == [] && settled == wasted == NOTHING && truncations == faults == 0
    }

    // ---- Invariants -----------------------------------------------------------------------

    /** Holds at every await, so also after a crash. */
    ghost predicate Safe()
      reads this`store, this`saves, this`invocations, this`usage, this`truncations
    {
      && History(limits, phase, roots, began, opening, saves, store)
      && Audited(limits, began, invocations) && Balanced(opening, invocations, truncations, usage)
      && usage.llmCalls <= Larger(opening.llmCalls, CallCap(limits, phase))
      && usage.toolCalls <= Larger(opening.toolCalls, ToolCap(limits, phase))
      && Backed(phase, began, opening, store, usage)
    }

    /** Every leaf is in one place, `live` being the sessions under way. */
    ghost predicate Covered(live: seq<Session>)
      reads this`checkpoints, this`completed, this`pending, this`waiting
    {
      && Placed(roots, checkpoints, completed, pending, waiting, Works(live))
      && InPhase(waiting, phase) && InPhase(Works(live), phase)
    }

    /** Nothing charged is lost: the opening charge, what was checkpointed, what sessions under way have
        spent, and what was given up with split sessions. */
    ghost predicate Accounted(live: seq<Session>)
      reads this`checkpoints, this`store, this`usage, this`settled, this`wasted
    {
      && usage == Plus(opening, Plus(settled, Plus(Spent(live), wasted)))
      && Charged(phase, checkpoints) == Plus(Charged(phase, began), settled)
      && GoodSave(limits, phase, roots, began, opening, checkpoints) && store == checkpoints
    }

    ghost predicate Valid(live: seq<Session>)
      reads this`store, this`saves, this`invocations, this`usage, this`truncations
      reads this`checkpoints, this`completed, this`pending, this`waiting, this`settled, this`wasted
    {
      Safe() && Covered(live) && Accounted(live) && Metered(limits, invocations, checkpoints, live)
    }

    ghost function Now(): (now: Board)
      reads this`waiting, this`active, this`completed, this`checkpoints, this`saved
      ensures now == Board(waiting, active, completed, checkpoints, saved)
    {
      Board(waiting, active, completed, checkpoints, saved)
    }

    // ---- Requests -------------------------------------------------------------------------

    /** Intent first, then the request; a final one withholds the tools. */
    method LlmStep(session: Session, final: bool) returns (next: Session, reply: Reply)
      modifies this`usage, this`invocations, this`faults
      ensures reply.Broken? ==>
        || (usage == old(usage) && invocations == old(invocations))
        || (&& usage.llmCalls == old(usage).llmCalls + 1 && usage.toolCalls == old(usage).toolCalls
            && invocations == old(invocations) + [ToModel(session.work.key, !final)])
      ensures !reply.Broken? ==>
        && usage == Plus(old(usage), Cost(reply))
        && next == session.(usage := Plus(session.usage, Cost(reply)), calls := session.calls + 1)
        && invocations == old(invocations) + [ToModel(session.work.key, !final)]
      ensures faults == old(faults) + if reply.Broken? then 1 else 0
    {
      next := session;
      if * {
        faults := faults + 1;
        return next, Broken;
      }
      invocations := invocations + [ToModel(session.work.key, !final)];
      usage := Plus(usage, Usage(1, 0, 0, 0));
      next := next.(usage := Plus(next.usage, Usage(1, 0, 0, 0)), calls := next.calls + 1);
      reply := *;
      if * { reply := Broken; }
      if reply.Broken? {
        faults := faults + 1;
        return;
      }
      var tokens := Usage(0, 0, Cost(reply).inputTokens, Cost(reply).outputTokens);
      usage := Plus(usage, tokens);
      next := next.(usage := Plus(next.usage, tokens));
    }

    /** Takes an unusable truncated answer out of both accounts: one that was charged with it is back where it
        was, and no account ever grows. */
    method Refund(session: Session, reply: Reply) returns (next: Session)
      requires reply.Completion?
      modifies this`usage, this`truncations
      ensures forall before :: old(usage) == Plus(before, Cost(reply)) ==> usage == before
      ensures forall before :: session.usage == Plus(before, Cost(reply)) ==> next.usage == before
      ensures AtMost(usage, old(usage)) && AtMost(next.usage, session.usage)
      ensures next == session.(usage := next.usage) && truncations == old(truncations) + 1
    {
      usage := Usage(Less(usage.llmCalls, 1), usage.toolCalls,
                     Less(usage.inputTokens, reply.inputTokens), Less(usage.outputTokens, reply.outputTokens));
      next := session.(usage := Usage(Less(session.usage.llmCalls, 1), session.usage.toolCalls,
                                      Less(session.usage.inputTokens, reply.inputTokens),
                                      Less(session.usage.outputTokens, reply.outputTokens)));
      truncations := truncations + 1;
      forall before | old(usage) == Plus(before, Cost(reply)) ensures usage == before { RefundExact(before, reply); }
      forall before | session.usage == Plus(before, Cost(reply)) ensures next.usage == before {
        RefundExact(before, reply);
      }
    }

    // ---- Checkpoints ----------------------------------------------------------------------

    /** Sets the checkpoint and saves; the save may fail, or commit without being acknowledged. */
    method Checkpoint(key: Key, cp: WorkForest.Checkpoint) returns (failure: Option<Failure>)
      requires Safe() && store == checkpoints && key !in checkpoints
      requires GoodSave(limits, phase, roots, began, opening, checkpoints[key := cp])
      requires Backed(phase, began, opening, checkpoints[key := cp], usage)
      modifies this`checkpoints, this`store, this`saves, this`faults
      ensures Safe() && checkpoints == old(checkpoints)[key := cp]
      ensures failure.None? ==> store == checkpoints
      ensures faults == old(faults) + if failure.Some? then 1 else 0
    {
      hide GoodSave, Audited, Backed, Balanced;
      checkpoints := checkpoints[key := cp];
      var outcome: SaveOutcome := *;
      if outcome != NotSaved {
        HistoryAdd(limits, phase, roots, began, opening, saves, store, checkpoints);
        store := checkpoints;
        saves := saves + [checkpoints];
      }
      failure := None;
      if outcome != Saved {
        faults := faults + 1;
        failure := Some(Transient);
      }
    }

    /** The session in hand, apart from the other live ones. */
    lemma Unpack(session: Session)
      requires Valid([session] + active)
      ensures Safe() && store == checkpoints
      ensures Placed(roots, checkpoints, completed, pending, waiting, [session.work] + Works(active))
      ensures session.work.key !in checkpoints && session.work.key.phase == phase
      ensures forall other :: other in active ==> other.work.key != session.work.key
      ensures InPhase(waiting, phase) && InPhase(Works(active), phase)
      ensures usage == Plus(opening, Plus(settled, Plus(Plus(session.usage, Spent(active)), wasted)))
      ensures Charged(phase, checkpoints) == Plus(Charged(phase, began), settled)
      ensures GoodSave(limits, phase, roots, began, opening, checkpoints)
      ensures Metered(limits, invocations, checkpoints, [session] + active)
    {
      hide GoodSave, Metered, Charged, History;
      assert Works([session] + active) == [session.work] + Works(active);
      assert Spent([session] + active) == Plus(session.usage, Spent(active));
      assert session.work in Works([session] + active);
      assert forall work :: work in Works(active) ==> work in [session.work] + Works(active);
      PlacedApart(roots, checkpoints, completed, pending, waiting, session.work, Works(active));
      forall other | other in active ensures other.work.key != session.work.key {
        assert other.work in Works(active);
      }
    }

    lemma Establish(live: seq<Session>)
      requires Safe() && store == checkpoints
      requires Placed(roots, checkpoints, completed, pending, waiting, Works(live))
      requires InPhase(waiting, phase) && InPhase(Works(live), phase)
      requires usage == Plus(opening, Plus(settled, Plus(Spent(live), wasted)))
      requires Charged(phase, checkpoints) == Plus(Charged(phase, began), settled)
      requires GoodSave(limits, phase, roots, began, opening, checkpoints)
      requires Metered(limits, invocations, checkpoints, live)
      ensures Valid(live)
    {
      hide GoodSave, Metered, Charged, History, Placed, InPhase, Spent, Works;
    }

    /** What is true of the checkpoint that ends a session, before it is written. */
    lemma Ending(session: Session, cp: WorkForest.Checkpoint)
      requires Valid([session] + active) && cp.phase == phase && !cp.status.Stopped?
      requires Charge(phase, cp) == if cp.status.Split? then NOTHING else session.usage
      requires Resumable(roots, checkpoints[session.work.key := cp])
      ensures GoodSave(limits, phase, roots, began, opening, checkpoints[session.work.key := cp])
      ensures Backed(phase, began, opening, checkpoints[session.work.key := cp], usage)
      ensures Charged(phase, checkpoints[session.work.key := cp]) == Plus(Charge(phase, cp), Charged(phase, checkpoints))
      ensures Metered(limits, invocations, checkpoints[session.work.key := cp], active)
    {
      Unpack(session);
      MeteredEnd(limits, invocations, checkpoints, session, active, cp);
      hide Metered, History, Placed, Resumable, GoodSave;
      GoodAfter(limits, phase, roots, began, opening, checkpoints, session.work.key, cp, usage);
    }

    lemma ChargeOf(cp: WorkForest.Checkpoint)
      requires cp.phase == phase
      ensures Charge(phase, cp) == if cp.status.Split? then NOTHING else cp.usage
    {
    }

    lemma Settle(session: Session)
      ensures Plus(opening, Plus(settled, Plus(Plus(session.usage, Spent(active)), wasted)))
           == Plus(opening, Plus(Plus(settled, session.usage), Plus(Spent(active), wasted)))
           == Plus(opening, Plus(settled, Plus(Spent(active), Plus(wasted, session.usage))))
      ensures Plus(session.usage, Plus(Charged(phase, began), settled))
           == Plus(Charged(phase, began), Plus(settled, session.usage))
      ensures Plus(NOTHING, Charged(phase, checkpoints)) == Charged(phase, checkpoints)
    {
      hide *;
      PlusMoves(settled, session.usage, Spent(active), wasted);
      Exchange(session.usage, Charged(phase, began), settled);
      PlusSwaps(session.usage, settled);
      PlusNothing(Charged(phase, checkpoints));
    }

    /** The session ends with a parsed result. */
    method Finish(session: Session, result: seq<Finding>) returns (failure: Option<Failure>)
      requires Valid([session] + active)
      modifies this`checkpoints, this`store, this`saves, this`completed, this`saved, this`settled, this`faults
      ensures Safe() && faults == old(faults) + if failure.Some? then 1 else 0
      ensures completed == old(completed) + if failure.None? then [session.work] else []
      ensures saved == old(saved) + if failure.None? then 1 else 0
      ensures checkpoints == old(checkpoints)[session.work.key := WorkForest.Checkpoint(phase, Done, result, session.usage)]
      ensures failure.None? ==> Valid(active)
    {
      var key, cp := session.work.key, WorkForest.Checkpoint(phase, Done, result, session.usage);
      hide *;
      ChargeOf(cp);
      Unpack(session);
      PlacedDone(roots, checkpoints, completed, pending, waiting, session.work, Works(active), cp);
      PlacedResumable(roots, checkpoints[key := cp], completed + [session.work], pending, waiting, Works(active));
      Ending(session, cp);
      Settle(session);
      failure := Checkpoint(key, cp);
      if failure.None? {
        settled := Plus(settled, session.usage);
        completed := completed + [session.work];
        saved := saved + 1;
        Establish(active);
      }
    }

    lemma PiecesInPhase(item: WorkItem, items: seq<WorkItem>)
      requires Children(item).Some? && item.key.phase == phase && InPhase(items, phase)
      ensures InPhase(items + Children(item).value, phase)
    {
      ChildrenIncomparable(item);
    }

    /** The session ends because its work is cut into pieces; `otherwise` is raised when it cannot be. */
    method SplitSession(session: Session, otherwise: Failure) returns (failure: Option<Failure>)
      requires Valid([session] + active)
      modifies this`checkpoints, this`store, this`saves, this`waiting, this`saved, this`wasted, this`faults
      ensures Safe() && faults == old(faults) + if failure.Some? then 1 else 0
      ensures failure.None? ==> Valid(active) && Outstanding(waiting, active) < old(Outstanding(waiting, [session] + active))
      ensures failure.None? ==> SplitUp(phase, old(Now()), Now(), session.work)
      ensures Children(session.work).None? ==> failure == Some(otherwise)
    {
      var key, cp := session.work.key, WorkForest.Checkpoint(phase, Split, [], NOTHING);
      hide *;
      ChargeOf(cp);
      Unpack(session);
      var children := Children(session.work);
      if children.None? {
        faults := faults + 1;
        return Some(otherwise);
      }
      OutstandingSplit(waiting, session, active);
      PiecesInPhase(session.work, waiting);
      PlacedSplit(roots, checkpoints, completed, pending, waiting, session.work, Works(active), cp);
      PlacedResumable(roots, checkpoints[key := cp], completed, pending, waiting + children.value, Works(active));
      Ending(session, cp);
      Settle(session);
      PiecesWait(phase, Now(), session.work);
      failure := Checkpoint(key, cp);
      if failure.None? {
        wasted := Plus(wasted, session.usage);
        waiting := waiting + children.value;
        saved := saved + 1;
        Establish(active);
      }
    }

    // ---- Turns ----------------------------------------------------------------------------

    /** The session in hand may have been replaced by a later state of itself. */
    lemma Repack(session: Session)
      requires Safe() && store == checkpoints
      requires Placed(roots, checkpoints, completed, pending, waiting, [session.work] + Works(active))
      requires session.work.key.phase == phase && InPhase(waiting, phase) && InPhase(Works(active), phase)
      requires usage == Plus(opening, Plus(settled, Plus(Plus(session.usage, Spent(active)), wasted)))
      requires Charged(phase, checkpoints) == Plus(Charged(phase, began), settled)
      requires GoodSave(limits, phase, roots, began, opening, checkpoints)
      requires Metered(limits, invocations, checkpoints, [session] + active)
      ensures Valid([session] + active)
    {
      hide GoodSave, Metered, Charged, History, Placed;
      assert Works([session] + active) == [session.work] + Works(active);
      assert Spent([session] + active) == Plus(session.usage, Spent(active));
      Establish([session] + active);
    }

    lemma StillSafe(was: Usage, log: seq<Invocation>, last: Invocation)
      requires Backed(phase, began, opening, store, was)
      requires was.llmCalls <= usage.llmCalls && was.toolCalls <= usage.toolCalls
      requires History(limits, phase, roots, began, opening, saves, store)
      requires invocations == log + [last]
      requires Audited(limits, began, invocations) && Balanced(opening, log, truncations, was)
      requires usage.llmCalls == was.llmCalls + (if last.ToModel? then 1 else 0)
      requires usage.toolCalls == was.toolCalls + (if last.ToTool? then 1 else 0)
      requires usage.llmCalls <= Larger(opening.llmCalls, CallCap(limits, phase))
      requires usage.toolCalls <= Larger(opening.toolCalls, ToolCap(limits, phase))
      ensures Safe()
    {
      hide History, Audited, Balanced;
      BalancedAppend(opening, log, last, truncations, was, usage);
    }

    lemma SafeParts(session: Session)
      requires Valid([session] + active)
      ensures History(limits, phase, roots, began, opening, saves, store)
      ensures Audited(limits, began, invocations) && Balanced(opening, invocations, truncations, usage)
      ensures Asked(invocations, session.work.key) == session.calls && session.work.key !in began
      ensures session.calls == session.rounds ==> Offered(invocations, session.work.key) == session.rounds
      ensures usage.llmCalls <= Larger(opening.llmCalls, CallCap(limits, phase))
      ensures usage.toolCalls <= Larger(opening.toolCalls, ToolCap(limits, phase))
      ensures Backed(phase, began, opening, store, usage)
      ensures usage.llmCalls >= session.usage.llmCalls
    {
      Unpack(session);
      assert session in [session] + active;
      hide History, Placed, Resumable, Audited, Balanced;
    }

    lemma SameMoney(a: Usage, cost: Usage, others: Usage)
      ensures Plus(Plus(opening, Plus(settled, Plus(Plus(a, others), wasted))), cost)
           == Plus(opening, Plus(settled, Plus(Plus(Plus(a, cost), others), wasted)))
    {
    }

    lemma CostOne(was: Usage, reply: Reply)
      ensures Plus(was, Cost(reply)).llmCalls == was.llmCalls + 1 && Plus(was, Cost(reply)).toolCalls == was.toolCalls
    {
    }

    /** A request with a free slot keeps every account in order. */
    method Ask(session: Session, final: bool) returns (next: Session, reply: Reply)
      requires Valid([session] + active)
      requires session.rounds <= session.calls <= limits.maxToolRounds + 1 && usage.llmCalls < CallCap(limits, phase)
      requires !final ==> session.calls == session.rounds < limits.maxToolRounds
      modifies this`usage, this`invocations, this`faults
      ensures Safe() && faults == old(faults) + if reply.Broken? then 1 else 0
      ensures !reply.Broken? ==> Valid([next] + active)
      ensures !reply.Broken? ==>
        && usage == Plus(old(usage), Cost(reply))
        && next == session.(usage := Plus(session.usage, Cost(reply)), calls := session.calls + 1)
      ensures invocations == old(invocations) + [ToModel(session.work.key, !final)]
              || (reply.Broken? && invocations == old(invocations))
    {
      hide *;
      Unpack(session);
      SafeParts(session);
      ghost var log, last := invocations, ToModel(session.work.key, !final);
      AuditedAppend(limits, began, log, last);
      CapGrows();
      next, reply := LlmStep(session, final);
      if invocations != log {
        if !reply.Broken? { CostOne(old(usage), reply); }
        StillSafe(old(usage), log, last);
      }
      if !reply.Broken? {
        MeteredAsk(limits, log, checkpoints, session, next, active, !final);
        SameMoney(session.usage, Cost(reply), Spent(active));
        Repack(next);
      }
    }

    lemma CapGrows()
      requires usage.llmCalls < CallCap(limits, phase)
      ensures usage.llmCalls + 1 <= Larger(opening.llmCalls, CallCap(limits, phase))
    {
    }

    lemma Repaid(before: Usage, reply: Reply, others: Usage)
      requires reply.Completion?
      requires usage == Plus(opening, Plus(settled, Plus(Plus(Plus(before, Cost(reply)), others), wasted)))
      ensures usage == Plus(Plus(opening, Plus(settled, Plus(Plus(before, others), wasted))), Cost(reply))
    {
    }

    /** A truncated answer is refunded exactly, to the session and to the budget. */
    method Forgive(session: Session, reply: Reply, ghost before: Session) returns (next: Session)
      requires Valid([session] + active) && reply.Completion?
      requires session == before.(usage := Plus(before.usage, Cost(reply)), calls := session.calls)
      modifies this`usage, this`truncations
      ensures Safe() && Valid([next] + active)
      ensures next == before.(calls := session.calls) && old(usage) == Plus(usage, Cost(reply))
      ensures truncations == old(truncations) + 1
    {
      hide *;
      Unpack(session);
      SafeParts(session);
      ghost var repaid := Plus(opening, Plus(settled, Plus(Plus(before.usage, Spent(active)), wasted)));
      Repaid(before.usage, reply, Spent(active));
      RefundExact(repaid, reply);
      RefundExact(before.usage, reply);
      CostOne(repaid, reply);
      next := Refund(session, reply);
      Rebalanced(invocations, old(usage), old(truncations), usage);
      BackedBy(Plus(Plus(before.usage, Spent(active)), wasted));
      RefundedSafe();
      MeteredSame(limits, invocations, checkpoints, session, next, active);
      Repack(next);
    }

    lemma BackedBy(rest: Usage)
      requires usage == Plus(opening, Plus(settled, rest)) && store == checkpoints
      requires Charged(phase, checkpoints) == Plus(Charged(phase, began), settled)
      ensures Backed(phase, began, opening, store, usage)
    {
      hide Charged;
    }

    lemma RefundedSafe()
      requires Backed(phase, began, opening, store, usage)
      requires History(limits, phase, roots, began, opening, saves, store)
      requires Audited(limits, began, invocations) && Balanced(opening, invocations, truncations, usage)
      requires usage.llmCalls <= Larger(opening.llmCalls, CallCap(limits, phase))
      requires usage.toolCalls <= Larger(opening.toolCalls, ToolCap(limits, phase))
      ensures Safe()
    {
      hide History, Audited, Balanced;
    }

    lemma Rebalanced(log: seq<Invocation>, was: Usage, forgiven: nat, now: Usage)
      requires Balanced(opening, log, forgiven, was)
      requires now.llmCalls + 1 == was.llmCalls && now.toolCalls == was.toolCalls
      ensures Balanced(opening, log, forgiven + 1, now)
    {
    }

    method Divide(ghost session: Session, next: Session, ghost spentBefore: Usage, otherwise: Failure)
      returns (failure: Option<Failure>)
      requires Valid([next] + active) && next.work == session.work
      requires Funds(limits, phase, spentBefore, [session] + active)
      requires Total(Slots, active) <= RemainingCalls(limits, phase, usage)
      modifies this`checkpoints, this`store, this`saves, this`waiting, this`saved, this`wasted, this`faults
      ensures Safe() && faults == old(faults) + if failure.Some? then 1 else 0
      ensures Children(session.work).None? ==> failure == Some(otherwise)
      ensures failure.None? ==> Valid(active) && Funds(limits, phase, usage, active) && SplitUp(phase, old(Now()), Now(), session.work)
      ensures failure.None? ==> Outstanding(waiting, active) < old(Outstanding(waiting, [session] + active))
    {
      hide *;
      OutstandingSame(waiting, session, next, active);
      FundsEnd(limits, phase, spentBefore, usage, session, active);
      failure := SplitSession(next, otherwise);
    }

    /** Parsing belongs to the same failure boundary as the request: a bad answer leaves no checkpoint, and a good
        one is stored as the parser understood it. */
    method Conclude(ghost session: Session, next: Session, ghost spentBefore: Usage, parsed: Result<seq<Finding>, Failure>)
      returns (failure: Option<Failure>)
      requires Valid([next] + active) && next.work == session.work
      requires Funds(limits, phase, spentBefore, [session] + active)
      requires Total(Slots, active) <= RemainingCalls(limits, phase, usage)
      modifies this`checkpoints, this`store, this`saves, this`completed, this`saved, this`settled, this`faults
      ensures Safe() && faults == old(faults) + if failure.Some? then 1 else 0
      ensures failure.None? ==> Valid(active) && Funds(limits, phase, usage, active)
      ensures failure.None? ==> Outstanding(waiting, active) < old(Outstanding(waiting, [session] + active))
      ensures parsed.Err? ==> failure == Some(parsed.error) && checkpoints == old(checkpoints)
      ensures failure.None? ==>
        parsed.Ok? && forall cost :: next.usage == Plus(session.usage, cost) ==>
                        Ended(phase, old(Now()), Now(), session, cost, parsed.value)
      ensures completed == old(completed) + if failure.None? then [session.work] else []
    {
      hide *;
      Unpack(next);
      OutstandingSame(waiting, session, next, active);
      OutstandingEnd(waiting, next, active);
      FundsEnd(limits, phase, spentBefore, usage, session, active);
      match parsed {
        case Err(error) =>
          faults := faults + 1;
          failure := Some(error);
        case Ok(result) =>
          failure := Finish(next, result);
          ResultStored(old(Now()), session, next, result);
      }
    }

    lemma ResultStored(before: Board, session: Session, next: Session, result: seq<Finding>)
      requires next.work == session.work
      ensures forall cost :: next.usage == Plus(session.usage, cost) ==>
        Ended(phase, before,
              before.(completed := before.completed + [next.work], saved := before.saved + 1,
                      checkpoints := before.checkpoints[next.work.key := WorkForest.Checkpoint(phase, Done, result, next.usage)]),
              session, cost, result)
    {
    }

    /** The answer asks for tools: the session goes on, one round further. */
    method Resume(ghost session: Session, next: Session, ghost spentBefore: Usage, toolCalls: seq<ToolKey>)
      returns (failure: Option<Failure>)
      requires Valid([next] + active) && next.work == session.work
      requires Funds(limits, phase, spentBefore, [session] + active)
      requires SessionOk(limits, session) && session.rounds < limits.maxToolRounds
      requires next == session.(usage := next.usage, calls := session.calls + 1)
      requires next.usage.llmCalls == session.usage.llmCalls + 1
      requires Total(Slots, active) + 1 <= RemainingCalls(limits, phase, usage)
      requires Offered(invocations, session.work.key) == session.rounds + 1
      modifies this`active
      ensures failure.None? && Safe() && Valid(active) && Funds(limits, phase, usage, active)
      ensures forall cost :: next.usage == Plus(session.usage, cost) ==> WentOn(old(Now()), Now(), session, cost, toolCalls)
      ensures Outstanding(waiting, active) == old(Outstanding(waiting, [session] + active))
    {
      hide *;
      Unpack(next);
      var later := next.(pendingTools := next.pendingTools + toolCalls, rounds := next.rounds + 1, duplicateOnly := true);
      RoundFurther(Now(), session, next, toolCalls);
      SessionGoesOn(limits, session, later);
      FundsRotate(limits, phase, spentBefore, usage, session, later, active);
      OutstandingRotate(waiting, session, later, active);
      Rotate(next, later);
      active := active + [later];
      Establish(active);
      failure := None;
    }

    lemma RoundFurther(before: Board, session: Session, next: Session, toolCalls: seq<ToolKey>)
      requires next == session.(usage := next.usage, calls := session.calls + 1)
      ensures forall cost :: next.usage == Plus(session.usage, cost) ==>
        var later := next.(pendingTools := next.pendingTools + toolCalls, rounds := next.rounds + 1, duplicateOnly := true);
        WentOn(before, before.(active := before.active + [later]), session, cost, toolCalls)
    {
    }

    /** The session in hand goes to the back of the queue. */
    lemma Rotate(session: Session, next: Session)
      requires Valid([session] + active)
      requires next.work == session.work && next.calls == session.calls && next.usage == session.usage
      requires next.calls == next.rounds ==> Offered(invocations, session.work.key) == next.rounds
      ensures Placed(roots, checkpoints, completed, pending, waiting, Works(active + [next]))
      ensures InPhase(Works(active + [next]), phase)
      ensures usage == Plus(opening, Plus(settled, Plus(Spent(active + [next]), wasted)))
      ensures Metered(limits, invocations, checkpoints, active + [next])
    {
      Unpack(session);
      MeteredTool(limits, invocations, checkpoints, session, next, active, session.work.key);
      PlacedRotate(roots, checkpoints, completed, pending, waiting, session.work, Works(active));
      WorksLast(active, next);
      SpentAppend(active, next);
      hide Placed, Metered, History;
      assert InPhase(Works(active) + [next.work], phase);
    }

    /** What the answer of a turn leads to: pieces of the work, another round with tools, or a parsed result.
        A final answer never gets another round. */
    method Answer(ghost session: Session, next: Session, reply: Reply, final: bool, ghost spentBefore: Usage)
      returns (failure: Option<Failure>)
      requires Valid([next] + active) && !reply.Broken? && !(reply.Completion? && reply.truncated)
      requires next == session.(usage := Plus(session.usage, Cost(reply)), calls := next.calls)
      requires Funds(limits, phase, spentBefore, [session] + active)
      requires Total(Slots, active) <= RemainingCalls(limits, phase, usage)
      requires !final ==>
        && SessionOk(limits, session) && session.rounds < limits.maxToolRounds && next.calls == session.calls + 1
        && Offered(invocations, session.work.key) == session.rounds + 1
        && Total(Slots, active) + 1 <= RemainingCalls(limits, phase, usage)
      modifies this`checkpoints, this`store, this`saves, this`completed, this`saved, this`settled
      modifies this`waiting, this`wasted, this`active, this`faults
      ensures Safe() && faults == old(faults) + if failure.Some? then 1 else 0
      ensures failure.None? ==> Valid(active) && Funds(limits, phase, usage, active)
      ensures failure.None? ==> Follows(phase, old(Now()), Now(), session, reply, final)
      ensures failure.None? ==> Outstanding(waiting, active) <= old(Outstanding(waiting, [session] + active))
      ensures failure.Some? ==> completed == old(completed) && active == old(active)
      ensures final && !reply.ContextRejected? && reply.toolCalls != [] ==> failure == Some(Transient)
    {
      hide *;
      Unpack(next);
      CostOne(session.usage, reply);
      if reply.ContextRejected? {
        failure := Divide(session, next, spentBefore, Permanent);
      } else if reply.toolCalls != [] {
        if final {
          faults := faults + 1;
          return Some(Transient);
        }
        failure := Resume(session, next, spentBefore, reply.toolCalls);
      } else {
        failure := Conclude(session, next, spentBefore, reply.parsed);
      }
      Leads(phase, old(Now()), Now(), session, reply, final);
    }

    /** A truncated answer is forgiven, and the request is sent once more without tools. */
    method Recover(ghost session: Session, next: Session, reply: Reply, ghost spentBefore: Usage)
      returns (later: Session, answer: Reply)
      requires Valid([next] + active) && reply.Completion? && usage == Plus(spentBefore, Cost(reply))
      requires next == session.(usage := Plus(session.usage, Cost(reply)), calls := session.calls + 1)
      requires session.rounds <= next.calls <= limits.maxToolRounds + 1 && spentBefore.llmCalls < CallCap(limits, phase)
      modifies this`usage, this`invocations, this`truncations, this`faults
      ensures Safe() && faults == old(faults) + if answer.Broken? then 1 else 0
      ensures truncations == old(truncations) + 1
      ensures !answer.Broken? ==>
        && Valid([later] + active) && usage == Plus(spentBefore, Cost(answer))
        && later == session.(usage := Plus(session.usage, Cost(answer)), calls := session.calls + 2)
      ensures invocations == old(invocations) + [ToModel(session.work.key, false)]
              || (answer.Broken? && invocations == old(invocations))
    {
      hide *;
      var again := Forgive(next, reply, session);
      PlusCancel(spentBefore, usage, Cost(reply));
      later, answer := Ask(again, true);
    }

    /** The log after the request of a turn: the request, with tools if they were offered, and after a truncated
        answer the same once more without. */
    function Sent(log: seq<Invocation>, key: Key, offered: bool, retried: bool): seq<Invocation> {
      log + [ToModel(key, offered)] + if retried then [ToModel(key, false)] else []
    }

    /** The request of a turn, with the recovery of a truncated answer. */
    method Request(session: Session, final: bool) returns (next: Session, reply: Reply, retried: bool)
      requires Valid([session] + active)
      requires session.calls == session.rounds <= limits.maxToolRounds && usage.llmCalls < CallCap(limits, phase)
      requires !final ==> session.rounds < limits.maxToolRounds
      modifies this`usage, this`invocations, this`truncations, this`faults
      ensures Safe() && faults == old(faults) + if reply.Broken? then 1 else 0
      ensures !reply.Broken? ==>
        && Valid([next] + active) && usage == Plus(old(usage), Cost(reply))
        && next == session.(usage := Plus(session.usage, Cost(reply)), calls := session.calls + if retried then 2 else 1)
        && invocations == Sent(old(invocations), session.work.key, !final, retried)
      ensures reply.Completion? && reply.truncated ==> retried
      ensures truncations == old(truncations) + if retried then 1 else 0
      ensures reply.Broken? ==>
        || invocations == old(invocations) || invocations == Sent(old(invocations), session.work.key, !final, false)
        || (retried && invocations == Sent(old(invocations), session.work.key, !final, true))
    {
      hide *;
      ghost var log, spentBefore := invocations, usage;
      retried := false;
      next, reply := Ask(session, final);
      SentParts(log, session.work.key, !final);
      if reply.Completion? && reply.truncated {
        retried := true;
        next, reply := Recover(session, next, reply, spentBefore);
      }
    }

    lemma SentParts(log: seq<Invocation>, key: Key, offered: bool)
      ensures Sent(log, key, offered, false) == log + [ToModel(key, offered)]
      ensures Sent(log, key, offered, true) == log + [ToModel(key, offered)] + [ToModel(key, false)]
    {
    }

    lemma OfferCounts(log: seq<Invocation>, key: Key, offered: bool)
      ensures Offered(Sent(log, key, offered, false), key) == Offered(log, key) + if offered then 1 else 0
    {
      SentParts(log, key, offered);
      OfferedAppend(log, ToModel(key, offered), key);
    }

    /** One model turn of a session: the request, the recovery of a truncated answer, and what follows from it. */
    method LlmTurn(session: Session) returns (failure: Option<Failure>, ghost reply: Reply, ghost retried: bool)
      requires Valid([session] + active) && Funds(limits, phase, usage, [session] + active)
      requires session.pendingTools == []
      modifies this
      ensures Safe()
      ensures failure.None? ==> Valid(active) && Funds(limits, phase, usage, active)
      ensures failure.None? ==>
        || Outstanding(waiting, active) < old(Outstanding(waiting, [session] + active))
        || (&& Outstanding(waiting, active) == old(Outstanding(waiting, [session] + active))
            && RemainingCalls(limits, phase, usage) < old(RemainingCalls(limits, phase, usage)))
      // tools are offered exactly when they are due, and never again after a truncated answer
      ensures var key := session.work.key;
              var offered := ToolsDue(limits, phase, old(invocations), old(usage), session, old(active));
              && (!reply.Broken? ==> invocations == Sent(old(invocations), key, offered, retried))
              && (reply.Broken? ==>
                    || invocations == old(invocations) || invocations == Sent(old(invocations), key, offered, false)
                    || (retried && invocations == Sent(old(invocations), key, offered, true)))
              && (failure.None? ==> Follows(phase, old(Now()), Now(), session, reply, !offered || retried))
              && (reply.Completion? && !reply.truncated && reply.toolCalls != [] && (!offered || retried) ==>
                    failure == Some(Transient))
      // exactly the truncated answers are forgiven
      ensures truncations == old(truncations) + (if retried then 1 else 0)
                                              + (if reply.Completion? && reply.truncated then 1 else 0)
      ensures reply.Completion? && reply.truncated ==> retried
      ensures reused == old(reused)
      // a turn fails only when a call failed or nothing could be done with the answer
      ensures faults == old(faults) + if failure.Some? then 1 else 0
      ensures failure.Some? ==> completed == old(completed) && active == old(active)
    {
      hide *;
      TurnHasSlot(limits, phase, usage, session, active);
      SessionFacts(limits, session);
      SafeParts(session);
      CallsLeft(limits, phase, usage, usage);
      var available := RemainingCalls(limits, phase, usage) - Total(Slots, active);
      // The source stops the session here when nothing is available; that never happens.
      assert available >= 1;
      var final := MustFinish(limits, phase, usage, session, active);
      FreeToContinue(limits, phase, invocations, usage, session, active);
      ghost var spentBefore, log := usage, invocations;
      OfferCounts(log, session.work.key, !final);
      var next: Session, answer: Reply, again: bool;
      next, answer, again := Request(session, final);
      reply, retried := answer, again;
      if answer.Broken? { return Some(Transient), reply, retried; }
      CostOne(spentBefore, answer);
      CostOne(session.usage, answer);
      CallsLeft(limits, phase, spentBefore, usage);
      if answer.Completion? && answer.truncated {
        next := Forgive(next, answer, session);
        PlusCancel(spentBefore, usage, Cost(answer));
        failure := Divide(session, next, spentBefore, Transient);
        Leads(phase, old(Now()), Now(), session, answer, true);
      } else {
        failure := Answer(session, next, answer, final || again, spentBefore);
      }
    }

    // ---- Tools ----------------------------------------------------------------------------

    /** One repository read of a session; the tool budget is never refunded. */
    method ToolStep(session: Session) returns (next: Session, failure: Option<Failure>, ghost result: ToolResult)
      requires session.pendingTools != []
      modifies this`usage, this`invocations, this`faults
      ensures failure.None? ==> Handled(limits, phase, old(usage), usage, session, result, next)
      ensures faults == old(faults) + if failure.Some? then 1 else 0
      ensures failure.Some? ==> session.pendingTools[0] !in session.seen && old(usage).toolCalls < ToolCap(limits, phase)
      ensures
        || (usage == old(usage) && invocations == old(invocations) && next.usage == session.usage)
        || (&& old(usage).toolCalls < ToolCap(limits, phase)
            && usage == Plus(old(usage), Usage(0, 1, 0, 0)) && next.usage == Plus(session.usage, Usage(0, 1, 0, 0))
            && invocations == old(invocations) + [ToTool(session.work.key)])
    {
      var key := session.pendingTools[0];
      next := session.(pendingTools := session.pendingTools[1..]);
      failure := None;
      var answer: ToolResult := *;
      result := answer;
      if key in session.seen {
        // Suppressed as a duplicate.
      } else if RemainingTools(limits, phase, usage) == 0 {
        next := next.(finalOnly := true, duplicateOnly := false);
      } else {
        if * {
          faults := faults + 1;
          return next, Some(Transient), result;
        }
        invocations := invocations + [ToTool(session.work.key)];
        usage := Plus(usage, Usage(0, 1, 0, 0));
        next := next.(usage := Plus(next.usage, Usage(0, 1, 0, 0)), duplicateOnly := false);
        if answer == Raised {
          faults := faults + 1;
          return next, Some(Transient), result;
        }
        if answer == Answered { next := next.(seen := next.seen + {key}); }
      }
      if next.pendingTools == [] && next.duplicateOnly {
        next := next.(finalOnly := true);
      }
    }

    /** One tool call of the session, which then goes to the back of the queue. */
    method ToolTurn(session: Session) returns (failure: Option<Failure>, ghost result: ToolResult)
      requires Valid([session] + active) && Funds(limits, phase, usage, [session] + active)
      requires session.pendingTools != []
      modifies this`usage, this`invocations, this`active, this`faults
      ensures Safe()
      ensures failure.None? ==> Valid(active) && Funds(limits, phase, usage, active)
      ensures failure.None? ==>
        && Outstanding(waiting, active) == old(Outstanding(waiting, [session] + active))
        && RemainingCalls(limits, phase, usage) == old(RemainingCalls(limits, phase, usage))
        && Total(QueuedTools, active) < old(Total(QueuedTools, [session] + active))
      ensures failure.None? ==>
        && |active| == |old(active)| + 1 && active[..|old(active)|] == old(active)
        && Handled(limits, phase, old(usage), usage, session, result, active[|old(active)|])
      ensures failure.Some? ==> active == old(active)
      ensures faults == old(faults) + if failure.Some? then 1 else 0
      ensures invocations == old(invocations) || invocations == old(invocations) + [ToTool(session.work.key)]
    {
      hide *;
      Unpack(session);
      SafeParts(session);
      TurnHasSlot(limits, phase, usage, session, active);
      SessionFacts(limits, session);
      ghost var log, spentBefore, others := invocations, usage, active;
      var next: Session;
      next, failure, result := ToolStep(session);
      ToolMoney(session.usage, Spent(active));
      ToolCost(spentBefore);
      CallsLeft(limits, phase, spentBefore, usage);
      if invocations != log {
        AuditedAppend(limits, began, log, ToTool(session.work.key));
        StillSafe(spentBefore, log, ToTool(session.work.key));
      } else {
        RefundedSafe();
      }
      if failure.Some? { return; }
      HandledKeeps(limits, phase, spentBefore, usage, session, result, next);
      SessionAfterTool(limits, session, next);
      FundsRotate(limits, phase, spentBefore, usage, session, next, active);
      OutstandingRotate(waiting, session, next, active);
      MeteredTool(limits, log, checkpoints, session, next, active, session.work.key);
      PlacedRotate(roots, checkpoints, completed, pending, waiting, session.work, Works(active));
      QueueShrinks(session, next, active);
      WorksLast(active, next);
      SpentAppend(active, next);
      PhaseLast(Works(active), next.work);
      active := active + [next];
      Establish(active);
    }

    lemma PhaseLast(items: seq<WorkItem>, item: WorkItem)
      requires InPhase(items, phase) && item.key.phase == phase
      ensures InPhase(items + [item], phase)
    {
    }

    lemma ToolMoney(a: Usage, others: Usage)
      ensures Plus(Plus(opening, Plus(settled, Plus(Plus(a, others), wasted))), Usage(0, 1, 0, 0))
           == Plus(opening, Plus(settled, Plus(Plus(Plus(a, Usage(0, 1, 0, 0)), others), wasted)))
    {
    }

    lemma ToolCost(was: Usage)
      ensures Plus(was, Usage(0, 1, 0, 0)).llmCalls == was.llmCalls
      ensures Plus(was, Usage(0, 1, 0, 0)).toolCalls == was.toolCalls + 1
      ensures was.toolCalls < ToolCap(limits, phase) ==>
        was.toolCalls + 1 <= Larger(opening.toolCalls, ToolCap(limits, phase))
    {
    }

    // ---- Expanding the stored checkpoints -------------------------------------------------

    /** `leaves` have been appended to the lists that match their checkpoints. */
    twostate predicate Distributed(leaves: seq<WorkItem>)
      reads this
    {
      && completed == old(completed) + Having(leaves, checkpoints, Some(Done))
      && pending == old(pending) + Having(leaves, checkpoints, Some(Stopped))
      && waiting == old(waiting) + Having(leaves, checkpoints, None)
    }

    /** Rebuilds the forest below one item from the checkpoints, its leaves in document order. */
    method Expand(item: WorkItem) returns (ok: bool)
      modifies this`waiting, this`completed, this`pending, this`reused
      ensures ok ==> reused == old(reused) + StoredUnder(item, checkpoints)
      ensures ok ==> Distributed(LeavesUnder(item, checkpoints)) && SplitFree(LeavesUnder(item, checkpoints), checkpoints)
      ensures SplitFree(LeavesUnder(item, checkpoints), checkpoints) && Agrees(checkpoints) && item.key.phase == phase
        ==> ok
      decreases Weight(item), 0
    {
      hide Leaves, LeavesUnder, Children, Having, Weight, Total, SplitFree, Agrees, InPhase, Stored, StoredUnder;
      ItemFacts(item, checkpoints, phase);
      LeafStatus(item, checkpoints, None);
      LeafStatus(item, checkpoints, Some(Done));
      LeafStatus(item, checkpoints, Some(Stopped));
      if item.key !in checkpoints {
        waiting := waiting + [item];
        return true;
      }
      if checkpoints[item.key].phase != phase { return false; }
      reused := reused + 1;
      match checkpoints[item.key].status {
        case Split =>
          var children := Children(item);
          if children.None? { return false; }
          ok := ExpandAll(children.value);
        case Done =>
          completed := completed + [item];
          ok := true;
        case Stopped =>
          pending := pending + [item];
          ok := true;
      }
    }

    method ExpandAll(items: seq<WorkItem>) returns (ok: bool)
      modifies this`waiting, this`completed, this`pending, this`reused
      ensures ok ==> reused == old(reused) + Stored(items, checkpoints)
      ensures ok ==> Distributed(Leaves(items, checkpoints)) && SplitFree(Leaves(items, checkpoints), checkpoints)
      ensures SplitFree(Leaves(items, checkpoints), checkpoints) && Agrees(checkpoints) && InPhase(items, phase) ==> ok
      decreases Total(Weight, items), 2
    {
      if items == [] { return true; }
      ok := ExpandFirst(items);
    }

    method ExpandFirst(items: seq<WorkItem>) returns (ok: bool)
      requires items != []
      modifies this`waiting, this`completed, this`pending, this`reused
      ensures ok ==> reused == old(reused) + Stored(items, checkpoints)
      ensures ok ==> Distributed(Leaves(items, checkpoints)) && SplitFree(Leaves(items, checkpoints), checkpoints)
      ensures SplitFree(Leaves(items, checkpoints), checkpoints) && Agrees(checkpoints) && InPhase(items, phase) ==> ok
      decreases Total(Weight, items), 1
    {
      hide Leaves, LeavesUnder, Children, Having, Weight, Total, SplitFree, Agrees, InPhase, Stored, StoredUnder;
      ExpandFacts(items, checkpoints, phase);
      ghost var first, rest := LeavesUnder(items[0], checkpoints), Leaves(items[1..], checkpoints);
      HavingAppend(first, rest, checkpoints, None);
      HavingAppend(first, rest, checkpoints, Some(Done));
      HavingAppend(first, rest, checkpoints, Some(Stopped));
      ok := Expand(items[0]);
      if !ok { return; }
      ok := ExpandAll(items[1..]);
    }

    // ---- Admission ------------------------------------------------------------------------

    /** A new session for the first waiting item, with `slots` requests reserved. */
    method Start(slots: nat)
      requires Valid(active) && Funds(limits, phase, usage, active) && waiting != []
      requires 1 <= slots <= 2 && Total(Slots, active) + slots <= RemainingCalls(limits, phase, usage)
      modifies this`waiting, this`active
      ensures Valid(active) && Funds(limits, phase, usage, active)
      ensures waiting == old(waiting)[1..]
      ensures active == old(active) + [Begun(old(waiting)[0], slots)]
      ensures Outstanding(waiting, active) == old(Outstanding(waiting, active))
      ensures Total(QueuedTools, active) == old(Total(QueuedTools, active))
    {
      hide *;
      var item := waiting[0];
      var session := Session(item, slots, NOTHING, {}, [], 0, 0, true, false);
      assert session == Begun(item, slots) by { BegunIs(item, slots); }
      FreshSession(limits, session);
      StartFacts(session);
      FundsStart(limits, phase, usage, active, session);
      OutstandingStart(waiting, active, session);
      waiting := waiting[1..];
      active := active + [session];
      Establish(active);
    }

    lemma BegunIs(item: WorkItem, slots: nat)
      ensures Begun(item, slots) == Session(item, slots, NOTHING, {}, [], 0, 0, true, false)
    {
    }

    lemma StartFacts(session: Session)
      requires Valid(active) && waiting != [] && session.work == waiting[0]
      requires session.calls == session.rounds == 0 && session.usage == NOTHING && session.pendingTools == []
      ensures Safe() && store == checkpoints && GoodSave(limits, phase, roots, began, opening, checkpoints)
      ensures Placed(roots, checkpoints, completed, pending, waiting[1..], Works(active + [session]))
      ensures InPhase(waiting[1..], phase) && InPhase(Works(active + [session]), phase)
      ensures usage == Plus(opening, Plus(settled, Plus(Spent(active + [session]), wasted)))
      ensures Charged(phase, checkpoints) == Plus(Charged(phase, began), settled)
      ensures Metered(limits, invocations, checkpoints, active + [session])
      ensures Total(QueuedTools, active + [session]) == Total(QueuedTools, active)
    {
      hide *;
      StartMoney(session);
      Unvalid(active);
      PlacedStart(roots, checkpoints, completed, pending, waiting, Works(active));
      PlacedApart(roots, checkpoints, completed, pending, waiting[1..], session.work, Works(active));
      PlacedRotate(roots, checkpoints, completed, pending, waiting[1..], session.work, Works(active));
      WorksLast(active, session);
      TotalLast(QueuedTools, active, session);
      PhaseSplit(waiting, phase);
      PhaseLast(Works(active), session.work);
      KeysApart(active, session.work.key);
      MeteredStart(limits, invocations, checkpoints, active, session);
    }

    lemma StartMoney(session: Session)
      requires session.usage == NOTHING && session.pendingTools == []
      ensures Spent(active + [session]) == Spent(active)
      ensures QueuedTools(session) == 0
    {
      SpentAppend(active, session);
      PlusNothing(Spent(active));
    }

    lemma Unvalid(live: seq<Session>)
      requires Valid(live)
      ensures Safe() && store == checkpoints && GoodSave(limits, phase, roots, began, opening, checkpoints)
      ensures Placed(roots, checkpoints, completed, pending, waiting, Works(live))
      ensures InPhase(waiting, phase) && InPhase(Works(live), phase)
      ensures usage == Plus(opening, Plus(settled, Plus(Spent(live), wasted)))
      ensures Charged(phase, checkpoints) == Plus(Charged(phase, began), settled)
      ensures Metered(limits, invocations, checkpoints, live)
    {
      hide GoodSave, Metered, Charged, History, Placed, InPhase, Spent, Works;
    }

    lemma Left()
      ensures RemainingCalls(limits, phase, usage) > 0 ==>
        RemainingCalls(limits, phase, usage) + usage.llmCalls == CallCap(limits, phase)
      ensures RemainingCalls(limits, phase, usage) == 0 ==> CallCap(limits, phase) <= usage.llmCalls
      ensures RemainingTools(limits, phase, usage) > 0 <==> usage.toolCalls < ToolCap(limits, phase)
    {
    }

    /** Starts sessions while units and request slots last. */
    method Admit()
      requires Valid(active) && Funds(limits, phase, usage, active)
      modifies this`waiting, this`active
      ensures Valid(active) && Funds(limits, phase, usage, active)
      ensures Outstanding(waiting, active) == old(Outstanding(waiting, active))
      ensures Total(QueuedTools, active) == old(Total(QueuedTools, active))
      ensures |completed| + |active| <= Larger(maxUnits, |completed| + |old(active)|)
      ensures active == [] && waiting != [] ==>
        |completed| >= maxUnits || RemainingCalls(limits, phase, usage) == 0
      ensures Admitted(if limits.maxToolRounds > 0 && usage.toolCalls < ToolCap(limits, phase) then 2 else 1,
                       old(waiting), old(active), waiting, active)
      // an item is left waiting only when the units are used up or no session more could have its slots
      ensures waiting == [] || |completed| + |active| >= maxUnits
              || CallCap(limits, phase) < usage.llmCalls + Total(Slots, active)
                   + if limits.maxToolRounds > 0 && usage.toolCalls < ToolCap(limits, phase) then 2 else 1
    {
      hide *;
      LargerFacts(maxUnits, |completed| + |active|);
      ghost var slots := if limits.maxToolRounds > 0 && usage.toolCalls < ToolCap(limits, phase) then 2 else 1;
      NoneBegun(slots, waiting, active);
      Left();
      var more := true;
      while more && waiting != [] && |completed| + |active| < maxUnits
        invariant Valid(active) && Funds(limits, phase, usage, active)
        invariant Outstanding(waiting, active) == old(Outstanding(waiting, active))
        invariant Total(QueuedTools, active) == old(Total(QueuedTools, active))
        invariant |completed| + |active| <= Larger(maxUnits, |completed| + |old(active)|)
        invariant !more ==> active != [] || RemainingCalls(limits, phase, usage) == 0
        invariant Admitted(slots, old(waiting), old(active), waiting, active)
        invariant more ==> AllBegun(slots, old(waiting), old(active), waiting, active)
        invariant !more ==> CallCap(limits, phase) < usage.llmCalls + Total(Slots, active) + slots
        decreases |waiting|, more
      {
        FundsTotal(limits, phase, usage, active);
        Left();
        var spare := RemainingCalls(limits, phase, usage) - Total(Slots, active);
        var minimum := if limits.maxToolRounds > 0 && RemainingTools(limits, phase, usage) > 0 then 2 else 1;
        if spare < minimum && (active != [] || spare < 1) {
          more := false;
        } else {
          if more { OneMore(slots, old(waiting), old(active), waiting, active); }
          Start(if spare < minimum then spare else minimum);
          more := spare >= minimum;
        }
      }
    }

    // ---- The run --------------------------------------------------------------------------

    /** The session at the head of the queue has its turn: a tool call if any is queued, else a request; the counts
        of reused and of saved checkpoints stay right. */
    method Turn() returns (failure: Option<Failure>)
      requires Valid(active) && Funds(limits, phase, usage, active) && active != []
      modifies this
      ensures Safe()
      ensures failure.None? ==> Valid(active) && Funds(limits, phase, usage, active)
      ensures failure.None? ==>
        || Outstanding(waiting, active) < old(Outstanding(waiting, active))
        || (&& Outstanding(waiting, active) == old(Outstanding(waiting, active))
            && (|| RemainingCalls(limits, phase, usage) < old(RemainingCalls(limits, phase, usage))
                || (&& RemainingCalls(limits, phase, usage) == old(RemainingCalls(limits, phase, usage))
                    && Total(QueuedTools, active) < old(Total(QueuedTools, active)))))
      ensures old(completed) <= completed && |completed| + |active| <= |old(completed)| + |old(active)|
      ensures faults == old(faults) + if failure.Some? then 1 else 0
      ensures reused == old(reused) && (failure.None? ==> |checkpoints| + old(saved) == old(|checkpoints|) + saved)
      ensures var session, others := old(active)[0], old(active)[1..];
              if session.pendingTools != [] then
                failure.None? ==> |active| == |old(active)| && active[..|others|] == others
                                  && exists result :: Handled(limits, phase, old(usage), usage, session, result, active[|others|])
              else
                failure.None? ==>
                  exists reply, final :: Follows(phase, old(Now()).(active := others), Now(), session, reply, final)
    {
      hide *;
      var session := active[0];
      assert active == [session] + active[1..];
      active := active[1..];
      if session.pendingTools != [] {
        ghost var result;
        failure, result := ToolTurn(session);
      } else {
        ghost var reply, retried;
        ghost var before := Now();
        assert before == old(Now()).(active := old(active)[1..]);
        ghost var offered := ToolsDue(limits, phase, invocations, usage, session, active);
        Unpack(session);
        failure, reply, retried := LlmTurn(session);
        assert failure.None? ==> Follows(phase, before, Now(), session, reply, !offered || retried);
        FollowsCounts(before, Now(), session, reply);
      }
    }

    lemma FollowsCounts(before: Board, after: Board, session: Session, reply: Reply)
      requires session.work.key !in before.checkpoints
      ensures forall final :: Follows(phase, before, after, session, reply, final) ==>
        before.completed <= after.completed
        && |after.completed| + |after.active| <= |before.completed| + |before.active| + 1
        && |after.checkpoints| + before.saved == |before.checkpoints| + after.saved
    {
    }

    /** The expanded forest is where the accounts start from. */
    lemma Opened()
      requires Roots(roots) && Incomparable(roots) && InPhase(roots, phase) && Resumable(roots, checkpoints)
      requires checkpoints == store == began && usage == opening
      requires invocations == [] && saves == [] && settled == wasted == NOTHING && truncations == 0
      requires active == []
      requires completed == Having(Leaves(roots, checkpoints), checkpoints, Some(Done))
      requires pending == Having(Leaves(roots, checkpoints), checkpoints, Some(Stopped))
      requires waiting == Having(Leaves(roots, checkpoints), checkpoints, None)
      ensures Valid(active) && Funds(limits, phase, usage, active)
    {
      OpenedForest();
      OpenedAccounts();
      hide *;
      NoSessions(limits, phase, usage, invocations, checkpoints);
      Establish(active);
    }

    lemma OpenedForest()
      requires Roots(roots) && Incomparable(roots) && InPhase(roots, phase) && Resumable(roots, checkpoints)
      requires completed == Having(Leaves(roots, checkpoints), checkpoints, Some(Done))
      requires pending == Having(Leaves(roots, checkpoints), checkpoints, Some(Stopped))
      requires waiting == Having(Leaves(roots, checkpoints), checkpoints, None)
      ensures Placed(roots, checkpoints, completed, pending, waiting, Works([]))
      ensures InPhase(waiting, phase) && InPhase(Works([]), phase)
    {
      hide Roots, Leaves, Having, Incomparable, Resumable, Closed, Agrees, SplitFree, InPhase, AllHave;
      var leaves := Leaves(roots, checkpoints);
      ResumableParts(roots, checkpoints);
      HavingPartition(leaves, checkpoints);
      HavingStatus(leaves, checkpoints, Some(Done));
      HavingStatus(leaves, checkpoints, Some(Stopped));
      HavingStatus(leaves, checkpoints, None);
      LeavesInPhase(roots, checkpoints, phase);
      HavingInPhase(leaves, checkpoints, phase);
      NobodyInPhase(phase);
    }

    lemma OpenedAccounts()
      requires Resumable(roots, checkpoints) && checkpoints == store == began && usage == opening
      requires invocations == [] && saves == [] && settled == wasted == NOTHING && truncations == 0
      ensures Safe() && GoodSave(limits, phase, roots, began, opening, checkpoints)
      ensures usage == Plus(opening, Plus(settled, Plus(Spent([]), wasted)))
      ensures Charged(phase, checkpoints) == Plus(Charged(phase, began), settled)
    {
      hide Resumable, Charged, Asked, Metered, CallCap, ToolCap, Plus;
      PlusNothing(opening);
      PlusNothing(NOTHING);
      PlusNothing(Charged(phase, began));
      NoSessions(limits, phase, usage, invocations, checkpoints);
    }

    lemma FreshFacts()
      requires Fresh()
      ensures Roots(roots) && Incomparable(roots) && InPhase(roots, phase) && Resumable(roots, checkpoints)
      ensures SplitFree(Leaves(roots, checkpoints), checkpoints) && Agrees(checkpoints)
      ensures checkpoints == store == began && usage == opening
      ensures invocations == [] && waiting == completed == pending == [] && active == [] && reused == saved == 0
      ensures saves == [] && settled == wasted == NOTHING && truncations == faults == 0
    {
    }

    twostate lemma DistributedFacts(leaves: seq<WorkItem>)
      requires Distributed(leaves) && old(completed) == old(pending) == old(waiting) == []
      ensures completed == Having(leaves, checkpoints, Some(Done))
      ensures pending == Having(leaves, checkpoints, Some(Stopped))
      ensures waiting == Having(leaves, checkpoints, None)
    {
    }

    lemma Closing(done: seq<WorkItem>)
      requires Valid([]) && done == Having(Leaves(roots, began), began, Some(Done))
      requires done <= completed && |completed| <= Larger(maxUnits, |done|)
      requires waiting != [] ==> |completed| >= maxUnits || RemainingCalls(limits, phase, usage) == 0
      ensures Safe() && store == checkpoints && GoodSave(limits, phase, roots, began, opening, store)
      ensures PhaseEnds(limits, phase, roots, began, checkpoints, completed, pending + waiting, maxUnits, usage)
      ensures usage == Plus(opening, Plus(settled, wasted))
      ensures Charged(phase, checkpoints) == Plus(Charged(phase, began), settled)
    {
      hide Leaves, Resumable, Charged, History, Metered, Having, Comparable, Larger, RemainingCalls, Closed;
      LeavesIncomparable(roots, checkpoints);
      assert completed + pending + waiting + Works([]) == completed + (pending + waiting);
      assert Spent([]) == NOTHING;
    }

    /** One run of a phase.  Whatever the model, the tools, the parser and the backend do, it ends; it
        spends no more than the phase may; it keeps every stored checkpoint; it asks for no item that was
        checkpointed when it began; and when it returns normally, every leaf of the forest is either
        completed or pending. */
    method Run() returns (failure: Option<Failure>)
      requires Fresh()
      modifies this
      ensures Safe()
      // it fails only for a failed call, or an answer nothing can be done with
      ensures failure.Some? <==> faults > 0
      ensures failure.None? ==> reused == Stored(roots, began) && |checkpoints| == |began| + saved
      ensures failure.None? ==> PhaseEnds(limits, phase, roots, began, checkpoints, completed, pending, maxUnits, usage)
      ensures failure.None? ==> store == checkpoints && GoodSave(limits, phase, roots, began, opening, store)
      ensures failure.None? ==>
        && usage == Plus(opening, Plus(settled, wasted))
        && Charged(phase, checkpoints) == Plus(Charged(phase, began), settled)
    {
      hide *;
      ghost var done := Having(Leaves(roots, began), began, Some(Done));
      FreshFacts();
      var ok := ExpandAll(roots);
      assert ok;
      DistributedFacts(Leaves(roots, began));
      Opened();
      LargerFacts(maxUnits, |done|);
      while waiting != [] || active != []
        invariant Valid(active) && Funds(limits, phase, usage, active) && faults == 0
        invariant reused == Stored(roots, began) && |checkpoints| == |began| + saved
        invariant done <= completed && |completed| + |active| <= Larger(maxUnits, |done|)
        decreases Outstanding(waiting, active), RemainingCalls(limits, phase, usage), Total(QueuedTools, active)
      {
        LargerMax(maxUnits, |completed| + |active|, |done|);
        Admit();
        if active == [] { break; }
        failure := Turn();
        if failure.Some? { return; }
      }
      Closing(done);
      pending := pending + waiting;
      failure := None;
    }
  }
}
