/** The budgeted round-robin scheduler of review/scheduling.py.  The model, the tools, the parser and the
    durable backend are arbitrary: their answers are chosen freely at every call, and a process crash is
    an answer that ends the run.  The locals of one `run` are the fields of one object. */
module Scheduler {
  import opened Wrappers
  import opened WorkForest
  import opened Ledger

  /** `parsed` is what the parser makes of the text of a completion. */
  datatype Reply =
    | Completion(truncated: bool, toolCalls: seq<ToolKey>, parsed: Result<seq<Finding>, Failure>,
                 inputTokens: nat, outputTokens: nat)
    | ContextRejected(inputTokens: nat, outputTokens: nat)
    | Broken

  /** What a dispatched request costs, with the tokens it reported. */
  function Cost(reply: Reply): Usage {
    match reply
    case Completion(_, _, _, inputTokens, outputTokens) => Usage(1, 0, inputTokens, outputTokens)
    case ContextRejected(inputTokens, outputTokens) => Usage(1, 0, inputTokens, outputTokens)
    case Broken => Usage(1, 0, 0, 0)
  }

  datatype ToolResult = Answered | Refused | Raised

  datatype SaveOutcome = Saved | SavedUnacknowledged | NotSaved

  datatype Failure = Transient | Permanent

  /** One audited request: to the model, with or without the tool schemas, or to a repository tool. */
  datatype Invocation = ToModel(key: Key, toolsOffered: bool) | ToTool(key: Key)

  function Asked(log: seq<Invocation>, key: Key): nat {
    if log == [] then 0
    else Asked(log[..|log| - 1], key) + if AsksFor(log[|log| - 1], key) then 1 else 0
  }

  predicate AsksFor(invocation: Invocation, key: Key) {
    invocation.ToModel? && invocation.key == key
  }

  lemma AskedAppend(log: seq<Invocation>, last: Invocation, key: Key)
    ensures Asked(log + [last], key) == Asked(log, key) + if AsksFor(last, key) then 1 else 0
  {
    assert (log + [last])[..|log|] == log;
  }

  /** How often the tools were offered for an item. */
  function Offered(log: seq<Invocation>, key: Key): nat {
    if log == [] then 0
    else Offered(log[..|log| - 1], key) + if log[|log| - 1] == ToModel(key, true) then 1 else 0
  }

  lemma OfferedAppend(log: seq<Invocation>, last: Invocation, key: Key)
    ensures Offered(log + [last], key) == Offered(log, key) + if last == ToModel(key, true) then 1 else 0
  {
    assert (log + [last])[..|log|] == log;
  }

  lemma {:induction false} OfferedIsAsked(log: seq<Invocation>, key: Key)
    ensures Offered(log, key) <= Asked(log, key)
  {
    if log != [] { OfferedIsAsked(log[..|log| - 1], key); }
  }

  /** The requests to the model in the audit log. */
  function Requests(log: seq<Invocation>): nat {
    if log == [] then 0 else Requests(log[..|log| - 1]) + if log[|log| - 1].ToModel? then 1 else 0
  }

  /** The repository reads in the audit log. */
  function Reads(log: seq<Invocation>): nat {
    if log == [] then 0 else Reads(log[..|log| - 1]) + if log[|log| - 1].ToTool? then 1 else 0
  }

  lemma {:induction false} RequestsAppend(log: seq<Invocation>, more: seq<Invocation>)
    ensures Requests(log + more) == Requests(log) + Requests(more)
    ensures Reads(log + more) == Reads(log) + Reads(more)
    decreases |more|
  {
    if more == [] {
      assert log + more == log;
    } else {
      RequestsAppend(log, more[..|more| - 1]);
      assert (log + more)[..|log + more| - 1] == log + more[..|more| - 1];
    }
  }

  /** What an account has spent since `opening` is what the log holds, less the truncated answers forgiven. */
  predicate Balanced(opening: Usage, log: seq<Invocation>, forgiven: nat, usage: Usage) {
    && usage.llmCalls + forgiven == opening.llmCalls + Requests(log)
    && usage.toolCalls == opening.toolCalls + Reads(log)
  }

  lemma BalancedAppend(opening: Usage, log: seq<Invocation>, last: Invocation, forgiven: nat, was: Usage, usage: Usage)
    requires Balanced(opening, log, forgiven, was)
    requires usage.llmCalls == was.llmCalls + (if last.ToModel? then 1 else 0)
    requires usage.toolCalls == was.toolCalls + (if last.ToTool? then 1 else 0)
    ensures Balanced(opening, log + [last], forgiven, usage)
  {
    assert (log + [last])[..|log|] == log;
  }

  /** The log of a run: per item at most `maxToolRounds` requests with tools, two more without, and nothing about an
      item that was checkpointed when the run began. */
  ghost predicate Audited(limits: Limits, began: Checkpoints, log: seq<Invocation>) {
    && (forall key :: Offered(log, key) <= limits.maxToolRounds)
    && (forall key :: Asked(log, key) <= limits.maxToolRounds + 2)
    && (forall invocation :: invocation in log ==> invocation.key !in began)
  }

  lemma AuditedAppend(limits: Limits, began: Checkpoints, log: seq<Invocation>, last: Invocation)
    requires Audited(limits, began, log) && last.key !in began
    requires last.ToModel? ==> Asked(log, last.key) < limits.maxToolRounds + 2
    requires last.ToModel? && last.toolsOffered ==> Offered(log, last.key) < limits.maxToolRounds
    ensures Audited(limits, began, log + [last])
  {
    forall key
      ensures Asked(log + [last], key) <= limits.maxToolRounds + 2 && Offered(log + [last], key) <= limits.maxToolRounds
    {
      AskedAppend(log, last, key);
      OfferedAppend(log, last, key);
    }
  }

  function KeysOf(sessions: seq<Session>): set<Key> {
    set session | session in sessions :: session.work.key
  }

  /** Requests per item: at most one session ever asks for it, and never more than the rounds, the final
      request and the recovery of a truncated answer.  Between two turns every request of a session had tools. */
  ghost predicate Metered(limits: Limits, log: seq<Invocation>, cps: Checkpoints, live: seq<Session>) {
    && (forall key :: Asked(log, key) <= limits.maxToolRounds + 2)
    && (forall key :: Asked(log, key) > 0 ==> key in cps || key in KeysOf(live))
    && (forall session :: session in live ==> Asked(log, session.work.key) == session.calls)
    && (forall session :: session in live && session.calls == session.rounds ==>
          Offered(log, session.work.key) == session.rounds)
  }

  /** The leaves whose checkpoint has the given status; None is a leaf without checkpoint. */
  function Having(leaves: seq<WorkItem>, cps: Checkpoints, status: Option<Status>): seq<WorkItem> {
    if leaves == [] then []
    else
      var own := if leaves[0].key in cps then Some(cps[leaves[0].key].status) else None;
      (if own == status then [leaves[0]] else []) + Having(leaves[1..], cps, status)
  }

  lemma {:induction false} HavingAppend(a: seq<WorkItem>, b: seq<WorkItem>, cps: Checkpoints, status: Option<Status>)
    ensures Having(a + b, cps, status) == Having(a, cps, status) + Having(b, cps, status)
  {
    if a == [] {
      assert a + b == b;
    } else {
      assert (a + b)[1..] == a[1..] + b;
      HavingAppend(a[1..], b, cps, status);
    }
  }

  predicate SplitFree(leaves: seq<WorkItem>, cps: Checkpoints) {
    forall leaf :: leaf in leaves && leaf.key in cps ==> !cps[leaf.key].status.Split?
  }

  predicate InPhase(items: seq<WorkItem>, phase: Phase) {
    forall item :: item in items ==> item.key.phase == phase
  }

  lemma {:induction false} HavingStatus(leaves: seq<WorkItem>, cps: Checkpoints, status: Option<Status>)
    ensures status.Some? ==> AllHave(Having(leaves, cps, status), cps, status.value)
    ensures status.None? ==> NoneHas(Having(leaves, cps, status), cps)
  {
    if leaves != [] {
      HavingStatus(leaves[1..], cps, status);
    }
  }

  lemma {:induction false} HavingPartition(leaves: seq<WorkItem>, cps: Checkpoints)
    requires SplitFree(leaves, cps)
    ensures multiset(leaves) == multiset(Having(leaves, cps, Some(Done)))
                              + multiset(Having(leaves, cps, Some(Stopped))) + multiset(Having(leaves, cps, None))
  {
    if leaves != [] {
      var first, rest := leaves[0], leaves[1..];
      HavingPartition(rest, cps);
      assert leaves == [first] + rest;
      HavingAppend([first], rest, cps, Some(Done));
      HavingAppend([first], rest, cps, Some(Stopped));
      HavingAppend([first], rest, cps, None);
      HavingOne(first, cps);
      hide *;
      UnionsRegroup(multiset(Having([first], cps, Some(Done))), multiset(Having([first], cps, Some(Stopped))),
                    multiset(Having([first], cps, None)), multiset(Having(rest, cps, Some(Done))),
                    multiset(Having(rest, cps, Some(Stopped))), multiset(Having(rest, cps, None)));
    }
  }

  lemma UnionsRegroup(a: multiset<WorkItem>, b: multiset<WorkItem>, c: multiset<WorkItem>,
                      d: multiset<WorkItem>, e: multiset<WorkItem>, f: multiset<WorkItem>)
    ensures (a + b + c) + (d + e + f) == (a + d) + (b + e) + (c + f)
  {
  }

  lemma HavingOne(item: WorkItem, cps: Checkpoints)
    requires item.key in cps ==> !cps[item.key].status.Split?
    ensures multiset{item} == multiset(Having([item], cps, Some(Done)))
                            + multiset(Having([item], cps, Some(Stopped))) + multiset(Having([item], cps, None))
  {
    assert [item][1..] == [];
  }

  /** What a durable save of a run may contain, whatever happens afterwards. */
  ghost predicate GoodSave(limits: Limits, phase: Phase, roots: seq<WorkItem>, began: Checkpoints,
                           opening: Usage, saved: Checkpoints)
  {
    && Resumable(roots, saved) && Extends(saved, began)
    && Charged(phase, saved).llmCalls + opening.llmCalls
       <= Charged(phase, began).llmCalls + Larger(opening.llmCalls, CallCap(limits, phase))
    && Charged(phase, saved).toolCalls + opening.toolCalls
       <= Charged(phase, began).toolCalls + Larger(opening.toolCalls, ToolCap(limits, phase))
    && forall key :: key in saved && key !in began ==> key.phase == phase && !saved[key].status.Stopped?
  }

  /** What the checkpoints charge was really spent in this run. */
  ghost predicate Backed(phase: Phase, began: Checkpoints, opening: Usage, cps: Checkpoints, usage: Usage) {
    && Charged(phase, cps).llmCalls + opening.llmCalls <= Charged(phase, began).llmCalls + usage.llmCalls
    && Charged(phase, cps).toolCalls + opening.toolCalls <= Charged(phase, began).toolCalls + usage.toolCalls
  }

  /** The durable saves of a run, oldest first: each is good, and each only adds to the one before. */
  ghost predicate History(limits: Limits, phase: Phase, roots: seq<WorkItem>, began: Checkpoints,
                          opening: Usage, saves: seq<Checkpoints>, store: Checkpoints)
  {
    && (forall i :: 0 <= i < |saves| ==> GoodSave(limits, phase, roots, began, opening, saves[i]))
    && (forall i, j :: 0 <= i < j < |saves| ==> Extends(saves[j], saves[i]))
    && store == (if saves == [] then began else saves[|saves| - 1])
  }

  lemma HistoryAdd(limits: Limits, phase: Phase, roots: seq<WorkItem>, began: Checkpoints, opening: Usage,
                   saves: seq<Checkpoints>, store: Checkpoints, next: Checkpoints)
    requires History(limits, phase, roots, began, opening, saves, store)
    requires GoodSave(limits, phase, roots, began, opening, next) && Extends(next, store)
    ensures History(limits, phase, roots, began, opening, saves + [next], next)
  {
    hide GoodSave;
    var all := saves + [next];
    forall i, j | 0 <= i < j < |all| ensures Extends(all[j], all[i]) {
      if j == |saves| && i < |saves| - 1 {
        assert Extends(store, saves[i]);
      }
    }
  }

  /** Adding the checkpoint of a leaf to a good state gives a state that is good to save. */
  lemma GoodAfter(limits: Limits, phase: Phase, roots: seq<WorkItem>, began: Checkpoints, opening: Usage,
                  cps: Checkpoints, key: Key, cp: Checkpoint, usage: Usage)
    requires GoodSave(limits, phase, roots, began, opening, cps) && key !in cps
    requires Resumable(roots, cps[key := cp]) && key.phase == cp.phase == phase && !cp.status.Stopped?
    requires usage.llmCalls <= Larger(opening.llmCalls, CallCap(limits, phase))
    requires usage.toolCalls <= Larger(opening.toolCalls, ToolCap(limits, phase))
    requires Charged(phase, cps).llmCalls + Charge(phase, cp).llmCalls + opening.llmCalls
          <= Charged(phase, began).llmCalls + usage.llmCalls
    requires Charged(phase, cps).toolCalls + Charge(phase, cp).toolCalls + opening.toolCalls
          <= Charged(phase, began).toolCalls + usage.toolCalls
    ensures GoodSave(limits, phase, roots, began, opening, cps[key := cp])
    ensures Backed(phase, began, opening, cps[key := cp], usage)
    ensures Charged(phase, cps[key := cp]) == Plus(Charge(phase, cp), Charged(phase, cps))
    ensures Extends(cps[key := cp], cps)
  {
    hide Resumable, Charge, Charged;
    ChargedAdd(phase, cps, key, cp);
  }

  lemma MeteredAsk(limits: Limits, log: seq<Invocation>, cps: Checkpoints, session: Session, next: Session,
                   others: seq<Session>, offered: bool)
    requires Metered(limits, log, cps, [session] + others)
    requires next.work == session.work && next.calls == session.calls + 1 <= limits.maxToolRounds + 2
    requires next.rounds == session.rounds <= session.calls
    requires forall other :: other in others ==> other.work.key != session.work.key
    ensures Metered(limits, log + [ToModel(session.work.key, offered)], cps, [next] + others)
  {
    var after := log + [ToModel(session.work.key, offered)];
    assert session in [session] + others && next in [next] + others;
    forall key ensures Asked(after, key) == Asked(log, key) + if key == session.work.key then 1 else 0 {
      AskedAppend(log, ToModel(session.work.key, offered), key);
    }
    forall key | key != session.work.key ensures Offered(after, key) == Offered(log, key) {
      OfferedAppend(log, ToModel(session.work.key, offered), key);
    }
    forall key | Asked(after, key) > 0 ensures key in cps || key in KeysOf([next] + others) {
      if key != session.work.key && key !in cps {
        assert key in KeysOf([session] + others);
      }
    }
    forall other | other in [next] + others ensures Asked(after, other.work.key) == other.calls {
      assert other == next || other in [session] + others;
    }
  }

  lemma MeteredTool(limits: Limits, log: seq<Invocation>, cps: Checkpoints, session: Session, next: Session,
                    others: seq<Session>, key: Key)
    requires Metered(limits, log, cps, [session] + others)
    requires next.work == session.work && next.calls == session.calls
    requires next.calls == next.rounds ==> Offered(log, session.work.key) == next.rounds
    ensures Metered(limits, log, cps, others + [next])
    ensures Metered(limits, log + [ToTool(key)], cps, others + [next])
  {
    assert session in [session] + others && next in others + [next];
    assert KeysOf(others + [next]) == KeysOf([session] + others) by {
      assert forall other :: other in others ==> other in [session] + others && other in others + [next];
    }
    forall k ensures Asked(log + [ToTool(key)], k) == Asked(log, k) && Offered(log + [ToTool(key)], k) == Offered(log, k) {
      AskedAppend(log, ToTool(key), k);
      OfferedAppend(log, ToTool(key), k);
    }
    assert forall other :: other in others + [next] ==> other == next || other in [session] + others;
  }

  lemma MeteredEnd(limits: Limits, log: seq<Invocation>, cps: Checkpoints, session: Session,
                   others: seq<Session>, cp: Checkpoint)
    requires Metered(limits, log, cps, [session] + others)
    ensures Metered(limits, log, cps[session.work.key := cp], others)
  {
    assert forall other :: other in others ==> other in [session] + others;
    assert KeysOf([session] + others) == KeysOf(others) + {session.work.key} by {
      assert session in [session] + others;
    }
  }

  lemma MeteredStart(limits: Limits, log: seq<Invocation>, cps: Checkpoints, others: seq<Session>, session: Session)
    requires Metered(limits, log, cps, others)
    requires session.calls == session.rounds == 0 && session.work.key !in cps && session.work.key !in KeysOf(others)
    ensures Metered(limits, log, cps, others + [session])
  {
    assert KeysOf(others + [session]) == KeysOf(others) + {session.work.key} by {
      assert session in others + [session];
      assert forall other :: other in others ==> other in others + [session];
    }
    OfferedIsAsked(log, session.work.key);
  }

  // ---- Termination ------------------------------------------------------------------------

  /** The weight of all work that is not finished. */
  function Outstanding(waiting: seq<WorkItem>, live: seq<Session>): nat {
    Total(Weight, waiting) + Total(SessionWeight, live)
  }

  lemma OutstandingSplit(waiting: seq<WorkItem>, session: Session, others: seq<Session>)
    requires Children(session.work).Some?
    ensures Outstanding(waiting + Children(session.work).value, others) < Outstanding(waiting, [session] + others)
  {
    hide Children, Weight;
    ChildrenShrink(session.work);
    TotalAppend(Weight, waiting, Children(session.work).value);
    assert ([session] + others)[1..] == others;
  }

  lemma OutstandingEnd(waiting: seq<WorkItem>, session: Session, others: seq<Session>)
    ensures Outstanding(waiting, others) < Outstanding(waiting, [session] + others)
  {
    assert ([session] + others)[1..] == others;
  }

  lemma OutstandingRotate(waiting: seq<WorkItem>, session: Session, next: Session, others: seq<Session>)
    requires next.work == session.work
    ensures Outstanding(waiting, others + [next]) == Outstanding(waiting, [session] + others)
  {
    assert ([session] + others)[1..] == others;
    TotalLast(SessionWeight, others, next);
  }

  lemma OutstandingStart(waiting: seq<WorkItem>, others: seq<Session>, session: Session)
    requires waiting != [] && session.work == waiting[0]
    ensures Outstanding(waiting[1..], others + [session]) == Outstanding(waiting, others)
  {
    TotalLast(SessionWeight, others, session);
  }

  lemma OutstandingSame(waiting: seq<WorkItem>, session: Session, next: Session, others: seq<Session>)
    requires next.work == session.work
    ensures Outstanding(waiting, [next] + others) == Outstanding(waiting, [session] + others)
  {
    assert ([session] + others)[1..] == ([next] + others)[1..] == others;
  }

  // ---- Reserved slots ---------------------------------------------------------------------

  /** Every live session still has the slots reserved for it. */
  ghost predicate Funds(limits: Limits, phase: Phase, usage: Usage, live: seq<Session>) {
    && Total(Slots, live) <= RemainingCalls(limits, phase, usage)
    && forall session :: session in live ==> SessionOk(limits, session)
  }

  /** The session whose turn it is has a free slot: the STOPPED branch of the scheduler is never taken. */
  lemma TurnHasSlot(limits: Limits, phase: Phase, usage: Usage, session: Session, others: seq<Session>)
    requires Funds(limits, phase, usage, [session] + others)
    ensures RemainingCalls(limits, phase, usage) - Total(Slots, others) >= Slots(session) >= 1
    ensures SessionOk(limits, session)
  {
    assert session in [session] + others;
    assert ([session] + others)[1..] == others;
  }

  lemma FundsEnd(limits: Limits, phase: Phase, usage: Usage, after: Usage, session: Session, others: seq<Session>)
    requires Funds(limits, phase, usage, [session] + others)
    requires Total(Slots, others) <= RemainingCalls(limits, phase, after)
    ensures Funds(limits, phase, after, others)
  {
    assert forall other :: other in others ==> other in [session] + others;
  }

  lemma FundsRotate(limits: Limits, phase: Phase, usage: Usage, after: Usage, session: Session, next: Session,
                    others: seq<Session>)
    requires Funds(limits, phase, usage, [session] + others) && SessionOk(limits, next)
    requires Total(Slots, others) + Slots(next) <= RemainingCalls(limits, phase, after)
    ensures Funds(limits, phase, after, others + [next])
  {
    TotalLast(Slots, others, next);
    assert forall other :: other in others + [next] ==> other == next || other in [session] + others;
  }

  lemma FundsStart(limits: Limits, phase: Phase, usage: Usage, others: seq<Session>, next: Session)
    requires Funds(limits, phase, usage, others) && SessionOk(limits, next)
    requires Total(Slots, others) + Slots(next) <= RemainingCalls(limits, phase, usage)
    ensures Funds(limits, phase, usage, others + [next])
  {
    TotalLast(Slots, others, next);
    assert forall other :: other in others + [next] ==> other == next || other in others;
  }

  lemma CallsLeft(limits: Limits, phase: Phase, usage: Usage, after: Usage)
    ensures RemainingCalls(limits, phase, usage) >= 1 <==> usage.llmCalls < CallCap(limits, phase)
    ensures after.llmCalls == usage.llmCalls ==>
      RemainingCalls(limits, phase, after) == RemainingCalls(limits, phase, usage)
    ensures after.llmCalls == usage.llmCalls + 1 && RemainingCalls(limits, phase, usage) >= 1 ==>
      RemainingCalls(limits, phase, after) == RemainingCalls(limits, phase, usage) - 1
  {
  }

  function HoldsTwo(session: Session): nat {
    if session.calls == 0 && session.initialSlots == 2 then 1 else 0
  }

  /** Each live session holds one slot, and one more while it has not begun and was admitted with two. */
  lemma {:induction false} ReservedSlots(live: seq<Session>)
    requires forall session :: session in live ==> 1 <= session.initialSlots <= 2
    ensures Total(Slots, live) == |live| + Total(HoldsTwo, live)
  {
    if live != [] {
      assert live[0] in live;
      assert forall session :: session in live[1..] ==> session in live;
      ReservedSlots(live[1..]);
    }
  }

  /** The next request of the session is its last and goes out without tools. */
  predicate MustFinish(limits: Limits, phase: Phase, usage: Usage, session: Session, others: seq<Session>) {
    || session.finalOnly || session.rounds >= limits.maxToolRounds
    || RemainingCalls(limits, phase, usage) - Total(Slots, others) == 1
    || RemainingTools(limits, phase, usage) == 0
  }

  /** Tools are due for the item of a session that is not forced to finish, had fewer requests with tools than it may
      have, and finds a second free slot beside the reserved ones and a read left. */
  ghost predicate ToolsDue(limits: Limits, phase: Phase, log: seq<Invocation>, usage: Usage, session: Session,
                           others: seq<Session>)
  {
    && !session.finalOnly && Offered(log, session.work.key) < limits.maxToolRounds
    && usage.llmCalls + Total(Slots, others) + 2 <= CallCap(limits, phase)
    && usage.toolCalls < ToolCap(limits, phase)
  }

  lemma FreeToContinue(limits: Limits, phase: Phase, log: seq<Invocation>, usage: Usage, session: Session,
                       others: seq<Session>)
    requires RemainingCalls(limits, phase, usage) - Total(Slots, others) >= 1
    requires Offered(log, session.work.key) == session.rounds
    ensures !MustFinish(limits, phase, usage, session, others) <==> ToolsDue(limits, phase, log, usage, session, others)
    ensures !MustFinish(limits, phase, usage, session, others) ==>
      && RemainingCalls(limits, phase, usage) - Total(Slots, others) >= 2
      && session.rounds < limits.maxToolRounds
  {
  }

  /** With an ample budget a session that is not forced to finish has its final request after exactly `maxToolRounds`
      requests with tools. */
  lemma FinalAfterAllRounds(limits: Limits, phase: Phase, began: Checkpoints, log: seq<Invocation>, usage: Usage,
                            session: Session, others: seq<Session>)
    requires Audited(limits, began, log) && !ToolsDue(limits, phase, log, usage, session, others)
    requires !session.finalOnly && usage.toolCalls < ToolCap(limits, phase)
    requires usage.llmCalls + Total(Slots, others) + 2 <= CallCap(limits, phase)
    ensures Offered(log, session.work.key) == limits.maxToolRounds
  {
  }

  /** What a phase may spend: the maximum, less the reserve while candidates are explored. */
  lemma Caps(limits: Limits)
    ensures CallCap(limits, Verification) == limits.maxCalls && ToolCap(limits, Verification) == limits.maxTools
    ensures limits.callReserve <= limits.maxCalls ==> CallCap(limits, Candidate) + limits.callReserve == limits.maxCalls
    ensures limits.toolReserve <= limits.maxTools ==> ToolCap(limits, Candidate) + limits.toolReserve == limits.maxTools
    ensures limits.callReserve > limits.maxCalls ==> CallCap(limits, Candidate) == 0
    ensures limits.toolReserve > limits.maxTools ==> ToolCap(limits, Candidate) == 0
  {
  }

  /** Where the work of a run is. */
  datatype Board = Board(waiting: seq<WorkItem>, active: seq<Session>, completed: seq<WorkItem>, checkpoints: Checkpoints,
                         saved: nat)

  /** The item is checkpointed as SPLIT, without charge, and its pieces go to the back of the waiting items. */
  predicate SplitUp(phase: Phase, before: Board, after: Board, work: WorkItem) {
    && Children(work).Some?
    && after == before.(waiting := before.waiting + Children(work).value, saved := before.saved + 1,
                        checkpoints := before.checkpoints[work.key := Checkpoint(phase, Split, [], NOTHING)])
  }

  lemma PiecesWait(phase: Phase, before: Board, work: WorkItem)
    requires Children(work).Some?
    ensures SplitUp(phase, before, before.(
              waiting := before.waiting + Children(work).value, saved := before.saved + 1,
              checkpoints := before.checkpoints[work.key := Checkpoint(phase, Split, [], NOTHING)]), work)
  {
  }

  /** The session is one round further and goes to the back of the queue with the tool calls it asked for. */
  predicate WentOn(before: Board, after: Board, session: Session, cost: Usage, toolCalls: seq<ToolKey>) {
    after == before.(active := before.active + [
      session.(usage := Plus(session.usage, cost), calls := session.calls + 1, rounds := session.rounds + 1,
               duplicateOnly := true, pendingTools := session.pendingTools + toolCalls)])
  }

  /** The item is completed: its checkpoint holds the result and everything the session has spent. */
  predicate Ended(phase: Phase, before: Board, after: Board, session: Session, cost: Usage, result: seq<Finding>) {
    after == before.(completed := before.completed + [session.work], saved := before.saved + 1,
                     checkpoints := before.checkpoints[session.work.key :=
                                      Checkpoint(phase, Done, result, Plus(session.usage, cost))])
  }

  /** What an answer leads to when nothing fails. */
  predicate Follows(phase: Phase, before: Board, after: Board, session: Session, reply: Reply, final: bool) {
    match reply
    case Broken => false
    case ContextRejected(_, _) => SplitUp(phase, before, after, session.work)
    case Completion(truncated, toolCalls, parsed, _, _) =>
      if truncated then SplitUp(phase, before, after, session.work)
      else if toolCalls != [] then !final && WentOn(before, after, session, Cost(reply), toolCalls)
      else parsed.Ok? && Ended(phase, before, after, session, Cost(reply), parsed.value)
  }

  lemma Leads(phase: Phase, before: Board, after: Board, session: Session, reply: Reply, final: bool)
    ensures reply.ContextRejected? || (reply.Completion? && reply.truncated) ==>
      (Follows(phase, before, after, session, reply, final) <==> SplitUp(phase, before, after, session.work))
    ensures reply.Completion? && !reply.truncated && reply.toolCalls != [] && !final ==>
      (Follows(phase, before, after, session, reply, final)
       <==> WentOn(before, after, session, Cost(reply), reply.toolCalls))
    ensures reply.Completion? && !reply.truncated && reply.toolCalls == [] && reply.parsed.Ok? ==>
      (Follows(phase, before, after, session, reply, final)
       <==> Ended(phase, before, after, session, Cost(reply), reply.parsed.value))
  {
  }

  /** The session an admitted item starts with. */
  function Begun(item: WorkItem, slots: nat): Session {
    Session(item, slots, NOTHING, {}, [], 0, 0, true, false)
  }

  /** The first items that waited are in new sessions behind the old ones, in order, with `slots` reserved for each. */
  predicate AllBegun(slots: nat, wasWaiting: seq<WorkItem>, wasActive: seq<Session>, waiting: seq<WorkItem>,
                     active: seq<Session>)
  {
    && |wasWaiting| - |waiting| == |active| - |wasActive| >= 0
    && waiting == wasWaiting[|wasWaiting| - |waiting|..] && active[..|wasActive|] == wasActive
    && forall i :: |wasActive| <= i < |active| ==> active[i] == Begun(wasWaiting[i - |wasActive|], slots)
  }

  /** All new sessions have their slots; a lone one may begin with a single slot instead. */
  predicate Admitted(slots: nat, wasWaiting: seq<WorkItem>, wasActive: seq<Session>, waiting: seq<WorkItem>,
                     active: seq<Session>)
  {
    || AllBegun(slots, wasWaiting, wasActive, waiting, active)
    || (wasActive == [] && wasWaiting != [] && active == [Begun(wasWaiting[0], 1)] && waiting == wasWaiting[1..])
  }

  lemma NoneBegun(slots: nat, waiting: seq<WorkItem>, active: seq<Session>)
    ensures AllBegun(slots, waiting, active, waiting, active) && Admitted(slots, waiting, active, waiting, active)
  {
  }

  lemma OneMore(slots: nat, wasWaiting: seq<WorkItem>, wasActive: seq<Session>, waiting: seq<WorkItem>,
                active: seq<Session>)
    requires AllBegun(slots, wasWaiting, wasActive, waiting, active) && waiting != []
    ensures AllBegun(slots, wasWaiting, wasActive, waiting[1..], active + [Begun(waiting[0], slots)])
    ensures Admitted(slots, wasWaiting, wasActive, waiting[1..], active + [Begun(waiting[0], slots)])
    ensures active == [] ==> Admitted(slots, wasWaiting, wasActive, waiting[1..], active + [Begun(waiting[0], 1)])
  {
    var n := |wasWaiting| - |waiting|;
    assert waiting[0] == wasWaiting[n] && waiting[1..] == wasWaiting[n + 1..];
  }

  /** One tool call: a repeated one costs nothing, one beyond the budget forces the session to finish, any other is
      read, paid for, and known from then on if it was answered; after a round of repetitions only, the session must
      finish too. */
  predicate Handled(limits: Limits, phase: Phase, was: Usage, now: Usage, session: Session, result: ToolResult,
                    next: Session)
    requires session.pendingTools != []
  {
    var repeated := session.pendingTools[0] in session.seen;
    var spent := Usage(0, if !repeated && was.toolCalls < ToolCap(limits, phase) then 1 else 0, 0, 0);
    && next == session.(pendingTools := session.pendingTools[1..], usage := Plus(session.usage, spent),
                        seen := session.seen + if spent.toolCalls == 1 && result == Answered then {session.pendingTools[0]} else {},
                        duplicateOnly := next.duplicateOnly, finalOnly := next.finalOnly)
    && now == Plus(was, spent)
    && (spent.toolCalls == 1 ==> result != Raised)
    && (next.duplicateOnly <==> session.duplicateOnly && repeated)
    && (next.finalOnly <==>
          || session.finalOnly || (!repeated && spent.toolCalls == 0)
          || (session.duplicateOnly && repeated && |session.pendingTools| == 1))
  }

  lemma HandledKeeps(limits: Limits, phase: Phase, was: Usage, now: Usage, session: Session, result: ToolResult,
                     next: Session)
    requires session.pendingTools != [] && Handled(limits, phase, was, now, session, result, next)
    ensures next.work == session.work && next.calls == session.calls && next.rounds == session.rounds
    ensures next.initialSlots == session.initialSlots && next.usage.llmCalls == session.usage.llmCalls
    ensures next.pendingTools == session.pendingTools[1..]
  {
  }

  /** Taking back exactly what was just added: the lower clamps of the refund never bite. */
  lemma RefundExact(before: Usage, reply: Reply)
    requires reply.Completion?
    ensures var charged := Plus(before, Cost(reply));
            Usage(Less(charged.llmCalls, 1), charged.toolCalls, Less(charged.inputTokens, reply.inputTokens),
                  Less(charged.outputTokens, reply.outputTokens)) == before
  {
  }

  lemma SessionFacts(limits: Limits, session: Session)
    requires SessionOk(limits, session)
    ensures session.calls == session.rounds == session.usage.llmCalls <= limits.maxToolRounds
  {
  }

  lemma PlusCancel(a: Usage, b: Usage, c: Usage)
    requires Plus(a, c) == Plus(b, c)
    ensures a == b
  {
  }

  lemma SessionGoesOn(limits: Limits, session: Session, next: Session)
    requires SessionOk(limits, session) && session.rounds < limits.maxToolRounds
    requires next.initialSlots == session.initialSlots && next.rounds == session.rounds + 1
    requires next.calls == session.calls + 1 && next.usage.llmCalls == session.usage.llmCalls + 1
    ensures SessionOk(limits, next) && Slots(next) == 1
  {
  }

  lemma MeteredSame(limits: Limits, log: seq<Invocation>, cps: Checkpoints, session: Session, next: Session,
                    others: seq<Session>)
    requires Metered(limits, log, cps, [session] + others)
    requires next.work == session.work && next.calls == session.calls && next.rounds == session.rounds
    ensures Metered(limits, log, cps, [next] + others)
  {
    assert session in [session] + others && next in [next] + others;
    assert forall other :: other in others ==> other in [session] + others && other in [next] + others;
    assert KeysOf([next] + others) == KeysOf([session] + others);
    assert forall other :: other in [next] + others ==> other == next || other in [session] + others;
  }

  lemma SessionAfterTool(limits: Limits, session: Session, next: Session)
    requires SessionOk(limits, session)
    requires next.calls == session.calls && next.rounds == session.rounds
    requires next.initialSlots == session.initialSlots && next.usage.llmCalls == session.usage.llmCalls
    ensures SessionOk(limits, next) && Slots(next) == Slots(session)
  {
  }

  lemma QueueShrinks(session: Session, next: Session, others: seq<Session>)
    requires session.pendingTools != [] && next.pendingTools == session.pendingTools[1..]
    ensures Total(QueuedTools, others + [next]) < Total(QueuedTools, [session] + others)
  {
    TotalLast(QueuedTools, others, next);
    assert ([session] + others)[1..] == others;
  }

  // ---- Expanding --------------------------------------------------------------------------

  /** The leaves below one item. */
  function LeavesUnder(item: WorkItem, cps: Checkpoints): seq<WorkItem> {
    if Divided(item, cps) then Leaves(Children(item).value, cps) else [item]
  }

  /** The items of the forest that have a checkpoint. */
  function Stored(items: seq<WorkItem>, cps: Checkpoints): nat
    decreases Total(Weight, items), 2
  {
    if items == [] then 0 else StoredUnder(items[0], cps) + Stored(items[1..], cps)
  }

  function StoredUnder(item: WorkItem, cps: Checkpoints): nat
    decreases Weight(item), 1
  {
    if item.key !in cps then 0
    else if !Divided(item, cps) then 1
    else
      ChildrenShrink(item);
      1 + Stored(Children(item).value, cps)
  }

  lemma ExpandFacts(items: seq<WorkItem>, cps: Checkpoints, phase: Phase)
    requires items != []
    ensures Leaves(items, cps) == LeavesUnder(items[0], cps) + Leaves(items[1..], cps)
    ensures Total(Weight, items) == Weight(items[0]) + Total(Weight, items[1..])
    ensures SplitFree(Leaves(items, cps), cps)
      <==> SplitFree(LeavesUnder(items[0], cps), cps) && SplitFree(Leaves(items[1..], cps), cps)
    ensures InPhase(items, phase) ==> items[0].key.phase == phase && InPhase(items[1..], phase)
    ensures Stored(items, cps) == StoredUnder(items[0], cps) + Stored(items[1..], cps)
  {
    hide Leaves, Children, Divided, Weight;
    Unfold(items, cps);
    var first, rest := LeavesUnder(items[0], cps), Leaves(items[1..], cps);
    assert forall leaf :: leaf in first + rest <==> leaf in first || leaf in rest;
  }

  lemma ItemFacts(item: WorkItem, cps: Checkpoints, phase: Phase)
    ensures item.key !in cps ==> LeavesUnder(item, cps) == [item] && StoredUnder(item, cps) == 0
    ensures item.key in cps && !cps[item.key].status.Split? ==>
      LeavesUnder(item, cps) == [item] && SplitFree([item], cps) && StoredUnder(item, cps) == 1
    ensures item.key !in cps ==> SplitFree([item], cps)
    ensures item.key in cps && Agrees(cps) ==> cps[item.key].phase == item.key.phase
    ensures item.key in cps && cps[item.key].status.Split? && Children(item).None? ==>
      !SplitFree(LeavesUnder(item, cps), cps)
    ensures item.key in cps && cps[item.key].status.Split? && Children(item).Some? ==>
      && LeavesUnder(item, cps) == Leaves(Children(item).value, cps)
      && StoredUnder(item, cps) == 1 + Stored(Children(item).value, cps)
    ensures Children(item).Some? ==> Total(Weight, Children(item).value) < Weight(item)
    ensures Children(item).Some? && item.key.phase == phase ==> InPhase(Children(item).value, phase)
  {
    hide Leaves, Weight, Total;
    if Children(item).Some? { ChildrenShrink(item); ChildrenIncomparable(item); }
    assert item in [item];
  }

  lemma LeafStatus(item: WorkItem, cps: Checkpoints, status: Option<Status>)
    ensures Having([item], cps, status)
         == if status == (if item.key in cps then Some(cps[item.key].status) else None) then [item] else []
  {
    assert [item][1..] == [];
  }

  lemma FreshSession(limits: Limits, session: Session)
    requires session.calls == session.rounds == 0 && session.usage == NOTHING && 1 <= session.initialSlots <= 2
    ensures SessionOk(limits, session) && Slots(session) == session.initialSlots
  {
  }

  lemma LargerFacts(a: nat, b: nat)
    ensures Larger(a, b) >= a && Larger(a, b) >= b
  {
  }

  lemma FundsTotal(limits: Limits, phase: Phase, usage: Usage, live: seq<Session>)
    requires Funds(limits, phase, usage, live)
    ensures Total(Slots, live) <= RemainingCalls(limits, phase, usage)
    ensures live == [] ==> Total(Slots, live) == 0
  {
  }

  lemma NoSessions(limits: Limits, phase: Phase, usage: Usage, log: seq<Invocation>, cps: Checkpoints)
    ensures Funds(limits, phase, usage, [])
    ensures log == [] ==> Metered(limits, log, cps, []) && Audited(limits, cps, log)
  {
  }

  lemma LargerMax(a: nat, b: nat, c: nat)
    ensures b <= Larger(a, c) ==> Larger(a, b) <= Larger(a, c)
  {
  }

  lemma ResumableParts(roots: seq<WorkItem>, cps: Checkpoints)
    requires Resumable(roots, cps)
    ensures Closed(cps) && Agrees(cps) && SplitFree(Leaves(roots, cps), cps)
  {
    hide Closed, Agrees, Leaves;
  }

  lemma HavingInPhase(leaves: seq<WorkItem>, cps: Checkpoints, phase: Phase)
    requires InPhase(leaves, phase) && SplitFree(leaves, cps)
    ensures InPhase(Having(leaves, cps, None), phase)
  {
    hide Having;
    HavingPartition(leaves, cps);
    forall item | item in Having(leaves, cps, None) ensures item.key.phase == phase {
      assert item in multiset(leaves);
    }
  }

  lemma NobodyInPhase(phase: Phase)
    ensures InPhase(Works([]), phase) && Works([]) == []
  {
  }

  lemma {:induction false} LeavesInPhase(items: seq<WorkItem>, cps: Checkpoints, phase: Phase)
    requires InPhase(items, phase)
    ensures InPhase(Leaves(items, cps), phase)
  {
    forall leaf | leaf in Leaves(items, cps) ensures leaf.key.phase == phase {
      var i := LeafAncestor(items, cps, leaf);
    }
  }

  /** How a phase ends: every leaf is completed or pending, never both; every item that was DONE when the
      phase began is completed; no more units are completed than allowed, unless they were already; and an
      untouched item is left over only for want of units or of budget. */
  ghost predicate PhaseEnds(limits: Limits, phase: Phase, roots: seq<WorkItem>, began: Checkpoints, cps: Checkpoints,
                            completed: seq<WorkItem>, pending: seq<WorkItem>, maxUnits: nat, usage: Usage)
  {
    var done := Having(Leaves(roots, began), began, Some(Done));
    && multiset(Leaves(roots, cps)) == multiset(completed + pending)
    && Incomparable(Leaves(roots, cps))
    && AllHave(completed, cps, Done)
    && (forall item :: item in pending && item.key in cps ==> cps[item.key].status.Stopped?)
    && done <= completed && |completed| <= Larger(maxUnits, |done|)
    && ((exists item :: item in pending && item.key !in cps) ==>
          |completed| >= maxUnits || RemainingCalls(limits, phase, usage) == 0)
  }

  lemma PhaseSplit(items: seq<WorkItem>, phase: Phase)
    requires InPhase(items, phase) && items != []
    ensures InPhase(items[1..], phase) && items[0].key.phase == phase
  {
  }

  lemma KeysApart(live: seq<Session>, key: Key)
    requires forall work :: work in Works(live) ==> work.key != key
    ensures key !in KeysOf(live)
  {
    forall session | session in live ensures session.work.key != key {
      assert session.work in Works(live);
    }
  }
}
