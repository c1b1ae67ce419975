/** The bookkeeping of a review phase: budgets and reserved slots, what the checkpoints charge, and
    where every leaf of the split forest currently is (review/scheduling.py, review/native.py). */
module Ledger {
  import opened WorkForest

  // ---- Budgets ----------------------------------------------------------------------------

  /** The limits of ReviewSettings; a reserve is the rounded-up verifier fraction of its maximum. */
  datatype Limits = Limits(maxCalls: nat, callReserve: nat, maxTools: nat, toolReserve: nat, maxToolRounds: nat)

  function Less(a: nat, b: nat): nat {
    if a < b then 0 else a - b
  }

  function Larger(a: nat, b: nat): nat {
    if a < b then b else a
  }

  predicate AtMost(a: Usage, b: Usage) {
    a.llmCalls <= b.llmCalls && a.toolCalls <= b.toolCalls
  }

  function CallCap(limits: Limits, phase: Phase): nat {
    if phase.Candidate? then Less(limits.maxCalls, limits.callReserve) else limits.maxCalls
  }

  function ToolCap(limits: Limits, phase: Phase): nat {
    if phase.Candidate? then Less(limits.maxTools, limits.toolReserve) else limits.maxTools
  }

  function RemainingCalls(limits: Limits, phase: Phase, usage: Usage): nat {
    Less(CallCap(limits, phase), usage.llmCalls)
  }

  function RemainingTools(limits: Limits, phase: Phase, usage: Usage): nat {
    Less(ToolCap(limits, phase), usage.toolCalls)
  }

  // ---- Sessions ---------------------------------------------------------------------------

  /** The canonical key of a tool call is opaque here. */
  type ToolKey = nat

  datatype Session = Session(
    work: WorkItem,
    initialSlots: nat,
    usage: Usage,
    seen: set<ToolKey>,
    pendingTools: seq<ToolKey>,
    rounds: nat,
    calls: nat,
    duplicateOnly: bool,
    finalOnly: bool)

  /** The request slots a live session still holds reserved. */
  function Slots(session: Session): nat {
    if session.calls == 0 then session.initialSlots else 1
  }

  function QueuedTools(session: Session): nat {
    |session.pendingTools|
  }

  function SessionWeight(session: Session): nat {
    Weight(session.work)
  }

  function Works(sessions: seq<Session>): (works: seq<WorkItem>)
    ensures |works| == |sessions|
    ensures forall i :: 0 <= i < |sessions| ==> works[i] == sessions[i].work
  {
    if sessions == [] then [] else [sessions[0].work] + Works(sessions[1..])
  }

  lemma {:induction false} WorksLast(sessions: seq<Session>, last: Session)
    ensures Works(sessions + [last]) == Works(sessions) + [last.work]
  {
  }

  function Spent(sessions: seq<Session>): Usage {
    if sessions == [] then NOTHING else Plus(sessions[0].usage, Spent(sessions[1..]))
  }

  lemma {:induction false} SpentAppend(sessions: seq<Session>, last: Session)
    ensures Spent(sessions + [last]) == Plus(last.usage, Spent(sessions))
  {
    if sessions == [] {
      assert sessions + [last] == [last];
    } else {
      assert (sessions + [last])[1..] == sessions[1..] + [last];
      SpentAppend(sessions[1..], last);
    }
  }

  lemma TotalLast<T>(measure: T -> nat, values: seq<T>, last: T)
    ensures Total(measure, values + [last]) == Total(measure, values) + measure(last)
  {
    TotalAppend(measure, values, [last]);
    assert Total(measure, [last]) == measure(last) + Total(measure, [last][1..]);
  }

  /** Between two turns every request of a session was charged and answered with tool calls. */
  predicate SessionOk(limits: Limits, session: Session) {
    && session.calls == session.rounds == session.usage.llmCalls
    && session.rounds <= limits.maxToolRounds
    && 1 <= session.initialSlots <= 2
  }

  // ---- Charges ----------------------------------------------------------------------------

  /** What the engine charges for a stored checkpoint: a SPLIT one is free. */
  function Charge(phase: Phase, cp: Checkpoint): Usage {
    if cp.phase == phase && !cp.status.Split? then cp.usage else NOTHING
  }

  ghost function Charged(phase: Phase, cps: Checkpoints): Usage
    decreases |cps|
  {
    if cps == map[] then NOTHING
    else
      var key :| key in cps;
      Plus(Charge(phase, cps[key]), Charged(phase, cps - {key}))
  }

  /** The sum does not depend on the order in which the checkpoints are visited. */
  lemma {:induction false} ChargedRemove(phase: Phase, cps: Checkpoints, key: Key)
    requires key in cps
    ensures Charged(phase, cps) == Plus(Charge(phase, cps[key]), Charged(phase, cps - {key}))
    decreases |cps|
  {
    var first: Key :| first in cps && Charged(phase, cps)
                                   == Plus(Charge(phase, cps[first]), Charged(phase, cps - {first}));
    if first != key {
      var less, other := cps - {first}, cps - {key};
      assert less[key] == cps[key] && other[first] == cps[first];
      ChargedRemove(phase, less, key);
      ChargedRemove(phase, other, first);
      assert less - {key} == other - {first};
      Exchange(Charge(phase, cps[first]), Charge(phase, cps[key]), Charged(phase, less - {key}));
    }
  }

  lemma Exchange(a: Usage, b: Usage, c: Usage)
    ensures Plus(a, Plus(b, c)) == Plus(b, Plus(a, c))
  {
  }

  lemma ChargedAdd(phase: Phase, cps: Checkpoints, key: Key, cp: Checkpoint)
    requires key !in cps
    ensures Charged(phase, cps[key := cp]) == Plus(Charge(phase, cp), Charged(phase, cps))
  {
    ChargedRemove(phase, cps[key := cp], key);
    assert cps[key := cp] - {key} == cps;
  }

  // ---- Stored checkpoints -----------------------------------------------------------------

  predicate Extends(later: Checkpoints, earlier: Checkpoints) {
    forall key :: key in earlier ==> key in later && later[key] == earlier[key]
  }

  predicate Agrees(cps: Checkpoints) {
    forall key :: key in cps ==> cps[key].phase == key.phase
  }

  /** `expand` can rebuild the forest from these checkpoints: pieces only below SPLIT items, phases as
      in the keys, and every SPLIT item really divides. */
  predicate Resumable(roots: seq<WorkItem>, cps: Checkpoints) {
    && Closed(cps) && Agrees(cps)
    && forall leaf :: leaf in Leaves(roots, cps) && leaf.key in cps ==> !cps[leaf.key].status.Split?
  }

  // ---- Where the leaves are ---------------------------------------------------------------

  predicate AllHave(items: seq<WorkItem>, cps: Checkpoints, status: Status) {
    forall item :: item in items ==> item.key in cps && cps[item.key].status == status
  }

  predicate NoneHas(items: seq<WorkItem>, cps: Checkpoints) {
    forall item :: item in items ==> item.key !in cps
  }

  /** Every leaf of the forest is in exactly one place, with the matching checkpoint. */
  ghost predicate Placed(roots: seq<WorkItem>, cps: Checkpoints, completed: seq<WorkItem>,
                         pending: seq<WorkItem>, waiting: seq<WorkItem>, working: seq<WorkItem>)
  {
    && Roots(roots) && Incomparable(roots) && Closed(cps) && Agrees(cps)
    && multiset(Leaves(roots, cps)) == multiset(completed + pending + waiting + working)
    && AllHave(completed, cps, Done) && AllHave(pending, cps, Stopped)
    && NoneHas(waiting, cps) && NoneHas(working, cps)
  }

  lemma PlacedResumable(roots: seq<WorkItem>, cps: Checkpoints, completed: seq<WorkItem>,
                        pending: seq<WorkItem>, waiting: seq<WorkItem>, working: seq<WorkItem>)
    requires Placed(roots, cps, completed, pending, waiting, working)
    ensures Resumable(roots, cps)
  {
    forall leaf | leaf in Leaves(roots, cps) && leaf.key in cps ensures !cps[leaf.key].status.Split? {
      assert leaf in multiset(Leaves(roots, cps));
      assert leaf in completed + pending + waiting + working;
    }
  }

  lemma {:induction false} OnceOnly(items: seq<WorkItem>, x: WorkItem)
    requires Incomparable(items)
    ensures multiset(items)[x] <= 1
    decreases |items|
  {
    if items != [] {
      OnceOnly(items[1..], x);
      assert items == [items[0]] + items[1..];
      assert forall i :: 0 <= i < |items[1..]| ==> items[1..][i] == items[i + 1];
      assert Comparable(x.key, x.key);
      assert x == items[0] ==> x !in items[1..];
    }
  }

  /** Distinct places hold distinct keys. */
  lemma LiveApart(leaves: seq<WorkItem>, x: WorkItem, others: seq<WorkItem>)
    requires Incomparable(leaves) && multiset(leaves) == multiset([x] + others)
    ensures forall other :: other in others ==> other.key != x.key
  {
    forall other | other in others ensures other.key != x.key {
      OnceOnly(leaves, x);
      assert other in multiset(others) && x in multiset(leaves) && other in multiset(leaves);
      assert other != x;
      var i :| 0 <= i < |leaves| && leaves[i] == x;
      var j :| 0 <= j < |leaves| && leaves[j] == other;
      assert !Comparable(leaves[if i < j then i else j].key, leaves[if i < j then j else i].key);
    }
  }

  /** The work of a session is a leaf of its own. */
  lemma PlacedApart(roots: seq<WorkItem>, cps: Checkpoints, completed: seq<WorkItem>, pending: seq<WorkItem>,
                    waiting: seq<WorkItem>, x: WorkItem, working: seq<WorkItem>)
    requires Placed(roots, cps, completed, pending, waiting, [x] + working)
    ensures x in Leaves(roots, cps) && x.key !in cps && x.key.path != []
    ensures forall other :: other in waiting || other in working ==> other.key != x.key
  {
    assert multiset(completed + pending + waiting + ([x] + working))
        == multiset([x] + (completed + pending + waiting + working));
    LeavesIncomparable(roots, cps);
    LiveApart(Leaves(roots, cps), x, completed + pending + waiting + working);
    assert x in multiset(Leaves(roots, cps));
    assert x in [x] + working;
    LeafParent(roots, cps, x);
  }

  lemma PlacedDone(roots: seq<WorkItem>, cps: Checkpoints, completed: seq<WorkItem>, pending: seq<WorkItem>,
                   waiting: seq<WorkItem>, x: WorkItem, working: seq<WorkItem>, cp: Checkpoint)
    requires Placed(roots, cps, completed, pending, waiting, [x] + working)
    requires cp.status.Done? && cp.phase == x.key.phase
    ensures Placed(roots, cps[x.key := cp], completed + [x], pending, waiting, working)
  {
    hide Leaves, Incomparable, Closed, Roots;
    PlacedApart(roots, cps, completed, pending, waiting, x, working);
    LeavesKept(roots, cps, x.key, cp);
    ClosedAdd(roots, cps, x, cp);
    assert forall item :: item in working ==> item in [x] + working;
  }

  lemma PlacedSplit(roots: seq<WorkItem>, cps: Checkpoints, completed: seq<WorkItem>, pending: seq<WorkItem>,
                    waiting: seq<WorkItem>, x: WorkItem, working: seq<WorkItem>, cp: Checkpoint)
    requires Placed(roots, cps, completed, pending, waiting, [x] + working)
    requires cp.status.Split? && cp.phase == x.key.phase && Children(x).Some?
    ensures Placed(roots, cps[x.key := cp], completed, pending, waiting + Children(x).value, working)
  {
    hide Leaves, Incomparable, Closed, Roots, Children;
    PlacedApart(roots, cps, completed, pending, waiting, x, working);
    LeavesSplit(roots, cps, x, cp);
    ChildrenFresh(x, cps, cp);
    ClosedAdd(roots, cps, x, cp);
    assert forall item :: item in working ==> item in [x] + working;
  }

  /** Taking the first waiting item into a session. */
  lemma PlacedStart(roots: seq<WorkItem>, cps: Checkpoints, completed: seq<WorkItem>, pending: seq<WorkItem>,
                    waiting: seq<WorkItem>, working: seq<WorkItem>)
    requires waiting != [] && Placed(roots, cps, completed, pending, waiting, working)
    ensures Placed(roots, cps, completed, pending, waiting[1..], [waiting[0]] + working)
  {
    hide Leaves, Incomparable, Closed, Roots;
    assert waiting == [waiting[0]] + waiting[1..];
    assert multiset(completed + pending + waiting + working)
        == multiset(completed + pending + waiting[1..] + ([waiting[0]] + working));
  }

  /** A session that is not finished goes to the back of the queue. */
  lemma PlacedRotate(roots: seq<WorkItem>, cps: Checkpoints, completed: seq<WorkItem>, pending: seq<WorkItem>,
                     waiting: seq<WorkItem>, x: WorkItem, working: seq<WorkItem>)
    requires Placed(roots, cps, completed, pending, waiting, [x] + working)
    ensures Placed(roots, cps, completed, pending, waiting, working + [x])
  {
    hide Leaves, Incomparable, Closed, Roots;
    assert forall item :: item in working ==> item in [x] + working;
    assert x in [x] + working;
  }
}
