/** Review work items, their deterministic splits, and the forest of items that the checkpoints of a
    review describe (review/scheduling.py, review/native.py).  A key is the phase and the index path
    that the source hashes into it, so keys are injective by construction. */
module WorkForest {
  import opened Wrappers
  import Chunking

  datatype Phase = Candidate | Verification

  /** A finding is its identity and the length of its JSON text. */
  datatype Finding = Finding(id: nat, jsonLength: nat)

  datatype Key = Key(phase: Phase, path: seq<nat>)

  datatype Payload = Diff(text: string) | Batch(findings: seq<Finding>)

  datatype WorkItem = WorkItem(key: Key, payload: Payload)

  datatype Usage = Usage(llmCalls: nat, toolCalls: nat, inputTokens: nat, outputTokens: nat)

  datatype Status = Done | Split | Stopped

  datatype Checkpoint = Checkpoint(phase: Phase, status: Status, result: seq<Finding>, usage: Usage)

  type Checkpoints = map<Key, Checkpoint>

  const NOTHING := Usage(0, 0, 0, 0)

  function Plus(a: Usage, b: Usage): Usage {
    Usage(a.llmCalls + b.llmCalls, a.toolCalls + b.toolCalls,
          a.inputTokens + b.inputTokens, a.outputTokens + b.outputTokens)
  }

  lemma PlusNothing(a: Usage)
    ensures Plus(a, NOTHING) == a == Plus(NOTHING, a)
  {
    assert a == Usage(a.llmCalls, a.toolCalls, a.inputTokens, a.outputTokens);
  }

  lemma PlusMoves(a: Usage, x: Usage, b: Usage, c: Usage)
    ensures Plus(a, Plus(Plus(x, b), c)) == Plus(Plus(a, x), Plus(b, c)) == Plus(a, Plus(b, Plus(c, x)))
  {
  }

  lemma PlusSwaps(a: Usage, b: Usage)
    ensures Plus(a, b) == Plus(b, a)
  {
  }

  function Total<T>(measure: T -> nat, values: seq<T>): nat {
    if values == [] then 0 else measure(values[0]) + Total(measure, values[1..])
  }

  lemma {:induction false} TotalAppend<T>(measure: T -> nat, a: seq<T>, b: seq<T>)
    ensures Total(measure, a + b) == Total(measure, a) + Total(measure, b)
  {
    if a == [] {
      assert a + b == b;
    } else {
      assert (a + b)[1..] == a[1..] + b;
      TotalAppend(measure, a[1..], b);
    }
  }

  // ---- Splitting --------------------------------------------------------------------------

  function Size(payload: Payload): nat {
    match payload
    case Diff(text) => |text|
    case Batch(findings) => |findings|
  }

  /** The termination weight of an item: a split always lowers the sum. */
  function Weight(item: WorkItem): (weight: nat)
    ensures weight >= 1
  {
    if Size(item.payload) == 0 then 1 else 2 * Size(item.payload) - 1
  }

  /** The pieces of a payload; None is the PermanentError of a payload that cannot be reduced. */
  function Pieces(payload: Payload): Option<seq<Payload>> {
    match payload
    case Diff(text) =>
      (match Chunking.SplitChunk(text)
       case None => None
       case Some(texts) => Some(seq(|texts|, i requires 0 <= i < |texts| => Diff(texts[i]))))
    case Batch(findings) =>
      if |findings| <= 1 then None
      else Some([Batch(findings[..|findings| / 2]), Batch(findings[|findings| / 2..])])
  }

  function ChildKey(key: Key, i: nat): Key {
    Key(key.phase, key.path + [i])
  }

  function Children(item: WorkItem): Option<seq<WorkItem>> {
    match Pieces(item.payload)
    case None => None
    case Some(pieces) =>
      Some(seq(|pieces|, i requires 0 <= i < |pieces| => WorkItem(ChildKey(item.key, i), pieces[i])))
  }

  function Text(items: seq<WorkItem>): string {
    if items == [] then ""
    else (if items[0].payload.Diff? then items[0].payload.text else "") + Text(items[1..])
  }

  function Findings(items: seq<WorkItem>): seq<Finding> {
    if items == [] then []
    else (if items[0].payload.Batch? then items[0].payload.findings else []) + Findings(items[1..])
  }

  lemma {:induction false} TextAppend(a: seq<WorkItem>, b: seq<WorkItem>)
    ensures Text(a + b) == Text(a) + Text(b) && Findings(a + b) == Findings(a) + Findings(b)
  {
    if a == [] {
      assert a + b == b;
    } else {
      assert (a + b)[1..] == a[1..] + b;
      TextAppend(a[1..], b);
    }
  }

  lemma {:induction false} DiffPieces(items: seq<WorkItem>, texts: seq<string>)
    requires |items| == |texts|
    requires forall i :: 0 <= i < |items| ==> items[i].payload == Diff(texts[i]) && texts[i] != ""
    ensures Text(items) == Chunking.Concat(texts) && Findings(items) == []
    ensures Total(Weight, items) == 2 * |Chunking.Concat(texts)| - |items|
  {
    if items != [] {
      DiffPieces(items[1..], texts[1..]);
    }
  }

  lemma DiffChildren(item: WorkItem)
    requires item.payload.Diff? && Children(item).Some?
    ensures var children := Children(item).value;
            && |children| >= 2
            && Total(Weight, children) < Weight(item)
            && Text(children) == item.payload.text && Findings(children) == []
            && forall i :: 0 <= i < |children| ==> 0 < Size(children[i].payload) < Size(item.payload)
  {
    Chunking.SplitChunkShrinks(item.payload.text);
    DiffPieces(Children(item).value, Chunking.SplitChunk(item.payload.text).value);
  }

  lemma BatchChildren(item: WorkItem)
    requires item.payload.Batch? && Children(item).Some?
    ensures var children := Children(item).value;
            && |children| == 2
            && Total(Weight, children) < Weight(item)
            && Findings(children) == item.payload.findings && Text(children) == ""
            && (forall i :: 0 <= i < |children| ==> 0 < Size(children[i].payload) < Size(item.payload))
            && Size(children[0].payload) <= Size(children[1].payload) <= Size(children[0].payload) + 1
  {
    var findings, children := item.payload.findings, Children(item).value;
    assert children == [children[0], children[1]];
    assert findings[..|findings| / 2] + findings[|findings| / 2..] == findings;
    assert children[1].payload.Batch? && children[1..][1..] == [];
    assert Findings(children[1..]) == children[1].payload.findings;
    assert Text(children[1..]) == "" by { assert Text(children[1..][1..]) == ""; }
    assert Total(Weight, children[1..]) == Weight(children[1]);
  }

  /** Which items can be split: diff text above the minimum, and batches of more than one finding. */
  lemma Divisible(item: WorkItem)
    ensures Children(item).Some? <==>
      match item.payload
      case Diff(text) => |text| > Chunking.MIN_SPLIT
      case Batch(findings) => |findings| > 1
  {
    if item.payload.Diff? { Chunking.SplitChunkShrinks(item.payload.text); }
  }

  /** A split yields at least two non-empty, strictly smaller pieces whose contents are, in order, the
      contents of the parent, and the pieces weigh less than the parent; a batch is halved, the odd finding in
      the second half. */
  lemma ChildrenShrink(item: WorkItem)
    requires Children(item).Some?
    ensures var children := Children(item).value;
            && |children| >= 2
            && Total(Weight, children) < Weight(item)
            && Text(children) == Text([item]) && Findings(children) == Findings([item])
            && (forall i :: 0 <= i < |children| ==> 0 < Size(children[i].payload) < Size(item.payload))
            && (item.payload.Batch? ==>
                  |children| == 2
                  && Size(children[0].payload) <= Size(children[1].payload) <= Size(children[0].payload) + 1)
  {
    hide Total, Weight, Children;
    if item.payload.Diff? { DiffChildren(item); } else { BatchChildren(item); }
  }

  // ---- The forest described by the checkpoints --------------------------------------------

  /** The item is replaced by its pieces. */
  predicate Divided(item: WorkItem, cps: Checkpoints) {
    item.key in cps && cps[item.key].status.Split? && Children(item).Some?
  }

  /** The leaves of the split forest over `items`, in document order. */
  function Leaves(items: seq<WorkItem>, cps: Checkpoints): seq<WorkItem>
    decreases Total(Weight, items)
  {
    if items == [] then []
    else if Divided(items[0], cps) then
      ChildrenShrink(items[0]);
      Leaves(Children(items[0]).value, cps) + Leaves(items[1..], cps)
    else [items[0]] + Leaves(items[1..], cps)
  }

  /** Whatever has been split, the leaves hold exactly the original content in document order. */
  lemma {:induction false} LeavesCover(items: seq<WorkItem>, cps: Checkpoints)
    ensures Text(Leaves(items, cps)) == Text(items) && Findings(Leaves(items, cps)) == Findings(items)
    decreases Total(Weight, items)
  {
    if items != [] {
      hide Children, Weight;
      LeavesCover(items[1..], cps);
      assert items == [items[0]] + items[1..];
      TextAppend([items[0]], items[1..]);
      if Divided(items[0], cps) {
        var children := Children(items[0]).value;
        ChildrenShrink(items[0]);
        LeavesCover(children, cps);
        TextAppend(Leaves(children, cps), Leaves(items[1..], cps));
      } else {
        TextAppend([items[0]], Leaves(items[1..], cps));
      }
    }
  }

  // ---- Keys of leaves ---------------------------------------------------------------------

  predicate Comparable(a: Key, b: Key) {
    a.phase == b.phase && (a.path <= b.path || b.path <= a.path)
  }

  /** No item is an ancestor of, or the same as, another. */
  predicate Incomparable(items: seq<WorkItem>) {
    forall i, j :: 0 <= i < j < |items| ==> !Comparable(items[i].key, items[j].key)
  }

  predicate Below(item: WorkItem, ancestor: WorkItem) {
    item.key.phase == ancestor.key.phase && ancestor.key.path <= item.key.path
  }

  lemma ChildrenIncomparable(item: WorkItem)
    requires Children(item).Some?
    ensures Incomparable(Children(item).value)
    ensures forall child :: child in Children(item).value ==> Below(child, item)
  {
    var children := Children(item).value;
    forall i, j | 0 <= i < j < |children| ensures !Comparable(children[i].key, children[j].key) {
      assert children[i].key.path[|item.key.path|] == i && children[j].key.path[|item.key.path|] == j;
    }
  }

  lemma PrefixesCompare(a: seq<nat>, b: seq<nat>, p: seq<nat>)
    requires a <= p && b <= p
    ensures a <= b || b <= a
  {
    if |a| <= |b| { assert a == p[..|a|] == b[..|a|]; } else { assert b == p[..|b|] == a[..|b|]; }
  }

  lemma {:induction false} LeafAncestor(items: seq<WorkItem>, cps: Checkpoints, leaf: WorkItem) returns (i: nat)
    requires leaf in Leaves(items, cps)
    ensures i < |items| && Below(leaf, items[i])
    decreases Total(Weight, items)
  {
    hide Children, Weight;
    if Divided(items[0], cps) && leaf in Leaves(Children(items[0]).value, cps) {
      ChildrenShrink(items[0]);
      ChildrenIncomparable(items[0]);
      var k := LeafAncestor(Children(items[0]).value, cps, leaf);
      assert Children(items[0]).value[k] in Children(items[0]).value;
      i := 0;
    } else if leaf == items[0] && !Divided(items[0], cps) {
      i := 0;
    } else {
      var k := LeafAncestor(items[1..], cps, leaf);
      i := k + 1;
    }
  }

  /** A leaf of the first item has nothing to do with the leaves of the others. */
  lemma LeavesApart(items: seq<WorkItem>, cps: Checkpoints, first: WorkItem, other: WorkItem)
    requires items != [] && Incomparable(items)
    requires Below(first, items[0]) && other in Leaves(items[1..], cps)
    ensures !Comparable(first.key, other.key)
  {
    hide Leaves;
    var k := LeafAncestor(items[1..], cps, other);
    assert !Comparable(items[0].key, items[k + 1].key);
    if Comparable(first.key, other.key) {
      var p := if first.key.path <= other.key.path then other.key.path else first.key.path;
      PrefixesCompare(items[0].key.path, items[1..][k].key.path, p);
    }
  }

  lemma IncomparableAppend(a: seq<WorkItem>, b: seq<WorkItem>)
    requires Incomparable(a) && Incomparable(b)
    requires forall x, y :: x in a && y in b ==> !Comparable(x.key, y.key)
    ensures Incomparable(a + b)
  {
    hide Comparable;
  }

  lemma Facts(items: seq<WorkItem>)
    requires items != [] && Incomparable(items)
    ensures Incomparable(items[1..]) && Incomparable([items[0]]) && Below(items[0], items[0])
    ensures Total(Weight, items[1..]) < Total(Weight, items)
    ensures Children(items[0]).Some? ==> Total(Weight, Children(items[0]).value) < Total(Weight, items)
  {
    if Children(items[0]).Some? { ChildrenShrink(items[0]); }
  }

  /** Leaves have pairwise distinct keys, and none is an ancestor of another. */
  lemma {:induction false} LeavesIncomparable(items: seq<WorkItem>, cps: Checkpoints)
    requires Incomparable(items)
    ensures Incomparable(Leaves(items, cps))
    decreases Total(Weight, items)
  {
    if items != [] {
      Facts(items);
      hide Children, Weight, Incomparable, Comparable, Below;
      var rest := Leaves(items[1..], cps);
      LeavesIncomparable(items[1..], cps);
      if Divided(items[0], cps) {
        var children := Children(items[0]).value;
        ChildrenShrink(items[0]);
        ChildrenIncomparable(items[0]);
        LeavesIncomparable(children, cps);
        forall x, y | x in Leaves(children, cps) && y in rest ensures !Comparable(x.key, y.key) {
          FirstBelow(items, cps, x);
          LeavesApart(items, cps, x, y);
        }
        IncomparableAppend(Leaves(children, cps), rest);
      } else {
        forall y | y in rest ensures !Comparable(items[0].key, y.key) {
          LeavesApart(items, cps, items[0], y);
        }
        IncomparableAppend([items[0]], rest);
      }
    }
  }

  lemma FirstBelow(items: seq<WorkItem>, cps: Checkpoints, leaf: WorkItem)
    requires items != [] && Divided(items[0], cps) && leaf in Leaves(Children(items[0]).value, cps)
    ensures Below(leaf, items[0])
  {
    hide Leaves, Children;
    var k := LeafAncestor(Children(items[0]).value, cps, leaf);
    ChildrenIncomparable(items[0]);
    assert Children(items[0]).value[k] in Children(items[0]).value;
  }

  // ---- How a checkpoint changes the forest ------------------------------------------------

  /** Checkpointing an item as DONE or STOPPED leaves the forest as it is. */
  lemma {:induction false} LeavesKept(items: seq<WorkItem>, cps: Checkpoints, key: Key, cp: Checkpoint)
    requires key !in cps && !cp.status.Split?
    ensures Leaves(items, cps[key := cp]) == Leaves(items, cps)
    decreases Total(Weight, items)
  {
    if items != [] {
      hide Children, Weight;
      LeavesKept(items[1..], cps, key, cp);
      if Divided(items[0], cps) {
        ChildrenShrink(items[0]);
        LeavesKept(Children(items[0]).value, cps, key, cp);
      }
    }
  }

  /** A checkpoint of a key that is no leaf of this part changes nothing in it. */
  lemma {:induction false} LeavesElsewhere(items: seq<WorkItem>, cps: Checkpoints, key: Key, cp: Checkpoint)
    requires key !in cps && forall leaf :: leaf in Leaves(items, cps) ==> leaf.key != key
    ensures Leaves(items, cps[key := cp]) == Leaves(items, cps)
    decreases Total(Weight, items)
  {
    if items != [] {
      hide Children, Weight;
      assert forall leaf :: leaf in Leaves(items[1..], cps) ==> leaf in Leaves(items, cps);
      LeavesElsewhere(items[1..], cps, key, cp);
      if Divided(items[0], cps) {
        ChildrenShrink(items[0]);
        assert forall leaf :: leaf in Leaves(Children(items[0]).value, cps) ==> leaf in Leaves(items, cps);
        LeavesElsewhere(Children(items[0]).value, cps, key, cp);
      } else {
        assert items[0] in Leaves(items, cps);
      }
    }
  }

  lemma {:induction false} LeavesFresh(items: seq<WorkItem>, cps: Checkpoints)
    requires forall item :: item in items ==> item.key !in cps
    ensures Leaves(items, cps) == items
    decreases |items|
  {
    if items != [] {
      LeavesFresh(items[1..], cps);
    }
  }

  function Parent(key: Key): Key
    requires key.path != []
  {
    Key(key.phase, key.path[..|key.path| - 1])
  }

  /** A piece is checkpointed only after its parent was split. */
  predicate Closed(cps: Checkpoints) {
    forall key :: key in cps && |key.path| > 1 ==> Parent(key) in cps && cps[Parent(key)].status.Split?
  }

  /** The items given to `run`: one index each. */
  predicate Roots(items: seq<WorkItem>) {
    forall item :: item in items ==> |item.key.path| == 1
  }

  /** `after` is `before` with one occurrence of `x` replaced by its pieces. */
  predicate Replaced(before: seq<WorkItem>, after: seq<WorkItem>, x: WorkItem)
    requires Children(x).Some?
  {
    multiset(after) == multiset(before) - multiset{x} + multiset(Children(x).value)
  }

  lemma ReplacedLeft(a: seq<WorkItem>, b: seq<WorkItem>, c: seq<WorkItem>, x: WorkItem)
    requires Children(x).Some? && x in a && Replaced(a, b, x)
    ensures Replaced(a + c, b + c, x)
  {
    hide Children;
    assert x in multiset(a);
  }

  lemma ReplacedRight(a: seq<WorkItem>, b: seq<WorkItem>, c: seq<WorkItem>, x: WorkItem)
    requires Children(x).Some? && x in a && Replaced(a, b, x)
    ensures Replaced(c + a, c + b, x)
  {
    hide Children;
    assert x in multiset(a);
  }

  lemma Unfold(items: seq<WorkItem>, cps: Checkpoints)
    requires items != []
    ensures Divided(items[0], cps) ==>
      Leaves(items, cps) == Leaves(Children(items[0]).value, cps) + Leaves(items[1..], cps)
    ensures !Divided(items[0], cps) ==> Leaves(items, cps) == [items[0]] + Leaves(items[1..], cps)
  {
  }

  lemma SameKey(items: seq<WorkItem>, cps: Checkpoints, a: WorkItem, b: WorkItem)
    requires items != [] && Incomparable(items) && Below(a, items[0]) && b in Leaves(items[1..], cps)
    ensures a.key != b.key
  {
    hide Leaves;
    LeavesApart(items, cps, a, b);
  }

  /** Splitting a leaf replaces it by its pieces and touches nothing else. */
  lemma {:induction false} LeavesSplit(items: seq<WorkItem>, cps: Checkpoints, x: WorkItem, cp: Checkpoint)
    requires Incomparable(items) && Closed(cps) && x.key !in cps && x.key.path != []
    requires cp.status.Split? && Children(x).Some? && x in Leaves(items, cps)
    ensures Replaced(Leaves(items, cps), Leaves(items, cps[x.key := cp]), x)
    decreases Total(Weight, items)
  {
    assert items != [];
    Facts(items);
    var after, rest := cps[x.key := cp], items[1..];
    assert items[0] == x ==> Divided(x, after);
    assert items[0].key != x.key && !Divided(items[0], cps) ==> !Divided(items[0], after);
    hide *;
    Unfold(items, cps);
    Unfold(items, after);
    if Divided(items[0], cps) {
      SplitBelow(items, cps, x, cp);
    } else if items[0] == x {
      SplitHere(items, cps, x, cp);
    } else {
      SameKey(items, cps, items[0], x);
      LeavesSplit(rest, cps, x, cp);
      ReplacedRight(Leaves(rest, cps), Leaves(rest, after), [items[0]], x);
    }
  }

  lemma SplitHere(items: seq<WorkItem>, cps: Checkpoints, x: WorkItem, cp: Checkpoint)
    requires Incomparable(items) && Closed(cps) && x.key !in cps && x.key.path != []
    requires cp.status.Split? && Children(x).Some? && items != [] && items[0] == x
    ensures Replaced(Leaves(items, cps), Leaves(items, cps[x.key := cp]), x)
  {
    var after, rest := cps[x.key := cp], items[1..];
    assert Divided(x, after) && !Divided(x, cps) && Below(x, x);
    assert Replaced([x], Children(x).value, x);
    hide *;
    Unfold(items, cps);
    Unfold(items, after);
    ChildrenFresh(x, cps, cp);
    LeavesFresh(Children(x).value, after);
    Elsewhere(items, cps, x, cp);
    ReplacedLeft([x], Children(x).value, Leaves(rest, cps), x);
  }

  lemma {:induction false} SplitBelow(items: seq<WorkItem>, cps: Checkpoints, x: WorkItem, cp: Checkpoint)
    requires items != [] && Incomparable(items) && Closed(cps) && x.key !in cps && x.key.path != []
    requires cp.status.Split? && Children(x).Some? && x in Leaves(items, cps) && Divided(items[0], cps)
    ensures Replaced(Leaves(items, cps), Leaves(items, cps[x.key := cp]), x)
    decreases Total(Weight, items), 0
  {
    var after, rest, children := cps[x.key := cp], items[1..], Children(items[0]).value;
    Facts(items);
    assert Divided(items[0], after);
    hide *;
    Unfold(items, cps);
    Unfold(items, after);
    ChildrenShrink(items[0]);
    ChildrenIncomparable(items[0]);
    if x in Leaves(children, cps) {
      LeavesSplit(children, cps, x, cp);
      FirstBelow(items, cps, x);
      Elsewhere(items, cps, x, cp);
      ReplacedLeft(Leaves(children, cps), Leaves(children, after), Leaves(rest, cps), x);
    } else {
      LeavesSplit(rest, cps, x, cp);
      forall leaf | leaf in Leaves(children, cps) ensures leaf.key != x.key {
        FirstBelow(items, cps, leaf);
        SameKey(items, cps, leaf, x);
      }
      LeavesElsewhere(children, cps, x.key, cp);
      ReplacedRight(Leaves(rest, cps), Leaves(rest, after), Leaves(children, cps), x);
    }
  }

  lemma Elsewhere(items: seq<WorkItem>, cps: Checkpoints, x: WorkItem, cp: Checkpoint)
    requires items != [] && Incomparable(items) && x.key !in cps && Below(x, items[0])
    ensures Leaves(items[1..], cps[x.key := cp]) == Leaves(items[1..], cps)
  {
    hide Leaves, Incomparable, Below;
    forall leaf | leaf in Leaves(items[1..], cps) ensures leaf.key != x.key {
      LeavesApart(items, cps, x, leaf);
    }
    LeavesElsewhere(items[1..], cps, x.key, cp);
  }

  /** The pieces of a leaf that has no checkpoint have none either. */
  lemma ChildrenFresh(x: WorkItem, cps: Checkpoints, cp: Checkpoint)
    requires Closed(cps) && x.key !in cps && x.key.path != [] && Children(x).Some?
    ensures forall child :: child in Children(x).value ==> child.key !in cps[x.key := cp]
  {
    forall child | child in Children(x).value ensures child.key !in cps[x.key := cp] {
      ChildParent(x, child);
      assert |child.key.path| > 1 by { assert |Parent(child.key).path| == |x.key.path|; }
    }
  }

  lemma {:induction false} LeafParent(items: seq<WorkItem>, cps: Checkpoints, leaf: WorkItem)
    requires leaf in Leaves(items, cps)
    ensures leaf in items || (leaf.key.path != [] && Parent(leaf.key) in cps && cps[Parent(leaf.key)].status.Split?)
    decreases Total(Weight, items)
  {
    hide Weight, Children;
    if Divided(items[0], cps) && leaf in Leaves(Children(items[0]).value, cps) {
      ChildrenShrink(items[0]);
      LeafParent(Children(items[0]).value, cps, leaf);
      if leaf in Children(items[0]).value { ChildParent(items[0], leaf); }
    } else if leaf in Leaves(items[1..], cps) {
      LeafParent(items[1..], cps, leaf);
    }
  }

  lemma ChildParent(item: WorkItem, child: WorkItem)
    requires Children(item).Some? && child in Children(item).value
    ensures child.key.path != [] && Parent(child.key) == item.key
  {
    var i: nat :| i < |Children(item).value| && Children(item).value[i] == child;
    assert child.key == ChildKey(item.key, i);
    assert (item.key.path + [i])[..|item.key.path|] == item.key.path;
  }

  lemma ClosedAdd(roots: seq<WorkItem>, cps: Checkpoints, x: WorkItem, cp: Checkpoint)
    requires Roots(roots) && Closed(cps) && x in Leaves(roots, cps) && x.key !in cps
    ensures Closed(cps[x.key := cp]) && x.key.path != []
  {
    hide Leaves;
    LeafParent(roots, cps, x);
  }
}
