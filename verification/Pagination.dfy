/** Reading all open changes of a project page by page from a server that may change meanwhile
    (`query_recent_open_changes` of gerrit/client.py).  A change is its number and its update time in
    nanoseconds; the server state at request `k` is a map from the matching numbers to their times. */
module Pagination {
  import opened Wrappers

  type Changes = map<nat, nat>

  datatype Item = Item(number: nat, updated: nat)

  datatype Page = Page(items: seq<Item>, more: bool)

  /** One request and its answer. */
  datatype Exchange = Exchange(before: Option<nat>, excluded: set<nat>, page: Page)

  datatype PagingError = BoundaryTooCrowded

  const NANOS_PER_MILLI := 1000000
  const NANOS_PER_SECOND := 1000000000
  const MAX_QUERY_BYTES := 64000
  /** ` before:"` with a timestamp of 29 characters and the closing quote. */
  const BOUNDARY_BYTES: nat := 39

  // ---- The search boundary ----------------------------------------------------------------

  /** The millisecond boundary sent in `before:`, computed from the seconds and the nine-digit fraction,
      with a carry into the seconds. */
  function SearchBoundary(updated: nat): nat {
    var second, nanos := updated / NANOS_PER_SECOND, updated % NANOS_PER_SECOND;
    var floor, remainder := nanos / NANOS_PER_MILLI, nanos % NANOS_PER_MILLI;
    var millis := if remainder != 0 then floor + 1 else floor;
    if millis == 1000 then (second + 1) * 1000 else second * 1000 + millis
  }

  /** The boundary is the time rounded up to the next whole millisecond. */
  lemma BoundaryRoundsUp(updated: nat)
    ensures updated <= SearchBoundary(updated) * NANOS_PER_MILLI < updated + NANOS_PER_MILLI
  {
    var second, nanos := updated / NANOS_PER_SECOND, updated % NANOS_PER_SECOND;
    assert updated == second * NANOS_PER_SECOND + nanos;
    var floor, remainder := nanos / NANOS_PER_MILLI, nanos % NANOS_PER_MILLI;
    assert nanos == floor * NANOS_PER_MILLI + remainder;
  }

  lemma BoundaryIsMonotone(a: nat, b: nat)
    requires a <= b
    ensures SearchBoundary(a) <= SearchBoundary(b)
  {
    hide SearchBoundary;
    BoundaryRoundsUp(a);
    BoundaryRoundsUp(b);
  }

  /** A time is within `before:` exactly when its own boundary is. */
  lemma WithinBoundary(updated: nat, before: nat)
    ensures updated <= before * NANOS_PER_MILLI <==> SearchBoundary(updated) <= before
  {
    hide SearchBoundary;
    BoundaryRoundsUp(updated);
  }

  // ---- The server -------------------------------------------------------------------------

  /** The matching changes a query asks for; `before:` is inclusive. */
  function Eligible(state: Changes, before: Option<nat>, excluded: set<nat>): set<nat> {
    set number | number in state && number !in excluded
                 && (before.Some? ==> state[number] <= before.value * NANOS_PER_MILLI)
  }

  function Numbers(items: seq<Item>): set<nat> {
    set i | 0 <= i < |items| :: items[i].number
  }

  /** What an honest server may answer: eligible changes, newest first, none twice, and nothing left out
      that is newer than the last one; `more` tells whether anything was left out. */
  predicate Honest(state: Changes, before: Option<nat>, excluded: set<nat>, page: Page) {
    var eligible := Eligible(state, before, excluded);
    && (forall i :: 0 <= i < |page.items| ==>
          page.items[i].number in eligible && page.items[i].updated == state[page.items[i].number])
    && (forall i, j :: 0 <= i < j < |page.items| ==> page.items[i].number != page.items[j].number)
    && (forall i, j :: 0 <= i < j < |page.items| ==> page.items[i].updated >= page.items[j].updated)
    && (page.items == [] ==> eligible == {})
    && (!page.more ==> eligible <= Numbers(page.items))
    && (forall number, i :: number in eligible - Numbers(page.items) && 0 <= i < |page.items| ==>
          state[number] <= page.items[i].updated)
  }

  lemma {:induction false} Newest(state: Changes, numbers: set<nat>) returns (newest: nat)
    requires numbers != {} && numbers <= state.Keys
    ensures newest in numbers && forall number :: number in numbers ==> state[number] <= state[newest]
    decreases |numbers|
  {
    var first :| first in numbers;
    var rest := numbers - {first};
    newest := first;
    if rest != {} {
      var other := Newest(state, rest);
      if state[first] < state[other] { newest := other; }
    }
    forall number | number in numbers ensures state[number] <= state[newest] {
      assert number == first || number in rest;
    }
  }

  lemma NumbersAppend(items: seq<Item>, item: Item)
    ensures Numbers(items + [item]) == Numbers(items) + {item.number}
  {
    var all := items + [item];
    assert all[|items|] == item;
    assert forall i :: 0 <= i < |items| ==> all[i] == items[i];
  }

  /** A page under construction: `rest` is what it does not hold yet. */
  predicate Partial(state: Changes, eligible: set<nat>, items: seq<Item>, rest: set<nat>) {
    && rest == eligible - Numbers(items) && eligible <= state.Keys
    && (forall i :: 0 <= i < |items| ==> items[i].number in eligible && items[i].updated == state[items[i].number])
    && (forall i, j :: 0 <= i < j < |items| ==> items[i].number != items[j].number)
    && (forall i, j :: 0 <= i < j < |items| ==> items[i].updated >= items[j].updated)
    && (forall number, i :: number in rest && 0 <= i < |items| ==> state[number] <= items[i].updated)
  }

  lemma PartialStep(state: Changes, eligible: set<nat>, items: seq<Item>, rest: set<nat>, newest: nat)
    requires Partial(state, eligible, items, rest) && newest in rest
    requires forall number :: number in rest ==> state[number] <= state[newest]
    ensures Partial(state, eligible, items + [Item(newest, state[newest])], rest - {newest})
  {
    NumbersAppend(items, Item(newest, state[newest]));
    hide Numbers;
    assert forall i :: 0 <= i < |items| ==> items[i].number in Numbers(items) by { NumbersHold(items); }
  }

  lemma NumbersHold(items: seq<Item>)
    ensures forall i :: 0 <= i < |items| ==> items[i].number in Numbers(items)
    ensures forall number :: number in Numbers(items) ==> exists i :: 0 <= i < |items| && items[i].number == number
    ensures items == [] ==> Numbers(items) == {}
  {
  }

  lemma PartialStart(state: Changes, before: Option<nat>, excluded: set<nat>)
    ensures Partial(state, Eligible(state, before, excluded), [], Eligible(state, before, excluded))
  {
    NumbersHold([]);
  }

  lemma PartialDone(state: Changes, before: Option<nat>, excluded: set<nat>, items: seq<Item>, rest: set<nat>)
    requires Partial(state, Eligible(state, before, excluded), items, rest) && (items == [] ==> rest == {})
    ensures Honest(state, before, excluded, Page(items, rest != {}))
  {
    hide Eligible, Numbers;
    NumbersHold([]);
    var eligible := Eligible(state, before, excluded);
    if items == [] { assert rest == eligible - {} == eligible; }
    assert forall number :: number in eligible && number !in Numbers(items) ==> number in rest;
  }

  /** Any honest server: ties in any order, and pages of any length from one item up. */
  method Answer(state: Changes, before: Option<nat>, excluded: set<nat>, pageSize: nat) returns (page: Page)
    requires pageSize >= 1
    ensures Honest(state, before, excluded, page) && |page.items| <= pageSize
  {
    hide Numbers, Eligible, Honest, Partial;
    var eligible := Eligible(state, before, excluded);
    var items: seq<Item>, rest := [], eligible;
    var going := true;
    PartialStart(state, before, excluded);
    while going && rest != {} && |items| < pageSize
      invariant |items| <= pageSize && (!going ==> items != [])
      invariant Partial(state, eligible, items, rest)
      decreases |rest|, going
    {
      PartialKeys(state, eligible, items, rest);
      ghost var top := Newest(state, rest);
      var newest :| newest in rest && forall number :: number in rest ==> state[number] <= state[newest];
      PartialStep(state, eligible, items, rest, newest);
      items := items + [Item(newest, state[newest])];
      rest := rest - {newest};
      if * { going := false; }
    }
    PartialDone(state, before, excluded, items, rest);
    page := Page(items, rest != {});
  }

  lemma PartialKeys(state: Changes, eligible: set<nat>, items: seq<Item>, rest: set<nat>)
    requires Partial(state, eligible, items, rest)
    ensures rest <= state.Keys
  {
  }

  // ---- The walk ---------------------------------------------------------------------------

  function Digits(n: nat): (d: nat)
    ensures d >= 1
  {
    if n < 10 then 1 else 1 + Digits(n / 10)
  }

  function PowerOfTen(n: nat): nat {
    if n == 0 then 1 else 10 * PowerOfTen(n - 1)
  }

  /** A number has exactly as many digits as it takes to write it. */
  lemma {:induction false} DigitsFit(n: nat)
    ensures n < PowerOfTen(Digits(n)) && (Digits(n) > 1 ==> PowerOfTen(Digits(n) - 1) <= n)
    decreases n
  {
    if n >= 10 {
      DigitsFit(n / 10);
    } else {
      assert PowerOfTen(1) == 10 * PowerOfTen(0);
    }
  }

  /** The bytes that ` -change:N` adds for every exclusion. */
  ghost function ExclusionCost(excluded: set<nat>): nat
    decreases |excluded|
  {
    if excluded == {} then 0
    else
      var number :| number in excluded;
      9 + Digits(number) + ExclusionCost(excluded - {number})
  }

  lemma {:induction false} ExclusionRemove(excluded: set<nat>, number: nat)
    requires number in excluded
    ensures ExclusionCost(excluded) == 9 + Digits(number) + ExclusionCost(excluded - {number})
    decreases |excluded|
  {
    var first: nat :| first in excluded && ExclusionCost(excluded) == 9 + Digits(first) + ExclusionCost(excluded - {first});
    if first != number {
      ExclusionRemove(excluded - {first}, number);
      ExclusionRemove(excluded - {number}, first);
      assert excluded - {first} - {number} == excluded - {number} - {first};
    }
  }

  lemma {:induction false} ExclusionsGrow(fewer: set<nat>, more: set<nat>)
    requires fewer <= more
    ensures ExclusionCost(fewer) <= ExclusionCost(more) && ExclusionCost(more) >= 10 * |more|
    decreases |more|
  {
    if more != {} {
      if fewer == more {
        var number :| number in more;
        ExclusionRemove(more, number);
        ExclusionsGrow(fewer - {number}, more - {number});
      } else {
        assert more - fewer != {};
        var number :| number in more - fewer;
        ExclusionRemove(more, number);
        ExclusionsGrow(fewer, more - {number});
      }
    }
  }

  method ExclusionBytes(excluded: set<nat>) returns (bytes: nat)
    ensures bytes == ExclusionCost(excluded) && bytes >= 10 * |excluded|
  {
    bytes := 0;
    var rest := excluded;
    ExclusionsGrow(excluded, excluded);
    while rest != {}
      invariant bytes + ExclusionCost(rest) == ExclusionCost(excluded) >= 10 * |excluded|
      decreases |rest|
    {
      var number :| number in rest;
      ExclusionRemove(rest, number);
      bytes := bytes + 9 + Digits(number);
      rest := rest - {number};
    }
    NothingExcluded();
  }

  /** The changes of one server state that are updated in the same millisecond. */
  function Sharing(state: Changes, boundary: nat): set<nat> {
    set number | number in state && SearchBoundary(state[number]) == boundary
  }

  /** The excluded changes have all been reported within the millisecond of the boundary. */
  ghost predicate Reported(world: nat -> Changes, before: Option<nat>, excluded: set<nat>) {
    forall number :: number in excluded ==> before.Some? && exists k :: number in Sharing(world(k), before.value)
  }

  lemma ReportedNext(world: nat -> Changes, request: nat, before: Option<nat>, excluded: set<nat>, page: Page)
    requires Reported(world, before, excluded) && page.items != []
    requires Honest(world(request), before, excluded, page)
    ensures var boundary := SearchBoundary(page.items[|page.items| - 1].updated);
            Reported(world, Some(boundary), NextExcluded(before, excluded, page.items, boundary))
  {
    hide SearchBoundary;
    var boundary := SearchBoundary(page.items[|page.items| - 1].updated);
    forall number | number in AtBoundary(page.items, boundary) ensures number in Sharing(world(request), boundary) { }
  }

  lemma NeverCrowded(world: nat -> Changes, before: Option<nat>, excluded: set<nat>, baseBytes: nat)
    requires Reported(world, before, excluded) && Static(world) && Roomy(world(0), baseBytes)
    ensures baseBytes + (if before.Some? then BOUNDARY_BYTES else 0) + ExclusionCost(excluded) <= MAX_QUERY_BYTES
  {
    hide SearchBoundary, ExclusionCost;
    ExclusionsGrow({}, {});
    if before.Some? {
      assert excluded <= Sharing(world(0), before.value);
      ExclusionsGrow(excluded, Sharing(world(0), before.value));
    } else {
      assert excluded == {};
      ExclusionsGrow({}, Sharing(world(0), 0));
      NothingExcluded();
    }
  }

  lemma NothingExcluded()
    ensures ExclusionCost({}) == 0
  {
  }

  /** No millisecond of the state has more changes than fit into one query. */
  ghost predicate Roomy(state: Changes, baseBytes: nat) {
    forall boundary :: baseBytes + BOUNDARY_BYTES + ExclusionCost(Sharing(state, boundary)) <= MAX_QUERY_BYTES
  }

  /** The change matched with the same update time at every request. */
  ghost predicate Stable(world: nat -> Changes, number: nat) {
    number in world(0) && forall k :: number in world(k) && world(k)[number] == world(0)[number]
  }

  ghost predicate Static(world: nat -> Changes) {
    forall k :: world(k) == world(0)
  }

  /** Where the walk stands: the boundary, the numbers excluded at it, and the numbers seen. */
  ghost predicate Pending(before: Option<nat>, excluded: set<nat>, seen: set<nat>, number: nat, updated: nat) {
    number in seen || before.None? || (updated <= before.value * NANOS_PER_MILLI && number !in excluded)
  }

  /** On a static server: whatever was seen can no longer be asked for. */
  ghost predicate Passed(before: Option<nat>, excluded: set<nat>, number: nat, updated: nat) {
    before.Some? && SearchBoundary(updated) >= before.value
    && (SearchBoundary(updated) == before.value ==> number in excluded)
  }

  function AtBoundary(items: seq<Item>, boundary: nat): set<nat> {
    set i | 0 <= i < |items| && SearchBoundary(items[i].updated) == boundary :: items[i].number
  }

  /** The exclusions after a page that is not the last. */
  function NextExcluded(before: Option<nat>, excluded: set<nat>, items: seq<Item>, boundary: nat): set<nat> {
    (if before == Some(boundary) then excluded else {}) + AtBoundary(items, boundary)
  }

  lemma StepKeepsPending(state: Changes, before: Option<nat>, excluded: set<nat>, seen: set<nat>, page: Page, number: nat)
    requires Honest(state, before, excluded, page) && page.items != [] && number in state
    requires Pending(before, excluded, seen, number, state[number]) && (before.None? ==> excluded == {})
    ensures var boundary := SearchBoundary(page.items[|page.items| - 1].updated);
            Pending(Some(boundary), NextExcluded(before, excluded, page.items, boundary),
                    seen + Numbers(page.items), number, state[number])
    ensures !page.more ==> number in seen + Numbers(page.items)
  {
    hide SearchBoundary;
    var last := page.items[|page.items| - 1];
    BoundaryRoundsUp(last.updated);
    if number !in seen + Numbers(page.items) {
      assert number in Eligible(state, before, excluded);
      assert number !in AtBoundary(page.items, SearchBoundary(last.updated)) by {
        assert AtBoundary(page.items, SearchBoundary(last.updated)) <= Numbers(page.items);
      }
    }
  }

  lemma BoundaryFalls(state: Changes, before: Option<nat>, excluded: set<nat>, page: Page)
    requires Honest(state, before, excluded, page) && page.items != []
    ensures var last := page.items[|page.items| - 1];
            && (before.Some? ==> SearchBoundary(last.updated) <= before.value)
            && last.number !in excluded && last.number in AtBoundary(page.items, SearchBoundary(last.updated))
    ensures forall i :: 0 <= i < |page.items| ==>
      SearchBoundary(page.items[i].updated) >= SearchBoundary(page.items[|page.items| - 1].updated)
  {
    hide SearchBoundary;
    var last := page.items[|page.items| - 1];
    assert last.number in Eligible(state, before, excluded);
    if before.Some? { WithinBoundary(last.updated, before.value); }
    forall i | 0 <= i < |page.items| ensures SearchBoundary(page.items[i].updated) >= SearchBoundary(last.updated) {
      BoundaryIsMonotone(last.updated, page.items[i].updated);
    }
  }

  lemma StepPasses(state: Changes, before: Option<nat>, excluded: set<nat>, page: Page, number: nat)
    requires Honest(state, before, excluded, page) && page.items != [] && number in state
    requires Passed(before, excluded, number, state[number]) || number in Numbers(page.items)
    ensures var boundary := SearchBoundary(page.items[|page.items| - 1].updated);
            Passed(Some(boundary), NextExcluded(before, excluded, page.items, boundary), number, state[number])
    ensures Passed(before, excluded, number, state[number]) ==> number !in Numbers(page.items)
  {
    hide SearchBoundary;
    BoundaryFalls(state, before, excluded, page);
    if before.Some? { WithinBoundary(state[number], before.value); }
  }

  // ---- Recording a page -------------------------------------------------------------------

  predicate Distinct(items: seq<Item>) {
    forall i, j :: 0 <= i < j < |items| ==> items[i].number != items[j].number
  }

  function Merge(changes: seq<Item>, items: seq<Item>): seq<Item> {
    if items == [] then changes
    else
      var last, merged := items[|items| - 1], Merge(changes, items[..|items| - 1]);
      if last.number in Numbers(merged) then merged else merged + [last]
  }

  lemma {:induction false} MergeFacts(changes: seq<Item>, items: seq<Item>)
    requires Distinct(changes)
    ensures Distinct(Merge(changes, items)) && changes <= Merge(changes, items)
    ensures Numbers(Merge(changes, items)) == Numbers(changes) + Numbers(items)
    decreases |items|
  {
    hide Numbers, Distinct;
    NumbersHold(items);
    if items == [] {
      assert Numbers(changes) + Numbers(items) == Numbers(changes);
    } else {
      var front, last := items[..|items| - 1], items[|items| - 1];
      MergeFacts(changes, front);
      assert items == front + [last];
      NumbersAppend(front, last);
      NumbersAppend(Merge(changes, front), last);
      if last.number !in Numbers(Merge(changes, front)) { DistinctAppend(Merge(changes, front), last); }
      assert Numbers(changes) + Numbers(items) == Numbers(changes) + Numbers(front) + {last.number};
    }
  }

  lemma DistinctAppend(items: seq<Item>, last: Item)
    requires Distinct(items) && last.number !in Numbers(items)
    ensures Distinct(items + [last])
  {
    NumbersHold(items);
  }

  /** A page without repetitions adds all of its unseen items. */
  lemma {:induction false} MergeAdds(changes: seq<Item>, items: seq<Item>)
    requires Distinct(changes) && Distinct(items)
    ensures forall item :: item in items && item.number !in Numbers(changes) ==> item in Merge(changes, items)
    ensures Numbers(changes) !! Numbers(items) ==> |Merge(changes, items)| == |changes| + |items|
    decreases |items|
  {
    hide Numbers;
    NumbersHold(items);
    if items != [] {
      var front, last := items[..|items| - 1], items[|items| - 1];
      MergeAdds(changes, front);
      MergeFacts(changes, front);
      assert items == front + [last];
      NumbersAppend(front, last);
      NumbersHold(front);
      assert last.number !in Numbers(front);
    }
  }

  method Record(changes: seq<Item>, seen: set<nat>, items: seq<Item>) returns (all: seq<Item>, numbers: set<nat>)
    requires Distinct(changes) && seen == Numbers(changes)
    ensures all == Merge(changes, items) && numbers == Numbers(all)
  {
    hide Numbers, Distinct;
    all, numbers := changes, seen;
    for i := 0 to |items|
      invariant all == Merge(changes, items[..i]) && numbers == Numbers(all)
    {
      assert items[..i + 1][..i] == items[..i];
      if items[i].number !in numbers {
        NumbersAppend(all, items[i]);
        all := all + [items[i]];
        numbers := numbers + {items[i].number};
      }
    }
    assert items[..|items|] == items;
  }

  // ---- The whole walk ---------------------------------------------------------------------

  ghost predicate Walking(world: nat -> Changes, before: Option<nat>, excluded: set<nat>, changes: seq<Item>,
                          transferred: nat)
  {
    && Distinct(changes) && (before.None? ==> excluded == {})
    && (forall number :: Stable(world, number) ==>
          Pending(before, excluded, Numbers(changes), number, world(0)[number]))
    && (forall number :: Stable(world, number) && number in Numbers(changes) ==>
          Item(number, world(0)[number]) in changes)
    && (Static(world) ==>
          && Numbers(changes) <= world(0).Keys && transferred == |changes|
          && forall number :: number in Numbers(changes) ==> Passed(before, excluded, number, world(0)[number]))
  }

  ghost predicate Arrived(world: nat -> Changes, changes: seq<Item>, transferred: nat) {
    && Distinct(changes)
    && (forall number :: Stable(world, number) ==> Item(number, world(0)[number]) in changes)
    && (Static(world) ==> Numbers(changes) == world(0).Keys && transferred == |changes|)
  }

  lemma WalkStable(world: nat -> Changes, request: nat, before: Option<nat>, excluded: set<nat>, changes: seq<Item>,
                   transferred: nat, page: Page, number: nat)
    requires Walking(world, before, excluded, changes, transferred) && Stable(world, number)
    requires Honest(world(request), before, excluded, page) && page.items != []
    ensures var boundary := SearchBoundary(page.items[|page.items| - 1].updated);
            var merged := Merge(changes, page.items);
            && Pending(Some(boundary), NextExcluded(before, excluded, page.items, boundary), Numbers(merged),
                       number, world(0)[number])
            && (number in Numbers(merged) ==> Item(number, world(0)[number]) in merged)
            && (!page.more ==> number in Numbers(merged))
  {
    hide SearchBoundary, Numbers, Passed, Eligible, Merge, Pending, NextExcluded, Static;
    MergeFacts(changes, page.items);
    MergeAdds(changes, page.items);
    StepKeepsPending(world(request), before, excluded, Numbers(changes), page, number);
    NumbersHold(page.items);
    if number in Numbers(page.items) && number !in Numbers(changes) {
      var i :| 0 <= i < |page.items| && page.items[i].number == number;
      assert page.items[i] == Item(number, world(0)[number]);
      assert page.items[i] in page.items;
    }
  }

  lemma WalkStatic(world: nat -> Changes, request: nat, before: Option<nat>, excluded: set<nat>, changes: seq<Item>,
                   transferred: nat, page: Page)
    requires Walking(world, before, excluded, changes, transferred) && Static(world)
    requires Honest(world(request), before, excluded, page) && page.items != []
    ensures var boundary := SearchBoundary(page.items[|page.items| - 1].updated);
            var merged := Merge(changes, page.items);
            && Numbers(merged) <= world(0).Keys && transferred + |page.items| == |merged|
            && forall number :: number in Numbers(merged) ==>
                 Passed(Some(boundary), NextExcluded(before, excluded, page.items, boundary), number, world(0)[number])
  {
    hide SearchBoundary, Numbers, Passed, Merge, Pending, NextExcluded, Stable;
    assert world(request) == world(0);
    MergeFacts(changes, page.items);
    MergeAdds(changes, page.items);
    NumbersHold(page.items);
    forall number | number in Numbers(changes) ensures number !in Numbers(page.items) {
      StepPasses(world(0), before, excluded, page, number);
    }
    var boundary := SearchBoundary(page.items[|page.items| - 1].updated);
    forall number | number in Numbers(Merge(changes, page.items))
      ensures number in world(0)
      ensures Passed(Some(boundary), NextExcluded(before, excluded, page.items, boundary), number, world(0)[number])
    {
      StepPasses(world(0), before, excluded, page, number);
    }
  }

  lemma WalkStep(world: nat -> Changes, request: nat, before: Option<nat>, excluded: set<nat>, changes: seq<Item>,
                 transferred: nat, page: Page)
    requires Walking(world, before, excluded, changes, transferred)
    requires Honest(world(request), before, excluded, page) && page.items != []
    ensures var boundary := SearchBoundary(page.items[|page.items| - 1].updated);
            Walking(world, Some(boundary), NextExcluded(before, excluded, page.items, boundary),
                    Merge(changes, page.items), transferred + |page.items|)
    ensures !page.more ==> Arrived(world, Merge(changes, page.items), transferred + |page.items|)
  {
    hide SearchBoundary, Numbers, Passed, Honest, Merge, Pending, NextExcluded, Static, Distinct;
    forall number | Stable(world, number)
      ensures var boundary := SearchBoundary(page.items[|page.items| - 1].updated);
              Pending(Some(boundary), NextExcluded(before, excluded, page.items, boundary),
                      Numbers(Merge(changes, page.items)), number, world(0)[number])
      ensures number in Numbers(Merge(changes, page.items)) ==> Item(number, world(0)[number]) in Merge(changes, page.items)
      ensures !page.more ==> number in Numbers(Merge(changes, page.items))
    {
      WalkStable(world, request, before, excluded, changes, transferred, page, number);
    }
    if Static(world) { WalkStatic(world, request, before, excluded, changes, transferred, page); }
    MergeFacts(changes, page.items);
    StaticIsStable(world);
  }

  lemma StaticIsStable(world: nat -> Changes)
    ensures Static(world) ==> forall number :: number in world(0) ==> Stable(world, number)
  {
  }

  /** An empty page means that nothing is left to ask for. */
  lemma WalkEnd(world: nat -> Changes, request: nat, before: Option<nat>, excluded: set<nat>, changes: seq<Item>,
                transferred: nat, page: Page)
    requires Walking(world, before, excluded, changes, transferred)
    requires Honest(world(request), before, excluded, page) && page.items == []
    ensures Arrived(world, changes, transferred)
  {
    hide Numbers;
    NumbersHold(changes);
    StaticIsStable(world);
    forall number | Stable(world, number) ensures Item(number, world(0)[number]) in changes {
      assert number !in Eligible(world(request), before, excluded);
    }
  }

  lemma WalkStart(world: nat -> Changes)
    ensures Walking(world, None, {}, [], 0)
  {
    hide Passed;
    NumbersHold([]);
  }

  /** Request k was answered by the server as it was then, and every item of every answer is in the result. */
  ghost predicate Collects(world: nat -> Changes, trace: seq<Exchange>, changes: seq<Item>, transferred: nat) {
    && (forall k :: 0 <= k < |trace| ==> Honest(world(k), trace[k].before, trace[k].excluded, trace[k].page))
    && (forall item :: item in changes ==> exists k :: 0 <= k < |trace| && item in trace[k].page.items)
    && (forall k, item :: 0 <= k < |trace| && item in trace[k].page.items ==> item.number in Numbers(changes))
    && transferred == TotalItems(trace)
  }

  function TotalItems(trace: seq<Exchange>): nat {
    if trace == [] then 0 else TotalItems(trace[..|trace| - 1]) + |trace[|trace| - 1].page.items|
  }

  lemma CollectsNext(world: nat -> Changes, trace: seq<Exchange>, changes: seq<Item>, transferred: nat, next: Exchange)
    requires Collects(world, trace, changes, transferred) && Distinct(changes)
    requires Honest(world(|trace|), next.before, next.excluded, next.page)
    ensures Collects(world, trace + [next], Merge(changes, next.page.items), transferred + |next.page.items|)
  {
    hide Honest, Numbers;
    var after, all := Merge(changes, next.page.items), trace + [next];
    MergeFacts(changes, next.page.items);
    MergeComesFrom(changes, next.page.items);
    NumbersHold(next.page.items);
    assert all[..|trace|] == trace;
    forall k, item | 0 <= k < |all| && item in all[k].page.items ensures item.number in Numbers(after) {
      assert k < |trace| ==> all[k] == trace[k];
    }
    forall item | item in after ensures exists k :: 0 <= k < |all| && item in all[k].page.items {
      if item in changes {
        var k :| 0 <= k < |trace| && item in trace[k].page.items;
        assert item in all[k].page.items;
      } else {
        assert item in all[|trace|].page.items;
      }
    }
  }

  lemma {:induction false} MergeComesFrom(changes: seq<Item>, items: seq<Item>)
    ensures forall item :: item in Merge(changes, items) ==> item in changes || item in items
    decreases |items|
  {
    if items != [] {
      MergeComesFrom(changes, items[..|items| - 1]);
      assert items == items[..|items| - 1] + [items[|items| - 1]];
    }
  }

  lemma NothingCollected(world: nat -> Changes)
    ensures Collects(world, [], [], 0)
  {
  }

  /** The walk over one project.  It ends for every server.  When it ends normally, every change that
      matched unchanged all the time is returned, none twice; and if the server did not change at all, the
      result is exactly the matching set and no change was even transferred twice. */
  method QueryProject(world: nat -> Changes, pageSize: nat, baseBytes: nat)
    returns (result: Result<seq<Item>, PagingError>, transferred: nat, ghost trace: seq<Exchange>,
             ghost last: Option<nat>, ghost crowd: set<nat>)
    requires pageSize >= 1
    // nothing is made up, and nothing that was reported is lost
    ensures result.Ok? ==> Collects(world, trace, result.value, transferred)
    ensures result.Ok? ==> Arrived(world, result.value, transferred)
    // it gives up exactly before a query that is too long: the changes that are excluded share one millisecond
    ensures Reported(world, last, crowd)
    ensures result.Err? <==>
      baseBytes + (if last.Some? then BOUNDARY_BYTES else 0) + ExclusionCost(crowd) > MAX_QUERY_BYTES
    ensures Static(world) && Roomy(world(0), baseBytes) ==> result.Ok?
  {
    hide *;
    var changes: seq<Item>, seen := [], {};
    var before: Option<nat>, excluded: set<nat> := None, {};
    var request := 0;
    transferred := 0;
    trace := [];
    NothingCollected(world);
    WalkStart(world);
    WalkFacts(world, None, {}, [], 0);
    NoneReported(world);
    while true
      invariant Walking(world, before, excluded, changes, transferred) && seen == Numbers(changes)
      invariant Reported(world, before, excluded)
      invariant |trace| == request && Collects(world, trace, changes, transferred)
      decreases if before.None? then 1 else 0, if before.Some? then before.value else 0, MAX_QUERY_BYTES - |excluded|
    {
      WalkFacts(world, before, excluded, changes, transferred);
      last, crowd := before, excluded;
      if Static(world) && Roomy(world(0), baseBytes) { NeverCrowded(world, before, excluded, baseBytes); }
      var bytes := ExclusionBytes(excluded);
      if before.Some? { bytes := bytes + BOUNDARY_BYTES; }
      if baseBytes + bytes > MAX_QUERY_BYTES { return Err(BoundaryTooCrowded), transferred, trace, last, crowd; }
      assert |excluded| <= MAX_QUERY_BYTES;
      var page := Answer(world(request), before, excluded, pageSize);
      if page.items == [] {
        WalkEnd(world, request, before, excluded, changes, transferred, page);
        return Ok(changes), transferred, trace, last, crowd;
      }
      ReportedNext(world, request, before, excluded, page);
      WalkStep(world, request, before, excluded, changes, transferred, page);
      CollectsNext(world, trace, changes, transferred, Exchange(before, excluded, page));
      trace := trace + [Exchange(before, excluded, page)];
      changes, seen := Record(changes, seen, page.items);
      transferred := transferred + |page.items|;
      request := request + 1;
      if !page.more { return Ok(changes), transferred, trace, last, crowd; }
      var boundary := SearchBoundary(page.items[|page.items| - 1].updated);
      BoundaryFalls(world(request - 1), before, excluded, page);
      ExcludedGrows(before, excluded, page.items, boundary);
      if before != Some(boundary) {
        before, excluded := Some(boundary), {};
      }
      excluded := excluded + AtBoundary(page.items, boundary);
    }
  }

  lemma NoneReported(world: nat -> Changes)
    ensures Reported(world, None, {})
  {
  }

  lemma WalkFacts(world: nat -> Changes, before: Option<nat>, excluded: set<nat>, changes: seq<Item>, transferred: nat)
    requires Walking(world, before, excluded, changes, transferred)
    ensures Distinct(changes) && (changes == [] ==> Numbers(changes) == {})
  {
  }

  lemma ExcludedGrows(before: Option<nat>, excluded: set<nat>, items: seq<Item>, boundary: nat)
    ensures NextExcluded(before, excluded, items, boundary)
         == (if before == Some(boundary) then excluded else {}) + AtBoundary(items, boundary)
    ensures (exists number :: number !in excluded && number in AtBoundary(items, boundary)) ==>
      |excluded + AtBoundary(items, boundary)| > |excluded|
  {
    if number :| number !in excluded && number in AtBoundary(items, boundary) {
      SubsetSize(excluded + {number}, excluded + AtBoundary(items, boundary));
    }
  }
}
