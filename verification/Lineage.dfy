/** Finding lineage across the Patch Sets of one change (review/lineage.py, `load_finding_history` of
    jobs/store.py).  A finding is its semantic id; its text plays no role in the lineage. */
module Lineage {
  import opened Wrappers

  type Id = nat

  datatype Tag = New | Persisting | Reopened

  /** `previous` are the findings of the baseline, in order; `seen` every id of an earlier DONE review. */
  datatype History = History(previous: seq<Id>, seen: set<Id>)

  datatype Reconciliation = Reconciliation(
    tags: seq<Tag>,
    resolved: seq<Id>,
    newCount: nat,
    persistingCount: nat,
    reopenedCount: nat)

  function Ids(findings: seq<Id>): set<Id> {
    set id | id in findings
  }

  function TagOf(id: Id, history: History): Tag {
    if id in history.previous then Persisting
    else if id in history.seen then Reopened
    else New
  }

  function Tags(findings: seq<Id>, history: History): (tags: seq<Tag>)
    ensures |tags| == |findings|
    ensures forall i :: 0 <= i < |findings| ==> tags[i] == TagOf(findings[i], history)
  {
    seq(|findings|, i requires 0 <= i < |findings| => TagOf(findings[i], history))
  }

  function Count(tags: seq<Tag>, tag: Tag): nat {
    if tags == [] then 0 else Count(tags[..|tags| - 1], tag) + if tags[|tags| - 1] == tag then 1 else 0
  }

  /** The keys of a dictionary filled in this order. */
  function FirstOccurrences(ids: seq<Id>): seq<Id> {
    if ids == [] then []
    else
      var front := FirstOccurrences(ids[..|ids| - 1]);
      if ids[|ids| - 1] in front then front else front + [ids[|ids| - 1]]
  }

  function Without(ids: seq<Id>, gone: set<Id>): seq<Id> {
    if ids == [] then []
    else Without(ids[..|ids| - 1], gone) + if ids[|ids| - 1] in gone then [] else [ids[|ids| - 1]]
  }

  function Resolved(findings: seq<Id>, history: History, complete: bool): seq<Id> {
    if complete then Without(FirstOccurrences(history.previous), Ids(findings)) else []
  }

  lemma NothingTagged(findings: seq<Id>, history: History)
    ensures Tags(findings[..0], history) == [] && Ids(findings[..0]) == {}
    ensures forall tag :: Count([], tag) == 0
  {
  }

  lemma TagAdded(findings: seq<Id>, i: nat, history: History)
    requires i < |findings|
    ensures Tags(findings[..i + 1], history) == Tags(findings[..i], history) + [TagOf(findings[i], history)]
    ensures Ids(findings[..i + 1]) == Ids(findings[..i]) + {findings[i]}
  {
    assert findings[..i + 1] == findings[..i] + [findings[i]];
  }

  lemma CountAdded(tags: seq<Tag>, last: Tag)
    ensures forall tag :: Count(tags + [last], tag) == Count(tags, tag) + if tag == last then 1 else 0
  {
    assert (tags + [last])[..|tags|] == tags;
  }

  method Reconcile(findings: seq<Id>, history: History, complete: bool) returns (r: Reconciliation)
    ensures r.tags == Tags(findings, history) && r.resolved == Resolved(findings, history, complete)
    ensures r.newCount == Count(r.tags, New) && r.persistingCount == Count(r.tags, Persisting)
    ensures r.reopenedCount == Count(r.tags, Reopened)
  {
    hide Tags, Ids, Count, FirstOccurrences, Without;
    NothingListed(history.previous, {});
    var previousIds: seq<Id> := [];
    for i := 0 to |history.previous|
      invariant previousIds == FirstOccurrences(history.previous[..i])
    {
      OccurrenceAdded(history.previous, i);
      if history.previous[i] !in previousIds { previousIds := previousIds + [history.previous[i]]; }
    }
    assert history.previous[..|history.previous|] == history.previous;
    SameIds(history.previous);
    var currentIds: set<Id>, tags: seq<Tag> := {}, [];
    NothingTagged(findings, history);
    var newCount, persisting, reopened := 0, 0, 0;
    for i := 0 to |findings|
      invariant currentIds == Ids(findings[..i]) && tags == Tags(findings[..i], history)
      invariant newCount == Count(tags, New) && persisting == Count(tags, Persisting) && reopened == Count(tags, Reopened)
    {
      var id := findings[i];
      currentIds := currentIds + {id};
      TagAdded(findings, i, history);
      CountAdded(tags, TagOf(id, history));
      if id in previousIds {
        tags := tags + [Persisting];
        persisting := persisting + 1;
      } else if id in history.seen {
        tags := tags + [Reopened];
        reopened := reopened + 1;
      } else {
        tags := tags + [New];
        newCount := newCount + 1;
      }
    }
    assert findings[..|findings|] == findings;
    var resolved: seq<Id> := [];
    if complete {
      NothingListed(previousIds, currentIds);
      for i := 0 to |previousIds|
        invariant resolved == Without(previousIds[..i], currentIds)
      {
        WithoutAdded(previousIds, i, currentIds);
        if previousIds[i] !in currentIds { resolved := resolved + [previousIds[i]]; }
      }
      assert previousIds[..|previousIds|] == previousIds;
    }
    r := Reconciliation(tags, resolved, newCount, persisting, reopened);
  }

  lemma NothingListed(ids: seq<Id>, gone: set<Id>)
    ensures FirstOccurrences(ids[..0]) == [] && Without(ids[..0], gone) == []
  {
  }

  lemma OccurrenceAdded(ids: seq<Id>, i: nat)
    requires i < |ids|
    ensures FirstOccurrences(ids[..i + 1]) == FirstOccurrences(ids[..i])
                                              + if ids[i] in FirstOccurrences(ids[..i]) then [] else [ids[i]]
  {
    assert ids[..i + 1][..i] == ids[..i];
  }

  lemma WithoutAdded(ids: seq<Id>, i: nat, gone: set<Id>)
    requires i < |ids|
    ensures Without(ids[..i + 1], gone) == Without(ids[..i], gone) + if ids[i] in gone then [] else [ids[i]]
  {
    assert ids[..i + 1][..i] == ids[..i];
  }

  lemma SameIds(ids: seq<Id>)
    ensures forall id :: id in FirstOccurrences(ids) <==> id in ids
  {
    FirstOccurrencesKeep(ids);
  }

  /** Where an id stands first. */
  function FirstIndex(ids: seq<Id>, id: Id): (i: nat)
    requires id in ids
    ensures i < |ids| && ids[i] == id && forall k :: 0 <= k < i ==> ids[k] != id
    decreases |ids|
  {
    if ids[0] == id then 0
    else
      assert ids == [ids[0]] + ids[1..];
      1 + FirstIndex(ids[1..], id)
  }

  /** `part` names ids of the list by their first places, from the front to the back. */
  predicate InOrder(ids: seq<Id>, part: seq<Id>) {
    && (forall i :: 0 <= i < |part| ==> part[i] in ids)
    && forall i, j :: 0 <= i < j < |part| ==> FirstIndex(ids, part[i]) < FirstIndex(ids, part[j])
  }

  lemma InOrderGrows(ids: seq<Id>, last: Id, part: seq<Id>)
    requires InOrder(ids, part)
    ensures InOrder(ids + [last], part)
    ensures last !in ids ==> InOrder(ids + [last], part + [last])
  {
    var all := ids + [last];
    forall i | 0 <= i < |part| ensures part[i] in all && FirstIndex(all, part[i]) == FirstIndex(ids, part[i]) {
      assert all[FirstIndex(ids, part[i])] == part[i];
    }
    if last !in ids { assert all[|ids|] == last; }
  }

  lemma {:induction false} FirstOccurrencesKeep(ids: seq<Id>)
    ensures forall id :: id in FirstOccurrences(ids) <==> id in ids
    ensures forall i, j :: 0 <= i < j < |FirstOccurrences(ids)| ==> FirstOccurrences(ids)[i] != FirstOccurrences(ids)[j]
    ensures InOrder(ids, FirstOccurrences(ids))
    decreases |ids|
  {
    if ids != [] {
      FirstOccurrencesKeep(ids[..|ids| - 1]);
      assert ids == ids[..|ids| - 1] + [ids[|ids| - 1]];
      InOrderGrows(ids[..|ids| - 1], ids[|ids| - 1], FirstOccurrences(ids[..|ids| - 1]));
    }
  }

  lemma {:induction false} WithoutKeeps(ids: seq<Id>, gone: set<Id>)
    ensures forall id :: id in Without(ids, gone) <==> id in ids && id !in gone
    decreases |ids|
  {
    if ids != [] {
      WithoutKeeps(ids[..|ids| - 1], gone);
      assert ids == ids[..|ids| - 1] + [ids[|ids| - 1]];
    }
  }

  lemma {:induction false} WithoutInOrder(all: seq<Id>, ids: seq<Id>, gone: set<Id>)
    requires InOrder(all, ids)
    ensures InOrder(all, Without(ids, gone))
    decreases |ids|
  {
    if ids != [] {
      var front, last := ids[..|ids| - 1], ids[|ids| - 1];
      WithoutInOrder(all, front, gone);
      WithoutKeeps(front, gone);
      forall i | 0 <= i < |Without(front, gone)| ensures FirstIndex(all, Without(front, gone)[i]) < FirstIndex(all, last) {
        assert Without(front, gone)[i] in front;
      }
    }
  }

  /** The resolved findings are exactly those of the baseline that a complete review no longer reports, each once, in
      the order of the baseline. */
  lemma ResolvedAre(findings: seq<Id>, history: History, complete: bool)
    ensures var resolved := Resolved(findings, history, complete);
            && InOrder(history.previous, resolved)
            && forall id :: id in resolved <==> complete && id in history.previous && id !in findings
  {
    FirstOccurrencesKeep(history.previous);
    WithoutKeeps(FirstOccurrences(history.previous), Ids(findings));
    WithoutInOrder(history.previous, FirstOccurrences(history.previous), Ids(findings));
  }

  lemma {:induction false} CountIs(tags: seq<Tag>, tag: Tag)
    ensures Count(tags, tag) == multiset(tags)[tag]
    ensures Count(tags, New) + Count(tags, Persisting) + Count(tags, Reopened) == |tags|
    decreases |tags|
  {
    if tags != [] {
      CountIs(tags[..|tags| - 1], tag);
      assert tags == tags[..|tags| - 1] + [tags[|tags| - 1]];
    }
  }

  /** The ids of the findings with one tag. */
  function Tagged(findings: seq<Id>, tags: seq<Tag>, tag: Tag): set<Id>
    requires |findings| == |tags|
  {
    set i | 0 <= i < |findings| && tags[i] == tag :: findings[i]
  }

  /** A complete review splits the baseline exactly into persisting and resolved ids; a partial one
      resolves nothing. */
  lemma BaselineSplits(findings: seq<Id>, history: History, complete: bool)
    ensures var persisting := Tagged(findings, Tags(findings, history), Persisting);
            var resolved := Ids(Resolved(findings, history, complete));
            && persisting !! resolved
            && (complete ==> persisting + resolved == Ids(history.previous))
            && (!complete ==> resolved == {})
  {
    var tags := Tags(findings, history);
    var persisting, resolved := Tagged(findings, tags, Persisting), Ids(Resolved(findings, history, complete));
    FirstOccurrencesKeep(history.previous);
    WithoutKeeps(FirstOccurrences(history.previous), Ids(findings));
    forall id | id in persisting ensures id in findings && id in history.previous {
      var i :| 0 <= i < |findings| && tags[i] == Persisting && findings[i] == id;
    }
    forall id | id in findings && id in history.previous ensures id in persisting {
      var i :| 0 <= i < |findings| && findings[i] == id;
      assert tags[i] == Persisting;
    }
  }

  // ---- Histories over the Patch Sets ------------------------------------------------------

  /** One review per Patch Set, in Patch Set order.  `lineageComplete` is the stored metadata flag, which
      may be missing. */
  datatype Review = Review(done: bool, lineageComplete: Option<bool>, findings: seq<Id>, tags: seq<Tag>)

  predicate IsBaseline(review: Review) {
    review.done && review.lineageComplete != Some(false)
  }

  function Seen(reviews: seq<Review>): set<Id> {
    if reviews == [] then {}
    else
      var last := reviews[|reviews| - 1];
      Seen(reviews[..|reviews| - 1]) + if last.done then Ids(last.findings) else {}
  }

  function Baseline(reviews: seq<Review>): Option<nat> {
    if reviews == [] then None
    else if IsBaseline(reviews[|reviews| - 1]) then Some(|reviews| - 1)
    else Baseline(reviews[..|reviews| - 1])
  }

  /** `load_finding_history` for the Patch Set that follows the given reviews. */
  function LoadHistory(reviews: seq<Review>): History {
    BaselineIsLatest(reviews);
    match Baseline(reviews)
    case None => History([], Seen(reviews))
    case Some(b) => History(reviews[b].findings, Seen(reviews))
  }

  /** The baseline is the latest DONE review that is not partial. */
  lemma {:induction false} BaselineIsLatest(reviews: seq<Review>)
    ensures Baseline(reviews).Some? ==>
      Baseline(reviews).value < |reviews| && IsBaseline(reviews[Baseline(reviews).value])
    ensures forall i :: 0 <= i < |reviews| && IsBaseline(reviews[i]) ==>
      Baseline(reviews).Some? && i <= Baseline(reviews).value
    decreases |reviews|
  {
    if reviews != [] && !IsBaseline(reviews[|reviews| - 1]) {
      var front := reviews[..|reviews| - 1];
      BaselineIsLatest(front);
      assert forall i :: 0 <= i < |front| ==> front[i] == reviews[i];
    }
  }

  /** Some DONE review has the finding. */
  predicate Reported(reviews: seq<Review>, id: Id) {
    exists i :: 0 <= i < |reviews| && reviews[i].done && id in reviews[i].findings
  }

  lemma {:induction false} SeenHolds(reviews: seq<Review>)
    ensures forall id :: id in Seen(reviews) <==> Reported(reviews, id)
    decreases |reviews|
  {
    if reviews != [] {
      var front, last := reviews[..|reviews| - 1], reviews[|reviews| - 1];
      SeenHolds(front);
      forall id ensures id in Seen(reviews) <==> Reported(reviews, id) {
        if id in Seen(front) {
          var i :| 0 <= i < |front| && front[i].done && id in front[i].findings;
          assert reviews[i] == front[i];
        }
        if i :| 0 <= i < |reviews| && reviews[i].done && id in reviews[i].findings {
          if i < |front| { assert front[i] == reviews[i]; }
        }
      }
    }
  }

  /** Every DONE review was tagged against the history that the Patch Sets below it end with.
      `ProtocolHistory.HistoryIsFinal` says when the history that was loaded is that one. */
  predicate TaggedInOrder(reviews: seq<Review>) {
    forall p :: 0 <= p < |reviews| && reviews[p].done ==>
      reviews[p].tags == Tags(reviews[p].findings, LoadHistory(reviews[..p]))
  }

  predicate IsNewIn(reviews: seq<Review>, p: nat, id: Id) {
    && p < |reviews| && reviews[p].done && |reviews[p].tags| == |reviews[p].findings|
    && id in Tagged(reviews[p].findings, reviews[p].tags, New)
  }

  lemma TagsInReview(reviews: seq<Review>, p: nat, id: Id)
    requires TaggedInOrder(reviews) && p < |reviews| && reviews[p].done && id in reviews[p].findings
    ensures IsNewIn(reviews, p, id) <==> TagOf(id, LoadHistory(reviews[..p])) == New
  {
    var i :| 0 <= i < |reviews[p].findings| && reviews[p].findings[i] == id;
    assert reviews[p].tags[i] == TagOf(id, LoadHistory(reviews[..p]));
    if IsNewIn(reviews, p, id) {
      var k :| 0 <= k < |reviews[p].findings| && reviews[p].tags[k] == New && reviews[p].findings[k] == id;
    }
  }

  lemma UnseenIsNew(reviews: seq<Review>, id: Id)
    ensures TagOf(id, LoadHistory(reviews)) == New
       <==> forall i :: 0 <= i < |reviews| && reviews[i].done ==> id !in reviews[i].findings
  {
    SeenHolds(reviews);
    BaselineIsLatest(reviews);
  }

  /** What the tags of a chain mean, in terms of the reviews below: PERSISTING is in the latest DONE review that is not
      partial, NEW in no DONE review at all, and REOPENED in some DONE review but not in that one. */
  lemma TagsMean(reviews: seq<Review>, p: nat, i: nat)
    requires TaggedInOrder(reviews) && p < |reviews| && reviews[p].done && i < |reviews[p].findings|
    ensures |reviews[p].tags| == |reviews[p].findings|
    ensures var id := reviews[p].findings[i];
            var whole := set b | 0 <= b < p && reviews[b].done
                                 && (reviews[b].lineageComplete.None? || reviews[b].lineageComplete.value);
            var latest := exists b :: b in whole && id in reviews[b].findings && forall k :: k in whole ==> k <= b;
            var ever := exists b :: 0 <= b < p && reviews[b].done && id in reviews[b].findings;
            && (reviews[p].tags[i] == Persisting <==> latest)
            && (reviews[p].tags[i] == Reopened <==> ever && !latest)
            && (reviews[p].tags[i] == New <==> !ever)
  {
    var lower, id := reviews[..p], reviews[p].findings[i];
    BaselineIsLatest(lower);
    SeenHolds(lower);
    assert reviews[p].tags[i] == TagOf(id, LoadHistory(lower));
    assert forall b :: 0 <= b < p ==> lower[b] == reviews[b];
    var whole := set b | 0 <= b < p && reviews[b].done
                         && (reviews[b].lineageComplete.None? || reviews[b].lineageComplete.value);
    assert forall b :: 0 <= b < p ==> (b in whole <==> IsBaseline(lower[b]));
    if b :| b in whole && id in reviews[b].findings && forall k :: k in whole ==> k <= b {
      assert IsBaseline(lower[b]) && Baseline(lower) == Some(b);
    }
    if b :| 0 <= b < p && reviews[b].done && id in reviews[b].findings { assert lower[b].done && Reported(lower, id); }
    if Reported(lower, id) {
      var b :| 0 <= b < |lower| && lower[b].done && id in lower[b].findings;
      assert reviews[b].done && id in reviews[b].findings;
    }
  }

  /** An id is NEW in the first DONE Patch Set that reports it, and in no other. */
  lemma NewExactlyOnce(reviews: seq<Review>, q: nat, id: Id) returns (p: nat)
    requires TaggedInOrder(reviews) && q < |reviews| && reviews[q].done && id in reviews[q].findings
    ensures p <= q && IsNewIn(reviews, p, id)
    ensures forall other :: IsNewIn(reviews, other, id) ==> other == p
    ensures forall lower :: 0 <= lower < p && reviews[lower].done ==> id !in reviews[lower].findings
  {
    p := First(reviews, q, id);
    hide Tagged, Tags, LoadHistory;
    UnseenIsNew(reviews[..p], id);
    TagsInReview(reviews, p, id);
    forall other: nat | IsNewIn(reviews, other, id) ensures other == p {
      assert other > p ==> reviews[..other][p] == reviews[p];
      NewInFindings(reviews, other, id);
      TagsInReview(reviews, other, id);
      UnseenIsNew(reviews[..other], id);
    }
  }

  lemma NewInFindings(reviews: seq<Review>, p: nat, id: Id)
    requires IsNewIn(reviews, p, id)
    ensures id in reviews[p].findings
  {
  }

  lemma {:induction false} First(reviews: seq<Review>, q: nat, id: Id) returns (p: nat)
    requires q < |reviews| && reviews[q].done && id in reviews[q].findings
    ensures p <= q && reviews[p].done && id in reviews[p].findings
    ensures forall i :: 0 <= i < p && reviews[i].done ==> id !in reviews[i].findings
    decreases q
  {
    if i :| 0 <= i < q && reviews[i].done && id in reviews[i].findings {
      p := First(reviews, i, id);
    } else {
      p := q;
    }
  }

  /** `findings_for_inline_publication` */
  function Inline(findings: seq<Id>, tags: seq<Tag>): seq<Id>
    requires |findings| == |tags|
  {
    if findings == [] then []
    else (if tags[0] == Persisting then [] else [findings[0]]) + Inline(findings[1..], tags[1..])
  }

  lemma {:induction false} InlineOf(findings: seq<Id>, history: History, id: Id)
    ensures multiset(Inline(findings, Tags(findings, history)))[id]
         == if id in history.previous then 0 else multiset(findings)[id]
    decreases |findings|
  {
    if findings != [] {
      var first, rest, tags := findings[0], findings[1..], Tags(findings, history);
      InlineOf(rest, history, id);
      assert tags[1..] == Tags(rest, history);
      assert findings == [first] + rest;
      assert multiset(findings) == multiset{first} + multiset(rest);
    }
  }

  /** Inline comments are posted for exactly the findings that the baseline does not contain, each as often as it is
      reported. */
  lemma InlineAreNotInBaseline(findings: seq<Id>, history: History)
    ensures forall id :: id in Inline(findings, Tags(findings, history)) <==> id in findings && id !in history.previous
    ensures forall id :: multiset(Inline(findings, Tags(findings, history)))[id]
                         == if id in history.previous then 0 else multiset(findings)[id]
  {
    hide Inline, Tags;
    var inline := Inline(findings, Tags(findings, history));
    forall id
      ensures id in inline <==> id in findings && id !in history.previous
      ensures multiset(inline)[id] == if id in history.previous then 0 else multiset(findings)[id]
    {
      InlineOf(findings, history, id);
      assert id in inline <==> id in multiset(inline);
      assert id in findings <==> id in multiset(findings);
    }
  }
}
