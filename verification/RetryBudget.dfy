/** The attempts of one stage within one retry epoch, as the gate in front of a REVIEW attempt reads
    them (`_can_start_attempt` of service.py, the attempt queries of jobs/store.py).  Provider failures
    are not charged to the review budget; a separate limit on their trailing streak bounds them. */
module RetryBudget {
  import opened JobRows

  function CountCharged(outcomes: seq<Outcome>): nat {
    if outcomes == [] then 0
    else CountCharged(outcomes[..|outcomes| - 1]) + if Charged(outcomes[|outcomes| - 1]) then 1 else 0
  }

  // ---- The stored count -------------------------------------------------------------------

  /** The stored count of consumed attempts is a count over the epoch's outcomes. */
  lemma {:induction false} ConsumedIsCounted(attempts: seq<Attempt>, from: nat, stage: Stage)
    ensures |ConsumedSince(attempts, from, stage)| == CountCharged(Outcomes(attempts, from, stage))
    decreases |attempts|
  {
    hide *;
    if |attempts| <= from {
      NoneConsumed(attempts, from, stage);
    } else {
      var front, last := attempts[..|attempts| - 1], attempts[|attempts| - 1];
      ConsumedIsCounted(front, from, stage);
      assert attempts == front + [last];
      OutcomesLast(front, last, from, stage);
      ChargedLast(Outcomes(front, from, stage), last.outcome);
      ConsumedLast(front, last, from, stage);
    }
  }

  lemma NoneConsumed(attempts: seq<Attempt>, from: nat, stage: Stage)
    requires |attempts| <= from
    ensures |ConsumedSince(attempts, from, stage)| == 0 == CountCharged(Outcomes(attempts, from, stage))
  {
    assert ConsumedSince(attempts, from, stage) == {};
  }

  lemma ConsumedLast(front: seq<Attempt>, last: Attempt, from: nat, stage: Stage)
    requires from <= |front|
    ensures |ConsumedSince(front + [last], from, stage)|
         == |ConsumedSince(front, from, stage)| + if last.stage == stage && Charged(last.outcome) then 1 else 0
  {
    var all, before := ConsumedSince(front + [last], from, stage), ConsumedSince(front, from, stage);
    var added: set<nat> := if last.stage == stage && Consumed(last) then {|front|} else {};
    forall a: nat ensures a in all <==> a in before || a in added {
      if a < |front| { assert (front + [last])[a] == front[a]; }
    }
    assert all == before + added;
  }

  lemma ChargedLast(outcomes: seq<Outcome>, last: Outcome)
    ensures CountCharged(outcomes + [last]) == CountCharged(outcomes) + if Charged(last) then 1 else 0
    ensures outcomes + [] == outcomes
  {
    assert (outcomes + [last])[..|outcomes|] == outcomes;
  }

  // ---- Starting and finishing attempts ----------------------------------------------------

  /** Starting an attempt appends its outcome to those of its stage. */
  lemma OutcomesLast(attempts: seq<Attempt>, last: Attempt, from: nat, stage: Stage)
    requires from <= |attempts|
    ensures Outcomes(attempts + [last], from, stage)
         == Outcomes(attempts, from, stage) + if last.stage == stage then [last.outcome] else []
  {
    assert (attempts + [last])[..|attempts|] == attempts;
  }

  function Finished(attempts: seq<Attempt>, a: nat, outcome: Outcome): (after: seq<Attempt>)
    requires a < |attempts|
    ensures |after| == |attempts|
  {
    attempts[a := attempts[a].(outcome := outcome)]
  }

  /** The place of attempt `a` among the outcomes of its stage. */
  function Place(attempts: seq<Attempt>, from: nat, stage: Stage, a: nat): nat
    requires a < |attempts|
  {
    |Outcomes(attempts[..a], from, stage)|
  }

  /** No attempt of the stage was started after attempt `a`. */
  predicate IsLast(attempts: seq<Attempt>, stage: Stage, a: nat) {
    && a < |attempts| && attempts[a].stage == stage
    && forall later :: a < later < |attempts| ==> attempts[later].stage != stage
  }

  /** Finishing an attempt rewrites its own outcome, or nothing when it is of another stage or epoch. */
  lemma {:induction false} OutcomesFinished(attempts: seq<Attempt>, from: nat, stage: Stage, a: nat, outcome: Outcome)
    requires a < |attempts|
    ensures var was, now := Outcomes(attempts, from, stage), Outcomes(Finished(attempts, a, outcome), from, stage);
            var i := Place(attempts, from, stage, a);
            if attempts[a].stage == stage && a >= from
            then i < |was| && was[i] == attempts[a].outcome && now == was[i := outcome]
                 && (IsLast(attempts, stage, a) <==> i == |was| - 1)
            else now == was
    decreases |attempts|
  {
    var front, last, after := attempts[..|attempts| - 1], attempts[|attempts| - 1], Finished(attempts, a, outcome);
    if a < |front| {
      assert after[..|front|] == Finished(front, a, outcome);
      assert front[..a] == attempts[..a];
      OutcomesFinished(front, from, stage, a, outcome);
    } else {
      assert after[..|front|] == front == attempts[..a];
    }
  }

  /** The end of an unfinished attempt keeps its charge or takes it back, and can only join streaks. */
  lemma {:induction false} EndCounts(outcomes: seq<Outcome>, i: nat, outcome: Outcome)
    requires i < |outcomes| && outcomes[i].Unfinished?
    ensures var after := outcomes[i := outcome];
            && CountCharged(after) + (if Charged(outcome) then 0 else 1) == CountCharged(outcomes)
            && Streak(outcomes) <= Streak(after)
    decreases |outcomes|
  {
    var front := outcomes[..|outcomes| - 1];
    var after := outcomes[i := outcome];
    if i < |front| {
      EndCounts(front, i, outcome);
      assert after[..|front|] == front[i := outcome];
    } else {
      assert after[..|front|] == front;
    }
  }

  // ---- The two limits together ------------------------------------------------------------

  function Min(a: int, b: int): int {
    if a < b then a else b
  }

  /** There are at most `providerAttempts` attempts for each charged one, plus the open streak, plus a credit for
      those whose charge was given back outside of their streak. */
  predicate Blocks(outcomes: seq<Outcome>, credit: nat, providerAttempts: nat) {
    |outcomes| <= CountCharged(outcomes) * providerAttempts + credit + Min(Streak(outcomes), providerAttempts - 1)
  }

  /** The attempts of an epoch: the newest one was let in when the older ones were in blocks and below the
      review budget. */
  predicate Admitted(outcomes: seq<Outcome>, credit: nat, reviewAttempts: nat, providerAttempts: nat) {
    outcomes != [] ==>
      var older := outcomes[..|outcomes| - 1];
      Blocks(older, credit, providerAttempts) && CountCharged(older) < reviewAttempts
  }

  /** A success ends a block without a charge, if it is not the end of the review. */
  function Owed(outcomes: seq<Outcome>): nat {
    if outcomes != [] && outcomes[|outcomes| - 1].Succeeded? then 1 else 0
  }

  /** The attempts that Owed stands for. */
  function OwedAttempts(outcomes: seq<Outcome>, providerAttempts: nat): nat {
    if Owed(outcomes) == 1 then providerAttempts else 0
  }

  /** How many attempts a late provider failure can let start: it gives its charge back to a whole block, but with
      one review attempt only the newest attempt can be under way, and its failure joins the streak. */
  function LatePrice(reviewAttempts: nat, providerAttempts: nat): nat {
    if reviewAttempts == 1 then 1 else providerAttempts
  }

  /** The gate's first read: an open streak means that another attempt completes no block too many. */
  lemma StreakAdmits(outcomes: seq<Outcome>, credit: nat, reviewAttempts: nat, providerAttempts: nat)
    requires providerAttempts >= 1 && Admitted(outcomes, credit, reviewAttempts, providerAttempts)
    requires Streak(outcomes) > 0 ==> Streak(outcomes) < providerAttempts
    ensures Blocks(outcomes, credit + OwedAttempts(outcomes, providerAttempts), providerAttempts)
  {
    if outcomes != [] {
      OneMore(CountCharged(outcomes[..|outcomes| - 1]), providerAttempts);
    }
  }

  lemma OneMore(n: nat, p: nat)
    ensures (n + 1) * p == n * p + p
  {
  }

  /** The gate's second read lets one more attempt in. */
  lemma BudgetAdmits(outcomes: seq<Outcome>, credit: nat, reviewAttempts: nat, providerAttempts: nat)
    requires Blocks(outcomes, credit, providerAttempts) && CountCharged(outcomes) < reviewAttempts
    ensures Admitted(outcomes + [Unfinished], credit, reviewAttempts, providerAttempts)
  {
    assert (outcomes + [Unfinished])[..|outcomes|] == outcomes;
  }

  /** An attempt that ends with its charge keeps blocks; one that takes it back pays for its block. */
  lemma EndKeepsBlocks(outcomes: seq<Outcome>, credit: nat, credit': nat, providerAttempts: nat, i: nat, outcome: Outcome)
    requires Blocks(outcomes, credit, providerAttempts) && providerAttempts >= 1
    requires i < |outcomes| && outcomes[i].Unfinished?
    requires credit' >= credit + if Charged(outcome) then 0 else providerAttempts
    ensures Blocks(outcomes[i := outcome], credit', providerAttempts)
    ensures CountCharged(outcomes[i := outcome]) <= CountCharged(outcomes)
  {
    EndCounts(outcomes, i, outcome);
    OneMore(CountCharged(outcomes[i := outcome]), providerAttempts);
  }

  lemma {:induction false} UnfinishedIsCharged(outcomes: seq<Outcome>, i: nat)
    requires i < |outcomes| && outcomes[i].Unfinished?
    ensures CountCharged(outcomes) >= 1
    decreases |outcomes|
  {
    if i < |outcomes| - 1 { UnfinishedIsCharged(outcomes[..|outcomes| - 1], i); }
  }

  /** The only attempt under way, with one review attempt: its late failure lengthens the streak by one. */
  lemma LastFailureKeepsBlocks(outcomes: seq<Outcome>, credit: nat, credit': nat, providerAttempts: nat, i: nat)
    requires Admitted(outcomes, credit, 1, providerAttempts) && providerAttempts >= 1
    requires i < |outcomes| && outcomes[i].Unfinished? && credit' >= credit + 1
    ensures Blocks(outcomes[i := Failed(true)], credit', providerAttempts)
    ensures CountCharged(outcomes[i := Failed(true)]) <= CountCharged(outcomes)
  {
    var older := outcomes[..|outcomes| - 1];
    if i < |older| { UnfinishedIsCharged(older, i); }
    assert outcomes[i := Failed(true)][..|older|] == older;
  }

  /** A failure that is finished late, behind the back of a worker at the gate. */
  lemma LateKeepsBlocks(outcomes: seq<Outcome>, credit: nat, credit': nat, reviewAttempts: nat, providerAttempts: nat,
                        i: nat)
    requires Admitted(outcomes, credit, reviewAttempts, providerAttempts) && providerAttempts >= 1
    requires Blocks(outcomes, credit + OwedAttempts(outcomes, providerAttempts), providerAttempts)
    requires i < |outcomes| && outcomes[i].Unfinished?
    requires credit' >= credit + LatePrice(reviewAttempts, providerAttempts)
    ensures var after := outcomes[i := Failed(true)];
            && Blocks(after, credit' + OwedAttempts(after, providerAttempts), providerAttempts)
            && CountCharged(after) <= CountCharged(outcomes)
  {
    hide Admitted, Blocks;
    var owed := OwedAttempts(outcomes, providerAttempts);
    if reviewAttempts == 1 {
      LastFailureKeepsBlocks(outcomes, credit, credit' + OwedAttempts(outcomes[i := Failed(true)], providerAttempts),
                             providerAttempts, i);
    } else {
      EndKeepsBlocks(outcomes, credit + owed, credit' + owed, providerAttempts, i, Failed(true));
    }
  }

  /** What any finish does to the attempts of an epoch: the newest attempt may end in any way; an older one that
      takes its charge back needs credit for its block, and with one review attempt there is no such one. */
  lemma FinishKeepsAdmitted(outcomes: seq<Outcome>, credit: nat, credit': nat, reviewAttempts: nat,
                            providerAttempts: nat, i: nat, outcome: Outcome)
    requires Admitted(outcomes, credit, reviewAttempts, providerAttempts) && providerAttempts >= 1
    requires i < |outcomes| && outcomes[i].Unfinished? && credit <= credit'
    requires i < |outcomes| - 1 && !Charged(outcome) && reviewAttempts != 1 ==> credit' >= credit + providerAttempts
    ensures Admitted(outcomes[i := outcome], credit', reviewAttempts, providerAttempts)
  {
    var older, after := outcomes[..|outcomes| - 1], outcomes[i := outcome];
    if i < |older| {
      assert after[..|older|] == older[i := outcome];
      UnfinishedIsCharged(older, i);
      EndKeepsBlocks(older, credit, credit', providerAttempts, i, outcome);
    } else {
      assert after[..|older|] == older;
    }
  }

  lemma Product(a: nat, b: nat, p: nat)
    requires a <= b
    ensures a * p <= b * p
  {
  }

  /** So many attempts fit into one epoch. */
  lemma AdmittedIsBounded(outcomes: seq<Outcome>, credit: nat, reviewAttempts: nat, providerAttempts: nat)
    requires providerAttempts >= 1 && Admitted(outcomes, credit, reviewAttempts, providerAttempts)
    ensures |outcomes| <= reviewAttempts * providerAttempts + credit
  {
    if outcomes != [] {
      var c := CountCharged(outcomes[..|outcomes| - 1]);
      Product(c + 1, reviewAttempts, providerAttempts);
      OneMore(c, providerAttempts);
    }
  }
}
