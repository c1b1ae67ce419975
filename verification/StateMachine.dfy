/** The durable job states and their transition table (jobs/state_machine.py). */
module StateMachine {
  import opened Wrappers

  datatype JobState =
    | Received | Fetching | Reviewing | Validating | ReadyToPublish | Publishing
    | RetryWait | FailedTransient
    | FailedPermanent | Superseded | SkippedScope | Done

  /** The four states of `TERMINAL_JOB_STATES`. */
  predicate IsTerminal(state: JobState) {
    state.FailedPermanent? || state.Superseded? || state.SkippedScope? || state.Done?
  }

  predicate IsReviewState(state: JobState) {
    state.Received? || state.Fetching? || state.Reviewing? || state.Validating?
  }

  predicate IsPublishState(state: JobState) {
    state.ReadyToPublish? || state.Publishing?
  }

  /** The states a job may be resumed in after RETRY_WAIT. */
  predicate ValidRetryTarget(state: JobState) {
    state.Fetching? || state.Reviewing? || state.Validating? || IsPublishState(state)
  }

  /** The table itself.  It has no row for SKIPPED_SCOPE, so a lookup there raises a KeyError. */
  function AllowedTransitions(current: JobState): Option<set<JobState>> {
    match current
    case Received => Some({Fetching, RetryWait, FailedTransient, FailedPermanent, Superseded})
    case Fetching => Some({Reviewing, RetryWait, FailedTransient, FailedPermanent, Superseded})
    case Reviewing => Some({Validating, RetryWait, FailedTransient, FailedPermanent, Superseded})
    case Validating => Some({ReadyToPublish, RetryWait, FailedTransient, FailedPermanent, Superseded})
    case ReadyToPublish => Some({Publishing, RetryWait, FailedTransient, FailedPermanent, Superseded})
    case Publishing => Some({Done, ReadyToPublish, RetryWait, FailedTransient, FailedPermanent, Superseded})
    case RetryWait =>
      Some({Fetching, Reviewing, Validating, ReadyToPublish, Publishing, FailedPermanent, Superseded})
    case FailedTransient =>
      Some({RetryWait, Fetching, Reviewing, Validating, ReadyToPublish, Publishing, FailedPermanent, Superseded})
    case FailedPermanent => Some({})
    case Superseded => Some({})
    case Done => Some({})
    case SkippedScope => None
  }

  datatype TransitionCheck = Allowed | Refused | MissingRow

  /** `can_transition`, with the KeyError of a missing row made a value. */
  function CheckTransition(current: JobState, target: JobState): TransitionCheck {
    if current == target then Allowed
    else match AllowedTransitions(current)
         case None => MissingRow
         case Some(targets) => if target in targets then Allowed else Refused
  }

  /** How far the work on a job has come, for the states in which somebody works on it. */
  function Rank(state: JobState): int {
    match state
    case Received => 0
    case Fetching => 1
    case Reviewing => 2
    case Validating => 3
    case ReadyToPublish => 4
    case Publishing => 5
    case _ => -1
  }

  /** The moves of the table: work goes forward one state at a time, and back only out of an attempt to publish; it is
      done only by publishing; every unfinished job can be parked, failed or superseded, except that a parked one is
      not parked again; and a parked job goes on anywhere but at the start. */
  lemma TableMeans(current: JobState, target: JobState)
    requires current != target
    ensures CheckTransition(current, target).Allowed? <==>
      || (Rank(current) >= 0 && Rank(target) == Rank(current) + 1)
      || (current.Publishing? && (target.Done? || target.ReadyToPublish?))
      || ((Rank(current) >= 0 || current.FailedTransient?) && target.RetryWait?)
      || (Rank(current) >= 0 && target.FailedTransient?)
      || ((current.RetryWait? || current.FailedTransient?) && Rank(target) > 0)
      || ((Rank(current) >= 0 || current.RetryWait? || current.FailedTransient?)
          && (target.FailedPermanent? || target.Superseded?))
    ensures CheckTransition(current, target).MissingRow? <==> current.SkippedScope?
  {
  }

  /** The classes of states agree with the table: exactly the terminal ones have no way out, and a job can be resumed
      exactly where a parked one may go on to work. */
  lemma ClassesFitTable(state: JobState)
    ensures IsTerminal(state) <==> forall target :: target != state ==> !CheckTransition(state, target).Allowed?
    ensures ValidRetryTarget(state) <==> CheckTransition(RetryWait, state).Allowed? && Rank(state) >= 0
    ensures IsReviewState(state) <==> 0 <= Rank(state) < Rank(ReadyToPublish)
    ensures IsPublishState(state) <==> Rank(state) >= Rank(ReadyToPublish)
  {
    if !IsTerminal(state) {
      assert state != Superseded && CheckTransition(state, Superseded).Allowed?;
    }
  }
}
