/** The lifecycle of one sequence, and the token budget it runs under. */
module Lifecycle {

  /** `Unnamed` stands for a snapshot byte that is not one of the named states. */
  datatype SequenceState =
    | Admitted | Waiting | Ready | Grouped | Reserved | Dispatched | Running | StepCompleted
    | ReadyForNextToken | Yielded | Paused | CancelRequested | Cancelled | DeadlineExpired
    | RetryableFailure | NonRetryableFailure | Retrying | Completed | StaleSuperseded
    | Unnamed(code: nat)

  predicate Terminal(s: SequenceState) {
    s.Cancelled? || s.DeadlineExpired? || s.NonRetryableFailure? || s.Completed? || s.StaleSuperseded?
  }

  /** Ended, or about to be. */
  predicate Stopped(s: SequenceState) {
    s.CancelRequested? || Terminal(s)
  }

  /** The states from which the scheduler picks work. */
  predicate Candidate(s: SequenceState) {
    s.Waiting? || s.Ready? || s.ReadyForNextToken? || s.Yielded?
  }

  /** The states a caller may ask a new attempt for. */
  predicate Retryable(s: SequenceState) {
    s.RetryableFailure? || s.Running? || s.Dispatched?
  }

  predicate CanTransition(from: SequenceState, to: SequenceState) {
    from != to && !Terminal(from) &&
    match from
    case Admitted => to.Waiting? || to.Cancelled? || to.DeadlineExpired?
    case Waiting => to.Ready? || to.Paused? || to.Cancelled? || to.DeadlineExpired?
    case Ready =>
      to.Grouped? || to.Waiting? || to.Yielded? || to.Paused? || to.Cancelled? || to.DeadlineExpired?
    case ReadyForNextToken =>
      to.Grouped? || to.Waiting? || to.Yielded? || to.Paused? || to.Cancelled? || to.DeadlineExpired?
    case Grouped => to.Reserved? || to.Ready? || to.Waiting? || to.Cancelled? || to.DeadlineExpired?
    case Reserved => to.Dispatched? || to.Ready? || to.Waiting? || to.Cancelled? || to.DeadlineExpired?
    case Dispatched =>
      to.Running? || to.StepCompleted? || to.CancelRequested? || to.Cancelled? || to.DeadlineExpired?
      || to.StaleSuperseded? || to.RetryableFailure? || to.NonRetryableFailure? || to.Retrying?
    case Running =>
      to.StepCompleted? || to.Completed? || to.NonRetryableFailure? || to.RetryableFailure?
      || to.Retrying? || to.Cancelled? || to.DeadlineExpired? || to.StaleSuperseded?
    case StepCompleted =>
      to.ReadyForNextToken? || to.Completed? || to.Cancelled? || to.DeadlineExpired?
      || to.NonRetryableFailure? || to.RetryableFailure? || to.Retrying? || to.StaleSuperseded?
      || to.Waiting?
    case Yielded => to.Ready? || to.Waiting? || to.Paused? || to.Cancelled? || to.DeadlineExpired?
    case Paused => to.Ready? || to.Waiting? || to.Cancelled? || to.DeadlineExpired?
    case CancelRequested => to.Cancelled? || to.DeadlineExpired? || to.Completed?
    case RetryableFailure => to.Retrying?
    case Retrying => to.Ready? || to.Cancelled? || to.DeadlineExpired?
    case _ => false
  }

  /** The table the other way round: from where each state can be reached. */
  lemma ReachedExactly(from: SequenceState, to: SequenceState)
    ensures CanTransition(from, to) <==>
      match to
      case Admitted => false
      case Waiting => from in {Admitted, Ready, ReadyForNextToken, Grouped, Reserved, StepCompleted, Yielded, Paused}
      case Ready => from in {Waiting, Grouped, Reserved, Yielded, Paused, Retrying}
      case Grouped => from in {Ready, ReadyForNextToken}
      case Reserved => from == Grouped
      case Dispatched => from == Reserved
      case Running => from == Dispatched
      case StepCompleted => from in {Dispatched, Running}
      case ReadyForNextToken => from == StepCompleted
      case Yielded => from in {Ready, ReadyForNextToken}
      case Paused => from in {Waiting, Ready, ReadyForNextToken, Yielded}
      case CancelRequested => from == Dispatched
      case Cancelled => !Terminal(from) && from != RetryableFailure && !from.Unnamed?
      case DeadlineExpired => !Terminal(from) && from != RetryableFailure && !from.Unnamed?
      case RetryableFailure => from in {Dispatched, Running, StepCompleted}
      case NonRetryableFailure => from in {Dispatched, Running, StepCompleted}
      case Retrying => from in {Dispatched, Running, StepCompleted, RetryableFailure}
      case Completed => from in {Running, StepCompleted, CancelRequested}
      case StaleSuperseded => from in {Dispatched, Running, StepCompleted}
      case Unnamed(_) => false
  {
  }

  /** A refused transition leaves the state where it is; no caller looks at the refusal. */
  function Move(from: SequenceState, to: SequenceState): SequenceState {
    if CanTransition(from, to) then to else from
  }

  /** A stopped sequence stays stopped, and only an end can move it. */
  lemma StoppedMoves(from: SequenceState, to: SequenceState)
    requires Stopped(from)
    ensures Stopped(Move(from, to)) && (!Terminal(to) ==> Move(from, to) == from)
  {
  }

  /** After an attempt to end it, a sequence neither waits for a cancellation nor can still expire. */
  lemma EndMoves(from: SequenceState)
    ensures !Move(from, DeadlineExpired).CancelRequested?
      && !CanTransition(Move(from, DeadlineExpired), DeadlineExpired)
    ensures from.CancelRequested? ==> Move(from, Cancelled) == Cancelled
    ensures Terminal(from) ==> !CanTransition(from, DeadlineExpired)
  {
  }

  function MoveThrough(from: SequenceState, via: SequenceState, to: SequenceState): SequenceState {
    Move(Move(from, via), to)
  }

  /** The states a cancellation passes by, although it is reported as accepted. */
  predicate DeafToCancel(s: SequenceState) {
    s.Grouped? || s.Reserved? || s.Running? || s.RetryableFailure? || s.Unnamed?
  }

  lemma CancelMoves(s: SequenceState)
    requires !Stopped(s)
    ensures s.Dispatched? || s.Running? || s.Reserved? || s.Grouped? ==>
      (Stopped(Move(s, CancelRequested)) <==> !DeafToCancel(s))
    ensures !(s.Dispatched? || s.Running? || s.Reserved? || s.Grouped?) ==>
      (Stopped(Move(s, Cancelled)) <==> !DeafToCancel(s))
  {
  }

  /** How many tokens may still be generated. */
  datatype TokenBudget = TokenBudget(max: nat, generated: nat) {
    function Remaining(): nat {
      if generated >= max then 0 else max - generated
    }
    predicate Exhausted() {
      generated >= max
    }
    /** Advancing past the maximum is refused and changes nothing. */
    function Advance(n: nat): TokenBudget {
      if generated + n > max then this else this.(generated := generated + n)
    }
  }

  /** The budget after `n` single-token advances, as recovery rebuilds it. */
  function AdvancedBy(b: TokenBudget, n: nat): TokenBudget {
    if n == 0 then b else AdvancedBy(b, n - 1).Advance(1)
  }

  lemma {:induction false} AdvancedBySaturates(b: TokenBudget, n: nat)
    requires b.generated <= b.max
    ensures AdvancedBy(b, n) == b.(generated := if b.generated + n <= b.max then b.generated + n else b.max)
  {
    if n > 0 {
      AdvancedBySaturates(b, n - 1);
    }
  }
}
