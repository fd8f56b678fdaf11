/** The immutable record of one state change. */
module StateTransitions {

  import opened Wrappers
  import opened Clock
  import opened Text
  import opened EnrollmentStatus
  import opened EnrollmentErrors

  datatype StateTransition = StateTransition(
    fromState: EnrollmentState,
    actorId: string,
    toState: EnrollmentState,
    occurredAt: Instant,
    justification: Option<string>)

  function OccurredAtMissing(): DomainError {
    DomainError(Domain, "invalid_occurred_at", "occurred_at cannot be None", Some([("reasons", Null)]))
  }

  function ActorIdInvalid(actorId: string): DomainError {
    DomainError(Domain, "invalid_actor_id", "actor_id cannot be empty", Some([("reasons", Text(actorId))]))
  }

  function SelfTransition(s: EnrollmentState): DomainError {
    DomainError(Domain, "invalid_state_transition", "from_state and to_state cannot be the same",
                Some([("from_state", Text(Value(s))), ("to_state", Text(Value(s)))]))
  }

  /** `StateTransition(...)` with its `__post_init__` checks, in their order:
      a missing instant, then a blank actor, then a self-loop. The stored
      instant is already UTC, so it is kept as given. */
  function NewStateTransition(
    fromState: EnrollmentState,
    actorId: string,
    toState: EnrollmentState,
    occurredAt: Option<Instant>,
    justification: Option<string>): (r: Result<StateTransition, DomainError>)
    ensures r.Success? <==> occurredAt.Some? && !IsBlank(actorId) && fromState != toState
    ensures r.Success? ==> r.value == StateTransition(fromState, actorId, toState, occurredAt.value, justification)
    ensures occurredAt.None? ==> r == Failure(OccurredAtMissing())
    ensures occurredAt.Some? && IsBlank(actorId) ==> r == Failure(ActorIdInvalid(actorId))
    ensures occurredAt.Some? && !IsBlank(actorId) && fromState == toState ==> r == Failure(SelfTransition(fromState))
  {
    if occurredAt.None? then Failure(OccurredAtMissing())
    else if IsBlank(actorId) then Failure(ActorIdInvalid(actorId))
    else if fromState == toState then Failure(SelfTransition(fromState))
    else Success(StateTransition(fromState, actorId, toState, occurredAt.value, justification))
  }

  /** Every transition that can be built changes the state and names an actor. */
  predicate WellFormed(t: StateTransition) {
    t.fromState != t.toState && !IsBlank(t.actorId)
  }

  /** Building a transition from a well-formed one's own fields gives it back. */
  lemma RebuildWellFormed(t: StateTransition)
    requires WellFormed(t)
    ensures NewStateTransition(t.fromState, t.actorId, t.toState, Some(t.occurredAt), t.justification) == Success(t)
  {
  }
}
