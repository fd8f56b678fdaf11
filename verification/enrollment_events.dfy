/** Domain events: immutable records of a state change, one kind per command. */
module EnrollmentEvents {

  import opened Wrappers
  import opened Clock
  import opened EnrollmentStatus
  import opened EnrollmentErrors

  datatype EventKind = EnrollmentConcluded | EnrollmentCancelled | EnrollmentSuspended | EnrollmentReactivated

  function EventName(kind: EventKind): string {
    match kind
    case EnrollmentConcluded => "EnrollmentConcluded"
    case EnrollmentCancelled => "EnrollmentCancelled"
    case EnrollmentSuspended => "EnrollmentSuspended"
    case EnrollmentReactivated => "EnrollmentReactivated"
  }

  /** The state an event kind checks its `to_state` against. Reactivation
      events carry no such check. */
  function ExpectedState(kind: EventKind): Option<EnrollmentState> {
    match kind
    case EnrollmentConcluded => Some(Concluded)
    case EnrollmentCancelled => Some(Cancelled)
    case EnrollmentSuspended => Some(Suspended)
    case EnrollmentReactivated => None
  }

  /** The common fields of `DomainEvent` and the ones every subclass adds.
      `eventId` is the opaque uuid4 string. */
  datatype DomainEvent = DomainEvent(
    kind: EventKind,
    aggregateId: string,
    occurredAt: Instant,
    eventId: string,
    actorId: string,
    fromState: EnrollmentState,
    toState: EnrollmentState,
    justification: Option<string>)

  function WrongEventState(kind: EventKind, actual: EnrollmentState, expected: EnrollmentState): DomainError {
    DomainError(InvalidStateTransition, "invalid_event_state",
                "EnrollmentState event must have to_state=" + ExpectedLabel(expected),
                Some([("event", Text(EventName(kind))),
                      ("actual_state", Text(Value(actual))),
                      ("expected_state", Text(Value(expected)))]))
  }

  function ExpectedLabel(s: EnrollmentState): string {
    match s
    case Active => "ACTIVE"
    case Suspended => "SUSPENDED"
    case Concluded => "CONCLUDED"
    case Cancelled => "CANCELLED"
  }

  /** Building an event of `kind`: the `__post_init__` guard on `to_state`.
      `from_state` is not checked. */
  function NewEvent(
    kind: EventKind,
    aggregateId: string,
    occurredAt: Instant,
    eventId: string,
    actorId: string,
    fromState: EnrollmentState,
    toState: EnrollmentState,
    justification: Option<string>): (r: Result<DomainEvent, DomainError>)
    ensures r.Success? <==> ExpectedState(kind).None? || ExpectedState(kind) == Some(toState)
    ensures r.Success? ==>
              r.value == DomainEvent(kind, aggregateId, occurredAt, eventId, actorId, fromState, toState, justification)
    ensures r.Failure? ==>
              && ExpectedState(kind).Some?
              && r.error == WrongEventState(kind, toState, ExpectedState(kind).value)
  {
    match ExpectedState(kind)
    case Some(expected) =>
      if toState != expected then Failure(WrongEventState(kind, toState, expected))
      else Success(DomainEvent(kind, aggregateId, occurredAt, eventId, actorId, fromState, toState, justification))
    case None =>
      Success(DomainEvent(kind, aggregateId, occurredAt, eventId, actorId, fromState, toState, justification))
  }

  /** The error of a rejected event names the event, the state it was
      given and the state it expects; the code is `invalid_event_state`. */
  lemma RejectionDetails(kind: EventKind, aggregateId: string, occurredAt: Instant, eventId: string,
                         actorId: string, fromState: EnrollmentState, toState: EnrollmentState,
                         justification: Option<string>)
    requires kind != EnrollmentReactivated
    requires ExpectedState(kind) != Some(toState)
    ensures var r := NewEvent(kind, aggregateId, occurredAt, eventId, actorId, fromState, toState, justification);
            && r.Failure?
            && r.error.kind == InvalidStateTransition
            && r.error.code == "invalid_event_state"
            && r.error.details == Some([("event", Text(EventName(kind))),
                                        ("actual_state", Text(Value(toState))),
                                        ("expected_state", Text(Value(ExpectedState(kind).value)))])
  {
  }
}
