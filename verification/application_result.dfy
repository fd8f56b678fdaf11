/** The result object the application layer returns for a use case, and
    the contract its constructor enforces between success, change, events
    and the new state. */
module ApplicationResults {

  import opened Wrappers
  import opened Clock
  import opened EnrollmentStatus
  import opened EnrollmentErrors
  import opened EnrollmentEvents
  import opened Enrollments
  import opened EnrollmentLifecycle

  /** The serialisable error payload; carried as an opaque value. */
  datatype ApplicationError = ApplicationError(code: string, message: string, details: Option<Details>)

  datatype ApplicationResult = ApplicationResult(
    aggregateId: string,
    success: bool,
    changed: bool,
    domainEvents: seq<DomainEvent>,
    newState: Option<EnrollmentState>,
    error: Option<ApplicationError>)

  /** Python's `ValueError`, with its message. */
  datatype ValueError = ValueError(message: string)

  const FailureNeedsError := "If 'success' is False, 'error' is required."
  const FailureNotChanged := "If 'success' is False, 'changed' must be False."
  const FailureNoEvents := "If 'success' is False, 'domain_events' must be empty."
  const FailureNoState := "If 'success' is False, 'new_state' must be None."
  const SuccessNoError := "If 'success' is True, 'error' must be None."
  const ChangedNeedsEvents := "If 'changed' is True, 'domain_events' must not be empty."
  const ChangedNeedsState := "If 'changed' is True, 'new_state' is required."
  const UnchangedNoEvents := "If 'changed' is False, 'domain_events' must be empty."
  const UnchangedNoState := "If 'changed' is False, 'new_state' must be None."

  /** The three shapes a result may have. */
  predicate WellShaped(r: ApplicationResult) {
    || (!r.success && r.error.Some? && !r.changed && |r.domainEvents| == 0 && r.newState.None?)
    || (r.success && r.error.None? && !r.changed && |r.domainEvents| == 0 && r.newState.None?)
    || (r.success && r.error.None? && r.changed && |r.domainEvents| > 0 && r.newState.Some?)
  }

  /** `ApplicationResult(...)` with `__post_init__`: the failure contract,
      or the success contract followed by the change contract. */
  function NewApplicationResult(
    aggregateId: string,
    success: bool,
    changed: bool,
    domainEvents: seq<DomainEvent>,
    newState: Option<EnrollmentState>,
    error: Option<ApplicationError>): (r: Result<ApplicationResult, ValueError>)
    ensures r.Success? <==> WellShaped(ApplicationResult(aggregateId, success, changed, domainEvents, newState, error))
    ensures r.Success? ==> r.value == ApplicationResult(aggregateId, success, changed, domainEvents, newState, error)
    ensures !success && error.None? ==> r == Failure(ValueError(FailureNeedsError))
    ensures !success && error.Some? && changed ==> r == Failure(ValueError(FailureNotChanged))
    ensures !success && error.Some? && !changed && |domainEvents| > 0 ==> r == Failure(ValueError(FailureNoEvents))
    ensures !success && error.Some? && !changed && |domainEvents| == 0 && newState.Some? ==>
              r == Failure(ValueError(FailureNoState))
    ensures success && error.Some? ==> r == Failure(ValueError(SuccessNoError))
    ensures success && error.None? && changed && |domainEvents| == 0 ==> r == Failure(ValueError(ChangedNeedsEvents))
    ensures success && error.None? && changed && |domainEvents| > 0 && newState.None? ==>
              r == Failure(ValueError(ChangedNeedsState))
    ensures success && error.None? && !changed && |domainEvents| > 0 ==> r == Failure(ValueError(UnchangedNoEvents))
    ensures success && error.None? && !changed && |domainEvents| == 0 && newState.Some? ==>
              r == Failure(ValueError(UnchangedNoState))
  {
    var result := ApplicationResult(aggregateId, success, changed, domainEvents, newState, error);
    if !success then
      if error.None? then Failure(ValueError(FailureNeedsError))
      else if changed then Failure(ValueError(FailureNotChanged))
      else if |domainEvents| > 0 then Failure(ValueError(FailureNoEvents))
      else if newState.Some? then Failure(ValueError(FailureNoState))
      else Success(result)
    else if error.Some? then Failure(ValueError(SuccessNoError))
    else if changed then
      if |domainEvents| == 0 then Failure(ValueError(ChangedNeedsEvents))
      else if newState.None? then Failure(ValueError(ChangedNeedsState))
      else Success(result)
    else if |domainEvents| > 0 then Failure(ValueError(UnchangedNoEvents))
    else if newState.Some? then Failure(ValueError(UnchangedNoState))
    else Success(result)
  }

  /** A command that raised nothing can always be reported: when the state
      changed, the drained buffer is non-empty and the new state is known;
      when it did not, an empty, stateless result is accepted. */
  lemma CommandOutcomeFitsResult(e: Enrollment, c: Command, now: Instant, eventId: string)
    requires Execute(e, c, now, eventId).error.None?
    ensures var after := Execute(e, c, now, eventId).after;
            var changed := after.state != e.state;
            var events := if changed then PullDomainEvents(after).0 else [];
            var newState := if changed then Some(after.state) else None;
            NewApplicationResult(e.id, true, changed, events, newState, None).Success?
  {
    OnlyEdges(e, c, now, eventId);
  }
}
