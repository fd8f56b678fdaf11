# Enrollment aggregate: a Dafny model

This project models the core of an academic records system. The core is the
**Enrollment** aggregate and the value objects around it. An enrollment is in
one of four states: ACTIVE, SUSPENDED, CONCLUDED or CANCELLED. It moves
between them through four commands: `conclude`, `cancel`, `suspend` and
`reactivate`.

- Each successful change is recorded twice: as an immutable `StateTransition`
  in the audit trail, and as a domain event in a buffer.
- The buffer is drained by `pull_domain_events`.
- Construction checks the id, the version and a state-by-timestamp
  "integrity matrix".
- Every failure is a `DomainError` with a stable code.
- The application layer reports a use case through an `ApplicationResult`.
  Its constructor enforces a contract between success, change, events and
  the new state.

The model is functional. An `Enrollment` is an immutable datatype. A
command returns a `CommandOutcome`: the aggregate as it is after the call,
together with the error the call raised, if any. This makes the source's
"validate fully, mutate last" rule a stated contract: whenever an error is
raised, `after` is the aggregate passed in.

Modules, one per source file:

| file | module | models |
|---|---|---|
| `enrollment_status.dfy` | `EnrollmentStatus` | the state enum and its string values |
| `enrollment_errors.dfy` | `EnrollmentErrors` | `DomainError` and its subclasses as one record tagged with its kind; `str` and `repr` |
| `state_transition.dfy` | `StateTransitions` | the `StateTransition` value object |
| `conclusion_verdict.dfy` | `ConclusionVerdicts` | the `ConclusionVerdict` value object and its two factories |
| `enrollment_events.dfy` | `EnrollmentEvents` | the domain events and their `to_state` guards |
| `enrollment.dfy` | `Enrollments` | the aggregate: construction, integrity matrix, atomic transition, commands, drain, `is_final` |
| `enrollment_lifecycle.dfy` | `EnrollmentLifecycle` | properties relating several calls: edges, terminal states, idempotence, sequences of calls |
| `application_result.dfy` | `ApplicationResults` | the `ApplicationResult` contract validator |
| `text.dfy`, `py_repr.dfy`, `wrappers.dfy`, `clock.dfy` | helpers | Python's `strip`/`isspace`, Python's `repr`, `Option`/`Result`, instants |

Modelling choices:

- **Datetimes** are abstract UTC instants (`Clock.Instant`). Normalising to
  UTC is the identity on them, so a stored instant is the one that was
  given. The clock reading used when `occurred_at` is omitted is the `now`
  parameter of every command.
- **Event ids** are uuid4 strings in the source. Here each command takes the
  id as its `eventId` parameter.
- **Blank strings.** Python's `not s or not s.strip()` is `Text.IsBlank`: every
  character satisfies `str.isspace`. `Text.StripEmptyIffBlank` proves this
  matches a model of `strip`.
- **Error messages and details** are the constants and f-strings the code
  uses. Details dicts are sequences of key/value pairs in insertion order.
- **Where the code and the project's tests disagree, the model follows
  the code:**
  - A policy veto raises code `conclusion_not_allowed`, with only `reasons`
    in its details.
  - `conclude` outside ACTIVE carries only `current_state` (no
    `required_state` or `attempted_action`).
  - `cancel` and `suspend` raise with only `current_state` in the details.
  - Missing justifications raise `required_justification` for
    `cancel`/`suspend`/`reactivate`, without details. `conclude` raises
    `justification_required` instead.
- **`EnrollmentReactivated`** is imported and used by the aggregate
  (src/domain/academic/enrollment/entities/enrollment.py:11-17, 377), but
  the events file does not define it. As written, the import at
  enrollment.py:11-17 raises `ImportError`, so the aggregate module cannot
  be loaded at all. The model describes the evidently intended code:
  `EnrollmentReactivated` is an event kind with the common fields and no
  `to_state` check.

## Model

| member | source | states |
|---|---|---|
| `Text.StripEmptyIffBlank` | src/domain/academic/enrollment/entities/enrollment.py:61 | `s.strip()` is empty exactly when every character of `s` is whitespace, so the blank test used for ids, actors and justifications is `IsBlank` |
| `EnrollmentStatus.Parse` | src/domain/academic/enrollment/value_objects/enrollment_status.py:9-12 | parsing gives the state whose value is the string, and fails exactly when no state has that value |
| `EnrollmentStatus.ExactlyFourStates` | src/domain/academic/enrollment/value_objects/enrollment_status.py:4-12 | every state is one of the four, and there are four |
| `EnrollmentStatus.ValuesDistinct` | src/domain/academic/enrollment/value_objects/enrollment_status.py:9-12 | two states share a string value only if they are the same state |
| `EnrollmentStatus.ParseValue` | src/domain/academic/enrollment/value_objects/enrollment_status.py:9-12 | parsing a state's value gives the state back |
| `EnrollmentErrors.StrRoundTrip` | src/domain/academic/enrollment/errors/enrollment_errors.py:23-24 | `str(e)` loses nothing: for any code without a colon, cutting the text at its first `": "` gives back the code and the message |
| `EnrollmentErrors.ReprExample` | src/domain/academic/enrollment/errors/enrollment_errors.py:26-28 | code `x`, message `y` and details `{"a": 1}` print as `DomainError(code='x', message='y', details={'a': 1})` |
| `EnrollmentErrors.ReprDiffersOnlyInClassName` | src/domain/academic/enrollment/errors/enrollment_errors.py:31-71 | changing the subclass changes nothing in `repr` after the class name |
| `EnrollmentErrors.ReprOfPlainFields` | src/domain/academic/enrollment/errors/enrollment_errors.py:26-28 | with plain code and message, `repr` is `ClassName(code='…', message='…', details=…)` with both shown verbatim |
| `EnrollmentErrors.ExampleDetailsRepr` | src/domain/academic/enrollment/errors/enrollment_errors.py:28 | the details `{"a": 1}` print as `{'a': 1}` |
| `EnrollmentErrors.StrExample` | src/domain/academic/enrollment/errors/enrollment_errors.py:23-24 | code `any_code` and message `any message` print as `any_code: any message` |
| `PyRepr.PlainStrRepr` | src/domain/academic/enrollment/errors/enrollment_errors.py:27-28 | `!r` of a string without quotes, backslashes or control characters is the string between single quotes |
| `StateTransitions.NewStateTransition` | src/domain/academic/enrollment/value_objects/state_transition.py:25-48 | construction succeeds exactly when the instant is present, the actor is not blank and the states differ; checks run in that order with codes `invalid_occurred_at`, `invalid_actor_id`, `invalid_state_transition`; fields are stored as given |
| `StateTransitions.RebuildWellFormed` | src/domain/academic/enrollment/value_objects/state_transition.py:10-23 | rebuilding a well-formed transition from its own fields gives it back unchanged |
| `ConclusionVerdicts.NewConclusionVerdict` | src/domain/academic/enrollment/value_objects/conclusion_verdict.py:21-41 | construction succeeds exactly for consistent verdicts; each violation has code `invalid_verdict_state` with its own message and details |
| `ConclusionVerdicts.DefaultVerdict` | src/domain/academic/enrollment/value_objects/conclusion_verdict.py:17-19 | the default verdict (allowed, no reasons, no justification) is valid |
| `ConclusionVerdicts.Allowed` | src/domain/academic/enrollment/value_objects/conclusion_verdict.py:43-46 | `allowed(rj)` always succeeds, with no reasons and the given flag |
| `ConclusionVerdicts.Denied` | src/domain/academic/enrollment/value_objects/conclusion_verdict.py:48-51 | `denied(rs)` succeeds exactly when `rs` is non-empty, and keeps `rs` as its reasons |
| `ConclusionVerdicts.ConsistentIsFactoryMade` | src/domain/academic/enrollment/value_objects/conclusion_verdict.py:43-51 | every consistent verdict is what one of the two factories returns |
| `EnrollmentEvents.NewEvent` | src/domain/academic/enrollment/events/enrollment_events.py:30-107 | an event builds exactly when its `to_state` is its kind's target (reactivation has none); `from_state` is unconstrained; fields are stored as given |
| `EnrollmentEvents.RejectionDetails` | src/domain/academic/enrollment/events/enrollment_events.py:44-107 | a rejected event raises `InvalidStateTransitionError` code `invalid_event_state`, naming the event, the actual and the expected state |
| `Enrollments.FirstMissing` | src/domain/academic/enrollment/entities/enrollment.py:131-136 | finds a null required field exactly when one exists |
| `Enrollments.FirstPresent` | src/domain/academic/enrollment/entities/enrollment.py:139-145 | finds a set forbidden field exactly when one exists |
| `Enrollments.StampsMatchByRule` | src/domain/academic/enrollment/entities/enrollment.py:102-119 | the matrix row of each state says: the state's own timestamp is set and the other timestamps are null |
| `Enrollments.CheckStateIntegrity` | src/domain/academic/enrollment/entities/enrollment.py:99-145 | passes exactly when the timestamps match the state; a missing own timestamp reports `missing_<field>` first, otherwise a set foreign timestamp reports `inconsistent_timestamps` |
| `Enrollments.NormalizeState` | src/domain/academic/enrollment/entities/enrollment.py:64-79 | an enum member is kept; a string is accepted exactly when it is a state's value, else `invalid_state` with the string |
| `Enrollments.Create` | src/domain/academic/enrollment/entities/enrollment.py:53-97 | construction succeeds exactly when id, state, version, created_at and the matrix pass, with errors in that order; a constructed enrollment is valid and holds the inputs |
| `Enrollments.IntegrityMatrix` | src/domain/academic/enrollment/entities/enrollment.py:99-145 | over every state and single-timestamp combination, only the matching one constructs |
| `Enrollments.ApplyStateTransition` | src/domain/academic/enrollment/entities/enrollment.py:179-232 | succeeds exactly when the transition and the event both build; then the target's timestamp holds the effective instant, the others are null, and one transition and one mirroring event are appended |
| `Enrollments.Conclude` | src/domain/academic/enrollment/entities/enrollment.py:242-279 | no-op on CONCLUDED; otherwise the guards run in order (not ACTIVE, verdict veto with its reasons, justification only if the verdict asks); success records ACTIVE to CONCLUDED; any error leaves the aggregate as it was; validity is kept |
| `Enrollments.Cancel` | src/domain/academic/enrollment/entities/enrollment.py:281-310 | no-op on CANCELLED; CONCLUDED refuses; a blank justification refuses; success records the change to CANCELLED; errors leave the aggregate as it was |
| `Enrollments.Suspend` | src/domain/academic/enrollment/entities/enrollment.py:312-341 | no-op on SUSPENDED; only ACTIVE may suspend; a blank justification refuses; success records ACTIVE to SUSPENDED; errors leave the aggregate as it was |
| `Enrollments.Reactivate` | src/domain/academic/enrollment/entities/enrollment.py:343-380 | no-op on ACTIVE; only SUSPENDED may reactivate; a blank justification refuses; success records SUSPENDED to ACTIVE with every timestamp null |
| `Enrollments.PullDomainEvents` | src/domain/academic/enrollment/entities/enrollment.py:234-237 | returns the buffered events in order and leaves the buffer empty; state, timestamps and transitions are untouched |
| `Enrollments.PullTwice` | src/domain/academic/enrollment/entities/enrollment.py:234-237 | a second drain returns nothing, and draining keeps validity |
| `EnrollmentLifecycle.OnlyEdges` | src/domain/academic/enrollment/entities/enrollment.py:242-380 | a command leaves the aggregate as it was, or makes one change along an edge of the state graph towards its own target |
| `EnrollmentLifecycle.EveryEdgeIsTaken` | src/domain/academic/enrollment/entities/enrollment.py:242-380 | for every edge of the graph, its command takes it when the guards pass |
| `EnrollmentLifecycle.FinalIffAbsorbing` | src/domain/academic/enrollment/entities/enrollment.py:239-240 | `is_final` holds exactly when no command can change the state |
| `EnrollmentLifecycle.FinalStays` | src/domain/academic/enrollment/entities/enrollment.py:242-380 | from CONCLUDED or CANCELLED, every command returns the aggregate exactly as it was |
| `EnrollmentLifecycle.Idempotent` | src/domain/academic/enrollment/entities/enrollment.py:250-355 | repeating a command that raised nothing is a no-op that raises nothing |
| `EnrollmentLifecycle.SuspendThenReactivate` | src/domain/academic/enrollment/entities/enrollment.py:312-380 | suspend then reactivate returns to ACTIVE with every timestamp null and exactly the two transitions appended |
| `EnrollmentLifecycle.Perform` | src/domain/academic/enrollment/entities/enrollment.py:179-237 | one command or drain keeps validity and a chained history, only extends the trail, and publishes or buffers one mirroring event per new transition |
| `EnrollmentLifecycle.Replay` | src/domain/academic/enrollment/entities/enrollment.py:179-237 | the same guarantees for any sequence of commands and drains |
| `EnrollmentLifecycle.NoEventLostOrDuplicated` | src/domain/academic/enrollment/entities/enrollment.py:230-237 | across any sequence of calls, published plus buffered events are the old buffer followed by one event per new transition, in order |
| `ApplicationResults.NewApplicationResult` | src/application/academic/enrollment/dto/results.py:22-54 | construction succeeds exactly for the three shapes (failure with error; unchanged success; changed success with events and a state); each violation raises its own message, in check order |
| `ApplicationResults.CommandOutcomeFitsResult` | src/application/academic/enrollment/dto/results.py:43-54 | a command that raised nothing always yields an accepted result: changed with the drained events and the new state, or unchanged and empty |

## Left out

- Application services (`cancel_enrollment.py`, `conclude_enrollment.py`): fetch and save orchestration over a persistence port. They also build `ApplicationResult` with keywords its fields do not have.
- The repository port and `EnrollmentNotFoundError`: a protocol without logic and a plain exception.
- `ApplicationError`: kept as an opaque record inside `ApplicationResult`. Its `str` and `repr` are not modelled.
- Django models, settings, the mapper and the deterministic transition id: persistence and a uuid5/SHA-1 library call.
- Time zones: conversion of naive and aware datetimes to UTC is not modelled, because instants are abstract and already UTC. The same goes for the `invalid_datetime` check on lifecycle timestamps, which can only fail for `created_at`.
- `datetime.now()` and `uuid4()`: replaced by the `now` and `eventId` parameters.
- Runtime type checks (`invalid_state_type`, `invalid_datetime_type`, a non-int version): Dafny's types exclude those inputs. This includes Python's `bool` being an `int`.
- The `invalid_state` branch after the matrix lookup: the matrix covers all four states, so it cannot be reached.
- Building a bare `DomainEvent` (no `to_state`): the aggregate never does it.
- StateTransitions.NewStateTransition: an omitted `occurred_at`, which defaults to the clock in UTC, is not modelled; the aggregate always passes it. Only an explicit `None` is, and it fails.
- EnrollmentEvents.NewEvent: an omitted `occurred_at`, which defaults to a naive local clock reading, is not modelled; the aggregate always passes it.
- `EnrollmentAlreadyFinalError`: defined but never raised. It appears only as an error kind.
- PyRepr.StrRepr: escaping of non-ASCII characters Python considers unprintable is not modelled; such characters are copied as they are.
- Mutable aliasing of the `transitions` list passed at construction: the model holds values, not shared lists.
