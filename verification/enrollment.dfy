/** The Enrollment aggregate root: construction with its invariant checks,
    the four commands, the atomic transition they share, and the event
    buffer. The aggregate is an immutable value here: a command returns the
    aggregate as it is after the call together with the error it raised, if
    any. */
module Enrollments {

  import opened Wrappers
  import opened Clock
  import opened Text
  import opened EnrollmentStatus
  import opened EnrollmentErrors
  import opened StateTransitions
  import opened ConclusionVerdicts
  import opened EnrollmentEvents

  datatype Enrollment = Enrollment(
    id: string,
    studentId: string,
    classGroupId: string,
    academicPeriodId: string,
    state: EnrollmentState,
    createdAt: Instant,
    concludedAt: Option<Instant>,
    cancelledAt: Option<Instant>,
    suspendedAt: Option<Instant>,
    version: int,
    transitions: seq<StateTransition>,
    domainEvents: seq<DomainEvent>)

  // ---------------------------------------------------------------------
  // Lifecycle timestamps and the state integrity matrix
  // ---------------------------------------------------------------------

  datatype Field = ConcludedAt | CancelledAt | SuspendedAt

  function FieldName(f: Field): string {
    match f
    case ConcludedAt => "concluded_at"
    case CancelledAt => "cancelled_at"
    case SuspendedAt => "suspended_at"
  }

  function StampOf(f: Field, concludedAt: Option<Instant>, cancelledAt: Option<Instant>,
                   suspendedAt: Option<Instant>): Option<Instant> {
    match f
    case ConcludedAt => concludedAt
    case CancelledAt => cancelledAt
    case SuspendedAt => suspendedAt
  }

  /** `getattr(e, field_name)`. */
  function Stamp(e: Enrollment, f: Field): Option<Instant> {
    StampOf(f, e.concludedAt, e.cancelledAt, e.suspendedAt)
  }

  /** The timestamp a state owns; ACTIVE owns none. */
  function OwnField(s: EnrollmentState): Option<Field> {
    match s
    case Active => None
    case Suspended => Some(SuspendedAt)
    case Concluded => Some(ConcludedAt)
    case Cancelled => Some(CancelledAt)
  }

  /** The aggregate invariant: a lifecycle timestamp is set exactly when it
      is the one the state owns. */
  predicate StampsMatch(s: EnrollmentState, concludedAt: Option<Instant>, cancelledAt: Option<Instant>,
                        suspendedAt: Option<Instant>) {
    forall f: Field :: StampOf(f, concludedAt, cancelledAt, suspendedAt).Some? <==> OwnField(s) == Some(f)
  }

  predicate TimestampsMatchState(e: Enrollment) {
    StampsMatch(e.state, e.concludedAt, e.cancelledAt, e.suspendedAt)
  }

  /** What every successfully constructed Enrollment satisfies. */
  predicate Valid(e: Enrollment) {
    !IsBlank(e.id) && e.version >= 1 && TimestampsMatchState(e)
  }

  /** The integrity matrix: for each state, the fields that must be set and
      the fields that must be null, in the order they are checked. */
  function IntegrityRule(s: EnrollmentState): (seq<Field>, seq<Field>) {
    match s
    case Active => ([], [ConcludedAt, CancelledAt, SuspendedAt])
    case Suspended => ([SuspendedAt], [ConcludedAt, CancelledAt])
    case Concluded => ([ConcludedAt], [CancelledAt, SuspendedAt])
    case Cancelled => ([CancelledAt], [ConcludedAt, SuspendedAt])
  }

  /** The first required field that is null. */
  function FirstMissing(e: Enrollment, fields: seq<Field>): (r: Option<Field>)
    ensures r.None? <==> forall i | 0 <= i < |fields| :: Stamp(e, fields[i]).Some?
    ensures r.Some? ==> r.value in fields && Stamp(e, r.value).None?
  {
    if |fields| == 0 then None
    else if Stamp(e, fields[0]).None? then Some(fields[0])
    else FirstMissing(e, fields[1..])
  }

  /** The first forbidden field that is set. */
  function FirstPresent(e: Enrollment, fields: seq<Field>): (r: Option<Field>)
    ensures r.None? <==> forall i | 0 <= i < |fields| :: Stamp(e, fields[i]).None?
    ensures r.Some? ==> r.value in fields && Stamp(e, r.value).Some?
  {
    if |fields| == 0 then None
    else if Stamp(e, fields[0]).Some? then Some(fields[0])
    else FirstPresent(e, fields[1..])
  }

  function MissingField(s: EnrollmentState, f: Field): DomainError {
    DomainError(Domain, "missing_" + FieldName(f),
                "Enrollment " + Value(s) + " requires filling out " + FieldName(f) + ".", None)
  }

  function ForbiddenField(s: EnrollmentState, f: Field): DomainError {
    DomainError(Domain, "inconsistent_timestamps",
                "Registration number " + Value(s) + " cannot have " + FieldName(f) + " field in.",
                Some([("state", Text(Value(s))), ("forbidden_field", Text(FieldName(f)))]))
  }

  /** The matrix row of a state says the same as `StampsMatch`. */
  lemma StampsMatchByRule(e: Enrollment)
    ensures TimestampsMatchState(e) <==>
              && (forall i | 0 <= i < |IntegrityRule(e.state).0| :: Stamp(e, IntegrityRule(e.state).0[i]).Some?)
              && (forall i | 0 <= i < |IntegrityRule(e.state).1| :: Stamp(e, IntegrityRule(e.state).1[i]).None?)
  {
    var (required, forbidden) := IntegrityRule(e.state);
    if (forall i | 0 <= i < |required| :: Stamp(e, required[i]).Some?)
       && (forall i | 0 <= i < |forbidden| :: Stamp(e, forbidden[i]).None?) {
      match e.state
      case Active =>
        assert Stamp(e, forbidden[0]).None? && Stamp(e, forbidden[1]).None? && Stamp(e, forbidden[2]).None?;
      case Suspended =>
        assert Stamp(e, required[0]).Some? && Stamp(e, forbidden[0]).None? && Stamp(e, forbidden[1]).None?;
      case Concluded =>
        assert Stamp(e, required[0]).Some? && Stamp(e, forbidden[0]).None? && Stamp(e, forbidden[1]).None?;
      case Cancelled =>
        assert Stamp(e, required[0]).Some? && Stamp(e, forbidden[0]).None? && Stamp(e, forbidden[1]).None?;
    }
  }

  /** The state's own timestamp is required but null. */
  predicate OwnStampMissing(e: Enrollment) {
    OwnField(e.state).Some? && Stamp(e, OwnField(e.state).value).None?
  }

  /** `_validate_state_integrity`: required fields first, then forbidden ones.
      It passes exactly when the timestamps match the state. */
  function CheckStateIntegrity(e: Enrollment): (r: Option<DomainError>)
    ensures r.None? <==> TimestampsMatchState(e)
    ensures OwnStampMissing(e) ==> r == Some(MissingField(e.state, OwnField(e.state).value))
    ensures r.Some? && !OwnStampMissing(e) ==>
              exists f: Field :: && r.value == ForbiddenField(e.state, f)
                                 && Stamp(e, f).Some?
                                 && OwnField(e.state) != Some(f)
  {
    var (required, forbidden) := IntegrityRule(e.state);
    match FirstMissing(e, required)
    case Some(f) => Some(MissingField(e.state, f))
    case None =>
      match FirstPresent(e, forbidden)
      case Some(f) => Some(ForbiddenField(e.state, f))
      case None =>
        StampsMatchByRule(e);
        None
  }

  // ---------------------------------------------------------------------
  // Construction
  // ---------------------------------------------------------------------

  /** The `state` argument: an enum member or its string value. */
  datatype StateInput = AsMember(member: EnrollmentState) | AsString(text: string)

  function InvalidId(): DomainError {
    DomainError(Domain, "invalid_id", "Enrollment must have a valid ID", None)
  }

  function InvalidState(text: string): DomainError {
    DomainError(Domain, "invalid_state", "Enrollment state is invalid", Some([("state", Text(text))]))
  }

  function InvalidVersion(version: int): DomainError {
    DomainError(Domain, "invalid_version", "Enrollment version must be an integer >= 1",
                Some([("version", Int(version))]))
  }

  function MissingDatetime(fieldName: string): DomainError {
    DomainError(Domain, "invalid_datetime", fieldName + " cannot be None", Some([("field", Text(fieldName))]))
  }

  /** `_normalize_and_validate_state`. */
  function NormalizeState(input: StateInput): (r: Result<EnrollmentState, DomainError>)
    ensures input.AsMember? ==> r == Success(input.member)
    ensures input.AsString? ==> (r.Success? <==> exists s: EnrollmentState :: Value(s) == input.text)
    ensures input.AsString? && r.Success? ==> Value(r.value) == input.text
    ensures r.Failure? ==> r.error == InvalidState(input.text)
  {
    match input
    case AsMember(s) => Success(s)
    case AsString(t) =>
      match Parse(t)
      case Some(s) => Success(s)
      case None => Failure(InvalidState(t))
  }

  /** `Enrollment(...)` with `__post_init__`: identity, state, version,
      datetimes, then the integrity matrix. */
  function Create(
    id: string,
    studentId: string,
    classGroupId: string,
    academicPeriodId: string,
    state: StateInput,
    createdAt: Option<Instant>,
    concludedAt: Option<Instant>,
    cancelledAt: Option<Instant>,
    suspendedAt: Option<Instant>,
    version: int,
    transitions: seq<StateTransition>,
    domainEvents: seq<DomainEvent>): (r: Result<Enrollment, DomainError>)
    ensures r.Success? <==>
              && !IsBlank(id)
              && NormalizeState(state).Success?
              && version >= 1
              && createdAt.Some?
              && StampsMatch(NormalizeState(state).value, concludedAt, cancelledAt, suspendedAt)
    ensures r.Success? ==>
              && Valid(r.value)
              && r.value == Enrollment(id, studentId, classGroupId, academicPeriodId, NormalizeState(state).value,
                                       createdAt.value, concludedAt, cancelledAt, suspendedAt, version,
                                       transitions, domainEvents)
    ensures IsBlank(id) ==> r == Failure(InvalidId())
    ensures !IsBlank(id) && NormalizeState(state).Failure? ==> r == Failure(NormalizeState(state).error)
    ensures !IsBlank(id) && NormalizeState(state).Success? && version < 1 ==> r == Failure(InvalidVersion(version))
    ensures !IsBlank(id) && NormalizeState(state).Success? && version >= 1 && createdAt.None? ==>
              r == Failure(MissingDatetime("created_at"))
    ensures r.Failure? && !IsBlank(id) && NormalizeState(state).Success? && version >= 1 && createdAt.Some? ==>
              && r.error.kind == Domain
              && var s := NormalizeState(state).value;
                 || r.error.code == "inconsistent_timestamps"
                 || (OwnField(s).Some? && r.error == MissingField(s, OwnField(s).value))
  {
    if IsBlank(id) then Failure(InvalidId())
    else
      var s :- NormalizeState(state);
      if version < 1 then Failure(InvalidVersion(version))
      else if createdAt.None? then Failure(MissingDatetime("created_at"))
      else
        var e := Enrollment(id, studentId, classGroupId, academicPeriodId, s, createdAt.value,
                            concludedAt, cancelledAt, suspendedAt, version, transitions, domainEvents);
        match CheckStateIntegrity(e)
        case Some(err) => Failure(err)
        case None => Success(e)
  }

  /** The timestamp `f` when only `only` is set, to `at`. */
  function OnlyStamp(only: Option<Field>, f: Field, at: Instant): Option<Instant> {
    if only == Some(f) then Some(at) else None
  }

  /** Across all state and single-timestamp combinations, construction
      succeeds exactly for the state's own timestamp (none for ACTIVE). */
  lemma IntegrityMatrix(id: string, s: EnrollmentState, only: Option<Field>, at: Instant)
    requires !IsBlank(id)
    ensures var r := Create(id, "", "", "", AsMember(s), Some(at), OnlyStamp(only, ConcludedAt, at),
                            OnlyStamp(only, CancelledAt, at), OnlyStamp(only, SuspendedAt, at), 1, [], []);
            && (r.Success? <==> only == OwnField(s))
            && (r.Failure? && OwnField(s).Some? && only != OwnField(s) ==>
                  r.error == MissingField(s, OwnField(s).value))
            && (r.Failure? && OwnField(s).None? ==> r.error.code == "inconsistent_timestamps")
  {
  }

  // ---------------------------------------------------------------------
  // The atomic transition
  // ---------------------------------------------------------------------

  /** `_occurred_at_or_now`: the explicit instant, else the supplied clock reading. */
  function EffectiveInstant(occurredAt: Option<Instant>, now: Instant): Instant {
    if occurredAt.Some? then occurredAt.value else now
  }

  /** A transition and an event describe the same change. */
  predicate Mirrors(ev: DomainEvent, t: StateTransition) {
    && ev.fromState == t.fromState
    && ev.toState == t.toState
    && ev.actorId == t.actorId
    && ev.occurredAt == t.occurredAt
    && ev.justification == t.justification
  }

  /** Everything but the state, the timestamps and the two logs is the same. */
  predicate SameIdentity(e: Enrollment, e': Enrollment) {
    && e'.id == e.id
    && e'.studentId == e.studentId
    && e'.classGroupId == e.classGroupId
    && e'.academicPeriodId == e.academicPeriodId
    && e'.createdAt == e.createdAt
    && e'.version == e.version
  }

  /** `e'` is `e` after one successful change to `toState` at instant `at`:
      the target's own timestamp holds `at` and the others are null, and
      exactly one transition and one matching event were appended. */
  predicate Recorded(e: Enrollment, e': Enrollment, toState: EnrollmentState, kind: EventKind,
                     actorId: string, at: Instant, justification: Option<string>, eventId: string) {
    && SameIdentity(e, e')
    && e'.state == toState
    && (forall f: Field :: Stamp(e', f) == (if OwnField(toState) == Some(f) then Some(at) else None))
    && |e'.transitions| == |e.transitions| + 1
    && e'.transitions[..|e.transitions|] == e.transitions
    && e'.transitions[|e.transitions|] == StateTransition(e.state, actorId, toState, at, justification)
    && |e'.domainEvents| == |e.domainEvents| + 1
    && e'.domainEvents[..|e.domainEvents|] == e.domainEvents
    && Mirrors(e'.domainEvents[|e.domainEvents|], e'.transitions[|e.transitions|])
    && e'.domainEvents[|e.domainEvents|].kind == kind
    && e'.domainEvents[|e.domainEvents|].aggregateId == e.id
    && e'.domainEvents[|e.domainEvents|].eventId == eventId
  }

  /** `_apply_state_transition`: build the transition and the event first
      (either may refuse), and only then produce the changed aggregate. */
  function ApplyStateTransition(
    e: Enrollment,
    toState: EnrollmentState,
    kind: EventKind,
    actorId: string,
    occurredAt: Option<Instant>,
    justification: Option<string>,
    now: Instant,
    eventId: string): (r: Result<Enrollment, DomainError>)
    ensures r.Success? <==>
              && !IsBlank(actorId)
              && e.state != toState
              && (ExpectedState(kind).None? || ExpectedState(kind) == Some(toState))
    ensures r.Success? ==>
              Recorded(e, r.value, toState, kind, actorId, EffectiveInstant(occurredAt, now), justification, eventId)
    ensures IsBlank(actorId) ==> r == Failure(ActorIdInvalid(actorId))
    ensures !IsBlank(actorId) && e.state == toState ==> r == Failure(SelfTransition(toState))
  {
    var at := EffectiveInstant(occurredAt, now);
    var t :- NewStateTransition(e.state, actorId, toState, Some(at), justification);
    var ev :- NewEvent(kind, e.id, at, eventId, actorId, e.state, toState, justification);
    Success(e.(state := toState,
               concludedAt := if toState == Concluded then Some(at) else None,
               cancelledAt := if toState == Cancelled then Some(at) else None,
               suspendedAt := if toState == Suspended then Some(at) else None,
               transitions := e.transitions + [t],
               domainEvents := e.domainEvents + [ev]))
  }

  // ---------------------------------------------------------------------
  // Commands
  // ---------------------------------------------------------------------

  /** The aggregate after a command, and the error the command raised. */
  datatype CommandOutcome = CommandOutcome(after: Enrollment, error: Option<DomainError>)

  /** A guard refused: the aggregate is kept as it was. */
  function Refuse(e: Enrollment, err: DomainError): CommandOutcome {
    CommandOutcome(e, Some(err))
  }

  /** Mutation happens only when the transition was fully built. */
  function Commit(e: Enrollment, r: Result<Enrollment, DomainError>): CommandOutcome {
    match r
    case Success(e') => CommandOutcome(e', None)
    case Failure(err) => CommandOutcome(e, Some(err))
  }

  function NotActive(s: EnrollmentState): DomainError {
    DomainError(EnrollmentNotActive, "enrollment_not_active", "Cannot conclude enrollment in state " + Value(s),
                Some([("current_state", Text(Value(s)))]))
  }

  function NotAllowed(v: ConclusionVerdict): DomainError {
    DomainError(ConclusionNotAllowed, "conclusion_not_allowed", "Conclusion blocked by policy",
                Some([("reasons", Texts(v.reasons))]))
  }

  function VerdictNeedsJustification(): DomainError {
    DomainError(JustificationRequired, "justification_required", "Justification required by verdict", None)
  }

  function CancelFromTerminal(s: EnrollmentState): DomainError {
    DomainError(InvalidStateTransition, "invalid_state_transition", "Cannot cancel from terminal state " + Value(s),
                Some([("current_state", Text(Value(s)))]))
  }

  function SuspendFromInactive(s: EnrollmentState): DomainError {
    DomainError(InvalidStateTransition, "invalid_state_transition",
                "Only ACTIVE enrollments can be suspended. Current: " + Value(s),
                Some([("current_state", Text(Value(s)))]))
  }

  function ReactivateFromNonSuspended(s: EnrollmentState): DomainError {
    DomainError(InvalidStateTransition, "invalid_state_transition",
                "Reactivation is only allowed for SUSPENDED enrollments. Current state: " + Value(s),
                Some([("current_state", Text(Value(s))),
                      ("required_state", Text(Value(Suspended))),
                      ("attempted_action", Text("reactivate"))]))
  }

  function JustificationMissing(message: string): DomainError {
    DomainError(JustificationRequired, "required_justification", message, None)
  }

  const CancelJustificationMessage := "Justification required for cancellation"
  const SuspendJustificationMessage := "Justification required for suspension"
  const ReactivateJustificationMessage := "A justification is mandatory to reactivate an enrollment."

  /** `is_final`: CONCLUDED and CANCELLED are terminal. */
  predicate IsFinal(e: Enrollment) {
    e.state == Concluded || e.state == Cancelled
  }

  /** `conclude`: ACTIVE to CONCLUDED, gated by the verdict. */
  function Conclude(e: Enrollment, actorId: string, verdict: ConclusionVerdict, occurredAt: Option<Instant>,
                    justification: Option<string>, now: Instant, eventId: string): (o: CommandOutcome)
    ensures o.error.Some? ==> o.after == e
    ensures e.state == Concluded ==> o == CommandOutcome(e, None)
    ensures e.state == Suspended || e.state == Cancelled ==> o.error == Some(NotActive(e.state))
    ensures e.state == Active && !verdict.isAllowed ==> o.error == Some(NotAllowed(verdict))
    ensures e.state == Active && verdict.isAllowed && verdict.requiresJustification && IsBlankOpt(justification) ==>
              o.error == Some(VerdictNeedsJustification())
    ensures e.state == Active && verdict.isAllowed && !(verdict.requiresJustification && IsBlankOpt(justification)) ==>
              && (o.error.None? <==> !IsBlank(actorId))
              && (IsBlank(actorId) ==> o.error == Some(ActorIdInvalid(actorId)))
    ensures e.state != Concluded && o.error.None? ==>
              Recorded(e, o.after, Concluded, EnrollmentConcluded, actorId, EffectiveInstant(occurredAt, now),
                       justification, eventId)
    ensures Valid(e) ==> Valid(o.after)
  {
    if e.state == Concluded then CommandOutcome(e, None)
    else if e.state != Active then Refuse(e, NotActive(e.state))
    else if !verdict.isAllowed then Refuse(e, NotAllowed(verdict))
    else if verdict.requiresJustification && IsBlankOpt(justification) then Refuse(e, VerdictNeedsJustification())
    else Commit(e, ApplyStateTransition(e, Concluded, EnrollmentConcluded, actorId, occurredAt, justification,
                                        now, eventId))
  }

  /** `cancel`: ACTIVE or SUSPENDED to CANCELLED. */
  function Cancel(e: Enrollment, actorId: string, justification: Option<string>, occurredAt: Option<Instant>,
                  now: Instant, eventId: string): (o: CommandOutcome)
    ensures o.error.Some? ==> o.after == e
    ensures e.state == Cancelled ==> o == CommandOutcome(e, None)
    ensures e.state == Concluded ==> o.error == Some(CancelFromTerminal(e.state))
    ensures (e.state == Active || e.state == Suspended) && IsBlankOpt(justification) ==>
              o.error == Some(JustificationMissing(CancelJustificationMessage))
    ensures (e.state == Active || e.state == Suspended) && !IsBlankOpt(justification) ==>
              && (o.error.None? <==> !IsBlank(actorId))
              && (IsBlank(actorId) ==> o.error == Some(ActorIdInvalid(actorId)))
    ensures e.state != Cancelled && o.error.None? ==>
              Recorded(e, o.after, Cancelled, EnrollmentCancelled, actorId, EffectiveInstant(occurredAt, now),
                       justification, eventId)
    ensures Valid(e) ==> Valid(o.after)
  {
    if e.state == Cancelled then CommandOutcome(e, None)
    else if IsFinal(e) then Refuse(e, CancelFromTerminal(e.state))
    else if IsBlankOpt(justification) then Refuse(e, JustificationMissing(CancelJustificationMessage))
    else Commit(e, ApplyStateTransition(e, Cancelled, EnrollmentCancelled, actorId, occurredAt, justification,
                                        now, eventId))
  }

  /** `suspend`: ACTIVE to SUSPENDED. */
  function Suspend(e: Enrollment, actorId: string, justification: Option<string>, occurredAt: Option<Instant>,
                   now: Instant, eventId: string): (o: CommandOutcome)
    ensures o.error.Some? ==> o.after == e
    ensures e.state == Suspended ==> o == CommandOutcome(e, None)
    ensures e.state == Concluded || e.state == Cancelled ==> o.error == Some(SuspendFromInactive(e.state))
    ensures e.state == Active && IsBlankOpt(justification) ==>
              o.error == Some(JustificationMissing(SuspendJustificationMessage))
    ensures e.state == Active && !IsBlankOpt(justification) ==>
              && (o.error.None? <==> !IsBlank(actorId))
              && (IsBlank(actorId) ==> o.error == Some(ActorIdInvalid(actorId)))
    ensures e.state != Suspended && o.error.None? ==>
              Recorded(e, o.after, Suspended, EnrollmentSuspended, actorId, EffectiveInstant(occurredAt, now),
                       justification, eventId)
    ensures Valid(e) ==> Valid(o.after)
  {
    if e.state == Suspended then CommandOutcome(e, None)
    else if e.state != Active then Refuse(e, SuspendFromInactive(e.state))
    else if IsBlankOpt(justification) then Refuse(e, JustificationMissing(SuspendJustificationMessage))
    else Commit(e, ApplyStateTransition(e, Suspended, EnrollmentSuspended, actorId, occurredAt, justification,
                                        now, eventId))
  }

  /** `reactivate`: SUSPENDED back to ACTIVE, clearing every lifecycle timestamp. */
  function Reactivate(e: Enrollment, actorId: string, justification: Option<string>, occurredAt: Option<Instant>,
                      now: Instant, eventId: string): (o: CommandOutcome)
    ensures o.error.Some? ==> o.after == e
    ensures e.state == Active ==> o == CommandOutcome(e, None)
    ensures e.state == Concluded || e.state == Cancelled ==> o.error == Some(ReactivateFromNonSuspended(e.state))
    ensures e.state == Suspended && IsBlankOpt(justification) ==>
              o.error == Some(JustificationMissing(ReactivateJustificationMessage))
    ensures e.state == Suspended && !IsBlankOpt(justification) ==>
              && (o.error.None? <==> !IsBlank(actorId))
              && (IsBlank(actorId) ==> o.error == Some(ActorIdInvalid(actorId)))
    ensures e.state != Active && o.error.None? ==>
              Recorded(e, o.after, Active, EnrollmentReactivated, actorId, EffectiveInstant(occurredAt, now),
                       justification, eventId)
    ensures Valid(e) ==> Valid(o.after)
  {
    if e.state == Active then CommandOutcome(e, None)
    else if e.state != Suspended then Refuse(e, ReactivateFromNonSuspended(e.state))
    else if IsBlankOpt(justification) then Refuse(e, JustificationMissing(ReactivateJustificationMessage))
    else Commit(e, ApplyStateTransition(e, Active, EnrollmentReactivated, actorId, occurredAt, justification,
                                        now, eventId))
  }

  // ---------------------------------------------------------------------
  // Queries
  // ---------------------------------------------------------------------

  /** `pull_domain_events`: hands out the buffered events, oldest first, and
      empties the buffer; nothing else changes. */
  function PullDomainEvents(e: Enrollment): (r: (seq<DomainEvent>, Enrollment))
    ensures r.0 == e.domainEvents
    ensures r.1.domainEvents == []
    ensures SameIdentity(e, r.1) && r.1.state == e.state && r.1.transitions == e.transitions
    ensures forall f: Field :: Stamp(r.1, f) == Stamp(e, f)
  {
    (e.domainEvents, e.(domainEvents := []))
  }

  /** A second drain finds nothing, and draining keeps the aggregate valid. */
  lemma PullTwice(e: Enrollment)
    ensures PullDomainEvents(PullDomainEvents(e).1).0 == []
    ensures Valid(e) ==> Valid(PullDomainEvents(e).1)
  {
  }
}
