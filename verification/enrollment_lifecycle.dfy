/** Properties of the aggregate's state machine that relate several
    commands or several calls: the edge set, terminal states, idempotence,
    and what any sequence of commands and drains keeps true. */
module EnrollmentLifecycle {

  import opened Wrappers
  import opened Clock
  import opened Text
  import opened EnrollmentStatus
  import opened EnrollmentErrors
  import opened StateTransitions
  import opened ConclusionVerdicts
  import opened EnrollmentEvents
  import opened Enrollments

  /** One call of a command method with its arguments. */
  datatype Command =
    | ConcludeCmd(actorId: string, verdict: ConclusionVerdict, occurredAt: Option<Instant>, justification: Option<string>)
    | CancelCmd(actorId: string, justification: Option<string>, occurredAt: Option<Instant>)
    | SuspendCmd(actorId: string, justification: Option<string>, occurredAt: Option<Instant>)
    | ReactivateCmd(actorId: string, justification: Option<string>, occurredAt: Option<Instant>)

  /** The state a command moves towards. */
  function Target(c: Command): EnrollmentState {
    match c
    case ConcludeCmd(_, _, _, _) => Concluded
    case CancelCmd(_, _, _) => Cancelled
    case SuspendCmd(_, _, _) => Suspended
    case ReactivateCmd(_, _, _) => Active
  }

  /** Runs a command; `now` is the clock reading and `eventId` the fresh
      event identifier the call would use. */
  function Execute(e: Enrollment, c: Command, now: Instant, eventId: string): CommandOutcome {
    match c
    case ConcludeCmd(a, v, at, j) => Conclude(e, a, v, at, j, now, eventId)
    case CancelCmd(a, j, at) => Cancel(e, a, j, at, now, eventId)
    case SuspendCmd(a, j, at) => Suspend(e, a, j, at, now, eventId)
    case ReactivateCmd(a, j, at) => Reactivate(e, a, j, at, now, eventId)
  }

  /** The state graph, written down independently of the commands. */
  predicate Edge(from: EnrollmentState, to: EnrollmentState) {
    || (from == Active && to == Concluded)
    || (from == Active && to == Cancelled)
    || (from == Suspended && to == Cancelled)
    || (from == Active && to == Suspended)
    || (from == Suspended && to == Active)
  }

  /** A command either leaves the aggregate as it was or performs exactly
      one change along an edge of the graph, towards its own target. */
  lemma OnlyEdges(e: Enrollment, c: Command, now: Instant, eventId: string)
    ensures var o := Execute(e, c, now, eventId);
            || o.after == e
            || (&& Edge(e.state, o.after.state)
                && o.after.state == Target(c)
                && o.error.None?
                && |o.after.transitions| == |e.transitions| + 1)
  {
  }

  /** A command whose guards all pass: a non-blank actor and justification
      and a verdict that allows conclusion without asking for more. */
  function Proper(target: EnrollmentState, actorId: string, justification: string): Command
    requires !IsBlank(actorId) && !IsBlank(justification)
  {
    match target
    case Concluded => ConcludeCmd(actorId, ConclusionVerdict(true, [], false), None, Some(justification))
    case Cancelled => CancelCmd(actorId, Some(justification), None)
    case Suspended => SuspendCmd(actorId, Some(justification), None)
    case Active => ReactivateCmd(actorId, Some(justification), None)
  }

  /** Every edge of the graph is taken by its command once the guards pass. */
  lemma EveryEdgeIsTaken(e: Enrollment, to: EnrollmentState, actorId: string, justification: string,
                         now: Instant, eventId: string)
    requires Edge(e.state, to)
    requires !IsBlank(actorId) && !IsBlank(justification)
    ensures var o := Execute(e, Proper(to, actorId, justification), now, eventId);
            o.error.None? && o.after.state == to
  {
  }

  /** `is_final` holds exactly for the absorbing states: those no command
      can leave. */
  lemma FinalIffAbsorbing(e: Enrollment)
    ensures IsFinal(e) <==>
              forall c: Command, now: Instant, eventId: string :: Execute(e, c, now, eventId).after.state == e.state
  {
    if IsFinal(e) {
      forall c: Command, now: Instant, eventId: string
        ensures Execute(e, c, now, eventId).after.state == e.state
      {
        FinalStays(e, c, now, eventId);
      }
    } else {
      var to := if e.state == Active then Suspended else Active;
      assert !IsSpace("actor"[0]) && !IsSpace("reason"[0]);
      EveryEdgeIsTaken(e, to, "actor", "reason", 0, "event");
    }
  }

  /** No command leaves a terminal state. */
  lemma FinalStays(e: Enrollment, c: Command, now: Instant, eventId: string)
    requires IsFinal(e)
    ensures Execute(e, c, now, eventId).after == e
  {
  }

  /** Repeating a command that succeeded is a no-op that raises nothing. */
  lemma Idempotent(e: Enrollment, c: Command, now: Instant, eventId: string, now': Instant, eventId': string)
    requires Execute(e, c, now, eventId).error.None?
    ensures var first := Execute(e, c, now, eventId).after;
            Execute(first, c, now', eventId') == CommandOutcome(first, None)
  {
  }

  /** Suspending and then reactivating brings the enrollment back to ACTIVE
      with every lifecycle timestamp null and two more transitions. */
  lemma SuspendThenReactivate(e: Enrollment, actorId: string, justification: string, t1: Instant, t2: Instant,
                              id1: string, id2: string)
    requires Valid(e) && e.state == Active
    requires !IsBlank(actorId) && !IsBlank(justification)
    ensures var s := Suspend(e, actorId, Some(justification), Some(t1), 0, id1).after;
            var r := Reactivate(s, actorId, Some(justification), Some(t2), 0, id2).after;
            && s.state == Suspended && s.suspendedAt == Some(t1)
            && r.state == Active
            && r.concludedAt.None? && r.cancelledAt.None? && r.suspendedAt.None?
            && r.transitions == e.transitions + [StateTransition(Active, actorId, Suspended, t1, Some(justification)),
                                                 StateTransition(Suspended, actorId, Active, t2, Some(justification))]
            && Valid(r)
  {
  }

  // ---------------------------------------------------------------------
  // Sequences of calls
  // ---------------------------------------------------------------------

  /** One call on the aggregate: a command, or a drain of the event buffer. */
  datatype Step = Run(command: Command, now: Instant, eventId: string) | Pull

  /** The history is a walk in the state graph that ends in the current state. */
  predicate Chained(e: Enrollment) {
    && (forall i | 0 <= i < |e.transitions| :: Edge(e.transitions[i].fromState, e.transitions[i].toState))
    && (forall i | 0 <= i < |e.transitions| - 1 :: e.transitions[i].toState == e.transitions[i + 1].fromState)
    && (|e.transitions| > 0 ==> e.transitions[|e.transitions| - 1].toState == e.state)
  }

  /** Events and transitions pair up one to one, in order. */
  predicate Paired(events: seq<DomainEvent>, ts: seq<StateTransition>) {
    |events| == |ts| && forall i | 0 <= i < |ts| :: Mirrors(events[i], ts[i])
  }

  /** One step: the aggregate after it, and the events it handed out. */
  function Perform(e: Enrollment, s: Step): (r: (Enrollment, seq<DomainEvent>))
    ensures Valid(e) ==> Valid(r.0)
    ensures Chained(e) ==> Chained(r.0)
    ensures |r.0.transitions| >= |e.transitions| && r.0.transitions[..|e.transitions|] == e.transitions
    ensures var emitted := r.1 + r.0.domainEvents;
            && |emitted| >= |e.domainEvents|
            && emitted[..|e.domainEvents|] == e.domainEvents
            && Paired(emitted[|e.domainEvents|..], r.0.transitions[|e.transitions|..])
  {
    match s
    case Pull =>
      var (events, e') := PullDomainEvents(e);
      assert events + e'.domainEvents == e.domainEvents;
      (e', events)
    case Run(c, now, eventId) =>
      var o := Execute(e, c, now, eventId);
      OnlyEdges(e, c, now, eventId);
      if o.after == e then (e, [])
      else
        AppendKeeps(e, o.after);
        (o.after, [])
  }

  /** One transition appended along an edge, with its mirroring event. */
  lemma AppendKeeps(e: Enrollment, e': Enrollment)
    requires Edge(e.state, e'.state)
    requires |e'.transitions| == |e.transitions| + 1 && e'.transitions[..|e.transitions|] == e.transitions
    requires |e'.domainEvents| == |e.domainEvents| + 1 && e'.domainEvents[..|e.domainEvents|] == e.domainEvents
    requires e'.transitions[|e.transitions|].fromState == e.state
    requires e'.transitions[|e.transitions|].toState == e'.state
    requires Mirrors(e'.domainEvents[|e.domainEvents|], e'.transitions[|e.transitions|])
    ensures Chained(e) ==> Chained(e')
    ensures Paired(e'.domainEvents[|e.domainEvents|..], e'.transitions[|e.transitions|..])
  {
    var n := |e.transitions|;
    assert e'.transitions[n..] == [e'.transitions[n]];
    assert e'.domainEvents[|e.domainEvents|..] == [e'.domainEvents[|e.domainEvents|]];
    if Chained(e) {
      forall i | 0 <= i < |e'.transitions| - 1
        ensures e'.transitions[i].toState == e'.transitions[i + 1].fromState
      {
        if i + 1 < n {
          assert e'.transitions[i] == e.transitions[i] && e'.transitions[i + 1] == e.transitions[i + 1];
        } else {
          assert e'.transitions[i] == e.transitions[n - 1];
        }
      }
      forall i | 0 <= i < |e'.transitions|
        ensures Edge(e'.transitions[i].fromState, e'.transitions[i].toState)
      {
        if i < n {
          assert e'.transitions[i] == e.transitions[i];
        }
      }
    }
  }

  /** Any sequence of commands and drains, from left to right. */
  function Replay(e: Enrollment, steps: seq<Step>): (r: (Enrollment, seq<DomainEvent>))
    ensures Valid(e) ==> Valid(r.0)
    ensures Chained(e) ==> Chained(r.0)
    ensures |r.0.transitions| >= |e.transitions| && r.0.transitions[..|e.transitions|] == e.transitions
    ensures var emitted := r.1 + r.0.domainEvents;
            && |emitted| >= |e.domainEvents|
            && emitted[..|e.domainEvents|] == e.domainEvents
            && Paired(emitted[|e.domainEvents|..], r.0.transitions[|e.transitions|..])
    decreases |steps|
  {
    if |steps| == 0 then (e, [])
    else
      var (e1, out1) := Perform(e, steps[0]);
      var (e2, out2) := Replay(e1, steps[1..]);
      ReplayComposes(e, e1, out1, e2, out2);
      (e2, out1 + out2)
  }

  /** Gluing the guarantees of two consecutive stretches of calls. */
  lemma ReplayComposes(e: Enrollment, e1: Enrollment, out1: seq<DomainEvent>, e2: Enrollment, out2: seq<DomainEvent>)
    requires |e1.transitions| >= |e.transitions| && e1.transitions[..|e.transitions|] == e.transitions
    requires |e2.transitions| >= |e1.transitions| && e2.transitions[..|e1.transitions|] == e1.transitions
    requires |out1 + e1.domainEvents| >= |e.domainEvents|
    requires (out1 + e1.domainEvents)[..|e.domainEvents|] == e.domainEvents
    requires Paired((out1 + e1.domainEvents)[|e.domainEvents|..], e1.transitions[|e.transitions|..])
    requires |out2 + e2.domainEvents| >= |e1.domainEvents|
    requires (out2 + e2.domainEvents)[..|e1.domainEvents|] == e1.domainEvents
    requires Paired((out2 + e2.domainEvents)[|e1.domainEvents|..], e2.transitions[|e1.transitions|..])
    ensures |e2.transitions| >= |e.transitions| && e2.transitions[..|e.transitions|] == e.transitions
    ensures var emitted := (out1 + out2) + e2.domainEvents;
            && |emitted| >= |e.domainEvents|
            && emitted[..|e.domainEvents|] == e.domainEvents
            && Paired(emitted[|e.domainEvents|..], e2.transitions[|e.transitions|..])
  {
    var n0, n1 := |e.transitions|, |e1.transitions|;
    var first, second := out1 + e1.domainEvents, out2 + e2.domainEvents;
    var d0, d1 := |e.domainEvents|, |e1.domainEvents|;
    PrefixOfPrefix(e.transitions, e1.transitions, e2.transitions);
    SplitAfterPrefix(e1.transitions, e2.transitions, n0);
    GlueOutputs(out1, out2, e1.domainEvents, e2.domainEvents, d0);
    PairedConcat(first[d0..], second[d1..], e1.transitions[n0..], e2.transitions[n1..]);
  }

  lemma PrefixOfPrefix<T>(a: seq<T>, b: seq<T>, c: seq<T>)
    requires |b| >= |a| && b[..|a|] == a
    requires |c| >= |b| && c[..|b|] == b
    ensures c[..|a|] == a
  {
    assert c[..|a|] == c[..|b|][..|a|];
  }

  lemma SplitAfterPrefix<T>(b: seq<T>, c: seq<T>, k: nat)
    requires k <= |b| <= |c| && c[..|b|] == b
    ensures c[k..] == b[k..] + c[|b|..]
  {
    assert c == c[..|b|] + c[|b|..];
  }

  /** What the first stretch published plus what the second published and
      kept is the first stretch's output followed by the second's new events. */
  lemma GlueOutputs(out1: seq<DomainEvent>, out2: seq<DomainEvent>, b1: seq<DomainEvent>, b2: seq<DomainEvent>, d0: nat)
    requires d0 <= |out1 + b1|
    requires |out2 + b2| >= |b1| && (out2 + b2)[..|b1|] == b1
    ensures var emitted := (out1 + out2) + b2;
            && |emitted| >= d0
            && emitted[..d0] == (out1 + b1)[..d0]
            && emitted[d0..] == (out1 + b1)[d0..] + (out2 + b2)[|b1|..]
  {
    var second := out2 + b2;
    assert second == b1 + second[|b1|..];
    assert (out1 + out2) + b2 == (out1 + b1) + second[|b1|..];
  }

  lemma PairedConcat(a: seq<DomainEvent>, b: seq<DomainEvent>, ta: seq<StateTransition>, tb: seq<StateTransition>)
    requires Paired(a, ta) && Paired(b, tb)
    ensures Paired(a + b, ta + tb)
  {
    forall i | 0 <= i < |ta + tb|
      ensures Mirrors((a + b)[i], (ta + tb)[i])
    {
      if i >= |ta| {
        assert (a + b)[i] == b[i - |ta|] && (ta + tb)[i] == tb[i - |ta|];
      }
    }
  }

  /** The audit trail only grows, and every transition recorded after `e`
      was published exactly once, in order: the events handed out by the
      drains plus those still buffered are `e`'s buffer followed by one
      mirroring event per new transition. */
  lemma NoEventLostOrDuplicated(e: Enrollment, steps: seq<Step>)
    ensures var (e', published) := Replay(e, steps);
            && e'.transitions[..|e.transitions|] == e.transitions
            && published + e'.domainEvents == e.domainEvents + (published + e'.domainEvents)[|e.domainEvents|..]
            && Paired((published + e'.domainEvents)[|e.domainEvents|..], e'.transitions[|e.transitions|..])
  {
  }
}
