/** The closed set of enrollment states and their canonical string values. */
module EnrollmentStatus {

  import opened Wrappers

  datatype EnrollmentState = Active | Suspended | Concluded | Cancelled

  const AllStates: set<EnrollmentState> := {Active, Suspended, Concluded, Cancelled}

  /** The enum member's `.value`. */
  function Value(s: EnrollmentState): string {
    match s
    case Active => "active"
    case Suspended => "suspended"
    case Concluded => "concluded"
    case Cancelled => "cancelled"
  }

  /** `EnrollmentState(t)`: the member whose value is `t`, or `None` where
      Python raises `ValueError`. */
  function Parse(t: string): (r: Option<EnrollmentState>)
    ensures r.Some? ==> Value(r.value) == t
    ensures r.None? <==> forall s: EnrollmentState :: Value(s) != t
  {
    if t == "active" then Some(Active)
    else if t == "suspended" then Some(Suspended)
    else if t == "concluded" then Some(Concluded)
    else if t == "cancelled" then Some(Cancelled)
    else None
  }

  /** There are exactly four states. */
  lemma ExactlyFourStates()
    ensures forall s: EnrollmentState :: s in AllStates
    ensures |AllStates| == 4
  {
    forall s: EnrollmentState
      ensures s in AllStates
    {
      match s
      case Active =>
      case Suspended =>
      case Concluded =>
      case Cancelled =>
    }
  }

  /** No two states share a value. */
  lemma ValuesDistinct(s: EnrollmentState, t: EnrollmentState)
    ensures Value(s) == Value(t) <==> s == t
  {
  }

  /** Parsing a state's value gives that state back. */
  lemma ParseValue(s: EnrollmentState)
    ensures Parse(Value(s)) == Some(s)
  {
  }
}
