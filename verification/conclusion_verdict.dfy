/** The policy verdict that gates conclusion of an enrollment. */
module ConclusionVerdicts {

  import opened Wrappers
  import opened EnrollmentErrors

  datatype ConclusionVerdict = ConclusionVerdict(isAllowed: bool, reasons: seq<string>, requiresJustification: bool)

  /** The class invariants: an allowed verdict has no reasons; a denied one
      has at least one reason and never asks for a justification. */
  predicate Consistent(v: ConclusionVerdict) {
    && (v.isAllowed ==> |v.reasons| == 0)
    && (!v.isAllowed ==> !v.requiresJustification && |v.reasons| > 0)
  }

  function AllowedWithReasons(reasons: seq<string>): DomainError {
    DomainError(Domain, "invalid_verdict_state", "Allowed verdict cannot contain reasons.",
                Some([("reasons", Texts(reasons))]))
  }

  function DeniedRequiresJustification(): DomainError {
    DomainError(Domain, "invalid_verdict_state", "Denied verdict cannot require justification.",
                Some([("requires_justification", Bool(true))]))
  }

  function DeniedWithoutReasons(): DomainError {
    DomainError(Domain, "invalid_verdict_state", "Denied verdict must contain at least one reason.",
                Some([("reasons", Texts([]))]))
  }

  /** `ConclusionVerdict(...)` with its `__post_init__` checks. */
  function NewConclusionVerdict(isAllowed: bool, reasons: seq<string>, requiresJustification: bool)
    : (r: Result<ConclusionVerdict, DomainError>)
    ensures r.Success? <==> Consistent(ConclusionVerdict(isAllowed, reasons, requiresJustification))
    ensures r.Success? ==> r.value == ConclusionVerdict(isAllowed, reasons, requiresJustification)
    ensures r.Failure? ==> r.error.code == "invalid_verdict_state" && r.error.kind == Domain
    ensures isAllowed && |reasons| > 0 ==> r == Failure(AllowedWithReasons(reasons))
    ensures !isAllowed && requiresJustification ==> r == Failure(DeniedRequiresJustification())
    ensures !isAllowed && !requiresJustification && |reasons| == 0 ==> r == Failure(DeniedWithoutReasons())
  {
    if isAllowed then
      if |reasons| > 0 then Failure(AllowedWithReasons(reasons))
      else Success(ConclusionVerdict(isAllowed, reasons, requiresJustification))
    else if requiresJustification then Failure(DeniedRequiresJustification())
    else if |reasons| == 0 then Failure(DeniedWithoutReasons())
    else Success(ConclusionVerdict(isAllowed, reasons, requiresJustification))
  }

  /** `ConclusionVerdict()`: allowed, no reasons, no justification needed. */
  function DefaultVerdict(): (r: Result<ConclusionVerdict, DomainError>)
    ensures r == Success(ConclusionVerdict(true, [], false))
  {
    NewConclusionVerdict(true, [], false)
  }

  /** `ConclusionVerdict.allowed(rj)`: never fails. */
  function Allowed(requiresJustification: bool): (r: Result<ConclusionVerdict, DomainError>)
    ensures r.Success?
    ensures r.value.isAllowed && r.value.reasons == [] && r.value.requiresJustification == requiresJustification
  {
    NewConclusionVerdict(true, [], requiresJustification)
  }

  /** `ConclusionVerdict.denied(rs)`: succeeds exactly when `rs` is non-empty. */
  function Denied(reasons: seq<string>): (r: Result<ConclusionVerdict, DomainError>)
    ensures r.Success? <==> |reasons| > 0
    ensures r.Success? ==> !r.value.isAllowed && r.value.reasons == reasons && !r.value.requiresJustification
    ensures r.Failure? ==> r.error == DeniedWithoutReasons()
  {
    NewConclusionVerdict(false, reasons, false)
  }

  /** Every consistent verdict is produced by one of the two factories. */
  lemma ConsistentIsFactoryMade(v: ConclusionVerdict)
    requires Consistent(v)
    ensures v.isAllowed ==> Allowed(v.requiresJustification) == Success(v)
    ensures !v.isAllowed ==> Denied(v.reasons) == Success(v)
  {
  }
}
