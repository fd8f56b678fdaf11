/** The domain error taxonomy: one record shape (code, message, details)
    tagged with the subclass that was raised. */
module EnrollmentErrors {

  import opened Wrappers
  import PyRepr

  /** `DomainError` and its subclasses. */
  datatype ErrorKind =
    | Domain
    | InvalidStateTransition
    | EnrollmentNotActive
    | EnrollmentAlreadyFinal
    | ConclusionNotAllowed
    | JustificationRequired

  /** `type(e).__name__`. */
  function ClassName(kind: ErrorKind): string {
    match kind
    case Domain => "DomainError"
    case InvalidStateTransition => "InvalidStateTransitionError"
    case EnrollmentNotActive => "EnrollmentNotActiveError"
    case EnrollmentAlreadyFinal => "EnrollmentAlreadyFinalError"
    case ConclusionNotAllowed => "ConclusionNotAllowedError"
    case JustificationRequired => "JustificationRequiredError"
  }

  /** The values the domain puts in an error's details. */
  datatype Detail =
    | Text(text: string)
    | Texts(texts: seq<string>)
    | Int(n: int)
    | Bool(b: bool)
    | Null

  /** A details dict, in insertion order. */
  type Details = seq<(string, Detail)>

  datatype DomainError = DomainError(kind: ErrorKind, code: string, message: string, details: Option<Details>)

  /** `str(e)`: the code, a colon and a space, then the message. */
  function Str(e: DomainError): (r: string)
    ensures |r| == |e.code| + 2 + |e.message|
    ensures r[..|e.code|] == e.code
    ensures r[|e.code|..|e.code| + 2] == ": "
    ensures r[|e.code| + 2..] == e.message
  {
    e.code + ": " + e.message
  }

  function DetailRepr(d: Detail): string {
    match d
    case Text(t) => PyRepr.StrRepr(t)
    case Texts(ts) => PyRepr.StrListRepr(ts)
    case Int(n) => PyRepr.IntRepr(n)
    case Bool(b) => PyRepr.BoolRepr(b)
    case Null => "None"
  }

  function DetailsRepr(details: Option<Details>): string {
    match details
    case None => "None"
    case Some(ds) =>
      "{" + PyRepr.CommaJoin(seq(|ds|, i requires 0 <= i < |ds| =>
                                   PyRepr.StrRepr(ds[i].0) + ": " + DetailRepr(ds[i].1))) + "}"
  }

  /** The part of `repr(e)` after the class name; the same for every subclass. */
  function FieldsRepr(code: string, message: string, details: Option<Details>): string {
    "(code=" + PyRepr.StrRepr(code) + ", message=" + PyRepr.StrRepr(message)
    + ", details=" + DetailsRepr(details) + ")"
  }

  /** `repr(e)`: `ClassName(code='…', message='…', details=…)`. */
  function Repr(e: DomainError): (r: string)
    ensures |r| > |ClassName(e.kind)|
    ensures r[..|ClassName(e.kind)|] == ClassName(e.kind)
    ensures r[|ClassName(e.kind)|..] == FieldsRepr(e.code, e.message, e.details)
  {
    ClassName(e.kind) + FieldsRepr(e.code, e.message, e.details)
  }

  /** Subclasses differ only in the class name `repr` prints. */
  lemma ReprDiffersOnlyInClassName(e: DomainError, k: ErrorKind)
    ensures Repr(e.(kind := k))[|ClassName(k)|..] == Repr(e)[|ClassName(e.kind)|..]
  {
  }

  /** With plain code and message (no quotes, backslashes or control
      characters), `repr` shows both verbatim between single quotes, as in
      `DomainError(code='x', message='y', details={'a': 1})`. */
  lemma ReprOfPlainFields(e: DomainError)
    requires forall i | 0 <= i < |e.code| :: PyRepr.IsPlain(e.code[i])
    requires forall i | 0 <= i < |e.message| :: PyRepr.IsPlain(e.message[i])
    ensures Repr(e) == ClassName(e.kind)
                       + ("(code=" + ("'" + e.code + "'") + ", message=" + ("'" + e.message + "'")
                          + ", details=" + DetailsRepr(e.details) + ")")
  {
    PyRepr.PlainStrRepr(e.code);
    PyRepr.PlainStrRepr(e.message);
  }

  /** The details of the worked example print as `{'a': 1}`. */
  lemma ExampleDetailsRepr()
    ensures DetailsRepr(Some([("a", Int(1))])) == "{'a': 1}"
  {
    PyRepr.PlainStrRepr("a");
    assert PyRepr.IntRepr(1) == "1";
    var ds: Details := [("a", Int(1))];
    var parts := seq(|ds|, i requires 0 <= i < |ds| =>
                       PyRepr.StrRepr(ds[i].0) + ": " + DetailRepr(ds[i].1));
    assert |parts| == 1;
    assert parts[0] == "'a': 1";
    assert parts == ["'a': 1"];
  }

  /** Cuts `s` at its first `": "`, scanning from index `i`: the text
      before it and the text after it. Without one, all of `s` and nothing. */
  function SplitStrFrom(s: string, i: nat): (string, string)
    requires i <= |s|
    decreases |s| - i
  {
    if i + 2 > |s| then (s, "")
    else if s[i] == ':' && s[i + 1] == ' ' then (s[..i], s[i + 2..])
    else SplitStrFrom(s, i + 1)
  }

  /** Reads a printed error back into its code and message. */
  function SplitStr(s: string): (string, string) {
    SplitStrFrom(s, 0)
  }

  lemma {:induction false} SplitStrFromPrinted(e: DomainError, i: nat)
    requires ':' !in e.code
    requires i <= |e.code|
    ensures SplitStrFrom(Str(e), i) == (e.code, e.message)
    decreases |e.code| - i
  {
    var s := Str(e);
    if i == |e.code| {
      assert s[i] == ':' && s[i + 1] == ' ';
    } else {
      assert s[i] == e.code[i];
      SplitStrFromPrinted(e, i + 1);
    }
  }

  /** `str(e)` loses nothing: a code without a colon (every snake_case code
      the domain uses) and the message can be read back from it. */
  lemma {:induction false} StrRoundTrip(e: DomainError)
    requires ':' !in e.code
    ensures SplitStr(Str(e)) == (e.code, e.message)
  {
    SplitStrFromPrinted(e, 0);
  }

  /** The text of the worked example, assembled from its pieces. */
  lemma ReprExampleText(d: string)
    requires d == "{'a': 1}"
    ensures "DomainError" + ("(code=" + ("'" + "x" + "'") + ", message=" + ("'" + "y" + "'")
                             + ", details=" + d + ")")
            == "DomainError(code='x', message='y', details={'a': 1})"
  {
  }

  /** The worked example for `repr`. */
  lemma ReprExample()
    ensures Repr(DomainError(Domain, "x", "y", Some([("a", Int(1))])))
            == "DomainError(code='x', message='y', details={'a': 1})"
  {
    var e := DomainError(Domain, "x", "y", Some([("a", Int(1))]));
    assert PyRepr.IsPlain(e.code[0]) && PyRepr.IsPlain(e.message[0]);
    ReprOfPlainFields(e);
    ExampleDetailsRepr();
    ReprExampleText(DetailsRepr(e.details));
  }

  /** The worked example for `str`. */
  lemma StrExample()
    ensures Str(DomainError(Domain, "any_code", "any message", None)) == "any_code: any message"
  {
  }
}
