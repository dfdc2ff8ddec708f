/**
 * Error codes, gRPC statuses with details, and the way back (pkg/errors/codes.go,
 * messages.go, status.go).
 */
module Errors {

  type Code = string

  const ERR_INTERNAL: Code := "internal_error"
  const ERR_VALIDATION: Code := "validation_error"
  const ERR_NOT_FOUND: Code := "not_found"
  const ERR_RATE_LIMITED: Code := "rate_limited"
  const ERR_EMAIL_IN_USE: Code := "email_in_use"
  const ERR_INVALID_CREDENTIALS: Code := "invalid_credentials"
  const ERR_WEAK_PASSWORD: Code := "weak_password"

  /** The gRPC codes the mappings name; `Ok` is the code of a nil error. */
  datatype GrpcCode =
    | Ok | Canceled | Unknown | InvalidArgument | DeadlineExceeded | NotFound | AlreadyExists
    | PermissionDenied | ResourceExhausted | FailedPrecondition | Aborted | OutOfRange
    | Unimplemented | Internal | Unavailable | DataLoss | Unauthenticated

  datatype Violation = Violation(field: string, description: string)

  /** Status details that the package attaches or reads. */
  datatype Detail =
    | RequestInfo(requestId: string)
    | ErrorInfo(reason: string, domain: string, metadata: map<string, string>)
    | BadRequest(violations: seq<Violation>)
    | RetryInfo(delay: int)
    | ResourceInfo(kind: string, name: string)

  /** `message` is the code whose user-facing text the status carries. */
  datatype Status = Status(grpc: GrpcCode, message: Code, details: seq<Detail>)

  datatype Error = Nil | Plain(text: string) | Grpc(st: Status)

  function BaseStatus(code: Code): Status {
    if code == ERR_EMAIL_IN_USE then Status(AlreadyExists, code, [])
    else if code == ERR_INVALID_CREDENTIALS then Status(Unauthenticated, code, [])
    else if code == ERR_WEAK_PASSWORD || code == ERR_VALIDATION then Status(InvalidArgument, code, [])
    else if code == ERR_RATE_LIMITED then Status(ResourceExhausted, code, [])
    else if code == ERR_NOT_FOUND then Status(NotFound, code, [])
    else Status(Internal, ERR_INTERNAL, [])
  }

  function WithCommonDetails(st: Status, requestId: string, code: Code, extra: seq<Detail>): Status {
    st.(details := st.details + ([RequestInfo(requestId), ErrorInfo(code, "user-platform", map[])] + extra))
  }

  function StatusFromCode(code: Code, requestId: string): Error {
    Grpc(WithCommonDetails(BaseStatus(code), requestId, code, []))
  }

  /** `Validation` copies the violations one by one into a BadRequest. */
  method Validation(requestId: string, violations: seq<Violation>) returns (e: Error)
    ensures e == ValidationError(requestId, violations)
  {
    var copied := [];
    var n := 0;
    while n < |violations|
      invariant 0 <= n <= |violations| && copied == violations[..n]
    {
      copied := copied + [Violation(violations[n].field, violations[n].description)];
      n := n + 1;
    }
    assert copied == violations;
    e := Grpc(WithCommonDetails(BaseStatus(ERR_VALIDATION), requestId, ERR_VALIDATION, [BadRequest(copied)]));
  }

  function ValidationError(requestId: string, violations: seq<Violation>): Error {
    Grpc(WithCommonDetails(BaseStatus(ERR_VALIDATION), requestId, ERR_VALIDATION, [BadRequest(violations)]))
  }

  function EmailAlreadyInUse(requestId: string): Error {
    Grpc(WithCommonDetails(BaseStatus(ERR_EMAIL_IN_USE), requestId, ERR_EMAIL_IN_USE,
                           [BadRequest([Violation("email", "already registered")])]))
  }

  function WeakPassword(requestId: string, description: string): Error {
    var shown := if description == "" then "must be at least 12 characters" else description;
    ValidationError(requestId, [Violation("password", shown)])
  }

  function RateLimited(requestId: string, retryAfter: int): Error {
    Grpc(WithCommonDetails(BaseStatus(ERR_RATE_LIMITED), requestId, ERR_RATE_LIMITED, [RetryInfo(retryAfter)]))
  }

  function NotFoundError(requestId: string, resource: string): Error {
    Grpc(WithCommonDetails(BaseStatus(ERR_NOT_FOUND), requestId, ERR_NOT_FOUND,
                           if resource == "" then [] else [ResourceInfo("resource", resource)]))
  }

  function InternalError(requestId: string): Error {
    Grpc(WithCommonDetails(BaseStatus(ERR_INTERNAL), requestId, ERR_INTERNAL, []))
  }

  // ---------- the way back ----------

  /** The code the details name: the last non-empty reason, else the internal code. */
  function CodeIn(details: seq<Detail>): Code {
    if details == [] then ERR_INTERNAL
    else
      var last := details[|details| - 1];
      if last.ErrorInfo? && last.reason != "" then last.reason else CodeIn(details[..|details| - 1])
  }

  /** The request id one detail offers, if any. */
  function IdOf(d: Detail): string {
    match d
    case RequestInfo(id) => id
    case ErrorInfo(_, _, metadata) => if "request_id" in metadata then metadata["request_id"] else ""
    case _ => ""
  }

  /** The request id the details name: the first that is not empty. */
  function RequestIdIn(details: seq<Detail>): string {
    if details == [] then ""
    else if IdOf(details[0]) != "" then IdOf(details[0])
    else RequestIdIn(details[1..])
  }

  lemma {:induction false} RequestIdAppend(a: seq<Detail>, b: seq<Detail>)
    ensures RequestIdIn(a + b) == if RequestIdIn(a) != "" then RequestIdIn(a) else RequestIdIn(b)
    decreases |a|
  {
    if a == [] {
      assert a + b == b;
    } else {
      RequestIdAppend(a[1..], b);
      assert (a + b)[1..] == a[1..] + b;
    }
  }

  lemma {:induction false} CodeAppend(a: seq<Detail>, b: seq<Detail>)
    requires forall d :: d in b ==> !d.ErrorInfo? || d.reason == ""
    ensures CodeIn(a + b) == CodeIn(a)
    decreases |b|
  {
    if b == [] {
      assert a + b == a;
    } else {
      CodeAppend(a, b[..|b| - 1]);
      assert (a + b)[..|a + b| - 1] == a + b[..|b| - 1];
    }
  }

  /** `extractCodeAndRequestID`: one pass over the details. */
  method ExtractCodeAndRequestID(st: Status) returns (code: Code, requestId: string)
    ensures code == CodeIn(st.details) && requestId == RequestIdIn(st.details)
  {
    code, requestId := ERR_INTERNAL, "";
    var n := 0;
    while n < |st.details|
      invariant 0 <= n <= |st.details|
      invariant code == CodeIn(st.details[..n]) && requestId == RequestIdIn(st.details[..n])
    {
      var d := st.details[n];
      assert st.details[..n + 1] == st.details[..n] + [d] && st.details[..n + 1][..n] == st.details[..n];
      RequestIdAppend(st.details[..n], [d]);
      assert [d][1..] == [];
      match d {
        case ErrorInfo(reason, _, metadata) =>
          if reason != "" {
            code := reason;
          }
          if "request_id" in metadata && metadata["request_id"] != "" && requestId == "" {
            requestId := metadata["request_id"];
          }
        case RequestInfo(id) =>
          if id != "" && requestId == "" {
            requestId := id;
          }
        case _ =>
      }
      n := n + 1;
    }
    assert st.details[..n] == st.details;
  }

  function FallbackCodeFromGRPC(c: GrpcCode): Code {
    match c
    case InvalidArgument => ERR_VALIDATION
    case AlreadyExists => ERR_EMAIL_IN_USE
    case NotFound => ERR_NOT_FOUND
    case Unauthenticated => ERR_INVALID_CREDENTIALS
    case ResourceExhausted => ERR_RATE_LIMITED
    case _ => ERR_INTERNAL
  }

  function Parsed(err: Error): (Code, string, GrpcCode) {
    match err
    case Plain(_) => (ERR_INTERNAL, "", Internal)
    case Nil => (ERR_INTERNAL, "", Ok)
    case Grpc(st) =>
      var code := CodeIn(st.details);
      (if code == ERR_INTERNAL then FallbackCodeFromGRPC(st.grpc) else code, RequestIdIn(st.details), st.grpc)
  }

  /** `Parse`. */
  method Parse(err: Error) returns (code: Code, requestId: string, grpc: GrpcCode)
    ensures (code, requestId, grpc) == Parsed(err)
  {
    if err.Plain? {
      return ERR_INTERNAL, "", Internal;
    }
    var st := if err.Grpc? then err.st else Status(Ok, "", []);
    grpc := st.grpc;
    code, requestId := ExtractCodeAndRequestID(st);
    if code == ERR_INTERNAL {
      code := FallbackCodeFromGRPC(grpc);
    }
  }

  // ---------- round trips ----------

  lemma CommonDetailsIn(code: Code, requestId: string, extra: seq<Detail>)
    requires forall d :: d in extra ==> !d.ErrorInfo? || d.reason == ""
    ensures var details := [RequestInfo(requestId), ErrorInfo(code, "user-platform", map[])] + extra;
            && CodeIn(details) == (if code == "" then ERR_INTERNAL else code)
            && RequestIdIn(details) == if requestId != "" then requestId else RequestIdIn(extra)
  {
    var common := [RequestInfo(requestId), ErrorInfo(code, "user-platform", map[])];
    CodeAppend(common, extra);
    RequestIdAppend(common, extra);
    assert common[..1] == [RequestInfo(requestId)] && common[..1][..0] == [];
    assert common[1..] == [ErrorInfo(code, "user-platform", map[])] && common[1..][1..] == [];
    assert CodeIn([]) == ERR_INTERNAL && CodeIn(common[..1]) == CodeIn(common[..1][..0]);
  }

  lemma InternalIsNotMapped()
    ensures BaseStatus(ERR_INTERNAL).grpc == Internal && BaseStatus("").grpc == Internal
  {
    assert |ERR_INTERNAL| == 14 && |ERR_EMAIL_IN_USE| == 12 && |ERR_INVALID_CREDENTIALS| == 19
        && |ERR_WEAK_PASSWORD| == 13;
    assert |ERR_VALIDATION| == 16 && |ERR_RATE_LIMITED| == 12 && |ERR_NOT_FOUND| == 9;
  }

  /** Details that say nothing about code or request: everything the builders add. */
  predicate Silent(extra: seq<Detail>) {
    forall d :: d in extra ==> !d.ErrorInfo? && !d.RequestInfo?
  }

  lemma {:induction false} SilentHasNoId(extra: seq<Detail>)
    requires Silent(extra)
    ensures RequestIdIn(extra) == ""
    decreases |extra|
  {
    if extra != [] {
      assert extra[0] in extra;
      SilentHasNoId(extra[1..]);
    }
  }

  /**
   * Round trip: parsing a status made from a code gives back the request id, the
   * mapped gRPC code, and the code itself exactly when it is not empty; silent extra
   * details never change the result.
   */
  lemma RoundTrip(code: Code, requestId: string, extra: seq<Detail>)
    requires Silent(extra)
    ensures var r := Parsed(Grpc(WithCommonDetails(BaseStatus(code), requestId, code, extra)));
            && r == Parsed(StatusFromCode(code, requestId))
            && r.1 == requestId && r.2 == BaseStatus(code).grpc
            && (r.0 == code <==> code != "")
            && (code == "" ==> r.0 == ERR_INTERNAL)
  {
    SilentHasNoId(extra);
    ParsedCommon(code, requestId, extra);
    ParsedCommon(code, requestId, []);
    InternalIsNotMapped();
  }

  /** What Parse makes of a status whose details say nothing beyond the common ones. */
  lemma ParsedCommon(code: Code, requestId: string, extra: seq<Detail>)
    requires Silent(extra) && RequestIdIn(extra) == ""
    ensures Parsed(Grpc(WithCommonDetails(BaseStatus(code), requestId, code, extra)))
         == (if code == "" then ERR_INTERNAL else code, requestId, BaseStatus(code).grpc)
  {
    var st := BaseStatus(code);
    var details := [RequestInfo(requestId), ErrorInfo(code, "user-platform", map[])] + extra;
    NoDetailsYet(code);
    assert st.details + details == details;
    CommonDetailsIn(code, requestId, extra);
    InternalIsNotMapped();
    hide CodeIn, RequestIdIn, BaseStatus;
  }

  lemma NoDetailsYet(code: Code)
    ensures BaseStatus(code).details == []
  {
  }

  /** Every builder's error parses to its own code and its request id. */
  lemma BuildersRoundTrip(requestId: string, violations: seq<Violation>, description: string, retryAfter: int,
      resource: string)
    ensures Parsed(ValidationError(requestId, violations)) == (ERR_VALIDATION, requestId, InvalidArgument)
    ensures Parsed(EmailAlreadyInUse(requestId)) == (ERR_EMAIL_IN_USE, requestId, AlreadyExists)
    ensures Parsed(WeakPassword(requestId, description)) == (ERR_VALIDATION, requestId, InvalidArgument)
    ensures Parsed(RateLimited(requestId, retryAfter)) == (ERR_RATE_LIMITED, requestId, ResourceExhausted)
    ensures Parsed(NotFoundError(requestId, resource)) == (ERR_NOT_FOUND, requestId, NotFound)
    ensures Parsed(InternalError(requestId)) == (ERR_INTERNAL, requestId, Internal)
  {
    BaseCodes();
    var weak := [Violation("password", if description == "" then "must be at least 12 characters" else description)];
    RoundTrip(ERR_VALIDATION, requestId, [BadRequest(violations)]);
    RoundTrip(ERR_EMAIL_IN_USE, requestId, [BadRequest([Violation("email", "already registered")])]);
    RoundTrip(ERR_VALIDATION, requestId, [BadRequest(weak)]);
    RoundTrip(ERR_RATE_LIMITED, requestId, [RetryInfo(retryAfter)]);
    RoundTrip(ERR_NOT_FOUND, requestId, if resource == "" then [] else [ResourceInfo("resource", resource)]);
    RoundTrip(ERR_INTERNAL, requestId, []);
  }

  lemma BaseCodes()
    ensures BaseStatus(ERR_VALIDATION).grpc == InvalidArgument && BaseStatus(ERR_EMAIL_IN_USE).grpc == AlreadyExists
    ensures BaseStatus(ERR_RATE_LIMITED).grpc == ResourceExhausted && BaseStatus(ERR_NOT_FOUND).grpc == NotFound
    ensures BaseStatus(ERR_INTERNAL).grpc == Internal
    ensures ERR_VALIDATION != "" && ERR_EMAIL_IN_USE != "" && ERR_RATE_LIMITED != "" && ERR_NOT_FOUND != ""
        && ERR_INTERNAL != ""
  {
    InternalIsNotMapped();
    assert |ERR_EMAIL_IN_USE| == 12 && |ERR_INVALID_CREDENTIALS| == 19 && |ERR_WEAK_PASSWORD| == 13;
    assert |ERR_VALIDATION| == 16 && |ERR_RATE_LIMITED| == 12 && |ERR_NOT_FOUND| == 9;
    assert ERR_EMAIL_IN_USE[0] == 'e' && ERR_RATE_LIMITED[0] == 'r';
  }

  /**
   * Without a reason the fallback gives a standard code back exactly when its gRPC
   * code is not shared: a weak password comes back as a validation error.
   */
  lemma FallbackInverts(code: Code)
    requires code in {ERR_INTERNAL, ERR_VALIDATION, ERR_NOT_FOUND, ERR_RATE_LIMITED, ERR_EMAIL_IN_USE,
        ERR_INVALID_CREDENTIALS, ERR_WEAK_PASSWORD}
    ensures FallbackCodeFromGRPC(BaseStatus(code).grpc) == code <==> code != ERR_WEAK_PASSWORD
  {
    BaseCodes();
    assert |ERR_WEAK_PASSWORD| == 13 && |ERR_INVALID_CREDENTIALS| == 19;
  }

  // ---------- HTTP ----------

  /** The mapped HTTP status, or 0 for a code the table does not list. */
  function GrpcToHTTP(c: GrpcCode): nat {
    match c
    case InvalidArgument => 400
    case AlreadyExists => 409
    case NotFound => 404
    case Unauthenticated => 401
    case PermissionDenied => 403
    case ResourceExhausted => 429
    case Unavailable => 503
    case DeadlineExceeded => 504
    case FailedPrecondition => 412
    case Aborted => 409
    case Unimplemented => 501
    case Canceled => 400
    case Internal => 500
    case DataLoss => 500
    case Unknown => 500
    case _ => 0
  }

  /** The `details` field of the error envelope. */
  datatype HttpDetails = NoDetails | OneField(field: string, reason: string) | Many(violations: seq<Violation>)

  datatype Envelope = Envelope(http: int, message: string, details: HttpDetails)

  /** How a list of violations is shown. */
  function Shown(violations: seq<Violation>): HttpDetails {
    if |violations| == 0 then NoDetails
    else if |violations| == 1 then OneField(violations[0].field, violations[0].description)
    else Many(violations)
  }

  /** The last BadRequest with any violation decides what is shown. */
  function DetailsIn(details: seq<Detail>): HttpDetails {
    if details == [] then NoDetails
    else
      var last := details[|details| - 1];
      if last.BadRequest? && last.violations != [] then Shown(last.violations) else DetailsIn(details[..|details| - 1])
  }

  /** The violations read back from an envelope. */
  function ViolationsOf(d: HttpDetails): seq<Violation> {
    match d
    case NoDetails => []
    case OneField(field, reason) => [Violation(field, reason)]
    case Many(violations) => violations
  }

  function HttpEnvelope(defaultHTTP: int, err: Error): Envelope {
    match err
    case Plain(text) => Envelope(defaultHTTP, text, NoDetails)
    case Nil => Envelope(defaultHTTP, "", NoDetails)
    case Grpc(st) =>
      var http := GrpcToHTTP(st.grpc);
      Envelope(if http == 0 then defaultHTTP else http, st.message, DetailsIn(st.details))
  }

  /** `HTTPError`: the loop over the details and, for several violations, the loop that copies them. */
  method HTTPError(defaultHTTP: int, err: Error) returns (env: Envelope)
    ensures env == HttpEnvelope(defaultHTTP, err)
  {
    if err.Plain? {
      return Envelope(defaultHTTP, err.text, NoDetails);
    }
    var st := if err.Grpc? then err.st else Status(Ok, "", []);
    var http := GrpcToHTTP(st.grpc);
    if http == 0 {
      http := defaultHTTP;
    }
    var details := NoDetails;
    var n := 0;
    while n < |st.details|
      invariant 0 <= n <= |st.details| && details == DetailsIn(st.details[..n])
    {
      assert st.details[..n + 1][..n] == st.details[..n];
      if st.details[n].BadRequest? {
        var vs := st.details[n].violations;
        if |vs| == 1 {
          details := OneField(vs[0].field, vs[0].description);
        } else if |vs| > 1 {
          var out := [];
          var k := 0;
          while k < |vs|
            invariant 0 <= k <= |vs| && out == vs[..k]
          {
            out := out + [Violation(vs[k].field, vs[k].description)];
            k := k + 1;
          }
          assert out == vs;
          details := Many(out);
        }
      }
      n := n + 1;
    }
    assert st.details[..n] == st.details;
    env := Envelope(http, st.message, details);
  }

  /** HTTPError on Validation reproduces the given violations in order, for a list of any length. */
  lemma ViolationsRoundTrip(defaultHTTP: int, requestId: string, violations: seq<Violation>)
    ensures var env := HttpEnvelope(defaultHTTP, ValidationError(requestId, violations));
            && ViolationsOf(env.details) == violations
            && (env.details.NoDetails? <==> violations == [])
            && env.http == 400 && env.message == ERR_VALIDATION
  {
    BaseCodes();
    var common := [RequestInfo(requestId), ErrorInfo(ERR_VALIDATION, "user-platform", map[])];
    var details := [] + (common + [BadRequest(violations)]);
    assert details[..2] == common && common[..1][..0] == [];
    assert common[..1] == [RequestInfo(requestId)];
    assert DetailsIn(common[..1]) == DetailsIn(common[..1][..0]) == NoDetails;
    assert DetailsIn(common) == NoDetails;
    assert details[2] == BadRequest(violations);
    ShownBack(violations);
  }

  /** The three shapes of an envelope's details tell lists of every length apart. */
  lemma ShownBack(violations: seq<Violation>)
    ensures ViolationsOf(Shown(violations)) == violations
  {
  }

  // ---------- what callers of the gateway are answered ----------

  /** An error that carries no status gives the caller's default, its own text and no details. */
  lemma NonStatusGivesDefault(defaultHTTP: int, text: string)
    ensures var env := HttpEnvelope(defaultHTTP, Plain(text));
            env.http == defaultHTTP && env.message == text && env.details.NoDetails?
  {
  }

  /** A status gives the caller's default, whatever it is, exactly when its gRPC code is one of the two not listed. */
  lemma DefaultExactly(st: Status)
    ensures (forall d: int :: HttpEnvelope(d, Grpc(st)).http == d) <==> (st.grpc.Ok? || st.grpc.OutOfRange?)
  {
    assert HttpEnvelope(0, Grpc(st)).http == 0 ==> st.grpc.Ok? || st.grpc.OutOfRange?;
  }

  /** The codes that no builder uses, as they may come from elsewhere. */
  lemma ForeignCodesAnswer(defaultHTTP: int, st: Status)
    ensures var http := HttpEnvelope(defaultHTTP, Grpc(st)).http;
            match st.grpc
            case PermissionDenied => http == 403
            case Unavailable => http == 503
            case DeadlineExceeded => http == 504
            case FailedPrecondition => http == 412
            case Aborted => http == 409
            case Unimplemented => http == 501
            case Canceled => http == 400
            case DataLoss => http == 500
            case Unknown => http == 500
            case Ok => http == defaultHTTP
            case OutOfRange => http == defaultHTTP
            case _ => true
  {
  }

  /** `HTTPStatus`: the table from codes to HTTP statuses. */
  function HTTPStatus(code: Code): nat {
    if code == ERR_VALIDATION then 400
    else if code == ERR_EMAIL_IN_USE then 409
    else if code == ERR_NOT_FOUND then 404
    else if code == ERR_INVALID_CREDENTIALS then 401
    else if code == ERR_RATE_LIMITED then 429
    else 500
  }

  /** The standard codes and everything else. */
  predicate Standard(code: Code) {
    || code == "validation_error" || code == "weak_password" || code == "email_in_use"
    || code == "invalid_credentials" || code == "not_found" || code == "rate_limited"
  }

  lemma Lengths()
    ensures |"internal_error"| == 14 && |"validation_error"| == 16 && |"not_found"| == 9 && |"rate_limited"| == 12
    ensures |"email_in_use"| == 12 && |"invalid_credentials"| == 19 && |"weak_password"| == 13
    ensures "email_in_use"[0] == 'e' && "rate_limited"[0] == 'r'
  {
  }

  /** Every code, through its status, answers its own HTTP status with its own message; an unknown one the internal. */
  lemma CodesAnswer(defaultHTTP: int, code: Code, requestId: string)
    ensures var env := HttpEnvelope(defaultHTTP, StatusFromCode(code, requestId));
            && (code == "validation_error" || code == "weak_password" ==> env.http == 400)
            && (code == "email_in_use" ==> env.http == 409)
            && (code == "invalid_credentials" ==> env.http == 401)
            && (code == "not_found" ==> env.http == 404)
            && (code == "rate_limited" ==> env.http == 429)
            && (!Standard(code) ==> env.http == 500)
            && env.message == (if Standard(code) then code else "internal_error")
            && env.details.NoDetails?
  {
    Lengths();
    CommonShowNothing(code, requestId, []);
  }

  /** The two tables agree, except that a weak password is 400 through its status and 500 in the code table. */
  lemma TablesAgreeExactly(defaultHTTP: int, code: Code, requestId: string)
    ensures HttpEnvelope(defaultHTTP, StatusFromCode(code, requestId)).http == HTTPStatus(code)
            <==> code != "weak_password"
  {
    Lengths();
    CodesAnswer(defaultHTTP, code, requestId);
  }

  /** The common details show nothing; what is shown comes from the extra ones. */
  lemma CommonShowNothing(code: Code, requestId: string, extra: seq<Detail>)
    requires |extra| <= 1
    ensures DetailsIn([] + ([RequestInfo(requestId), ErrorInfo(code, "user-platform", map[])] + extra))
            == if extra != [] && extra[0].BadRequest? then Shown(extra[0].violations) else NoDetails
  {
    var common := [RequestInfo(requestId), ErrorInfo(code, "user-platform", map[])];
    assert common[..1][..0] == [] && DetailsIn(common[..1]) == DetailsIn(common[..1][..0]) == NoDetails;
    assert DetailsIn(common) == DetailsIn(common[..1]);
    if extra == [] {
      assert [] + (common + extra) == common;
    } else {
      var all := [] + (common + extra);
      assert all[..2] == common && all[2] == extra[0] && |all| == 3;
      assert extra[0].BadRequest? && extra[0].violations == [] ==> Shown(extra[0].violations) == NoDetails;
    }
  }

  /** What the client of each builder's error is shown. */
  lemma BuildersAnswer(defaultHTTP: int, requestId: string, description: string, retryAfter: int, resource: string)
    ensures HttpEnvelope(defaultHTTP, EmailAlreadyInUse(requestId))
            == Envelope(409, "email_in_use", OneField("email", "already registered"))
    ensures HttpEnvelope(defaultHTTP, WeakPassword(requestId, description))
            == Envelope(400, "validation_error", OneField("password",
                        if description == "" then "must be at least 12 characters" else description))
    ensures HttpEnvelope(defaultHTTP, RateLimited(requestId, retryAfter)) == Envelope(429, "rate_limited", NoDetails)
    ensures HttpEnvelope(defaultHTTP, NotFoundError(requestId, resource)) == Envelope(404, "not_found", NoDetails)
    ensures HttpEnvelope(defaultHTTP, InternalError(requestId)) == Envelope(500, "internal_error", NoDetails)
  {
    hide DetailsIn;
    Lengths();
    var weak := if description == "" then "must be at least 12 characters" else description;
    CommonShowNothing(ERR_EMAIL_IN_USE, requestId, [BadRequest([Violation("email", "already registered")])]);
    CommonShowNothing(ERR_VALIDATION, requestId, [BadRequest([Violation("password", weak)])]);
    CommonShowNothing(ERR_RATE_LIMITED, requestId, [RetryInfo(retryAfter)]);
    CommonShowNothing(ERR_NOT_FOUND, requestId, if resource == "" then [] else [ResourceInfo("resource", resource)]);
    CommonShowNothing(ERR_INTERNAL, requestId, []);
  }

  /** The machine-readable hints of the builders reach the client's status unchanged, after the two common details. */
  lemma HintsAreCarried(requestId: string, retryAfter: int, resource: string)
    ensures RateLimited(requestId, retryAfter).st.details
            == [RequestInfo(requestId), ErrorInfo("rate_limited", "user-platform", map[]), RetryInfo(retryAfter)]
    ensures NotFoundError(requestId, resource).st.details
            == [RequestInfo(requestId), ErrorInfo("not_found", "user-platform", map[])]
               + if resource == "" then [] else [ResourceInfo("resource", resource)]
  {
    Lengths();
    var common := [RequestInfo(requestId), ErrorInfo("not_found", "user-platform", map[])];
    assert common + [] == common;
  }

  // ---------- several details of one kind ----------

  /** Whether a detail names a reason. */
  predicate NamesReason(d: Detail) {
    d.ErrorInfo? && d.reason != ""
  }

  /** Of several reasons the last decides, of several request ids the first. */
  lemma LastReasonFirstId(before: seq<Detail>, d: Detail, after: seq<Detail>)
    ensures NamesReason(d) && (forall x :: x in after ==> !NamesReason(x)) ==> CodeIn(before + [d] + after) == d.reason
    ensures IdOf(d) != "" && RequestIdIn(before) == "" ==> RequestIdIn(before + [d] + after) == IdOf(d)
  {
    assert (before + [d])[..|before|] == before;
    if NamesReason(d) && forall x :: x in after ==> !NamesReason(x) {
      CodeAppend(before + [d], after);
    }
    RequestIdAppend(before, [d]);
    RequestIdAppend(before + [d], after);
  }

  /** Of several lists of violations the last that is not empty is shown. */
  lemma {:induction false} LastViolationsShown(before: seq<Detail>, vs: seq<Violation>, after: seq<Detail>)
    requires vs != [] && forall d :: d in after ==> !d.BadRequest? || d.violations == []
    ensures DetailsIn(before + [BadRequest(vs)] + after) == Shown(vs)
    decreases |after|
  {
    var all := before + [BadRequest(vs)] + after;
    if after == [] {
      assert all[|all| - 1] == BadRequest(vs);
    } else {
      LastViolationsShown(before, vs, after[..|after| - 1]);
      assert all[..|all| - 1] == before + [BadRequest(vs)] + after[..|after| - 1];
      assert all[|all| - 1] == after[|after| - 1] && all[|all| - 1] in after;
    }
  }

  /** A status that names no reason parses to the code of its gRPC code. */
  lemma {:induction false} NoReason(details: seq<Detail>)
    requires forall d :: d in details ==> !NamesReason(d)
    ensures CodeIn(details) == "internal_error"
    decreases |details|
  {
    if details != [] {
      assert details[|details| - 1] in details;
      NoReason(details[..|details| - 1]);
    }
  }

  lemma BareStatusParses(st: Status)
    requires forall d :: d in st.details ==> !NamesReason(d)
    ensures var code := Parsed(Grpc(st)).0;
            match st.grpc
            case InvalidArgument => code == "validation_error"
            case AlreadyExists => code == "email_in_use"
            case NotFound => code == "not_found"
            case Unauthenticated => code == "invalid_credentials"
            case ResourceExhausted => code == "rate_limited"
            case _ => code == "internal_error"
    ensures Parsed(Grpc(st)).2 == st.grpc
  {
    NoReason(st.details);
  }
}
