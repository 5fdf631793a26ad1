/**
 * The error taxonomy: the OptimizelyError class and its seven subclasses,
 * and the classification of an HTTP error response into one of them.
 * Status meanings follow section 15 of RFC 9110, plus 429 from section 4
 * of RFC 6585.
 */
module Errors {
  import opened Wrappers
  import opened Records
  import opened Js

  /** Which class an error is an instance of; `Base` is OptimizelyError itself. */
  datatype Kind =
    | Base
    | Authentication
    | Authorization
    | NotFound
    | Validation
    | RateLimit
    | Server
    | Network

  /** The `name` each class sets. */
  function Name(k: Kind): string {
    match k
    case Base => "OptimizelyError"
    case Authentication => "AuthenticationError"
    case Authorization => "AuthorizationError"
    case NotFound => "NotFoundError"
    case Validation => "ValidationError"
    case RateLimit => "RateLimitError"
    case Server => "ServerError"
    case Network => "NetworkError"
  }

  /** The `code` each subclass passes to the base constructor. */
  function Code(k: Kind): string
    requires k != Base
  {
    match k
    case Authentication => "AUTHENTICATION_ERROR"
    case Authorization => "AUTHORIZATION_ERROR"
    case NotFound => "NOT_FOUND"
    case Validation => "VALIDATION_ERROR"
    case RateLimit => "RATE_LIMIT_ERROR"
    case Server => "SERVER_ERROR"
    case Network => "NETWORK_ERROR"
  }

  /** The subclasses that always carry the same status. */
  predicate HasFixedStatus(k: Kind) {
    k in {Authentication, Authorization, NotFound, Validation, RateLimit}
  }

  function FixedStatus(k: Kind): int
    requires HasFixedStatus(k)
  {
    match k
    case Authentication => 401
    case Authorization => 403
    case NotFound => 404
    case Validation => 400
    case RateLimit => 429
  }

  /** The `details` payloads the client attaches. */
  datatype Details =
    | NoDetails
    | ResponseDetails(endpoint: string, status: int, response: Value)
    | TimeoutDetails(endpoint: string, timeout: int)
    | CauseDetails(endpoint: string, originalError: Thrown)

  /** An instance of OptimizelyError or of one of its subclasses. */
  datatype OptimizelyError = OptimizelyError(
    kind: Kind,
    message: string,
    status: Option<int>,
    code: Option<string>,
    details: Details)

  /**
   * Anything a call can throw: an OptimizelyError, another Error instance
   * (a plain `Error`, a `TypeError`, the `AbortError` of an aborted fetch),
   * or a value that is not an Error at all.
   */
  datatype Thrown =
    | Api(err: OptimizelyError)
    | Native(name: string, message: string)
    | NonError(description: string)

  /** `new Error(message)`. */
  function PlainError(message: string): Thrown {
    Native("Error", message)
  }

  /** `error.name` of an Error instance. */
  function ThrownName(t: Thrown): string
    requires !t.NonError?
  {
    if t.Api? then Name(t.err.kind) else t.name
  }

  /** `error.message` of an Error instance. */
  function ThrownMessage(t: Thrown): string
    requires !t.NonError?
  {
    if t.Api? then t.err.message else t.message
  }

  /** What every subclass constructor establishes about status and code. */
  predicate WellFormed(e: OptimizelyError) {
    && (e.kind != Base ==> e.code == Some(Code(e.kind)))
    && (HasFixedStatus(e.kind) ==> e.status == Some(FixedStatus(e.kind)))
    && (e.kind == Network ==> e.status == None)
  }

  /** `new OptimizelyError(message, {status, code, details})`. */
  function NewOptimizelyError(message: string, status: Option<int>, code: Option<string>, details: Details): (e: OptimizelyError)
    ensures e.kind == Base && Name(e.kind) == "OptimizelyError"
    ensures e.message == message && e.status == status && e.code == code && e.details == details
  {
    OptimizelyError(Base, message, status, code, details)
  }

  /** A defaulted parameter: `undefined` takes the default. */
  function OrDefault(message: Option<string>, default: string): string {
    if message.Some? then message.value else default
  }

  /** `new AuthenticationError(message, details)`. */
  function NewAuthenticationError(message: Option<string>, details: Details): (e: OptimizelyError)
    ensures WellFormed(e) && e.kind == Authentication
    ensures e.status == Some(401) && e.code == Some("AUTHENTICATION_ERROR")
    ensures e.message == OrDefault(message, "Authentication failed") && e.details == details
  {
    OptimizelyError(Authentication, OrDefault(message, "Authentication failed"), Some(401), Some("AUTHENTICATION_ERROR"), details)
  }

  /** `new AuthorizationError(message, details)`. */
  function NewAuthorizationError(message: Option<string>, details: Details): (e: OptimizelyError)
    ensures WellFormed(e) && e.kind == Authorization
    ensures e.status == Some(403) && e.code == Some("AUTHORIZATION_ERROR")
    ensures e.message == OrDefault(message, "Not authorized to access this resource") && e.details == details
  {
    OptimizelyError(Authorization, OrDefault(message, "Not authorized to access this resource"), Some(403), Some("AUTHORIZATION_ERROR"), details)
  }

  /** `new NotFoundError(message, details)`. */
  function NewNotFoundError(message: Option<string>, details: Details): (e: OptimizelyError)
    ensures WellFormed(e) && e.kind == NotFound
    ensures e.status == Some(404) && e.code == Some("NOT_FOUND")
    ensures e.message == OrDefault(message, "Resource not found") && e.details == details
  {
    OptimizelyError(NotFound, OrDefault(message, "Resource not found"), Some(404), Some("NOT_FOUND"), details)
  }

  /** `new ValidationError(message, details)`. */
  function NewValidationError(message: Option<string>, details: Details): (e: OptimizelyError)
    ensures WellFormed(e) && e.kind == Validation
    ensures e.status == Some(400) && e.code == Some("VALIDATION_ERROR")
    ensures e.message == OrDefault(message, "Validation failed") && e.details == details
  {
    OptimizelyError(Validation, OrDefault(message, "Validation failed"), Some(400), Some("VALIDATION_ERROR"), details)
  }

  /** `new RateLimitError(message, details)`. */
  function NewRateLimitError(message: Option<string>, details: Details): (e: OptimizelyError)
    ensures WellFormed(e) && e.kind == RateLimit
    ensures e.status == Some(429) && e.code == Some("RATE_LIMIT_ERROR")
    ensures e.message == OrDefault(message, "Rate limit exceeded") && e.details == details
  {
    OptimizelyError(RateLimit, OrDefault(message, "Rate limit exceeded"), Some(429), Some("RATE_LIMIT_ERROR"), details)
  }

  /** `new ServerError(message, status, details)`: the status is whatever the caller passes. */
  function NewServerError(message: Option<string>, status: Option<int>, details: Details): (e: OptimizelyError)
    ensures WellFormed(e) && e.kind == Server
    ensures e.status == status && e.code == Some("SERVER_ERROR")
    ensures e.message == OrDefault(message, "Server error occurred") && e.details == details
  {
    OptimizelyError(Server, OrDefault(message, "Server error occurred"), status, Some("SERVER_ERROR"), details)
  }

  /** `new NetworkError(message, details)`: never a status. */
  function NewNetworkError(message: Option<string>, details: Details): (e: OptimizelyError)
    ensures WellFormed(e) && e.kind == Network
    ensures e.status == None && e.code == Some("NETWORK_ERROR")
    ensures e.message == OrDefault(message, "Network request failed") && e.details == details
  {
    OptimizelyError(Network, OrDefault(message, "Network request failed"), None, Some("NETWORK_ERROR"), details)
  }

  /** Property read on an error body; only objects have fields. */
  function Field(data: Value, key: string): Option<Value> {
    if data.Obj? then Get(data.fields, key) else None
  }

  /**
   * `typeof data === 'string' ? data : (data.message || data.error || 'API
   * request failed')`, converted to text as the Error constructor does.
   */
  function ErrorMessage(data: Value): (m: string)
    requires !data.Null?
    ensures data.Str? ==> m == data.s
    ensures !data.Str? && Truthy(Field(data, "message")) ==> m == ToText(Field(data, "message").value)
    ensures !data.Str? && !Truthy(Field(data, "message")) && Truthy(Field(data, "error")) ==> m == ToText(Field(data, "error").value)
    ensures !data.Str? && !Truthy(Field(data, "message")) && !Truthy(Field(data, "error")) ==> m == "API request failed"
  {
    if data.Str? then data.s
    else if Truthy(Field(data, "message")) then ToText(Field(data, "message").value)
    else if Truthy(Field(data, "error")) then ToText(Field(data, "error").value)
    else "API request failed"
  }

  /** The statuses classified as server errors. */
  const ServerStatuses: set<int> := {500, 502, 503, 504}

  /** Every status the switch names. */
  const ClassifiedStatuses: set<int> := {400, 401, 403, 404, 429} + ServerStatuses

  /**
   * `createErrorFromResponse(status, data, endpoint)`.  The class depends
   * on the status alone: 400, 401, 403, 404 and 429 pick their subclass,
   * exactly 500, 502, 503 and 504 give ServerError, and every other status
   * gives a plain OptimizelyError with code API_ERROR.  The status is kept,
   * the message comes from the body, and the details bundle the endpoint,
   * the status and the body unchanged.  The body is never null here: the
   * parameter's type (`ApiErrorResponse | string`) excludes it.
   */
  function CreateErrorFromResponse(status: int, data: Value, endpoint: string): (e: OptimizelyError)
    requires !data.Null?
    ensures WellFormed(e)
    ensures e.kind == Validation <==> status == 400
    ensures e.kind == Authentication <==> status == 401
    ensures e.kind == Authorization <==> status == 403
    ensures e.kind == NotFound <==> status == 404
    ensures e.kind == RateLimit <==> status == 429
    ensures e.kind == Server <==> status in ServerStatuses
    ensures e.kind == Base <==> status !in ClassifiedStatuses
    ensures e.kind != Network
    ensures e.status == Some(status)
    ensures e.code == Some(if e.kind == Base then "API_ERROR" else Code(e.kind))
    ensures e.message == ErrorMessage(data)
    ensures e.details == ResponseDetails(endpoint, status, data)
  {
    var message := ErrorMessage(data);
    var details := ResponseDetails(endpoint, status, data);
    match status
    case 400 => NewValidationError(Some(message), details)
    case 401 => NewAuthenticationError(Some(message), details)
    case 403 => NewAuthorizationError(Some(message), details)
    case 404 => NewNotFoundError(Some(message), details)
    case 429 => NewRateLimitError(Some(message), details)
    case 500 => NewServerError(Some(message), Some(status), details)
    case 502 => NewServerError(Some(message), Some(status), details)
    case 503 => NewServerError(Some(message), Some(status), details)
    case 504 => NewServerError(Some(message), Some(status), details)
    case _ => NewOptimizelyError(message, Some(status), Some("API_ERROR"), details)
  }

  /** The class chosen never depends on the body or the endpoint. */
  lemma KindDependsOnStatusOnly(status: int, d1: Value, d2: Value, ep1: string, ep2: string)
    requires !d1.Null? && !d2.Null?
    ensures CreateErrorFromResponse(status, d1, ep1).kind == CreateErrorFromResponse(status, d2, ep2).kind
  {
  }

  /** The five fixed-status classes give back the status they were made from. */
  lemma FixedStatusRoundTrip(status: int, data: Value, endpoint: string)
    requires !data.Null?
    ensures var e := CreateErrorFromResponse(status, data, endpoint);
      HasFixedStatus(e.kind) <==> status in {400, 401, 403, 404, 429}
    ensures var e := CreateErrorFromResponse(status, data, endpoint);
      HasFixedStatus(e.kind) ==> FixedStatus(e.kind) == status
  {
  }

  /** Other 5xx statuses, such as 501 and 505, are not server errors. */
  lemma Other5xxAreGeneric(data: Value, endpoint: string)
    requires !data.Null?
    ensures CreateErrorFromResponse(501, data, endpoint).kind == Base
    ensures CreateErrorFromResponse(505, data, endpoint).code == Some("API_ERROR")
  {
  }

  /** A string body is the message verbatim, even when it is empty. */
  lemma EmptyStringBodyIsMessage(status: int, endpoint: string)
    ensures CreateErrorFromResponse(status, Str(""), endpoint).message == ""
  {
  }

  /** An empty `message` field counts as absent: `error` is used instead. */
  lemma EmptyMessageFieldFallsBack(status: int, endpoint: string, text: string, fields: Record<Value>)
    requires text != ""
    requires fields == [("message", Str("")), ("error", Str(text))]
    ensures CreateErrorFromResponse(status, Obj(fields), endpoint).message == text
  {
    Literal2(("message", Str("")), ("error", Str(text)));
    assert !Truthy(Field(Obj(fields), "message"));
    assert ErrorMessage(Obj(fields)) == text;
  }
}
