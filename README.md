# Optimizely REST client — a verified model

This project models the deterministic core of a small TypeScript client
for the Optimizely REST API (v2). Four pieces are modelled:

- **Error taxonomy**: the `OptimizelyError` class, its seven subclasses,
  and `createErrorFromResponse`. That function maps an HTTP status, an
  error body and an endpoint to one error class, with its code, message and
  details. Status meanings follow section 15 of RFC 9110, plus 429 from
  section 4 of RFC 6585.
- **Request executor** (`HttpClient`), in four parts:
  - **Construction**: token normalisation and validation, then defaults
    for the base URL and the timeout.
  - **Request building**: the URL, with the
    `application/x-www-form-urlencoded` serializer of section 5.2 of the
    WHATWG URL Standard; the headers, with a bearer token as in section 2.1
    of RFC 6750; and the fetch arguments.
  - **Response classification**.
  - **The catch block** that turns aborts and "fetch" failures into
    `NetworkError`s.
- **Resource facades** (Projects, Experiments, Audiences, Pages,
  Campaigns). Each method is a function that returns one of two things: the
  message of the required-field guard that throws, or the single call it
  makes on the client.
- **`Facade.Perform`**: runs one facade decision against the client. A
  failed guard sends nothing.

The network is a parameter: a function from the fetch arguments to an
outcome. The outcome is a response (status, content type, and what reading
the body as text or as JSON gives) or a thrown value (an `AbortError` when
the timer fires).

Modules, one file each:

- **Support modules**:
  - `Wrappers`: Option and Result.
  - `Records`: JavaScript objects as ordered key/value sequences, with
    property read, property assignment and object spread.
  - `Strings`: `includes`, `trim` over the JavaScript white-space set, and
    `split`.
  - `Decimal`: digit strings and their values.
  - `Js`: values, truthiness, `String(v)`, `Number(s)` and how a number
    prints.
  - `FormUrlEncoded`: UTF-8 and percent-encoding.
- **The source's modules**:
  - `Errors` (src/errors.ts);
  - `HttpClient` (src/http-client.ts);
  - `Facade`, the shared shape of the resource classes;
  - `Projects`, `Experiments`, `Audiences`, `Pages` and `Campaigns`
    (src/resources/*.ts).

The source is mostly pure, and so is the model. Functions are the model
wherever the source computes a value or sets readonly fields once. Two
places are imperative:

- `buildUrl` appends into a mutable `URLSearchParams` in a loop. It is the
  method `HttpClient.BuildUrl`, proved against the function `HttpClient.Url`.
- `request` is try/catch plumbing around one fetch. It is the method
  `HttpClient.Request`, proved against `HttpClient.Prepared` and
  `HttpClient.Complete`.

On these points the code may surprise a reader; the model follows the code:

- **The timeout message** names only the timeout. The endpoint goes into
  the error's details, not its message (src/http-client.ts:59).
- **Other failures**: only errors whose message contains "fetch" become a
  `NetworkError`. Any other transport failure is rethrown unchanged
  (src/http-client.ts:61-66).
- **Token spaces**: only a space (U+0020) is rejected inside a token. A
  tab or another white-space character is accepted (src/http-client.ts:26).
- **Timeout**: any truthy timeout is kept, including a negative one.
  0 (and NaN) fall back to 30000 (src/http-client.ts:32).

## Model

| member | source | states |
|---|---|---|
| Errors.NewOptimizelyError | src/errors.ts:10-27 | the base class keeps message, status, code and details exactly as given; its name is OptimizelyError |
| Errors.NewAuthenticationError | src/errors.ts:32-37 | always status 401 and code AUTHENTICATION_ERROR; message defaults to "Authentication failed" only when undefined; details kept |
| Errors.NewAuthorizationError | src/errors.ts:42-47 | always status 403 and code AUTHORIZATION_ERROR; default message "Not authorized to access this resource" |
| Errors.NewNotFoundError | src/errors.ts:52-57 | always status 404 and code NOT_FOUND; default message "Resource not found" |
| Errors.NewValidationError | src/errors.ts:62-67 | always status 400 and code VALIDATION_ERROR; default message "Validation failed" |
| Errors.NewRateLimitError | src/errors.ts:72-77 | always status 429 and code RATE_LIMIT_ERROR; default message "Rate limit exceeded" |
| Errors.NewServerError | src/errors.ts:82-87 | code SERVER_ERROR; the status is whatever the caller passes; default message "Server error occurred" |
| Errors.NewNetworkError | src/errors.ts:92-97 | code NETWORK_ERROR and never a status; default message "Network request failed" |
| Errors.ErrorMessage | src/errors.ts:107 | a string body is the message verbatim; otherwise the truthy `message` field, else the truthy `error` field, else "API request failed" |
| Errors.CreateErrorFromResponse | src/errors.ts:102-129 | 400/401/403/404/429 give Validation/Authentication/Authorization/NotFound/RateLimit, each iff its status; exactly 500/502/503/504 give ServerError; every other status gives the base class with code API_ERROR; never a NetworkError; status always kept; message from the body; details are endpoint, status and the body unchanged; result well formed |
| Errors.KindDependsOnStatusOnly | src/errors.ts:110-128 | the class depends on the status alone, never on the body or the endpoint |
| Errors.FixedStatusRoundTrip | src/errors.ts:110-120 | a fixed-status class is produced iff the status is one of 400/401/403/404/429, and its fixed status is the input status |
| Errors.Other5xxAreGeneric | src/errors.ts:121-127 | 501 and 505 fall to the generic API_ERROR case |
| Errors.EmptyStringBodyIsMessage | src/errors.ts:107 | an empty string body becomes the empty message |
| Errors.EmptyMessageFieldFallsBack | src/errors.ts:107 | an empty `message` field counts as absent, so `error` is used |
| Strings.Trim | src/http-client.ts:19 | `trim()`: the result is an infix whose removed prefix and suffix are all white space and whose ends are not |
| Strings.Contains | src/http-client.ts:26 | `includes(sub)`: true exactly when `sub` starts at some position of the string |
| Strings.TrimPadded | src/http-client.ts:19 | trimming white space around a text with non-white ends gives that text |
| HttpClient.StripQuotes | src/http-client.ts:19 | the quote regex removes at most one leading and at most one trailing quote (' or "), and nothing else |
| HttpClient.StringOr | src/http-client.ts:31 | an undefined or empty base URL takes the default |
| HttpClient.NumberOr | src/http-client.ts:32 | an undefined, 0 or NaN timeout takes the default; any other value is kept |
| HttpClient.New | src/http-client.ts:13-33 | rejects in order: missing or empty token ("required"), empty after trim and quote stripping ("cannot be empty"), containing a space ("invalid whitespace"); succeeds iff none applies; stores the normalised token and the defaulted base URL and timeout; every client is Valid |
| HttpClient.StripQuotesWrapped | src/http-client.ts:19 | one quote at each end is removed and the text between is kept |
| HttpClient.AcceptsQuotedToken | src/http-client.ts:19-30 | a token wrapped in quotes and white space is stored bare, with the default base URL and timeout |
| HttpClient.AcceptsBareToken | src/http-client.ts:19-30 | a token with white space around it is stored trimmed |
| HttpClient.ExposedSpaceRejected | src/http-client.ts:19-28 | `" ab"` in quotes is rejected: the space exposed by quote removal is not trimmed again |
| HttpClient.TabAccepted | src/http-client.ts:26-30 | a tab inside the token is accepted |
| HttpClient.ZeroTimeoutIsDefault | src/http-client.ts:32 | a timeout of 0 becomes 30000 |
| HttpClient.Get | src/http-client.ts:73-75 | GET; the only helper that forwards query parameters |
| HttpClient.Post | src/http-client.ts:80-82 | POST with the body, no parameters |
| HttpClient.Put | src/http-client.ts:87-89 | PUT with the body, no parameters |
| HttpClient.Patch | src/http-client.ts:94-96 | PATCH with the body, no parameters |
| HttpClient.Delete | src/http-client.ts:101-103 | DELETE with neither body nor parameters |
| HttpClient.SearchPairs | src/http-client.ts:116-118 | one name/value pair per entry, in order, the value converted by `String(value)` |
| HttpClient.BuildUrl | src/http-client.ts:108-121 | the loop that appends one pair per entry produces exactly `Url` |
| HttpClient.Url | src/http-client.ts:108-121 | the URL starts with the base URL and endpoint, and continues, with "?", exactly when there are parameters |
| HttpClient.UrlWithoutParams | src/http-client.ts:109-113 | absent or empty parameters give base URL plus endpoint, nothing more |
| HttpClient.QueryHasOnePairPerEntry | src/http-client.ts:115-120 | otherwise the URL is base URL, endpoint, "?" and a query that splits at "&" into one part per entry, in order; each part splits at "=" into the encoded name and the encoded value |
| FormUrlEncoded.Encode | src/http-client.ts:120 | the serializer's output uses only unreserved characters, "+" and "%"; unreserved text is unchanged |
| FormUrlEncoded.NoSeparators | src/http-client.ts:120 | an encoded name or value never contains "&" or "=" |
| FormUrlEncoded.SplitPair | src/http-client.ts:117 | a serialized pair splits at "=" into exactly the encoded name and value |
| FormUrlEncoded.SplitSerialize | src/http-client.ts:120 | a serialized list splits at "&" into exactly the serialized pairs |
| FormUrlEncoded.Serialize | src/http-client.ts:120 | `searchParams.toString()`: empty exactly when there are no pairs, and holds "&" exactly when there are two or more |
| Records.Put | src/resources/pages.ts:60-63 | property assignment: the key gets the value, other keys keep theirs, an existing key keeps its position, a new key is appended |
| Records.Spread | src/http-client.ts:127-132 | object spread: keys of the later object win, other keys keep the earlier value, no other key appears |
| HttpClient.DefaultHeaders | src/http-client.ts:127-130 | the default headers carry the bearer token, a JSON content type and JSON accept |
| HttpClient.BuildHeaders | src/http-client.ts:126-133 | every header is the caller's when the caller gives that key, else the default bearer/JSON one |
| HttpClient.DefaultHeaderValues | src/http-client.ts:127-130 | without caller headers: Authorization is "Bearer " plus the token, Content-Type and Accept are application/json |
| HttpClient.Prepared | src/http-client.ts:39-49 | the fetch gets the built URL, the method or GET by default, the built headers, and the body only when it is truthy |
| HttpClient.ErrorData | src/http-client.ts:158-163 | the error body is the parsed JSON for a JSON content type, else the text, else "Unable to parse error response" when reading throws |
| HttpClient.IsJson | src/http-client.ts:139-140 | the response is JSON exactly when it has a content type that contains "application/json" at some position |
| HttpClient.Ok | src/http-client.ts:142 | `response.ok`: the status is in the 2xx class |
| HttpClient.HandleResponse | src/http-client.ts:138-166 | a 2xx response gives `{}` for 204, the parsed JSON for a JSON content type, the text otherwise; any other status always throws, the classified error of status, error body and endpoint (a null body throws the TypeError of reading `message`) |
| HttpClient.Rewrap | src/http-client.ts:54-67 | an AbortError becomes NetworkError "Request timeout after {timeout}ms" with details endpoint and timeout; another Error whose message contains "fetch" becomes NetworkError "Network request failed: {message}" wrapping it; everything else is rethrown unchanged; a new error never has a status |
| HttpClient.Complete | src/http-client.ts:43-67 | a request succeeds iff the fetch responded and the response was handled; every failure, including one thrown by the response handler, goes through the catch block |
| HttpClient.Request | src/http-client.ts:38-68 | on a client the constructor built (Valid), exactly one fetch, with the prepared arguments; the result is the completion of its outcome |
| HttpClient.TimeoutIsNetworkError | src/http-client.ts:57-60 | an abort yields the timeout NetworkError and never a value |
| HttpClient.ClassifiedErrorPropagates | src/http-client.ts:53-66 | a non-2xx response whose message lacks "fetch" reaches the caller as the classified error |
| HttpClient.FetchInApiMessageIsRewrapped | src/http-client.ts:61-63 | a classified API error whose message contains "fetch" is replaced by a NetworkError wrapping it |
| HttpClient.NotFoundMentioningFetch | src/http-client.ts:61-63 | for instance, a 404 with the message "could not fetch project" reaches the caller as a NetworkError, not a NotFoundError |
| Facade.StatusOnly | src/resources/experiments.ts:84-104 | the convenience body has the status field alone |
| Facade.Settle | src/resources/projects.ts:83-88 | a method returns the call's value, or nothing for delete; a failed call's error passes through unchanged |
| Facade.Perform | src/resources/projects.ts:24-29 | on a client the constructor built (Valid), a failed guard throws its plain Error and sends nothing; otherwise exactly one request is sent and its outcome is settled |
| Projects.List | src/resources/projects.ts:15-17 | no guard; GET /projects without parameters |
| Projects.Get | src/resources/projects.ts:24-29 | fails iff the id is empty ("Project ID is required"); otherwise GET /projects/ plus the id as given, whitespace included |
| Projects.Create | src/resources/projects.ts:36-49 | name is checked before account_id, each by truthiness; succeeds iff both pass; POSTs the data unchanged to /projects |
| Projects.Update | src/resources/projects.ts:57-68 | fails iff the id is empty; one PATCH to /projects/{id} with exactly the supplied data |
| Projects.Archive | src/resources/projects.ts:75-77 | exactly update with the status "archived" alone |
| Projects.Delete | src/resources/projects.ts:83-88 | fails iff the id is empty; one DELETE to /projects/{id}; returns nothing |
| Projects.EndpointIdentifiesProject | src/resources/projects.ts:28 | different ids give different endpoints |
| Experiments.List | src/resources/experiments.ts:16-21 | fails iff the project id is empty; GET /projects/{pid}/experiments |
| Experiments.Get | src/resources/experiments.ts:28-33 | fails iff the id is empty ("Experiment ID is required"); GET /experiments/{id} |
| Experiments.Create | src/resources/experiments.ts:41-57 | project id before name; succeeds iff both pass; POSTs the data unchanged to /projects/{pid}/experiments |
| Experiments.Update | src/resources/experiments.ts:65-77 | fails iff the id is empty; one PATCH to /experiments/{id} with exactly the data |
| Experiments.Start | src/resources/experiments.ts:84-86 | exactly update with the status "running" alone; the empty-id error comes from update |
| Experiments.Pause | src/resources/experiments.ts:93-95 | exactly update with the status "paused" alone |
| Experiments.Archive | src/resources/experiments.ts:102-104 | exactly update with the status "archived" alone |
| Experiments.Delete | src/resources/experiments.ts:110-115 | fails iff the id is empty; one DELETE to /experiments/{id}; returns nothing |
| Experiments.LifecycleBodiesDiffer | src/resources/experiments.ts:84-104 | start, pause and archive share the endpoint and send pairwise different bodies |
| Experiments.ListIdentifiesProject | src/resources/experiments.ts:20 | different project ids give different listing endpoints |
| Audiences.List | src/resources/audiences.ts:16-21 | fails iff the project id is empty; GET /audiences?project_id={pid}&archived=false by concatenation, with no parameter record |
| Audiences.Get | src/resources/audiences.ts:28-33 | fails iff the id is empty ("Audience ID is required"); GET /audiences/{id} |
| Audiences.Create | src/resources/audiences.ts:41-56 | project id before name; POSTs the data unchanged to /projects/{pid}/audiences |
| Audiences.Update | src/resources/audiences.ts:64-76 | fails iff the id is empty; one PATCH to /audiences/{id} with exactly the data |
| Audiences.Delete | src/resources/audiences.ts:82-87 | fails iff the id is empty; one DELETE to /audiences/{id}; returns nothing |
| Audiences.ListIdIsNotEncoded | src/resources/audiences.ts:20 | the project id is not encoded: an id holding "&" puts at least three "&"-separated parts into the endpoint |
| Audiences.ListIdentifiesProject | src/resources/audiences.ts:20 | different project ids give different listing endpoints |
| Pages.List | src/resources/pages.ts:16-23 | fails iff the project id is empty; GET /pages?project_id={pid}&archived=false with the raw, unconverted id |
| Pages.IdSegment | src/resources/pages.ts:34 | the printed `Number(pageId)` is "NaN" exactly when the conversion fails, and otherwise only digits with an optional leading "-", so it never adds a path or query separator |
| Pages.Get | src/resources/pages.ts:30-35 | the empty id fails ("Page ID is required") before any conversion; otherwise GET /pages/ plus `Number(id)` as printed |
| Pages.WithProject | src/resources/pages.ts:60-63 | the body is the data with `project_id` set to `Number(projectId)`, replacing any existing one; every other field unchanged |
| Pages.Create | src/resources/pages.ts:43-64 | project id before name, nothing else checked; POSTs to /pages (not under a project) the data with the converted project id |
| Pages.Update | src/resources/pages.ts:72-88 | fails iff the id is empty; one PATCH to /pages/{Number(id)} with exactly the data |
| Pages.ArchivedOnly | src/resources/pages.ts:96 | the archive body is `archived: true` alone, with no status field |
| Pages.Archive | src/resources/pages.ts:95-97 | exactly update with that body |
| Pages.Delete | src/resources/pages.ts:103-108 | fails iff the id is empty; one DELETE to /pages/{Number(id)}; returns nothing |
| Js.ToNumber | src/resources/pages.ts:34 | `Number(s)`: surrounding white space is ignored, a blank string is 0, a safe digit string, unsigned or signed with "+" or "-", is its signed value, every integer result is the signed value of its digits, and every integer result is safe |
| Js.NonNumeralIsNaN | src/resources/pages.ts:34 | a string holding a character that no number text can hold converts to NaN |
| Js.NumberText | src/resources/pages.ts:34 | a number prints as canonical decimal digits (with "-" when negative), and NaN prints as "NaN" |
| Js.Truthy | src/http-client.ts:47 | `Boolean(v)`: exactly undefined, null, false, 0, NaN and "" are falsy |
| Js.ToText | src/http-client.ts:117 | `String(v)`: a string is itself, an object "[object Object]", a number its text, and an array its items joined by "," with null as "" |
| Js.NumberTextOfDigits | src/resources/pages.ts:34 | converting a safe digit string and printing it drops exactly its leading zeros |
| Js.ToNumberOfText | src/resources/pages.ts:34 | printing a safe integer, negative or not, and converting it back gives it again |
| Pages.DigitIdLosesLeadingZeros | src/resources/pages.ts:34 | a decimal page id reaches the endpoint without its leading zeros |
| Pages.CanonicalIdUnchanged | src/resources/pages.ts:34 | a canonical page number, with "-" when negative, reaches the endpoint unchanged |
| Pages.NonNumericIdIsNaN | src/resources/pages.ts:30-35 | get, update and delete of an id holding a character that no number text holds (not a digit, white space, sign, point or letter) all address /pages/NaN |
| Pages.PaddedIdIsTrimmed | src/resources/pages.ts:34 | white space around a page id does not change the endpoint |
| Pages.BlankIdIsZero | src/resources/pages.ts:30-35 | a blank, non-empty id passes the guard and addresses /pages/0 |
| Pages.ZeroPaddedIdsCollide | src/resources/pages.ts:34 | "007" and "7" address the same page |
| Pages.CreateOverridesProjectId | src/resources/pages.ts:60-63 | a `project_id` already in the data is replaced in place by the converted one |
| Campaigns.List | src/resources/campaigns.ts:16-21 | fails iff the project id is empty; GET /campaigns?project_id={pid}&archived=false |
| Campaigns.Get | src/resources/campaigns.ts:28-33 | fails iff the id is empty ("Campaign ID is required"); GET /campaigns/{id} |
| Campaigns.Create | src/resources/campaigns.ts:41-61 | project id before name; POSTs the data unchanged to /projects/{pid}/campaigns |
| Campaigns.Update | src/resources/campaigns.ts:69-85 | fails iff the id is empty; one PATCH to /campaigns/{id} with exactly the data |
| Campaigns.Start | src/resources/campaigns.ts:92-94 | exactly update with the status "active" alone |
| Campaigns.Pause | src/resources/campaigns.ts:101-103 | exactly update with the status "paused" alone |
| Campaigns.Archive | src/resources/campaigns.ts:110-112 | exactly update with the status "archived" alone |
| Campaigns.Delete | src/resources/campaigns.ts:118-123 | fails iff the id is empty; one DELETE to /campaigns/{id}; returns nothing |
| Campaigns.GetResults | src/resources/campaigns.ts:130-135 | fails iff the id is empty; GET /campaigns/{id}/results |
| Campaigns.GetShareableLink | src/resources/campaigns.ts:142-147 | fails iff the id is empty; GET /campaigns/{id}/share_link |
| Campaigns.GetResultsCSV | src/resources/campaigns.ts:154-159 | fails iff the id is empty; GET /campaigns/{id}/results.csv |
| Campaigns.LifecycleBodiesDiffer | src/resources/campaigns.ts:92-112 | start, pause and archive share the endpoint and send pairwise different bodies |
| Campaigns.ResultsIdentifyCampaign | src/resources/campaigns.ts:134 | different ids give different results endpoints |

## Left out

- **I/O and timing**: `fetch`, `AbortController` and the timer are not
  modelled. The network is a function from the fetch arguments to an
  outcome, and an expired timer is the outcome "threw an AbortError". So
  the race between the timer and the response is not modelled, and neither
  is clearing the timer.
- **JSON**: neither `JSON.stringify` of the request body nor the parsing
  done by `response.json()` is modelled. A body is a JSON-like value, sent
  as it is. What reading a response body gives, or how it fails, is part of
  the response. As a result, NaN in a page body is modelled as NaN, where
  the JSON text would say null.
- Js.ToNumber: surrounding white space, a blank string (0) and an
  optionally signed decimal-digit string up to 2^53 - 1 are modelled;
  every other string is NaN in the model. These `Number(...)` behaviours
  are not modelled:
  - decimal fractions ("1.5", "1.0"), exponents ("1e3"), hexadecimal,
    octal and binary prefixes, and Infinity, which JavaScript converts
    to numbers;
  - the floating-point value of larger digit strings, which the model
    turns into NaN.
  `Pages.NonNumericIdIsNaN` is therefore stated only for ids holding a
  character that no number text can hold.
- **Number formats**: only integers are modelled, so there is no
  fractional or exponent formatting in `String(n)` or in template
  interpolation.
- **Key order**: the model enumerates object keys in insertion order. It
  leaves out the JavaScript rule that integer-like keys come first
  (`Object.entries`, spread and `URLSearchParams` order).
- HttpClient.New: a `config.token` of a type other than string is not
  modelled; such a value would make `trim` throw a TypeError.
- **Stack traces**: `Error.captureStackTrace` (src/errors.ts:23-25) is not
  modelled.
- **Non-Error throws**: a thrown value that is not an Error carries only an
  opaque description.
- **Response types**: the generic response types (`Promise<T>`) are left
  out; the value returned is the untyped JSON-like value.
- **Not part of this model**:
  - src/client.ts: wiring that builds one client and five facades; its
    `request` forwards unchanged.
  - src/index.ts: re-exports only.
  - src/types.ts: record shapes only. Request bodies are JSON-like
    records, and the `Campaign` type is opaque.
  - examples/*.ts: console and environment scripts.
