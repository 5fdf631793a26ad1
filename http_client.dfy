/**
 * The request executor (class HttpClient): token normalisation and
 * defaults, URL and header construction, response classification, and the
 * catch-and-rewrap logic around a single fetch.  The network is a
 * function from the request sent to its outcome.
 */
module HttpClient {
  import opened Wrappers
  import Records
  import opened Strings
  import opened Js
  import opened Errors
  import FormUrlEncoded

  const DefaultBaseUrl: string := "https://api.optimizely.com/v2"
  const DefaultTimeout: int := 30000

  /** `OptimizelyConfig`; `None` is a property left undefined. */
  datatype Config = Config(token: Option<string>, baseUrl: Option<string>, timeout: Option<Number>)

  /** The three readonly fields of an HttpClient, set once by its constructor. */
  datatype Client = Client(token: string, baseUrl: string, timeout: int)

  /** What the constructor guarantees of every client it returns. */
  predicate Valid(c: Client) {
    c.token != "" && ' ' !in c.token && c.baseUrl != "" && c.timeout != 0
  }

  predicate IsQuote(c: char) {
    c == '"' || c == '\''
  }

  /**
   * `s.replace(/^["']|["']$/g, '')`: at most one quote character goes from
   * the front and at most one from the back; a lone quote is removed once.
   */
  function StripQuotes(s: string): (r: string)
    ensures var lead := if |s| > 0 && IsQuote(s[0]) then 1 else 0;
      && lead + |r| <= |s|
      && r == s[lead..lead + |r|]
      && |s| - (lead + |r|) <= 1
      && (lead + |r| < |s| <==> |s| > lead && IsQuote(s[|s| - 1]))
  {
    var t := if |s| > 0 && IsQuote(s[0]) then s[1..] else s;
    if |t| > 0 && IsQuote(t[|t| - 1]) then t[..|t| - 1] else t
  }

  /** The token the constructor stores: trimmed, then stripped of its quotes (in that order only). */
  function NormalizeToken(token: string): string {
    StripQuotes(Trim(token))
  }

  /** `value || fallback` for an optional string. */
  function StringOr(value: Option<string>, fallback: string): (r: string)
    ensures value.Some? && value.value != "" ==> r == value.value
    ensures value.None? || value.value == "" ==> r == fallback
  {
    if value.Some? && value.value != "" then value.value else fallback
  }

  /** `value || fallback` for an optional number: undefined, 0 and NaN take the fallback. */
  function NumberOr(value: Option<Number>, fallback: int): (r: int)
    ensures Truthy(if value.Some? then Some(Num(value.value)) else None) ==> r == value.value.i
    ensures !Truthy(if value.Some? then Some(Num(value.value)) else None) ==> r == fallback
  {
    if value.Some? && value.value.Int? && value.value.i != 0 then value.value.i else fallback
  }

  /**
   * `new HttpClient(config)`.  It throws, in this order: when the token is
   * missing or empty; when nothing is left after normalisation; when what
   * is left contains a space (U+0020; other white space such as a tab is
   * accepted).  Otherwise it stores the normalised token, and takes the
   * default base URL and timeout for falsy values.
   */
  function New(config: Config): (r: Result<Client, Thrown>)
    ensures config.token.None? || config.token.value == "" ==>
      r == Failure(PlainError("Optimizely token is required"))
    ensures config.token.Some? && config.token.value != "" && NormalizeToken(config.token.value) == "" ==>
      r == Failure(PlainError("Optimizely token cannot be empty"))
    ensures config.token.Some? && NormalizeToken(config.token.value) != "" && ' ' in NormalizeToken(config.token.value) ==>
      r == Failure(PlainError("Optimizely token contains invalid whitespace"))
    ensures r.Success? <==> config.token.Some? && NormalizeToken(config.token.value) != "" && ' ' !in NormalizeToken(config.token.value)
    ensures r.Success? ==> Valid(r.value) && r.value.token == NormalizeToken(config.token.value)
    ensures r.Success? ==> r.value.baseUrl == StringOr(config.baseUrl, DefaultBaseUrl)
    ensures r.Success? ==> r.value.timeout == NumberOr(config.timeout, DefaultTimeout)
  {
    if config.token.None? || config.token.value == "" then
      Failure(PlainError("Optimizely token is required"))
    else
      var token := NormalizeToken(config.token.value);
      if token == "" then
        Failure(PlainError("Optimizely token cannot be empty"))
      else if ' ' in token then
        Failure(PlainError("Optimizely token contains invalid whitespace"))
      else
        Success(Client(token, StringOr(config.baseUrl, DefaultBaseUrl), NumberOr(config.timeout, DefaultTimeout)))
  }

  /** One quote at each end is removed and nothing else. */
  lemma StripQuotesWrapped(q1: char, t: string, q2: char)
    requires IsQuote(q1) && IsQuote(q2)
    ensures StripQuotes([q1] + t + [q2]) == t
  {
    var s := [q1] + t + [q2];
    assert s[1..] == t + [q2];
    assert (t + [q2])[..|t|] == t;
  }

  /** A token wrapped in quotes and surrounded by white space is stored bare. */
  lemma AcceptsQuotedToken(pre: string, q1: char, t: string, q2: char, post: string)
    requires AllWhiteSpace(pre) && AllWhiteSpace(post) && IsQuote(q1) && IsQuote(q2)
    requires t != "" && ' ' !in t
    ensures New(Config(Some(pre + [q1] + t + [q2] + post), None, None)) == Success(Client(t, DefaultBaseUrl, DefaultTimeout))
  {
    var quoted := [q1] + t + [q2];
    assert pre + [q1] + t + [q2] + post == pre + quoted + post;
    TrimPadded(pre, quoted, post);
    StripQuotesWrapped(q1, t, q2);
    assert NormalizeToken(pre + quoted + post) == t;
  }

  /** A token with no quotes or white space at its ends is stored as it is. */
  lemma {:induction false} AcceptsBareToken(pre: string, t: string, post: string)
    requires AllWhiteSpace(pre) && AllWhiteSpace(post)
    requires t != "" && ' ' !in t
    requires !IsWhiteSpace(t[0]) && !IsWhiteSpace(t[|t| - 1]) && !IsQuote(t[0]) && !IsQuote(t[|t| - 1])
    ensures New(Config(Some(pre + t + post), None, None)) == Success(Client(t, DefaultBaseUrl, DefaultTimeout))
  {
    TrimPadded(pre, t, post);
  }

  /** White space exposed by removing a quote is not trimmed again, so this token is rejected. */
  lemma ExposedSpaceRejected()
    ensures New(Config(Some("\" ab\""), None, None)) == Failure(PlainError("Optimizely token contains invalid whitespace"))
  {
    TrimPadded("", "\" ab\"", "");
    assert "" + "\" ab\"" + "" == "\" ab\"";
    assert StripQuotes("\" ab\"") == " ab";
  }

  /** A tab inside the token is not a space and is accepted. */
  lemma TabAccepted()
    ensures New(Config(Some("ab\tcd"), None, None)) == Success(Client("ab\tcd", DefaultBaseUrl, DefaultTimeout))
  {
    AcceptsBareToken("", "ab\tcd", "");
    assert "" + "ab\tcd" + "" == "ab\tcd";
  }

  /** A timeout of 0 is falsy and becomes the default. */
  lemma ZeroTimeoutIsDefault(token: string, baseUrl: Option<string>)
    requires New(Config(Some(token), baseUrl, None)).Success?
    ensures New(Config(Some(token), baseUrl, Some(Int(0)))).value.timeout == 30000
  {
  }

  datatype Verb = GET | POST | PUT | PATCH | DELETE

  /** `RequestOptions`; `None` is a property left undefined. */
  datatype RequestOptions = RequestOptions(
    verb: Option<Verb>,
    body: Option<Value>,
    headers: Option<Records.Record<string>>,
    params: Option<Records.Record<Value>>)

  /** One call of `request(endpoint, options)`. */
  datatype Call = Call(endpoint: string, options: RequestOptions)

  /** `get(endpoint, params)`: the only helper that forwards query parameters. */
  function Get(endpoint: string, params: Option<Records.Record<Value>>): (r: Call)
    ensures r.endpoint == endpoint && r.options.verb == Some(GET)
    ensures r.options.params == params && r.options.body.None? && r.options.headers.None?
  {
    Call(endpoint, RequestOptions(Some(GET), None, None, params))
  }

  /** `post(endpoint, body)`. */
  function Post(endpoint: string, body: Option<Value>): (r: Call)
    ensures r.endpoint == endpoint && r.options.verb == Some(POST)
    ensures r.options.body == body && r.options.params.None? && r.options.headers.None?
  {
    Call(endpoint, RequestOptions(Some(POST), body, None, None))
  }

  /** `put(endpoint, body)`. */
  function Put(endpoint: string, body: Option<Value>): (r: Call)
    ensures r.endpoint == endpoint && r.options.verb == Some(PUT)
    ensures r.options.body == body && r.options.params.None? && r.options.headers.None?
  {
    Call(endpoint, RequestOptions(Some(PUT), body, None, None))
  }

  /** `patch(endpoint, body)`. */
  function Patch(endpoint: string, body: Option<Value>): (r: Call)
    ensures r.endpoint == endpoint && r.options.verb == Some(PATCH)
    ensures r.options.body == body && r.options.params.None? && r.options.headers.None?
  {
    Call(endpoint, RequestOptions(Some(PATCH), body, None, None))
  }

  /** `delete(endpoint)`: no body, no parameters. */
  function Delete(endpoint: string): (r: Call)
    ensures r.endpoint == endpoint && r.options.verb == Some(DELETE)
    ensures r.options.body.None? && r.options.params.None? && r.options.headers.None?
  {
    Call(endpoint, RequestOptions(Some(DELETE), None, None, None))
  }

  /** The name-value pairs `URLSearchParams` holds: each value through `String(value)`. */
  function SearchPairs(params: seq<(string, Value)>): (pairs: seq<(string, string)>)
    ensures |pairs| == |params|
    ensures forall i :: 0 <= i < |params| ==> pairs[i] == (params[i].0, ToText(params[i].1))
  {
    seq(|params|, i requires 0 <= i < |params| => (params[i].0, ToText(params[i].1)))
  }

  /** The URL `buildUrl` returns. */
  function Url(c: Client, endpoint: string, params: Option<Records.Record<Value>>): (u: string)
    ensures c.baseUrl + endpoint <= u
    ensures |u| > |c.baseUrl + endpoint| <==> params.Some? && params.value != []
    ensures |u| > |c.baseUrl + endpoint| ==> u[|c.baseUrl + endpoint|] == '?'
  {
    if params.None? || params.value == [] then c.baseUrl + endpoint
    else c.baseUrl + endpoint + "?" + FormUrlEncoded.Serialize(SearchPairs(params.value))
  }

  /**
   * `buildUrl(endpoint, params)`: base URL and endpoint, then, when there
   * are parameters, "?" and the serialized parameters appended one by one
   * in enumeration order.
   */
  method BuildUrl(c: Client, endpoint: string, params: Option<Records.Record<Value>>) returns (url: string)
    ensures url == Url(c, endpoint, params)
  {
    url := c.baseUrl + endpoint;
    if params.None? || |params.value| == 0 {
      return;
    }
    var entries := params.value;
    var searchParams: seq<(string, string)> := [];
    var i := 0;
    while i < |entries|
      invariant 0 <= i <= |entries|
      invariant |searchParams| == i
      invariant forall j :: 0 <= j < i ==> searchParams[j] == (entries[j].0, ToText(entries[j].1))
    {
      searchParams := searchParams + [(entries[i].0, ToText(entries[i].1))];
      i := i + 1;
    }
    assert searchParams == SearchPairs(entries);
    url := url + "?" + FormUrlEncoded.Serialize(searchParams);
  }

  /** Without parameters, or with none in the record, the URL is exactly base URL plus endpoint. */
  lemma UrlWithoutParams(c: Client, endpoint: string)
    ensures Url(c, endpoint, None) == c.baseUrl + endpoint
    ensures Url(c, endpoint, Some([])) == c.baseUrl + endpoint
  {
  }

  /**
   * With parameters, the query splits at "&" into one "name=value" part
   * per entry, in order, and each part splits at "=" into the encoded name
   * and the encoded text of the value.
   */
  lemma QueryHasOnePairPerEntry(c: Client, endpoint: string, params: Records.Record<Value>)
    requires params != []
    ensures var query := FormUrlEncoded.Serialize(SearchPairs(params));
      && Url(c, endpoint, Some(params)) == c.baseUrl + endpoint + "?" + query
      && |Split(query, '&')| == |params|
      && forall i :: 0 <= i < |params| ==>
           Split(Split(query, '&')[i], '=') == [FormUrlEncoded.Encode(params[i].0), FormUrlEncoded.Encode(ToText(params[i].1))]
  {
    var pairs := SearchPairs(params);
    FormUrlEncoded.SplitSerialize(pairs);
    forall i | 0 <= i < |params|
      ensures Split(FormUrlEncoded.Pair(pairs[i]), '=') == [FormUrlEncoded.Encode(params[i].0), FormUrlEncoded.Encode(ToText(params[i].1))]
    {
      FormUrlEncoded.SplitPair(pairs[i]);
    }
  }

  /** The headers every request starts from. */
  function DefaultHeaders(c: Client): (h: Records.Record<string>)
    ensures Records.Get(h, "Authorization") == Some("Bearer " + c.token)
    ensures Records.Get(h, "Content-Type") == Some("application/json")
    ensures Records.Get(h, "Accept") == Some("application/json")
  {
    Records.Literal3(("Authorization", "Bearer " + c.token), ("Content-Type", "application/json"), ("Accept", "application/json"));
    [("Authorization", "Bearer " + c.token), ("Content-Type", "application/json"), ("Accept", "application/json")]
  }

  /**
   * `buildHeaders(customHeaders)`: the bearer token, JSON content type and
   * JSON accept, with every caller header added and winning on its key.
   */
  function BuildHeaders(c: Client, custom: Option<Records.Record<string>>): (h: Records.Record<string>)
    ensures var extra := if custom.Some? then custom.value else [];
      forall k :: Records.Get(h, k) == if Records.Get(extra, k).Some? then Records.Get(extra, k) else Records.Get(DefaultHeaders(c), k)
  {
    Records.Spread(DefaultHeaders(c), if custom.Some? then custom.value else [])
  }

  /** Absent caller headers leave the bearer token, content type and accept in place. */
  lemma DefaultHeaderValues(c: Client, custom: Option<Records.Record<string>>)
    requires custom.None? || (custom.value == [])
    ensures Records.Get(BuildHeaders(c, custom), "Authorization") == Some("Bearer " + c.token)
    ensures Records.Get(BuildHeaders(c, custom), "Content-Type") == Some("application/json")
    ensures Records.Get(BuildHeaders(c, custom), "Accept") == Some("application/json")
  {
  }

  /** The arguments of the one `fetch` a request makes. */
  datatype Fetch = Fetch(url: string, verb: Verb, headers: Records.Record<string>, body: Option<Value>)

  /**
   * What `request` passes to `fetch`: the built URL, the method (GET by
   * default), the built headers, and the body only when it is truthy
   * (JSON text in the source; the value itself here).
   */
  function Prepared(c: Client, endpoint: string, options: RequestOptions): (f: Fetch)
    ensures f.url == Url(c, endpoint, options.params)
    ensures f.verb == if options.verb.Some? then options.verb.value else GET
    ensures f.headers == BuildHeaders(c, options.headers)
    ensures f.body == if Truthy(options.body) then options.body else None
  {
    Fetch(
      Url(c, endpoint, options.params),
      if options.verb.Some? then options.verb.value else GET,
      BuildHeaders(c, options.headers),
      if Truthy(options.body) then options.body else None)
  }

  /**
   * A fetched response: its status, its content-type header, and what
   * reading the body as text or as JSON would give (either can throw).
   */
  datatype Response = Response(
    status: int,
    contentType: Option<string>,
    text: Result<string, Thrown>,
    json: Result<Value, Thrown>)

  /** How the one `fetch` ends: with a response, or by throwing (an abort throws an AbortError). */
  datatype Outcome = Responded(response: Response) | Threw(error: Thrown)

  /** The content type mentions "application/json" somewhere, as `includes` tests. */
  predicate IsJson(r: Response): (b: bool)
    ensures b <==> r.contentType.Some? && exists i :: 0 <= i <= |r.contentType.value| && "application/json" <= r.contentType.value[i..]
  {
    r.contentType.Some? && Contains(r.contentType.value, "application/json")
  }

  /** `response.ok`: a 2xx status (section 15.3 of RFC 9110). */
  predicate Ok(r: Response): (b: bool)
    ensures b <==> r.status / 100 == 2
  {
    200 <= r.status <= 299
  }

  /** The error body handed to the classifier: parsed JSON or text, or a placeholder when reading throws. */
  function ErrorData(r: Response): (data: Value)
    ensures IsJson(r) && r.json.Success? ==> data == r.json.value
    ensures !IsJson(r) && r.text.Success? ==> data == Str(r.text.value)
    ensures (if IsJson(r) then r.json.Failure? else r.text.Failure?) ==> data == Str("Unable to parse error response")
  {
    if IsJson(r) then
      if r.json.Success? then r.json.value else Str("Unable to parse error response")
    else
      if r.text.Success? then Str(r.text.value) else Str("Unable to parse error response")
  }

  /** The TypeError JavaScript throws when the classifier reads `message` of a null body. */
  const NullBodyError: Thrown := Native("TypeError", "Cannot read properties of null (reading 'message')")

  /**
   * `handleResponse(response, endpoint)`.  A 2xx response gives `{}` for
   * 204, the parsed body for JSON and the raw text otherwise; any other
   * status always throws, normally the classified error.
   */
  function HandleResponse(r: Response, endpoint: string): (result: Result<Value, Thrown>)
    ensures Ok(r) && r.status == 204 ==> result == Success(Obj([]))
    ensures Ok(r) && r.status != 204 && IsJson(r) ==> result == r.json
    ensures Ok(r) && r.status != 204 && !IsJson(r) ==>
      result == if r.text.Success? then Success(Str(r.text.value)) else Failure(r.text.error)
    ensures !Ok(r) ==> result.Failure?
    ensures !Ok(r) && !ErrorData(r).Null? ==>
      result == Failure(Api(CreateErrorFromResponse(r.status, ErrorData(r), endpoint)))
    ensures !Ok(r) && ErrorData(r).Null? ==> result == Failure(NullBodyError)
  {
    if Ok(r) then
      if r.status == 204 then Success(Obj([]))
      else if IsJson(r) then r.json
      else if r.text.Success? then Success(Str(r.text.value))
      else Failure(r.text.error)
    else
      var data := ErrorData(r);
      if data.Null? then Failure(NullBodyError)
      else Failure(Api(CreateErrorFromResponse(r.status, data, endpoint)))
  }

  /** Whether the catch block replaces an error rather than rethrowing it. */
  predicate Rewrapped(e: Thrown) {
    !e.NonError? && (ThrownName(e) == "AbortError" || Contains(ThrownMessage(e), "fetch"))
  }

  /**
   * The catch block of `request`: an AbortError becomes a timeout
   * NetworkError, any other Error whose message contains "fetch" becomes a
   * NetworkError wrapping it, and anything else is rethrown unchanged.
   */
  function Rewrap(c: Client, endpoint: string, e: Thrown): (r: Thrown)
    ensures !Rewrapped(e) ==> r == e
    ensures Rewrapped(e) ==> r.Api? && WellFormed(r.err) && r.err.kind == Network && r.err.status.None?
    ensures Rewrapped(e) && ThrownName(e) == "AbortError" ==>
      r.err.message == "Request timeout after " + NumberText(Int(c.timeout)) + "ms"
      && r.err.details == TimeoutDetails(endpoint, c.timeout)
    ensures Rewrapped(e) && ThrownName(e) != "AbortError" ==>
      r.err.message == "Network request failed: " + ThrownMessage(e)
      && r.err.details == CauseDetails(endpoint, e)
  {
    if e.NonError? then e
    else if ThrownName(e) == "AbortError" then
      Api(NewNetworkError(Some("Request timeout after " + NumberText(Int(c.timeout)) + "ms"), TimeoutDetails(endpoint, c.timeout)))
    else if Contains(ThrownMessage(e), "fetch") then
      Api(NewNetworkError(Some("Network request failed: " + ThrownMessage(e)), CauseDetails(endpoint, e)))
    else e
  }

  /** How a request ends once the fetch has its outcome. */
  function Complete(c: Client, endpoint: string, outcome: Outcome): (r: Result<Value, Thrown>)
    ensures r.Success? <==> outcome.Responded? && HandleResponse(outcome.response, endpoint).Success?
    ensures r.Success? ==> r == HandleResponse(outcome.response, endpoint)
    ensures outcome.Threw? ==> r == Failure(Rewrap(c, endpoint, outcome.error))
    ensures outcome.Responded? && r.Failure? ==> r == Failure(Rewrap(c, endpoint, HandleResponse(outcome.response, endpoint).error))
  {
    var attempt := if outcome.Responded? then HandleResponse(outcome.response, endpoint) else Failure(outcome.error);
    if attempt.Success? then attempt else Failure(Rewrap(c, endpoint, attempt.error))
  }

  /**
   * `request(endpoint, options)`: builds the URL and the fetch arguments,
   * makes exactly one fetch, and classifies or rewraps what comes back.
   */
  method Request(c: Client, endpoint: string, options: RequestOptions, network: Fetch -> Outcome)
    returns (sent: Fetch, result: Result<Value, Thrown>)
    requires Valid(c)
    ensures sent == Prepared(c, endpoint, options)
    ensures result == Complete(c, endpoint, network(sent))
  {
    var url := BuildUrl(c, endpoint, options.params);
    var verb := if options.verb.Some? then options.verb.value else GET;
    var body := if Truthy(options.body) then options.body else None;
    sent := Fetch(url, verb, BuildHeaders(c, options.headers), body);
    var outcome := network(sent);
    var attempt: Result<Value, Thrown>;
    if outcome.Responded? {
      attempt := HandleResponse(outcome.response, endpoint);
    } else {
      attempt := Failure(outcome.error);
    }
    if attempt.Failure? {
      result := Failure(Rewrap(c, endpoint, attempt.error));
    } else {
      result := attempt;
    }
  }

  /** A request that times out yields the timeout NetworkError and never a value. */
  lemma TimeoutIsNetworkError(c: Client, endpoint: string, message: string)
    ensures Complete(c, endpoint, Threw(Native("AbortError", message))) ==
      Failure(Api(NewNetworkError(Some("Request timeout after " + NumberText(Int(c.timeout)) + "ms"), TimeoutDetails(endpoint, c.timeout))))
  {
  }

  /** A non-2xx response whose error does not mention "fetch" reaches the caller as classified. */
  lemma ClassifiedErrorPropagates(c: Client, endpoint: string, r: Response)
    requires !Ok(r) && !ErrorData(r).Null?
    requires !Contains(ErrorMessage(ErrorData(r)), "fetch")
    ensures Complete(c, endpoint, Responded(r)) == Failure(Api(CreateErrorFromResponse(r.status, ErrorData(r), endpoint)))
  {
    var e := CreateErrorFromResponse(r.status, ErrorData(r), endpoint);
    assert HandleResponse(r, endpoint) == Failure(Api(e));
    ApiErrorIsNotAbort(e);
    assert !Rewrapped(Api(e));
  }

  /** Even a classified API error is turned into a NetworkError when its message mentions "fetch". */
  lemma FetchInApiMessageIsRewrapped(c: Client, endpoint: string, r: Response)
    requires !Ok(r) && !ErrorData(r).Null?
    requires Contains(ErrorMessage(ErrorData(r)), "fetch")
    ensures var e := CreateErrorFromResponse(r.status, ErrorData(r), endpoint);
      Complete(c, endpoint, Responded(r)) ==
        Failure(Api(NewNetworkError(Some("Network request failed: " + e.message), CauseDetails(endpoint, Api(e)))))
  {
    var e := CreateErrorFromResponse(r.status, ErrorData(r), endpoint);
    assert HandleResponse(r, endpoint) == Failure(Api(e));
    ApiErrorIsNotAbort(e);
  }

  /** No OptimizelyError is named "AbortError". */
  lemma ApiErrorIsNotAbort(e: OptimizelyError)
    ensures ThrownName(Api(e)) != "AbortError"
  {
    assert ThrownName(Api(e)) == Name(e.kind);
    match e.kind
    case Base =>
    case Authentication =>
    case Authorization =>
    case NotFound =>
    case Validation =>
    case RateLimit =>
    case Server =>
    case Network =>
  }

  /** For instance, a 404 whose JSON message is "could not fetch project" reaches the caller as a NetworkError. */
  lemma NotFoundMentioningFetch(c: Client, endpoint: string)
    ensures var body := Obj([("message", Str("could not fetch project"))]);
      var r := Response(404, Some("application/json"), Success(""), Success(body));
      var e := CreateErrorFromResponse(404, body, endpoint);
      var result := Complete(c, endpoint, Responded(r));
      && e.kind == NotFound
      && result.Failure? && result.error.Api?
      && result.error.err.kind == Network
      && result.error.err.details == CauseDetails(endpoint, Api(e))
  {
    var body := Obj([("message", Str("could not fetch project"))]);
    var r := Response(404, Some("application/json"), Success(""), Success(body));
    NotFoundResponse(body, r);
    FetchInApiMessageIsRewrapped(c, endpoint, r);
  }

  /** The JSON body of that 404 is the error data, and its message mentions "fetch". */
  lemma NotFoundResponse(body: Value, r: Response)
    requires body == Obj([("message", Str("could not fetch project"))])
    requires r == Response(404, Some("application/json"), Success(""), Success(body))
    ensures !Ok(r) && ErrorData(r) == body
    ensures Contains(ErrorMessage(ErrorData(r)), "fetch")
  {
    Records.GetEntry(body.fields, 0);
    assert ErrorMessage(body) == "could not fetch project";
    ContainsAt("application/json", "application/json", 0);
    ContainsAt("could not fetch project", "fetch", 10);
  }
}
