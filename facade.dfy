/**
 * What the five resource classes have in common.  Each of their methods
 * either throws a plain Error from a required-field guard before any
 * request, or makes exactly one call on the HttpClient; `Planned` is that
 * choice, and `Perform` carries it out.
 */
module Facade {
  import opened Wrappers
  import opened Js
  import opened Errors
  import Records
  import HttpClient

  /** The one call a facade method makes, and whether it returns the call's value (`delete` returns nothing). */
  datatype Plan = Plan(call: HttpClient.Call, returnsValue: bool)

  /** A facade method's decision: a guard's message, or the call it makes. */
  type Planned = Result<Plan, string>

  /** The method passed its guards and sends exactly this request, with no headers or query parameters. */
  predicate Sends(p: Planned, verb: HttpClient.Verb, endpoint: string, body: Option<Value>) {
    p.Success? && p.value.call == HttpClient.Call(endpoint, HttpClient.RequestOptions(Some(verb), body, None, None))
  }

  /** A request whose value the method returns to its caller. */
  function Returning(call: HttpClient.Call): (p: Planned)
    ensures p.Success? && p.value.call == call && p.value.returnsValue
  {
    Success(Plan(call, true))
  }

  /** A request the method awaits and whose value it discards. */
  function Discarding(call: HttpClient.Call): (p: Planned)
    ensures p.Success? && p.value.call == call && !p.value.returnsValue
  {
    Success(Plan(call, false))
  }

  /** The body of the convenience updates: the status field alone. */
  function StatusOnly(status: string): (body: Records.Record<Value>)
    ensures Records.Keys(body) == ["status"] && Records.Get(body, "status") == Some(Str(status))
  {
    Records.Put([], "status", Str(status))
  }

  /** What the awaiting method gives back: the value (or `undefined`), or the request's error unchanged. */
  function Settle(plan: Plan, outcome: Result<Value, Thrown>): (r: Result<Option<Value>, Thrown>)
    ensures r.Failure? <==> outcome.Failure?
    ensures r.Failure? ==> r.error == outcome.error
    ensures r.Success? ==> (r.value.Some? <==> plan.returnsValue)
    ensures r.Success? && r.value.Some? ==> r.value.value == outcome.value
  {
    match outcome
    case Failure(e) => Failure(e)
    case Success(v) => if plan.returnsValue then Success(Some(v)) else Success(None)
  }

  /**
   * Calls a facade method: a failed guard throws its plain Error and sends
   * nothing; otherwise exactly one request goes out and its result, or its
   * error, is what the caller sees.
   */
  method Perform(c: HttpClient.Client, planned: Planned, network: HttpClient.Fetch -> HttpClient.Outcome)
    returns (sent: Option<HttpClient.Fetch>, result: Result<Option<Value>, Thrown>)
    requires HttpClient.Valid(c)
    ensures planned.Failure? ==> sent.None? && result == Failure(PlainError(planned.error))
    ensures planned.Success? ==>
      var call := planned.value.call;
      && sent == Some(HttpClient.Prepared(c, call.endpoint, call.options))
      && result == Settle(planned.value, HttpClient.Complete(c, call.endpoint, network(sent.value)))
  {
    if planned.Failure? {
      sent := None;
      result := Failure(PlainError(planned.error));
      return;
    }
    var call := planned.value.call;
    var fetch, outcome := HttpClient.Request(c, call.endpoint, call.options, network);
    sent := Some(fetch);
    result := Settle(planned.value, outcome);
  }

  /** Endpoints built around an id by concatenation give the id back. */
  lemma InfixInjective(pre: string, a: string, b: string, post: string)
    requires pre + a + post == pre + b + post
    ensures a == b
  {
    var s := pre + a + post;
    assert |a| == |b|;
    assert a == s[|pre|..|pre| + |a|];
    assert b == (pre + b + post)[|pre|..|pre| + |b|];
  }
}
