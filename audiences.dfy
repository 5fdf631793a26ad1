/** The Audiences resource: request builders behind required-field guards. */
module Audiences {
  import opened Wrappers
  import opened Js
  import Records
  import opened Facade
  import HttpClient
  import Strings

  /**
   * `list(projectId)`: the query is written into the endpoint by plain
   * concatenation, without encoding the id and without a parameter record.
   */
  function List(projectId: string): (p: Planned)
    ensures p.Failure? <==> projectId == ""
    ensures p.Failure? ==> p.error == "Project ID is required"
    ensures p.Success? ==> Sends(p, HttpClient.GET, "/audiences?project_id=" + projectId + "&archived=false", None) && p.value.returnsValue
  {
    if projectId == "" then Failure("Project ID is required")
    else Returning(HttpClient.Get("/audiences?project_id=" + projectId + "&archived=false", None))
  }

  /** `get(audienceId)`. */
  function Get(audienceId: string): (p: Planned)
    ensures p.Failure? <==> audienceId == ""
    ensures p.Failure? ==> p.error == "Audience ID is required"
    ensures p.Success? ==> Sends(p, HttpClient.GET, "/audiences/" + audienceId, None) && p.value.returnsValue
  {
    if audienceId == "" then Failure("Audience ID is required")
    else Returning(HttpClient.Get("/audiences/" + audienceId, None))
  }

  /** `create(projectId, data)`: the project id is checked before the name; the data is posted unchanged. */
  function Create(projectId: string, data: Records.Record<Value>): (p: Planned)
    ensures projectId == "" ==> p == Failure("Project ID is required")
    ensures projectId != "" && !Truthy(Records.Get(data, "name")) ==> p == Failure("Audience name is required")
    ensures p.Success? <==> projectId != "" && Truthy(Records.Get(data, "name"))
    ensures p.Success? ==> Sends(p, HttpClient.POST, "/projects/" + projectId + "/audiences", Some(Obj(data))) && p.value.returnsValue
  {
    if projectId == "" then Failure("Project ID is required")
    else if !Truthy(Records.Get(data, "name")) then Failure("Audience name is required")
    else Returning(HttpClient.Post("/projects/" + projectId + "/audiences", Some(Obj(data))))
  }

  /** `update(audienceId, data)`: one PATCH carrying exactly the supplied fields. */
  function Update(audienceId: string, data: Records.Record<Value>): (p: Planned)
    ensures p.Failure? <==> audienceId == ""
    ensures p.Failure? ==> p.error == "Audience ID is required"
    ensures p.Success? ==> Sends(p, HttpClient.PATCH, "/audiences/" + audienceId, Some(Obj(data))) && p.value.returnsValue
  {
    if audienceId == "" then Failure("Audience ID is required")
    else Returning(HttpClient.Patch("/audiences/" + audienceId, Some(Obj(data))))
  }

  /** `delete(audienceId)`: one DELETE, whose value is discarded. */
  function Delete(audienceId: string): (p: Planned)
    ensures p.Failure? <==> audienceId == ""
    ensures p.Failure? ==> p.error == "Audience ID is required"
    ensures p.Success? ==> Sends(p, HttpClient.DELETE, "/audiences/" + audienceId, None) && !p.value.returnsValue
  {
    if audienceId == "" then Failure("Audience ID is required")
    else Discarding(HttpClient.Delete("/audiences/" + audienceId))
  }

  /**
   * Since the project id is not encoded, an id holding "&" adds query
   * parameters of its own: the listing query then has more than the two
   * parameters the method writes.
   */
  lemma ListIdIsNotEncoded(a: string, b: string)
    requires '&' !in a
    ensures var p := List(a + "&" + b);
      && p.Success?
      && |Strings.Split(p.value.call.endpoint, '&')| >= 3
  {
    var endpoint := "/audiences?project_id=" + (a + "&" + b) + "&archived=false";
    assert List(a + "&" + b).value.call.endpoint == endpoint;
    ThreeParts(a, b);
  }

  /** The split behind `ListIdIsNotEncoded`. */
  lemma ThreeParts(a: string, b: string)
    requires '&' !in a
    ensures |Strings.Split("/audiences?project_id=" + (a + "&" + b) + "&archived=false", '&')| >= 3
  {
    var prefix := "/audiences?project_id=";
    var rest := b + "&archived=false";
    var head := prefix + a;
    assert '&' !in prefix;
    assert '&' !in head;
    assert prefix + (a + "&" + b) + "&archived=false" == head + ['&'] + rest;
    Strings.SplitFirst(head, '&', rest);
    SplitCount(b, "archived=false");
  }

  /** Splitting `x + "&" + y` gives at least two parts. */
  lemma SplitCount(x: string, y: string)
    ensures |Strings.Split(x + "&" + y, '&')| >= 2
  {
    var s := x + "&" + y;
    assert s[|x|] == '&';
    assert '&' in s;
  }

  /** Two project ids that reach the same audience listing are the same id. */
  lemma ListIdentifiesProject(a: string, b: string)
    requires List(a).Success? && List(b).Success?
    requires List(a).value.call.endpoint == List(b).value.call.endpoint
    ensures a == b
  {
    InfixInjective("/audiences?project_id=", a, b, "&archived=false");
  }
}
