/** The Experiments resource: request builders behind required-field guards. */
module Experiments {
  import opened Wrappers
  import opened Js
  import Records
  import opened Facade
  import HttpClient

  /** `list(projectId)`: GET the project's experiments. */
  function List(projectId: string): (p: Planned)
    ensures p.Failure? <==> projectId == ""
    ensures p.Failure? ==> p.error == "Project ID is required"
    ensures p.Success? ==> Sends(p, HttpClient.GET, "/projects/" + projectId + "/experiments", None) && p.value.returnsValue
  {
    if projectId == "" then Failure("Project ID is required")
    else Returning(HttpClient.Get("/projects/" + projectId + "/experiments", None))
  }

  /** `get(experimentId)`. */
  function Get(experimentId: string): (p: Planned)
    ensures p.Failure? <==> experimentId == ""
    ensures p.Failure? ==> p.error == "Experiment ID is required"
    ensures p.Success? ==> Sends(p, HttpClient.GET, "/experiments/" + experimentId, None) && p.value.returnsValue
  {
    if experimentId == "" then Failure("Experiment ID is required")
    else Returning(HttpClient.Get("/experiments/" + experimentId, None))
  }

  /** `create(projectId, data)`: the project id is checked before the name; the data is posted unchanged. */
  function Create(projectId: string, data: Records.Record<Value>): (p: Planned)
    ensures projectId == "" ==> p == Failure("Project ID is required")
    ensures projectId != "" && !Truthy(Records.Get(data, "name")) ==> p == Failure("Experiment name is required")
    ensures p.Success? <==> projectId != "" && Truthy(Records.Get(data, "name"))
    ensures p.Success? ==> Sends(p, HttpClient.POST, "/projects/" + projectId + "/experiments", Some(Obj(data))) && p.value.returnsValue
  {
    if projectId == "" then Failure("Project ID is required")
    else if !Truthy(Records.Get(data, "name")) then Failure("Experiment name is required")
    else Returning(HttpClient.Post("/projects/" + projectId + "/experiments", Some(Obj(data))))
  }

  /** `update(experimentId, data)`: one PATCH carrying exactly the supplied fields. */
  function Update(experimentId: string, data: Records.Record<Value>): (p: Planned)
    ensures p.Failure? <==> experimentId == ""
    ensures p.Failure? ==> p.error == "Experiment ID is required"
    ensures p.Success? ==> Sends(p, HttpClient.PATCH, "/experiments/" + experimentId, Some(Obj(data))) && p.value.returnsValue
  {
    if experimentId == "" then Failure("Experiment ID is required")
    else Returning(HttpClient.Patch("/experiments/" + experimentId, Some(Obj(data))))
  }

  /** `start(experimentId)`: `update` with the status "running" alone. */
  function Start(experimentId: string): (p: Planned)
    ensures p == Update(experimentId, StatusOnly("running"))
    ensures p.Failure? <==> experimentId == ""
    ensures p.Failure? ==> p.error == "Experiment ID is required"
  {
    Update(experimentId, StatusOnly("running"))
  }

  /** `pause(experimentId)`: `update` with the status "paused" alone. */
  function Pause(experimentId: string): (p: Planned)
    ensures p == Update(experimentId, StatusOnly("paused"))
    ensures p.Failure? <==> experimentId == ""
    ensures p.Failure? ==> p.error == "Experiment ID is required"
  {
    Update(experimentId, StatusOnly("paused"))
  }

  /** `archive(experimentId)`: `update` with the status "archived" alone. */
  function Archive(experimentId: string): (p: Planned)
    ensures p == Update(experimentId, StatusOnly("archived"))
    ensures p.Failure? <==> experimentId == ""
    ensures p.Failure? ==> p.error == "Experiment ID is required"
  {
    Update(experimentId, StatusOnly("archived"))
  }

  /** `delete(experimentId)`: one DELETE, whose value is discarded. */
  function Delete(experimentId: string): (p: Planned)
    ensures p.Failure? <==> experimentId == ""
    ensures p.Failure? ==> p.error == "Experiment ID is required"
    ensures p.Success? ==> Sends(p, HttpClient.DELETE, "/experiments/" + experimentId, None) && !p.value.returnsValue
  {
    if experimentId == "" then Failure("Experiment ID is required")
    else Discarding(HttpClient.Delete("/experiments/" + experimentId))
  }

  /** The three lifecycle calls send three different bodies to the same endpoint. */
  lemma LifecycleBodiesDiffer(experimentId: string)
    requires experimentId != ""
    ensures Start(experimentId).value.call.endpoint == Pause(experimentId).value.call.endpoint == Archive(experimentId).value.call.endpoint
    ensures Start(experimentId).value.call.options.body != Pause(experimentId).value.call.options.body
    ensures Pause(experimentId).value.call.options.body != Archive(experimentId).value.call.options.body
    ensures Start(experimentId).value.call.options.body != Archive(experimentId).value.call.options.body
  {
    var running, paused, archived := StatusOnly("running"), StatusOnly("paused"), StatusOnly("archived");
    assert Records.Get(running, "status") != Records.Get(paused, "status");
    assert Records.Get(paused, "status") != Records.Get(archived, "status");
    assert Records.Get(running, "status") != Records.Get(archived, "status");
  }

  /** Two project ids that reach the same experiments listing are the same id. */
  lemma ListIdentifiesProject(a: string, b: string)
    requires List(a).Success? && List(b).Success?
    requires List(a).value.call.endpoint == List(b).value.call.endpoint
    ensures a == b
  {
    InfixInjective("/projects/", a, b, "/experiments");
  }
}
