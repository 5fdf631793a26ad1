/** The Projects resource: request builders behind required-field guards. */
module Projects {
  import opened Wrappers
  import opened Js
  import Records
  import opened Facade
  import HttpClient

  /** `list()`: no guard, GET /projects without parameters. */
  function List(): (p: Planned)
    ensures Sends(p, HttpClient.GET, "/projects", None) && p.value.returnsValue
  {
    Returning(HttpClient.Get("/projects", None))
  }

  /** `get(projectId)`: only the empty id is refused; any other id is interpolated as it is. */
  function Get(projectId: string): (p: Planned)
    ensures p.Failure? <==> projectId == ""
    ensures p.Failure? ==> p.error == "Project ID is required"
    ensures p.Success? ==> Sends(p, HttpClient.GET, "/projects/" + projectId, None) && p.value.returnsValue
  {
    if projectId == "" then Failure("Project ID is required")
    else Returning(HttpClient.Get("/projects/" + projectId, None))
  }

  /** `create(data)`: name is checked before account_id; the data is posted unchanged. */
  function Create(data: Records.Record<Value>): (p: Planned)
    ensures !Truthy(Records.Get(data, "name")) ==> p == Failure("Project name is required")
    ensures Truthy(Records.Get(data, "name")) && !Truthy(Records.Get(data, "account_id")) ==> p == Failure("Account ID is required")
    ensures p.Success? <==> Truthy(Records.Get(data, "name")) && Truthy(Records.Get(data, "account_id"))
    ensures p.Success? ==> Sends(p, HttpClient.POST, "/projects", Some(Obj(data))) && p.value.returnsValue
  {
    if !Truthy(Records.Get(data, "name")) then Failure("Project name is required")
    else if !Truthy(Records.Get(data, "account_id")) then Failure("Account ID is required")
    else Returning(HttpClient.Post("/projects", Some(Obj(data))))
  }

  /** `update(projectId, data)`: one PATCH carrying exactly the supplied fields. */
  function Update(projectId: string, data: Records.Record<Value>): (p: Planned)
    ensures p.Failure? <==> projectId == ""
    ensures p.Failure? ==> p.error == "Project ID is required"
    ensures p.Success? ==> Sends(p, HttpClient.PATCH, "/projects/" + projectId, Some(Obj(data))) && p.value.returnsValue
  {
    if projectId == "" then Failure("Project ID is required")
    else Returning(HttpClient.Patch("/projects/" + projectId, Some(Obj(data))))
  }

  /** `archive(projectId)`: `update` with the status field alone, set to "archived". */
  function Archive(projectId: string): (p: Planned)
    ensures p == Update(projectId, StatusOnly("archived"))
    ensures p.Failure? <==> projectId == ""
    ensures p.Success? ==> Sends(p, HttpClient.PATCH, "/projects/" + projectId, Some(Obj(StatusOnly("archived"))))
  {
    Update(projectId, StatusOnly("archived"))
  }

  /** `delete(projectId)`: one DELETE, whose value is discarded. */
  function Delete(projectId: string): (p: Planned)
    ensures p.Failure? <==> projectId == ""
    ensures p.Failure? ==> p.error == "Project ID is required"
    ensures p.Success? ==> Sends(p, HttpClient.DELETE, "/projects/" + projectId, None) && !p.value.returnsValue
  {
    if projectId == "" then Failure("Project ID is required")
    else Discarding(HttpClient.Delete("/projects/" + projectId))
  }

  /** Two ids that reach the same project endpoint are the same id. */
  lemma EndpointIdentifiesProject(a: string, b: string)
    requires Get(a).Success? && Get(b).Success?
    requires Get(a).value.call.endpoint == Get(b).value.call.endpoint
    ensures a == b
  {
    InfixInjective("/projects/", a, b, "");
  }
}
