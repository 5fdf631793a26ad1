/** The Campaigns resource: request builders behind required-field guards. */
module Campaigns {
  import opened Wrappers
  import opened Js
  import Records
  import opened Facade
  import HttpClient

  /** `list(projectId)`: the query is written into the endpoint by plain concatenation. */
  function List(projectId: string): (p: Planned)
    ensures p.Failure? <==> projectId == ""
    ensures p.Failure? ==> p.error == "Project ID is required"
    ensures p.Success? ==> Sends(p, HttpClient.GET, "/campaigns?project_id=" + projectId + "&archived=false", None) && p.value.returnsValue
  {
    if projectId == "" then Failure("Project ID is required")
    else Returning(HttpClient.Get("/campaigns?project_id=" + projectId + "&archived=false", None))
  }

  /** A GET under `/campaigns/{campaignId}` behind the campaign-id guard. */
  function Read(campaignId: string, suffix: string): (p: Planned)
    ensures p.Failure? <==> campaignId == ""
    ensures p.Failure? ==> p.error == "Campaign ID is required"
    ensures p.Success? ==> Sends(p, HttpClient.GET, "/campaigns/" + campaignId + suffix, None) && p.value.returnsValue
  {
    if campaignId == "" then Failure("Campaign ID is required")
    else Returning(HttpClient.Get("/campaigns/" + campaignId + suffix, None))
  }

  /** `get(campaignId)`. */
  function Get(campaignId: string): (p: Planned)
    ensures p.Failure? <==> campaignId == ""
    ensures p.Failure? ==> p.error == "Campaign ID is required"
    ensures p.Success? ==> Sends(p, HttpClient.GET, "/campaigns/" + campaignId, None) && p.value.returnsValue
  {
    Read(campaignId, "")
  }

  /** `create(projectId, data)`: the project id is checked before the name; the data is posted unchanged. */
  function Create(projectId: string, data: Records.Record<Value>): (p: Planned)
    ensures projectId == "" ==> p == Failure("Project ID is required")
    ensures projectId != "" && !Truthy(Records.Get(data, "name")) ==> p == Failure("Campaign name is required")
    ensures p.Success? <==> projectId != "" && Truthy(Records.Get(data, "name"))
    ensures p.Success? ==> Sends(p, HttpClient.POST, "/projects/" + projectId + "/campaigns", Some(Obj(data))) && p.value.returnsValue
  {
    if projectId == "" then Failure("Project ID is required")
    else if !Truthy(Records.Get(data, "name")) then Failure("Campaign name is required")
    else Returning(HttpClient.Post("/projects/" + projectId + "/campaigns", Some(Obj(data))))
  }

  /** `update(campaignId, data)`: one PATCH carrying exactly the supplied fields. */
  function Update(campaignId: string, data: Records.Record<Value>): (p: Planned)
    ensures p.Failure? <==> campaignId == ""
    ensures p.Failure? ==> p.error == "Campaign ID is required"
    ensures p.Success? ==> Sends(p, HttpClient.PATCH, "/campaigns/" + campaignId, Some(Obj(data))) && p.value.returnsValue
  {
    if campaignId == "" then Failure("Campaign ID is required")
    else Returning(HttpClient.Patch("/campaigns/" + campaignId, Some(Obj(data))))
  }

  /** `start(campaignId)`: `update` with the status "active" alone. */
  function Start(campaignId: string): (p: Planned)
    ensures p == Update(campaignId, StatusOnly("active"))
    ensures p.Failure? <==> campaignId == ""
    ensures p.Failure? ==> p.error == "Campaign ID is required"
  {
    Update(campaignId, StatusOnly("active"))
  }

  /** `pause(campaignId)`: `update` with the status "paused" alone. */
  function Pause(campaignId: string): (p: Planned)
    ensures p == Update(campaignId, StatusOnly("paused"))
    ensures p.Failure? <==> campaignId == ""
    ensures p.Failure? ==> p.error == "Campaign ID is required"
  {
    Update(campaignId, StatusOnly("paused"))
  }

  /** `archive(campaignId)`: `update` with the status "archived" alone. */
  function Archive(campaignId: string): (p: Planned)
    ensures p == Update(campaignId, StatusOnly("archived"))
    ensures p.Failure? <==> campaignId == ""
    ensures p.Failure? ==> p.error == "Campaign ID is required"
  {
    Update(campaignId, StatusOnly("archived"))
  }

  /** `delete(campaignId)`: one DELETE, whose value is discarded. */
  function Delete(campaignId: string): (p: Planned)
    ensures p.Failure? <==> campaignId == ""
    ensures p.Failure? ==> p.error == "Campaign ID is required"
    ensures p.Success? ==> Sends(p, HttpClient.DELETE, "/campaigns/" + campaignId, None) && !p.value.returnsValue
  {
    if campaignId == "" then Failure("Campaign ID is required")
    else Discarding(HttpClient.Delete("/campaigns/" + campaignId))
  }

  /** `getResults(campaignId)`. */
  function GetResults(campaignId: string): (p: Planned)
    ensures p.Failure? <==> campaignId == ""
    ensures p.Failure? ==> p.error == "Campaign ID is required"
    ensures p.Success? ==> Sends(p, HttpClient.GET, "/campaigns/" + campaignId + "/results", None) && p.value.returnsValue
  {
    Read(campaignId, "/results")
  }

  /** `getShareableLink(campaignId)`. */
  function GetShareableLink(campaignId: string): (p: Planned)
    ensures p.Failure? <==> campaignId == ""
    ensures p.Failure? ==> p.error == "Campaign ID is required"
    ensures p.Success? ==> Sends(p, HttpClient.GET, "/campaigns/" + campaignId + "/share_link", None) && p.value.returnsValue
  {
    Read(campaignId, "/share_link")
  }

  /** `getResultsCSV(campaignId)`. */
  function GetResultsCSV(campaignId: string): (p: Planned)
    ensures p.Failure? <==> campaignId == ""
    ensures p.Failure? ==> p.error == "Campaign ID is required"
    ensures p.Success? ==> Sends(p, HttpClient.GET, "/campaigns/" + campaignId + "/results.csv", None) && p.value.returnsValue
  {
    Read(campaignId, "/results.csv")
  }

  /** The three lifecycle calls send three different bodies to the same endpoint. */
  lemma LifecycleBodiesDiffer(campaignId: string)
    requires campaignId != ""
    ensures Start(campaignId).value.call.endpoint == Pause(campaignId).value.call.endpoint == Archive(campaignId).value.call.endpoint
    ensures Start(campaignId).value.call.options.body != Pause(campaignId).value.call.options.body
    ensures Pause(campaignId).value.call.options.body != Archive(campaignId).value.call.options.body
    ensures Start(campaignId).value.call.options.body != Archive(campaignId).value.call.options.body
  {
    var active, paused, archived := StatusOnly("active"), StatusOnly("paused"), StatusOnly("archived");
    assert Records.Get(active, "status") != Records.Get(paused, "status");
    assert Records.Get(paused, "status") != Records.Get(archived, "status");
    assert Records.Get(active, "status") != Records.Get(archived, "status");
  }

  /** Two campaign ids whose result reports share an endpoint are the same id. */
  lemma ResultsIdentifyCampaign(a: string, b: string)
    requires GetResults(a).Success? && GetResults(b).Success?
    requires GetResults(a).value.call.endpoint == GetResults(b).value.call.endpoint
    ensures a == b
  {
    InfixInjective("/campaigns/", a, b, "/results");
  }
}
