/**
 * The Pages resource.  Unlike the other resources it converts page ids
 * with `Number(...)` before writing them into the endpoint, posts new pages
 * to `/pages` with the project id in the body, and archives by flag.
 */
module Pages {
  import opened Wrappers
  import opened Js
  import Records
  import Decimal
  import Strings
  import opened Facade
  import HttpClient

  /**
   * The path segment `Number(pageId)` prints as: "NaN", or a number in
   * decimal digits with an optional leading "-", so the id can never add a
   * path, query or fragment separator to the endpoint.
   */
  function IdSegment(pageId: string): (seg: string)
    ensures seg == "NaN" <==> ToNumber(pageId).NaN?
    ensures seg != "NaN" ==> forall i :: 0 <= i < |seg| ==> Decimal.IsDigit(seg[i]) || (i == 0 && seg[i] == '-')
  {
    NumberText(ToNumber(pageId))
  }

  /** `list(projectId)`: the raw project id, not converted, concatenated into the query. */
  function List(projectId: string): (p: Planned)
    ensures p.Failure? <==> projectId == ""
    ensures p.Failure? ==> p.error == "Project ID is required"
    ensures p.Success? ==> Sends(p, HttpClient.GET, "/pages?project_id=" + projectId + "&archived=false", None) && p.value.returnsValue
  {
    if projectId == "" then Failure("Project ID is required")
    else Returning(HttpClient.Get("/pages?project_id=" + projectId + "&archived=false", None))
  }

  /** `get(pageId)`: the empty id is refused before any conversion. */
  function Get(pageId: string): (p: Planned)
    ensures p.Failure? <==> pageId == ""
    ensures p.Failure? ==> p.error == "Page ID is required"
    ensures p.Success? ==> Sends(p, HttpClient.GET, "/pages/" + IdSegment(pageId), None) && p.value.returnsValue
  {
    if pageId == "" then Failure("Page ID is required")
    else Returning(HttpClient.Get("/pages/" + IdSegment(pageId), None))
  }

  /**
   * `{...data, project_id: Number(projectId)}`: the converted project id,
   * replacing any `project_id` the data already has, and every other
   * field of the data unchanged.
   */
  function WithProject(data: Records.Record<Value>, projectId: string): (body: Records.Record<Value>)
    ensures Records.Get(body, "project_id") == Some(Num(ToNumber(projectId)))
    ensures forall k :: k != "project_id" ==> Records.Get(body, k) == Records.Get(data, k)
    ensures Records.Keys(body) == if "project_id" in Records.Keys(data) then Records.Keys(data) else Records.Keys(data) + ["project_id"]
  {
    Records.Put(data, "project_id", Num(ToNumber(projectId)))
  }

  /**
   * `create(projectId, data)`: the project id is checked before the name,
   * and no other field is checked; the page is posted to `/pages`.
   */
  function Create(projectId: string, data: Records.Record<Value>): (p: Planned)
    ensures projectId == "" ==> p == Failure("Project ID is required")
    ensures projectId != "" && !Truthy(Records.Get(data, "name")) ==> p == Failure("Page name is required")
    ensures p.Success? <==> projectId != "" && Truthy(Records.Get(data, "name"))
    ensures p.Success? ==> Sends(p, HttpClient.POST, "/pages", Some(Obj(WithProject(data, projectId)))) && p.value.returnsValue
  {
    if projectId == "" then Failure("Project ID is required")
    else if !Truthy(Records.Get(data, "name")) then Failure("Page name is required")
    else Returning(HttpClient.Post("/pages", Some(Obj(WithProject(data, projectId)))))
  }

  /** `update(pageId, data)`: one PATCH carrying exactly the supplied fields. */
  function Update(pageId: string, data: Records.Record<Value>): (p: Planned)
    ensures p.Failure? <==> pageId == ""
    ensures p.Failure? ==> p.error == "Page ID is required"
    ensures p.Success? ==> Sends(p, HttpClient.PATCH, "/pages/" + IdSegment(pageId), Some(Obj(data))) && p.value.returnsValue
  {
    if pageId == "" then Failure("Page ID is required")
    else Returning(HttpClient.Patch("/pages/" + IdSegment(pageId), Some(Obj(data))))
  }

  /** The body of `archive`: the archived flag alone, and no status field. */
  function ArchivedOnly(): (body: Records.Record<Value>)
    ensures Records.Keys(body) == ["archived"] && Records.Get(body, "archived") == Some(Bool(true))
    ensures Records.Get(body, "status").None?
  {
    Records.Put([], "archived", Bool(true))
  }

  /** `archive(pageId)`: `update` with `archived: true` alone. */
  function Archive(pageId: string): (p: Planned)
    ensures p == Update(pageId, ArchivedOnly())
    ensures p.Failure? <==> pageId == ""
    ensures p.Failure? ==> p.error == "Page ID is required"
  {
    Update(pageId, ArchivedOnly())
  }

  /** `delete(pageId)`: one DELETE, whose value is discarded. */
  function Delete(pageId: string): (p: Planned)
    ensures p.Failure? <==> pageId == ""
    ensures p.Failure? ==> p.error == "Page ID is required"
    ensures p.Success? ==> Sends(p, HttpClient.DELETE, "/pages/" + IdSegment(pageId), None) && !p.value.returnsValue
  {
    if pageId == "" then Failure("Page ID is required")
    else Discarding(HttpClient.Delete("/pages/" + IdSegment(pageId)))
  }

  /** A decimal id reaches the endpoint without its leading zeros. */
  lemma DigitIdLosesLeadingZeros(pageId: string)
    requires pageId != "" && Decimal.AllDigits(pageId) && Decimal.Value(pageId) <= MaxSafeInteger
    ensures IdSegment(pageId) == Decimal.StripZeros(pageId)
  {
    NumberTextOfDigits(pageId);
  }

  /** The canonical text of a page number, negative or not, reaches the endpoint unchanged. */
  lemma CanonicalIdUnchanged(n: int)
    requires -MaxSafeInteger <= n <= MaxSafeInteger
    ensures IdSegment(NumberText(Int(n))) == NumberText(Int(n))
  {
    ToNumberOfText(n);
  }

  /** White space around an id is ignored by the conversion. */
  lemma PaddedIdIsTrimmed(pre: string, pageId: string, post: string)
    requires Strings.AllWhiteSpace(pre) && Strings.AllWhiteSpace(post)
    requires pageId != "" && !Strings.IsWhiteSpace(pageId[0]) && !Strings.IsWhiteSpace(pageId[|pageId| - 1])
    ensures IdSegment(pre + pageId + post) == IdSegment(pageId)
  {
    Strings.TrimPadded(pre, pageId, post);
    assert "" + pageId + "" == pageId;
    Strings.TrimPadded("", pageId, "");
    SameTrimSameNumber(pre + pageId + post, pageId);
  }

  /** A blank id passes the guard, since only "" is falsy, and addresses page 0. */
  lemma BlankIdIsZero(pageId: string)
    requires pageId != "" && Strings.AllWhiteSpace(pageId)
    ensures Get(pageId).value.call.endpoint == "/pages/0"
    ensures Update(pageId, []).value.call.endpoint == "/pages/0"
    ensures Delete(pageId).value.call.endpoint == "/pages/0"
  {
    assert pageId + "" + "" == pageId;
    Strings.TrimPadded(pageId, "", "");
  }

  /**
   * An id holding a character that no number text can hold (not a digit,
   * white space, sign, decimal point or ASCII letter) addresses "/pages/NaN".
   */
  lemma NonNumericIdIsNaN(pageId: string, i: nat)
    requires i < |pageId| && !NumeralChar(pageId[i])
    ensures Get(pageId).value.call.endpoint == "/pages/NaN"
    ensures Update(pageId, []).value.call.endpoint == "/pages/NaN"
    ensures Delete(pageId).value.call.endpoint == "/pages/NaN"
  {
    NonNumeralIsNaN(pageId, i);
  }

  /** So "007" and "7" address the same page. */
  lemma ZeroPaddedIdsCollide()
    ensures IdSegment("007") == IdSegment("7") == "7"
  {
    Decimal.ValueOfZeroPadded();
    DigitIdLosesLeadingZeros("007");
    DigitIdLosesLeadingZeros("7");
    assert Decimal.StripZeros("007") == "7" by {
      assert "007"[1..] == "07" && "07"[1..] == "7";
    }
  }

  /** The project id in a created page's body wins over one already in the data. */
  lemma CreateOverridesProjectId(projectId: string, data: Records.Record<Value>, previous: Value)
    requires projectId != "" && Truthy(Records.Get(data, "name"))
    requires Records.Get(data, "project_id") == Some(previous)
    ensures var body := Create(projectId, data).value.call.options.body.value.fields;
      && Records.Get(body, "project_id") == Some(Num(ToNumber(projectId)))
      && Records.Keys(body) == Records.Keys(data)
  {
  }
}
