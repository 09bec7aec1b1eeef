/** The four request bodies `create_tag` builds, all scoped to one workspace:
    the workspace itself, the tag assignment, the build request and the
    submit request. Pure data construction. */
module Payloads {
  import opened Json

  const Description: string := "API demo"
  const ElementTypeDevice: string := "ELEMENT_TYPE_DEVICE"
  const RequestStartBuild: string := "REQUEST_START_BUILD"
  const RequestSubmit: string := "REQUEST_SUBMIT"

  const WorkspacePath: string := "/api/resources/workspace/v1/WorkspaceConfig"
  const TagPath: string := "/api/resources/tag/v2/TagConfig"

  /** The first eight characters of the workspace id (fewer if the id is
      shorter, as a Python slice is), then "API demo". */
  function DisplayName(workspaceId: string): (name: string)
    ensures var n := if |workspaceId| < 8 then |workspaceId| else 8;
      |name| == n + |Description| && name[..n] == workspaceId[..n] && name[n..] == Description
  {
    (if |workspaceId| <= 8 then workspaceId else workspaceId[..8]) + Description
  }

  /** The fields every workspace payload starts with. */
  function WorkspaceFields(workspaceId: string): seq<(string, Json)>
  {
    [ ("key", JObject([("workspaceId", JString(workspaceId))])),
      ("displayName", JString(DisplayName(workspaceId))),
      ("description", JString(Description)) ]
  }

  /** The body that creates the workspace. */
  function CreatePayload(workspaceId: string): Json
  {
    JObject(WorkspaceFields(workspaceId))
  }

  /** The fields naming a workspace request and its correlation id. */
  function RequestFields(request: string, requestId: string): seq<(string, Json)>
  {
    [("request", JString(request)), ("requestParams", JObject([("requestId", JString(requestId))]))]
  }

  /** A workspace body carrying a request and its correlation id. */
  function RequestPayload(workspaceId: string, request: string, requestId: string): Json
  {
    JObject(WorkspaceFields(workspaceId) + RequestFields(request, requestId))
  }

  function BuildPayload(workspaceId: string, requestId: string): Json
  {
    RequestPayload(workspaceId, RequestStartBuild, requestId)
  }

  function SubmitPayload(workspaceId: string, requestId: string): Json
  {
    RequestPayload(workspaceId, RequestSubmit, requestId)
  }

  /** The tag assignment: a device tag `tagName`=`tagValue` staged in the workspace. */
  function TagPayload(workspaceId: string, tagName: string, tagValue: string): Json
  {
    JObject([("key", JObject([
      ("workspace_id", JString(workspaceId)),
      ("element_type", JString(ElementTypeDevice)),
      ("label", JString(tagName)),
      ("value", JString(tagValue)) ]))])
  }

  /** What each field name gives in the common workspace fields. */
  lemma {:induction false} WorkspaceFieldsLookup(workspaceId: string, k: string)
    ensures LookupField(WorkspaceFields(workspaceId), k) ==
      if k == "key" then Some(JObject([("workspaceId", JString(workspaceId))]))
      else if k == "displayName" then Some(JString(DisplayName(workspaceId)))
      else if k == "description" then Some(JString(Description))
      else None
  {
    var f := WorkspaceFields(workspaceId);
    assert f == [f[0]] + ([f[1]] + ([f[2]] + []));
    LookupFieldCons(f[0], [f[1]] + [f[2]], k);
    LookupFieldCons(f[1], [f[2]] + [], k);
    LookupFieldCons(f[2], [], k);
  }

  /** What each field name gives in the request fields. */
  lemma {:induction false} RequestFieldsLookup(request: string, requestId: string, k: string)
    ensures LookupField(RequestFields(request, requestId), k) ==
      if k == "request" then Some(JString(request))
      else if k == "requestParams" then Some(JObject([("requestId", JString(requestId))]))
      else None
  {
    var f := RequestFields(request, requestId);
    assert f == [f[0]] + ([f[1]] + []);
    LookupFieldCons(f[0], [f[1]] + [], k);
    LookupFieldCons(f[1], [], k);
  }

  /** Looking a field up in a workspace request payload. */
  lemma RequestPayloadLookup(workspaceId: string, request: string, requestId: string, k: string)
    ensures Lookup(RequestPayload(workspaceId, request, requestId), k) ==
      if k == "request" || k == "requestParams" then LookupField(RequestFields(request, requestId), k)
      else Lookup(CreatePayload(workspaceId), k)
  {
    var fields, extra := WorkspaceFields(workspaceId), RequestFields(request, requestId);
    LookupFieldAppend(fields, extra, k);
    WorkspaceFieldsLookup(workspaceId, k);
    RequestFieldsLookup(request, requestId, k);
    assert Keys(fields) == ["key", "displayName", "description"] by {
      assert fields == [fields[0]] + ([fields[1]] + ([fields[2]] + []));
      LookupFieldCons(fields[0], [fields[1]] + [fields[2]], k);
      LookupFieldCons(fields[1], [fields[2]] + [], k);
      LookupFieldCons(fields[2], [], k);
    }
  }

  /** All four payloads name the same workspace; the three workspace payloads
      also share its display name. */
  lemma SameWorkspace(workspaceId: string, tagName: string, tagValue: string, buildId: string, submitId: string)
    ensures var create, build, submit, tag :=
      CreatePayload(workspaceId), BuildPayload(workspaceId, buildId),
      SubmitPayload(workspaceId, submitId), TagPayload(workspaceId, tagName, tagValue);
      && LookupPath(create, ["key", "workspaceId"]) == Some(JString(workspaceId))
      && LookupPath(build, ["key", "workspaceId"]) == Some(JString(workspaceId))
      && LookupPath(submit, ["key", "workspaceId"]) == Some(JString(workspaceId))
      && LookupPath(tag, ["key", "workspace_id"]) == Some(JString(workspaceId))
      && Lookup(create, "displayName") == Some(JString(DisplayName(workspaceId)))
      && Lookup(build, "displayName") == Some(JString(DisplayName(workspaceId)))
      && Lookup(submit, "displayName") == Some(JString(DisplayName(workspaceId)))
  {
    WorkspaceFieldsLookup(workspaceId, "key");
    WorkspaceFieldsLookup(workspaceId, "displayName");
    RequestPayloadLookup(workspaceId, RequestStartBuild, buildId, "key");
    RequestPayloadLookup(workspaceId, RequestSubmit, submitId, "key");
    RequestPayloadLookup(workspaceId, RequestStartBuild, buildId, "displayName");
    RequestPayloadLookup(workspaceId, RequestSubmit, submitId, "displayName");
  }

  /** The build and submit payloads agree on every field but `request` and
      `requestParams`, and both agree there with the create payload, which
      has neither. They carry START_BUILD and SUBMIT respectively, each with
      its own correlation id. */
  lemma BuildAndSubmitDiffer(workspaceId: string, buildId: string, submitId: string)
    ensures var create, build, submit :=
      CreatePayload(workspaceId), BuildPayload(workspaceId, buildId), SubmitPayload(workspaceId, submitId);
      && (forall k :: k != "request" && k != "requestParams" ==>
            Lookup(build, k) == Lookup(submit, k) == Lookup(create, k))
      && Lookup(create, "request") == None && Lookup(create, "requestParams") == None
      && Lookup(build, "request") == Some(JString(RequestStartBuild))
      && Lookup(submit, "request") == Some(JString(RequestSubmit))
      && LookupPath(build, ["requestParams", "requestId"]) == Some(JString(buildId))
      && LookupPath(submit, ["requestParams", "requestId"]) == Some(JString(submitId))
  {
    forall k | k != "request" && k != "requestParams"
      ensures Lookup(BuildPayload(workspaceId, buildId), k) == Lookup(CreatePayload(workspaceId), k)
      ensures Lookup(SubmitPayload(workspaceId, submitId), k) == Lookup(CreatePayload(workspaceId), k)
    {
      RequestPayloadLookup(workspaceId, RequestStartBuild, buildId, k);
      RequestPayloadLookup(workspaceId, RequestSubmit, submitId, k);
    }
    WorkspaceFieldsLookup(workspaceId, "request");
    WorkspaceFieldsLookup(workspaceId, "requestParams");
    RequestPayloadLookup(workspaceId, RequestStartBuild, buildId, "request");
    RequestPayloadLookup(workspaceId, RequestSubmit, submitId, "request");
    RequestPayloadLookup(workspaceId, RequestStartBuild, buildId, "requestParams");
    RequestPayloadLookup(workspaceId, RequestSubmit, submitId, "requestParams");
    RequestFieldsLookup(RequestStartBuild, buildId, "request");
    RequestFieldsLookup(RequestSubmit, submitId, "request");
    RequestFieldsLookup(RequestStartBuild, buildId, "requestParams");
    RequestFieldsLookup(RequestSubmit, submitId, "requestParams");
  }
}
