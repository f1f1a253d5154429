/** The MCP gateway: one HTTP endpoint whose handler checks the verb, decodes
    the body, routes on its `method` field, and answers `list_tools` from the
    registry or runs a tool for `call_tool`.

    The HTTP writer is abstracted into an `Outcome` value: the status and text
    that `http.Error` would send, a JSON reply sent with status 200, or a
    connection dropped because the handler goroutine panicked. */
module McpServer {
  import opened Wrappers
  import opened ToolTypes
  import opened Protocol
  import opened ToolRegistry
  import opened ConfigLoader

  const MethodPost: string := "POST"

  const StatusBadRequest: int := 400
  const StatusMethodNotAllowed: int := 405
  const StatusInternalServerError: int := 500

  const MsgMethodNotAllowed: string := "Method not allowed"
  const MsgInvalidJson: string := "Invalid JSON format"
  const MsgMissingMethod: string := "Missing 'method' field"
  const MsgMethodNotString: string := "'method' must be a string"
  const MsgUnknownMethod: string := "Unknown method"
  const MsgInvalidListRequest: string := "Invalid list_tools request format"
  const MsgInvalidCallRequest: string := "Invalid call_tool request format"
  const MsgInternalError: string := "Internal server error"
  const ToolNotFoundPrefix: string := "Tool not found: "

  /** An inbound request: its HTTP verb and its body parsed as one JSON value
      (`None` when the body is not JSON at all). */
  datatype HttpRequest = HttpRequest(httpMethod: string, body: Option<Json>)

  /** What the handler writes back. */
  datatype Outcome =
    | HttpError(status: int, message: string)
    | ListToolsReply(listing: ListToolsResponse)
    | CallToolReply(response: ToolCallResponse)
    | Aborted

  /** Decoding the body into a Go `map[string]interface{}`: an object gives its
      fields, JSON `null` gives a nil (empty) map, any other value is an error. */
  function DecodeEnvelope(body: Option<Json>): (m: Option<map<string, Json>>)
    ensures m.Some? <==> (body.Some? && (body.value.JObject? || body.value.JNull?))
    ensures m.Some? && body.value.JObject? ==> m.value == body.value.fields
    ensures m.Some? && body.value.JNull? ==> m.value == map[]
  {
    match body
    case Some(JObject(fields)) => Some(fields)
    case Some(JNull) => Some(map[])
    case _ => None
  }

  /** Where `handleMCPRequest` sends a request. */
  datatype Routing =
    | Rejected(status: int, message: string)
    | ToListTools(request: map<string, Json>)
    | ToCallTool(request: map<string, Json>)

  /** The request is a decodable POST whose `method` field is the string `verb`. */
  ghost predicate AsksFor(r: HttpRequest, verb: string)
  {
    && r.httpMethod == MethodPost
    && DecodeEnvelope(r.body).Some?
    && "method" in DecodeEnvelope(r.body).value
    && DecodeEnvelope(r.body).value["method"] == JString(verb)
  }

  /** The checks of `handleMCPRequest`, in order; the first that fails decides
      the rejection. */
  function Route(r: HttpRequest): (routing: Routing)
    ensures r.httpMethod != MethodPost ==> routing == Rejected(StatusMethodNotAllowed, MsgMethodNotAllowed)
    ensures r.httpMethod == MethodPost && DecodeEnvelope(r.body).None? ==>
              routing == Rejected(StatusBadRequest, MsgInvalidJson)
    ensures r.httpMethod == MethodPost && DecodeEnvelope(r.body).Some? ==>
              var m := DecodeEnvelope(r.body).value;
              && ("method" !in m ==> routing == Rejected(StatusBadRequest, MsgMissingMethod))
              && ("method" in m && !m["method"].JString? ==> routing == Rejected(StatusBadRequest, MsgMethodNotString))
              && ("method" in m && m["method"].JString?
                  && m["method"].s != MCPMethodListTools && m["method"].s != MCPMethodCallTool ==>
                    routing == Rejected(StatusBadRequest, MsgUnknownMethod))
    ensures routing.ToListTools? <==> AsksFor(r, MCPMethodListTools)
    ensures routing.ToCallTool? <==> AsksFor(r, MCPMethodCallTool)
    ensures !routing.Rejected? ==> DecodeEnvelope(r.body) == Some(routing.request)
  {
    if r.httpMethod != MethodPost then
      Rejected(StatusMethodNotAllowed, MsgMethodNotAllowed)
    else match DecodeEnvelope(r.body)
      case None => Rejected(StatusBadRequest, MsgInvalidJson)
      case Some(request) =>
        if "method" !in request then
          Rejected(StatusBadRequest, MsgMissingMethod)
        else match request["method"]
          case JString(methodStr) =>
            if methodStr == MCPMethodListTools then ToListTools(request)
            else if methodStr == MCPMethodCallTool then ToCallTool(request)
            else Rejected(StatusBadRequest, MsgUnknownMethod)
          case _ => Rejected(StatusBadRequest, MsgMethodNotString)
  }

  /** The descriptor advertised for a tool: the definition with its handler
      (Go's `Function`) removed. */
  function Descriptor(def: ToolDefinition): (d: ToolDefinition)
    ensures d.handler.None?
    ensures d.name == def.name && d.description == def.description && d.parameters == def.parameters
  {
    def.(handler := None)
  }

  /** `ds` lists every registered tool exactly once, as its descriptor, in
      some order. */
  ghost predicate IsToolListing(tools: map<string, ToolDefinition>, ds: seq<ToolDefinition>)
  {
    && |ds| == |tools|
    && Names(ds) == tools.Keys
    && DistinctNames(ds)
    && forall i :: 0 <= i < |ds| ==> ds[i].name in tools && ds[i] == Descriptor(tools[ds[i].name])
  }

  /** Every registered tool is advertised, without its handler. */
  lemma ListingDescribesEveryTool(tools: map<string, ToolDefinition>, ds: seq<ToolDefinition>, name: string)
    returns (i: nat)
    requires IsToolListing(tools, ds) && name in tools
    ensures i < |ds| && ds[i] == Descriptor(tools[name]) && ds[i].handler.None?
  {
    assert name in Names(ds);
    i :| 0 <= i < |ds| && ds[i].name == name;
  }

  /** Writing a call_tool response: encoding fails, and a 500 is sent instead,
      exactly when the result is a value JSON cannot encode. */
  function EncodeCallResponse(response: ToolCallResponse): (o: Outcome)
    ensures response.result.Unencodable? <==> o == HttpError(StatusInternalServerError, MsgInternalError)
    ensures !response.result.Unencodable? ==> o == CallToolReply(response)
  {
    if response.result.Unencodable? then HttpError(StatusInternalServerError, MsgInternalError)
    else CallToolReply(response)
  }

  /** handleCallTool: decode the call, look the tool up, run its handler and
      report the outcome. Nothing here consults the configuration or the
      agent id. */
  function CallTool(tools: map<string, ToolDefinition>, request: map<string, Json>): (o: Outcome)
    ensures DecodeToolCallRequest(request).None? <==> o == HttpError(StatusBadRequest, MsgInvalidCallRequest)
    ensures DecodeToolCallRequest(request).Some? ==>
              var req := DecodeToolCallRequest(request).value;
              && (req.name !in tools ==>
                    o == CallToolReply(ToolCallResponse(NilResult, ToolNotFoundPrefix + req.name)))
              && (req.name in tools && tools[req.name].handler.None? ==> o == Aborted)
              && (req.name in tools && tools[req.name].handler.Some? ==>
                    match tools[req.name].handler.value(req.args)
                    case Failed(msg) => o == CallToolReply(ToolCallResponse(NilResult, msg))
                    case Returned(Unencodable) => o == HttpError(StatusInternalServerError, MsgInternalError)
                    case Returned(v) => o == CallToolReply(ToolCallResponse(v, "")))
    // The two fields of a reply are never both populated.
    ensures o.CallToolReply? && o.response.error != "" ==> o.response.result == NilResult
    // A non-nil result only ever comes from running the named tool's handler.
    ensures o.CallToolReply? && o.response.result != NilResult ==>
              && DecodeToolCallRequest(request).Some?
              && var req := DecodeToolCallRequest(request).value;
              && req.name in tools && tools[req.name].handler.Some?
              && tools[req.name].handler.value(req.args) == Returned(o.response.result)
  {
    match DecodeToolCallRequest(request)
    case None => HttpError(StatusBadRequest, MsgInvalidCallRequest)
    case Some(req) =>
      if req.name !in tools then
        EncodeCallResponse(ToolCallResponse(NilResult, ToolNotFoundPrefix + req.name))
      else match tools[req.name].handler
        case None => Aborted  // calling a nil func panics; net/http drops the connection
        case Some(run) =>
          match run(req.args)
          case Failed(msg) => EncodeCallResponse(ToolCallResponse(NilResult, msg))
          case Returned(value) => EncodeCallResponse(ToolCallResponse(value, ""))
  }

  /** No permission check guards call_tool: an agent whose resolved tool list
      excludes the tool still gets the handler's result. */
  lemma CallToolSkipsPermissionCheck(cfg: Config, tools: map<string, ToolDefinition>, request: map<string, Json>)
    requires DecodeToolCallRequest(request).Some?
    requires var req := DecodeToolCallRequest(request).value;
      && req.name in tools && tools[req.name].handler.Some?
      && tools[req.name].handler.value(req.args).Returned?
      && tools[req.name].handler.value(req.args).value.Encodable?
      && req.name !in GetAllowedTools(cfg, req.agentId)
    ensures var req := DecodeToolCallRequest(request).value;
      CallTool(tools, request) == CallToolReply(ToolCallResponse(tools[req.name].handler.value(req.args).value, ""))
  {
  }

  /** What a request may be answered with, given the registry's entries. Only
      the order of a listing is left open. */
  ghost predicate Responds(tools: map<string, ToolDefinition>, request: HttpRequest, o: Outcome)
  {
    match Route(request)
    case Rejected(status, message) => o == HttpError(status, message)
    case ToListTools(m) =>
      if DecodeListToolsRequest(m).None? then o == HttpError(StatusBadRequest, MsgInvalidListRequest)
      else o.ListToolsReply? && IsToolListing(tools, o.listing.tools)
    case ToCallTool(m) => o == CallTool(tools, m)
  }

  /** A rejected request is answered the same whatever the registry holds:
      nothing is looked up or run. */
  lemma RejectionIgnoresRegistry(t1: map<string, ToolDefinition>, t2: map<string, ToolDefinition>, request: HttpRequest, o: Outcome)
    requires Route(request).Rejected?
    ensures Responds(t1, request, o) <==> Responds(t2, request, o)
  {
  }

  class MCPServer {
    /** Held, but never read when serving a request. */
    const config: Config
    const registry: Registry

    ghost predicate Valid()
      reads this, registry
    {
      registry.Valid()
    }

    /** NewMCPServer: the given configuration and an empty registry. */
    constructor (cfg: Config)
      ensures Valid() && config == cfg && fresh(registry) && registry.tools == map[]
    {
      config := cfg;
      registry := new Registry();
    }

    /** RegisterTool: forwards to the registry (last registration wins). */
    method RegisterTool(def: ToolDefinition)
      requires Valid()
      modifies registry
      ensures Valid()
      ensures registry.tools == old(registry.tools)[def.name := def]
    {
      registry.Register(def);
    }

    /** handleListTools: re-decode the request, then copy each listed
        definition, without its handler, into a fresh array. */
    method HandleListTools(request: map<string, Json>) returns (o: Outcome)
      requires Valid()
      ensures DecodeListToolsRequest(request).None? ==> o == HttpError(StatusBadRequest, MsgInvalidListRequest)
      ensures DecodeListToolsRequest(request).Some? ==> o.ListToolsReply? && IsToolListing(registry.tools, o.listing.tools)
    {
      if DecodeListToolsRequest(request).None? {
        return HttpError(StatusBadRequest, MsgInvalidListRequest);
      }
      var tools := registry.ListAll();
      var toolDefs := new ToolDefinition[|tools|];
      for i := 0 to |tools|
        invariant forall j :: 0 <= j < i ==> toolDefs[j] == Descriptor(tools[j])
      {
        toolDefs[i] := ToolDefinition(tools[i].name, tools[i].description, tools[i].parameters, None);
      }
      ListingOfDescriptors(registry.tools, tools, toolDefs[..]);
      o := ListToolsReply(ListToolsResponse(toolDefs[..]));
    }

    /** handleMCPRequest: route, then serve. */
    method HandleMCPRequest(request: HttpRequest) returns (o: Outcome)
      requires Valid()
      ensures Responds(registry.tools, request, o)
    {
      match Route(request)
      case Rejected(status, message) =>
        o := HttpError(status, message);
      case ToListTools(m) =>
        o := HandleListTools(m);
      case ToCallTool(m) =>
        o := CallTool(registry.tools, m);
    }
  }

  /** Replacing each definition of a `ListAll` result by its descriptor gives
      a listing of the registry. */
  lemma ListingOfDescriptors(tools: map<string, ToolDefinition>, defs: seq<ToolDefinition>, ds: seq<ToolDefinition>)
    requires IsEnumeration(tools, defs)
    requires |ds| == |defs| && forall i :: 0 <= i < |ds| ==> ds[i] == Descriptor(defs[i])
    ensures IsToolListing(tools, ds)
  {
  }

  /** A server with one registered tool lists exactly that tool, without its
      handler, whichever agent asks. */
  method ListAfterRegister(cfg: Config, def: ToolDefinition, agentId: string) returns (o: Outcome)
    ensures o == ListToolsReply(ListToolsResponse([Descriptor(def)]))
  {
    var server := new MCPServer(cfg);
    server.RegisterTool(def);
    var body := map["method" := JString(MCPMethodListTools), "agent_id" := JString(agentId)];
    o := server.HandleMCPRequest(HttpRequest(MethodPost, Some(JObject(body))));
    assert AsksFor(HttpRequest(MethodPost, Some(JObject(body))), MCPMethodListTools);
    assert o.listing.tools[0].name in server.registry.tools;
  }

  /** A call_tool request naming a registered tool runs its handler even when
      the configuration denies that tool to the calling agent. */
  method CallDeniedTool(cfg: Config, def: ToolDefinition, args: ToolArguments, agentId: string)
    returns (allowed: bool, o: Outcome)
    requires def.handler.Some? && def.handler.value(args).Returned? && def.handler.value(args).value.Encodable?
    requires def.name !in GetAllowedTools(cfg, agentId)
    ensures !allowed
    ensures o == CallToolReply(ToolCallResponse(def.handler.value(args).value, ""))
  {
    var server := new MCPServer(cfg);
    server.RegisterTool(def);
    var body := map["method" := JString(MCPMethodCallTool), "name" := JString(def.name),
                    "args" := JObject(args), "agent_id" := JString(agentId)];
    allowed := IsToolAllowed(server.config, agentId, def.name);
    assert DecodeToolCallRequest(body) == Some(ToolCallRequest(MCPMethodCallTool, def.name, args, agentId));
    var request := HttpRequest(MethodPost, Some(JObject(body)));
    assert AsksFor(request, MCPMethodCallTool);
    o := server.HandleMCPRequest(request);
  }

  /** On a server with no tools, every call is answered, with status 200, by
      a "Tool not found" error field. */
  method CallOnEmptyServer(cfg: Config, name: string) returns (o: Outcome)
    ensures o == CallToolReply(ToolCallResponse(NilResult, ToolNotFoundPrefix + name))
  {
    var server := new MCPServer(cfg);
    var body := map["method" := JString(MCPMethodCallTool), "name" := JString(name), "args" := JObject(map[])];
    o := server.HandleMCPRequest(HttpRequest(MethodPost, Some(JObject(body))));
    assert AsksFor(HttpRequest(MethodPost, Some(JObject(body))), MCPMethodCallTool);
  }
}
