/** The request and response shapes of the MCP envelope (the external
    `mcp_protocol` package) and the re-decoding of a generic decoded request
    into them (`mapToStruct`: marshal the map, unmarshal into the struct).

    Go's unmarshalling into a struct, as far as these shapes need it: a field
    that is absent or `null` keeps its zero value, a field of the wrong JSON
    kind is an error, and keys the struct does not declare are ignored. */
module Protocol {
  import opened Wrappers
  import opened ToolTypes

  const MCPMethodListTools: string := "list_tools"
  const MCPMethodCallTool: string := "call_tool"

  /** MCPListToolsRequest. */
  datatype ListToolsRequest = ListToolsRequest(methodName: string, agentId: string)

  /** MCPToolCallRequest. */
  datatype ToolCallRequest = ToolCallRequest(methodName: string, name: string, args: ToolArguments, agentId: string)

  /** MCPToolCallResponse: both fields always present on the wire, the unused
      one at its zero value. */
  datatype ToolCallResponse = ToolCallResponse(result: ToolValue, error: string)

  /** MCPListToolsResponse. */
  datatype ListToolsResponse = ListToolsResponse(tools: seq<ToolDefinition>)

  /** Unmarshalling `m[key]` into a Go `string` field. */
  function StringField(m: map<string, Json>, key: string): (r: Option<string>)
    ensures r.Some? <==> (key !in m || m[key].JNull? || m[key].JString?)
    ensures r.Some? && key in m && m[key].JString? ==> r.value == m[key].s
    ensures r.Some? && (key !in m || m[key].JNull?) ==> r.value == ""
  {
    if key !in m then Some("")
    else match m[key]
      case JNull => Some("")
      case JString(s) => Some(s)
      case _ => None
  }

  /** Unmarshalling `m[key]` into a Go `map[string]interface{}` field (a nil
      map reads as empty). */
  function ObjectField(m: map<string, Json>, key: string): (r: Option<map<string, Json>>)
    ensures r.Some? <==> (key !in m || m[key].JNull? || m[key].JObject?)
    ensures r.Some? && key in m && m[key].JObject? ==> r.value == m[key].fields
    ensures r.Some? && (key !in m || m[key].JNull?) ==> r.value == map[]
  {
    if key !in m then Some(map[])
    else match m[key]
      case JNull => Some(map[])
      case JObject(fields) => Some(fields)
      case _ => None
  }

  /** mapToStruct into MCPListToolsRequest. */
  function DecodeListToolsRequest(m: map<string, Json>): (r: Option<ListToolsRequest>)
    ensures r.Some? <==> (StringField(m, "method").Some? && StringField(m, "agent_id").Some?)
    ensures r.Some? ==> (r.value.methodName == StringField(m, "method").value
                         && r.value.agentId == StringField(m, "agent_id").value)
  {
    match (StringField(m, "method"), StringField(m, "agent_id"))
    case (Some(verb), Some(agent)) => Some(ListToolsRequest(verb, agent))
    case _ => None
  }

  /** mapToStruct into MCPToolCallRequest. */
  function DecodeToolCallRequest(m: map<string, Json>): (r: Option<ToolCallRequest>)
    ensures r.Some? <==> (StringField(m, "method").Some? && StringField(m, "name").Some?
                          && ObjectField(m, "args").Some? && StringField(m, "agent_id").Some?)
    ensures r.Some? ==> (r.value.methodName == StringField(m, "method").value
                         && r.value.name == StringField(m, "name").value
                         && r.value.args == ObjectField(m, "args").value
                         && r.value.agentId == StringField(m, "agent_id").value)
  {
    match (StringField(m, "method"), StringField(m, "name"), ObjectField(m, "args"), StringField(m, "agent_id"))
    case (Some(verb), Some(name), Some(args), Some(agent)) => Some(ToolCallRequest(verb, name, args, agent))
    case _ => None
  }
}
