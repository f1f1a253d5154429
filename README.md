# MCP server gateway — a Dafny model

This project models the decision logic of a small MCP (Model Context
Protocol) server: a single HTTP endpoint (`/mcp`) through which remote
agents list the registered tools and call them by name.

- **Tool registry** (`registry.dfy`, module `ToolRegistry`): the class
  `Registry` holds the Go map from tool name to `ToolDefinition`.
  `Register` overwrites in place (last registration wins). `Get` is an exact
  lookup that returns the zero definition on a miss. `ListAll` enumerates
  the map in an order the caller may not rely on; the loop picks an
  arbitrary remaining key at each step, as Go's randomised map iteration
  does.
- **Configuration** (`config.dfy`, module `ConfigLoader`): the host and port
  defaults (`"0.0.0.0"`, `"44444"`) that `Load` fills in after parsing. Also
  the always-accepting `validateConfig`, the per-agent tool list
  (`GetAllowedTools`) and the linear membership scan `IsToolAllowed`.
- **Envelope shapes** (`protocol.dfy`, module `Protocol`): the request and
  response structures of the MCP protocol package. Also the re-decoding of a
  generic decoded request into them (`mapToStruct`): an absent or `null`
  field keeps its zero value, a field of the wrong JSON kind is an error, and
  undeclared keys are ignored.
- **Gateway** (`server.dfy`, module `McpServer`): `Route` performs the checks
  of `handleMCPRequest` in order. They are verb, JSON body, presence of
  `method`, its type, and its value. `CallTool` is the outcome selection of
  `handleCallTool`. The class `MCPServer` holds the configuration and the
  registry. `HandleListTools` fills a fresh array with handler-free
  descriptors. `HandleMCPRequest` is proved to answer every request as the
  predicate `Responds` describes.
- **Values** (`tool_types.dfy`, module `ToolTypes`): decoded JSON, tool
  definitions and the handler calling contract (a function from the argument
  bag to a result or an error message).

The HTTP reply is modelled as an `Outcome`. It is either an `http.Error`
status and text, a JSON reply sent with status 200, or `Aborted`. `Aborted`
covers a handler goroutine that panicked because a registered tool's
`Function` was nil.

Three behaviours of the code are worth stating outright, because a reader
might expect otherwise:

- The configuration defines a per-agent check, `IsToolAllowed`
  (internal/config/loader.go:93-101). `handleCallTool`
  (cmd/mcp_server/server.go:115-156) never calls it, never reads `s.config`
  and never looks at the agent id, so no permission check takes place.
  `CallToolSkipsPermissionCheck` and `CallDeniedTool` state this behaviour
  as written.
- The call response always carries both `Result` and `Error`. The code
  guarantees only that they are never both populated. A handler that
  returns `(nil, nil)`, or an error whose message is empty, leaves both at
  their zero values.
- `handleListTools` (cmd/mcp_server/server.go:82-112) does not filter by
  agent either. `ListAfterRegister` shows that every agent sees every tool.

## Model

| member | source | states |
|---|---|---|
| `ToolRegistry.Registry.constructor` | internal/tools/registry/registry.go:11-15 | a new registry holds no entries and satisfies the keyed-by-name invariant |
| `ToolRegistry.Registry.Register` | internal/tools/registry/registry.go:18-20 | the entry for `def.Name` becomes `def`, every other name keeps its entry, and the count grows by one only for a new name |
| `ToolRegistry.Registry.Get` | internal/tools/registry/registry.go:23-26 | found exactly when the name is stored; then the stored definition, whose name is the one asked for; otherwise the zero definition |
| `ToolRegistry.Registry.ListAll` | internal/tools/registry/registry.go:29-35 | one element per stored name: as many elements as entries, names distinct, every stored name present, each element the stored definition |
| `ToolRegistry.EnumerateStep` | internal/tools/registry/registry.go:31-33 | appending the definition of one not-yet-visited key keeps the partial enumeration complete and duplicate-free |
| `ToolRegistry.FreshRegistryIsEmpty` | internal/tools/registry/registry.go:11-15 | on a new registry `Get` reports not found for any name and `ListAll` is empty |
| `ToolRegistry.RegisterTwiceKeepsLast` | internal/tools/registry/registry.go:19 | two registrations under one name: `Get` returns the second and `ListAll` holds just that one entry |
| `ConfigLoader.WithDefaults` | internal/config/loader.go:51-56 | host and port end non-empty; an empty host becomes "0.0.0.0" and an empty port "44444"; non-empty values and the permissions are untouched |
| `ConfigLoader.WithDefaultsIdempotent` | internal/config/loader.go:51-56 | filling in the defaults twice gives the same configuration as once |
| `ConfigLoader.ValidateConfig` | internal/config/loader.go:67-74 | every configuration is accepted |
| `ConfigLoader.Load` | internal/config/loader.go:39-64 | a read or parse failure is passed through; a parsed configuration is returned with the defaults applied and never rejected |
| `ConfigLoader.GetAllowedTools` | internal/config/loader.go:77-90 | the empty id and an unconfigured id get the default list; a configured non-empty id gets its own list verbatim, even an empty one |
| `ConfigLoader.EmptyAgentEntryIgnored` | internal/config/loader.go:78-86 | an `agents` entry keyed by "" never changes what the empty id resolves to |
| `ConfigLoader.AllowedToolsAlwaysResolve` | internal/config/loader.go:77-90 | every id resolves to the default list or to its own configured list, never to a failure |
| `ConfigLoader.IsToolAllowed` | internal/config/loader.go:93-101 | true exactly when the tool name equals an element of the resolved list |
| `ConfigLoader.ExplicitEmptyListDeniesAll` | internal/config/loader.go:84-86 | an agent configured with an empty list is allowed no tool, whatever the default list holds |
| `Protocol.StringField` | cmd/mcp_server/server.go:159-165 | a string field decodes from an absent key, null or a JSON string (absent and null giving ""); any other kind is an error |
| `Protocol.ObjectField` | cmd/mcp_server/server.go:159-165 | a map field decodes from an absent key, null or a JSON object (absent and null giving the empty map); any other kind is an error |
| `Protocol.DecodeListToolsRequest` | cmd/mcp_server/server.go:84-88 | the list request decodes exactly when its `method` and `agent_id` fields have string-compatible kinds, carrying their values |
| `Protocol.DecodeToolCallRequest` | cmd/mcp_server/server.go:116-120 | the call request decodes exactly when `method`, `name`, `agent_id` are string-compatible and `args` object-compatible, carrying their values |
| `McpServer.DecodeEnvelope` | cmd/mcp_server/server.go:51-55 | a body decodes into a map exactly when it is a JSON object (its fields) or null (the empty map) |
| `McpServer.Route` | cmd/mcp_server/server.go:40-79 | non-POST gives 405; an undecodable body, a missing `method`, a non-string `method` and an unknown method give 400 with their own messages, in that order; only `list_tools` and `call_tool` reach a handler, with the decoded map |
| `McpServer.Descriptor` | cmd/mcp_server/server.go:96-101 | the advertised copy keeps name, description and parameters and has no handler |
| `McpServer.ListingDescribesEveryTool` | cmd/mcp_server/server.go:91-106 | in a listing, every registered tool appears as its handler-free descriptor |
| `McpServer.EncodeCallResponse` | cmd/mcp_server/server.go:152-155 | writing a call response fails with 500 "Internal server error" exactly when the result cannot be encoded |
| `McpServer.CallTool` | cmd/mcp_server/server.go:115-156 | a bad request shape gives 400; an unknown name gives error "Tool not found: <name>" with a nil result; a handler error gives its message; a success gives its value; result and error are never both set, and a non-nil result always comes from the named handler |
| `McpServer.CallToolSkipsPermissionCheck` | cmd/mcp_server/server.go:115-156 | a registered tool's handler result is returned even when the agent's resolved list excludes the tool |
| `McpServer.RejectionIgnoresRegistry` | cmd/mcp_server/server.go:40-79 | a rejected request is answered the same whatever the registry holds |
| `McpServer.ListingOfDescriptors` | cmd/mcp_server/server.go:91-102 | the descriptors of a `ListAll` result, index by index, list every registered tool exactly once |
| `McpServer.MCPServer.constructor` | cmd/mcp_server/server.go:21-26 | the server keeps the given configuration and owns a new, empty registry |
| `McpServer.MCPServer.RegisterTool` | cmd/mcp_server/server.go:29-31 | the registry gains `def` under its name, replacing any earlier entry |
| `McpServer.MCPServer.HandleListTools` | cmd/mcp_server/server.go:82-112 | a bad request shape gives 400; otherwise the reply lists every registered tool exactly once, without handlers |
| `McpServer.MCPServer.HandleMCPRequest` | cmd/mcp_server/server.go:40-79 | every request is answered as `Responds` prescribes: the rejection `Route` chose, a complete listing, or the `CallTool` outcome |
| `McpServer.ListAfterRegister` | cmd/mcp_server/server.go:91-106 | with one tool registered, `list_tools` from any agent returns exactly that tool's descriptor |
| `McpServer.CallDeniedTool` | cmd/mcp_server/server.go:136-151 | `IsToolAllowed` refuses the tool to the agent, yet a `call_tool` from that agent still runs the handler and returns its value with an empty error |
| `McpServer.CallOnEmptyServer` | cmd/mcp_server/server.go:123-133 | on a server without tools, a call returns the "Tool not found: <name>" error field as a normal reply |

## Left out

- HTTP transport: `Start`, `http.HandleFunc`, `ListenAndServe` and the
  `Content-Type` header are not modelled. A reply is an `Outcome` value.
- JSON text: parsing bytes is abstracted into the `body: Option<Json>` of a
  request, and numbers are integers. `json.Decoder` reading only the first
  value of a body is not modelled.
- `Protocol.DecodeToolCallRequest`, `Protocol.DecodeListToolsRequest`: Go's
  case-insensitive matching of JSON keys to struct fields is not modelled;
  keys must match exactly. The protocol package is not part of this model,
  so the field sets of the two request structures (`method`, `name`, `args`,
  `agent_id`) follow the protocol's wire envelope. The values `"list_tools"`
  and `"call_tool"` of `MCPMethodListTools` and `MCPMethodCallTool` are
  assumed the same way.
- `Protocol.ObjectField`: an absent or `null` `args` leaves Go's map nil,
  while `"args": {}` gives an empty non-nil map. A handler can tell the two
  apart (comparing with nil, or panicking when it writes to a nil map). The
  model gives both as the empty map, so its handlers cannot.
- `McpServer.MCPServer.HandleListTools`: a failure to encode the list reply
  (the 500 branch at cmd/mcp_server/server.go:108-111) is not modelled. A
  descriptor holds only strings and a schema, which the model treats as
  always encodable.
- Reading `config/config.yaml` and YAML parsing in `Load`: `Load` receives
  their outcome as a `Result`.
- Tool handlers are opaque functions of their arguments. Anything a handler
  reads from outside (the clock for `get_current_time`) is folded into the
  function. internal/tools/builtin/time.go is not part of this model.
- cmd/mcp_server/main.go (process start-up, `log.Fatalf`, the address
  string) is not part of this model.
- The fields of a schema property (`ToolParameter`) are not modelled; each
  property is kept as an opaque JSON value.
- Concurrency: requests served in parallel and the registry's lack of
  locking are not modelled. Each method runs alone.
