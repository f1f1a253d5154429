/** The values the gateway moves around: decoded JSON, the tool handler's
    calling contract, and the tool definition held by the registry.
    These mirror the external `tools_types` package; only the fields that
    the registry and the server touch are modelled. */
module ToolTypes {
  import opened Wrappers

  /** A decoded JSON value. Numbers are abstracted to integers. */
  datatype Json =
    | JNull
    | JBool(b: bool)
    | JNumber(n: int)
    | JString(s: string)
    | JArray(items: seq<Json>)
    | JObject(fields: map<string, Json>)

  /** The argument bag handed to a tool (`args` of a call_tool request). */
  type ToolArguments = map<string, Json>

  /** A value a handler may return: either something JSON can encode, or a
      Go value the JSON encoder refuses (a channel, a function, NaN). */
  datatype ToolValue = Encodable(json: Json) | Unencodable

  /** The zero value of the response's `Result` field (a nil interface). */
  const NilResult: ToolValue := Encodable(JNull)

  /** What a handler call yields: `(value, nil)` or `(_, err)`. */
  datatype HandlerResult = Returned(value: ToolValue) | Failed(message: string)

  /** A tool's implementation, an opaque callable from arguments to a result
      or an error. Whatever it reads from the outside world (the clock, say)
      is folded into the function. */
  type Handler = ToolArguments -> HandlerResult

  /** The advertised argument schema; never interpreted by the gateway.
      Each property's description is kept as an opaque JSON value. */
  datatype ToolSchema = ToolSchema(schemaType: string, properties: map<string, Json>, required: seq<string>)

  /** A registered tool. `handler` is Go's `Function` field; `None` is a nil func. */
  datatype ToolDefinition = ToolDefinition(
    name: string,
    description: string,
    parameters: ToolSchema,
    handler: Option<Handler>)

  /** Go's zero `ToolDefinition`, returned by a failed lookup. */
  const ZeroDefinition: ToolDefinition := ToolDefinition("", "", ToolSchema("", map[], []), None)

  /** The set of names carried by a sequence of definitions. */
  ghost function Names(defs: seq<ToolDefinition>): (names: set<string>)
    ensures forall n :: n in names <==> exists i :: 0 <= i < |defs| && defs[i].name == n
  {
    if defs == [] then {}
    else
      {defs[0].name} + Names(defs[1..])
  }

  /** Appending a definition adds exactly its name. */
  lemma NamesAppend(defs: seq<ToolDefinition>, d: ToolDefinition)
    ensures Names(defs + [d]) == Names(defs) + {d.name}
  {
    var ext := defs + [d];
    forall n | n in Names(defs)
      ensures n in Names(ext)
    {
      var i :| 0 <= i < |defs| && defs[i].name == n;
      assert ext[i].name == n;
    }
    assert ext[|defs|].name == d.name;
  }

  /** No two definitions in the sequence share a name. */
  ghost predicate DistinctNames(defs: seq<ToolDefinition>)
  {
    forall i, j :: 0 <= i < j < |defs| ==> defs[i].name != defs[j].name
  }
}
