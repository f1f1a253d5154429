/** The in-memory tool registry: a map from tool name to definition that
    `Register` updates in place. */
module ToolRegistry {
  import opened Wrappers
  import opened ToolTypes

  class Registry {
    /** The Go map `tools`, keyed by tool name. */
    var tools: map<string, ToolDefinition>

    /** Every entry is stored under its own name: `Register` is the only writer
        and keys by `def.name`. */
    ghost predicate Valid()
      reads this
    {
      forall name :: name in tools ==> tools[name].name == name
    }

    /** NewRegistry: a registry with no entries. */
    constructor ()
      ensures Valid() && tools == map[]
    {
      tools := map[];
    }

    /** Inserts `def` under its name, replacing any earlier entry of that name. */
    method Register(def: ToolDefinition)
      requires Valid()
      modifies this
      ensures Valid()
      ensures tools == old(tools)[def.name := def]
      // Spelled out from the map update above: every other name keeps its entry.
      ensures forall name :: name != def.name ==>
        (name in tools <==> name in old(tools)) && (name in tools ==> tools[name] == old(tools)[name])
      ensures |tools| == if def.name in old(tools) then |old(tools)| else |old(tools)| + 1
    {
      if def.name in tools {
        assert tools[def.name := def].Keys == tools.Keys;
      } else {
        assert tools[def.name := def].Keys == tools.Keys + {def.name};
      }
      tools := tools[def.name := def];
    }

    /** Exact-name lookup; a miss yields the zero definition and `false`. */
    method Get(name: string) returns (def: ToolDefinition, found: bool)
      requires Valid()
      ensures found <==> name in tools
      ensures found ==> def == tools[name] && def.name == name
      ensures !found ==> def == ZeroDefinition
    {
      found := name in tools;
      def := if found then tools[name] else ZeroDefinition;
    }

    /** Collects every stored definition, once each, in an order the caller
        must not rely on (Go randomises map iteration). */
    method ListAll() returns (defs: seq<ToolDefinition>)
      requires Valid()
      ensures IsEnumeration(tools, defs)
    {
      defs := [];
      var pending := tools.Keys;
      while pending != {}
        invariant Enumerating(tools, defs, pending)
        decreases pending
      {
        var name :| name in pending;
        EnumerateStep(tools, defs, pending, name);
        defs := defs + [tools[name]];
        pending := pending - {name};
      }
    }
  }

  /** `defs` holds every stored definition exactly once: as many elements as
      entries, no name twice, every stored name present, and each element the
      definition stored under its name. */
  ghost predicate IsEnumeration(tools: map<string, ToolDefinition>, defs: seq<ToolDefinition>)
  {
    && |defs| == |tools|
    && Names(defs) == tools.Keys
    && DistinctNames(defs)
    && forall i :: 0 <= i < |defs| ==> defs[i].name in tools && tools[defs[i].name] == defs[i]
  }

  /** The state of `ListAll` part-way: `defs` holds, once each, the stored
      definitions of every name that is no longer `pending`. */
  ghost predicate Enumerating(tools: map<string, ToolDefinition>, defs: seq<ToolDefinition>, pending: set<string>)
  {
    && pending <= tools.Keys
    && |defs| + |pending| == |tools|
    && Names(defs) == tools.Keys - pending
    && DistinctNames(defs)
    && forall i :: 0 <= i < |defs| ==> defs[i].name in tools && tools[defs[i].name] == defs[i]
  }

  /** Moving one pending name's definition into the listing keeps `Enumerating`. */
  lemma EnumerateStep(tools: map<string, ToolDefinition>, defs: seq<ToolDefinition>, pending: set<string>, name: string)
    requires Enumerating(tools, defs, pending) && name in pending
    requires forall n :: n in tools ==> tools[n].name == n
    ensures Enumerating(tools, defs + [tools[name]], pending - {name})
  {
    var d := tools[name];
    assert name !in Names(defs);
    NamesAppend(defs, d);
    assert tools.Keys - (pending - {name}) == (tools.Keys - pending) + {name};
    assert |pending - {name}| == |pending| - 1;
    var ext := defs + [d];
    forall i, j | 0 <= i < j < |ext|
      ensures ext[i].name != ext[j].name
    {
      if j == |defs| {
        assert ext[i] == defs[i];
      }
    }
  }

  /** A registry that was just created answers not-found for every name and
      lists nothing. */
  method FreshRegistryIsEmpty(name: string) returns (found: bool, all: seq<ToolDefinition>)
    ensures !found && all == []
  {
    var r := new Registry();
    var _, f := r.Get(name);
    found := f;
    all := r.ListAll();
  }

  /** Registering two definitions under one name keeps the second (last write
      wins), and the listing still holds a single entry. */
  method RegisterTwiceKeepsLast(first: ToolDefinition, second: ToolDefinition)
    returns (got: ToolDefinition, found: bool, all: seq<ToolDefinition>)
    requires first.name == second.name
    ensures found && got == second
    ensures |all| == 1 && all[0] == second
  {
    var r := new Registry();
    r.Register(first);
    r.Register(second);
    got, found := r.Get(second.name);
    all := r.ListAll();
  }
}
