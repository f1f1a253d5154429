/** Server configuration: the host/port defaults applied after loading, and
    the per-agent tool permissions. Reading the file and parsing YAML are not
    part of this model; `Load` receives their outcome. */
module ConfigLoader {
  import opened Wrappers

  datatype ServerConfig = ServerConfig(port: string, host: string)

  /** The tool list used when no agent-specific entry applies. */
  datatype DefaultPermission = DefaultPermission(tools: seq<string>)

  /** One agent's tool list. */
  datatype AgentPermission = AgentPermission(tools: seq<string>)

  datatype PermissionsConfig = PermissionsConfig(
    defaultTools: DefaultPermission,
    agents: map<string, AgentPermission>)

  datatype Config = Config(server: ServerConfig, permissions: PermissionsConfig)

  const DefaultHost: string := "0.0.0.0"
  const DefaultPort: string := "44444"

  /** Prefix of the error `Load` wraps a validation failure in. */
  const InvalidConfigPrefix: string := "配置无效: "

  /** The configuration with an empty host and an empty port replaced by
      their defaults; everything else as given. */
  function WithDefaults(cfg: Config): (r: Config)
    ensures r.server.host != "" && r.server.port != ""
    ensures cfg.server.host != "" ==> r.server.host == cfg.server.host
    ensures cfg.server.port != "" ==> r.server.port == cfg.server.port
    ensures cfg.server.host == "" ==> r.server.host == DefaultHost
    ensures cfg.server.port == "" ==> r.server.port == DefaultPort
    ensures r.permissions == cfg.permissions
  {
    var host := if cfg.server.host == "" then DefaultHost else cfg.server.host;
    var port := if cfg.server.port == "" then DefaultPort else cfg.server.port;
    cfg.(server := ServerConfig(port, host))
  }

  /** Filling in defaults a second time changes nothing. */
  lemma WithDefaultsIdempotent(cfg: Config)
    ensures WithDefaults(WithDefaults(cfg)) == WithDefaults(cfg)
  {
  }

  /** validateConfig: every configuration is accepted (its only check, that
      the default tool list is non-empty, is disabled). */
  function ValidateConfig(cfg: Config): (err: Option<string>)
    ensures err == None
  {
    None
  }

  /** The part of Load after the YAML has been parsed: fill in the host and
      port defaults on the parsed value, validate, and return it. A failure
      to read or parse is passed through. */
  method Load(parsed: Result<Config, string>) returns (r: Result<Config, string>)
    ensures parsed.Failure? ==> r == Failure(parsed.error)
    ensures parsed.Success? ==> r == Success(WithDefaults(parsed.value))
  {
    if parsed.Failure? {
      return Failure(parsed.error);
    }
    var cfg := parsed.value;
    if cfg.server.host == "" {
      cfg := cfg.(server := cfg.server.(host := DefaultHost));
    }
    if cfg.server.port == "" {
      cfg := cfg.(server := cfg.server.(port := DefaultPort));
    }
    r := match ValidateConfig(cfg)
      case None => Success(cfg)
      case Some(e) => Failure(InvalidConfigPrefix + e);
  }

  /** The tool list that applies to `agentID`: the default list for the empty
      id and for an id without an entry, otherwise that agent's own list,
      verbatim, even when it is empty. */
  function GetAllowedTools(c: Config, agentID: string): (allowed: seq<string>)
    ensures agentID == "" ==> allowed == c.permissions.defaultTools.tools
    ensures agentID != "" && agentID in c.permissions.agents ==> allowed == c.permissions.agents[agentID].tools
    ensures agentID !in c.permissions.agents ==> allowed == c.permissions.defaultTools.tools
  {
    if agentID == "" then
      c.permissions.defaultTools.tools
    else if agentID in c.permissions.agents then
      c.permissions.agents[agentID].tools
    else
      c.permissions.defaultTools.tools
  }

  /** An entry keyed by the empty agent id never takes effect: the empty id
      always resolves to the default list, whatever `agents[""]` holds. */
  lemma EmptyAgentEntryIgnored(c: Config, entry: AgentPermission)
    ensures var c' := c.(permissions := c.permissions.(agents := c.permissions.agents["" := entry]));
      GetAllowedTools(c', "") == c.permissions.defaultTools.tools
  {
  }

  /** Resolution never fails: every id resolves to the default list or to
      the list configured for exactly that id. */
  lemma AllowedToolsAlwaysResolve(c: Config, agentID: string)
    ensures GetAllowedTools(c, agentID) == c.permissions.defaultTools.tools
      || (agentID in c.permissions.agents && GetAllowedTools(c, agentID) == c.permissions.agents[agentID].tools)
  {
  }

  /** Linear scan of the resolved list for an exactly equal name. */
  method IsToolAllowed(c: Config, agentID: string, toolName: string) returns (allowed: bool)
    ensures allowed <==> toolName in GetAllowedTools(c, agentID)
  {
    var allowedTools := GetAllowedTools(c, agentID);
    for i := 0 to |allowedTools|
      invariant toolName !in allowedTools[..i]
    {
      if allowedTools[i] == toolName {
        return true;
      }
    }
    return false;
  }

  /** An agent configured with an explicitly empty list may call nothing,
      whatever the default list allows. */
  method ExplicitEmptyListDeniesAll(c: Config, agentID: string, toolName: string) returns (allowed: bool)
    requires agentID != "" && agentID in c.permissions.agents
    requires c.permissions.agents[agentID].tools == []
    ensures !allowed
  {
    allowed := IsToolAllowed(c, agentID, toolName);
  }
}
