/** The packaged entry point, `src/adx_mcp_server/main.py`: the start-up
    validation and the choice of how the server is started. */
module PackageMain {
  import opened Python
  import opened Adx
  import opened PackageServer

  /** What `setup_environment` decides; every value but `Ready` is a
      distinct logged error after which it returns `False`. */
  datatype Setup = Ready | MissingClusterUrl | MissingDatabase | InvalidTransport | InvalidPort

  /** `str(transport)`: `None` prints as "None". */
  function TransportText(transport: Option<string>): string
  {
    if transport.None? then "None" else transport.value
  }

  /** The transport check: its lower-cased text must be a transport value. */
  predicate TransportAccepted(mcp: MCPServerConfig)
  {
    Lower(TransportText(mcp.transport)) in TransportValues()
  }

  /** The port check: a falsy port is skipped; a truthy one must convert
      with `int()`. */
  predicate PortAccepted(mcp: MCPServerConfig)
  {
    match mcp.bindPort
    case NoPort => true
    case PortInt(_) => true
    case PortText(s) => s == "" || ParseInt(s).Some?
  }

  /** `setup_environment`: the cluster URL, then the database, then (only
      when an MCP configuration is present) the transport, then the port;
      the first check that fails decides. */
  function SetupEnvironment(config: AdxConfig): (s: Setup)
    ensures s == Ready <==>
      && config.clusterUrl != ""
      && config.database != ""
      && (config.mcpServerConfig.Some? ==>
            TransportAccepted(config.mcpServerConfig.value) && PortAccepted(config.mcpServerConfig.value))
    ensures s == MissingClusterUrl <==> config.clusterUrl == ""
    ensures s == MissingDatabase <==> config.clusterUrl != "" && config.database == ""
    ensures s == InvalidTransport <==>
      Configured(config.clusterUrl, config.database) &&
      config.mcpServerConfig.Some? && !TransportAccepted(config.mcpServerConfig.value)
    ensures s == InvalidPort <==>
      Configured(config.clusterUrl, config.database) &&
      config.mcpServerConfig.Some? && TransportAccepted(config.mcpServerConfig.value) &&
      !PortAccepted(config.mcpServerConfig.value)
  {
    if config.clusterUrl == "" then MissingClusterUrl
    else if config.database == "" then MissingDatabase
    else if config.mcpServerConfig.Some? && !TransportAccepted(config.mcpServerConfig.value) then InvalidTransport
    else if config.mcpServerConfig.Some? && !PortAccepted(config.mcpServerConfig.value) then InvalidPort
    else Ready
  }

  /** Without an MCP configuration only the two settings are checked. */
  lemma SetupWithoutMcpConfig(clusterUrl: string, database: string)
    ensures SetupEnvironment(AdxConfig(clusterUrl, database, None)) == Ready <==>
      Configured(clusterUrl, database)
  {
  }

  /** Every transport value passes the transport check, in any letter case
      of its ASCII letters; nothing else does. */
  lemma TransportCheckMatchesValues(mcp: MCPServerConfig, t: TransportType)
    ensures mcp.transport == Some(t.Value()) ==> TransportAccepted(mcp)
    ensures TransportAccepted(mcp) <==> TransportFromValue(Lower(TransportText(mcp.transport))).Some?
  {
    LowerIdempotent(t.Value());
    TransportValuesRoundTrip(t, Lower(TransportText(mcp.transport)));
  }

  /** A validated start-up means every tool gets past its guard and
      reaches the SDK. */
  lemma ReadyMeansToolsReachSdk(config: AdxConfig, env: Environment, sdk: Sdk, query: string)
    requires SetupEnvironment(config) == Ready
    ensures RunQuery(config, env, sdk, query).calls != []
  {
  }

  // ---------------------------------------------------------------------
  // run_server
  // ---------------------------------------------------------------------

  datatype Bind = Bind(host: Option<string>, port: Port)

  /** How `run_server` ends: `sys.exit`, an exception, or `mcp.run` with
      the transport and, for network transports, the bind address. */
  datatype Launch =
    | Exit(status: int)
    | Crash(error: Exception)
    | Serve(transport: Option<string>, bind: Option<Bind>)

  /** The transports that take a host and a port (compared verbatim). */
  predicate IsNetworkTransport(transport: Option<string>)
  {
    transport == Some(Http.Value()) || transport == Some(Sse.Value())
  }

  /** `run_server`: exit with status 1 when validation fails; otherwise run
      with host and port for "http" and "sse" and with the transport alone
      for anything else. */
  function RunServer(config: AdxConfig): (l: Launch)
    ensures l == Exit(1) <==> SetupEnvironment(config) != Ready
    ensures l.Serve? <==> SetupEnvironment(config) == Ready && config.mcpServerConfig.Some?
    ensures l.Serve? ==> l.transport == config.mcpServerConfig.value.transport
    ensures l.Serve? ==> (l.bind.Some? <==> IsNetworkTransport(l.transport))
    ensures l.Serve? && l.bind.Some? ==>
      l.bind.value == Bind(config.mcpServerConfig.value.bindHost, config.mcpServerConfig.value.bindPort)
    ensures l.Crash? <==> SetupEnvironment(config) == Ready && config.mcpServerConfig.None?
    ensures l.Crash? ==> l.error == AttributeError
  {
    if SetupEnvironment(config) != Ready then Exit(1)
    else if config.mcpServerConfig.None? then Crash(AttributeError)
    else
      var mcp := config.mcpServerConfig.value;
      if IsNetworkTransport(mcp.transport) then Serve(mcp.transport, Some(Bind(mcp.bindHost, mcp.bindPort)))
      else Serve(mcp.transport, None)
  }

  /** The dispatch compares the transport as stored, while validation
      lower-cases it: "HTTP" passes validation yet runs without a bind
      address. The process configuration lower-cases the transport when
      it is built from the environment, so only a configuration built by
      hand with an upper-case transport reaches `run_server` this way. */
  lemma UpperCaseTransportRunsUnbound(clusterUrl: string, database: string, host: Option<string>)
    requires Configured(clusterUrl, database)
    ensures var config := AdxConfig(clusterUrl, database, Some(MCPServerConfig(Some("HTTP"), host, PortInt(8080))));
      RunServer(config) == Serve(Some("HTTP"), None)
  {
    assert Lower("HTTP") == "http";
  }
}
