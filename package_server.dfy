/** The packaged server, `src/adx_mcp_server/server.py`: its transport
    enumeration, the validation of the MCP transport settings, the
    credential choice with its workload-identity fallback, and the five
    tools. */
module PackageServer {
  import opened Python
  import opened Adx
  import opened Materializer

  // ---------------------------------------------------------------------
  // TransportType
  // ---------------------------------------------------------------------

  datatype TransportType = Stdio | Http | Sse
  {
    function Value(): string
    {
      match this
      case Stdio => "stdio"
      case Http => "http"
      case Sse => "sse"
    }
  }

  /** `TransportType.values()`: every member's value, in declaration order. */
  function TransportValues(): (values: seq<string>)
    ensures values == ["stdio", "http", "sse"]
    ensures forall t: TransportType :: t.Value() in values
  {
    [Stdio.Value(), Http.Value(), Sse.Value()]
  }

  /** `TransportType(s)`: the member whose value is `s`, if any. */
  function TransportFromValue(s: string): Option<TransportType>
  {
    if s == "stdio" then Some(Stdio)
    else if s == "http" then Some(Http)
    else if s == "sse" then Some(Sse)
    else None
  }

  /** The value list and the lookup by value agree, both ways. */
  lemma TransportValuesRoundTrip(t: TransportType, s: string)
    ensures TransportFromValue(t.Value()) == Some(t)
    ensures s in TransportValues() <==> TransportFromValue(s).Some?
    ensures TransportFromValue(s).Some? ==> TransportFromValue(s).value.Value() == s
  {
  }

  // ---------------------------------------------------------------------
  // MCPServerConfig
  // ---------------------------------------------------------------------

  /** The bind port as the configuration may hold it: unset, an integer,
      or text still to be converted. */
  datatype Port = NoPort | PortInt(n: int) | PortText(s: string)

  predicate PortTruthy(port: Port)
  {
    match port
    case NoPort => false
    case PortInt(n) => n != 0
    case PortText(s) => s != ""
  }

  datatype MCPServerConfig = MCPServerConfig(
    transport: Option<string>,
    bindHost: Option<string>,
    bindPort: Port)

  const TransportRequiredMessage: string := "MCP SERVER TRANSPORT is required"
  const HostRequiredMessage: string := "MCP BIND HOST is required"
  const PortRequiredMessage: string := "MCP BIND PORT is required"

  /** `MCPServerConfig(...)` with its `__post_init__` checks: transport,
      then host, then port must be truthy; the first that is not raises. */
  function NewMCPServerConfig(transport: Option<string>, host: Option<string>, port: Port): (r: Result<MCPServerConfig>)
    ensures r.Ok? <==> Truthy(transport) && Truthy(host) && PortTruthy(port)
    ensures r.Ok? ==> r.value == MCPServerConfig(transport, host, port)
    ensures r.Err? ==> r.error.ValueError?
    ensures r.Err? && !Truthy(transport) ==> r.error.message == TransportRequiredMessage
    ensures r.Err? && Truthy(transport) && !Truthy(host) ==> r.error.message == HostRequiredMessage
    ensures r.Err? && Truthy(transport) && Truthy(host) ==> r.error.message == PortRequiredMessage
  {
    if !Truthy(transport) then Err(ValueError(TransportRequiredMessage))
    else if !Truthy(host) then Err(ValueError(HostRequiredMessage))
    else if !PortTruthy(port) then Err(ValueError(PortRequiredMessage))
    else Ok(MCPServerConfig(transport, host, port))
  }

  /** Port 0 is refused like a missing port, whatever the other fields. */
  lemma PortZeroRefused(transport: Option<string>, host: Option<string>)
    ensures NewMCPServerConfig(transport, host, PortInt(0)).Err?
    ensures Truthy(transport) && Truthy(host) ==>
      NewMCPServerConfig(transport, host, PortInt(0)) == Err(ValueError(PortRequiredMessage))
  {
  }

  /** `ADXConfig`: the settings every tool reads. */
  datatype AdxConfig = AdxConfig(
    clusterUrl: string,
    database: string,
    mcpServerConfig: Option<MCPServerConfig>)

  // ---------------------------------------------------------------------
  // get_kusto_client
  // ---------------------------------------------------------------------

  const TenantIdVariable: string := "AZURE_TENANT_ID"
  const ClientIdVariable: string := "AZURE_CLIENT_ID"
  const ClientSecretVariable: string := "AZURE_CLIENT_SECRET"
  const TokenFilePathVariable: string := "ADX_TOKEN_FILE_PATH"
  const DefaultTokenFilePath: string := "/var/run/secrets/azure/tokens/azure-identity-token"

  /** Workload identity is tried exactly when both ids are set and non-empty. */
  predicate WantsWorkloadIdentity(env: Environment)
  {
    Truthy(EnvGet(env, TenantIdVariable)) && Truthy(EnvGet(env, ClientIdVariable))
  }

  /** The workload-identity credential the environment asks for. */
  function WorkloadCredential(env: Environment): Credential
    requires WantsWorkloadIdentity(env)
  {
    WorkloadIdentityCredential(
      env[TenantIdVariable], env[ClientIdVariable],
      EnvGetOr(env, TokenFilePathVariable, DefaultTokenFilePath))
  }

  /** `DefaultAzureCredential()`, after the calls already made. */
  function DefaultRun(before: seq<SdkCall>, sdk: Sdk): Run<Credential>
  {
    var call := NewCredential(DefaultAzureCredential);
    Run(before + [call],
        match sdk.raises(call)
        case Some(e) => Err(e)
        case None => Ok(DefaultAzureCredential))
  }

  /** The credential half of `get_kusto_client`: workload identity when
      both ids are set, falling back to the default chain if its
      constructor raises; the default chain otherwise. */
  function ChooseCredential(env: Environment, sdk: Sdk): (r: Run<Credential>)
    // at most two constructors run, and never the same one twice
    ensures 1 <= |r.calls| <= 2
    ensures forall c :: c in r.calls ==> c.NewCredential?
    ensures r.calls[|r.calls| - 1] == NewCredential(DefaultAzureCredential) ||
            (WantsWorkloadIdentity(env) && r.calls == [NewCredential(WorkloadCredential(env))])
    // the default chain is built at once when the ids are missing
    ensures !WantsWorkloadIdentity(env) ==> r.calls == [NewCredential(DefaultAzureCredential)]
    // otherwise workload identity comes first, and the default chain only after it raised
    ensures WantsWorkloadIdentity(env) ==> r.calls[0] == NewCredential(WorkloadCredential(env))
    ensures WantsWorkloadIdentity(env) ==>
      (|r.calls| == 2 <==> sdk.raises(NewCredential(WorkloadCredential(env))).Some?)
    // the credential returned is the one last constructed
    ensures r.outcome.Ok? ==> r.calls[|r.calls| - 1] == NewCredential(r.outcome.value)
    // a failure is the default chain's own exception, raised by building it
    ensures r.outcome.Err? <==> sdk.raises(r.calls[|r.calls| - 1]).Some?
    ensures r.outcome.Err? ==>
      && r.calls[|r.calls| - 1] == NewCredential(DefaultAzureCredential)
      && sdk.raises(NewCredential(DefaultAzureCredential)) == Some(r.outcome.error)
  {
    if WantsWorkloadIdentity(env) then
      var workload := NewCredential(WorkloadCredential(env));
      if sdk.raises(workload).None? then Run([workload], Ok(WorkloadCredential(env)))
      else DefaultRun([workload], sdk)
    else DefaultRun([], sdk)
  }

  /** `get_kusto_client`: choose a credential, then build the connection
      and the client from it; any exception is re-raised unchanged. */
  function GetKustoClient(env: Environment, clusterUrl: string, sdk: Sdk): (r: Run<KustoClient>)
    ensures |r.calls| > 0 && forall c :: c in r.calls ==> !c.Execute?
    // the call fails exactly when the last SDK call raised, with that exception
    ensures r.outcome.Err? <==> sdk.raises(r.calls[|r.calls| - 1]).Some?
    ensures r.outcome.Err? ==> sdk.raises(r.calls[|r.calls| - 1]) == Some(r.outcome.error)
    // a credential failure ends the call there, with the same calls and exception
    ensures ChooseCredential(env, sdk).outcome.Err? ==>
      r == Run(ChooseCredential(env, sdk).calls, Err(ChooseCredential(env, sdk).outcome.error))
    // otherwise exactly one client is built, on the chosen credential
    ensures ChooseCredential(env, sdk).outcome.Ok? ==>
      r.calls == ChooseCredential(env, sdk).calls +
                 [NewClient(WithAzureTokenCredential(clusterUrl, ChooseCredential(env, sdk).outcome.value))]
    // a client is bound to the configured cluster and the chosen credential
    ensures r.outcome.Ok? ==>
      && ChooseCredential(env, sdk).outcome.Ok?
      && r.outcome.value.connection ==
           WithAzureTokenCredential(clusterUrl, ChooseCredential(env, sdk).outcome.value)
      && r.calls == ChooseCredential(env, sdk).calls + [NewClient(r.outcome.value.connection)]
  {
    var chosen := ChooseCredential(env, sdk);
    match chosen.outcome
    case Err(e) => Run(chosen.calls, Err(e))
    case Ok(credential) =>
      var connection := WithAzureTokenCredential(clusterUrl, credential);
      var call := NewClient(connection);
      Run(chosen.calls + [call],
          match sdk.raises(call)
          case Some(e) => Err(e)
          case None => Ok(KustoClient(connection)))
  }

  /** The server's own code never consults the client secret: for the same
      SDK behaviour the outcome is the same whatever `AZURE_CLIENT_SECRET`
      holds, or whether it is set. (`DefaultAzureCredential` may read it by
      itself; the SDK oracle does not see the environment.) */
  lemma SecretNeverConsulted(env: Environment, secret: string, clusterUrl: string, sdk: Sdk)
    ensures GetKustoClient(env[ClientSecretVariable := secret], clusterUrl, sdk)
         == GetKustoClient(env - {ClientSecretVariable}, clusterUrl, sdk)
  {
    var e1 := env[ClientSecretVariable := secret];
    var e2 := env - {ClientSecretVariable};
    assert EnvGet(e1, TenantIdVariable) == EnvGet(e2, TenantIdVariable);
    assert EnvGet(e1, ClientIdVariable) == EnvGet(e2, ClientIdVariable);
    assert EnvGetOr(e1, TokenFilePathVariable, DefaultTokenFilePath)
        == EnvGetOr(e2, TokenFilePathVariable, DefaultTokenFilePath);
  }

  /** A failing workload-identity constructor never fails the call by
      itself: the default chain is built once instead, and with a working
      default chain and client the call succeeds on the default chain. */
  lemma WorkloadFailureFallsBack(env: Environment, clusterUrl: string, sdk: Sdk)
    requires WantsWorkloadIdentity(env)
    requires sdk.raises(NewCredential(WorkloadCredential(env))).Some?
    requires sdk.raises(NewCredential(DefaultAzureCredential)).None?
    requires sdk.raises(NewClient(WithAzureTokenCredential(clusterUrl, DefaultAzureCredential))).None?
    ensures GetKustoClient(env, clusterUrl, sdk).outcome
         == Ok(KustoClient(WithAzureTokenCredential(clusterUrl, DefaultAzureCredential)))
    ensures GetKustoClient(env, clusterUrl, sdk).calls
         == [NewCredential(WorkloadCredential(env)), NewCredential(DefaultAzureCredential),
             NewClient(WithAzureTokenCredential(clusterUrl, DefaultAzureCredential))]
  {
  }

  // ---------------------------------------------------------------------
  // The tools
  // ---------------------------------------------------------------------

  /** The common body of every tool: the configuration guard, then a
      client, then one `execute` against the configured database, then
      materialisation; every exception propagates unchanged. */
  function RunQuery(config: AdxConfig, env: Environment, sdk: Sdk, query: string): (r: Run<seq<Record>>)
    // refused before any SDK call when a setting is empty
    ensures !Configured(config.clusterUrl, config.database) ==>
      r == Run([], Err(ValueError(MissingConfigurationMessage)))
    // at most one query, with this text, against the configured database
    ensures Queries(r.calls) == [] || Queries(r.calls) == [Execute(config.database, query)]
    ensures Configured(config.clusterUrl, config.database) ==>
      (Queries(r.calls) == [] <==> GetKustoClient(env, config.clusterUrl, sdk).outcome.Err?)
    // a failure to build the client is the tool's outcome, unchanged
    ensures Configured(config.clusterUrl, config.database) &&
            GetKustoClient(env, config.clusterUrl, sdk).outcome.Err? ==>
      r == Run(GetKustoClient(env, config.clusterUrl, sdk).calls,
               Err(GetKustoClient(env, config.clusterUrl, sdk).outcome.error))
    // the query's answer decides the outcome: its error as it is, or its records
    ensures Configured(config.clusterUrl, config.database) &&
            GetKustoClient(env, config.clusterUrl, sdk).outcome.Ok? ==>
      var answer := sdk.execute(GetKustoClient(env, config.clusterUrl, sdk).outcome.value, config.database, query);
      r.outcome == (if answer.Err? then Err(answer.error) else Materialize(answer.value))
  {
    if !Configured(config.clusterUrl, config.database) then
      Run([], Err(ValueError(MissingConfigurationMessage)))
    else
      var client := GetKustoClient(env, config.clusterUrl, sdk);
      QueriesNone(client.calls);
      match client.outcome
      case Err(e) => Run(client.calls, Err(e))
      case Ok(kusto) =>
        QueriesOne(client.calls, config.database, query);
        var calls := client.calls + [Execute(config.database, query)];
        match sdk.execute(kusto, config.database, query)
        case Err(e) => Run(calls, Err(e))
        case Ok(resultSet) => Run(calls, Materialize(resultSet))
  }

  /** `execute_query`: the caller's text, verbatim. */
  function ExecuteQuery(config: AdxConfig, env: Environment, sdk: Sdk, query: string): (r: Run<seq<Record>>)
    ensures !Configured(config.clusterUrl, config.database) ==> r.calls == [] && r.outcome.Err?
    ensures Queries(r.calls) == [] || Queries(r.calls) == [Execute(config.database, query)]
  {
    RunQuery(config, env, sdk, query)
  }

  /** `list_tables` */
  function ListTables(config: AdxConfig, env: Environment, sdk: Sdk): (r: Run<seq<Record>>)
    ensures !Configured(config.clusterUrl, config.database) ==> r.calls == [] && r.outcome.Err?
    ensures Queries(r.calls) == [] ||
            Queries(r.calls) == [Execute(config.database, ".show tables | project TableName, Folder, DatabaseName")]
  {
    RunQuery(config, env, sdk, ListTablesQuery)
  }

  /** `get_table_schema`: the table name spliced in verbatim. */
  function GetTableSchema(config: AdxConfig, env: Environment, sdk: Sdk, tableName: string): (r: Run<seq<Record>>)
    ensures !Configured(config.clusterUrl, config.database) ==> r.calls == [] && r.outcome.Err?
    ensures Queries(r.calls) == [] ||
            Queries(r.calls) == [Execute(config.database, tableName + " | getschema")]
  {
    RunQuery(config, env, sdk, tableName + " | getschema")
  }

  /** `sample_table_data`: the table name, then the size in decimal. */
  function SampleTableData(config: AdxConfig, env: Environment, sdk: Sdk, tableName: string, sampleSize: int): (r: Run<seq<Record>>)
    ensures !Configured(config.clusterUrl, config.database) ==> r.calls == [] && r.outcome.Err?
    ensures Queries(r.calls) == [] ||
            Queries(r.calls) == [Execute(config.database, SampleQuery(tableName, sampleSize))]
  {
    RunQuery(config, env, sdk, SampleQuery(tableName, sampleSize))
  }

  /** `get_table_details` */
  function GetTableDetails(config: AdxConfig, env: Environment, sdk: Sdk, tableName: string): (r: Run<seq<Record>>)
    ensures !Configured(config.clusterUrl, config.database) ==> r.calls == [] && r.outcome.Err?
    ensures Queries(r.calls) == [] ||
            Queries(r.calls) == [Execute(config.database, ".show table " + tableName + " details")]
  {
    RunQuery(config, env, sdk, ".show table " + tableName + " details")
  }

  /** The default sample size asks for ten rows. */
  lemma DefaultSampleQuery(tableName: string)
    ensures SampleQuery(tableName, DefaultSampleSize) == tableName + " | sample 10"
  {
    assert NatDigits(10) == "10" by {
      assert NatDigits(1) == "1";
      assert NatDigits(0) == "0";
    }
  }

  /** A query error reaches the caller as it is, from every tool. */
  lemma ExecuteErrorPropagates(config: AdxConfig, env: Environment, sdk: Sdk, query: string, e: Exception)
    requires Configured(config.clusterUrl, config.database)
    requires GetKustoClient(env, config.clusterUrl, sdk).outcome.Ok?
    requires sdk.execute(GetKustoClient(env, config.clusterUrl, sdk).outcome.value, config.database, query) == Err(e)
    ensures RunQuery(config, env, sdk, query).outcome == Err(e)
  {
  }
}
