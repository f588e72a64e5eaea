/** The first-generation server, `server.py` at the repository root:
    client credentials are mandatory, and `get_table_schema` reads the
    `Columns` entry of a JSON schema document. */
module RootServer {
  import opened Python
  import opened Adx
  import opened Materializer

  /** `ADXConfig`, with the credential triple ("" when unset). */
  datatype AdxConfig = AdxConfig(
    clusterUrl: string,
    database: string,
    tenantId: string,
    clientId: string,
    clientSecret: string)

  const ClientCredentialsMissingMessage: string :=
    "Client credentials are missing. Please set AZURE_TENANT_ID, AZURE_CLIENT_ID, and AZURE_CLIENT_SECRET environment variables."

  /** `all([tenant_id, client_id, client_secret])` */
  predicate HasClientCredentials(config: AdxConfig)
  {
    config.tenantId != "" && config.clientId != "" && config.clientSecret != ""
  }

  /** `get_kusto_client`: refuse unless all three secrets are set, then
      construct a `ClientSecretCredential` (which the connection does not
      use) and a client authenticated with the application key. There is
      no fallback. */
  function GetKustoClient(config: AdxConfig, sdk: Sdk): (r: Run<KustoClient>)
    ensures forall c :: c in r.calls ==> !c.Execute?
    ensures !HasClientCredentials(config) ==>
      r == Run([], Err(ValueError(ClientCredentialsMissingMessage)))
    ensures HasClientCredentials(config) ==>
      && r.calls != []
      && r.calls[0] == NewCredential(ClientSecretCredential(config.tenantId, config.clientId, config.clientSecret))
      && (r.outcome.Err? <==> sdk.raises(r.calls[|r.calls| - 1]).Some?)
      && (r.outcome.Err? ==> sdk.raises(r.calls[|r.calls| - 1]) == Some(r.outcome.error))
    // the client is built only when the credential constructor did not raise
    ensures HasClientCredentials(config) ==>
      var credential := NewCredential(ClientSecretCredential(config.tenantId, config.clientId, config.clientSecret));
      r.calls == [credential] +
        (if sdk.raises(credential).Some? then []
         else [NewClient(WithAadApplicationKey(config.clusterUrl, config.clientId, config.clientSecret, config.tenantId))])
    // the connection is built from exactly the three secrets and the cluster URL
    ensures r.outcome.Ok? ==>
      r.outcome.value.connection ==
        WithAadApplicationKey(config.clusterUrl, config.clientId, config.clientSecret, config.tenantId)
    ensures forall c :: c in r.calls ==> c != NewCredential(DefaultAzureCredential)
  {
    if !HasClientCredentials(config) then Run([], Err(ValueError(ClientCredentialsMissingMessage)))
    else
      var credential := NewCredential(ClientSecretCredential(config.tenantId, config.clientId, config.clientSecret));
      match sdk.raises(credential)
      case Some(e) => Run([credential], Err(e))
      case None =>
        var connection := WithAadApplicationKey(config.clusterUrl, config.clientId, config.clientSecret, config.tenantId);
        var client := NewClient(connection);
        Run([credential, client],
            match sdk.raises(client)
            case Some(e) => Err(e)
            case None => Ok(KustoClient(connection)))
  }

  /** The common start of every tool: the configuration guard, a client,
      one query. Every exception propagates unchanged. */
  function RunQuery(config: AdxConfig, sdk: Sdk, query: string): (r: Run<Option<ResultSet>>)
    // the configuration guard comes before the credential check
    ensures !Configured(config.clusterUrl, config.database) ==>
      r == Run([], Err(ValueError(MissingConfigurationMessage)))
    ensures Configured(config.clusterUrl, config.database) && !HasClientCredentials(config) ==>
      r == Run([], Err(ValueError(ClientCredentialsMissingMessage)))
    ensures Queries(r.calls) == [] || Queries(r.calls) == [Execute(config.database, query)]
    // a failure to build the client is the tool's outcome, unchanged, and no query is sent
    ensures Configured(config.clusterUrl, config.database) && GetKustoClient(config, sdk).outcome.Err? ==>
      r == Run(GetKustoClient(config, sdk).calls, Err(GetKustoClient(config, sdk).outcome.error))
    ensures Configured(config.clusterUrl, config.database) && GetKustoClient(config, sdk).outcome.Ok? ==>
      && Queries(r.calls) == [Execute(config.database, query)]
      && r.outcome == sdk.execute(GetKustoClient(config, sdk).outcome.value, config.database, query)
  {
    if !Configured(config.clusterUrl, config.database) then
      Run([], Err(ValueError(MissingConfigurationMessage)))
    else
      var client := GetKustoClient(config, sdk);
      QueriesNone(client.calls);
      match client.outcome
      case Err(e) => Run(client.calls, Err(e))
      case Ok(kusto) =>
        QueriesOne(client.calls, config.database, query);
        Run(client.calls + [Execute(config.database, query)], sdk.execute(kusto, config.database, query))
  }

  /** Materialise the answer of a query run. */
  function Materialized(run: Run<Option<ResultSet>>): (r: Run<seq<Record>>)
    ensures r.calls == run.calls
    ensures run.outcome.Err? ==> r.outcome == Err(run.outcome.error)
  {
    Run(run.calls, if run.outcome.Err? then Err(run.outcome.error) else Materialize(run.outcome.value))
  }

  /** `execute_query` */
  function ExecuteQuery(config: AdxConfig, sdk: Sdk, query: string): (r: Run<seq<Record>>)
    ensures !Configured(config.clusterUrl, config.database) ==> r.calls == [] && r.outcome.Err?
    ensures Queries(r.calls) == [] || Queries(r.calls) == [Execute(config.database, query)]
  {
    Materialized(RunQuery(config, sdk, query))
  }

  /** `list_tables` */
  function ListTables(config: AdxConfig, sdk: Sdk): (r: Run<seq<Record>>)
    ensures !Configured(config.clusterUrl, config.database) ==> r.calls == [] && r.outcome.Err?
    ensures Queries(r.calls) == [] ||
            Queries(r.calls) == [Execute(config.database, ".show tables | project TableName, Folder, DatabaseName")]
  {
    Materialized(RunQuery(config, sdk, ListTablesQuery))
  }

  /** `sample_table_data` */
  function SampleTableData(config: AdxConfig, sdk: Sdk, tableName: string, sampleSize: int): (r: Run<seq<Record>>)
    ensures !Configured(config.clusterUrl, config.database) ==> r.calls == [] && r.outcome.Err?
    ensures Queries(r.calls) == [] ||
            Queries(r.calls) == [Execute(config.database, SampleQuery(tableName, sampleSize))]
  {
    Materialized(RunQuery(config, sdk, SampleQuery(tableName, sampleSize)))
  }

  // ---------------------------------------------------------------------
  // get_table_schema
  // ---------------------------------------------------------------------

  /** `f".show table {table_name} schema as json"` */
  function SchemaQuery(tableName: string): string
  {
    ".show table " + tableName + " schema as json"
  }

  /** The first cell of the first primary table, when there is one. */
  predicate HasFirstCell(resultSet: ResultSet)
  {
    resultSet.primaryResults != [] && resultSet.primaryResults[0].rows.Some? &&
    resultSet.primaryResults[0].rows.value != [] && resultSet.primaryResults[0].rows.value[0] != []
  }

  /** The first cell of the first primary table. */
  function FirstCell(resultSet: ResultSet): Value
    requires HasFirstCell(resultSet)
  {
    resultSet.primaryResults[0].rows.value[0][0]
  }

  /** `not result_set.primary_results or not result_set.primary_results[0].rows` */
  predicate NoSchemaRows(resultSet: ResultSet)
  {
    resultSet.primaryResults == [] || resultSet.primaryResults[0].rows.None? ||
    resultSet.primaryResults[0].rows.value == []
  }

  /** The Python `str` a cell holds, if any: a string cell, or a dynamic
      cell whose JSON value is a string. */
  function CellText(v: Value): Option<string>
  {
    match v
    case Text(s) => Some(s)
    case Dynamic(JString(s)) => Some(s)
    case _ => None
  }

  /** The first cell holds a string that `loads` parses to a JSON object. */
  predicate HasSchemaDocument(resultSet: ResultSet, loads: string -> Result<Json>)
  {
    HasFirstCell(resultSet) && CellText(FirstCell(resultSet)).Some? &&
    loads(CellText(FirstCell(resultSet)).value).Ok? &&
    loads(CellText(FirstCell(resultSet)).value).value.JObject?
  }

  /** What `get_table_schema` makes of the answer: `[]` when there is no
      primary table or its rows are empty or `None` (falsy); otherwise the
      string in cell [0][0] is parsed with `loads` and its "Columns" entry
      returned, or `[]` when that key is absent. Accessing an absent result
      set, an empty first row, a cell that is not a string or a document
      that is not an object raises. */
  function SchemaColumns(resultSet: Option<ResultSet>, loads: string -> Result<Json>): (r: Result<Json>)
    // a value is returned only for an empty answer or a schema document
    ensures r.Ok? ==>
      resultSet.Some? && (NoSchemaRows(resultSet.value) || HasSchemaDocument(resultSet.value, loads))
    ensures resultSet.Some? && NoSchemaRows(resultSet.value) ==> r == Ok(JArray([]))
    // a schema document gives its "Columns" entry, or [] without one
    ensures resultSet.Some? && HasSchemaDocument(resultSet.value, loads) ==>
      var fields := loads(CellText(FirstCell(resultSet.value)).value).value.fields;
      r == Ok(if "Columns" in fields then fields["Columns"] else JArray([]))
    // every other answer raises: no result set, an empty first row, a cell
    // that is not a string, a parse error (unchanged), a non-object document
    ensures resultSet.None? ==> r == Err(AttributeError)
    ensures resultSet.Some? && !NoSchemaRows(resultSet.value) && !HasFirstCell(resultSet.value) ==>
      r == Err(IndexError)
    ensures resultSet.Some? && HasFirstCell(resultSet.value) && CellText(FirstCell(resultSet.value)).None? ==>
      r == Err(TypeError)
    ensures resultSet.Some? && HasFirstCell(resultSet.value) && CellText(FirstCell(resultSet.value)).Some? &&
            loads(CellText(FirstCell(resultSet.value)).value).Err? ==>
      r == Err(loads(CellText(FirstCell(resultSet.value)).value).error)
    ensures resultSet.Some? && HasFirstCell(resultSet.value) && CellText(FirstCell(resultSet.value)).Some? &&
            loads(CellText(FirstCell(resultSet.value)).value).Ok? &&
            !loads(CellText(FirstCell(resultSet.value)).value).value.JObject? ==>
      r == Err(AttributeError)
  {
    match resultSet
    case None => Err(AttributeError)
    case Some(rs) =>
      if NoSchemaRows(rs) then Ok(JArray([]))
      else if rs.primaryResults[0].rows.value[0] == [] then Err(IndexError)
      else
        match CellText(rs.primaryResults[0].rows.value[0][0])
        case Some(text) =>
          (match loads(text)
           case Err(e) => Err(e)
           case Ok(JObject(fields)) => Ok(if "Columns" in fields then fields["Columns"] else JArray([]))
           case Ok(_) => Err(AttributeError))
        case None => Err(TypeError)
  }

  /** `get_table_schema` */
  function GetTableSchema(config: AdxConfig, sdk: Sdk, loads: string -> Result<Json>, tableName: string): (r: Run<Json>)
    ensures !Configured(config.clusterUrl, config.database) ==> r.calls == [] && r.outcome.Err?
    ensures Queries(r.calls) == [] ||
            Queries(r.calls) == [Execute(config.database, ".show table " + tableName + " schema as json")]
  {
    var run := RunQuery(config, sdk, SchemaQuery(tableName));
    Run(run.calls, if run.outcome.Err? then Err(run.outcome.error) else SchemaColumns(run.outcome.value, loads))
  }

  /** A schema document, held as a string or a dynamic string, with a
      "Columns" entry yields exactly that entry; one without it yields the
      empty list, whatever tables follow. */
  lemma SchemaColumnsOfDocument(table: Table, rest: seq<Table>, text: string, fields: map<string, Json>, loads: string -> Result<Json>)
    requires table.rows.Some? && table.rows.value != [] && table.rows.value[0] != [] &&
             CellText(table.rows.value[0][0]) == Some(text)
    requires loads(text) == Ok(JObject(fields))
    ensures SchemaColumns(Some(ResultSet([table] + rest)), loads) ==
      Ok(if "Columns" in fields then fields["Columns"] else JArray([]))
  {
  }
}
