/** What both generations of the server share: the shapes of the Azure
    Data Explorer (Kusto) SDK's results, the SDK calls the server makes,
    the behaviour of the SDK as an oracle, the configuration guard every
    tool runs first, and the KQL texts the tools send. */
module Adx {
  import opened Python

  /** A JSON document, as `json.loads` returns it. */
  datatype Json =
    | JNull
    | JBool(b: bool)
    | JNumber(n: int)
    | JString(s: string)
    | JArray(items: seq<Json>)
    | JObject(fields: map<string, Json>)

  /** One cell of a result table, with Kusto's dynamic typing kept as a tag. */
  datatype Value =
    | Null
    | Bool(b: bool)
    | Long(n: int)
    | Real(r: real)
    | Text(s: string)
    | DateTime(ticks: int)
    | Dynamic(json: Json)

  datatype Column = Column(columnName: string, columnType: string)

  /** A primary result table. `columns` or `rows` is `None` when that
      attribute cannot be iterated (it holds `None`). */
  datatype Table = Table(columns: Option<seq<Column>>, rows: Option<seq<seq<Value>>>)

  /** What `KustoClient.execute` answers: the primary result tables in order. */
  datatype ResultSet = ResultSet(primaryResults: seq<Table>)

  /** The credential objects of `azure.identity` the servers construct. */
  datatype Credential =
    | WorkloadIdentityCredential(tenantId: string, clientId: string, tokenFilePath: string)
    | DefaultAzureCredential
    | ClientSecretCredential(tenantId: string, clientId: string, clientSecret: string)

  /** The two `KustoConnectionStringBuilder` forms the servers use. */
  datatype ConnectionString =
    | WithAzureTokenCredential(clusterUrl: string, credential: Credential)
    | WithAadApplicationKey(clusterUrl: string, appId: string, appKey: string, authorityId: string)

  datatype KustoClient = KustoClient(connection: ConnectionString)

  /** One call into the SDK, in the order the server makes them. */
  datatype SdkCall =
    | NewCredential(credential: Credential)
    | NewClient(connection: ConnectionString)
    | Execute(database: string, query: string)

  /** How the SDK behaves on this occasion: which constructor call raises
      what (`raises` is asked about `NewCredential` and `NewClient` calls),
      and what `client.execute(database, query)` answers. */
  datatype Sdk = Sdk(
    raises: SdkCall -> Option<Exception>,
    execute: (KustoClient, string, string) -> Result<Option<ResultSet>>)

  /** The SDK calls an operation made, and how it ended. */
  datatype Run<T> = Run(calls: seq<SdkCall>, outcome: Result<T>)

  /** The queries sent in a sequence of SDK calls, in order. */
  function Queries(calls: seq<SdkCall>): (qs: seq<SdkCall>)
    ensures forall i :: 0 <= i < |qs| ==> qs[i].Execute? && qs[i] in calls
    ensures |qs| <= |calls|
  {
    if calls == [] then []
    else Queries(calls[..|calls| - 1]) + (if calls[|calls| - 1].Execute? then [calls[|calls| - 1]] else [])
  }

  lemma {:induction false} QueriesAppend(a: seq<SdkCall>, b: seq<SdkCall>)
    ensures Queries(a + b) == Queries(a) + Queries(b)
  {
    if b != [] {
      var n := |b| - 1;
      assert (a + b)[..|a + b| - 1] == a + b[..n];
      QueriesAppend(a, b[..n]);
    } else {
      assert a + b == a;
    }
  }

  /** A trace with no `Execute` call sends no query. */
  lemma {:induction false} QueriesNone(calls: seq<SdkCall>)
    requires forall c :: c in calls ==> !c.Execute?
    ensures Queries(calls) == []
  {
    if calls != [] {
      QueriesNone(calls[..|calls| - 1]);
    }
  }

  /** Appending one query to a query-free trace sends exactly that query. */
  lemma QueriesOne(calls: seq<SdkCall>, database: string, query: string)
    requires forall c :: c in calls ==> !c.Execute?
    ensures Queries(calls + [Execute(database, query)]) == [Execute(database, query)]
  {
    QueriesAppend(calls, [Execute(database, query)]);
    QueriesNone(calls);
    assert Queries([Execute(database, query)]) == [Execute(database, query)] by {
      assert [Execute(database, query)][..0] == [];
    }
  }

  // ---------------------------------------------------------------------
  // The tool guard and the KQL texts shared by both generations
  // ---------------------------------------------------------------------

  const MissingConfigurationMessage: string :=
    "Azure Data Explorer configuration is missing. Please set ADX_CLUSTER_URL and ADX_DATABASE environment variables."

  /** Every tool refuses to run unless both settings are non-empty. */
  predicate Configured(clusterUrl: string, database: string)
  {
    clusterUrl != "" && database != ""
  }

  const ListTablesQuery: string := ".show tables | project TableName, Folder, DatabaseName"

  /** `sample_table_data`'s default `sample_size`. */
  const DefaultSampleSize: int := 10

  const SampleInfix: string := " | sample "

  /** `f"{table_name} | sample {sample_size}"` */
  function SampleQuery(tableName: string, sampleSize: int): (q: string)
    ensures |q| > |tableName| + |SampleInfix|
    ensures q[..|tableName|] == tableName
    ensures q[|tableName|..|tableName| + |SampleInfix|] == SampleInfix
    ensures ParseInt(q[|tableName| + |SampleInfix|..]) == Some(sampleSize)
  {
    var q := tableName + SampleInfix + Str(sampleSize);
    assert q[|tableName| + |SampleInfix|..] == Str(sampleSize);
    StrRoundTrip(sampleSize);
    q
  }
}
