# Azure Data Explorer MCP server — a Dafny model of its core

The server exposes Azure Data Explorer (Kusto) through the Model Context
Protocol as a handful of tools, each of which sends one KQL text to the
Kusto SDK. Two generations of it live in the repository: the packaged
server under `src/adx_mcp_server/` and the older copies `server.py` and
`main.py` at the root. This project models, for both, the parts with
behaviour of their own:

- **Result materialisation** (`format_query_results`, module
  `Materializer`, shared by both generations since the algorithm is the
  same): one `column_name -> value` record per row of the first primary
  table, in row order. It is modelled as a method with the source's two
  nested loops, proved equal to the specification function `Materialize`,
  and lemmas state what that function means: the keys of a record, the
  last-duplicate-wins rule, that rows can be read back from records when
  column names are distinct, one record per row, only the first table read,
  and exactly when it raises (unreadable columns or rows, or a row longer
  than the column list), never returning a partial list.
- **Credential choice** (`get_kusto_client`). The packaged server
  (`PackageServer.ChooseCredential`, `PackageServer.GetKustoClient`) tries
  workload identity when both `AZURE_TENANT_ID` and `AZURE_CLIENT_ID` are
  non-empty. Its token path defaults to
  `/var/run/secrets/azure/tokens/azure-identity-token`. If that constructor
  raises, it builds `DefaultAzureCredential` once instead. The server's
  own code never reads `AZURE_CLIENT_SECRET`. The root server (`RootServer.GetKustoClient`)
  refuses unless tenant, client and secret are all non-empty and has no
  fallback.
- **Tools**: every tool refuses an empty cluster URL or database before
  any SDK call. It sends at most one query, with a fixed text, against the
  configured database, and sends it exactly when a client was built. A
  failure to build the client, and an error from the query, both reach
  the caller unchanged. The
  root `get_table_schema` returns the `Columns` entry of the JSON document
  in the first cell.
- **Start-up validation**: `MCPServerConfig.__post_init__`,
  `TransportType.values()`, both `setup_environment` functions and the
  transport dispatch of `run_server`.

The Azure SDK is an oracle (`Adx.Sdk`): for each constructor call it says
whether, and with what exception, the call raises, and it gives the answer
of `client.execute(database, query)`. Operations return a `Run`: the SDK
calls made, in order, and the outcome (a value or the exception raised).
That trace is what lets the contracts say "before any client is built",
"the default chain is built at most once", and "exactly one query, with
this text".

The two generations authenticate differently. The packaged server has no
client-secret path of its own, and its own code never reads
`AZURE_CLIENT_SECRET`: it uses workload identity or the default chain. The root server uses only the client
secret. It refuses any configuration in which one of tenant, client and
secret is empty, and never falls back to the default chain.

The root `main.py` announces "default Azure credentials" when the triple
is incomplete, but the root `server.py` refuses exactly that
configuration. `RootMain.AnnouncedDefaultModeRefused` proves that after
such a start-up every root tool fails with the missing-credentials error
before any SDK call.

## Model

| member | source | states |
|---|---|---|
| `Materializer.FormatQueryResults` | src/adx_mcp_server/server.py:138-171 | The nested append loops return exactly `Materialize(resultSet)`: `[]` for no result set or no primary table, a `TypeError` for unreadable columns, an `IndexError` (and no list) for a row longer than the columns, otherwise one record per row |
| `Materializer.RecordOfKeys` | src/adx_mcp_server/server.py:158-160 | A record's keys are exactly the column names at the positions the row fills, so a short row gives fewer keys |
| `Materializer.RecordOfLastWins` | server.py:76-78 | The value under a column name is the row's value at the last position with that name (a later duplicate column overwrites an earlier one) |
| `Materializer.RecordOfRoundTrip` | src/adx_mcp_server/server.py:154-160 | With distinct column names every `columns[i]` is a key holding `row[i]`, so the row is recovered from its record |
| `Materializer.RecordsRowByRow` | server.py:74-81 | The record list has one entry per row, and entry `k` is the record of row `k` |
| `Materializer.MaterializeEmpty` | server.py:68-69 | An absent result set or an empty primary-results list gives `[]`, not an error |
| `Materializer.MaterializeFailsIff` | src/adx_mcp_server/server.py:152-171 | Materialisation raises if and only if there is a first table whose columns or rows are unreadable, or which has a row longer than its columns |
| `Materializer.MaterializeOneRecordPerRow` | src/adx_mcp_server/server.py:153-161 | On success there is one record per row of the first table, in order, and record `k` maps `columns[i]` to `rows[k][i]` |
| `Materializer.MaterializeFirstTableOnly` | src/adx_mcp_server/server.py:153 | Tables after the first never change the outcome |
| `Materializer.MaterializeExample` | tests/test_server_tools.py:146-172 | Columns `Name`, `Value` and three rows give the three expected records, in order |
| `Python.StrRoundTrip` | src/adx_mcp_server/server.py:248 | `int(str(n)) == n`: the decimal rendering of the sample size loses nothing, negative sizes included |
| `Python.Lower` | src/adx_mcp_server/main.py:47 | `lower()` keeps the length and lower-cases each ASCII capital, leaving other characters alone |
| `Adx.SampleQuery` | src/adx_mcp_server/server.py:248 | The sample query is the table name verbatim, then the sample infix (a space, a vertical bar, a space, `sample`, a space), then a text that parses back to the sample size |
| `PackageServer.TransportValues` | src/adx_mcp_server/server.py:38-48 | `TransportType.values()` is exactly `["stdio", "http", "sse"]` and holds every member's value |
| `PackageServer.TransportValuesRoundTrip` | src/adx_mcp_server/server.py:41-48 | Looking a member up by its value gives it back, and a string is in `values()` iff it names a member |
| `PackageServer.NewMCPServerConfig` | src/adx_mcp_server/server.py:57-64 | A configuration is built iff transport, host and port are all truthy; otherwise a `ValueError` names the first falsy field, in the order transport, host, port |
| `PackageServer.PortZeroRefused` | src/adx_mcp_server/server.py:63-64 | Port 0 is refused like a missing port |
| `PackageServer.ChooseCredential` | src/adx_mcp_server/server.py:93-119 | Workload identity (ids from the environment, token path defaulting to the well-known path) is tried iff both ids are non-empty; the default chain is built directly otherwise, or once after workload identity raised; the credential returned is the last one built; the call fails exactly when the last constructor raised, and then that constructor is the default chain and the exception is its own, so a working workload identity is always used |
| `PackageServer.GetKustoClient` | src/adx_mcp_server/server.py:121-136 | A credential failure ends the call with the same calls and exception; otherwise exactly one client is built, bound to the configured cluster URL and the chosen credential; the call fails exactly when the last SDK call made raised, and then with that exception, re-raised unchanged |
| `PackageServer.SecretNeverConsulted` | src/adx_mcp_server/server.py:93-95 | The server's own code path, calls and outcome are the same whatever `AZURE_CLIENT_SECRET` holds or whether it is set, given the same SDK behaviour |
| `PackageServer.WorkloadFailureFallsBack` | src/adx_mcp_server/server.py:104-116 | When workload identity raises and the default chain and client work, the call succeeds with the default chain after exactly the calls workload, default, client |
| `PackageServer.RunQuery` | src/adx_mcp_server/server.py:178-195 | An empty cluster URL or database raises the missing-configuration `ValueError` before any SDK call; otherwise at most one query is sent, with this text and the configured database, exactly when a client was built; a failure to build the client is the outcome, with the same calls and exception; a query error comes back unchanged and an answer is materialised |
| `PackageServer.ExecuteQuery` | src/adx_mcp_server/server.py:174-195 | The caller's text is sent verbatim, at most once, after the guard |
| `PackageServer.ListTables` | src/adx_mcp_server/server.py:198-215 | The only query sent is the fixed table listing, `.show tables` projected to TableName, Folder and DatabaseName |
| `PackageServer.GetTableSchema` | src/adx_mcp_server/server.py:218-235 | The only query sent is the table name followed by the getschema operator |
| `PackageServer.SampleTableData` | src/adx_mcp_server/server.py:238-255 | The only query sent is the table name, the sample operator and the size in decimal |
| `PackageServer.GetTableDetails` | src/adx_mcp_server/server.py:258-275 | The only query sent is `.show table ` + table name + ` details` |
| `PackageServer.DefaultSampleQuery` | src/adx_mcp_server/server.py:238 | The default sample size renders as a sample of 10 |
| `PackageServer.ExecuteErrorPropagates` | src/adx_mcp_server/server.py:182-195 | An exception from `execute` is the tool's outcome, unchanged |
| `PackageMain.SetupEnvironment` | src/adx_mcp_server/main.py:16-87 | Start-up succeeds iff cluster URL and database are non-empty and, when an MCP configuration exists, its lower-cased transport is a transport value and its port is falsy or converts with `int()`; each failure value is reported exactly when its check is the first to fail, in the order cluster URL, database, transport, port |
| `PackageMain.SetupWithoutMcpConfig` | src/adx_mcp_server/main.py:44-46 | Without an MCP configuration only the cluster URL and database are checked |
| `PackageMain.TransportCheckMatchesValues` | src/adx_mcp_server/main.py:47-53 | Every transport value passes the transport check, and a transport passes iff its lower-cased text names a member |
| `PackageMain.ReadyMeansToolsReachSdk` | src/adx_mcp_server/main.py:29-42 | After a successful start-up every tool gets past its configuration guard and calls the SDK |
| `PackageMain.RunServer` | src/adx_mcp_server/main.py:89-112 | Validation failure exits with status 1; otherwise the server runs with its configured transport, with host and port exactly when the transport is `"http"` or `"sse"`; a validated configuration without an MCP configuration, and only that, raises `AttributeError` |
| `PackageMain.UpperCaseTransportRunsUnbound` | src/adx_mcp_server/main.py:98-112 | A configuration built by hand with the transport `"HTTP"` passes validation (lower-cased) but is dispatched as stored, without host and port; the configuration built from the environment lower-cases the transport first (src/adx_mcp_server/server.py line 77), so it never stores `"HTTP"` |
| `RootServer.GetKustoClient` | server.py:44-63 | A `ValueError` before any SDK call unless tenant, client and secret are all non-empty; otherwise the secret credential is built, then the client only if that did not raise; the call fails exactly when the last constructor raised, with its exception; the connection is built from exactly those three and the cluster URL; the default chain is never built |
| `RootServer.RunQuery` | server.py:94-98 | The configuration guard comes before the credential check; a failure to build the client is the outcome, with the same calls and exception; a query is sent once a client exists, with its answer or error returned unchanged |
| `RootServer.ExecuteQuery` | server.py:84-99 | The caller's text is sent verbatim, at most once, after the guard |
| `RootServer.ListTables` | server.py:102-115 | The only query sent is the fixed table listing, `.show tables` projected to TableName, Folder and DatabaseName |
| `RootServer.SampleTableData` | server.py:145-162 | The only query sent is the table name, the sample operator and the size in decimal |
| `RootServer.SchemaColumns` | server.py:135-142 | `[]` when there is no primary table or its rows are empty or `None`; when cell [0][0] of the first table holds a string (a string cell or a dynamic string) that parses to a JSON object, its `Columns` entry, or `[]` without one; nothing else is returned: no result set and a non-object document raise `AttributeError`, an empty first row `IndexError`, a cell that is not a string `TypeError`, and a parse error comes back unchanged |
| `RootServer.GetTableSchema` | server.py:118-142 | The only query sent is `.show table <name> schema as json`, after the guard |
| `RootServer.SchemaColumnsOfDocument` | server.py:139-142 | A schema document, held as a string or a dynamic string cell, yields its `Columns` entry, or `[]` when the key is absent, whatever primary tables follow the first |
| `RootMain.SetupEnvironment` | main.py:15-46 | Start-up succeeds iff cluster URL and database are non-empty; the missing cluster URL is reported exactly when it is empty, the missing database exactly when the cluster URL is set and the database empty; the reported mode is client credentials iff tenant, client and secret are all non-empty |
| `RootMain.AnnouncedDefaultModeRefused` | main.py:40-44 | A start-up that announces default credentials is followed by tools that all raise the missing-credentials `ValueError` before any SDK call |
| `RootMain.AnnouncedClientModeReachesSdk` | main.py:40-41 | A start-up that announces client credentials is followed by tools that reach the SDK |

## Left out

- Logging (`structlog` configuration and every `logger.*` call) and the `print` output of the root `main.py`: side effects only. In particular, the error the packaged `format_query_results` logs before re-raising is not modelled; the re-raise itself is.
- `dotenv.load_dotenv`, the module-level `config` objects built from the environment at import time, and the `int()` of `ADX_MCP_BIND_PORT` there: environment input. Configurations are passed in as values; `get_kusto_client` of the packaged server takes the environment as a map.
- FastMCP tool registration, `async`, `mcp.run` and the transports themselves, and the `__main__` blocks and the root `main()`: protocol plumbing.
- The Azure SDK (`WorkloadIdentityCredential`, `DefaultAzureCredential`, `ClientSecretCredential`, `KustoConnectionStringBuilder`, `KustoClient`, `execute`) and `json.loads`: foreign calls, given as oracles. Building the connection string and the client is one SDK call in the model. The answer of `execute` depends only on the client, database and query.
- A `KustoResponseDataSet` is falsy-or-present as an `Option`; the `MagicMock` tables of the tests are tables whose columns and rows may be `None`.
- `Materializer.MaterializeFailsIff`: each row of a table is always a sequence, so a single row that cannot be iterated (which Python would also reject with `TypeError`) is not modelled.
- `PackageServer.SecretNeverConsulted`: the SDK oracle does not see the environment, so the reading of the `AZURE_*` variables that `DefaultAzureCredential` does by itself (its environment credential, which uses `AZURE_CLIENT_SECRET` when tenant, client and secret are all set) is not modelled. The lemma speaks of the server's own code only.
- `Python.Lower`: lower-cases ASCII capitals only, where Python's `str.lower` covers all of Unicode.
- `PackageMain.SetupEnvironment`: the transport is held as text (or `None`), so a configuration built by hand with a `TransportType` member is not modelled. Python's `str()` of such a member is `"TransportType.HTTP"` (for example), which is not a transport value, so `setup_environment` logs an invalid transport and returns `False` for it.
- `PackageMain.SetupEnvironment`: its `int()` of a text port accepts an optional sign and ASCII digits only, where Python also accepts surrounding whitespace, underscores between digits and non-ASCII digits.
- The Dockerfile and its tests: no logic.
