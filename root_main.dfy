/** The first-generation entry point, `main.py` at the repository root:
    the start-up validation and the authentication mode it announces. */
module RootMain {
  import opened Python
  import opened Adx
  import opened RootServer

  /** The authentication mode `setup_environment` reports. */
  datatype AuthMode = ClientCredentials | DefaultCredentials

  /** What `setup_environment` decides: a missing setting (it returns
      `False`), or success with the reported mode (it returns `True`). */
  datatype Setup = MissingClusterUrl | MissingDatabase | Ready(mode: AuthMode)

  /** `setup_environment`: the cluster URL is checked before the database;
      then the mode is announced. */
  function SetupEnvironment(config: AdxConfig): (s: Setup)
    ensures s.Ready? <==> Configured(config.clusterUrl, config.database)
    ensures s == MissingClusterUrl <==> config.clusterUrl == ""
    ensures s == MissingDatabase <==> config.clusterUrl != "" && config.database == ""
    ensures s.Ready? ==> (s.mode == ClientCredentials <==> HasClientCredentials(config))
  {
    if config.clusterUrl == "" then MissingClusterUrl
    else if config.database == "" then MissingDatabase
    else Ready(if HasClientCredentials(config) then ClientCredentials else DefaultCredentials)
  }

  /** The announced default mode does not exist in `server.py`: a start-up
      that reports "default Azure credentials" is followed by tools that
      all refuse, with the missing-credentials error, before any SDK call. */
  lemma AnnouncedDefaultModeRefused(config: AdxConfig, sdk: Sdk, loads: string -> Result<Json>, query: string, tableName: string, size: int)
    requires SetupEnvironment(config) == Ready(DefaultCredentials)
    ensures ExecuteQuery(config, sdk, query) == Run([], Err(ValueError(ClientCredentialsMissingMessage)))
    ensures ListTables(config, sdk) == Run([], Err(ValueError(ClientCredentialsMissingMessage)))
    ensures SampleTableData(config, sdk, tableName, size) == Run([], Err(ValueError(ClientCredentialsMissingMessage)))
    ensures GetTableSchema(config, sdk, loads, tableName) == Run([], Err(ValueError(ClientCredentialsMissingMessage)))
  {
  }

  /** The announced client-credentials mode does reach the SDK. */
  lemma AnnouncedClientModeReachesSdk(config: AdxConfig, sdk: Sdk, query: string)
    requires SetupEnvironment(config) == Ready(ClientCredentials)
    ensures ExecuteQuery(config, sdk, query).calls != []
  {
  }
}
