/**
 * `get_database_url` and the `connect_args` choice: the connection string
 * comes from `DATABASE_URL`, else from the secrets manager, else SQLite.
 * The environment is a map; the secrets manager is a parameter.
 */
module Database {
  import opened Common
  import opened Secrets

  const SqliteUrl: string := "sqlite:///./openmemory.db"

  /** What `get_secret(region, name)` does: raises (a client error, or no `SecretString`), or gives the parsed JSON object. */
  datatype SecretFetch = FetchRaises(text: string) | SecretObject(secret: map<string, SecretValue>)

  /** The three sources, in order of priority. */
  datatype UrlSource = FromEnvironment | FromSecrets | SqliteFallback

  datatype DatabaseUrl = DatabaseUrl(url: string, source: UrlSource)

  /** `os.getenv("AWS_REGION") or os.getenv("AWS_DEFAULT_REGION")`. */
  function Region(env: map<string, string>): (r: Option<string>)
    ensures Truthy(Get(env, "AWS_REGION")) ==> r == Some(env["AWS_REGION"])
    ensures !Truthy(Get(env, "AWS_REGION")) ==> r == Get(env, "AWS_DEFAULT_REGION")
  {
    OrElse(Get(env, "AWS_REGION"), Get(env, "AWS_DEFAULT_REGION"))
  }

  /** Whether the secrets path is taken: both the region and `DB_SECRET_NAME` are non-empty. */
  predicate UsesSecrets(env: map<string, string>)
  {
    Truthy(Region(env)) && Truthy(Get(env, "DB_SECRET_NAME"))
  }

  /** `get_database_url()`; `fetch` stands for `get_secret`. */
  function GetDatabaseUrl(env: map<string, string>, fetch: (string, string) -> SecretFetch): (r: DatabaseUrl)
    ensures Truthy(Get(env, "DATABASE_URL")) <==> r.source == FromEnvironment
    ensures r.source == FromEnvironment ==> r.url == env["DATABASE_URL"]
    ensures r.source == FromSecrets <==>
      !Truthy(Get(env, "DATABASE_URL")) && UsesSecrets(env) &&
      fetch(Region(env).value, env["DB_SECRET_NAME"]).SecretObject? &&
      BuildDatabaseUrl(fetch(Region(env).value, env["DB_SECRET_NAME"]).secret).Ok?
    ensures r.source == FromSecrets ==>
      Ok(r.url) == BuildDatabaseUrl(fetch(Region(env).value, env["DB_SECRET_NAME"]).secret)
    ensures r.source == SqliteFallback ==> r.url == SqliteUrl
  {
    var explicit := Get(env, "DATABASE_URL");
    if Truthy(explicit) then DatabaseUrl(explicit.value, FromEnvironment)
    else
      var region := Region(env);
      var name := Get(env, "DB_SECRET_NAME");
      if Truthy(region) && Truthy(name) then
        match fetch(region.value, name.value)
        case FetchRaises(_) => DatabaseUrl(SqliteUrl, SqliteFallback)
        case SecretObject(secret) =>
          match BuildDatabaseUrl(secret)
          case Err(_) => DatabaseUrl(SqliteUrl, SqliteFallback)
          case Ok(url) => DatabaseUrl(url, FromSecrets)
      else DatabaseUrl(SqliteUrl, SqliteFallback)
  }

  /** An explicit `DATABASE_URL` wins whatever the secrets manager would answer. */
  lemma ExplicitUrlIgnoresSecrets(env: map<string, string>, f: (string, string) -> SecretFetch, g: (string, string) -> SecretFetch)
    requires Truthy(Get(env, "DATABASE_URL"))
    ensures GetDatabaseUrl(env, f) == GetDatabaseUrl(env, g) == DatabaseUrl(env["DATABASE_URL"], FromEnvironment)
  {
  }

  /** When the secrets path is not taken the secrets manager is irrelevant and the answer is the SQLite file or the explicit URL. */
  lemma NoSecretsWithoutConfiguration(env: map<string, string>, f: (string, string) -> SecretFetch, g: (string, string) -> SecretFetch)
    requires !UsesSecrets(env)
    ensures GetDatabaseUrl(env, f) == GetDatabaseUrl(env, g)
    ensures GetDatabaseUrl(env, f).source != FromSecrets
  {
  }

  /** `{"check_same_thread": False}` for SQLite, `{}` otherwise. */
  function ConnectArgs(url: string): (r: map<string, bool>)
    ensures r.Keys == (if StartsWith(url, "sqlite") then {"check_same_thread"} else {})
    ensures "check_same_thread" in r ==> !r["check_same_thread"]
  {
    if StartsWith(url, "sqlite") then map["check_same_thread" := false] else map[]
  }

  /** The SQLite fallback gets `check_same_thread` switched off; a URL from the secrets manager gets no arguments. */
  lemma ConnectArgsOfSource(env: map<string, string>, fetch: (string, string) -> SecretFetch)
    ensures var d := GetDatabaseUrl(env, fetch);
      (d.source == SqliteFallback ==> ConnectArgs(d.url) == map["check_same_thread" := false]) &&
      (d.source == FromSecrets ==> ConnectArgs(d.url) == map[])
  {
    var d := GetDatabaseUrl(env, fetch);
    assert SqliteUrl[..6] == "sqlite";
    if d.source == FromSecrets {
      assert StartsWith(d.url, Scheme);
      assert d.url[..|Scheme|] == Scheme;
      assert d.url[0] == 'p';
      assert d.url[..6][0] == 'p';
    }
  }
}
