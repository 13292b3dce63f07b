/**
 * Configuration from the environment (backend/internal/config/config.go). The
 * environment is a parameter: a map from variable name to value, where an unset
 * variable reads as the empty string. Loading the `.env` file is not modelled.
 */
module Config {
  import opened Text

  type Env = map<string, string>

  datatype DatabaseConfig = DatabaseConfig(host: string, port: string, user: string, password: string, dbName: string)

  datatype Config = Config(database: DatabaseConfig, serverPort: string, jwtSecret: string, rawDsn: string)

  /** `os.Getenv`: an unset variable reads as "". */
  function Getenv(env: Env, key: string): string {
    if key in env then env[key] else ""
  }

  /** `getEnv`: the value with surrounding white space removed, or the fallback when nothing is left. */
  function GetEnv(env: Env, key: string, fallback: string): (r: string)
    ensures r == fallback || (r != "" && r == TrimGo(Getenv(env, key)))
    ensures TrimGo(Getenv(env, key)) != "" ==> r == TrimGo(Getenv(env, key))
  {
    var value := TrimGo(Getenv(env, key));
    if value != "" then value else fallback
  }

  /** A string that neither starts nor ends with white space is its own trim. */
  lemma TrimFixed(s: string)
    requires s != [] ==> !GoSpace(s[0]) && !GoSpace(s[|s| - 1])
    ensures TrimGo(s) == s
  {
    assert Lead(s, GoSpace) == 0;
  }

  /**
   * A value `getEnv` returns, written back under its variable, is read back unchanged:
   * the result is already trimmed (when the fallback is).
   */
  lemma GetEnvStable(env: Env, key: string, fallback: string)
    requires fallback != "" ==> !GoSpace(fallback[0]) && !GoSpace(fallback[|fallback| - 1])
    ensures GetEnv(env[key := GetEnv(env, key, fallback)], key, fallback) == GetEnv(env, key, fallback)
  {
    var r := GetEnv(env, key, fallback);
    TrimFixed(r);
  }

  /** `Load`: `DATABASE_URL` wins over `DB_URL`, both trimmed; every other setting has its default. */
  function Load(env: Env): (c: Config)
    ensures TrimGo(Getenv(env, "DATABASE_URL")) != "" ==> c.rawDsn == TrimGo(Getenv(env, "DATABASE_URL"))
    ensures TrimGo(Getenv(env, "DATABASE_URL")) == "" ==> c.rawDsn == TrimGo(Getenv(env, "DB_URL"))
    ensures c.database.host != "" && c.database.port != "" && c.database.user != "" && c.database.dbName != ""
    ensures c.serverPort != "" && c.jwtSecret != ""
  {
    var raw := TrimGo(Getenv(env, "DATABASE_URL"));
    var rawDsn := if raw == "" then TrimGo(Getenv(env, "DB_URL")) else raw;
    Config(
      DatabaseConfig(
        GetEnv(env, "DB_HOST", "127.0.0.1"),
        GetEnv(env, "DB_PORT", "5432"),
        GetEnv(env, "DB_USER", "postgres"),
        GetEnv(env, "DB_PASSWORD", ""),
        GetEnv(env, "DB_NAME", "db_moneyku")),
      GetEnv(env, "SERVER_PORT", "8080"),
      GetEnv(env, "JWT_SECRET", "your-secret-key-change-this-in-production"),
      rawDsn)
  }

  /** With an empty environment every setting takes its default and there is no raw DSN. */
  lemma LoadDefaults()
    ensures Load(map[]) == Config(
              DatabaseConfig("127.0.0.1", "5432", "postgres", "", "db_moneyku"),
              "8080", "your-secret-key-change-this-in-production", "")
  {
    assert TrimGo("") == "";
  }

  /** The key=value pairs of the connection string, in the order of the format string. */
  function DsnPairs(d: DatabaseConfig): seq<string> {
    ["host=" + d.host, "port=" + d.port, "user=" + d.user, "password=" + d.password,
     "dbname=" + d.dbName, "sslmode=disable"]
  }

  /** `GetDSN`: the raw DSN verbatim when there is one, else the pairs separated by single spaces. */
  function GetDsn(c: Config): (dsn: string)
    ensures c.rawDsn != "" ==> dsn == c.rawDsn
  {
    if c.rawDsn != "" then c.rawDsn else Join(DsnPairs(c.database), " ")
  }

  /**
   * The key=value form reads back field by field: when no field holds a space, splitting
   * it on spaces gives the six pairs in the order host, port, user, password, dbname, sslmode.
   */
  lemma DsnFields(c: Config)
    requires c.rawDsn == ""
    requires ' ' !in c.database.host && ' ' !in c.database.port && ' ' !in c.database.user
    requires ' ' !in c.database.password && ' ' !in c.database.dbName
    ensures Split(GetDsn(c), ' ') == DsnPairs(c.database)
  {
    var pairs := DsnPairs(c.database);
    forall i | 0 <= i < |pairs| ensures ' ' !in pairs[i] {
    }
    SplitJoin(pairs, ' ');
  }

  /** A non-blank `DATABASE_URL` is the connection string, whatever else is set. */
  lemma DsnPrecedence(env: Env)
    ensures TrimGo(Getenv(env, "DATABASE_URL")) != "" ==> GetDsn(Load(env)) == TrimGo(Getenv(env, "DATABASE_URL"))
    ensures TrimGo(Getenv(env, "DATABASE_URL")) == "" && TrimGo(Getenv(env, "DB_URL")) != "" ==>
              GetDsn(Load(env)) == TrimGo(Getenv(env, "DB_URL"))
  {
  }
}
