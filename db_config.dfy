/** Start-up configuration shared by both front ends: the PostgreSQL URI built
    from the database environment variables, and whether the SQL agent gets
    built at all. Reading the environment is I/O; its results are the
    parameters here (`None` for an unset variable). */
module DbConfig {
  import opened Optional

  /** The raw result of each `os.getenv` the start-up code performs. */
  datatype Env = Env(
    user: Option<string>,      // DB_USER
    password: Option<string>,  // DB_PASSWORD
    host: Option<string>,      // DB_HOST, default "localhost"
    port: Option<string>,      // DB_PORT, default "5432"
    name: Option<string>,      // DB_NAME, default "postgres"
    apiKey: Option<string>     // OPENAI_API_KEY
  )

  /** The five fields written into a connection URI. */
  datatype Credentials = Credentials(user: string, password: string, host: string, port: string, name: string)

  /** `os.getenv(key, default)` given the variable's value (a set but empty
      variable yields "", not the default). */
  function GetEnv(v: Option<string>, default: string): string {
    match v
    case None => default
    case Some(s) => s
  }

  /** Python truthiness of an optional string: set and non-empty. */
  predicate Truthy(v: Option<string>) {
    v.Some? && v.value != ""
  }

  function DbHost(env: Env): string { GetEnv(env.host, "localhost") }
  function DbPort(env: Env): string { GetEnv(env.port, "5432") }
  function DbName(env: Env): string { GetEnv(env.name, "postgres") }

  /** Whether all three of user, password and host are truthy. */
  predicate HasCredentials(env: Env) {
    Truthy(env.user) && Truthy(env.password) && DbHost(env) != ""
  }

  const Scheme: string := "postgresql://"

  /** The URI text for a set of credentials. */
  function Format(c: Credentials): string {
    Scheme + c.user + ":" + c.password + "@" + c.host + ":" + c.port + "/" + c.name
  }

  function CredentialsOf(env: Env): Credentials
    requires HasCredentials(env)
  {
    Credentials(env.user.value, env.password.value, DbHost(env), DbPort(env), DbName(env))
  }

  /** `db_uri`: the formatted URI when user, password and host are all
      truthy, and "" otherwise. */
  function DbUri(env: Env): (uri: string)
    ensures uri != "" <==> HasCredentials(env)
    ensures HasCredentials(env) ==> uri == Format(CredentialsOf(env))
    ensures uri != "" ==> uri[..|Scheme|] == Scheme
  {
    if HasCredentials(env) then Format(CredentialsOf(env)) else ""
  }

  /** An unset host variable falls back to "localhost", so only an explicitly
      empty DB_HOST can block the URI on the host's account. */
  lemma UnsetHostIsLocalhost(env: Env)
    requires env.host.None? && Truthy(env.user) && Truthy(env.password)
    ensures DbUri(env) != "" && CredentialsOf(env).host == "localhost"
  {
  }

  /** Whether the database handle is built: a non-empty URI and a
      successful connection (`connects` is the abstract outcome of
      `SQLDatabase.from_uri`, which is caught and yields no handle on
      failure). */
  predicate DbBuilt(env: Env, connects: bool) {
    DbUri(env) != "" && connects
  }

  /** Whether the agent is built: both the database handle and the language
      model client exist (the client exists exactly when the API key is
      truthy). */
  predicate AgentBuilt(env: Env, connects: bool) {
    DbBuilt(env, connects) && Truthy(env.apiKey)
  }

  /** The agent is built exactly when user, password and host are all
      non-empty, the connection succeeds and the API key is non-empty. */
  lemma AgentNeedsCredentials(env: Env, connects: bool)
    ensures AgentBuilt(env, connects) <==>
              HasCredentials(env) && connects && Truthy(env.apiKey)
  {
  }

  /** `s.partition(c)` when `c` occurs: the text before the first `c` and
      the text after it. */
  function SplitFirst(s: string, c: char): (r: Option<(string, string)>)
    ensures r.Some? ==> s == r.value.0 + [c] + r.value.1 && c !in r.value.0
    ensures r.None? ==> c !in s
  {
    if s == [] then None
    else if s[0] == c then Some(([], s[1..]))
    else
      match SplitFirst(s[1..], c)
      case None => None
      case Some(p) => Some(([s[0]] + p.0, p.1))
  }

  /** When `c` does not occur in `a`, the first `c` of `a + [c] + b` is the
      one after `a`. */
  lemma {:induction false} SplitFirstAt(a: string, b: string, c: char)
    requires c !in a
    ensures SplitFirst(a + [c] + b, c) == Some((a, b))
  {
    var s := a + [c] + b;
    if a == [] {
      assert s[0] == c && s[1..] == b;
    } else {
      assert s[0] == a[0] != c;
      assert s[1..] == a[1..] + [c] + b;
      SplitFirstAt(a[1..], b, c);
      assert [a[0]] + a[1..] == a;
    }
  }

  /** Reads a URI of the shape `Format` writes, splitting each field at the
      first occurrence of the delimiter that follows it. */
  function ParseUri(uri: string): Option<Credentials> {
    if |uri| < |Scheme| || uri[..|Scheme|] != Scheme then None
    else
      match SplitFirst(uri[|Scheme|..], ':')
      case None => None
      case Some(p1) =>
        match SplitFirst(p1.1, '@')
        case None => None
        case Some(p2) =>
          match SplitFirst(p2.1, ':')
          case None => None
          case Some(p3) =>
            match SplitFirst(p3.1, '/')
            case None => None
            case Some(p4) => Some(Credentials(p1.0, p2.0, p3.0, p4.0, p4.1))
  }

  /** Round trip: as long as user, password, host and port contain no
      character of the delimiter that ends them, the URI determines the
      credentials it was built from. */
  lemma {:induction false} ParseFormat(c: Credentials)
    requires ':' !in c.user && '@' !in c.password && ':' !in c.host && '/' !in c.port
    ensures ParseUri(Format(c)) == Some(c)
  {
    var uri := Format(c);
    var rest4 := c.port + "/" + c.name;
    var rest3 := c.host + ":" + rest4;
    var rest2 := c.password + "@" + rest3;
    var rest1 := c.user + ":" + rest2;
    assert uri == Scheme + rest1;
    assert uri[..|Scheme|] == Scheme && uri[|Scheme|..] == rest1;
    SplitFirstAt(c.user, rest2, ':');
    SplitFirstAt(c.password, rest3, '@');
    SplitFirstAt(c.host, rest4, ':');
    SplitFirstAt(c.port, c.name, '/');
  }

  /** The credentials are written without escaping, so an '@' in the password
      makes two different configurations produce the same URI. */
  lemma PasswordAtIsAmbiguous()
    ensures Format(Credentials("u", "p@h", "x", "5432", "postgres"))
         == Format(Credentials("u", "p", "h@x", "5432", "postgres"))
  {
  }
}
