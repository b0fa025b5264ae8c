/**
 * `Config::from_env`: the server's settings read from the process
 * environment, given here as a map from variable name to value.
 * Two variables are required; the others have defaults and must parse as
 * the integer type of their field. Fields are read in declaration order and
 * the first failure is the result.
 */
module Config {
  import opened Basics
  import opened Text

  const U16_MAX: nat := 0xffff
  const U32_MAX: nat := 0xffff_ffff
  const I64_MIN: int := -0x8000_0000_0000_0000
  const I64_MAX: int := 0x7fff_ffff_ffff_ffff

  type U16 = x: int | 0 <= x <= U16_MAX
  type U32 = x: int | 0 <= x <= U32_MAX
  type I64 = x: int | I64_MIN <= x <= I64_MAX

  type Env = map<string, string>

  datatype Config = Config(
    databaseUrl: string,
    jwtSecret: string,
    serverHost: string,
    serverPort: U16,
    dbMaxConnections: U32,
    jwtExpirationDays: I64)

  const DefaultHost := "127.0.0.1"
  const DefaultPort := "3000"
  const DefaultMaxConnections := "10"
  const DefaultExpirationDays := "1"

  const MissingDatabaseUrl := "DATABASE_URL must be set"
  const MissingJwtSecret := "JWT_SECRET must be set"
  const BadPort := "Invalid SERVER_PORT format"
  const BadMaxConnections := "Invalid DB_MAX_CONNECTIONS format"
  const BadExpirationDays := "Invalid JWT_EXPIRATION_DAYS format"

  /** `env::var(name).unwrap_or_else(|_| default)` */
  function VarOr(env: Env, name: string, default: string): string {
    if name in env then env[name] else default
  }

  /** SERVER_PORT, or its default, parsed as `u16`. */
  function ParsePort(env: Env): Option<nat> {
    ParseUnsigned(VarOr(env, "SERVER_PORT", DefaultPort), U16_MAX)
  }

  /** DB_MAX_CONNECTIONS, or its default, parsed as `u32`. */
  function ParseMaxConnections(env: Env): Option<nat> {
    ParseUnsigned(VarOr(env, "DB_MAX_CONNECTIONS", DefaultMaxConnections), U32_MAX)
  }

  /** JWT_EXPIRATION_DAYS, or its default, parsed as `i64`. */
  function ParseExpirationDays(env: Env): Option<int> {
    ParseSigned(VarOr(env, "JWT_EXPIRATION_DAYS", DefaultExpirationDays), I64_MIN, I64_MAX)
  }

  /** `Config::from_env` */
  function FromEnv(env: Env): (r: Result<Config, string>)
    ensures "DATABASE_URL" !in env ==> r == Err(MissingDatabaseUrl)
    ensures "DATABASE_URL" in env && "JWT_SECRET" !in env ==> r == Err(MissingJwtSecret)
    ensures r.Ok? ==>
      && r.value.databaseUrl == env["DATABASE_URL"]
      && r.value.jwtSecret == env["JWT_SECRET"]
      && r.value.serverHost == VarOr(env, "SERVER_HOST", DefaultHost)
      && ParsePort(env) == Some(r.value.serverPort)
      && ParseMaxConnections(env) == Some(r.value.dbMaxConnections)
      && ParseExpirationDays(env) == Some(r.value.jwtExpirationDays)
    ensures r.Err? ==> r.error in {MissingDatabaseUrl, MissingJwtSecret, BadPort, BadMaxConnections, BadExpirationDays}
    ensures r.Ok? <==>
      && "DATABASE_URL" in env && "JWT_SECRET" in env
      && ParsePort(env).Some? && ParseMaxConnections(env).Some? && ParseExpirationDays(env).Some?
    ensures r == Err(BadPort) <==>
      "DATABASE_URL" in env && "JWT_SECRET" in env && ParsePort(env).None?
    ensures r == Err(BadMaxConnections) <==>
      && "DATABASE_URL" in env && "JWT_SECRET" in env
      && ParsePort(env).Some? && ParseMaxConnections(env).None?
    ensures r == Err(BadExpirationDays) <==>
      && "DATABASE_URL" in env && "JWT_SECRET" in env
      && ParsePort(env).Some? && ParseMaxConnections(env).Some? && ParseExpirationDays(env).None?
  {
    if "DATABASE_URL" !in env then Err(MissingDatabaseUrl)
    else if "JWT_SECRET" !in env then Err(MissingJwtSecret)
    else
      var host := VarOr(env, "SERVER_HOST", DefaultHost);
      match ParseUnsigned(VarOr(env, "SERVER_PORT", DefaultPort), U16_MAX)
      case None => Err(BadPort)
      case Some(port) =>
        match ParseUnsigned(VarOr(env, "DB_MAX_CONNECTIONS", DefaultMaxConnections), U32_MAX)
        case None => Err(BadMaxConnections)
        case Some(maxConnections) =>
          match ParseSigned(VarOr(env, "JWT_EXPIRATION_DAYS", DefaultExpirationDays), I64_MIN, I64_MAX)
          case None => Err(BadExpirationDays)
          case Some(days) =>
            Ok(Config(env["DATABASE_URL"], env["JWT_SECRET"], host, port, maxConnections, days))
  }

  /** With only the two required variables set, every other field takes its default. */
  lemma DefaultsWhenUnset(env: Env)
    requires "DATABASE_URL" in env && "JWT_SECRET" in env
    requires "SERVER_HOST" !in env && "SERVER_PORT" !in env
    requires "DB_MAX_CONNECTIONS" !in env && "JWT_EXPIRATION_DAYS" !in env
    ensures FromEnv(env) == Ok(Config(env["DATABASE_URL"], env["JWT_SECRET"], "127.0.0.1", 3000, 10, 1))
  {
    assert Decimal(3000) == DefaultPort;
    ParseUnsignedDecimal(3000, U16_MAX);
    assert Decimal(10) == DefaultMaxConnections;
    ParseUnsignedDecimal(10, U32_MAX);
    assert Decimal(1) == DefaultExpirationDays;
    ParseSignedDecimal(1, I64_MIN, I64_MAX);
  }

  /** A set but unparseable SERVER_PORT is reported as such once both required variables are present. */
  lemma BadPortReported(env: Env)
    requires "DATABASE_URL" in env && "JWT_SECRET" in env
    requires "SERVER_PORT" in env && ParseUnsigned(env["SERVER_PORT"], U16_MAX).None?
    ensures FromEnv(env) == Err(BadPort)
  {
  }

  /** A port above 65535 is a format error, not a wrap-around. */
  lemma PortOverflowRejected(env: Env)
    requires "DATABASE_URL" in env && "JWT_SECRET" in env
    requires env.Keys == {"DATABASE_URL", "JWT_SECRET", "SERVER_PORT"} && env["SERVER_PORT"] == "65536"
    ensures FromEnv(env) == Err(BadPort)
  {
    assert Decimal(65536) == "65536";
    DecimalValue(65536);
  }

  /** A set but unparseable DB_MAX_CONNECTIONS is reported once the earlier fields are fine. */
  lemma BadMaxConnectionsReported(env: Env)
    requires "DATABASE_URL" in env && "JWT_SECRET" in env
    requires ParseUnsigned(VarOr(env, "SERVER_PORT", DefaultPort), U16_MAX).Some?
    requires "DB_MAX_CONNECTIONS" in env && ParseUnsigned(env["DB_MAX_CONNECTIONS"], U32_MAX).None?
    ensures FromEnv(env) == Err(BadMaxConnections)
  {
  }

  /** A set but unparseable JWT_EXPIRATION_DAYS is reported once the earlier fields are fine. */
  lemma BadExpirationDaysReported(env: Env)
    requires "DATABASE_URL" in env && "JWT_SECRET" in env
    requires ParseUnsigned(VarOr(env, "SERVER_PORT", DefaultPort), U16_MAX).Some?
    requires ParseUnsigned(VarOr(env, "DB_MAX_CONNECTIONS", DefaultMaxConnections), U32_MAX).Some?
    requires "JWT_EXPIRATION_DAYS" in env
    requires ParseSigned(env["JWT_EXPIRATION_DAYS"], I64_MIN, I64_MAX).None?
    ensures FromEnv(env) == Err(BadExpirationDays)
  {
  }

  /** `Config::server_address`: the host, a colon, and the port in decimal. */
  function ServerAddress(c: Config): (r: string)
    ensures |r| > |c.serverHost| && r[..|c.serverHost|] == c.serverHost && r[|c.serverHost|] == ':'
    ensures r[|c.serverHost| + 1..] == Decimal(c.serverPort)
    ensures ParseUnsigned(r[|c.serverHost| + 1..], U16_MAX) == Some(c.serverPort)
  {
    var r := c.serverHost + ":" + Decimal(c.serverPort);
    assert r[|c.serverHost| + 1..] == Decimal(c.serverPort);
    ParseUnsignedDecimal(c.serverPort, U16_MAX);
    r
  }
}
