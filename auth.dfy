/**
 * Authentication: the bearer-token gate (`auth_middleware`), registration
 * (`register`, which inserts into the users table) and login (`login`, which
 * checks credentials and issues claims).
 *
 * JWT signing and checking and bcrypt are parameters: a `Decoder` returns the
 * claims of a token that is well formed, correctly signed with the secret and
 * not expired at the given time; an `Encoder` signs claims or reports why it
 * could not.
 */
module Auth {
  import opened Basics
  import opened Text
  import opened Errors
  import opened Utils
  import opened Validation
  import opened Models
  import opened Store
  import opened Config
  import Http

  type Decoder = (string, string, int) -> Option<Claims>
  type Encoder = (Claims, string) -> Result<string, string>

  const BearerPrefix := "Bearer "
  const MissingHeader := "Missing Authorization header"
  const InvalidToken := "Invalid or expired token"
  const BadCredentials := "用户名或密码错误"
  const UsernameTaken := "用户名已存在"
  const SecondsPerDay := 86400
  const USIZE_MODULUS := 0x1_0000_0000_0000_0000

  // ---------------------------------------------------------------------------
  // The request as the middleware sees it

  /**
   * An incoming request: its method (`verb`), its path, the raw value of its
   * `Authorization` header (if any), and the extension slot into which the
   * gate puts verified claims for the handlers.
   */
  class Request {
    const verb: string
    const path: string
    const authorization: Option<string>
    var claims: Option<Claims>

    constructor (verb: string, path: string, authorization: Option<string>)
      ensures this.verb == verb && this.path == path && this.authorization == authorization
      ensures claims == None
    {
      this.verb := verb;
      this.path := path;
      this.authorization := authorization;
      claims := None;
    }
  }

  /** What a middleware does with a request: pass it on to the next layer, or answer it itself. */
  datatype Dispatch = Next | Reject(response: Response)

  // ---------------------------------------------------------------------------
  // The bearer-token gate

  /** `HeaderValue::to_str` succeeds: every character is visible ASCII or a tab. */
  predicate VisibleAscii(s: string) {
    forall i :: 0 <= i < |s| ==> s[i] == '\t' || (' ' <= s[i] <= '~')
  }

  /** The token of an `Authorization: Bearer <token>` header: the value with the exact prefix removed. */
  function BearerToken(header: Option<string>): (r: Option<string>)
    ensures r.Some? <==> header.Some? && VisibleAscii(header.value) && StartsWith(header.value, BearerPrefix)
    ensures r.Some? ==> header.value == BearerPrefix + r.value
  {
    match header
    case None => None
    case Some(v) =>
      if VisibleAscii(v) && StartsWith(v, BearerPrefix) then Some(v[|BearerPrefix|..]) else None
  }

  /** Presenting a printable token after the prefix hands exactly that token to the decoder. */
  lemma BearerTokenRoundTrip(token: string)
    requires VisibleAscii(token)
    ensures BearerToken(Some(BearerPrefix + token)) == Some(token)
  {
    var v := BearerPrefix + token;
    assert v[..|BearerPrefix|] == BearerPrefix;
    assert v[|BearerPrefix|..] == token;
    forall i | 0 <= i < |v| ensures v[i] == '\t' || (' ' <= v[i] <= '~') {
      if i >= |BearerPrefix| {
        assert v[i] == token[i - |BearerPrefix|];
      }
    }
  }

  /** The decision `auth_middleware` takes: the verified claims, or why the request is refused. */
  function Gate(header: Option<string>, secret: string, now: int, decode: Decoder): (r: Result<Claims, AppError>)
    ensures r.Err? ==> StatusCode(r.error) == Http.UNAUTHORIZED
    ensures r == Err(Authentication(MissingHeader)) <==> BearerToken(header).None?
    ensures r == Err(Authentication(InvalidToken)) <==>
      BearerToken(header).Some? && decode(BearerToken(header).value, secret, now).None?
    ensures r.Ok? ==>
      && BearerToken(header).Some?
      && header.value == BearerPrefix + BearerToken(header).value
      && decode(BearerToken(header).value, secret, now) == Some(r.value)
  {
    match BearerToken(header)
    case None => Err(Authentication(MissingHeader))
    case Some(token) =>
      match decode(token, secret, now)
      case None => Err(Authentication(InvalidToken))
      case Some(claims) => Ok(claims)
  }

  /** The two refusals carry different messages but the same status. */
  lemma GateRefusalsShareStatus()
    ensures MissingHeader != InvalidToken
    ensures StatusCode(Authentication(MissingHeader)) == StatusCode(Authentication(InvalidToken)) == Http.UNAUTHORIZED
  {
  }

  /** `auth_middleware`: refuse with 401, or record the claims in the request and pass it on. */
  method AuthMiddleware(req: Request, config: Config, now: int, decode: Decoder) returns (d: Dispatch)
    modifies req
    ensures var g := Gate(req.authorization, config.jwtSecret, now, decode);
      && (d == Next <==> g.Ok?)
      && (g.Ok? ==> req.claims == Some(g.value))
      && (g.Err? ==> d == Reject(IntoResponse(g.error)) && req.claims == old(req.claims))
  {
    var g := Gate(req.authorization, config.jwtSecret, now, decode);
    match g
    case Err(e) =>
      d := Reject(IntoResponse(e));
    case Ok(claims) =>
      req.claims := Some(claims);
      d := Next;
  }

  // ---------------------------------------------------------------------------
  // Registration

  /** No two users share a username (the column is UNIQUE). */
  ghost predicate UniqueUsernames(users: seq<User>) {
    forall i, j :: 0 <= i < j < |users| ==> users[i].username != users[j].username
  }

  function UserId(u: User): int {
    u.id
  }

  /** The outcome of `INSERT INTO users`: a unique violation exactly when the username is taken. */
  function InsertUser(users: seq<User>, username: string): (r: Result<(), DbError>)
    ensures r.Err? <==> exists u :: u in users && u.username == username
    ensures r.Err? ==> r.error.UniqueViolation?
  {
    if UserByUsername(users, username).Some? then Err(UniqueViolation("UNIQUE constraint failed: users.username"))
    else Ok(())
  }

  /** How `register` answers the insert's outcome: 201, 409 for a taken username,
      any other database error passed on as it is. */
  function RegisterResult(insert: Result<(), DbError>): (r: Result<nat, AppError>)
    ensures insert.Ok? ==> r == Ok(Http.CREATED)
    ensures insert.Err? && insert.error.UniqueViolation? ==>
      r == Err(Conflict(UsernameTaken)) && StatusCode(r.error) == Http.CONFLICT
    ensures insert.Err? && !insert.error.UniqueViolation? ==> r == Err(Database(insert.error))
  {
    match insert
    case Ok(_) => Ok(Http.CREATED)
    case Err(UniqueViolation(_)) => Err(Conflict(UsernameTaken))
    case Err(e) => Err(Database(e))
  }

  /** Once a name is in the table, registering it again is a 409, whatever the password. */
  lemma DuplicateRegistrationConflicts(users: seq<User>, user: User)
    ensures RegisterResult(InsertUser(users + [user], user.username)) == Err(Conflict(UsernameTaken))
    ensures IntoResponse(Conflict(UsernameTaken)).status == Http.CONFLICT
  {
    assert user in users + [user];
  }

  /** The users table. Ids come from a counter; the table's default role is a constructor argument. */
  class UserTable {
    var rows: seq<User>
    var nextId: nat
    const defaultRole: string

    ghost predicate Valid()
      reads this
    {
      && KeysIncreasing(rows, UserId)
      && (forall u :: u in rows ==> u.id < nextId)
      && UniqueUsernames(rows)
    }

    constructor (defaultRole: string)
      ensures Valid() && rows == [] && nextId == 1 && this.defaultRole == defaultRole
    {
      rows := [];
      nextId := 1;
      this.defaultRole := defaultRole;
    }

    /** `register`: validate, hash, insert. Nothing is written unless all three succeed. */
    method Register(payload: RegisterUser, hash: Hasher) returns (r: Result<nat, AppError>)
      requires Valid()
      modifies this
      ensures Valid()
      ensures ValidateRegisterUser(payload) != [] ==>
        && r == Err(Validation(FormatValidationErrors(ValidateRegisterUser(payload))))
        && rows == old(rows) && nextId == old(nextId)
      ensures ValidateRegisterUser(payload) == [] && hash(payload.password).None? ==>
        r == Err(PasswordHash) && rows == old(rows) && nextId == old(nextId)
      ensures ValidateRegisterUser(payload) == [] && hash(payload.password).Some? &&
              UserByUsername(old(rows), payload.username).Some? ==>
        r == Err(Conflict(UsernameTaken)) && rows == old(rows) && nextId == old(nextId)
      ensures ValidateRegisterUser(payload) == [] && hash(payload.password).Some? &&
              UserByUsername(old(rows), payload.username).None? ==>
        && r == Ok(Http.CREATED)
        && rows == old(rows) + [User(old(nextId), payload.username, hash(payload.password).value, defaultRole)]
        && nextId == old(nextId) + 1
    {
      var checked := ValidateJson(payload, ValidateRegisterUser(payload));
      if checked.Err? {
        return Err(checked.error);
      }
      var digest := HashPassword(hash, payload.password);
      if digest.Err? {
        return Err(digest.error);
      }
      var inserted := InsertUser(rows, payload.username);
      r := RegisterResult(inserted);
      if inserted.Ok? {
        var user := User(nextId, payload.username, digest.value, defaultRole);
        rows := rows + [user];
        nextId := nextId + 1;
      }
    }
  }

  // ---------------------------------------------------------------------------
  // Login

  /** Steps 1 and 2 of `login`: validate, find the user by name, check the password. */
  function CheckCredentials(users: seq<User>, payload: LoginUser, verify: Verifier): (r: Result<User, AppError>)
    ensures r.Ok? ==>
      && ValidateLoginUser(payload) == []
      && r.value in users && r.value.username == payload.username
      && verify(payload.password, r.value.passwordHash) == Some(true)
    ensures ValidateLoginUser(payload) != [] ==>
      r == Err(Validation(FormatValidationErrors(ValidateLoginUser(payload))))
    ensures ValidateLoginUser(payload) == [] && r.Err? ==>
      r.error in {Authentication(BadCredentials), PasswordHash}
    ensures ValidateLoginUser(payload) == [] && UserByUsername(users, payload.username).None? ==>
      r == Err(Authentication(BadCredentials))
    ensures ValidateLoginUser(payload) == [] && UserByUsername(users, payload.username).Some? ==>
      var user := UserByUsername(users, payload.username).value;
      && (verify(payload.password, user.passwordHash) == Some(true) ==> r == Ok(user))
      && (verify(payload.password, user.passwordHash) == Some(false) ==> r == Err(Authentication(BadCredentials)))
      && (verify(payload.password, user.passwordHash).None? ==> r == Err(PasswordHash))
  {
    match ValidateJson(payload, ValidateLoginUser(payload))
    case Err(e) => Err(e)
    case Ok(_) =>
      match UserByUsername(users, payload.username)
      case None => Err(Authentication(BadCredentials))
      case Some(user) =>
        match VerifyPassword(verify, payload.password, user.passwordHash)
        case Err(e) => Err(e)
        case Ok(false) => Err(Authentication(BadCredentials))
        case Ok(true) => Ok(user)
  }

  /** `timestamp() as usize` on a 64-bit target: two's-complement reinterpretation. */
  function AsUsize(t: int): (r: nat)
    ensures r < USIZE_MODULUS
    ensures 0 <= t < USIZE_MODULUS ==> r == t
    ensures -USIZE_MODULUS <= t < 0 ==> r == t + USIZE_MODULUS
  {
    t % USIZE_MODULUS
  }

  /** Step 3 of `login`: the claims carry the user's current name and role and expire
      the configured number of days from now. */
  function IssueClaims(user: User, now: int, days: int): (c: Claims)
    ensures c.sub == user.username && c.role == user.role
    ensures 0 <= now + days * SecondsPerDay < USIZE_MODULUS ==> c.exp == now + days * SecondsPerDay
  {
    Claims(user.username, user.role, AsUsize(now + days * SecondsPerDay))
  }

  /** `login` */
  function Login(users: seq<User>, payload: LoginUser, verify: Verifier, now: int, config: Config, encode: Encoder)
    : (r: Result<TokenResponse, AppError>)
    ensures r.Ok? ==>
      && CheckCredentials(users, payload, verify).Ok?
      && encode(IssueClaims(CheckCredentials(users, payload, verify).value, now, config.jwtExpirationDays),
                config.jwtSecret) == Ok(r.value.token)
    ensures CheckCredentials(users, payload, verify).Err? ==> r == Err(CheckCredentials(users, payload, verify).error)
    ensures CheckCredentials(users, payload, verify).Ok? ==>
      var signed := encode(IssueClaims(CheckCredentials(users, payload, verify).value, now, config.jwtExpirationDays),
                           config.jwtSecret);
      && (signed.Ok? ==> r == Ok(TokenResponse(signed.value)))
      && (signed.Err? ==> r == Err(Jwt(signed.error)) && StatusCode(r.error) == Http.UNAUTHORIZED)
  {
    match CheckCredentials(users, payload, verify)
    case Err(e) => Err(e)
    case Ok(user) =>
      var claims := IssueClaims(user, now, config.jwtExpirationDays);
      match encode(claims, config.jwtSecret)
      case Err(detail) => Err(Jwt(detail))
      case Ok(token) => Ok(TokenResponse(token))
  }

  /** An unknown username and a wrong password are answered identically. */
  lemma LoginFailuresIndistinguishable(
    users: seq<User>, unknown: LoginUser, wrong: LoginUser, verify: Verifier,
    now: int, config: Config, encode: Encoder)
    requires ValidateLoginUser(unknown) == [] && ValidateLoginUser(wrong) == []
    requires UserByUsername(users, unknown.username).None?
    requires UserByUsername(users, wrong.username).Some?
    requires verify(wrong.password, UserByUsername(users, wrong.username).value.passwordHash) == Some(false)
    ensures Login(users, unknown, verify, now, config, encode) == Err(Authentication(BadCredentials))
    ensures Login(users, wrong, verify, now, config, encode) == Err(Authentication(BadCredentials))
    ensures IntoResponse(Authentication(BadCredentials)).status == Http.UNAUTHORIZED
  {
  }

  /** bcrypt's two halves agree: a digest the hasher produced verifies its own password. */
  ghost predicate HashAgrees(hash: Hasher, verify: Verifier) {
    forall password :: hash(password).Some? ==> verify(password, hash(password).value) == Some(true)
  }

  /** The token codec's two halves agree: a token signed with a secret decodes, with that secret,
      to the claims it was made from at any time up to their expiry. */
  ghost predicate CodecAgrees(encode: Encoder, decode: Decoder) {
    forall claims, secret, t ::
      encode(claims, secret).Ok? && t <= claims.exp ==>
        decode(encode(claims, secret).value, secret, t) == Some(claims)
  }

  /** A user `UserTable.Register` has just appended can log in with the same password, and the
      token login issues passes the gate, before it expires, with claims naming that user. */
  lemma {:induction false} RegisterThenLogin(
    rows: seq<User>, nextId: nat, defaultRole: string, payload: RegisterUser,
    hash: Hasher, verify: Verifier, now: int, later: int, config: Config, encode: Encoder, decode: Decoder)
    requires HashAgrees(hash, verify) && CodecAgrees(encode, decode)
    requires ValidateRegisterUser(payload) == [] && hash(payload.password).Some?
    requires UserByUsername(rows, payload.username).None?
    requires
      var user := User(nextId, payload.username, hash(payload.password).value, defaultRole);
      && encode(IssueClaims(user, now, config.jwtExpirationDays), config.jwtSecret).Ok?
      && VisibleAscii(encode(IssueClaims(user, now, config.jwtExpirationDays), config.jwtSecret).value)
      && later <= IssueClaims(user, now, config.jwtExpirationDays).exp
    ensures
      var user := User(nextId, payload.username, hash(payload.password).value, defaultRole);
      var token := encode(IssueClaims(user, now, config.jwtExpirationDays), config.jwtSecret).value;
      && Login(rows + [user], LoginUser(payload.username, payload.password), verify, now, config, encode)
           == Ok(TokenResponse(token))
      && Gate(Some(BearerPrefix + token), config.jwtSecret, later, decode)
           == Ok(IssueClaims(user, now, config.jwtExpirationDays))
      && Gate(Some(BearerPrefix + token), config.jwtSecret, later, decode).value.sub == payload.username
  {
    var user := User(nextId, payload.username, hash(payload.password).value, defaultRole);
    var claims := IssueClaims(user, now, config.jwtExpirationDays);
    var token := encode(claims, config.jwtSecret).value;
    FindAppend(rows, user, HasUsername(payload.username));
    assert UserByUsername(rows + [user], payload.username) == Some(user);
    assert ValidateLoginUser(LoginUser(payload.username, payload.password)) == [];
    assert verify(payload.password, user.passwordHash) == Some(true);
    assert decode(token, config.jwtSecret, later) == Some(claims);
    BearerTokenRoundTrip(token);
  }

  /** Registering through the users table and then logging in: the lemma above applies to the
      row `Register` appends. */
  method RegisterThenLoginScenario(
    table: UserTable, payload: RegisterUser, hash: Hasher, verify: Verifier,
    now: int, later: int, config: Config, encode: Encoder, decode: Decoder)
    returns (registered: Result<nat, AppError>, login: Result<TokenResponse, AppError>)
    requires table.Valid() && HashAgrees(hash, verify) && CodecAgrees(encode, decode)
    requires ValidateRegisterUser(payload) == [] && hash(payload.password).Some?
    requires UserByUsername(table.rows, payload.username).None?
    requires
      var user := User(table.nextId, payload.username, hash(payload.password).value, table.defaultRole);
      && encode(IssueClaims(user, now, config.jwtExpirationDays), config.jwtSecret).Ok?
      && VisibleAscii(encode(IssueClaims(user, now, config.jwtExpirationDays), config.jwtSecret).value)
      && later <= IssueClaims(user, now, config.jwtExpirationDays).exp
    modifies table
    ensures table.Valid() && registered == Ok(Http.CREATED) && login.Ok?
    ensures Gate(Some(BearerPrefix + login.value.token), config.jwtSecret, later, decode).Ok?
    ensures Gate(Some(BearerPrefix + login.value.token), config.jwtSecret, later, decode).value.sub == payload.username
  {
    RegisterThenLogin(table.rows, table.nextId, table.defaultRole, payload, hash, verify, now, later, config, encode, decode);
    registered := table.Register(payload, hash);
    login := Login(table.rows, LoginUser(payload.username, payload.password), verify, now, config, encode);
  }
}
