/**
 * The records the server stores and exchanges, and the declarative field
 * constraints of its request payloads (the `#[validate(...)]` attributes),
 * written out as the field errors `validate()` reports.
 *
 * String lengths are counted in characters, as the `validator` crate's
 * `length` constraint counts them.
 */
module Models {
  import opened Basics
  import opened Validation

  const U64_MAX: nat := 0xffff_ffff_ffff_ffff
  const I64_MAX: nat := 0x7fff_ffff_ffff_ffff

  type U64 = x: int | 0 <= x <= U64_MAX

  /** An id taken from the request path, within the non-negative range of `i64`. */
  type Id = x: int | 0 <= x <= I64_MAX

  /** Seconds since the epoch. */
  type Timestamp = int

  // ---------------------------------------------------------------------------
  // Records

  datatype Post = Post(
    id: nat, title: string, authorId: nat, content: string, tags: string,
    copyright: string, createdAt: Timestamp, deletedAt: Option<Timestamp>)

  datatype Comment = Comment(
    id: nat, postId: nat, authorId: nat, content: string,
    createdAt: Timestamp, deletedAt: Option<Timestamp>)

  /** A comment as the API returns it: the author's username instead of the author's id. */
  datatype CommentResponse = CommentResponse(
    id: nat, postId: nat, author: string, content: string, createdAt: Timestamp)

  datatype User = User(id: nat, username: string, passwordHash: string, role: string)

  /** The payload of a session token. */
  datatype Claims = Claims(sub: string, role: string, exp: nat)

  datatype TokenResponse = TokenResponse(token: string)

  datatype PaginatedResponse = PaginatedResponse(
    data: seq<Post>, page: U64, pageSize: U64, total: nat, totalPages: nat)

  // ---------------------------------------------------------------------------
  // Payloads

  datatype Pagination = Pagination(page: U64, pageSize: U64)
  datatype CreatePost = CreatePost(title: string, content: string, tags: string, copyright: string)
  datatype CreateComment = CreateComment(content: string)
  datatype RegisterUser = RegisterUser(username: string, password: string)
  datatype LoginUser = LoginUser(username: string, password: string)

  /** `default_page` */
  function DefaultPage(): U64 { 1 }

  /** `default_page_size` */
  function DefaultPageSize(): U64 { 10 }

  // ---------------------------------------------------------------------------
  // Constraint checks, in the form `validate()` reports them

  /** One failed constraint when `ok` does not hold. */
  function Check(ok: bool, code: string, message: string): seq<FieldError> {
    if ok then [] else [FieldError(code, Some(message))]
  }

  /** A field appears among the errors only when one of its constraints failed. */
  function Field(name: string, errors: seq<FieldError>): ValidationErrors {
    if errors == [] then [] else [FieldErrors(name, errors)]
  }

  predicate LengthIn(s: string, min: nat, max: nat) {
    min <= |s| <= max
  }

  /** A character of the class `[a-zA-Z0-9_]`. */
  predicate UsernameChar(c: char) {
    ('a' <= c <= 'z') || ('A' <= c <= 'Z') || ('0' <= c <= '9') || c == '_'
  }

  /** `^[a-zA-Z0-9_]+$` matches the whole string. */
  predicate MatchesUsernamePattern(s: string) {
    |s| > 0 && forall i :: 0 <= i < |s| ==> UsernameChar(s[i])
  }

  function ValidatePagination(p: Pagination): (r: ValidationErrors)
    ensures r == [] <==> 1 <= p.page <= 1000 && 1 <= p.pageSize <= 100
    ensures forall f :: f in r ==> f.field in {"page", "page_size"} && |f.errors| == 1
    ensures |r| <= 2
  {
    Field("page", Check(1 <= p.page <= 1000, "range", "页码必须在 1-1000 之间"))
    + Field("page_size", Check(1 <= p.pageSize <= 100, "range", "每页数量必须在 1-100 之间"))
  }

  function ValidateCreatePost(p: CreatePost): (r: ValidationErrors)
    ensures r == [] <==>
      LengthIn(p.title, 1, 200) && LengthIn(p.content, 1, 10000) && |p.tags| <= 200 && |p.copyright| <= 200
  {
    Field("title", Check(LengthIn(p.title, 1, 200), "length", "标题长度必须在 1-200 字符之间"))
    + Field("content", Check(LengthIn(p.content, 1, 10000), "length", "内容长度必须在 1-10000 字符之间"))
    + Field("tags", Check(|p.tags| <= 200, "length", "标签长度不能超过 200 字符"))
    + Field("copyright", Check(|p.copyright| <= 200, "length", "版权信息长度不能超过 200 字符"))
  }

  function ValidateCreateComment(c: CreateComment): (r: ValidationErrors)
    ensures r == [] <==> LengthIn(c.content, 1, 1000)
    ensures c.content == "" ==> r != []
  {
    Field("content", Check(LengthIn(c.content, 1, 1000), "length", "评论内容长度必须在 1-1000 字符之间"))
  }

  function ValidateRegisterUser(u: RegisterUser): (r: ValidationErrors)
    ensures r == [] <==>
      LengthIn(u.username, 3, 30) && (forall i :: 0 <= i < |u.username| ==> UsernameChar(u.username[i]))
      && LengthIn(u.password, 6, 100)
  {
    Field("username",
      Check(LengthIn(u.username, 3, 30), "length", "用户名长度必须在 3-30 字符之间")
      + Check(MatchesUsernamePattern(u.username), "regex", "用户名只能包含字母、数字和下划线"))
    + Field("password", Check(LengthIn(u.password, 6, 100), "length", "密码长度必须在 6-100 字符之间"))
  }

  /** Login checks lengths only; there is no character-class constraint. */
  function ValidateLoginUser(u: LoginUser): (r: ValidationErrors)
    ensures r == [] <==> LengthIn(u.username, 3, 30) && LengthIn(u.password, 1, 100)
  {
    Field("username", Check(LengthIn(u.username, 3, 30), "length", "用户名长度必须在 3-30 字符之间"))
    + Field("password", Check(LengthIn(u.password, 1, 100), "length", "密码不能为空且不能超过 100 字符"))
  }

  /** The defaults used when a query omits `page` or `page_size` pass validation. */
  lemma DefaultsAreValid()
    ensures DefaultPage() == 1 && DefaultPageSize() == 10
    ensures ValidatePagination(Pagination(DefaultPage(), DefaultPageSize())) == []
  {
  }

  /** A username that fails both its length and its character class yields two errors for that
      field, the length error first. */
  lemma BadUsernameTwoErrors(u: RegisterUser)
    requires !LengthIn(u.username, 3, 30)
    requires |u.username| == 0 || exists i :: 0 <= i < |u.username| && !UsernameChar(u.username[i])
    requires LengthIn(u.password, 6, 100)
    ensures ValidateRegisterUser(u) == [FieldErrors("username", [
      FieldError("length", Some("用户名长度必须在 3-30 字符之间")),
      FieldError("regex", Some("用户名只能包含字母、数字和下划线"))])]
  {
    assert !MatchesUsernamePattern(u.username);
    var errors := Check(LengthIn(u.username, 3, 30), "length", "用户名长度必须在 3-30 字符之间")
      + Check(MatchesUsernamePattern(u.username), "regex", "用户名只能包含字母、数字和下划线");
    assert errors == [FieldError("length", Some("用户名长度必须在 3-30 字符之间")),
      FieldError("regex", Some("用户名只能包含字母、数字和下划线"))];
    assert ValidateRegisterUser(u) == Field("username", errors) + [];
  }

  /** Credentials accepted at registration are also accepted by login's constraints. */
  lemma RegisteredCredentialsPassLogin(username: string, password: string)
    requires ValidateRegisterUser(RegisterUser(username, password)) == []
    ensures ValidateLoginUser(LoginUser(username, password)) == []
  {
  }
}
