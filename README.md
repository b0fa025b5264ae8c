# Inkwell blog API — a verified model of its request logic

Inkwell is a blog server written in Rust on Axum and SQLite. It exposes posts and
comments over HTTP and guards the mutating routes with a bearer-token (JWT) check.
This project models the decision logic underneath the framework and proves what it
promises:

- the global authentication filter, which decides from the method and the raw path
  whether a request needs a token;
- the route table, split into public routes and routes behind the token gate;
- the token gate itself, registration, and login with the claims it issues;
- the comment handlers, with their ownership guard;
- the post handlers: the pagination arithmetic and slice, get-by-id, update and delete;
- the error taxonomy, its status codes and error bodies;
- the declarative payload validators and the validation-message formatter;
- the configuration loaded from the environment.

One Dafny module stands for each source file:

| module | source |
|---|---|
| `Middleware` | `src/middleware.rs` |
| `Routes` | `src/routes.rs` |
| `Auth` | `src/handlers/auth.rs` |
| `Comments` | `src/handlers/comments.rs` |
| `Posts` | `src/handlers/posts.rs` |
| `Errors` | `src/errors.rs` |
| `Utils` | `src/utils.rs` |
| `Validation` | `src/validation.rs` |
| `Models` | `src/models.rs` |
| `Config` | `src/config.rs` |

A few small supporting modules fill in the rest:

- `Basics` holds `Option` and `Result`.
- `Text` covers the string operations the code takes from Rust's standard library: `starts_with`, `contains`, `join`, the decimal display of an integer, and integer parsing.
- `Http` names the status codes.
- `Store` covers the SQL statements: a lookup, a delete and an update over a table.

The database tables are sequences of rows kept in primary-key order. Each table's
invariant says that its keys strictly increase.

- The comments table is a class whose methods change it in place.
- The posts table is a class whose methods change it in place.
- The users table is a class for registration. Login and the comment handlers only read the users table, so they take it as a parameter.

The incoming request is a class with the verified claims as its one mutable field,
because the token gate writes the claims into the request's extensions.

Some of the server's work is done by code outside this model, which enters as parameters:

- bcrypt hashing, a function that returns a digest, or nothing when the engine fails;
- bcrypt verification, a function that returns a boolean, or nothing;
- JWT signing, a function from claims and a secret to a token or an error;
- JWT checking, a partial function from a token, a secret and the current time to the claims;
- the clock, an integer time in seconds.

The code has no ownership check on posts: `update_post` and `delete_post` look only
at the id (`src/handlers/posts.rs:128-167`). The test suite, by contrast, expects
403 for another user's post (`tests/posts.rs:140-197`). The model follows the code,
so `PostTable.UpdatePost` and `PostTable.DeletePost` have no guard.

## Model

| member | source | states |
|---|---|---|
| `Text.ContainsIffOccurs` | src/middleware.rs:24 | `contains` as the code uses it holds exactly when the pattern occurs at some position of the path |
| `Text.ParseUnsigned` | src/config.rs:20-27 | `str::parse` for `u16`/`u32`: succeeds exactly when the text after an optional '+' is a non-empty run of digits whose value is within the type's range, and then returns that value |
| `Text.ParseUnsignedDecimal` | src/config.rs:20-27 | the decimal text of an in-range value parses back to it |
| `Text.ParseUnsignedOverflow` | src/config.rs:20-27 | the decimal text of a value above the range is an error, never a wrapped value |
| `Text.ParseSigned` | src/config.rs:28-31 | `str::parse` for `i64`: succeeds exactly when the text after an optional '+' or '-' is a non-empty run of digits whose signed value is in range, and then returns that value, negated after '-' |
| `Text.ParseSignedDecimal` | src/config.rs:28-31 | the decimal text of an in-range non-negative value parses back to it |
| `Text.ParseSignedNegative` | src/config.rs:28-31 | '-' followed by the decimal text of a magnitude parses to the negative value when it is in range |
| `Errors.StatusCode` | src/errors.rs:48-62 | each status is produced by exactly the listed variants: 400 iff Validation, 401 iff Authentication or Jwt, 403 iff Authorization, 404 iff NotFound or a missing row, 409 iff Conflict, 500 iff any other database error, Internal, PasswordHash or TaskJoin |
| `Errors.DatabaseDetailHidden` | src/errors.rs:64-70 | the text of a database error shown to the client is one of two fixed strings and does not depend on the underlying error |
| `Errors.IntoResponse` | src/errors.rs:73-83 | the response status is the variant's status, the body's `code` equals it, and the body's `error` is the client-facing message |
| `Utils.CheckDeleteResult` | src/utils.rs:6-15 | Ok exactly when at least one row was affected, and then 204; otherwise NotFound "<name> not found", answered 404 |
| `Utils.CreatedResponse` | src/utils.rs:18-23 | status 201 paired with the data unchanged |
| `Utils.HashPassword` | src/utils.rs:26-31 | succeeds exactly when the engine does, with its digest; an engine failure is PasswordHash (500) |
| `Utils.VerifyPassword` | src/utils.rs:34-40 | a mismatch is `Ok(false)`, not an error; only an engine failure is PasswordHash |
| `Validation.FieldEntries` | src/validation.rs:27-33 | one "field: message" entry per failed constraint, in order, with "Invalid value" when the constraint has no message |
| `Validation.EntriesCount` | src/validation.rs:23-35 | the number of entries equals the total number of field errors over all fields |
| `Validation.EntriesOfField` | src/validation.rs:23-35 | the k-th error of field f is the entry at position (errors of earlier fields) + k of the flattened list |
| `Validation.FormatValidationErrors` | src/validation.rs:22-38 | the message starts with "验证失败: " |
| `Validation.SingleErrorMessage` | src/validation.rs:27-37 | with one failed constraint the message is "验证失败: " followed by that one entry |
| `Validation.ValidateJson` | src/validation.rs:12-19 | Ok exactly when nothing failed, and then the payload unchanged; otherwise a Validation error with the formatted message, status 400 |
| `Models.ValidatePagination` | src/models.rs:21-28 | no errors iff page is in [1,1000] and page_size in [1,100]; only the fields "page" and "page_size" appear, each with exactly one error |
| `Models.ValidateCreatePost` | src/models.rs:89-98 | no errors iff title has 1-200 characters, content 1-10000, tags and copyright at most 200 |
| `Models.ValidateCreateComment` | src/models.rs:102-105 | no errors iff content has 1-1000 characters; empty content is rejected |
| `Models.ValidateRegisterUser` | src/models.rs:122-130 | no errors iff the username has 3-30 characters all in `[a-zA-Z0-9_]` and the password has 6-100 characters |
| `Models.ValidateLoginUser` | src/models.rs:134-141 | no errors iff the username has 3-30 characters and the password 1-100; there is no character-class check |
| `Models.DefaultsAreValid` | src/models.rs:21-38 | the defaults are page 1 and page size 10, and they pass validation |
| `Models.BadUsernameTwoErrors` | src/models.rs:124-127 | a username of the wrong length that is empty or has a character outside the class yields both its length error and its pattern error, in that order |
| `Models.RegisteredCredentialsPassLogin` | src/models.rs:122-141 | credentials that pass registration's constraints pass login's |
| `Store.UserByUsername` | src/handlers/auth.rs:106-110 | a user with that name from the table, or none exactly when no row has the name |
| `Store.UserById` | src/handlers/comments.rs:17-22 | the user row an author id joins with, or none exactly when no row has the id |
| `Config.FromEnv` | src/config.rs:14-33 | a missing DATABASE_URL is reported first, then a missing JWT_SECRET; on success every field is its variable parsed in its type, or the default; every error is one of the five messages; the result is Ok exactly when both required variables are set and the three parses succeed, and each "Invalid … format" error comes exactly from its own parse failing after the earlier ones succeeded |
| `Config.DefaultsWhenUnset` | src/config.rs:19-31 | with only the two required variables set the result has host 127.0.0.1, port 3000, 10 connections and 1 day |
| `Config.BadPortReported` | src/config.rs:20-23 | an unparseable SERVER_PORT gives "Invalid SERVER_PORT format" |
| `Config.PortOverflowRejected` | src/config.rs:20-23 | SERVER_PORT=65536 is a format error |
| `Config.BadMaxConnectionsReported` | src/config.rs:24-27 | an unparseable DB_MAX_CONNECTIONS, after a good port, gives its own error |
| `Config.BadExpirationDaysReported` | src/config.rs:28-31 | an unparseable JWT_EXPIRATION_DAYS, after good earlier fields, gives its own error |
| `Config.ServerAddress` | src/config.rs:35-37 | the host, then ':', then the port's plain decimal text, which parses back to the port |
| `Auth.BearerToken` | src/handlers/auth.rs:23-27 | a token exactly when the header is present, all visible ASCII and starts with "Bearer "; the header is the prefix followed by the token |
| `Auth.BearerTokenRoundTrip` | src/handlers/auth.rs:23-27 | the header "Bearer " + t, for printable t, yields exactly t |
| `Auth.Gate` | src/handlers/auth.rs:23-43 | "Missing Authorization header" iff no bearer token; "Invalid or expired token" iff the token does not decode; both are 401; on success the decoded claims of that token |
| `Auth.GateRefusalsShareStatus` | src/handlers/auth.rs:29-43 | the two refusal messages differ and both give 401 |
| `Auth.AuthMiddleware` | src/handlers/auth.rs:18-49 | passes the request on iff the gate accepts, with its claims stored in the request; otherwise answers the error response and leaves the request as it was |
| `Auth.InsertUser` | src/handlers/auth.rs:70-74 | a unique violation exactly when some row already has the username |
| `Auth.RegisterResult` | src/handlers/auth.rs:76-86 | 201 on success; a unique violation becomes Conflict "用户名已存在" (409); any other database error is passed on as Database |
| `Auth.DuplicateRegistrationConflicts` | src/handlers/auth.rs:70-86 | registering a name already in the table is a 409 |
| `Auth.UserTable.Register` | src/handlers/auth.rs:62-87 | validation failure, hash failure and a taken name each leave the table unchanged with their error; otherwise one user row with the next id, the name, the digest and the default role is appended and the answer is 201 |
| `Auth.CheckCredentials` | src/handlers/auth.rs:104-117 | success exactly for a valid payload, a user of that name in the table and a password the verifier accepts, returning that user; an invalid payload gives its validation error, an unknown name or a rejected password "用户名或密码错误", and a verifier failure PasswordHash |
| `Auth.AsUsize` | src/handlers/auth.rs:123 | `as usize` on a 64-bit target: in-range values unchanged, negative values wrap by 2^64 |
| `Auth.IssueClaims` | src/handlers/auth.rs:120-124 | the claims name the user and their role and expire `now + days·86400` seconds (when that fits in `usize`) |
| `Auth.Login` | src/handlers/auth.rs:100-133 | a token only for checked credentials, and it is the signature of the issued claims; a credential failure is returned as it is; for checked credentials, a successful signing gives that token and a failed one gives Jwt (401) |
| `Auth.LoginFailuresIndistinguishable` | src/handlers/auth.rs:106-117 | an unknown name and a wrong password give the same error, answered 401 |
| `Auth.RegisterThenLogin` | src/handlers/auth.rs:62-133 | for the row registration appends, and with bcrypt's and the token codec's halves agreeing, logging in with the same password yields the signed token, and that token passes the gate before it expires with the issued claims |
| `Auth.RegisterThenLoginScenario` | src/handlers/auth.rs:62-133 | registering through the users table answers 201, and a login that follows yields a token the gate accepts with claims naming the user |
| `Middleware.RequiresAuth` | src/middleware.rs:21-27 | only POST, PUT and DELETE can require authentication |
| `Middleware.PostsPrefixRequiresAuth` | src/middleware.rs:17-24 | a mutating request to a path starting with "/posts" requires authentication |
| `Middleware.CommentsAnywhereRequiresAuth` | src/middleware.rs:24 | a mutating request to a path containing "/comments" anywhere requires authentication |
| `Middleware.RequiresAuthExactly` | src/middleware.rs:17-27 | authentication is required iff the method mutates and the path starts with "/posts" or contains "/comments" |
| `Middleware.RawPrefixExample` | src/middleware.rs:24 | the prefix test is on raw text: DELETE /postscript requires authentication |
| `Middleware.RegisterAndLoginArePublic` | src/middleware.rs:17-27 | POST /register and POST /login do not require authentication |
| `Middleware.AuthMiddlewareFilter` | src/middleware.rs:9-34 | a request that needs no authentication goes on with its claims untouched; otherwise the outcome is exactly that of the token gate |
| `Routes.CreateRouter` | src/routes.rs:19-45 | the router holds exactly the public routes and the protected routes |
| `Routes.ProtectedRoutesRequireAuth` | src/routes.rs:20-34 | every protected route is behind the gate and, with any parameter values, is classified as requiring authentication by the filter |
| `Routes.PublicRoutesAreOpen` | src/routes.rs:36-42 | no public route is behind the gate or classified as requiring authentication, with any parameter values |
| `Routes.GateAgreesWithFilter` | src/routes.rs:19-45 | in the merged router a route is behind the gate iff the filter requires authentication for its paths |
| `Routes.RoutesDistinct` | src/routes.rs:20-44 | no (method, path template) pair is registered twice |
| `Routes.HandlersReachableOnce` | src/routes.rs:20-42 | every handler is reached by exactly one route |
| `Comments.FindComment` | src/handlers/comments.rs:103-107 | a row with both that comment id and that post id, or none exactly when no row has both |
| `Comments.CurrentUser` | src/handlers/comments.rs:47-50 | the user named in the claims, or RowNotFound (404, not 401) when there is none |
| `Comments.ListForPost` | src/handlers/comments.rs:13-24 | every listed entry belongs to the post and is a comment of the table joined with its author's name; every comment of the post whose author exists is listed |
| `Comments.ListAppend` | src/handlers/comments.rs:17-22 | a new comment extends its post's listing by exactly its own entry, at the end |
| `Comments.DeletedCommentNotListed` | src/handlers/comments.rs:170-173 | after the delete no listed entry carries the deleted id |
| `Comments.DeleteThenNotFound` | src/handlers/comments.rs:160-164 | after the delete the comment fetch finds nothing, answered 404 |
| `Comments.UpdatedCommentListed` | src/handlers/comments.rs:113-120 | the edited comment is listed with its new text under the same id, post and author |
| `Comments.UpdateTouchesOnlyContent` | src/handlers/comments.rs:113-120 | the update keeps every row's id, post, author and timestamps, changes only the selected row's content, and keeps the table in id order |
| `Comments.CommentTable.Create` | src/handlers/comments.rs:39-70 | invalid content or an unknown caller leaves the table unchanged with its error; otherwise one comment with the next id, the post, the caller's id and the content is appended, answered 201 with the caller's name as author |
| `Comments.CommentTable.Update` | src/handlers/comments.rs:90-131 | validation, then the caller, then the (comment, post) fetch (404), then the owner check (403) each stop with the table unchanged; only the author gets the content rewritten and the updated comment back |
| `Comments.CommentTable.Delete` | src/handlers/comments.rs:150-176 | the caller, then the fetch (404), then the owner check (403) each stop with the table unchanged; for the author every row with that id is deleted and the answer is 204 |
| `Posts.DivCeil` | src/handlers/posts.rs:48 | the smallest number of pages of the given size that holds all posts |
| `Posts.Slice` | src/handlers/posts.rs:51-55 | at most `limit` posts, the k-th being the post at `offset + k`; as many as remain after `offset`, up to `limit` |
| `Posts.GetPosts` | src/handlers/posts.rs:28-66 | over the table in id order, a bad query is a Validation error prefixed "分页参数" (400); otherwise page and page size are echoed, total is the number of posts, the page count is its ceiling quotient, and the data is the slice from `(page−1)·page_size` |
| `Posts.PageNonEmptyIff` | src/handlers/posts.rs:47-55 | a page has posts exactly when its number is at most the reported page count |
| `Posts.PostOnItsPage` | src/handlers/posts.rs:47-55 | the post at position i appears on page i / size + 1 at position i mod size |
| `Posts.PageInIdOrder` | src/handlers/posts.rs:51-55 | a page of an id-ordered table is in id order |
| `Posts.GetPostById` | src/handlers/posts.rs:106-115 | the post with that id, or RowNotFound (404) exactly when no post has it |
| `Posts.DeleteThenGetNotFound` | src/handlers/posts.rs:158-167 | after the delete, fetching the id answers 404 |
| `Posts.UpdateTouchesOnlyThatPost` | src/handlers/posts.rs:134-144 | the update rewrites title, content, tags and copyright of that post only and keeps ids, authors and timestamps |
| `Posts.UpdatedPostFound` | src/handlers/posts.rs:134-145 | after the update the table stays in id order and fetching the id returns the rewritten post |
| `Posts.PostTable.UpdatePost` | src/handlers/posts.rs:128-146 | a validation failure or a missing id leaves the table unchanged with its error; otherwise that post's four fields are rewritten and the rewritten post is returned |
| `Posts.PostTable.DeletePost` | src/handlers/posts.rs:158-167 | every row with the id is deleted; 204 iff the post existed, otherwise "Post not found" (404); afterwards fetching the id answers 404 |

## Left out

- `create_post` is not modelled. It binds `payload.author`, but `CreatePost` has no such field (`src/handlers/posts.rs:87`, `src/models.rs:89-98`). Post authorship therefore has no defined source.
- `update_post` binds the same missing field (`src/handlers/posts.rs:138`). The model updates the four fields the payload has.
- Path ids are restricted to the non-negative range of `i64`. The `u64 as i64` cast of larger ids is not modelled.
- JWT internals are not modelled: signing, the HMAC check, expiry with its default leeway, and token format. They are the `Encoder` and `Decoder` parameters.
- bcrypt internals are not modelled. They are the `Hasher` and `Verifier` parameters.
- `Auth.RegisterThenLogin` takes as premises that the two halves of bcrypt agree (`Auth.HashAgrees`) and that the two halves of the token codec agree up to expiry (`Auth.CodecAgrees`). These are properties of the libraries, which are parameters here.
- `spawn_blocking` and the `TaskJoin` error a panicking hash task would give are not modelled. The model is sequential.
- Concurrency is not modelled. In particular, a row deleted between the fetch and the `UPDATE ... RETURNING` of `update_comment` or `update_post` is outside the model.
- SQLite connection, pool and I/O errors are not modelled. The only database errors produced are a missing row and the unique violation of `users.username`. `Auth.RegisterResult` still maps any other database error.
- Foreign keys are not modelled: a comment may be created for any post id.
- `users.role` takes its value from the schema default. The schema is not part of this model, so that default is a constructor argument of `UserTable`.
- The users table is a sequence in id order rather than a map. A lookup by name returns the first matching row. Names are unique, as the table invariant states.
- The listing of `get_comments_for_post` has no `ORDER BY`. The model returns table order.
- The validator's field-error map has no fixed iteration order. The model lists fields in declaration order.
- `Validation.FormatValidationErrors`: its own contract states only the "验证失败: " prefix. The entries and their count are stated by `Validation.FieldEntries`, `Validation.EntriesCount`, `Validation.EntriesOfField` and `Validation.SingleErrorMessage`.
- `Auth.IssueClaims`: the `chrono` overflow panic for an out-of-range expiry is not modelled. Only the `as usize` wrap of the resulting timestamp is.
- Query-string and JSON parse failures are not modelled. Axum rejects those before a handler runs.
- A non-Unicode environment variable is treated like an unset one.
- The `AppError` convenience constructors are the datatype's own constructors. They build their variant with the message unchanged by construction.
- Protected routes pass through two token checks: the global filter and the route layer. Both apply the same gate with the same outcome, so only the filter is modelled as a method. `Routes.GateAgreesWithFilter` states that the two agree on which routes they cover.
- Request handling outside the core is not modelled: `src/main.rs` (bootstrap, TCP binding, Swagger UI), `src/docs.rs` and the module re-exports. `root` is the constant `Routes.Greeting`.
