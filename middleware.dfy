/**
 * `auth_middleware_filter`, the layer in front of every route: it decides
 * from the method and the raw path whether a request needs authentication,
 * and runs the bearer-token gate only for those that do.
 */
module Middleware {
  import opened Basics
  import opened Text
  import opened Errors
  import opened Auth
  import opened Config

  /** The methods that change state. */
  predicate IsMutating(verb: string) {
    verb == "POST" || verb == "PUT" || verb == "DELETE"
  }

  /** The path prefixes a mutating request is checked against (the `protected_paths` array). */
  const ProtectedPrefixes: seq<string> := ["/posts"]

  /** `path` starts with one of the prefixes (`.iter().any(|&p| path.starts_with(p))`). */
  predicate AnyPrefix(path: string, prefixes: seq<string>)
    decreases |prefixes|
  {
    |prefixes| > 0 && (StartsWith(path, prefixes[0]) || AnyPrefix(path, prefixes[1..]))
  }

  /** The `requires_auth` decision: a total function of the method and the raw path. */
  function RequiresAuth(verb: string, path: string): (r: bool)
    ensures r ==> IsMutating(verb)
  {
    if IsMutating(verb) then AnyPrefix(path, ProtectedPrefixes) || Contains(path, "/comments")
    else false
  }

  /** A mutating request to a path whose text starts with "/posts" needs authentication;
      the test is on the raw string, not on whole path segments. */
  lemma PostsPrefixRequiresAuth(verb: string, path: string)
    requires IsMutating(verb) && StartsWith(path, "/posts")
    ensures RequiresAuth(verb, path)
  {
  }

  /** A mutating request whose path contains "/comments" anywhere needs authentication. */
  lemma CommentsAnywhereRequiresAuth(verb: string, path: string, i: nat)
    requires IsMutating(verb) && OccursAt(path, "/comments", i)
    ensures RequiresAuth(verb, path)
  {
    ContainsIffOccurs(path, "/comments");
  }

  /** Exactly the mutating requests to paths starting with "/posts" or containing "/comments" need it. */
  lemma RequiresAuthExactly(verb: string, path: string)
    ensures RequiresAuth(verb, path) <==>
      IsMutating(verb) && (StartsWith(path, "/posts") || exists i :: OccursAt(path, "/comments", i))
  {
    ContainsIffOccurs(path, "/comments");
    assert AnyPrefix(path, ProtectedPrefixes) <==> StartsWith(path, "/posts") by {
      assert ProtectedPrefixes[1..] == [];
    }
  }

  /** "/postsXYZ" is protected too: only the first six characters are looked at. */
  lemma RawPrefixExample()
    ensures RequiresAuth("DELETE", "/postscript")
  {
    assert "/postscript"[..6] == "/posts";
  }

  /** Registration and login are never gated. */
  lemma RegisterAndLoginArePublic(path: string)
    requires path == "/register" || path == "/login"
    ensures !RequiresAuth("POST", path)
  {
    var register, login := "/register", "/login";
    assert ProtectedPrefixes[1..] == [];
    // Both paths differ from "/posts" and "/comments" in their second character.
    assert register[..6][1] == 'r' && login[..6][1] == 'l';
    assert register[..9][1] == 'r';
    assert register[1..] == "register";
    ContainsNeedsRoom("register", "/comments");
    ContainsNeedsRoom(login, "/comments");
  }

  /** `auth_middleware_filter`: requests that need no authentication go to the next layer
      untouched; the others go through `auth_middleware`. */
  method AuthMiddlewareFilter(req: Request, config: Config, now: int, decode: Decoder) returns (d: Dispatch)
    modifies req
    ensures !RequiresAuth(req.verb, req.path) ==> d == Next && req.claims == old(req.claims)
    ensures RequiresAuth(req.verb, req.path) ==>
      var g := Gate(req.authorization, config.jwtSecret, now, decode);
      && (d == Next <==> g.Ok?)
      && (g.Ok? ==> req.claims == Some(g.value))
      && (g.Err? ==> d == Reject(IntoResponse(g.error)) && req.claims == old(req.claims))
  {
    if RequiresAuth(req.verb, req.path) {
      d := AuthMiddleware(req, config, now, decode);
    } else {
      d := Next;
    }
  }
}
