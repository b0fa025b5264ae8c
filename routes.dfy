/**
 * `create_router`: the route table, split into routes open to everyone and
 * routes wrapped in the bearer-token gate, merged into one router.
 * A route's path template is a list of segments, each literal text or a
 * named parameter filled in from the request path.
 */
module Routes {
  import opened Text
  import opened Middleware

  datatype Segment = Lit(text: string) | Param(name: string)

  /** The handler a route dispatches to. */
  datatype Handler =
    | Root | Register | Login
    | GetPosts | GetPostById | GetCommentsForPost
    | CreatePost | UpdatePost | DeletePost
    | CreateCommentForPost | UpdateComment | DeleteComment

  /** One method on one path template; `gated` marks a route behind the `auth_middleware` layer. */
  datatype Route = Route(verb: string, template: seq<Segment>, handler: Handler, gated: bool)

  /** The body of `GET /`. */
  const Greeting := "Hello, World!"

  const Posts := [Lit("posts")]
  const PostById := [Lit("posts"), Param("id")]
  const PostComments := [Lit("posts"), Param("id"), Lit("comments")]
  const CommentById := [Lit("posts"), Param("post_id"), Lit("comments"), Param("comment_id")]

  /** The routes behind the `auth_middleware` layer. */
  const ProtectedRoutes: seq<Route> := [
    Route("POST", Posts, CreatePost, true),
    Route("PUT", PostById, UpdatePost, true),
    Route("DELETE", PostById, DeletePost, true),
    Route("POST", PostComments, CreateCommentForPost, true),
    Route("PUT", CommentById, UpdateComment, true),
    Route("DELETE", CommentById, DeleteComment, true)
  ]

  /** The routes reachable without a token. */
  const PublicRoutes: seq<Route> := [
    Route("GET", [], Root, false),
    Route("POST", [Lit("register")], Register, false),
    Route("POST", [Lit("login")], Login, false),
    Route("GET", Posts, GetPosts, false),
    Route("GET", PostById, GetPostById, false),
    Route("GET", PostComments, GetCommentsForPost, false)
  ]

  /** `public_routes.merge(protected_routes)` */
  function CreateRouter(): (r: seq<Route>)
    ensures |r| == |PublicRoutes| + |ProtectedRoutes|
    ensures forall route :: route in r <==> route in PublicRoutes || route in ProtectedRoutes
  {
    PublicRoutes + ProtectedRoutes
  }

  /** The text a segment stands for, given the value of each parameter. */
  function SegmentText(s: Segment, args: string -> string): string {
    match s
    case Lit(text) => text
    case Param(name) => args(name)
  }

  /** "/" before every segment. */
  function Render(template: seq<Segment>, args: string -> string): string
    decreases |template|
  {
    if |template| == 0 then "" else "/" + SegmentText(template[0], args) + Render(template[1..], args)
  }

  /** The request path a template matches for the given parameter values; the root template is "/". */
  function PathOf(template: seq<Segment>, args: string -> string): (p: string)
    ensures |p| > 0 && p[0] == '/'
  {
    if template == [] then "/" else Render(template, args)
  }

  /** A template whose first segment is the literal "posts" renders to a path starting with "/posts". */
  lemma PostsTemplateStartsWithPosts(template: seq<Segment>, args: string -> string)
    requires |template| > 0 && template[0] == Lit("posts")
    ensures StartsWith(PathOf(template, args), "/posts")
  {
    var p := PathOf(template, args);
    assert p == "/posts" + Render(template[1..], args);
    assert p[..6] == "/posts";
  }

  /** Every gated route is one the global filter also sends through the gate,
      whatever the parameters are. */
  lemma ProtectedRoutesRequireAuth(args: string -> string)
    ensures forall r :: r in ProtectedRoutes ==> r.gated && RequiresAuth(r.verb, PathOf(r.template, args))
  {
    forall r | r in ProtectedRoutes ensures r.gated && RequiresAuth(r.verb, PathOf(r.template, args)) {
      PostsTemplateStartsWithPosts(r.template, args);
      PostsPrefixRequiresAuth(r.verb, PathOf(r.template, args));
    }
  }

  /** Only GET is never gated by the filter, whatever the path. */
  lemma GetIsOpen(path: string)
    ensures !RequiresAuth("GET", path)
  {
  }

  /** The public route at index `i` is not gated, and the filter lets it through. */
  lemma PublicRouteOpen(i: nat, args: string -> string)
    requires i < |PublicRoutes|
    ensures !PublicRoutes[i].gated && !RequiresAuth(PublicRoutes[i].verb, PathOf(PublicRoutes[i].template, args))
  {
    var r := PublicRoutes[i];
    if i == 1 {
      assert PathOf(r.template, args) == "/register";
      RegisterAndLoginArePublic(PathOf(r.template, args));
    } else if i == 2 {
      assert PathOf(r.template, args) == "/login";
      RegisterAndLoginArePublic(PathOf(r.template, args));
    } else {
      assert r.verb == "GET";
      GetIsOpen(PathOf(r.template, args));
    }
  }

  /** No public route is sent through the gate by the global filter. */
  lemma PublicRoutesAreOpen(args: string -> string)
    ensures forall r :: r in PublicRoutes ==> !r.gated && !RequiresAuth(r.verb, PathOf(r.template, args))
  {
    forall r | r in PublicRoutes ensures !r.gated && !RequiresAuth(r.verb, PathOf(r.template, args)) {
      var i :| 0 <= i < |PublicRoutes| && PublicRoutes[i] == r;
      PublicRouteOpen(i, args);
    }
  }

  /** In the merged router, a route is gated exactly when the global filter demands authentication
      for its paths: the two layers agree. */
  lemma GateAgreesWithFilter(args: string -> string)
    ensures forall r :: r in CreateRouter() ==> (r.gated <==> RequiresAuth(r.verb, PathOf(r.template, args)))
  {
    ProtectedRoutesRequireAuth(args);
    PublicRoutesAreOpen(args);
  }

  /** No method is registered twice on the same template, so the merge is well defined. */
  lemma RoutesDistinct()
    ensures forall i, j :: 0 <= i < j < |CreateRouter()| ==>
      (CreateRouter()[i].verb, CreateRouter()[i].template) != (CreateRouter()[j].verb, CreateRouter()[j].template)
  {
  }

  /** Each handler is reachable from exactly one route. */
  lemma HandlersReachableOnce(h: Handler)
    ensures exists i :: 0 <= i < |CreateRouter()| && CreateRouter()[i].handler == h
    ensures forall i, j :: 0 <= i < j < |CreateRouter()| ==> CreateRouter()[i].handler != CreateRouter()[j].handler
  {
    var rs := CreateRouter();
    match h
    case Root => assert rs[0].handler == h;
    case Register => assert rs[1].handler == h;
    case Login => assert rs[2].handler == h;
    case GetPosts => assert rs[3].handler == h;
    case GetPostById => assert rs[4].handler == h;
    case GetCommentsForPost => assert rs[5].handler == h;
    case CreatePost => assert rs[6].handler == h;
    case UpdatePost => assert rs[7].handler == h;
    case DeletePost => assert rs[8].handler == h;
    case CreateCommentForPost => assert rs[9].handler == h;
    case UpdateComment => assert rs[10].handler == h;
    case DeleteComment => assert rs[11].handler == h;
  }
}
