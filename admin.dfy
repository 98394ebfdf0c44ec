/** admin.go: the route table of the admin handler, the first-match dispatch
    of its requests, and the link list of its index page. */
module Admin {
  import opened CleanPath
  import opened Util
  import opened Routes
  import opened Index

  /** The route NewAdminHandler adds last: the index page at "/", for every
      method. */
  function IndexRoute(): Route {
    Route(IndexPage, "", "/", "")
  }

  /** addRouteConfig leaves the index route as it is. */
  lemma IndexRouteIsNormal()
    ensures Normalized(IndexRoute()) == IndexRoute()
    ensures WellFormed(IndexRoute())
  {
    CleanFixesClean("/");
  }

  /** What a request comes to. */
  datatype Outcome =
    | Serve(handler: Handler)          // forwarded to the route's handler
    | MethodNotAllowed(allowed: string) // 405, naming the route's method
    | NotFound                          // 404

  /** A route answers a request when pathOf(prefix, route path) is
      pathOf(request path). */
  predicate Matches(prefix: string, reqPath: string, r: Route) {
    CleanedPath(prefix, [r.path]) == CleanedPath(reqPath, [])
  }

  /** The outcome once a route has matched: an empty method accepts every
      method, any other must be the request's. */
  function Answer(r: Route, reqMethod: string): (o: Outcome)
    ensures o.MethodNotAllowed? <==> r.httpMethod != "" && r.httpMethod != reqMethod
    ensures o.MethodNotAllowed? ==> o.allowed == r.httpMethod
    ensures o.Serve? ==> o.handler == r.handler
    ensures !o.NotFound?
  {
    if r.httpMethod != "" && r.httpMethod != reqMethod then MethodNotAllowed(r.httpMethod)
    else Serve(r.handler)
  }

  /** pathOf(prefix, route path) for every route of the table, in order: the
      paths AsHandler compares and the index page links to. */
  function RoutePaths(routes: seq<Route>, prefix: string): seq<string> {
    seq(|routes|, i requires 0 <= i < |routes| => CleanedPath(prefix, [routes[i].path]))
  }

  /** The first position from i on holding `want`, |keys| when there is none. */
  function FirstFrom(keys: seq<string>, want: string, i: nat): (j: nat)
    requires i <= |keys|
    ensures i <= j <= |keys|
    ensures j < |keys| ==> keys[j] == want
    decreases |keys| - i
  {
    if i == |keys| then |keys|
    else if keys[i] == want then i
    else FirstFrom(keys, want, i + 1)
  }

  /** Nothing between i and the position found holds `want`. */
  lemma {:induction false} FirstFromSkips(keys: seq<string>, want: string, i: nat)
    requires i <= |keys|
    ensures forall k | i <= k < FirstFrom(keys, want, i) :: keys[k] != want
    decreases |keys| - i
  {
    if i < |keys| && keys[i] != want {
      FirstFromSkips(keys, want, i + 1);
    }
  }

  /** AsHandler's answer: the first route whose path matches decides, and a
      request no route matches is a 404. */
  function Dispatch(routes: seq<Route>, prefix: string, reqPath: string, reqMethod: string): Outcome {
    var j := FirstFrom(RoutePaths(routes, prefix), CleanedPath(reqPath, []), 0);
    if j == |routes| then NotFound else Answer(routes[j], reqMethod)
  }

  /** A route matches exactly when its entry of RoutePaths is the request's
      cleaned path. */
  lemma KeysMatch(routes: seq<Route>, prefix: string, reqPath: string)
    ensures forall k | 0 <= k < |routes| ::
      Matches(prefix, reqPath, routes[k]) <==> RoutePaths(routes, prefix)[k] == CleanedPath(reqPath, [])
  {
  }

  /** 404 exactly when no route matches. */
  lemma DispatchNotFound(routes: seq<Route>, prefix: string, reqPath: string, reqMethod: string)
    ensures Dispatch(routes, prefix, reqPath, reqMethod).NotFound? <==>
      forall k | 0 <= k < |routes| :: !Matches(prefix, reqPath, routes[k])
  {
    var keys, want := RoutePaths(routes, prefix), CleanedPath(reqPath, []);
    KeysMatch(routes, prefix, reqPath);
    FirstFromSkips(keys, want, 0);
  }

  /** The first route that matches decides the request, the routes after it
      are never consulted: a mismatching method there is a 405 even when a
      later route would accept the request. */
  lemma DispatchFirstMatch(routes: seq<Route>, prefix: string, reqPath: string, reqMethod: string, j: nat)
    requires j < |routes| && Matches(prefix, reqPath, routes[j])
    requires forall k | 0 <= k < j :: !Matches(prefix, reqPath, routes[k])
    ensures Dispatch(routes, prefix, reqPath, reqMethod) == Answer(routes[j], reqMethod)
  {
    KeysMatch(routes, prefix, reqPath);
    FirstFromSkips(RoutePaths(routes, prefix), CleanedPath(reqPath, []), 0);
  }

  /** The links of the index page for `routes`, `paths` holding the path
      each links to: one per route whose path is not "/", in route order. */
  function LinksFrom(routes: seq<Route>, paths: seq<string>): seq<Link>
    requires |paths| == |routes|
    decreases |routes|
  {
    if routes == [] then []
    else
      var n := |routes| - 1;
      LinksFrom(routes[..n], paths[..n])
        + (if routes[n].path != "/" then [Link(routes[n].path, paths[n], routes[n].description)] else [])
  }

  /** The links of the index page, before sorting. */
  function LinksOf(routes: seq<Route>, prefix: string): seq<Link> {
    LinksFrom(routes, RoutePaths(routes, prefix))
  }

  /** A link is listed exactly when it is made from a route whose path is not
      "/", naming that route, showing its description and leading to its
      path. */
  lemma {:induction false} LinksFromMembers(routes: seq<Route>, paths: seq<string>, l: Link)
    requires |paths| == |routes|
    ensures l in LinksFrom(routes, paths) <==>
      exists i | 0 <= i < |routes| :: routes[i].path != "/" && l == Link(routes[i].path, paths[i], routes[i].description)
    decreases |routes|
  {
    if routes != [] {
      var n := |routes| - 1;
      var init, inits := routes[..n], paths[..n];
      LinksFromMembers(init, inits, l);
      if l in LinksFrom(routes, paths) && l !in LinksFrom(init, inits) {
        assert routes[n].path != "/" && l == Link(routes[n].path, paths[n], routes[n].description);
      }
      if i :| 0 <= i < |routes| && routes[i].path != "/" && l == Link(routes[i].path, paths[i], routes[i].description) {
        if i < n {
          assert init[i] == routes[i] && inits[i] == paths[i];
        }
      }
    }
  }

  /** Following a link of the index page reaches a route: its path is
      already clean, so it matches the route it was made from. */
  lemma LinkIsServed(routes: seq<Route>, prefix: string, l: Link, reqMethod: string)
    requires l in LinksOf(routes, prefix)
    ensures Dispatch(routes, prefix, l.path, reqMethod) != NotFound
  {
    var keys := RoutePaths(routes, prefix);
    LinksFromMembers(routes, keys, l);
    var i :| 0 <= i < |routes| && routes[i].path != "/" && l == Link(routes[i].path, keys[i], routes[i].description);
    PathOfIdempotent(prefix, [routes[i].path]);
    assert Matches(prefix, l.path, routes[i]);
    DispatchNotFound(routes, prefix, l.path, reqMethod);
  }

  /** The index route, last in the table, gets every request for its path
      that no user route claims, whatever the method. */
  lemma IndexIsFallback(user: seq<Route>, prefix: string, reqPath: string, reqMethod: string)
    requires forall i | 0 <= i < |user| :: !Matches(prefix, reqPath, user[i])
    requires Matches(prefix, reqPath, IndexRoute())
    ensures Dispatch(user + [IndexRoute()], prefix, reqPath, reqMethod) == Serve(IndexPage)
  {
    var routes := user + [IndexRoute()];
    assert routes[|user|] == IndexRoute();
    assert forall k | 0 <= k < |user| :: routes[k] == user[k];
    DispatchFirstMatch(routes, prefix, reqPath, reqMethod, |user|);
  }

  /** adminContext. */
  class AdminContext {
    var appName: string
    var prefix: string
    var routes: seq<Route>

    /** Every route in the table has a clean path and an upper-case method. */
    predicate Valid()
      reads this
    {
      forall i | 0 <= i < |routes| :: WellFormed(routes[i])
    }

    /** NewAdminHandler: the user's configs first, depth-first, then the
        index route. */
    constructor (prefix: string, appName: string, configs: seq<RouteConfig>)
      ensures this.prefix == prefix && this.appName == appName
      ensures routes == FlattenAll(configs) + [IndexRoute()]
      ensures Valid()
    {
      this.appName := appName;
      this.prefix := prefix;
      routes := [];
      new;
      AddRouteConfig(RouteConfig(Route(NoHandler, "", "", ""), configs));
      IndexRouteIsNormal();
      AddRouteConfig(RouteConfig(IndexRoute(), []));
      FlattenAllWellFormed(configs);
    }

    /** addRouteConfig: appends the routes of the tree, children before the
        node, and leaves the routes already there as they are. */
    method AddRouteConfig(config: RouteConfig)
      requires Valid()
      modifies this
      ensures routes == old(routes) + Flatten(config)
      ensures appName == old(appName) && prefix == old(prefix)
      ensures Valid()
      decreases config
    {
      ghost var start := routes;
      var children := config.children;
      for k := 0 to |children|
        invariant routes == start + FlattenAll(children[..k])
        invariant appName == old(appName) && prefix == old(prefix)
        invariant Valid()
      {
        var child := children[k];
        assert child in config.children;
        AddRouteConfig(child);
        FlattenAllSnoc(children, k);
        AppendAssoc(start, FlattenAll(children[..k]), Flatten(child));
      }
      assert children[..|children|] == children;
      AddOwnRoute(config);
      AppendAssoc(start, FlattenAll(children), Own(config));
    }

    /** The last step of addRouteConfig: the node's own route, when it has a
        path, with the path run through pathOf and the method upper-cased. */
    method AddOwnRoute(config: RouteConfig)
      requires Valid()
      modifies this
      ensures routes == old(routes) + Own(config)
      ensures appName == old(appName) && prefix == old(prefix)
      ensures Valid()
    {
      if config.route.path != "" {
        PathOfIsClean(config.route.path, []);
        ToUpperSpec(config.route.httpMethod);
        var route := config.route;
        var cleaned := PathOf(route.path, []);
        route := route.(path := cleaned, httpMethod := ToUpper(route.httpMethod));
        routes := routes + [route];
      }
    }

    /** The handler AsHandler returns, applied to one request. */
    method AsHandler(reqPath: string, reqMethod: string) returns (o: Outcome)
      ensures o == Dispatch(routes, prefix, reqPath, reqMethod)
      ensures Valid() && o.MethodNotAllowed? ==> forall i | 0 <= i < |o.allowed| :: !IsAsciiLower(o.allowed[i])
    {
      var path := PathOf(reqPath, []);
      ghost var keys := RoutePaths(routes, prefix);
      var i := 0;
      while i < |routes|
        invariant 0 <= i <= |routes|
        invariant FirstFrom(keys, path, i) == FirstFrom(keys, path, 0)
      {
        var route := routes[i];
        var routePath := PathOf(prefix, [route.path]);
        if routePath == path {
          if route.httpMethod != "" && route.httpMethod != reqMethod {
            return MethodNotAllowed(route.httpMethod);
          }
          return Serve(route.handler);
        }
        i := i + 1;
      }
      return NotFound;
    }

    /** The links the index page renders: those of LinksOf, sorted by path. */
    method IndexLinks() returns (links: seq<Link>)
      ensures Sorted(links)
      ensures multiset(links) == multiset(LinksOf(routes, prefix))
    {
      var collected: seq<Link> := [];
      ghost var keys := RoutePaths(routes, prefix);
      for k := 0 to |routes|
        invariant collected == LinksFrom(routes[..k], keys[..k])
      {
        var route := routes[k];
        if route.path != "/" {
          var path := PathOf(prefix, [route.path]);
          collected := collected + [Link(route.path, path, route.description)];
        }
        assert routes[..k + 1][..k] == routes[..k] && keys[..k + 1][..k] == keys[..k];
      }
      assert routes[..|routes|] == routes && keys[..|routes|] == keys;
      var sorted := new Link[|collected|](i requires 0 <= i < |collected| => collected[i]);
      assert sorted[..] == collected;
      Sort(sorted);
      links := sorted[..];
    }
  }

  /** Every link the index page renders leads to a route of the table. */
  lemma RenderedLinksAreServed(ctx: AdminContext, links: seq<Link>, l: Link, reqMethod: string)
    requires multiset(links) == multiset(LinksOf(ctx.routes, ctx.prefix))
    requires l in links
    ensures Dispatch(ctx.routes, ctx.prefix, l.path, reqMethod) != NotFound
  {
    assert l in multiset(links);
    LinkIsServed(ctx.routes, ctx.prefix, l, reqMethod);
  }
}
