/** The route types of admin.go, Describe, and the depth-first flattening
    that addRouteConfig performs. */
module Routes {
  import opened CleanPath
  import opened Util

  /** An http.Handler, as an opaque token. */
  datatype Handler =
    | NoHandler                                           // the nil handler of a group node
    | Named(name: string)                                 // a handler given by the caller, or one of the package's own
    | JsonContent(content: string)                        // genericContentAsJSON over the named value
    | IndexPage                                           // the admin index page
    | BasicAuth(user: string, pass: string, inner: Handler) // httpauth.SimpleBasicAuth(user, pass) around `inner`

  datatype Route = Route(handler: Handler, httpMethod: string, path: string, description: string)

  /** A route with the configs below it; one with an empty path only groups. */
  datatype RouteConfig = RouteConfig(route: Route, children: seq<RouteConfig>)

  /** Describe: only the description changes. */
  function Describe(desc: string, rc: RouteConfig): (r: RouteConfig)
    ensures r.route.description == desc
    ensures r.route.handler == rc.route.handler
    ensures r.route.httpMethod == rc.route.httpMethod && r.route.path == rc.route.path
    ensures r.children == rc.children
  {
    rc.(route := rc.route.(description := desc))
  }

  /** The last description set is the one that stays. */
  lemma DescribeTwice(first: string, second: string, rc: RouteConfig)
    ensures Describe(second, Describe(first, rc)) == Describe(second, rc)
  {
  }

  predicate IsAsciiLower(c: char) {
    'a' <= c <= 'z'
  }

  /** strings.ToUpper, for the ASCII letters. */
  function ToUpper(s: string): string {
    if s == [] then []
    else [if IsAsciiLower(s[0]) then (s[0] as int - 32) as char else s[0]] + ToUpper(s[1..])
  }

  /** Upper-casing keeps the length, leaves no lower-case letter, shifts
      every lower-case letter to its capital and leaves all else alone. */
  lemma {:induction false} ToUpperSpec(s: string)
    ensures |ToUpper(s)| == |s|
    ensures forall i | 0 <= i < |s| :: !IsAsciiLower(ToUpper(s)[i])
    ensures forall i | 0 <= i < |s| && !IsAsciiLower(s[i]) :: ToUpper(s)[i] == s[i]
    ensures forall i | 0 <= i < |s| && IsAsciiLower(s[i]) :: ToUpper(s)[i] as int == s[i] as int - 32
    decreases |s|
  {
    if s != [] {
      ToUpperSpec(s[1..]);
      var r := ToUpper(s);
      assert forall i | 1 <= i < |s| :: r[i] == ToUpper(s[1..])[i - 1];
    }
  }

  lemma ToUpperIdempotent(s: string)
    ensures ToUpper(ToUpper(s)) == ToUpper(s)
  {
    ToUpperSpec(s);
    ToUpperSpec(ToUpper(s));
  }

  /** The route addRouteConfig appends for a node with a path: the path run
      through pathOf and the method upper-cased; handler and description
      are copied. */
  function Normalized(r: Route): (n: Route)
    ensures n.handler == r.handler && n.description == r.description
  {
    r.(path := CleanedPath(r.path, []), httpMethod := ToUpper(r.httpMethod))
  }

  /** The routes addRouteConfig appends: the children's, depth-first and in
      order, then the node's own when its path is not empty. */
  function Flatten(config: RouteConfig): seq<Route>
    decreases config, 1
  {
    FlattenAll(config.children) + Own(config)
  }

  /** The node's own route, when it has a path. */
  function Own(config: RouteConfig): seq<Route> {
    if config.route.path != "" then [Normalized(config.route)] else []
  }

  function FlattenAll(configs: seq<RouteConfig>): seq<Route>
    decreases configs, 0
  {
    if configs == [] then []
    else FlattenAll(configs[..|configs| - 1]) + Flatten(configs[|configs| - 1])
  }

  /** Every route appended has a clean rooted path and an upper-case method. */
  predicate WellFormed(r: Route) {
    IsClean(r.path) && forall i | 0 <= i < |r.httpMethod| :: !IsAsciiLower(r.httpMethod[i])
  }

  lemma {:induction false} FlattenWellFormed(config: RouteConfig)
    ensures forall i | 0 <= i < |Flatten(config)| :: WellFormed(Flatten(config)[i])
    decreases config, 1
  {
    FlattenAllWellFormed(config.children);
    if config.route.path != "" {
      PathOfIsClean(config.route.path, []);
      ToUpperSpec(config.route.httpMethod);
    }
  }

  lemma {:induction false} FlattenAllWellFormed(configs: seq<RouteConfig>)
    ensures forall i | 0 <= i < |FlattenAll(configs)| :: WellFormed(FlattenAll(configs)[i])
    decreases configs, 0
  {
    if configs != [] {
      FlattenAllWellFormed(configs[..|configs| - 1]);
      FlattenWellFormed(configs[|configs| - 1]);
    }
  }

  /** The number of nodes in the tree with a non-empty path. */
  function PathCount(config: RouteConfig): nat
    decreases config, 1
  {
    PathCountAll(config.children) + (if config.route.path != "" then 1 else 0)
  }

  function PathCountAll(configs: seq<RouteConfig>): nat
    decreases configs, 0
  {
    if configs == [] then 0
    else PathCountAll(configs[..|configs| - 1]) + PathCount(configs[|configs| - 1])
  }

  /** One route per node with a path, none for the grouping nodes. */
  lemma {:induction false} FlattenCount(config: RouteConfig)
    ensures |Flatten(config)| == PathCount(config)
    decreases config, 1
  {
    FlattenAllCount(config.children);
  }

  lemma {:induction false} FlattenAllCount(configs: seq<RouteConfig>)
    ensures |FlattenAll(configs)| == PathCountAll(configs)
    decreases configs, 0
  {
    if configs != [] {
      FlattenAllCount(configs[..|configs| - 1]);
      FlattenCount(configs[|configs| - 1]);
    }
  }

  /** Flattening a list of configs is flattening each in turn. */
  lemma {:induction false} FlattenAllAppend(xs: seq<RouteConfig>, ys: seq<RouteConfig>)
    ensures FlattenAll(xs + ys) == FlattenAll(xs) + FlattenAll(ys)
    decreases |ys|
  {
    if ys == [] {
      assert xs + ys == xs;
    } else {
      var init, last := ys[..|ys| - 1], ys[|ys| - 1];
      assert (xs + ys)[..|xs + ys| - 1] == xs + init;
      assert (xs + ys)[|xs + ys| - 1] == last;
      FlattenAllAppend(xs, init);
      AppendAssoc(FlattenAll(xs), FlattenAll(init), Flatten(last));
    }
  }

  /** Flattening one more config of a list appends that config's routes. */
  lemma FlattenAllSnoc(configs: seq<RouteConfig>, k: nat)
    requires k < |configs|
    ensures FlattenAll(configs[..k + 1]) == FlattenAll(configs[..k]) + Flatten(configs[k])
  {
    assert configs[..k + 1][..k] == configs[..k];
  }

  lemma AppendAssoc<T>(a: seq<T>, b: seq<T>, c: seq<T>)
    ensures a + b + c == a + (b + c)
  {
  }
}
