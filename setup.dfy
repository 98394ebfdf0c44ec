/** setup.go: mounting the admin handler on a router. */
module Setup {
  import opened Routes
  import opened Admin

  /** strings.TrimLeft(s, "/"): the slashes at the front cut off. */
  function TrimLeft(s: string): (r: string)
    ensures |r| <= |s| && r == s[|s| - |r|..]
    ensures forall i | 0 <= i < |s| - |r| :: s[i] == '/'
    ensures r == [] || r[0] != '/'
    decreases |s|
  {
    if s != [] && s[0] == '/' then TrimLeft(s[1..]) else s
  }

  /** strings.TrimRight(s, "/"): the slashes at the end cut off. */
  function TrimRight(s: string): (r: string)
    ensures |r| <= |s| && r == s[..|r|]
    ensures forall i | |r| <= i < |s| :: s[i] == '/'
    ensures r == [] || r[|r| - 1] != '/'
    decreases |s|
  {
    if s != [] && s[|s| - 1] == '/' then TrimRight(s[..|s| - 1]) else s
  }

  /** Cutting slashes from the end keeps the first character. */
  lemma {:induction false} TrimRightKeepsFront(s: string)
    ensures TrimRight(s) != [] ==> TrimRight(s)[0] == s[0]
    decreases |s|
  {
    if s != [] && s[|s| - 1] == '/' {
      TrimRightKeepsFront(s[..|s| - 1]);
    }
  }

  /** strings.Trim(s, "/"): the slashes at both ends cut off; what is left
      starts and ends with something else, and only slashes were cut. */
  function TrimSlashes(s: string): (r: string)
    ensures r == [] || (r[0] != '/' && r[|r| - 1] != '/')
    ensures r == TrimRight(TrimLeft(s))
  {
    var left := TrimLeft(s);
    TrimRightKeepsFront(left);
    TrimRight(left)
  }

  /** SetupAdminHandlerHTTPRouter's prefix: "/" + strings.Trim(prefix, "/"). */
  function NormalizePrefix(prefix: string): string {
    "/" + TrimSlashes(prefix)
  }

  /** The prefix starts with '/', has no second '/' at the front, and ends in
      '/' only when it is "/". */
  lemma NormalizedPrefixShape(prefix: string)
    ensures var p := NormalizePrefix(prefix);
      && p[0] == '/'
      && (|p| > 1 ==> p[1] != '/')
      && (p[|p| - 1] == '/' ==> p == "/")
  {
  }

  /** Normalising a normalised prefix changes nothing. */
  lemma NormalizePrefixIdempotent(prefix: string)
    ensures NormalizePrefix(NormalizePrefix(prefix)) == NormalizePrefix(prefix)
  {
    var t := TrimSlashes(prefix);
    var s := "/" + t;
    assert s[1..] == t;
    assert TrimLeft(s) == TrimLeft(t);
    assert TrimLeft(t) == t;
    assert TrimRight(t) == t;
  }

  /** One call of HTTPRouter.Handler. */
  datatype Registration = Registration(httpMethod: string, path: string, handler: AdminContext)

  /** An HTTPRouter, recording the registrations made on it. */
  class Router {
    var registrations: seq<Registration>

    constructor ()
      ensures registrations == []
    {
      registrations := [];
    }

    method Handler(httpMethod: string, path: string, handler: AdminContext)
      modifies this
      ensures registrations == old(registrations) + [Registration(httpMethod, path, handler)]
    {
      registrations := registrations + [Registration(httpMethod, path, handler)];
    }
  }

  /** The methods the admin handler is registered for, in order. */
  const Methods: seq<string> := ["GET", "POST", "HEAD", "PUT", "DELETE", "OPTIONS", "PATCH"]

  /** For each method in turn: the prefix, then the prefix with the catch-all
      suffix. */
  function RegistrationsFor(methods: seq<string>, prefix: string, handler: AdminContext): seq<Registration>
    decreases |methods|
  {
    if methods == [] then []
    else
      var m := methods[|methods| - 1];
      RegistrationsFor(methods[..|methods| - 1], prefix, handler)
        + [Registration(m, prefix, handler), Registration(m, prefix + "/*path", handler)]
  }

  /** Position 2i holds the prefix and 2i + 1 the catch-all, both for the
      i-th method. */
  lemma {:induction false} RegistrationsOrder(methods: seq<string>, prefix: string, handler: AdminContext)
    ensures |RegistrationsFor(methods, prefix, handler)| == 2 * |methods|
    ensures forall i | 0 <= i < |methods| ::
      RegistrationsFor(methods, prefix, handler)[2 * i] == Registration(methods[i], prefix, handler)
      && RegistrationsFor(methods, prefix, handler)[2 * i + 1] == Registration(methods[i], prefix + "/*path", handler)
    decreases |methods|
  {
    if methods != [] {
      RegistrationsOrder(methods[..|methods| - 1], prefix, handler);
    }
  }

  /** Fourteen registrations, all of the one handler, every one at the prefix
      or under it. */
  lemma FourteenRegistrations(prefix: string, handler: AdminContext)
    ensures |RegistrationsFor(Methods, prefix, handler)| == 14
    ensures forall r | r in RegistrationsFor(Methods, prefix, handler) ::
      r.handler == handler && (r.path == prefix || r.path == prefix + "/*path") && r.httpMethod in Methods
  {
    var regs := RegistrationsFor(Methods, prefix, handler);
    RegistrationsOrder(Methods, prefix, handler);
    forall r | r in regs
      ensures r.handler == handler && (r.path == prefix || r.path == prefix + "/*path") && r.httpMethod in Methods
    {
      var j :| 0 <= j < |regs| && regs[j] == r;
      var i := j / 2;
      assert j == 2 * i || j == 2 * i + 1;
      assert Methods[i] in Methods;
    }
  }

  /** SetupAdminHandlerHTTPRouter; the admin handler it creates and mounts is
      returned so that its state can be stated. */
  method SetupAdminHandlerHTTPRouter(router: Router, prefix: string, name: string, routeConfigs: seq<RouteConfig>)
    returns (admin: AdminContext)
    modifies router
    ensures fresh(admin)
    ensures admin.prefix == NormalizePrefix(prefix) && admin.appName == name
    ensures admin.routes == FlattenAll(routeConfigs) + [IndexRoute()]
    ensures router.registrations == old(router.registrations) + RegistrationsFor(Methods, NormalizePrefix(prefix), admin)
  {
    var normalized := "/" + TrimSlashes(prefix);
    admin := new AdminContext(normalized, name, routeConfigs);
    RegisterAll(router, Methods, normalized, admin);
  }

  /** The registration loop of SetupAdminHandlerHTTPRouter. */
  method RegisterAll(router: Router, methods: seq<string>, prefix: string, admin: AdminContext)
    modifies router
    ensures router.registrations == old(router.registrations) + RegistrationsFor(methods, prefix, admin)
  {
    for k := 0 to |methods|
      invariant router.registrations == old(router.registrations) + RegistrationsFor(methods[..k], prefix, admin)
    {
      router.Handler(methods[k], prefix, admin);
      router.Handler(methods[k], prefix + "/*path", admin);
      assert methods[..k + 1][..k] == methods[..k];
    }
    assert methods[..|methods|] == methods;
  }

  /** An http.ServeMux, recording its patterns. */
  class ServeMux {
    var patterns: seq<(string, AdminContext)>

    constructor ()
      ensures patterns == []
    {
      patterns := [];
    }

    method Handle(pattern: string, handler: AdminContext)
      modifies this
      ensures patterns == old(patterns) + [(pattern, handler)]
    {
      patterns := patterns + [(pattern, handler)];
    }
  }

  /** SetupAdminHandlerMux: one registration, at the prefix as given. */
  method SetupAdminHandlerMux(mux: ServeMux, prefix: string, name: string, routeConfigs: seq<RouteConfig>)
    returns (admin: AdminContext)
    modifies mux
    ensures fresh(admin)
    ensures admin.prefix == prefix && admin.appName == name
    ensures admin.routes == FlattenAll(routeConfigs) + [IndexRoute()]
    ensures mux.patterns == old(mux.patterns) + [(prefix, admin)]
  {
    admin := new AdminContext(prefix, name, routeConfigs);
    mux.Handle(prefix, admin);
  }
}
