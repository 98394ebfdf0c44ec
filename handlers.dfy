/** The route-config constructors of handlers.go, as tree shapes. The
    handlers themselves are tokens named after what they serve. */
module Handlers {
  import opened Panics
  import opened Routes
  import opened CleanPath
  import opened Util

  /** A route config without description or children. */
  predicate Leaf(r: RouteConfig, httpMethod: string, path: string, handler: Handler) {
    r.route == Route(handler, httpMethod, path, "") && r.children == []
  }

  /** WithHandler: method, path and handler as given, nothing else. */
  function WithHandler(httpMethod: string, path: string, handler: Handler): (r: RouteConfig)
    ensures Leaf(r, httpMethod, path, handler)
  {
    RouteConfig(Route(handler, httpMethod, path, ""), [])
  }

  function WithHandlerFunc(httpMethod: string, path: string, handler: Handler): (r: RouteConfig)
    ensures Leaf(r, httpMethod, path, handler)
  {
    WithHandler(httpMethod, path, handler)
  }

  function WithGetHandler(path: string, handler: Handler): (r: RouteConfig)
    ensures Leaf(r, "GET", path, handler)
  {
    WithHandler("GET", path, handler)
  }

  function WithGetHandlerFunc(path: string, handler: Handler): (r: RouteConfig)
    ensures Leaf(r, "GET", path, handler)
  {
    WithGetHandler(path, handler)
  }

  /** WithGeneric: a GET route serving `value` as JSON. */
  function WithGeneric(path: string, value: string): (r: RouteConfig)
    ensures Leaf(r, "GET", path, JsonContent(value))
  {
    WithGetHandler(path, JsonContent(value))
  }

  /** A described leaf. */
  predicate Described(r: RouteConfig, httpMethod: string, path: string, handler: Handler, desc: string) {
    r.route == Route(handler, httpMethod, path, desc) && r.children == []
  }

  /** The descriptions the index page shows for the built-in routes. */
  const MetricsDoc := "The current content of the MetricsRegistry"
  const ForceGCDoc := "Forces a run of the garbage collector."
  const BuildInfoDoc := "Information about the current build"
  const HeapDumpDoc := "Creates a snapshot of the processes heap."
  const EnvironmentDoc := "A map containing all environment variables."
  const PingPongDoc := "Always returns the static json '{\"pong\": true}'"
  const GCStatsDoc := "Displays the current gc- and memory-statistics from the golang runtime."

  function WithMetrics(registry: string): (r: RouteConfig)
    ensures Described(r, "GET", "/metrics", JsonContent(registry), MetricsDoc)
  {
    Describe(MetricsDoc, WithGeneric("/metrics", registry))
  }

  function WithForceGC(): (r: RouteConfig)
    ensures Described(r, "POST", "/gc/run", Named("gc/run"), ForceGCDoc)
  {
    Describe(ForceGCDoc, WithHandlerFunc("POST", "/gc/run", Named("gc/run")))
  }

  function WithBuildInfo(): (r: RouteConfig)
    ensures Described(r, "GET", "/info", JsonContent("build info"), BuildInfoDoc)
  {
    Describe(BuildInfoDoc, WithGeneric("/info", "build info"))
  }

  function WithHeapDump(): (r: RouteConfig)
    ensures Described(r, "GET", "pprof/heapdump", Named("pprof/heapdump"), HeapDumpDoc)
  {
    Describe(HeapDumpDoc, WithHandlerFunc("GET", "pprof/heapdump", Named("pprof/heapdump")))
  }

  function WithEnvironmentVariables(): (r: RouteConfig)
    ensures Described(r, "GET", "env", JsonContent("environment"), EnvironmentDoc)
  {
    Describe(EnvironmentDoc, WithGeneric("env", "environment"))
  }

  function WithPingPong(): (r: RouteConfig)
    ensures Described(r, "GET", "/ping", JsonContent("pong"), PingPongDoc)
  {
    Describe(PingPongDoc, WithGeneric("/ping", "pong"))
  }

  function WithGCStats(): (r: RouteConfig)
    ensures Described(r, "GET", "/gc/stats", JsonContent("gc stats"), GCStatsDoc)
  {
    Describe(GCStatsDoc, WithGeneric("/gc/stats", "gc stats"))
  }

  /** A grouping node: no handler, method, path or description. */
  function Group(children: seq<RouteConfig>): (r: RouteConfig)
    ensures r.route.path == "" && r.route.handler == NoHandler && r.children == children
  {
    RouteConfig(Route(NoHandler, "", "", ""), children)
  }

  /** WithDefaults: ping, env and gc-stats under one group. */
  function WithDefaults(): (r: RouteConfig)
    ensures r.route.path == "" && r.children == [WithPingPong(), WithEnvironmentVariables(), WithGCStats()]
  {
    Group([WithPingPong(), WithEnvironmentVariables(), WithGCStats()])
  }

  const CmdlineDoc := "The command line of the running process. Arguments are seperated by null bytes."
  const ProfileDoc := "Profiles the application. Use with 'go pprof http://host/pprof/profile'"
  const TraceDoc := "Performes a trace of cpu, io and more. Accepts an url parameter 'seconds'"
  const SymbolDoc := "Resolves addresses to symbols. Used by ppprof."
  const MemprofileDoc := "Provides a memory profile of the application as done by 'WriteHeapProfile'"
  const ExeDoc := "Downloads the process binary that is currently running"

  /** The five pprof routes every build has. */
  function PProfRoutes(): (r: seq<RouteConfig>)
    ensures |r| == 5
  {
    [ Describe(CmdlineDoc, WithHandler("GET", "pprof/cmdline", Named("pprof/cmdline"))),
      Describe(ProfileDoc, WithHandler("GET", "pprof/profile", Named("pprof/profile"))),
      Describe(TraceDoc, WithHandler("GET", "pprof/trace", Named("pprof/trace"))),
      Describe(SymbolDoc, WithHandler("", "pprof/symbol", Named("pprof/symbol"))),
      Describe(MemprofileDoc, WithHandlerFunc("GET", "pprof/memprofile", Named("pprof/memprofile"))) ]
  }

  /** The route serving the running binary, found at `exe`. */
  function ExeRoute(exe: string): RouteConfig {
    Describe(ExeDoc, WithHandlerFunc("GET", "pprof/exe", Named("file " + exe)))
  }

  /** WithPProfHandlers as a value; `executable` is what osext.Executable
      found, if anything. */
  function PProfConfig(executable: Option<string>): (r: RouteConfig)
    ensures r.route.path == ""
    ensures executable.None? ==> |r.children| == 5
    ensures executable.Some? ==> |r.children| == 6 && r.children[5].route.path == "pprof/exe"
    ensures r.children[..5] == PProfRoutes()
  {
    var base := PProfRoutes();
    match executable
    case None => Group(base)
    case Some(exe) =>
      assert (base + [ExeRoute(exe)])[..5] == base;
      Group(base + [ExeRoute(exe)])
  }

  /** The paths and methods of the pprof routes, in order; only the symbol
      route accepts every method. */
  lemma PProfShape(executable: Option<string>)
    ensures var c := PProfConfig(executable).children;
      && c[0].route.path == "pprof/cmdline" && c[1].route.path == "pprof/profile"
      && c[2].route.path == "pprof/trace" && c[3].route.path == "pprof/symbol"
      && c[4].route.path == "pprof/memprofile"
      && c[3].route.httpMethod == "" && c[3].children == []
      && forall i | 0 <= i < |c| && i != 3 :: c[i].route.httpMethod == "GET" && c[i].children == []
  {
  }

  /** WithPProfHandlers, with its conditional append. */
  method WithPProfHandlers(executable: Option<string>) returns (rc: RouteConfig)
    ensures rc == PProfConfig(executable)
  {
    rc := Group(PProfRoutes());
    if executable.Some? {
      rc := rc.(children := rc.children + [ExeRoute(executable.value)]);
    }
  }

  /** `config` with its own handler wrapped in basic auth, nothing else changed. */
  function Secure(user: string, pass: string, config: RouteConfig): (r: RouteConfig)
    ensures r.route.handler == BasicAuth(user, pass, config.route.handler)
    ensures r.route.httpMethod == config.route.httpMethod && r.route.path == config.route.path
    ensures r.route.description == config.route.description && r.children == config.children
  {
    config.(route := config.route.(handler := BasicAuth(user, pass, config.route.handler)))
  }

  /** RequireAuth as a value. */
  function Secured(user: string, pass: string, configs: seq<RouteConfig>): (r: RouteConfig)
    ensures r.route.path == "" && |r.children| == |configs|
    ensures forall i | 0 <= i < |configs| :: r.children[i] == Secure(user, pass, configs[i])
  {
    Group(seq(|configs|, i requires 0 <= i < |configs| => Secure(user, pass, configs[i])))
  }

  /** RequireAuth, with its loop over the configs. */
  method RequireAuth(user: string, pass: string, configs: seq<RouteConfig>) returns (r: RouteConfig)
    ensures r == Secured(user, pass, configs)
  {
    var secured: seq<RouteConfig> := [];
    for k := 0 to |configs|
      invariant |secured| == k
      invariant forall i | 0 <= i < k :: secured[i] == Secure(user, pass, configs[i])
    {
      var config := configs[k];
      config := config.(route := config.route.(handler := BasicAuth(user, pass, config.route.handler)));
      secured := secured + [config];
    }
    return Group(secured);
  }

  /** RequireAuth secures only the configs it is given: the routes below
      them keep their handlers, and a secured config's own route is the
      plain one with its handler wrapped. */
  lemma SecureWrapsOwnRouteOnly(user: string, pass: string, config: RouteConfig)
    ensures FlattenAll(Secure(user, pass, config).children) == FlattenAll(config.children)
    ensures config.route.path == "" ==> Flatten(Secure(user, pass, config)) == Flatten(config)
    ensures config.route.path != "" ==>
      var plain := Flatten(config);
      Flatten(Secure(user, pass, config)) ==
        plain[..|plain| - 1] + [plain[|plain| - 1].(handler := BasicAuth(user, pass, config.route.handler))]
  {
  }

  /** Childless configs with paths flatten to their own routes, in order. */
  lemma {:induction false} FlattenLeaves(cs: seq<RouteConfig>)
    requires forall i | 0 <= i < |cs| :: cs[i].children == [] && cs[i].route.path != ""
    ensures |FlattenAll(cs)| == |cs|
    ensures forall i | 0 <= i < |cs| :: FlattenAll(cs)[i] == Normalized(cs[i].route)
    decreases |cs|
  {
    if cs != [] {
      var init, last := cs[..|cs| - 1], cs[|cs| - 1];
      FlattenLeaves(init);
      assert FlattenAll(last.children) == [];
      assert Flatten(last) == [Normalized(last.route)];
      assert FlattenAll(cs) == FlattenAll(init) + [Normalized(last.route)];
    }
  }

  /** Handlers and descriptions of a group of leaves, in order. */
  lemma LeafHandlers(cs: seq<RouteConfig>)
    requires forall i | 0 <= i < |cs| :: cs[i].children == [] && cs[i].route.path != ""
    ensures |FlattenAll(cs)| == |cs|
    ensures forall i | 0 <= i < |cs| ::
      FlattenAll(cs)[i].handler == cs[i].route.handler && FlattenAll(cs)[i].description == cs[i].route.description
  {
    FlattenLeaves(cs);
  }
}
