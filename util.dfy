/** util.go: pathOf and evaluateIfFunc. */
module Util {
  import opened Panics
  import opened CleanPath

  /** The string pathOf's loop builds: "/" + first, then "/" + c for every
      further component, in order. */
  function Joined(first: string, components: seq<string>): (r: string)
    ensures r != "" && r[0] == '/'
    decreases |components|
  {
    if components == [] then "/" + first
    else Joined(first, components[..|components| - 1]) + "/" + components[|components| - 1]
  }

  /** The path "." that Clean gives for an empty unrooted path. */
  predicate IsDot(s: string) {
    |s| == 1 && s[0] == '.'
  }

  /** pathOf as a value. */
  function CleanedPath(first: string, components: seq<string>): string {
    var cleaned := Clean(Joined(first, components));
    if IsDot(cleaned) then "/" else cleaned
  }

  /** pathOf. */
  method PathOf(firstComponent: string, components: seq<string>) returns (cleaned: string)
    ensures cleaned == CleanedPath(firstComponent, components)
  {
    var joined := "/" + firstComponent;
    for k := 0 to |components|
      invariant joined == Joined(firstComponent, components[..k])
    {
      assert components[..k + 1][..k] == components[..k];
      joined := joined + "/" + components[k];
    }
    assert components[..|components|] == components;
    cleaned := Clean(joined);
    if IsDot(cleaned) {
      cleaned := "/";
    }
  }

  /** The result of pathOf is a clean rooted path: it starts with '/', has no
      empty, "." or ".." segment, and ends in '/' only when it is "/". The
      "." case pathOf guards against cannot arise, the joined path being
      rooted. */
  lemma PathOfIsClean(first: string, components: seq<string>)
    ensures !IsDot(Clean(Joined(first, components)))
    ensures IsClean(CleanedPath(first, components))
    ensures CleanedPath(first, components)[0] == '/'
    ensures CleanedPath(first, components) != "/" ==>
      CleanedPath(first, components)[|CleanedPath(first, components)| - 1] != '/'
  {
    var p := CleanedPath(first, components);
    CleanRootedIsClean(Joined(first, components));
    if p != "/" {
      CleanNoTrailingSlash(p);
    }
  }

  /** pathOf of its own output gives the same path again. */
  lemma PathOfIdempotent(first: string, components: seq<string>)
    ensures CleanedPath(CleanedPath(first, components), []) == CleanedPath(first, components)
  {
    var p := CleanedPath(first, components);
    PathOfIsClean(first, components);
    CleanFixesClean(p);
  }

  /** A path without its leading slash gets it back: pathOf("metrics") is
      "/metrics". */
  lemma CleanAddsRoot(q: string)
    requires IsClean("/" + q)
    ensures CleanedPath(q, []) == "/" + q
  {
    CleanFixesClean("/" + q);
  }

  /** Cleaning "/" + the join of `segs`. */
  lemma CleanJoined(q: string, segs: seq<string>)
    requires |segs| >= 1 && forall i | 0 <= i < |segs| :: '/' !in segs[i]
    requires q == Join(segs)
    ensures Clean("/" + q) == "/" + Join(Resolve([], [""] + segs, true))
  {
    SplitJoin(segs);
    assert ("/" + q)[1..] == q;
  }

  /** A ".." above the root is dropped. */
  lemma CleanDropsDotDotAtRoot()
    ensures CleanedPath("../x", []) == "/x"
  {
    var segs := ["..", "x"];
    assert "../x" == Join(segs);
    CleanJoined(Join(segs), segs);
    assert Resolve([], [""] + segs, true) == ["x"];
  }

  /** The empty path is the root. */
  lemma CleanEmptyIsRoot()
    ensures CleanedPath("", []) == "/"
  {
    assert Split("/") == [""] + Split("");
  }

  /** A value given to genericContentAsJSON: a plain value, or a function
      taking no arguments, given with the results a call would return. */
  datatype Content<V> = Plain(value: V) | Thunk(results: seq<V>)

  /** evaluateIfFunc: a plain value is returned as it is, a function is called
      and its first result returned; a function with no results panics. */
  function EvaluateIfFunc<V>(input: Content<V>): (r: Result<V>)
    ensures input.Plain? ==> r == Ok(input.value)
    ensures input.Thunk? ==> (r.Ok? <==> |input.results| >= 1)
    ensures input.Thunk? && r.Ok? ==> r.value == input.results[0]
    ensures r.Panic? ==> r.cause == NoFuncResult
  {
    match input
    case Plain(v) => Ok(v)
    case Thunk(results) => if |results| < 1 then Panic(NoFuncResult) else Ok(results[0])
  }
}
