/** The lexical rules of Go's `path.Clean`, which pathOf relies on: a path is
    cut at every '/', empty and "." segments are dropped, ".." removes the
    segment before it, a ".." that would climb above the root of a rooted path
    is dropped, and one at the start of an unrooted path is kept. */
module CleanPath {

  /** The segments between the slashes of `s`: "/a//b" gives "", "a", "", "b". */
  function Split(s: string): (r: seq<string>)
    ensures |r| >= 1
    ensures forall i | 0 <= i < |r| :: '/' !in r[i]
  {
    if |s| == 0 then [""]
    else if s[0] == '/' then [""] + Split(s[1..])
    else
      var rest := Split(s[1..]);
      [[s[0]] + rest[0]] + rest[1..]
  }

  /** The segments glued back together with '/'. */
  function Join(segs: seq<string>): string
    decreases |segs|
  {
    if segs == [] then ""
    else if |segs| == 1 then segs[0]
    else segs[0] + "/" + Join(segs[1..])
  }

  /** Joining what Split cut gives the string back. */
  lemma {:induction false} JoinSplit(s: string)
    ensures Join(Split(s)) == s
    decreases |s|
  {
    if s != [] {
      JoinSplit(s[1..]);
      var rest := Split(s[1..]);
      if s[0] == '/' {
        assert Split(s) == [""] + rest;
        assert Join(Split(s)) == "" + "/" + Join(rest);
      } else {
        assert Split(s) == [[s[0]] + rest[0]] + rest[1..];
        if |rest| == 1 {
          assert Join(Split(s)) == [s[0]] + Join(rest);
        } else {
          assert Join(Split(s)) == [s[0]] + rest[0] + "/" + Join(rest[1..]);
          assert Join(rest) == rest[0] + "/" + Join(rest[1..]);
        }
        assert s == [s[0]] + s[1..];
      }
    }
  }

  lemma {:induction false} SplitNoSlash(a: string)
    requires '/' !in a
    ensures Split(a) == [a]
    decreases |a|
  {
    if a != [] {
      SplitNoSlash(a[1..]);
      assert a == [a[0]] + a[1..];
    }
  }

  lemma {:induction false} SplitAfterSlash(a: string, b: string)
    requires '/' !in a
    ensures Split(a + "/" + b) == [a] + Split(b)
    decreases |a|
  {
    if a == [] {
      assert a + "/" + b == ['/'] + b;
      assert (['/'] + b)[1..] == b;
    } else {
      var s := a + "/" + b;
      assert s[1..] == a[1..] + "/" + b;
      SplitAfterSlash(a[1..], b);
      assert a == [a[0]] + a[1..];
    }
  }

  /** Cutting a join of slash-free segments gives the segments back. */
  lemma {:induction false} SplitJoin(segs: seq<string>)
    requires |segs| >= 1
    requires forall i | 0 <= i < |segs| :: '/' !in segs[i]
    ensures Split(Join(segs)) == segs
    decreases |segs|
  {
    if |segs| == 1 {
      SplitNoSlash(segs[0]);
    } else {
      SplitJoin(segs[1..]);
      SplitAfterSlash(segs[0], Join(segs[1..]));
      assert segs == [segs[0]] + segs[1..];
    }
  }

  /** The segment ".". */
  predicate IsDotSeg(seg: string) {
    |seg| == 1 && seg[0] == '.'
  }

  /** The segment "..". */
  predicate IsDotDotSeg(seg: string) {
    |seg| == 2 && seg[0] == '.' && seg[1] == '.'
  }

  /** A segment a clean path may contain: not empty, not "." or "..", and
      without '/'. */
  predicate Good(seg: string) {
    |seg| != 0 && !IsDotSeg(seg) && !IsDotDotSeg(seg) && '/' !in seg
  }

  /** path.Clean's treatment of one segment, `stack` holding the segments
      kept so far. */
  function Step(stack: seq<string>, seg: string, rooted: bool): seq<string> {
    if |seg| == 0 || IsDotSeg(seg) then stack
    else if IsDotDotSeg(seg) then
      if |stack| > 0 && !IsDotDotSeg(stack[|stack| - 1]) then stack[..|stack| - 1]
      else if rooted then stack
      else stack + [".."]
    else stack + [seg]
  }

  function Resolve(stack: seq<string>, segs: seq<string>, rooted: bool): seq<string>
    decreases |segs|
  {
    if segs == [] then stack
    else Resolve(Step(stack, segs[0], rooted), segs[1..], rooted)
  }

  /** path.Clean: "." for an empty result of an unrooted path, the root for an
      empty result of a rooted one. */
  function Clean(p: string): (r: string)
    ensures p != [] && p[0] == '/' ==> r != [] && r[0] == '/'
  {
    if |p| == 0 then "."
    else
      var rooted := p[0] == '/';
      var segs := Resolve([], Split(p), rooted);
      if rooted then "/" + Join(segs)
      else if |segs| == 0 then "."
      else Join(segs)
  }

  /** What a cleaned rooted path looks like: the root, or '/' followed by good
      segments only. Such a path has no empty, "." or ".." segment, and no
      trailing '/'. */
  predicate IsClean(p: string) {
    p == "/" || (|p| > 1 && p[0] == '/' && forall i | 0 <= i < |Split(p[1..])| :: Good(Split(p[1..])[i]))
  }

  /** On a rooted path, the segments kept are all good. */
  lemma {:induction false} ResolveRootedGood(stack: seq<string>, segs: seq<string>)
    requires forall i | 0 <= i < |stack| :: Good(stack[i])
    requires forall i | 0 <= i < |segs| :: '/' !in segs[i]
    ensures forall i | 0 <= i < |Resolve(stack, segs, true)| :: Good(Resolve(stack, segs, true)[i])
    decreases |segs|
  {
    if segs != [] {
      ResolveRootedGood(Step(stack, segs[0], true), segs[1..]);
    }
  }

  /** Good segments are kept as they are. */
  lemma {:induction false} ResolveGood(stack: seq<string>, segs: seq<string>, rooted: bool)
    requires forall i | 0 <= i < |segs| :: Good(segs[i])
    ensures Resolve(stack, segs, rooted) == stack + segs
    decreases |segs|
  {
    if segs != [] {
      ResolveGood(stack + [segs[0]], segs[1..], rooted);
      assert stack + [segs[0]] + segs[1..] == stack + segs;
    }
  }

  /** A path ending in '/' ends with an empty segment. */
  lemma {:induction false} SplitTrailingSlash(s: string)
    requires s != [] && s[|s| - 1] == '/'
    ensures Split(s)[|Split(s)| - 1] == ""
    decreases |s|
  {
    if |s| > 1 {
      SplitTrailingSlash(s[1..]);
    }
  }

  /** Cleaning a rooted path gives a clean path. */
  lemma CleanRootedIsClean(p: string)
    requires p != "" && p[0] == '/'
    ensures IsClean(Clean(p))
  {
    var segs := Resolve([], Split(p), true);
    ResolveRootedGood([], Split(p));
    if segs != [] {
      SplitJoin(segs);
      assert Join(segs) != "" by {
        if |segs| == 1 {
          assert Good(segs[0]);
        }
      }
      assert (("/" + Join(segs))[1..]) == Join(segs);
    }
  }

  /** A clean path has no trailing '/' unless it is the root. */
  lemma CleanNoTrailingSlash(p: string)
    requires IsClean(p) && p != "/"
    ensures p[|p| - 1] != '/'
  {
    var q := p[1..];
    if q[|q| - 1] == '/' {
      SplitTrailingSlash(q);
      assert false;
    }
  }

  /** A clean path is left as it is, also behind an extra leading '/'. */
  lemma CleanFixesClean(p: string)
    requires IsClean(p)
    ensures Clean(p) == p
    ensures Clean("/" + p) == p
  {
    if p == "/" {
      assert Split("/") == [""] + Split("");
      assert Split("/" + "/") == [""] + Split("/");
    } else {
      var q := p[1..];
      var segs := Split(q);
      assert p == "/" + q;
      assert Split(p) == [""] + segs;
      assert Resolve([], Split(p), true) == Resolve([], segs, true);
      ResolveGood([], segs, true);
      assert [] + segs == segs;
      JoinSplit(q);
      assert Clean(p) == "/" + Join(segs);
      var pp := "/" + p;
      assert pp[1..] == p;
      assert Split(pp) == [""] + Split(p);
      assert Resolve([], Split(pp), true) == Resolve([], Split(p), true);
    }
  }
}
