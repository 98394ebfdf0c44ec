/** index.go: the links of the admin index page and the order sort.Sort puts
    them in. */
module Index {

  datatype Link = Link(name: string, path: string, description: string)

  /** Go's `<` on strings: lexicographic, a proper prefix first. Go compares
      the UTF-8 bytes; UTF-8 keeps the order of code points, so comparing the
      characters gives the same answer. */
  predicate StrLess(a: string, b: string) {
    if a == [] then b != []
    else if b == [] then false
    else if a[0] != b[0] then a[0] < b[0]
    else StrLess(a[1..], b[1..])
  }

  lemma {:induction false} StrLessIrreflexive(a: string)
    ensures !StrLess(a, a)
    decreases |a|
  {
    if a != [] {
      StrLessIrreflexive(a[1..]);
    }
  }

  lemma {:induction false} StrLessAsymmetric(a: string, b: string)
    requires StrLess(a, b)
    ensures !StrLess(b, a)
    decreases |a|
  {
    if a != [] && b != [] && a[0] == b[0] {
      StrLessAsymmetric(a[1..], b[1..]);
    }
  }

  lemma {:induction false} StrLessTransitive(a: string, b: string, c: string)
    requires StrLess(a, b) && StrLess(b, c)
    ensures StrLess(a, c)
    decreases |a|
  {
    if a != [] && b != [] && c != [] && a[0] == b[0] && b[0] == c[0] {
      StrLessTransitive(a[1..], b[1..], c[1..]);
    }
  }

  /** Two different strings are ordered one way or the other. */
  lemma {:induction false} StrLessTotal(a: string, b: string)
    ensures a == b || StrLess(a, b) || StrLess(b, a)
    decreases |a|
  {
    if a != [] && b != [] && a[0] == b[0] {
      StrLessTotal(a[1..], b[1..]);
      if a[1..] == b[1..] {
        assert a == [a[0]] + a[1..] && b == [b[0]] + b[1..];
      }
    }
  }

  /** `x` may come before `y` in a sorted list. */
  predicate LinkLe(x: Link, y: Link) {
    !StrLess(y.path, x.path)
  }

  lemma LinkLeTransitive(x: Link, y: Link, z: Link)
    requires LinkLe(x, y) && LinkLe(y, z)
    ensures LinkLe(x, z)
  {
    if x.path != y.path && y.path != z.path {
      StrLessTotal(x.path, y.path);
      StrLessTotal(y.path, z.path);
      StrLessTransitive(x.path, y.path, z.path);
      StrLessAsymmetric(x.path, z.path);
    }
  }

  /** Non-decreasing by path. */
  predicate Sorted(s: seq<Link>) {
    forall i, j | 0 <= i < j < |s| :: LinkLe(s[i], s[j])
  }

  /** Every link of s[..i] may come before every link of s[i..]. */
  predicate Split(s: seq<Link>, i: int)
    requires 0 <= i <= |s|
  {
    forall k, l | 0 <= k < i <= l < |s| :: LinkLe(s[k], s[l])
  }

  /** Exchanging position i with that of a least link of s[i..] extends the
      sorted prefix by one. */
  lemma SwapInSmallest(s: seq<Link>, i: int, m: int)
    requires 0 <= i <= m < |s|
    requires Sorted(s[..i]) && Split(s, i)
    requires forall k | i <= k < |s| :: LinkLe(s[m], s[k])
    ensures var t := s[i := s[m]][m := s[i]]; Sorted(t[..i + 1]) && Split(t, i + 1)
  {
    var t := s[i := s[m]][m := s[i]];
    forall k, l | 0 <= k < l < i + 1
      ensures LinkLe(t[k], t[l])
    {
      if l < i {
        assert t[k] == s[..i][k] && t[l] == s[..i][l];
      }
    }
    forall k, l | 0 <= k < i + 1 <= l < |t|
      ensures LinkLe(t[k], t[l])
    {
      if l == m {
        assert t[l] == s[i];
      } else {
        assert t[l] == s[l];
      }
    }
  }

  /** linkSlice.Len. */
  function Len(p: array<Link>): (n: int)
    reads p
    ensures n == |p[..]|
  {
    p.Length
  }

  /** linkSlice.Less: by path alone; a strict order, so never both ways. */
  function Less(p: array<Link>, i: int, j: int): (r: bool)
    requires 0 <= i < p.Length && 0 <= j < p.Length
    reads p
    ensures r <==> StrLess(p[i].path, p[j].path)
    ensures r ==> !StrLess(p[j].path, p[i].path) && i != j
  {
    if StrLess(p[i].path, p[j].path) then
      StrLessAsymmetric(p[i].path, p[j].path);
      StrLessIrreflexive(p[i].path);
      true
    else false
  }

  /** linkSlice.Swap. */
  method Swap(p: array<Link>, i: int, j: int)
    requires 0 <= i < p.Length && 0 <= j < p.Length
    modifies p
    ensures p[..] == old(p[..])[i := old(p[j])][j := old(p[i])]
    ensures multiset(p[..]) == multiset(old(p[..]))
  {
    p[i], p[j] := p[j], p[i];
  }

  /** What sort.Sort promises when driven by Len, Less and Swap: the links end
      up non-decreasing by path and are a permutation of what they were. It is
      not stable. The order is reached here by selection through Less and
      Swap; sort.Sort's own algorithm is not part of this model. */
  method Sort(p: array<Link>)
    modifies p
    ensures Sorted(p[..])
    ensures multiset(p[..]) == multiset(old(p[..]))
  {
    var n := Len(p);
    for i := 0 to n
      invariant Sorted(p[..i]) && Split(p[..], i)
      invariant multiset(p[..]) == multiset(old(p[..]))
    {
      var m := SmallestFrom(p, i);
      SwapInSmallest(p[..], i, m);
      Swap(p, i, m);
    }
    assert p[..n] == p[..];
  }

  /** The position of a link with the least path in p[from..]. */
  method SmallestFrom(p: array<Link>, from: int) returns (m: int)
    requires 0 <= from < p.Length
    ensures from <= m < p.Length
    ensures forall k | from <= k < p.Length :: LinkLe(p[m], p[k])
  {
    m := from;
    StrLessIrreflexive(p[from].path);
    for j := from + 1 to p.Length
      invariant from <= m < j
      invariant forall k | from <= k < j :: LinkLe(p[m], p[k])
    {
      if Less(p, j, m) {
        StrLessIrreflexive(p[j].path);
        forall k | from <= k < j
          ensures LinkLe(p[j], p[k])
        {
          StrLessAsymmetric(p[j].path, p[m].path);
          LinkLeTransitive(p[j], p[m], p[k]);
        }
        m := j;
      }
    }
  }
}
