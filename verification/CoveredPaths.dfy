/**
 * Dropping directories another one already covers (src/browse.ts:108-128): shortest first, greedily,
 * under the inside-of relation on paths. `sep` is the platform's separator.
 */
module CoveredPaths {

  type Path = string

  function WithSep(parent: Path, sep: char): Path {
    if parent != "" && parent[|parent| - 1] == sep then parent else parent + [sep]
  }

  predicate IsSameOrInside(child: Path, parent: Path, sep: char) {
    child == parent || WithSep(parent, sep) <= child
  }

  // ── Inside-of is a partial order that longer paths are lower in ─────────────

  lemma {:induction false} InsideIsLonger(a: Path, b: Path, sep: char)
    requires IsSameOrInside(a, b, sep)
    ensures a == b || |a| > |b|
    ensures b <= a
  {
    assert b <= WithSep(b, sep);
  }

  lemma {:induction false} InsideIsTransitive(a: Path, b: Path, c: Path, sep: char)
    requires IsSameOrInside(a, b, sep) && IsSameOrInside(b, c, sep)
    ensures IsSameOrInside(a, c, sep)
  {
    InsideIsLonger(a, b, sep);
    if b != c {
      var w := WithSep(c, sep);
      assert w == b[..|w|] == a[..|w|];
    }
  }

  lemma {:induction false} InsideIsAntisymmetric(a: Path, b: Path, sep: char)
    requires IsSameOrInside(a, b, sep) && IsSameOrInside(b, a, sep)
    ensures a == b
  {
    InsideIsLonger(a, b, sep);
    InsideIsLonger(b, a, sep);
  }

  /** A sibling whose name merely starts with another's is not inside it. */
  lemma {:induction false} SiblingIsNotInside(parent: Path, rest: Path, sep: char)
    requires parent != "" && parent[|parent| - 1] != sep && rest != "" && rest[0] != sep
    ensures !IsSameOrInside(parent + rest, parent, sep)
  {
    var w := WithSep(parent, sep);
    assert w[|parent|] == sep && (parent + rest)[|parent|] == rest[0];
  }

  // ── What must be kept ───────────────────────────────────────────────────────

  /** Not covered by the primary, nor inside any other path of the list. */
  predicate Minimal(p: Path, primary: Path, paths: seq<Path>, sep: char) {
    !IsSameOrInside(p, primary, sep) && forall q :: q in paths && q != p ==> !IsSameOrInside(p, q, sep)
  }

  /** Every path is covered by the primary or by a minimal path no longer than it. */
  lemma {:induction false} MinimalCovers(p: Path, primary: Path, paths: seq<Path>, sep: char) returns (q: Path)
    requires p in paths && !IsSameOrInside(p, primary, sep)
    ensures q in paths && Minimal(q, primary, paths, sep) && IsSameOrInside(p, q, sep) && |q| <= |p|
    decreases |p|
  {
    if Minimal(p, primary, paths, sep) {
      q := p;
    } else {
      var r :| r in paths && r != p && IsSameOrInside(p, r, sep);
      InsideIsLonger(p, r, sep);
      if IsSameOrInside(r, primary, sep) { InsideIsTransitive(p, r, primary, sep); }
      q := MinimalCovers(r, primary, paths, sep);
      InsideIsTransitive(p, r, q, sep);
    }
  }

  predicate FirstAt(paths: seq<Path>, i: nat)
    requires i < |paths|
  {
    paths[i] !in paths[..i]
  }

  /** The minimal paths of the first `n`, each at its first place. */
  function MinimalPaths(primary: Path, paths: seq<Path>, n: nat, sep: char): (r: seq<Path>)
    requires n <= |paths|
  {
    if n == 0 then []
    else
      var rest := MinimalPaths(primary, paths, n - 1, sep);
      if Minimal(paths[n - 1], primary, paths, sep) && FirstAt(paths, n - 1) then rest + [paths[n - 1]] else rest
  }

  lemma {:induction false} MinimalPathsAre(primary: Path, paths: seq<Path>, n: nat, sep: char)
    requires n <= |paths|
    ensures var r := MinimalPaths(primary, paths, n, sep);
            && (forall p :: p in r <==> p in paths[..n] && Minimal(p, primary, paths, sep))
            && (forall i, j :: 0 <= i < j < |r| ==> r[i] != r[j])
  {
    hide Minimal;
    if n > 0 {
      MinimalPathsAre(primary, paths, n - 1, sep);
      assert paths[..n] == paths[..n - 1] + [paths[n - 1]];
    }
  }

  // ── The algorithm ───────────────────────────────────────────────────────────

  predicate Distinct(s: seq<Path>) { forall i, j :: 0 <= i < j < |s| ==> s[i] != s[j] }

  predicate ByLength(s: seq<Path>) { forall i, j :: 0 <= i < j < |s| ==> |s[i]| <= |s[j]| }

  /** A path put in behind those no longer than it, unless it is there. */
  function InsertByLength(p: Path, s: seq<Path>): (r: seq<Path>)
    ensures forall q :: q in r <==> q in s || q == p
  {
    if p in s then s
    else if s == [] || |p| < |s[0]| then [p] + s
    else [s[0]] + InsertByLength(p, s[1..])
  }

  lemma {:induction false} ConsKeepsOrder(p: Path, s: seq<Path>)
    requires Distinct(s) && ByLength(s) && forall j :: 0 <= j < |s| ==> s[j] != p && |p| <= |s[j]|
    ensures Distinct([p] + s) && ByLength([p] + s)
  {
  }

  lemma {:induction false} InsertKeepsOrder(p: Path, s: seq<Path>)
    requires Distinct(s) && ByLength(s)
    ensures Distinct(InsertByLength(p, s)) && ByLength(InsertByLength(p, s))
  {
    if p in s {
    } else if s == [] || |p| < |s[0]| {
      ConsKeepsOrder(p, s);
    } else {
      InsertKeepsOrder(p, s[1..]);
      var r := InsertByLength(p, s[1..]);
      forall j | 0 <= j < |r| ensures r[j] != s[0] && |s[0]| <= |r[j]| {
        assert r[j] in r;
        if r[j] != p { assert r[j] in s[1..]; }
      }
      hide InsertByLength;
      ConsKeepsOrder(s[0], r);
    }
  }

  /** `[...new Set(paths)].sort(...)`: each path once, shorter ones first. */
  method UniqueByLength(paths: seq<Path>) returns (s: seq<Path>)
    ensures Distinct(s) && ByLength(s) && forall p :: p in s <==> p in paths
  {
    s := [];
    for i := 0 to |paths|
      invariant Distinct(s) && ByLength(s) && forall p :: p in s <==> p in paths[..i]
    {
      InsertKeepsOrder(paths[i], s);
      s := InsertByLength(paths[i], s);
      assert paths[..i + 1] == paths[..i] + [paths[i]];
    }
    assert paths[..|paths|] == paths;
  }

  /** Keeping a path the kept ones do not cover keeps exactly the minimal ones. */
  lemma {:induction false} GreedyIsMinimal(primary: Path, paths: seq<Path>, s: seq<Path>, i: nat, kept: set<Path>, sep: char)
    requires Distinct(s) && ByLength(s) && (forall p :: p in s <==> p in paths) && i < |s|
    requires forall p :: p in kept <==> p in s[..i] && Minimal(p, primary, paths, sep)
    ensures Minimal(s[i], primary, paths, sep) <==>
              !IsSameOrInside(s[i], primary, sep) && forall k :: k in kept ==> !IsSameOrInside(s[i], k, sep)
  {
    var p := s[i];
    assert p in s && p in paths;
    if !IsSameOrInside(p, primary, sep) && !Minimal(p, primary, paths, sep) {
      var r :| r in paths && r != p && IsSameOrInside(p, r, sep);
      InsideIsLonger(p, r, sep);
      if IsSameOrInside(r, primary, sep) { InsideIsTransitive(p, r, primary, sep); }
      var q := MinimalCovers(r, primary, paths, sep);
      InsideIsTransitive(p, r, q, sep);
      assert q in s;
      var k :| 0 <= k < |s| && s[k] == q;
      assert k < i;
      assert q in s[..i];
    }
    if Minimal(p, primary, paths, sep) {
      forall k | k in kept ensures !IsSameOrInside(p, k, sep) {
        var j :| 0 <= j < i && s[j] == k;
        assert k in s;
      }
    }
  }

  method DropCoveredPaths(primary: Path, paths: seq<Path>, sep: char) returns (result: seq<Path>)
    ensures result == MinimalPaths(primary, paths, |paths|, sep)
  {
    var kept: set<Path> := {};
    var byLength := UniqueByLength(paths);
    hide Minimal, IsSameOrInside, MinimalPaths;
    for i := 0 to |byLength|
      invariant forall p :: p in kept <==> p in byLength[..i] && Minimal(p, primary, paths, sep)
    {
      var p := byLength[i];
      GreedyIsMinimal(primary, paths, byLength, i, kept, sep);
      assert byLength[..i + 1] == byLength[..i] + [p];
      if IsSameOrInside(p, primary, sep) { continue; }
      if exists k :: k in kept && IsSameOrInside(p, k, sep) { continue; }
      kept := kept + {p};
    }
    assert byLength[..|byLength|] == byLength;
    result := InCallerOrder(primary, paths, kept, sep);
  }

  /** The kept paths as the caller has them, each once. */
  method InCallerOrder(primary: Path, paths: seq<Path>, kept: set<Path>, sep: char) returns (result: seq<Path>)
    requires forall p :: p in kept <==> p in paths && Minimal(p, primary, paths, sep)
    ensures result == MinimalPaths(primary, paths, |paths|, sep)
  {
    hide Minimal;
    result := [];
    for i := 0 to |paths|
      invariant result == MinimalPaths(primary, paths, i, sep)
    {
      if paths[i] in kept && FirstAt(paths, i) { result := result + [paths[i]]; }
    }
  }

  // ── What the result means ───────────────────────────────────────────────────

  /** Every input is covered by the primary or by a kept path. */
  lemma {:induction false} EverythingIsCovered(primary: Path, paths: seq<Path>, p: Path, sep: char)
    requires p in paths
    ensures IsSameOrInside(p, primary, sep)
            || exists k :: k in MinimalPaths(primary, paths, |paths|, sep) && IsSameOrInside(p, k, sep)
  {
    MinimalPathsAre(primary, paths, |paths|, sep);
    assert paths[..|paths|] == paths;
    if !IsSameOrInside(p, primary, sep) {
      var q := MinimalCovers(p, primary, paths, sep);
      assert q in MinimalPaths(primary, paths, |paths|, sep);
    }
  }

  /** No kept path is covered by the primary or by another kept path. */
  lemma {:induction false} NothingKeptIsCovered(primary: Path, paths: seq<Path>, p: Path, q: Path, sep: char)
    requires p in MinimalPaths(primary, paths, |paths|, sep) && q in MinimalPaths(primary, paths, |paths|, sep) && p != q
    ensures !IsSameOrInside(p, primary, sep) && !IsSameOrInside(p, q, sep)
  {
    MinimalPathsAre(primary, paths, |paths|, sep);
    assert paths[..|paths|] == paths;
  }

  /** The result is the least cover: any paths of the list that cover it all include every kept one. */
  lemma {:induction false} ResultIsLeastCover(primary: Path, paths: seq<Path>, cover: set<Path>, p: Path, sep: char)
    requires forall q :: q in cover ==> q in paths
    requires forall q :: q in paths ==> IsSameOrInside(q, primary, sep) || exists k :: k in cover && IsSameOrInside(q, k, sep)
    requires p in MinimalPaths(primary, paths, |paths|, sep)
    ensures p in cover
  {
    MinimalPathsAre(primary, paths, |paths|, sep);
    assert paths[..|paths|] == paths;
    var k :| k in cover && IsSameOrInside(p, k, sep);
  }

  /** Kept paths stand in the caller's order. */
  lemma {:induction false} ResultKeepsOrder(primary: Path, paths: seq<Path>, n: nat, i: nat, j: nat, sep: char)
    returns (k: nat, l: nat)
    requires n <= |paths| && i < j < |MinimalPaths(primary, paths, n, sep)|
    ensures k < l < n && FirstAt(paths, k) && FirstAt(paths, l)
    ensures paths[k] == MinimalPaths(primary, paths, n, sep)[i] && paths[l] == MinimalPaths(primary, paths, n, sep)[j]
  {
    hide Minimal;
    var rest := MinimalPaths(primary, paths, n - 1, sep);
    if j < |rest| {
      k, l := ResultKeepsOrder(primary, paths, n - 1, i, j, sep);
    } else {
      k := PlaceOf(primary, paths, n - 1, i, sep);
      l := n - 1;
    }
  }

  lemma {:induction false} PlaceOf(primary: Path, paths: seq<Path>, n: nat, i: nat, sep: char) returns (k: nat)
    requires n <= |paths| && i < |MinimalPaths(primary, paths, n, sep)|
    ensures k < n && FirstAt(paths, k) && paths[k] == MinimalPaths(primary, paths, n, sep)[i]
  {
    hide Minimal;
    if i < |MinimalPaths(primary, paths, n - 1, sep)| { k := PlaceOf(primary, paths, n - 1, i, sep); } else { k := n - 1; }
  }
}
