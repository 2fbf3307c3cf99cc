/** Paths over the directed warp graph. */
module Graphs {
  import opened Sectors

  /** A sequence of sectors, each holding a warp to the next. */
  ghost predicate IsPath(g: Chart, p: seq<nat>) {
    && |p| >= 1
    && (forall i :: 0 <= i < |p| ==> p[i] < |g|)
    && forall i :: 0 <= i < |p| - 1 ==> p[i + 1] in g[p[i]]
  }

  ghost predicate Joins(g: Chart, p: seq<nat>, a: nat, b: nat) {
    IsPath(g, p) && p[0] == a && p[|p| - 1] == b
  }

  ghost predicate Reachable(g: Chart, a: nat, b: nat) {
    exists p :: Joins(g, p, a, b)
  }

  /** Some path from a to b takes d warps, and none takes fewer. */
  ghost predicate Distance(g: Chart, a: nat, b: nat, d: int) {
    && (exists p :: Joins(g, p, a, b) && |p| == d + 1)
    && (forall p :: Joins(g, p, a, b) ==> |p| >= d + 1)
  }

  /** Two nodes are at one distance only. */
  lemma DistanceIsUnique(g: Chart, a: nat, b: nat, d: int, e: int)
    requires Distance(g, a, b, d) && Distance(g, a, b, e)
    ensures d == e
  {
    var p :| Joins(g, p, a, b) && |p| == d + 1;
    var q :| Joins(g, q, a, b) && |q| == e + 1;
  }

  lemma StartsAt(g: Chart, a: nat)
    requires a < |g|
    ensures Joins(g, [a], a, a) && Reachable(g, a, a)
  {
    assert Joins(g, [a], a, a);
  }

  /** A path may be lengthened by one warp. */
  lemma Extended(g: Chart, p: seq<nat>, a: nat, b: nat, c: nat)
    requires Joins(g, p, a, b) && c in g[b] && c < |g|
    ensures Joins(g, p + [c], a, c) && Reachable(g, a, c)
  {
    assert Joins(g, p + [c], a, c);
  }

  lemma Concatenated(g: Chart, p: seq<nat>, q: seq<nat>, a: nat, b: nat, c: nat)
    requires Joins(g, p, a, b) && Joins(g, q, b, c)
    ensures Joins(g, p + q[1..], a, c)
  {
    var r := p + q[1..];
    forall i | 0 <= i < |r| - 1 ensures r[i + 1] in g[r[i]] {
      if i >= |p| - 1 {
        assert r[i] == q[i - |p| + 1] && r[i + 1] == q[i - |p| + 2];
      }
    }
  }

  lemma ReachableThrough(g: Chart, a: nat, b: nat, c: nat)
    requires Reachable(g, a, b) && Reachable(g, b, c)
    ensures Reachable(g, a, c)
  {
    var p :| Joins(g, p, a, b);
    var q :| Joins(g, q, b, c);
    Concatenated(g, p, q, a, b, c);
  }

  /** A set that every warp out of it leads back into keeps its paths. */
  lemma {:induction false} PathsStayInside(g: Chart, inside: set<nat>, p: seq<nat>)
    requires IsPath(g, p) && p[0] in inside
    requires forall v, w :: v in inside && v < |g| && w in g[v] ==> w in inside
    ensures p[|p| - 1] in inside
  {
    if |p| > 1 {
      PathsStayInside(g, inside, p[1..]);
    }
  }

  /** More warps only add paths. */
  lemma PathsSurvive(g: Chart, h: Chart, p: seq<nat>)
    requires IsPath(g, p) && |h| == |g|
    requires forall v, w :: 0 <= v < |g| && w in g[v] ==> w in h[v]
    ensures IsPath(h, p)
  {
  }
}
