/** Why the autopilot's search is right: what its tables mean, and what each step of the search keeps. */
module Routing {
  import opened Sectors
  import opened Graphs

  datatype Option<+T> = None | Some(value: T)

  /** The largest machine integer, the distance of a sector not reached yet. */
  const MAX_INT: nat := 0x7fff_ffff_ffff_ffff

  /** Every sector given a distance, but the first, was reached by a warp from a finished sector one step nearer. */
  ghost predicate Chained(g: Chart, from: nat, visited: set<nat>, dist: map<nat, nat>, prev: map<nat, nat>) {
    && (forall v: nat :: v in dist <==> v < |g|)
    && from < |g| && dist[from] == 0
    && (forall u :: u in visited ==> u in dist && dist[u] < MAX_INT)
    && forall v :: v in dist && dist[v] < MAX_INT && v != from ==>
         v in prev && prev[v] in visited && v in g[prev[v]] && dist[v] == dist[prev[v]] + 1
  }

  /** Every warp out of a finished sector has been followed. */
  ghost predicate Relaxed(g: Chart, visited: set<nat>, dist: map<nat, nat>) {
    forall u, w :: u in visited && u < |g| && u in dist && w in g[u] ==> w in dist && dist[w] <= dist[u] + 1
  }

  /** No open sector is nearer than the current one, and no finished one is farther. */
  ghost predicate Nearest(visited: set<nat>, dist: map<nat, nat>, current: nat) {
    && current in dist && current !in visited && dist[current] <= |visited|
    && (forall v :: v in dist && v !in visited ==> dist[current] <= dist[v])
    && (forall u :: u in visited ==> u in dist && dist[u] <= dist[current])
  }

  /** A path that has not left the finished sectors before its i-th stop cannot be shorter than the distance there. */
  lemma {:induction false} PrefixBound(g: Chart, from: nat, visited: set<nat>, dist: map<nat, nat>, prev: map<nat, nat>,
                                       p: seq<nat>, i: nat)
    requires Chained(g, from, visited, dist, prev) && Relaxed(g, visited, dist)
    requires IsPath(g, p) && p[0] == from && i < |p|
    requires forall j :: 0 <= j < i ==> p[j] in visited
    ensures p[i] in dist && dist[p[i]] <= i
  {
    if i > 0 {
      PrefixBound(g, from, visited, dist, prev, p, i - 1);
      assert p[i - 1 + 1] in g[p[i - 1]];
    }
  }

  /** Every path to an open sector is at least as long as the distance of the current one. */
  lemma {:induction false} OpenBound(g: Chart, from: nat, visited: set<nat>, dist: map<nat, nat>, prev: map<nat, nat>,
                                     current: nat, p: seq<nat>, i: nat)
    requires Chained(g, from, visited, dist, prev) && Relaxed(g, visited, dist) && Nearest(visited, dist, current)
    requires IsPath(g, p) && p[0] == from && p[|p| - 1] !in visited && i < |p|
    requires forall j :: 0 <= j < i ==> p[j] in visited
    ensures dist[current] <= |p| - 1
    decreases |p| - i
  {
    PrefixBound(g, from, visited, dist, prev, p, i);
    if p[i] in visited {
      OpenBound(g, from, visited, dist, prev, current, p, i + 1);
    }
  }

  /** Reaching a sector by a shorter way keeps the chain. */
  lemma Lowered(g: Chart, from: nat, visited: set<nat>, dist: map<nat, nat>, prev: map<nat, nat>, current: nat, w: nat)
    requires Chained(g, from, visited, dist, prev)
    requires current in visited && current < |g| && w in g[current] && w < |g| && w !in visited
    requires dist[current] + 1 < MAX_INT && dist[current] + 1 < dist[w]
    ensures Chained(g, from, visited, dist[w := dist[current] + 1], prev[w := current])
  {
  }

  lemma Domain(g: Chart, from: nat, visited: set<nat>, dist: map<nat, nat>, prev: map<nat, nat>)
    requires Chained(g, from, visited, dist, prev)
    ensures forall v: nat :: v in dist <==> v < |g|
    ensures forall u :: u in visited ==> u in dist && dist[u] < MAX_INT
    ensures from in dist && dist[from] == 0
  {
  }

  /** No finished sector is farther than `at`, and no open one is nearer. */
  ghost predicate Settled(visited: set<nat>, dist: map<nat, nat>, at: nat) {
    && at < |visited|
    && (forall u :: u in visited ==> u in dist && dist[u] <= at)
    && (forall v :: v in dist && v !in visited ==> at <= dist[v])
  }

  /** Finishing the nearest open sector keeps the chain. */
  lemma Finished(g: Chart, from: nat, visited: set<nat>, dist: map<nat, nat>, prev: map<nat, nat>, current: nat)
    requires Chained(g, from, visited, dist, prev) && current in dist && dist[current] < MAX_INT
    ensures Chained(g, from, visited + {current}, dist, prev)
  {
  }

  /** Once its warps are followed, the current sector joins the finished ones, and the closest open one is next. */
  lemma Advanced(g: Chart, from: nat, visited: set<nat>, current: nat, dist0: map<nat, nat>, dist: map<nat, nat>, prev: map<nat, nat>)
    requires Relaxed(g, visited, dist0) && Nearest(visited, dist0, current) && current < |g|
    requires Chained(g, from, visited + {current}, dist, prev)
    requires forall v :: v in dist0 ==> v in dist && dist[v] <= dist0[v]
    requires forall v :: v in dist0 ==> dist[v] == dist0[v] || (v !in visited + {current} && dist[v] == dist0[current] + 1)
    requires forall w :: w in g[current] ==> w in dist && (w in visited + {current} || dist[w] <= dist0[current] + 1)
    requires forall v :: v in dist ==> v in dist0
    ensures Relaxed(g, visited + {current}, dist)
    ensures Settled(visited + {current}, dist, dist0[current])
  {
    hide Chained;
    var after := visited + {current};
    forall u, w | u in after && u < |g| && u in dist && w in g[u] ensures w in dist && dist[w] <= dist[u] + 1 {
      assert u in dist0 && dist[u] == dist0[u];
      if u == current {
        assert w in visited || w == current || dist[w] <= dist0[current] + 1;
      } else {
        assert w in dist0 && dist0[w] <= dist0[u] + 1;
      }
    }
  }

  lemma NextIsNear(g: Chart, from: nat, visited: set<nat>, dist: map<nat, nat>, prev: map<nat, nat>, at: nat, next: nat)
    requires Chained(g, from, visited, dist, prev) && from in visited && Settled(visited, dist, at)
    requires next in dist && next !in visited && dist[next] < MAX_INT
    requires forall v :: v in dist && v !in visited ==> dist[next] <= dist[v]
    ensures Nearest(visited, dist, next)
  {
  }

  /** When no open sector has been reached, the finished ones are all there is to reach. */
  lemma NoRoute(g: Chart, from: nat, visited: set<nat>, dist: map<nat, nat>, prev: map<nat, nat>, target: nat, at: nat)
    requires Chained(g, from, visited, dist, prev) && Relaxed(g, visited, dist) && from in visited && target !in visited
    requires forall v :: v in dist && v !in visited ==> dist[v] >= MAX_INT
    requires Settled(visited, dist, at) && at + 1 < MAX_INT
    ensures !Reachable(g, from, target)
  {
    forall p | Joins(g, p, from, target) ensures false {
      PathsStayInside(g, visited, p);
    }
  }

  lemma Optimal(g: Chart, from: nat, visited: set<nat>, dist: map<nat, nat>, prev: map<nat, nat>, target: nat, path: seq<nat>)
    requires Chained(g, from, visited, dist, prev) && Relaxed(g, visited, dist) && Nearest(visited, dist, target)
    requires Joins(g, path, from, target) && |path| == dist[target] + 1
    ensures Distance(g, from, target, |path| - 1)
  {
    forall p | Joins(g, p, from, target) ensures |p| >= |path| {
      OpenBound(g, from, visited, dist, prev, target, p, 0);
    }
  }

  lemma Initial(g: Chart, from: nat, dist: map<nat, nat>)
    requires from < |g| && forall v: nat :: v in dist <==> v < |g|
    requires forall v: nat :: v < |g| ==> dist[v] == if v == from then 0 else MAX_INT
    ensures Chained(g, from, {}, dist, map[]) && Relaxed(g, {}, dist) && Nearest({}, dist, from)
  {
  }

  /** The current sector is among the sectors not yet counted, and nearer than their number. */
  lemma Near(visited: set<nat>, dist: map<nat, nat>, current: nat, n: nat)
    requires Nearest(visited, dist, current) && visited <= Below(n) && forall v: nat :: v in dist <==> v < n
    ensures current in dist && current !in visited && current < n && visited + {current} <= Below(n)
    ensures dist[current] <= |visited| < |visited + {current}| <= n
  {
    Within(visited + {current}, Below(n));
  }

  ghost function Below(n: nat): (r: set<nat>)
    ensures |r| == n && forall s: nat :: s in r <==> s < n
  {
    if n == 0 then {} else Below(n - 1) + {n - 1}
  }

  lemma {:induction false} Within(a: set<nat>, b: set<nat>)
    requires a <= b
    ensures |a| <= |b|
  {
    if a != {} {
      var x :| x in a;
      Within(a - {x}, b - {x});
    }
  }
}
