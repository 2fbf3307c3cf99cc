/** The autopilot: shortest paths from one sector to another (universe.go:308-361). */
module Universe {
  import opened Sectors
  import opened Graphs
  import opened Routing

  /** What loading a world checks of its sectors, before anything may be flown. */
  method Validate(sectors: seq<Sector>) returns (ok: bool)
    ensures ok <==> Charted(sectors)
  {
    if |sectors| < 2 {
      return false;
    }
    for i := 0 to |sectors|
      invariant forall k :: 0 <= k < i ==> sectors[k].number == k
    {
      if sectors[i].number != i {
        return false;
      }
    }
    ghost var g := ChartOf(sectors);
    for i := 0 to |sectors|
      invariant forall k, w :: 0 <= k < i && w in g[k] ==> 1 <= w < |g|
    {
      for j := 0 to |sectors[i].warps|
        invariant forall k :: 0 <= k < j ==> 1 <= sectors[i].warps[k] < |g|
      {
        if sectors[i].warps[j] < 1 || sectors[i].warps[j] > |sectors| - 1 {
          assert sectors[i].warps[j] in g[i];
          return false;
        }
      }
    }
    return true;
  }

  /** All distances start at the largest machine integer, but for the starting sector. */
  method Unreached(n: nat, from: nat) returns (dist: map<nat, nat>)
    requires from < n
    ensures forall v: nat :: v in dist <==> v < n
    ensures forall v: nat :: v < n ==> dist[v] == if v == from then 0 else MAX_INT
  {
    dist := map[];
    for s: nat := 0 to n
      invariant forall v: nat :: v in dist <==> v < s
      invariant forall v: nat :: v < s ==> dist[v] == MAX_INT
    {
      dist := dist[s := MAX_INT];
    }
    dist := dist[from := 0];
  }

  /** Follow the current sector's warps, lowering the distances of its open neighbours. */
  method Relax(warps: seq<nat>, ghost g: Chart, ghost from: nat, visited: set<nat>, current: nat,
               dist0: map<nat, nat>, prev0: map<nat, nat>) returns (dist: map<nat, nat>, prev: map<nat, nat>)
    requires ValidChart(g) && current < |g| && warps == g[current] && current in visited
    requires Chained(g, from, visited, dist0, prev0) && dist0[current] + 1 < MAX_INT
    ensures Chained(g, from, visited, dist, prev)
    ensures forall v :: v in dist0 ==> v in dist && dist[v] <= dist0[v]
    ensures forall v :: v in dist0 ==> dist[v] == dist0[v] || (v !in visited && dist[v] == dist0[current] + 1)
    ensures forall w :: w in warps ==> w in dist && (w in visited || dist[w] <= dist0[current] + 1)
  {
    hide Chained;
    dist, prev := dist0, prev0;
    Domain(g, from, visited, dist0, prev0);
    for i := 0 to |warps|
      invariant Chained(g, from, visited, dist, prev)
      invariant forall v :: v in dist0 ==> v in dist && dist[v] <= dist0[v]
      invariant forall v :: v in dist0 ==> dist[v] == dist0[v] || (v !in visited && dist[v] == dist0[current] + 1)
      invariant forall k :: 0 <= k < i ==> warps[k] in visited || (warps[k] in dist && dist[warps[k]] <= dist0[current] + 1)
    {
      var neighbor := warps[i];
      assert neighbor in g[current];
      if neighbor !in visited {
        var newDist := dist[current] + 1;
        if newDist < dist[neighbor] {
          Lowered(g, from, visited, dist, prev, current, neighbor);
          dist := dist[neighbor := newDist];
          prev := prev[neighbor := current];
        }
      }
    }
  }

  /** The first open sector at the smallest distance, if any open sector has been reached. */
  method Closest(n: nat, visited: set<nat>, dist: map<nat, nat>) returns (next: Option<nat>)
    requires forall v: nat :: v in dist <==> v < n
    ensures next.None? ==> forall v :: v in dist && v !in visited ==> dist[v] >= MAX_INT
    ensures next.Some? ==> next.value in dist && next.value !in visited && dist[next.value] < MAX_INT
    ensures next.Some? ==> forall v :: v in dist && v !in visited ==> dist[next.value] <= dist[v]
  {
    var minDist := MAX_INT;
    next := None;
    for s: nat := 0 to n
      invariant next.None? ==> minDist == MAX_INT
      invariant next.Some? ==> next.value in dist && next.value !in visited && dist[next.value] == minDist < MAX_INT
      invariant forall v: nat :: v < s && v !in visited ==> minDist <= dist[v]
    {
      if s !in visited && dist[s] < minDist {
        minDist := dist[s];
        next := Some(s);
      }
    }
  }

  /** Walk the chain of predecessors back to the start. */
  method Trace(ghost g: Chart, from: nat, target: nat, ghost visited: set<nat>, ghost dist: map<nat, nat>, prev: map<nat, nat>)
    returns (path: seq<nat>)
    requires Chained(g, from, visited, dist, prev) && target in dist && dist[target] < MAX_INT
    ensures Joins(g, path, from, target) && |path| == dist[target] + 1
  {
    path := [];
    var at := target;
    while at != from
      invariant at in dist && dist[at] < MAX_INT
      invariant Joins(g, [at] + path, at, target) && |path| + dist[at] == dist[target]
      decreases dist[at]
    {
      ghost var before := [at] + path;
      path := [at] + path;
      at := prev[at];
      assert path == before;
      assert forall i :: 0 <= i < |path| ==> ([at] + path)[i + 1] == path[i];
    }
    path := [from] + path;
  }

  /** Finish the current sector: follow its warps and pick the next one. */
  method Visit(sectors: seq<Sector>, ghost g: Chart, ghost from: nat, visited0: set<nat>, current: nat,
               dist0: map<nat, nat>, prev0: map<nat, nat>)
    returns (visited: set<nat>, dist: map<nat, nat>, prev: map<nat, nat>, next: Option<nat>)
    requires ValidChart(g) && |g| == |sectors| < MAX_INT
    requires forall i :: 0 <= i < |sectors| ==> sectors[i].warps == g[i]
    requires Chained(g, from, visited0, dist0, prev0) && Relaxed(g, visited0, dist0) && Nearest(visited0, dist0, current)
    requires (current == from || from in visited0) && visited0 <= Below(|sectors|)
    ensures visited == visited0 + {current} && visited <= Below(|sectors|) && |visited0| < |visited| <= |sectors|
    ensures Chained(g, from, visited, dist, prev) && Relaxed(g, visited, dist)
    ensures next.Some? ==> Nearest(visited, dist, next.value)
    ensures next.None? ==> forall t :: t !in visited ==> !Reachable(g, from, t)
  {
    hide Chained, Relaxed, Nearest, Settled, ValidChart, Reachable;
    Domain(g, from, visited0, dist0, prev0);
    Near(visited0, dist0, current, |sectors|);
    Finished(g, from, visited0, dist0, prev0, current);
    visited := visited0 + {current};
    dist, prev := Relax(sectors[current].warps, g, from, visited, current, dist0, prev0);
    Domain(g, from, visited, dist, prev);
    Advanced(g, from, visited0, current, dist0, dist, prev);
    next := Closest(|sectors|, visited, dist);
    if next.None? {
      forall t | t !in visited ensures !Reachable(g, from, t) {
        NoRoute(g, from, visited, dist, prev, t, dist0[current]);
      }
    } else {
      NextIsNear(g, from, visited, dist, prev, dist0[current], next.value);
    }
  }

  method Finish(ghost g: Chart, from: nat, target: nat, ghost visited: set<nat>, ghost dist: map<nat, nat>, prev: map<nat, nat>)
    returns (path: seq<nat>)
    requires Chained(g, from, visited, dist, prev) && Relaxed(g, visited, dist) && Nearest(visited, dist, target)
    requires visited <= Below(|g|) && |g| < MAX_INT
    ensures Joins(g, path, from, target) && Distance(g, from, target, |path| - 1)
  {
    hide Chained, Relaxed, Nearest, Joins, Distance;
    Domain(g, from, visited, dist, prev);
    Near(visited, dist, target, |g|);
    path := Trace(g, from, target, visited, dist, prev);
    Optimal(g, from, visited, dist, prev, target, path);
  }

  method Search(sectors: seq<Sector>, ghost g: Chart, from: nat, target: nat) returns (route: Option<seq<nat>>)
    requires ValidChart(g) && |g| == |sectors| < MAX_INT && from < |g| && target < |g|
    requires forall i :: 0 <= i < |sectors| ==> sectors[i].warps == g[i]
    ensures route.None? ==> !Reachable(g, from, target)
    ensures route.Some? ==> Joins(g, route.value, from, target) && Distance(g, from, target, |route.value| - 1)
  {
    hide Chained, Relaxed, Nearest, ValidChart, Reachable, Joins, Distance;
    var visited: set<nat> := {};
    var dist: map<nat, nat> := Unreached(|sectors|, from);
    var prev: map<nat, nat> := map[];
    var current: nat := from;
    Initial(g, from, dist);
    while current != target
      invariant Chained(g, from, visited, dist, prev) && Relaxed(g, visited, dist) && Nearest(visited, dist, current)
      invariant target !in visited && visited <= Below(|sectors|)
      invariant current == from || from in visited
      decreases |sectors| - |visited|
    {
      var next;
      visited, dist, prev, next := Visit(sectors, g, from, visited, current, dist, prev);
      if next.None? {
        return None;
      }
      current := next.value;
    }
    var path := Finish(g, from, target, visited, dist, prev);
    return Some(path);
  }

  /** A shortest route, or none exactly when the target cannot be reached. */
  method ShortestPathTo(sectors: seq<Sector>, from: int, target: int) returns (route: Option<seq<nat>>)
    requires Charted(sectors) && |sectors| < MAX_INT
    ensures route.Some? <==>
              1 <= from < |sectors| && 1 <= target < |sectors| && Reachable(ChartOf(sectors), from, target)
    ensures route.Some? ==> Joins(ChartOf(sectors), route.value, from, target)
                            && Distance(ChartOf(sectors), from, target, |route.value| - 1)
  {
    if from < 1 || from >= |sectors| || target < 1 || target >= |sectors| {
      return None;
    }
    route := Search(sectors, ChartOf(sectors), from, target);
  }
}
