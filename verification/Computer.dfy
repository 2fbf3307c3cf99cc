/** The ship's computer: the nearest port of a kind (computer.go:59-110). */
module Computer {
  import opened Goods
  import opened Trading
  import opened Sectors
  import opened Graphs
  import opened Routing
  import opened Universe

  /** What a port is wanted for: anything, or buying or selling a good right now. */
  datatype Want = AnyPort | Buys(good: Good) | Sells(good: Good)

  predicate Matches(port: Port, want: Want)
    reads set c | c in port.goods
  {
    match want
    case AnyPort => true
    case Buys(good) => var i := port.IndexOf(good); i != -1 && !port.goods[i].sells && port.goods[i].quantity > 0
    case Sells(good) => var i := port.IndexOf(good); i != -1 && port.goods[i].sells && port.goods[i].quantity > 0
  }

  /** Which of the ports match, by their place in the list. */
  ghost function Hits(ports: seq<Port>, want: Want): (r: seq<bool>)
    reads set i, c | 0 <= i < |ports| && c in ports[i].goods :: c
    ensures |r| == |ports| && forall k :: 0 <= k < |ports| ==> r[k] == Matches(ports[k], want)
  {
    seq(|ports|, k requires 0 <= k < |ports| reads if 0 <= k < |ports| then set c | c in ports[k].goods else {} => Matches(ports[k], want))
  }

  ghost predicate IsHit(hits: seq<bool>, k: int) {
    0 <= k < |hits| && hits[k]
  }

  /** The first port in the list that is in the sector and matches, or -1. */
  method PortHere(ports: seq<Port>, want: Want, sec: nat) returns (k: int)
    ensures -1 <= k < |ports|
    ensures k >= 0 ==> FirstHere(ports, Hits(ports, want), sec, k)
    ensures k == -1 ==> forall j :: IsHit(Hits(ports, want), j) ==> ports[j].sector != sec
  {
    for i := 0 to |ports|
      invariant forall j :: 0 <= j < i && Matches(ports[j], want) ==> ports[j].sector != sec
    {
      if ports[i].sector == sec && Matches(ports[i], want) {
        return i;
      }
    }
    return -1;
  }

  ghost predicate FirstHere(ports: seq<Port>, hits: seq<bool>, sec: nat, k: int)
    requires |hits| == |ports|
  {
    && IsHit(hits, k) && ports[k].sector == sec
    && forall j :: 0 <= j < k && ports[j].sector == sec ==> !hits[j]
  }

  datatype Node = Node(sec: nat, dist: nat)

  /** The queue holds exactly the sectors seen but not finished, nearest first, all within one warp of `at`. */
  ghost predicate Frontier(n: nat, marks: seq<bool>, done: set<nat>, dist: map<nat, nat>, queue: seq<Node>, at: nat) {
    && |marks| == n && (forall v: nat :: v in dist <==> v < n)
    && (forall v: nat :: v < n ==> (marks[v] <==> dist[v] < MAX_INT))
    && (forall v: nat :: v < n && marks[v] && v !in done ==> exists k :: 0 <= k < |queue| && queue[k].sec == v)
    && (forall k :: 0 <= k < |queue| ==>
          queue[k].sec < n && marks[queue[k].sec] && queue[k].sec !in done
          && queue[k].dist == dist[queue[k].sec] && at <= queue[k].dist <= at + 1)
    && (forall j, k :: 0 <= j < k < |queue| ==> queue[j].dist <= queue[k].dist && queue[j].sec != queue[k].sec)
  }

  /** A newly seen sector goes to the end of the queue. */
  lemma Enqueued(n: nat, marks: seq<bool>, done: set<nat>, dist: map<nat, nat>, queue: seq<Node>, at: nat, w: nat)
    requires Frontier(n, marks, done, dist, queue, at) && w < n && !marks[w] && w !in done && at + 1 < MAX_INT
    ensures Frontier(n, marks[w := true], done, dist[w := at + 1], queue + [Node(w, at + 1)], at)
  {
    var longer := queue + [Node(w, at + 1)];
    forall v: nat | v < n && marks[w := true][v] && v !in done ensures exists k :: 0 <= k < |longer| && longer[k].sec == v {
      if v == w {
        assert longer[|queue|].sec == v;
      } else {
        var k :| 0 <= k < |queue| && queue[k].sec == v;
        assert longer[k].sec == v;
      }
    }
  }

  /** The head of the queue is finished. */
  lemma Dequeued(n: nat, marks: seq<bool>, done: set<nat>, dist: map<nat, nat>, queue: seq<Node>, at: nat)
    requires Frontier(n, marks, done, dist, queue, at) && queue != []
    ensures Frontier(n, marks, done + {queue[0].sec}, dist, queue[1..], queue[0].dist)
  {
    var head, rest := queue[0], queue[1..];
    forall v: nat | v < n && marks[v] && v !in done + {head.sec} ensures exists k :: 0 <= k < |rest| && rest[k].sec == v {
      var k :| 0 <= k < |queue| && queue[k].sec == v;
      assert rest[k - 1].sec == v;
    }
  }

  /** The head of the queue is the nearest unfinished sector. */
  lemma HeadIsNearest(g: Chart, from: nat, marks: seq<bool>, done: set<nat>, dist: map<nat, nat>, prev: map<nat, nat>, queue: seq<Node>, at: nat)
    requires Frontier(|g|, marks, done, dist, queue, at) && queue != []
    requires Chained(g, from, done, dist, prev) && from in done && Settled(done, dist, at)
    ensures Nearest(done, dist, queue[0].sec)
  {
    forall v | v in dist && v !in done ensures dist[queue[0].sec] <= dist[v] {
      if marks[v] {
        var k :| 0 <= k < |queue| && queue[k].sec == v;
      }
    }
    NextIsNear(g, from, done, dist, prev, at, queue[0].sec);
  }

  lemma NothingQueued(n: nat, marks: seq<bool>, done: set<nat>, dist: map<nat, nat>, at: nat)
    requires Frontier(n, marks, done, dist, [], at)
    ensures forall v :: v in dist && v !in done ==> dist[v] >= MAX_INT
  {
  }

  /** What a sector's warps lead to is seen, and at most one warp farther. */
  lemma SeenNear(g: Chart, marks: seq<bool>, done: set<nat>, dist: map<nat, nat>, queue: seq<Node>, at: nat, current: nat)
    requires Frontier(|g|, marks, done, dist, queue, at) && current < |g|
    requires forall w :: w in g[current] ==> w < |g| && marks[w]
    ensures forall w :: w in g[current] ==> w in dist && (w in done || dist[w] <= at + 1)
  {
    forall w | w in g[current] && w !in done ensures dist[w] <= at + 1 {
      var k :| 0 <= k < |queue| && queue[k].sec == w;
    }
  }

  /** Follow the warps of the sector just finished. */
  method Fan(warps: seq<nat>, ghost g: Chart, ghost from: nat, visited0: seq<bool>, ghost done: set<nat>, current: nat, at: nat,
             queue0: seq<Node>, ghost dist0: map<nat, nat>, ghost prev0: map<nat, nat>)
    returns (visited: seq<bool>, queue: seq<Node>, ghost dist: map<nat, nat>, ghost prev: map<nat, nat>)
    requires ValidChart(g) && current < |g| && warps == g[current] && current in done && at + 1 < MAX_INT
    requires |visited0| == |g| && Frontier(|g|, visited0, done, dist0, queue0, at)
    requires Chained(g, from, done, dist0, prev0) && dist0[current] == at && forall u :: u in done ==> u < |g| && visited0[u]
    ensures |visited| == |g| && Frontier(|g|, visited, done, dist, queue, at) && Chained(g, from, done, dist, prev)
    ensures forall u :: u in done ==> u < |g| && visited[u]
    ensures forall v :: v in dist0 ==> v in dist && dist[v] <= dist0[v]
    ensures forall v :: v in dist0 ==> dist[v] == dist0[v] || (v !in done && dist[v] == at + 1)
    ensures forall v :: v in dist ==> v in dist0
    ensures forall w :: w in g[current] ==> w in dist && (w in done || dist[w] <= at + 1)
  {
    hide Frontier, Chained, ValidChart;
    visited, queue, dist, prev := visited0, queue0, dist0, prev0;
    Seen(|g|, visited, done, dist, queue, at);
    for i := 0 to |warps|
      invariant |visited| == |g| && Frontier(|g|, visited, done, dist, queue, at) && Chained(g, from, done, dist, prev)
      invariant forall u :: u in done ==> u < |g| && visited[u]
      invariant current in dist && dist[current] == at
      invariant forall v :: v in dist0 ==> v in dist && dist[v] <= dist0[v]
      invariant forall v :: v in dist0 ==> dist[v] == dist0[v] || (v !in done && dist[v] == at + 1)
      invariant forall v :: v in dist ==> v in dist0
      invariant forall k :: 0 <= k < i ==> warps[k] < |g| && visited[warps[k]]
    {
      var w := warps[i];
      assert w in g[current];
      Destination(g, current, w);
      if w >= 1 && w < |visited| && !visited[w] {
        Seen(|g|, visited, done, dist, queue, at);
        Enqueued(|g|, visited, done, dist, queue, at, w);
        Lowered(g, from, done, dist, prev, current, w);
        visited := visited[w := true];
        queue := queue + [Node(w, at + 1)];
        dist, prev := dist[w := at + 1], prev[w := current];
      }
    }
    SeenNear(g, visited, done, dist, queue, at, current);
  }

  lemma Destination(g: Chart, v: nat, w: nat)
    requires ValidChart(g) && v < |g| && w in g[v]
    ensures 1 <= w < |g|
  {
  }

  lemma Seen(n: nat, marks: seq<bool>, done: set<nat>, dist: map<nat, nat>, queue: seq<Node>, at: nat)
    requires Frontier(n, marks, done, dist, queue, at)
    ensures |marks| == n && forall v: nat :: v in dist <==> v < n
    ensures forall v: nat :: v < n ==> (marks[v] <==> dist[v] < MAX_INT)
    ensures queue != [] ==> queue[0].sec < n && queue[0].dist == dist[queue[0].sec] && queue[0].sec !in done && marks[queue[0].sec]
  {
  }

  /** The chain of predecessors is a path. */
  lemma {:induction false} Traced(g: Chart, from: nat, visited: set<nat>, dist: map<nat, nat>, prev: map<nat, nat>, target: nat) returns (path: seq<nat>)
    requires Chained(g, from, visited, dist, prev) && target in dist && dist[target] < MAX_INT
    ensures Joins(g, path, from, target) && |path| == dist[target] + 1
    decreases dist[target]
  {
    if target == from {
      path := [from];
    } else {
      path := Traced(g, from, visited, dist, prev, prev[target]);
      path := path + [target];
    }
  }

  lemma HeadDistance(g: Chart, from: nat, done: set<nat>, dist: map<nat, nat>, prev: map<nat, nat>, current: nat)
    requires Chained(g, from, done, dist, prev) && Relaxed(g, done, dist) && Nearest(done, dist, current) && dist[current] < MAX_INT
    ensures Distance(g, from, current, dist[current])
    ensures forall v, d: int :: v !in done && Distance(g, from, v, d) ==> dist[current] <= d
  {
    var path := Traced(g, from, done, dist, prev, current);
    Optimal(g, from, done, dist, prev, current, path);
    forall v, d: int | v !in done && Distance(g, from, v, d) ensures dist[current] <= d {
      var p :| Joins(g, p, from, v) && |p| == d + 1;
      OpenBound(g, from, done, dist, prev, current, p, 0);
    }
  }

  lemma Unreachable(g: Chart, from: nat, done: set<nat>, dist: map<nat, nat>, prev: map<nat, nat>, at: nat)
    requires Chained(g, from, done, dist, prev) && Relaxed(g, done, dist) && from in done && Settled(done, dist, at) && at + 1 < MAX_INT
    requires forall v :: v in dist && v !in done ==> dist[v] >= MAX_INT
    ensures forall t: nat :: t !in done ==> !Reachable(g, from, t)
  {
    forall t: nat | t !in done ensures !Reachable(g, from, t) {
      NoRoute(g, from, done, dist, prev, t, at);
    }
  }

  /** No port wanted is in a sector already finished. */
  ghost predicate NoneIn(ports: seq<Port>, hits: seq<bool>, done: set<nat>)
    requires |hits| == |ports|
  {
    forall k :: IsHit(hits, k) ==> ports[k].sector !in done
  }

  /** A wanted port is nearest if its sector is at this distance and no other wanted port's sector is at a smaller one. */
  ghost predicate IsNearest(g: Chart, ports: seq<Port>, hits: seq<bool>, from: nat, sector: nat, distance: nat)
    requires |hits| == |ports|
  {
    && Distance(g, from, sector, distance)
    && forall k, d: int :: IsHit(hits, k) && Distance(g, from, ports[k].sector, d) ==> distance <= d
  }

  lemma FoundNearest(g: Chart, ports: seq<Port>, hits: seq<bool>, from: nat, done: set<nat>, dist: map<nat, nat>, prev: map<nat, nat>, current: nat)
    requires Chained(g, from, done, dist, prev) && Relaxed(g, done, dist) && Nearest(done, dist, current) && dist[current] < MAX_INT
    requires |hits| == |ports| && NoneIn(ports, hits, done)
    ensures IsNearest(g, ports, hits, from, current, dist[current])
  {
    HeadDistance(g, from, done, dist, prev, current);
  }

  lemma DistanceMeansReachable(g: Chart, a: nat, b: nat, d: int)
    requires Distance(g, a, b, d)
    ensures Reachable(g, a, b)
  {
  }

  /** The head of the queue is taken off and its warps followed. */
  method Proceed(sectors: seq<Sector>, ghost g: Chart, ghost from: nat, visited0: seq<bool>, ghost done: set<nat>, ghost at: nat,
                 queue0: seq<Node>, ghost dist0: map<nat, nat>, ghost prev0: map<nat, nat>)
    returns (visited: seq<bool>, queue: seq<Node>, ghost dist: map<nat, nat>, ghost prev: map<nat, nat>)
    requires ValidChart(g) && |g| == |sectors| == |visited0| && |g| < MAX_INT && queue0 != []
    requires forall i :: 0 <= i < |sectors| ==> sectors[i].warps == g[i]
    requires Chained(g, from, done, dist0, prev0) && Relaxed(g, done, dist0) && Nearest(done, dist0, queue0[0].sec)
    requires Frontier(|g|, visited0, done, dist0, queue0, at)
    requires done <= Below(|g|) && forall u :: u in done ==> u < |g| && visited0[u]
    requires from in done || queue0[0].sec == from
    ensures var after := done + {queue0[0].sec};
            && |visited| == |sectors| && Chained(g, from, after, dist, prev) && Relaxed(g, after, dist)
            && Frontier(|g|, visited, after, dist, queue, queue0[0].dist)
            && (queue != [] ==> Nearest(after, dist, queue[0].sec))
            && after <= Below(|g|) && |after| > |done| && (forall u :: u in after ==> u < |g| && visited[u])
            && Settled(after, dist, queue0[0].dist) && queue0[0].dist + 1 < MAX_INT
  {
    hide Frontier, Chained, Relaxed, Nearest, Settled, ValidChart;
    var cur := queue0[0];
    Seen(|g|, visited0, done, dist0, queue0, at);
    Near(done, dist0, cur.sec, |g|);
    Dequeued(|g|, visited0, done, dist0, queue0, at);
    Finished(g, from, done, dist0, prev0, cur.sec);
    ghost var after := done + {cur.sec};
    visited, queue, dist, prev := Fan(sectors[cur.sec].warps, g, from, visited0, after, cur.sec, cur.dist, queue0[1..], dist0, prev0);
    Advanced(g, from, done, cur.sec, dist0, dist, prev);
    if queue != [] {
      HeadIsNearest(g, from, visited, after, dist, prev, queue, cur.dist);
    }
  }

  /** The search between two sectors. */
  ghost predicate Searching(g: Chart, ports: seq<Port>, hits: seq<bool>, from: nat, visited: seq<bool>, done: set<nat>,
                            dist: map<nat, nat>, prev: map<nat, nat>, queue: seq<Node>, at: nat)
    requires |hits| == |ports|
  {
    && Chained(g, from, done, dist, prev) && Relaxed(g, done, dist) && NoneIn(ports, hits, done)
    && |visited| == |g| && Frontier(|g|, visited, done, dist, queue, at)
    && (queue != [] ==> Nearest(done, dist, queue[0].sec))
    && done <= Below(|g|) && (forall u :: u in done ==> u < |g| && visited[u])
    && (from in done || (queue != [] && queue[0].sec == from))
    && (from in done ==> Settled(done, dist, at) && at + 1 < MAX_INT)
  }

  lemma Begins(g: Chart, ports: seq<Port>, hits: seq<bool>, from: nat, visited: seq<bool>, dist: map<nat, nat>)
    requires |hits| == |ports| && from < |g| == |visited| && forall v: nat :: v in dist <==> v < |g|
    requires forall v: nat :: v < |g| ==> dist[v] == (if v == from then 0 else MAX_INT) && visited[v] == (v == from)
    ensures Searching(g, ports, hits, from, visited, {}, dist, map[], [Node(from, 0)], 0)
  {
    Initial(g, from, dist);
    FirstFrontier(|g|, visited, dist, from);
    NoneInNothing(ports, hits);
    hide Frontier, Chained, Relaxed, Nearest, Settled, NoneIn;
  }

  lemma Bounded(g: Chart, ports: seq<Port>, hits: seq<bool>, from: nat, visited: seq<bool>, done: set<nat>,
                dist: map<nat, nat>, prev: map<nat, nat>, queue: seq<Node>, at: nat)
    requires |hits| == |ports| && Searching(g, ports, hits, from, visited, done, dist, prev, queue, at)
    ensures |done| <= |g|
  {
    Within(done, Below(|g|));
  }

  lemma Ends(g: Chart, ports: seq<Port>, hits: seq<bool>, from: nat, visited: seq<bool>, done: set<nat>,
             dist: map<nat, nat>, prev: map<nat, nat>, at: nat)
    requires |hits| == |ports| && Searching(g, ports, hits, from, visited, done, dist, prev, [], at)
    ensures forall j :: IsHit(hits, j) ==> !Reachable(g, from, ports[j].sector)
  {
    NothingQueued(|g|, visited, done, dist, at);
    hide Frontier, Chained, Relaxed, Nearest, Settled, NoneIn, Reachable;
    Unreachable(g, from, done, dist, prev, at);
    NoneOutside(ports, hits, done);
  }

  /** The sector at the head of the queue has a port that is wanted, or else it is finished and its warps are followed. */
  method Examine(sectors: seq<Sector>, ghost g: Chart, ports: seq<Port>, want: Want, ghost hits: seq<bool>, ghost from: nat,
                 visited0: seq<bool>, ghost done: set<nat>, ghost at: nat,
                 queue0: seq<Node>, ghost dist0: map<nat, nat>, ghost prev0: map<nat, nat>)
    returns (k: int, visited: seq<bool>, queue: seq<Node>, ghost dist: map<nat, nat>, ghost prev: map<nat, nat>)
    requires ValidChart(g) && |g| == |sectors| < MAX_INT && queue0 != [] && hits == Hits(ports, want)
    requires forall i :: 0 <= i < |sectors| ==> sectors[i].warps == g[i]
    requires Searching(g, ports, hits, from, visited0, done, dist0, prev0, queue0, at)
    ensures -1 <= k < |ports|
    ensures k >= 0 ==> FirstHere(ports, hits, queue0[0].sec, k) && IsNearest(g, ports, hits, from, queue0[0].sec, queue0[0].dist)
    ensures var after := done + {queue0[0].sec};
            k == -1 ==> |after| > |done| && Searching(g, ports, hits, from, visited, after, dist, prev, queue, queue0[0].dist)
  {
    hide Frontier, Chained, Relaxed, Nearest, Settled, ValidChart, FirstHere, IsNearest, NoneIn, Hits;
    var cur := queue0[0];
    Seen(|g|, visited0, done, dist0, queue0, at);
    visited, queue, dist, prev := visited0, queue0, dist0, prev0;
    k := PortHere(ports, want, cur.sec);
    if k >= 0 {
      FoundNearest(g, ports, hits, from, done, dist, prev, cur.sec);
    } else {
      Passed(ports, hits, done, cur.sec);
      visited, queue, dist, prev := Proceed(sectors, g, from, visited0, done, at, queue0, dist0, prev0);
      assert from in done + {cur.sec};
    }
  }

  /** Breadth-first search for the nearest port that matches; the first hit is the nearest. */
  method SearchPorts(sectors: seq<Sector>, ghost g: Chart, ports: seq<Port>, from: nat, want: Want, ghost hits: seq<bool>)
    returns (sector: nat, distance: nat, k: int)
    requires ValidChart(g) && |g| == |sectors| < MAX_INT && from < |g|
    requires forall i :: 0 <= i < |sectors| ==> sectors[i].warps == g[i]
    requires hits == Hits(ports, want)
    ensures -1 <= k < |ports|
    ensures k >= 0 ==> FirstHere(ports, hits, sector, k) && IsNearest(g, ports, hits, from, sector, distance)
    ensures k == -1 ==> forall j :: IsHit(hits, j) ==> !Reachable(g, from, ports[j].sector)
  {
    hide ValidChart, Reachable, FirstHere, IsNearest, Searching, Hits;
    var visited := seq(|sectors|, i => false);
    var queue := [Node(from, 0)];
    visited := visited[from := true];
    ghost var done: set<nat>, prev: map<nat, nat> := {}, map[];
    ghost var dist: map<nat, nat> := map v: nat | v in Below(|g|) :: if v == from then 0 else MAX_INT;
    ghost var at: nat := 0;
    Begins(g, ports, hits, from, visited, dist);
    while queue != []
      invariant Searching(g, ports, hits, from, visited, done, dist, prev, queue, at)
      decreases |g| - |done|
    {
      Bounded(g, ports, hits, from, visited, done, dist, prev, queue, at);
      var cur := queue[0];
      k, visited, queue, dist, prev := Examine(sectors, g, ports, want, hits, from, visited, done, at, queue, dist, prev);
      if k >= 0 {
        return cur.sec, cur.dist, k;
      }
      done, at := done + {cur.sec}, cur.dist;
    }
    Ends(g, ports, hits, from, visited, done, dist, prev, at);
    sector, distance, k := 0, 0, -1;
  }

  lemma NoneInNothing(ports: seq<Port>, hits: seq<bool>)
    requires |hits| == |ports|
    ensures NoneIn(ports, hits, {})
  {
  }

  lemma Passed(ports: seq<Port>, hits: seq<bool>, done: set<nat>, sec: nat)
    requires |hits| == |ports| && NoneIn(ports, hits, done) && forall j :: IsHit(hits, j) ==> ports[j].sector != sec
    ensures NoneIn(ports, hits, done + {sec})
  {
  }

  lemma NoneOutside(ports: seq<Port>, hits: seq<bool>, done: set<nat>)
    requires |hits| == |ports| && NoneIn(ports, hits, done)
    ensures forall j :: IsHit(hits, j) ==> ports[j].sector !in done
  {
  }

  lemma FirstFrontier(n: nat, marks: seq<bool>, dist: map<nat, nat>, from: nat)
    requires from < n == |marks| && forall v: nat :: v in dist <==> v < n
    requires forall v: nat :: v < n ==> dist[v] == (if v == from then 0 else MAX_INT) && marks[v] == (v == from)
    ensures Frontier(n, marks, {}, dist, [Node(from, 0)], 0)
  {
    assert [Node(from, 0)][0].sec == from;
  }

  /**
    * The nearest port wanted: a port that matches, the first listed in its sector, at the smallest distance of
    * all that can be reached. Nothing is found exactly when none can be.
    */
  method NearestPort(sectors: seq<Sector>, ports: seq<Port>, from: int, want: Want)
    returns (sector: nat, distance: nat, name: string, found: bool)
    requires Charted(sectors) && |sectors| < MAX_INT
    ensures found <==> 1 <= from < |sectors| && exists k :: IsHit(Hits(ports, want), k) && Reachable(ChartOf(sectors), from, ports[k].sector)
    ensures found ==> IsNearest(ChartOf(sectors), ports, Hits(ports, want), from, sector, distance)
    ensures found ==> exists k :: FirstHere(ports, Hits(ports, want), sector, k) && name == ports[k].name
  {
    hide IsNearest, Reachable, Distance;
    if from < 1 || from >= |sectors| {
      return 0, 0, "", false;
    }
    var k;
    sector, distance, k := SearchPorts(sectors, ChartOf(sectors), ports, from, want, Hits(ports, want));
    if k == -1 {
      return 0, 0, "", false;
    }
    NearestReached(ChartOf(sectors), ports, Hits(ports, want), from, sector, distance);
    assert IsHit(Hits(ports, want), k);
    return sector, distance, ports[k].name, true;
  }

  lemma NearestReached(g: Chart, ports: seq<Port>, hits: seq<bool>, from: nat, sector: nat, distance: nat)
    requires |hits| == |ports| && IsNearest(g, ports, hits, from, sector, distance)
    ensures Reachable(g, from, sector) && Distance(g, from, sector, distance)
  {
    DistanceMeansReachable(g, from, sector, distance);
  }

  /** The computer and the autopilot agree: the course laid in for the nearest port is as long as reported. */
  method CourseToNearest(sectors: seq<Sector>, ports: seq<Port>, from: int, want: Want) returns (course: Option<seq<nat>>, distance: nat)
    requires Charted(sectors) && |sectors| < MAX_INT
    requires forall k :: 0 <= k < |ports| ==> 1 <= ports[k].sector < |sectors|
    ensures course.Some? <==> 1 <= from < |sectors| && exists k :: IsHit(Hits(ports, want), k) && Reachable(ChartOf(sectors), from, ports[k].sector)
    ensures course.Some? ==> |course.value| - 1 == distance
  {
    hide IsNearest, Reachable, Distance, Joins;
    var sector, name, found;
    sector, distance, name, found := NearestPort(sectors, ports, from, want);
    if !found {
      return None, 0;
    }
    NearestReached(ChartOf(sectors), ports, Hits(ports, want), from, sector, distance);
    course := ShortestPathTo(sectors, from, sector);
    DistanceIsUnique(ChartOf(sectors), from, sector, |course.value| - 1, distance);
  }
}
