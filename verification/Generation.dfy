/** Laying out a galaxy, and making sure all of it can be reached (init.go:49-209). */
module Generation {
  import opened Sectors
  import opened Graphs
  import opened Links
  import opened Battle

  // ----- Breadth-first marking

  /** Every marked sector's warps lead to marked sectors, but for the sectors named. */
  ghost predicate ClosedBut(g: Chart, marks: seq<bool>, open: seq<nat>) {
    && |marks| == |g|
    && forall v, x :: 0 <= v < |g| && marks[v] && v !in open && x in g[v] && x < |g| ==> marks[x]
  }

  ghost predicate Closed(g: Chart, marks: seq<bool>) {
    ClosedBut(g, marks, [])
  }

  ghost function Unmarked(marks: seq<bool>): set<nat> {
    set v: nat | v < |marks| && !marks[v]
  }

  ghost predicate MoreMarked(before: seq<bool>, after: seq<bool>) {
    |after| == |before| && forall v :: 0 <= v < |before| && before[v] ==> after[v]
  }

  /** Follow one sector's warps, marking what was not marked and putting it on the queue. */
  method Follow(warps: seq<nat>, ghost g: Chart, reachable: array<bool>, ghost start: nat, current: nat, queue0: seq<nat>)
    returns (queue: seq<nat>)
    requires ValidChart(g) && reachable.Length == |g| && current < |g| && warps == g[current]
    requires reachable[current] && Reachable(g, start, current)
    requires ClosedBut(g, reachable[..], queue0 + [current]) && forall v :: v in queue0 ==> v < |g| && reachable[v]
    modifies reachable
    ensures MoreMarked(old(reachable[..]), reachable[..]) && ClosedBut(g, reachable[..], queue)
    ensures forall v :: v in queue ==> v < |g| && reachable[v] && (v in queue0 || !old(reachable[v]))
    ensures forall v: nat :: v < |g| && reachable[v] && !old(reachable[v]) ==> Reachable(g, start, v)
    ensures reachable[..] == old(reachable[..]) ==> |queue| == |queue0|
  {
    hide Reachable;
    queue := queue0;
    for i := 0 to |warps|
      invariant MoreMarked(old(reachable[..]), reachable[..])
      invariant queue0 <= queue && forall v :: v in queue ==> v < |g| && reachable[v] && (v in queue0 || !old(reachable[v]))
      invariant ClosedBut(g, reachable[..], queue + [current])
      invariant forall k :: 0 <= k < i ==> warps[k] < |g| && reachable[warps[k]]
      invariant forall v: nat :: v < |g| && reachable[v] && !old(reachable[v]) ==> Reachable(g, start, v)
      invariant reachable[..] == old(reachable[..]) ==> queue == queue0
    {
      var w := warps[i];
      assert w in g[current];
      if w >= 1 && w < reachable.Length && !reachable[w] {
        OneFurther(g, start, current, w);
        reachable[w] := true;
        queue := queue + [w];
      }
    }
  }

  lemma OneFurther(g: Chart, start: nat, current: nat, w: nat)
    requires Reachable(g, start, current) && w in g[current] && w < |g|
    ensures Reachable(g, start, w)
  {
    var p :| Joins(g, p, start, current);
    Extended(g, p, start, current, w);
  }

  /** Mark everything that can be reached from the start and was not marked before. */
  method Explore(sectors: seq<Sector>, ghost g: Chart, reachable: array<bool>, start: nat)
    requires ValidChart(g) && |g| == |sectors| == reachable.Length && 1 <= start < |g|
    requires forall i :: 0 <= i < |sectors| ==> sectors[i].warps == g[i]
    requires forall v, x :: 0 <= v < |g| && reachable[v] && x in g[v] && x < |g| ==> reachable[x] || x == start
    modifies reachable
    ensures MoreMarked(old(reachable[..]), reachable[..]) && Closed(g, reachable[..]) && reachable[start]
    ensures forall v: nat :: v < |g| && reachable[v] && !old(reachable[v]) ==> Reachable(g, start, v)
  {
    hide Reachable;
    var queue: seq<nat> := [start];
    StartsAt(g, start);
    reachable[start] := true;
    while queue != []
      invariant MoreMarked(old(reachable[..]), reachable[..]) && reachable[start]
      invariant ClosedBut(g, reachable[..], queue)
      invariant forall v :: v in queue ==> v < |g| && reachable[v] && Reachable(g, start, v)
      invariant forall v: nat :: v < |g| && reachable[v] && !old(reachable[v]) ==> Reachable(g, start, v)
      decreases Unmarked(reachable[..]), |queue|
    {
      ghost var marks, whole := reachable[..], queue;
      var current := queue[0];
      queue := queue[1..];
      assert whole == [current] + queue && current in whole;
      assert forall v :: v in queue ==> v in whole;
      queue := Follow(sectors[current].warps, g, reachable, start, current, queue);
      FewerUnmarked(marks, reachable[..]);
    }
  }

  lemma FewerUnmarked(before: seq<bool>, after: seq<bool>)
    requires MoreMarked(before, after)
    ensures Unmarked(after) <= Unmarked(before)
    ensures Unmarked(after) == Unmarked(before) ==> after == before
  {
    if after != before {
      var v :| 0 <= v < |before| && after[v] != before[v];
      assert v in Unmarked(before) && v !in Unmarked(after);
    }
  }

  // ----- Repairing connectivity

  /** Warps were only added, and only in pairs. */
  ghost predicate Grew(g: Chart, h: Chart) {
    && |h| == |g|
    && (forall v, x :: 0 <= v < |g| && x in g[v] ==> x in h[v])
    && (forall v, x {:trigger x in h[v]} :: 0 <= v < |g| && x in h[v] && x !in g[v] ==> x < |h| && v in h[x])
  }

  lemma GrewOn(g: Chart, h: Chart, k: Chart, s: nat, t: nat)
    requires Grew(g, h) && TwoWay(h, k, s, t, true)
    ensures Grew(g, k)
  {
    forall v, x | 0 <= v < |g| && x in g[v] ensures x in k[v] {
      AddedPair(h, k, s, t, v, x);
    }
    forall v, x | 0 <= v < |g| && x in k[v] && x !in g[v] ensures x < |k| && v in k[x] {
      AddedPair(h, k, s, t, v, x);
      if x in h[v] {
        assert x < |h| && v in h[x];
        AddedPair(h, k, s, t, x, v);
      }
    }
  }

  /** What the new pair of warps adds to a sector's list, whichever the sector. */
  lemma AddedPair(h: Chart, k: Chart, s: nat, t: nat, v: nat, x: nat)
    requires TwoWay(h, k, s, t, true) && v < |h|
    ensures x in k[v] <==> x in h[v] || (v == s && x == t) || (v == t && x == s)
  {
  }

  lemma PathsGrow(g: Chart, h: Chart, a: nat, b: nat)
    requires Grew(g, h) && Reachable(g, a, b)
    ensures Reachable(h, a, b)
  {
    var p :| Joins(g, p, a, b);
    PathsSurvive(g, h, p);
    assert Joins(h, p, a, b);
  }

  /** Every sector can be reached from the first. */
  ghost predicate Connected(g: Chart) {
    forall v: nat :: 1 <= v < |g| ==> Reachable(g, 1, v)
  }

  /** What is not marked cannot be reached. */
  lemma Stranded(g: Chart, marks: seq<bool>, s: nat)
    requires ValidChart(g) && Closed(g, marks) && marks[1] && s < |g| && !marks[s]
    ensures !Reachable(g, 1, s) && (s >= 1 ==> !Connected(g))
  {
    var inside := set v: nat | v < |g| && marks[v];
    forall p | Joins(g, p, 1, s) ensures false {
      assert forall v, x :: v in inside && v < |g| && x in g[v] ==> x in inside;
      PathsStayInside(g, inside, p);
    }
  }

  ghost predicate MarksReached(g: Chart, marks: seq<bool>) {
    |marks| == |g| && forall v: nat :: v < |g| && marks[v] ==> Reachable(g, 1, v)
  }

  /** The new pair of warps brings in all that the stranded sector leads to. */
  lemma Relinked(g: Chart, h: Chart, marks: seq<bool>, after: seq<bool>, s: nat, t: nat)
    requires TwoWay(g, h, s, t, true) && MarksReached(g, marks) && t < |g| && marks[t] && |after| == |g|
    requires forall v: nat :: v < |g| && after[v] && !marks[v] ==> Reachable(h, s, v)
    ensures MarksReached(h, after)
  {
    forall v: nat | v < |g| && after[v] ensures Reachable(h, 1, v) {
      Self(g, h, s, t);
      if marks[v] {
        PathsGrow(g, h, 1, v);
      } else {
        PathsGrow(g, h, 1, t);
        OneFurther(h, 1, t, s);
        ReachableThrough(h, 1, s, v);
      }
    }
  }

  lemma Self(g: Chart, h: Chart, s: nat, t: nat)
    requires TwoWay(g, h, s, t, true)
    ensures Grew(g, h)
  {
  }

  /** Some sector that the search has already reached, whichever it is. */
  method PickReached(reachable: array<bool>) returns (t: nat)
    requires reachable.Length >= 2 && reachable[1]
    ensures 1 <= t < reachable.Length && reachable[t]
  {
    t :| 1 <= t < reachable.Length && reachable[t];
  }

  /** One stranded sector is linked to a sector already reached, and brings in all that it leads to. */
  method RelinkOne(sectors: seq<Sector>, ghost g: Chart, reachable: array<bool>, s: nat)
    requires Charted(sectors)
    requires Grew(g, ChartOf(sectors)) && reachable.Length == |sectors| && 2 <= s < |sectors| && !reachable[s] && reachable[1]
    requires Closed(ChartOf(sectors), reachable[..]) && MarksReached(ChartOf(sectors), reachable[..])
    modifies reachable, set s | s in sectors
    ensures Charted(sectors) && Grew(g, ChartOf(sectors))
    ensures Tidy(old(ChartOf(sectors))) ==> Tidy(ChartOf(sectors))
    ensures NoLoops(old(ChartOf(sectors))) ==> NoLoops(ChartOf(sectors))
    ensures LoopsKept(old(ChartOf(sectors)), ChartOf(sectors))
    ensures Closed(ChartOf(sectors), reachable[..]) && MarksReached(ChartOf(sectors), reachable[..])
    ensures MoreMarked(old(reachable[..]), reachable[..]) && reachable[s]
    ensures exists t: nat :: MendedAt(old(ChartOf(sectors)), ChartOf(sectors), s, t)
  {
    hide Charted, Tidy, NoLoops, TwoWay, Reachable, Grew, ChartOf, Closed, MarksReached, LoopsKept;
    var t := PickReached(reachable);
    ghost var h, marks := ChartOf(sectors), reachable[..];
    Lists(sectors);
    SetWarps(sectors, s, t, true);
    ghost var k := ChartOf(sectors);
    Lists(sectors);
    GrewOn(g, h, k, s, t);
    NoNewLoop(h, k, s, t);
    AlmostClosed(h, k, marks, s, t);
    Explore(sectors, k, reachable, s);
    Relinked(h, k, marks, reachable[..], s, t);
    Stranded(h, marks, s);
    Marked(h, marks, t);
    assert MendedAt(h, k, s, t);
  }

  lemma Marked(g: Chart, marks: seq<bool>, t: nat)
    requires MarksReached(g, marks) && t < |g| && marks[t]
    ensures Reachable(g, 1, t)
  {
  }

  /** A sector that could not be reached from the first was linked with one that could. */
  ghost predicate MendedAt(g: Chart, h: Chart, s: nat, t: nat) {
    1 <= s < |g| && 1 <= t < |g| && !Reachable(g, 1, s) && Reachable(g, 1, t) && TwoWay(g, h, s, t, true)
  }

  /** That many such links, one after another. */
  ghost predicate Mended(g: Chart, h: Chart, n: nat)
    decreases n
  {
    if n == 0 then h == g
    else exists mid: Chart, s: nat, t: nat :: Mended(g, mid, n - 1) && MendedAt(mid, h, s, t)
  }

  lemma OneMoreMend(g: Chart, mid: Chart, h: Chart, n: nat)
    requires Mended(g, mid, n) && exists s: nat, t: nat :: MendedAt(mid, h, s, t)
    ensures Mended(g, h, n + 1)
  {
    hide MendedAt;
  }

  /** A sector leads to itself just when it did. */
  ghost predicate LoopsKept(g: Chart, h: Chart) {
    |h| == |g| && forall v :: 0 <= v < |g| ==> (v in h[v] <==> v in g[v])
  }

  lemma NoNewLoop(g: Chart, h: Chart, s: nat, t: nat)
    requires TwoWay(g, h, s, t, true) && s != t
    ensures LoopsKept(g, h)
  {
  }

  lemma LoopsKeptOn(g: Chart, h: Chart, k: Chart)
    requires LoopsKept(g, h) && LoopsKept(h, k)
    ensures LoopsKept(g, k)
  {
  }

  /**
    * Every sector that cannot be reached from the first is linked, both ways, to one that can. Afterwards all can be
    * reached, and no warp was removed. No sector leads back to itself that did not before, and where lists were sorted
    * without duplicates they still are. A galaxy already connected is left alone.
    */
  method RepairConnectivity(sectors: seq<Sector>) returns (relinked: nat)
    requires Charted(sectors)
    modifies set s | s in sectors
    ensures Charted(sectors) && Connected(ChartOf(sectors))
    ensures Grew(old(ChartOf(sectors)), ChartOf(sectors))
    ensures Tidy(old(ChartOf(sectors))) ==> Tidy(ChartOf(sectors))
    ensures NoLoops(old(ChartOf(sectors))) ==> NoLoops(ChartOf(sectors))
    ensures LoopsKept(old(ChartOf(sectors)), ChartOf(sectors))
    ensures relinked == 0 <==> old(Connected(ChartOf(sectors)))
    ensures relinked == 0 ==> ChartOf(sectors) == old(ChartOf(sectors))
    ensures relinked <= |sectors| - 2
    ensures Mended(old(ChartOf(sectors)), ChartOf(sectors), relinked)
  {
    hide Mended, MendedAt, Charted, Tidy, NoLoops, TwoWay, Reachable, Grew, ChartOf, Closed, MarksReached, Connected, ValidChart, LoopsKept;
    ghost var g := ChartOf(sectors);
    Lists(sectors);
    var reachable := new bool[|sectors|](i => false);
    assert forall v :: 0 <= v < |g| ==> !reachable[v];
    Explore(sectors, g, reachable, 1);
    FirstMarks(g, reachable[..]);
    Unlinked(g);
    Lists(sectors);
    NoMend(g);
    relinked := 0;
    for s: nat := 2 to |sectors|
      invariant Charted(sectors)
      invariant Tidy(g) ==> Tidy(ChartOf(sectors))
      invariant NoLoops(g) ==> NoLoops(ChartOf(sectors))
      invariant LoopsKept(g, ChartOf(sectors))
      invariant Grew(g, ChartOf(sectors)) && |ChartOf(sectors)| == |sectors|
      invariant Closed(ChartOf(sectors), reachable[..]) && MarksReached(ChartOf(sectors), reachable[..])
      invariant reachable[1] && forall v :: 1 <= v < s ==> reachable[v]
      invariant relinked <= s - 2
      invariant relinked == 0 ==> ChartOf(sectors) == g
      invariant relinked > 0 ==> !Connected(g)
      invariant Mended(g, ChartOf(sectors), relinked)
    {
      if !reachable[s] {
        Lists(sectors);
        Stranded(ChartOf(sectors), reachable[..], s);
        ghost var h := ChartOf(sectors);
        RelinkOne(sectors, g, reachable, s);
        LoopsKeptOn(g, h, ChartOf(sectors));
        OneMoreMend(g, h, ChartOf(sectors), relinked);
        relinked := relinked + 1;
      }
    }
    AllReached(ChartOf(sectors), reachable[..]);
  }

  lemma NoMend(g: Chart)
    ensures Mended(g, g, 0)
  {
  }

  lemma Unlinked(g: Chart)
    requires ValidChart(g)
    ensures Grew(g, g) && LoopsKept(g, g)
  {
  }

  lemma FirstMarks(g: Chart, marks: seq<bool>)
    requires |marks| == |g| && forall v: nat :: v < |g| && marks[v] ==> Reachable(g, 1, v)
    ensures MarksReached(g, marks)
  {
  }

  lemma AlmostClosed(g: Chart, h: Chart, marks: seq<bool>, s: nat, t: nat)
    requires Closed(g, marks) && TwoWay(g, h, s, t, true) && !marks[s]
    ensures forall v, x :: 0 <= v < |h| && marks[v] && x in h[v] && x < |h| ==> marks[x] || x == s
  {
  }

  lemma AllReached(g: Chart, marks: seq<bool>)
    requires MarksReached(g, marks) && forall v :: 1 <= v < |g| ==> marks[v]
    ensures Connected(g)
  {
  }

  // ----- What each stage of the layout makes of the galaxy

  /** Every sector leads to the one before it and the one after it, and to no other. */
  ghost predicate IsChain(g: Chart, numsec: nat) {
    && |g| == numsec + 1
    && forall i, x :: 0 <= i <= numsec ==> (x in g[i] <==> i >= 1 && 1 <= x <= numsec && (x == i - 1 || x == i + 1))
  }

  /** The first sector is linked with each of sectors 2 to n. */
  ghost predicate Hub(g: Chart, h: Chart, n: nat)
    decreases n
  {
    if n < 2 then h == g else exists mid: Chart :: Hub(g, mid, n - 1) && TwoWay(mid, h, 1, n, true)
  }

  /** Two sectors of the same hundred are linked. */
  ghost predicate Neighbours(g: Chart, h: Chart, a: nat, b: nat) {
    1 <= a < |g| && 1 <= b < |g| && a != b && a / 100 == b / 100 && TwoWay(g, h, a, b, true)
  }

  ghost predicate Neighbourly(g: Chart, h: Chart, n: nat)
    decreases n
  {
    if n == 0 then h == g
    else exists mid: Chart, a: nat, b: nat :: Neighbourly(g, mid, n - 1) && Neighbours(mid, h, a, b)
  }

  /** A warp is cut at one end, and the end linked with some sector instead, unless the dice point back at it. */
  ghost predicate Rerouted(g: Chart, h: Chart, from: nat, away: nat) {
    exists mid: Chart, to: nat :: ReroutedTo(g, mid, h, from, away, to)
  }

  ghost predicate ReroutedTo(g: Chart, mid: Chart, h: Chart, from: nat, away: nat, to: nat) {
    1 <= to < |g| && OneWay(g, mid, from, away, false) && if to == from then h == mid else TwoWay(mid, h, from, to, true)
  }

  /** Both ends of one of a sector's first two warps are rerouted; a sector with fewer is left alone. */
  ghost predicate RelinkedAt(g: Chart, h: Chart, b: nat) {
    && 1 <= b < |g|
    && if |g[b]| < 2 then h == g
       else exists mid: Chart, j :: 0 <= j < 2 && Rerouted(g, mid, b, g[b][j]) && Rerouted(mid, h, g[b][j], b)
  }

  ghost predicate RelinkRun(g: Chart, h: Chart, n: nat)
    decreases n
  {
    if n == 0 then h == g else exists mid: Chart, b: nat :: RelinkRun(g, mid, n - 1) && RelinkedAt(mid, h, b)
  }

  /** The sector leads nowhere, and none of those it led to leads to it. */
  ghost predicate Isolated(g: Chart, h: Chart, s: nat) {
    && |h| == |g| && s < |g| && h[s] == []
    && forall i, y :: 0 <= i < |g| && i != s ==> (y in h[i] <==> y in g[i] && (y != s || i !in g[s]))
  }

  /** Of the sector's links one is left, and that goes both ways; a sector without is left alone. */
  ghost predicate OneLinkLeft(g: Chart, h: Chart, s: nat) {
    && s < |g|
    && if g[s] == [] then h == g
       else exists mid: Chart, dest :: dest in g[s] && dest < |g| && Isolated(g, mid, s) && TwoWay(mid, h, s, dest, true)
  }

  /** That many sectors past the twentieth were made dead ends, one after another. */
  ghost predicate DeadEnds(g: Chart, h: Chart, n: nat)
    decreases n
  {
    if n == 0 then h == g else exists mid: Chart, s: nat :: DeadEnds(g, mid, n - 1) && s > 20 && OneLinkLeft(mid, h, s)
  }

  /** A galaxy that came about by all the stages, in order. */
  ghost predicate LaidOut(numsec: nat, g: Chart) {
    exists a: Chart, b: Chart, c: Chart, d: Chart, e: Chart, n: nat ::
      && IsChain(a, numsec) && Hub(a, b, 9) && Neighbourly(b, c, numsec / 2) && RelinkRun(c, d, 250)
      && DeadEnds(d, e, numsec * 20 / 2000) && Mended(e, g, n)
  }

  lemma LinkedOn(g: Chart, mid: Chart, h: Chart, n: nat)
    ensures Hub(g, mid, n) && n >= 1 && TwoWay(mid, h, 1, n + 1, true) ==> Hub(g, h, n + 1)
    ensures Neighbourly(g, mid, n) && (exists a: nat, b: nat :: Neighbours(mid, h, a, b)) ==> Neighbourly(g, h, n + 1)
    ensures RelinkRun(g, mid, n) && (exists b: nat :: RelinkedAt(mid, h, b)) ==> RelinkRun(g, h, n + 1)
    ensures DeadEnds(g, mid, n) && (exists s: nat :: s > 20 && OneLinkLeft(mid, h, s)) ==> DeadEnds(g, h, n + 1)
  {
    hide TwoWay, Neighbours, RelinkedAt, OneLinkLeft;
  }

  lemma NothingLinked(g: Chart)
    ensures Hub(g, g, 1) && Neighbourly(g, g, 0) && RelinkRun(g, g, 0) && DeadEnds(g, g, 0)
  {
  }

  // ----- Generating a galaxy

  /** A chain of sectors, each linked with the next. */
  method Chain(numsec: nat) returns (sectors: seq<Sector>)
    requires numsec >= 1
    ensures |sectors| == numsec + 1 && Charted(sectors) && Tidy(ChartOf(sectors)) && NoLoops(ChartOf(sectors))
    ensures fresh(set s | s in sectors)
    ensures IsChain(ChartOf(sectors), numsec)
  {
    sectors := [];
    for i: nat := 0 to numsec + 1
      invariant |sectors| == i && fresh(set s | s in sectors)
      invariant forall k :: 0 <= k < i ==> sectors[k].number == k && Increasing(sectors[k].warps)
      invariant forall k, x :: 0 <= k < i ==> (x in sectors[k].warps <==> k >= 1 && 1 <= x <= numsec && (x == k - 1 || x == k + 1))
    {
      var sec := new Sector(i);
      if i > 1 {
        sec.AddWarp(i - 1);
      }
      if i >= 1 && i < numsec {
        sec.AddWarp(i + 1);
      }
      sectors := sectors + [sec];
    }
  }

  /** The sectors of a galaxy under construction. */
  ghost predicate Sketched(sectors: seq<Sector>)
    reads sectors
  {
    Charted(sectors) && Tidy(ChartOf(sectors)) && NoLoops(ChartOf(sectors))
  }

  /** Half as many extra links as there are sectors, each within one hundred. */
  method LinkNeighbourhoods(sectors: seq<Sector>)
    requires Sketched(sectors) && |sectors| >= 3
    modifies set s | s in sectors
    ensures Sketched(sectors) && Neighbourly(old(ChartOf(sectors)), ChartOf(sectors), (|sectors| - 1) / 2)
  {
    hide Neighbourly, TwoWay, Charted, Tidy, NoLoops, ChartOf;
    ghost var g := ChartOf(sectors);
    NothingLinked(g);
    var numsec := |sectors| - 1;
    for a := 1 to numsec / 2 + 1
      invariant Sketched(sectors) && Neighbourly(g, ChartOf(sectors), a - 1)
    {
      ghost var mid := ChartOf(sectors);
      assert 1 != 2 && 1 / 100 == 2 / 100;
      var first: nat, second: nat :| 1 <= first <= numsec && 1 <= second <= numsec && first != second && first / 100 == second / 100;
      SetWarps(sectors, first, second, true);
      assert Neighbours(mid, ChartOf(sectors), first, second);
      LinkedOn(g, mid, ChartOf(sectors), a - 1);
    }
  }

  /** Links rerouted at random, which may leave some of them one-way. */
  method Relink(sectors: seq<Sector>)
    requires Sketched(sectors)
    modifies set s | s in sectors
    ensures Sketched(sectors) && RelinkRun(old(ChartOf(sectors)), ChartOf(sectors), 250)
  {
    hide RelinkRun, Rerouted, Charted, Tidy, NoLoops, ChartOf;
    ghost var g := ChartOf(sectors);
    NothingLinked(g);
    var numsec := |sectors| - 1;
    for a := 1 to 251
      invariant Sketched(sectors) && RelinkRun(g, ChartOf(sectors), a - 1)
    {
      ghost var mid := ChartOf(sectors);
      Lists(sectors);
      var b := Roll(numsec);
      b := b + 1;
      if |sectors[b].warps| >= 2 {
        var j := Roll(2);
        var c := sectors[b].warps[j];
        Leads(sectors, b, c);
        Reroute(sectors, b, c);
        ghost var half := ChartOf(sectors);
        Reroute(sectors, c, b);
        assert Rerouted(mid, half, b, mid[b][j]) && Rerouted(half, ChartOf(sectors), mid[b][j], b);
      }
      assert RelinkedAt(mid, ChartOf(sectors), b);
      LinkedOn(g, mid, ChartOf(sectors), a - 1);
    }
  }

  lemma Leads(sectors: seq<Sector>, b: nat, c: nat)
    requires Sketched(sectors) && b < |sectors| && c in sectors[b].warps
    ensures 1 <= c < |sectors| && c != b
  {
    assert c in ChartOf(sectors)[b];
  }

  /** One end of a link is moved to some other sector. */
  method Reroute(sectors: seq<Sector>, from: nat, away: nat)
    requires Sketched(sectors) && 1 <= from < |sectors| && 1 <= away < |sectors| && from != away
    modifies set s | s in sectors
    ensures Sketched(sectors) && Rerouted(old(ChartOf(sectors)), ChartOf(sectors), from, away)
  {
    hide Charted, Tidy, NoLoops, ChartOf, OneWay, TwoWay;
    var g := Roll(|sectors| - 1);
    g := g + 1;
    ghost var before := ChartOf(sectors);
    SetWarp(sectors, from, away, false);
    ghost var mid := ChartOf(sectors);
    if g != from {
      SetWarps(sectors, from, g, true);
    }
    assert ReroutedTo(before, mid, ChartOf(sectors), from, away, g);
  }

  /** Dead ends: sectors beyond the twentieth keep one link only. */
  method MakeDeadEnds(sectors: seq<Sector>)
    requires Sketched(sectors)
    modifies set s | s in sectors
    ensures Sketched(sectors) && DeadEnds(old(ChartOf(sectors)), ChartOf(sectors), (|sectors| - 1) * 20 / 2000)
  {
    hide DeadEnds, OneLinkLeft, Charted, Tidy, NoLoops, ChartOf;
    ghost var g := ChartOf(sectors);
    NothingLinked(g);
    Lists(sectors);
    var numsec := |sectors| - 1;
    for a := 1 to numsec * 20 / 2000 + 1
      invariant Sketched(sectors) && DeadEnds(g, ChartOf(sectors), a - 1)
    {
      ghost var mid := ChartOf(sectors);
      var secnum := Roll(numsec - 20);
      KeepOneLink(sectors, secnum + 21);
      LinkedOn(g, mid, ChartOf(sectors), a - 1);
    }
  }

  /** A sector with links keeps just one of them, and that one goes both ways; one without is left alone. */
  method KeepOneLink(sectors: seq<Sector>, secnum: nat)
    requires Sketched(sectors) && 1 <= secnum < |sectors|
    modifies set s | s in sectors
    ensures Sketched(sectors)
    ensures old(sectors[secnum].warps) == [] ==> ChartOf(sectors) == old(ChartOf(sectors))
    ensures old(sectors[secnum].warps) != [] ==>
              exists dest :: dest in old(sectors[secnum].warps) && dest < |sectors|
                             && sectors[secnum].warps == [dest] && secnum in sectors[dest].warps
    ensures OneLinkLeft(old(ChartOf(sectors)), ChartOf(sectors), secnum)
  {
    if |sectors[secnum].warps| > 0 {
      var warpToKeep := Roll(|sectors[secnum].warps|);
      var destToKeep := sectors[secnum].warps[warpToKeep];
      Leads(sectors, secnum, destToKeep);
      ghost var before := ChartOf(sectors);
      Isolate(sectors, secnum);
      ghost var g := ChartOf(sectors);
      SetWarps(sectors, secnum, destToKeep, true);
      assert destToKeep in before[secnum] && Isolated(before, g, secnum) && TwoWay(g, ChartOf(sectors), secnum, destToKeep, true);
      OnlyLink(g, ChartOf(sectors), secnum, destToKeep);
    }
  }

  lemma OnlyLink(g: Chart, h: Chart, a: nat, b: nat)
    requires TwoWay(g, h, a, b, true) && g[a] == []
    ensures h[a] == [b] && a in h[b]
  {
    assert b in h[a];
  }

  method Isolate(sectors: seq<Sector>, secnum: nat)
    requires Sketched(sectors) && 1 <= secnum < |sectors|
    modifies set s | s in sectors
    ensures Sketched(sectors) && sectors[secnum].warps == []
    ensures Isolated(old(ChartOf(sectors)), ChartOf(sectors), secnum)
  {
    ghost var start := ChartOf(sectors);
    while |sectors[secnum].warps| > 0
      invariant Sketched(sectors) && Isolating(start, ChartOf(sectors), secnum)
      decreases |sectors[secnum].warps|
    {
      var dest := sectors[secnum].warps[0];
      Leads(sectors, secnum, dest);
      ghost var g := ChartOf(sectors);
      SetWarp(sectors, secnum, dest, false);
      ghost var h := ChartOf(sectors);
      SetWarp(sectors, dest, secnum, false);
      assert |h[secnum]| < |g[secnum]| && ChartOf(sectors)[secnum] == h[secnum];
      IsolatingOn(start, g, h, ChartOf(sectors), secnum, dest);
    }
  }

  /** Some of its links are gone, both ways; no other warp is. */
  ghost predicate Isolating(g: Chart, h: Chart, s: nat) {
    && |h| == |g| && s < |g|
    && (forall y :: y in h[s] ==> y in g[s])
    && forall i, y :: 0 <= i < |g| && i != s ==> (y in h[i] <==> y in g[i] && (y != s || i !in g[s] || i in h[s]))
  }

  lemma IsolatingOn(start: Chart, g: Chart, h: Chart, k: Chart, s: nat, dest: nat)
    requires Isolating(start, g, s) && Tidy(g) && Tidy(h) && dest in g[s] && dest < |g| && dest != s
    requires OneWay(g, h, s, dest, false) && OneWay(h, k, dest, s, false)
    ensures Isolating(start, k, s)
  {
  }

  /** A whole galaxy, stage by stage: however the dice fall, every sector can be reached from the first. */
  method Generate(numsec: nat) returns (sectors: seq<Sector>)
    requires numsec >= 9
    ensures |sectors| == numsec + 1 && Charted(sectors) && Tidy(ChartOf(sectors)) && NoLoops(ChartOf(sectors))
    ensures Connected(ChartOf(sectors))
    ensures fresh(set s | s in sectors)
    ensures LaidOut(numsec, ChartOf(sectors))
  {
    hide IsChain, Hub, Neighbourly, RelinkRun, DeadEnds, Mended, Charted, Tidy, NoLoops, ChartOf, TwoWay, Connected, Grew, LoopsKept;
    sectors := Chain(numsec);
    ghost var a := ChartOf(sectors);
    NothingLinked(a);
    for i: nat := 2 to 10
      invariant Sketched(sectors) && Hub(a, ChartOf(sectors), i - 1)
    {
      ghost var mid := ChartOf(sectors);
      SetWarps(sectors, 1, i, true);
      LinkedOn(a, mid, ChartOf(sectors), i - 1);
    }
    ghost var b := ChartOf(sectors);
    LinkNeighbourhoods(sectors);
    ghost var c := ChartOf(sectors);
    Relink(sectors);
    ghost var d := ChartOf(sectors);
    MakeDeadEnds(sectors);
    ghost var e := ChartOf(sectors);
    var relinked := RepairConnectivity(sectors);
    assert IsChain(a, numsec) && Hub(a, b, 9) && Neighbourly(b, c, numsec / 2) && RelinkRun(c, d, 250)
           && DeadEnds(d, e, numsec * 20 / 2000) && Mended(e, ChartOf(sectors), relinked);
  }
}
