/** Warps added to and cut out of a whole galaxy, one direction at a time (sector.go:25-51). */
module Links {
  import opened Sectors

  /** Warp lists are kept sorted and free of duplicates. */
  ghost predicate Tidy(g: Chart) {
    forall i :: 0 <= i < |g| ==> Increasing(g[i])
  }

  /** No sector holds a warp to itself. */
  ghost predicate NoLoops(g: Chart) {
    forall i :: 0 <= i < |g| ==> i !in g[i]
  }

  /** The first entry for x is gone, if there was one. */
  ghost predicate CutIn(before: seq<nat>, after: seq<nat>, x: nat) {
    if x in before then CutOut(before, after, x) else after == before
  }

  /** A warp list with x added, or with its first entry for x cut out; a list without duplicates then has no other. */
  ghost predicate Relisted(before: seq<nat>, after: seq<nat>, x: nat, link: bool) {
    && (forall y :: y != x ==> (y in after <==> y in before))
    && (if link then x in after else CutIn(before, after, x))
    && (!link && Increasing(before) ==> x !in after)
    && (Increasing(before) ==> Increasing(after))
    && (if link then |after| <= |before| + 1 else |after| == |before| - if x in before then 1 else 0)
  }

  /** One sector gained or lost the warp to another; every other warp is as it was. */
  ghost predicate OneWay(g: Chart, h: Chart, a: nat, b: nat, link: bool) {
    && |h| == |g| && a < |g|
    && (forall i :: 0 <= i < |g| && i != a ==> h[i] == g[i])
    && Relisted(g[a], h[a], b, link)
  }

  /** Two sectors gained or lost the warps between them; every other warp is as it was. */
  ghost predicate TwoWay(g: Chart, h: Chart, a: nat, b: nat, link: bool) {
    && |h| == |g| && a < |g| && b < |g|
    && (forall i :: 0 <= i < |g| && i != a && i != b ==> h[i] == g[i])
    && Relisted(g[a], h[a], b, link) && Relisted(g[b], h[b], a, link)
  }

  lemma BothWays(g: Chart, mid: Chart, h: Chart, a: nat, b: nat, link: bool)
    requires a != b && OneWay(g, mid, a, b, link) && OneWay(mid, h, b, a, link)
    ensures TwoWay(g, h, a, b, link)
  {
  }

  lemma StillValid(g: Chart, h: Chart, a: nat, b: nat, link: bool)
    requires ValidChart(g) && OneWay(g, h, a, b, link) && 1 <= b < |g|
    ensures ValidChart(h)
    ensures Tidy(g) ==> Tidy(h)
    ensures a != b && NoLoops(g) ==> NoLoops(h)
  {
    assert forall y :: y in h[a] ==> y == b || y in g[a];
  }

  /** The warp graph lists, sector by sector, what each sector does. */
  lemma Lists(sectors: seq<Sector>)
    ensures |ChartOf(sectors)| == |sectors| && forall i :: 0 <= i < |sectors| ==> ChartOf(sectors)[i] == sectors[i].warps
    ensures Charted(sectors) ==> ValidChart(ChartOf(sectors))
  {
  }

  /** Add the warp from a to b, or cut it. Lists in order stay in order, and no loop appears that was not asked for. */
  method SetWarp(sectors: seq<Sector>, a: nat, b: nat, link: bool)
    requires Charted(sectors) && a < |sectors| && 1 <= b < |sectors|
    modifies sectors[a]
    ensures Charted(sectors)
    ensures OneWay(old(ChartOf(sectors)), ChartOf(sectors), a, b, link)
    ensures Tidy(old(ChartOf(sectors))) ==> Tidy(ChartOf(sectors))
    ensures a != b && NoLoops(old(ChartOf(sectors))) ==> NoLoops(ChartOf(sectors))
  {
    ghost var g := ChartOf(sectors);
    if link {
      sectors[a].AddWarp(b);
      OneLonger(g[a], sectors[a].warps, b);
    } else {
      sectors[a].RemoveWarp(b);
      Shorter(g[a], sectors[a].warps, b);
    }
    ghost var h := ChartOf(sectors);
    assert OneWay(g, h, a, b, link);
    StillValid(g, h, a, b, link);
  }

  /** Add the warps between a and b, or cut them. */
  method SetWarps(sectors: seq<Sector>, a: nat, b: nat, link: bool)
    requires Charted(sectors) && 1 <= a < |sectors| && 1 <= b < |sectors| && a != b
    modifies sectors[a], sectors[b]
    ensures Charted(sectors)
    ensures TwoWay(old(ChartOf(sectors)), ChartOf(sectors), a, b, link)
    ensures Tidy(old(ChartOf(sectors))) ==> Tidy(ChartOf(sectors))
    ensures NoLoops(old(ChartOf(sectors))) ==> NoLoops(ChartOf(sectors))
  {
    hide Charted, Tidy, ChartOf, NoLoops, OneWay;
    ghost var g := ChartOf(sectors);
    SetWarp(sectors, a, b, link);
    ghost var mid := ChartOf(sectors);
    SetWarp(sectors, b, a, link);
    BothWays(g, mid, ChartOf(sectors), a, b, link);
  }

  lemma OneLonger(before: seq<nat>, after: seq<nat>, x: nat)
    requires after == before || multiset(after) == multiset(before) + multiset{x}
    ensures |after| <= |before| + 1
  {
    assert |multiset(after)| == |after| && |multiset(before)| == |before|;
  }

  lemma Shorter(before: seq<nat>, after: seq<nat>, x: nat)
    requires CutIn(before, after, x)
    ensures |after| == |before| - if x in before then 1 else 0
    ensures forall y :: y != x ==> (y in after <==> y in before)
  {
    if x in before {
      var i :| 0 <= i < |before| && before[i] == x && x !in before[..i] && after == before[..i] + before[i + 1..];
      assert before == before[..i] + [x] + before[i + 1..];
    }
  }
}
