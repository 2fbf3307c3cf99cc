/** Sectors and their warp lists (sector.go). */
module Sectors {

  ghost predicate Sorted(s: seq<nat>) {
    forall i, j :: 0 <= i < j < |s| ==> s[i] <= s[j]
  }

  /** Sorted without duplicates. */
  ghost predicate Increasing(s: seq<nat>) {
    forall i, j :: 0 <= i < j < |s| ==> s[i] < s[j]
  }

  /** x placed before the first entry that is not smaller. */
  function Placed(s: seq<nat>, x: nat): seq<nat> {
    if s == [] then [x] else if x <= s[0] then [x] + s else [s[0]] + Placed(s[1..], x)
  }

  lemma {:induction false} PlacedIsAPermutation(s: seq<nat>, x: nat)
    ensures multiset(Placed(s, x)) == multiset(s) + multiset{x}
  {
    if s != [] {
      assert s == [s[0]] + s[1..];
      if x > s[0] {
        PlacedIsAPermutation(s[1..], x);
      }
    }
  }

  lemma {:induction false} PlacedIsSorted(s: seq<nat>, x: nat)
    requires Sorted(s)
    ensures Sorted(Placed(s, x))
  {
    if s != [] && x > s[0] {
      PlacedIsSorted(s[1..], x);
      PlacedIsAPermutation(s[1..], x);
      var rest := Placed(s[1..], x);
      forall i | 0 <= i < |rest| ensures s[0] <= rest[i] {
        assert rest[i] in multiset(rest);
        assert rest[i] == x || rest[i] in s[1..];
      }
    }
  }

  /** The library's in-place integer sort, as the list it leaves. */
  function SortInts(s: seq<nat>): (r: seq<nat>)
    ensures Sorted(r) && multiset(r) == multiset(s)
  {
    if s == [] then []
    else
      var sorted := SortInts(s[..|s| - 1]);
      PlacedIsSorted(sorted, s[|s| - 1]);
      PlacedIsAPermutation(sorted, s[|s| - 1]);
      assert s == s[..|s| - 1] + [s[|s| - 1]];
      Placed(sorted, s[|s| - 1])
  }

  class Sector {
    const number: nat
    var warps: seq<nat>

    constructor (number: nat)
      ensures this.number == number && warps == []
    {
      this.number, warps := number, [];
    }

    method HasWarp(warp: nat) returns (has: bool)
      ensures has <==> warp in warps
    {
      for i := 0 to |warps|
        invariant warp !in warps[..i]
      {
        if warps[i] == warp {
          return true;
        }
      }
      return false;
    }

    /** The destination joins the list, which stays sorted and free of duplicates; a known one changes nothing. */
    method AddWarp(warp: nat)
      modifies this`warps
      ensures forall x :: x in warps <==> x in old(warps) || x == warp
      ensures warp in old(warps) ==> warps == old(warps)
      ensures warp !in old(warps) ==> Sorted(warps) && multiset(warps) == multiset(old(warps)) + multiset{warp}
      ensures old(Increasing(warps)) ==> Increasing(warps)
    {
      var known := HasWarp(warp);
      if known {
        return;
      }
      ghost var before := warps;
      warps := SortInts(warps + [warp]);
      SameMembers(before, warp, warps);
    }

    /** The first entry for the destination is cut out; the others keep their order. */
    method RemoveWarp(warp: nat)
      modifies this`warps
      ensures warp !in old(warps) ==> warps == old(warps)
      ensures warp in old(warps) ==> CutOut(old(warps), warps, warp)
      ensures old(Increasing(warps)) ==> Increasing(warps) && forall x :: x in warps <==> x in old(warps) && x != warp
    {
      for i := 0 to |warps|
        invariant warps == old(warps) && warp !in warps[..i]
      {
        if warps[i] == warp {
          warps := warps[..i] + warps[i + 1..];
          return;
        }
      }
    }
  }

  ghost predicate CutOut(before: seq<nat>, after: seq<nat>, x: nat) {
    exists i :: 0 <= i < |before| && before[i] == x && x !in before[..i] && after == before[..i] + before[i + 1..]
  }

  lemma SameMembers(before: seq<nat>, warp: nat, after: seq<nat>)
    requires warp !in before && Sorted(after) && multiset(after) == multiset(before + [warp])
    ensures forall x :: x in after <==> x in before || x == warp
    ensures multiset(after) == multiset(before) + multiset{warp}
    ensures Increasing(before) ==> Increasing(after)
  {
    forall x ensures x in after <==> x in before || x == warp {
      assert x in after <==> x in multiset(after);
      assert x in before + [warp] <==> x in multiset(before + [warp]);
    }
    if Increasing(before) {
      forall i, j | 0 <= i < j < |after| ensures after[i] < after[j] {
        if after[i] == after[j] {
          Twice(after, i, j);
          Once(before + [warp], after[i]);
        }
      }
    }
  }

  lemma Twice(s: seq<nat>, i: nat, j: nat)
    requires i < j < |s| && s[i] == s[j]
    ensures multiset(s)[s[i]] >= 2
  {
    assert s == s[..j] + s[j..];
    assert s[i] in s[..j] && s[j] in s[j..];
  }

  lemma {:induction false} Once(s: seq<nat>, x: nat)
    requires forall i, j :: 0 <= i < j < |s| ==> s[i] != s[j]
    ensures multiset(s)[x] <= 1
  {
    if s != [] {
      Once(s[1..], x);
      assert s == [s[0]] + s[1..];
    }
  }

  /** The warp graph: the destinations listed in each sector, by sector number. */
  type Chart = seq<seq<nat>>

  ghost function ChartOf(sectors: seq<Sector>): (g: Chart)
    reads sectors
    ensures |g| == |sectors|
  {
    seq(|sectors|, i requires 0 <= i < |sectors| reads sectors => sectors[i].warps)
  }

  /** What loading a world checks: sectors are numbered by position and warps lead to sectors 1 to n. */
  ghost predicate Charted(sectors: seq<Sector>)
    reads sectors
  {
    && |sectors| >= 2
    && (forall i :: 0 <= i < |sectors| ==> sectors[i].number == i)
    && ValidChart(ChartOf(sectors))
  }

  ghost predicate ValidChart(g: Chart) {
    && |g| >= 2
    && forall i, w :: 0 <= i < |g| && w in g[i] ==> 1 <= w < |g|
  }
}
