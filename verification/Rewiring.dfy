/** Rewiring warps with plasma devices (specials.go:23-84). */
module Rewiring {
  import opened Goods
  import opened Entities
  import opened Worlds
  import opened Commands
  import opened Sectors
  import opened Links

  function PlasmaRefusal(p: Player, g: Chart, maxWarps: nat, link: bool, target: int): (r: Error)
    ensures r.NoError? <==>
              && !p.IsDead() && p.Has(Plasma) >= 1 && p.sector > FED_SPACE && FED_SPACE < target < |g| && target != p.sector
              && p.sector < |g|
              && (if link then target !in g[p.sector] && |g[p.sector]| < maxWarps && |g[target]| < maxWarps else target in g[p.sector])
              && HasTurn(p)
  {
    if p.IsDead() then Dead
    else if p.Has(Plasma) < 1 then NotEnoughQuantity
    else if p.sector <= FED_SPACE then FedRestricted
    else if target < 1 || target >= |g| then NotFound
    else if target <= FED_SPACE then FedRestricted
    else if target == p.sector then Unknown
    else if p.sector >= |g| then NotFound
    else if link && target in g[p.sector] then AlreadyExists
    else if link && |g[p.sector]| >= maxWarps then NotEnoughQuantity
    else if link && |g[target]| >= maxWarps then NotEnoughQuantity
    else if !link && target !in g[p.sector] then NotFound
    else if !HasTurn(p) then NoTurns
    else NoError
  }

  /** The ship once a device is used up. */
  function Rewirer(p: Player): Player {
    TurnSpent(p).(inv := Adjusted(TurnSpent(p).inv, Plasma, -1))
  }

  method CheckPlasma(w: World, p: PlayerId, link: bool, target: int) returns (err: Error)
    requires w.Valid() && p < |w.players|
    ensures err == PlasmaRefusal(w.players[p], ChartOf(w.sectors), w.cfg.maxWarps, link, target)
  {
    hide SoundState, Manned, ChartOf;
    if w.players[p].IsDead() {
      return Dead;
    }
    if w.players[p].Has(Plasma) < 1 {
      return NotEnoughQuantity;
    }
    var src := w.players[p].sector;
    if src <= FED_SPACE {
      return FedRestricted;
    }
    if target < 1 || target >= |w.sectors| {
      return NotFound;
    }
    if target <= FED_SPACE {
      return FedRestricted;
    }
    if target == src {
      return Unknown;
    }
    ShipOk(w.View(), w.numsec, p);
    Lists(w.sectors);
    var known := w.sectors[src].HasWarp(target);
    if link {
      if known {
        return AlreadyExists;
      }
      if |w.sectors[src].warps| >= w.cfg.maxWarps || |w.sectors[target].warps| >= w.cfg.maxWarps {
        return NotEnoughQuantity;
      }
    } else if !known {
      return NotFound;
    }
    err := if HasTurn(w.players[p]) then NoError else NoTurns;
  }

  /** A turn and a device are spent, and the warps change. */
  method Fire(w: World, p: PlayerId, link: bool, target: nat)
    requires w.Valid() && Charted(w.sectors) && p < |w.players|
    requires PlasmaRefusal(w.players[p], ChartOf(w.sectors), w.cfg.maxWarps, link, target).NoError?
    modifies w`players, w`clamped, set s | s in w.sectors
    ensures w.Valid() && Charted(w.sectors) && Rewired(old(ChartOf(w.sectors)), ChartOf(w.sectors), w.cfg.maxWarps)
    ensures TwoWay(old(ChartOf(w.sectors)), ChartOf(w.sectors), old(w.players[p].sector), target, link)
    ensures w.View() == old(w.View()).(players := old(w.players)[p := Rewirer(old(w.players[p]))])
  {
    hide SoundState, Manned, TwoWay, Tidy, Charted, ChartOf, Rewirer, Rewired;
    ghost var s, g := w.View(), ChartOf(w.sectors);
    var src := w.players[p].sector;
    ShipOk(s, w.numsec, p);
    SetWarps(w.sectors, src, target, link);
    Limits(g, ChartOf(w.sectors), src, target, link, w.cfg.maxWarps);
    PayForPlasma(w, p);
  }

  /** Federation space is as it was, no list has grown past the limit, and lists in order still are. */
  ghost predicate Rewired(g: Chart, h: Chart, maxWarps: nat) {
    && |h| == |g|
    && (Tidy(g) ==> Tidy(h)) && (NoLoops(g) ==> NoLoops(h))
    && (forall i :: 0 <= i < |g| && i <= FED_SPACE ==> h[i] == g[i])
    && forall i :: 0 <= i < |g| ==> |h[i]| <= if |g[i]| >= maxWarps then |g[i]| else maxWarps
  }

  lemma NotRewired(g: Chart, maxWarps: nat)
    ensures Rewired(g, g, maxWarps)
  {
  }

  method PayForPlasma(w: World, p: PlayerId)
    requires w.Valid() && p < |w.players| && HasTurn(w.players[p]) && w.players[p].Has(Plasma) >= 1
    modifies w`players, w`clamped
    ensures w.Valid()
    ensures w.View() == old(w.View()).(players := old(w.players)[p := Rewirer(old(w.players[p]))])
  {
    hide SoundState, Manned;
    ghost var s := w.View();
    ShipOk(s, w.numsec, p);
    var err := SpendTurn(w, p);
    w.AdjustShip(p, Plasma, -1);
    Refitted(s, w.numsec, p, Rewirer(s.players[p]));
    assert w.View() == s.(players := s.players[p := Rewirer(s.players[p])]);
  }

  /**
    * A plasma device links the ship's sector with another, or severs them, in both directions: each list gains the
    * other sector, or loses its first entry for it, which in a list without duplicates is the only one. Federation space
    * is never rewired, no sector is given more warps than the limit, and lists in order stay in order.
    */
  method UsePlasma(w: World, p: PlayerId, link: bool, target: int) returns (err: Error)
    requires w.Valid() && Charted(w.sectors) && p < |w.players|
    modifies w`players, w`clamped, set s | s in w.sectors
    ensures w.Valid() && Charted(w.sectors)
    ensures err == PlasmaRefusal(old(w.players[p]), old(ChartOf(w.sectors)), w.cfg.maxWarps, link, target)
    ensures !err.NoError? ==> w.View() == old(w.View()) && ChartOf(w.sectors) == old(ChartOf(w.sectors))
    ensures err.NoError? ==> TwoWay(old(ChartOf(w.sectors)), ChartOf(w.sectors), old(w.players[p].sector), target, link)
    ensures err.NoError? ==> w.View() == old(w.View()).(players := old(w.players)[p := Rewirer(old(w.players[p]))])
    ensures Rewired(old(ChartOf(w.sectors)), ChartOf(w.sectors), w.cfg.maxWarps)
  {
    hide SoundState, Manned, TwoWay, Charted, ChartOf, PlasmaRefusal, Rewired;
    err := CheckPlasma(w, p, link, target);
    NotRewired(ChartOf(w.sectors), w.cfg.maxWarps);
    if err.NoError? {
      Fire(w, p, link, target);
    }
  }

  lemma Limits(g: Chart, h: Chart, a: nat, b: nat, link: bool, maxWarps: nat)
    requires TwoWay(g, h, a, b, link) && FED_SPACE < a && FED_SPACE < b
    requires (Tidy(g) ==> Tidy(h)) && (NoLoops(g) ==> NoLoops(h))
    requires link ==> |g[a]| < maxWarps && |g[b]| < maxWarps
    ensures Rewired(g, h, maxWarps)
  {
    hide Tidy, NoLoops;
  }
}
