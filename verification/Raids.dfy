/** One faction strike from a stronghold at one player (factions.go:257-310). */
module Raids {
  import opened Goods
  import opened Entities
  import opened Worlds
  import opened Battle
  import opened Fights
  import opened Garrisons
  import opened Commands
  import opened Bombardment
  import opened Invasion
  import opened Fleets
  import opened Fortunes
  import opened Ledger
  import opened Sectors
  import opened Graphs
  import opened Routing
  import opened Universe

  /** A stronghold: a planet a faction owns. */
  predicate IsStronghold(s: State, src: int) {
    0 <= src < |s.planets| && s.planets[src].owner < |s.players| && s.players[s.planets[src].owner].IsNpc()
  }

  /**
    * After a strike: no ship but the target's has changed, the target was at most fought with, no trader is richer,
    * the stronghold still stands, and there are no more fighters or mines in the world.
    */
  ghost predicate Struck(s: State, t: State, cfg: Config, src: nat, target: PlayerId, now: Time) {
    && target < |s.players| && target < |t.players|
    && KeptBut(s.players, t.players, {target})
    && Fought(s.players[target], t.players[target], 0, now)
    && NotRicher(s, t, cfg)
    && |t.planets| == |s.planets| && IsStronghold(t, src) && t.planets[src] == s.planets[src].(inv := t.planets[src].inv)
    && (forall g :: g != Fighters ==> Qty(t.planets[src].inv, g) == Qty(s.planets[src].inv, g))
    && Qty(t.planets[src].inv, Fighters) <= Qty(s.planets[src].inv, Fighters)
    && Total(t, Fighters) <= Total(s, Fighters) && Total(t, Mines) <= Total(s, Mines)
  }

  lemma NotStruck(s: State, cfg: Config, src: nat, target: PlayerId, now: Time)
    requires target < |s.players| && IsStronghold(s, src)
    ensures Struck(s, s, cfg, src, target, now)
  {
    Unharmed(s.players[target], 0, now);
    SameFortunes(s, cfg);
  }

  /** The fleet that got through against its target. */
  method Fall(w: World, target: PlayerId, fleet: nat, now: Time) returns (left: nat, killed: bool)
    requires w.Valid() && Alive(w.players, target) && !w.players[target].IsNpc() && fleet > 0
    modifies w`players, w`bgs, w`planets, w`clamped
    ensures w.Valid() && left <= fleet && target < |w.players|
    ensures Aftermath(old(w.View()), w.View(), {target})
    ensures Fought(old(w.players[target]), w.players[target], 0, now)
    ensures left == 0 || w.players[target].Has(Fighters) == 0
    ensures w.players[target].Has(Fighters) == 0 ==> killed || w.players[target].Has(EmWarp) < old(w.players[target]).Has(EmWarp)
    ensures killed <==> w.players[target].IsDead()
    ensures Clashed(old(w.players[target]), w.players[target], fleet, left)
  {
    hide SoundState, Aftermath, Fought, Manned, Overcome;
    var aLoss: int, dLoss: int := Attrition(fleet, w.players[target].Has(Fighters));
    left := fleet - aLoss;
    killed := false;
    w.AdjustShip(target, Fighters, -dLoss);
    ghost var s, t := old(w.View()), w.View();
    LosingFighters(s.players[target], dLoss, 0, now);
    ShipOk(s, w.numsec, target);
    Refitted(s, w.numsec, target, w.players[target]);
    if w.players[target].Has(Fighters) == 0 {
      var escaped := EscapeOrDie(w, target, now);
      killed := !escaped;
      Then(s, t, w.View(), w.numsec, {target});
      FoughtOn(s.players[target], t.players[target], w.players[target], 0, now);
    }
    AllStillManned(s, w.View(), {target});
    ClashedSo(s.players[target], t.players[target], w.players[target], fleet, left, dLoss);
  }

  /** The world as a fleet of that size leaves the stronghold. */
  function Launched(s: State, src: nat, size: nat): State
    requires src < |s.planets|
  {
    s.(planets := s.planets[src := s.planets[src].(inv := Adjusted(s.planets[src].inv, Fighters, 0 - size))])
  }

  /**
    * A raid, step by step: the fleet leaves, fights its way past the defenses but no ships, clashes with its target if
    * anything of it arrives, and what is left of it is back in the stronghold.
    */
  ghost predicate Raided(s: State, t: State, cfg: Config, faction: PlayerId, src: nat, target: PlayerId, way: seq<nat>,
                         size: nat, arrived: nat, home: nat, now: Time)
    requires src < |s.planets|
  {
    exists b: State ::
      && Sortied(Launched(s, src, size), b, cfg, faction, way, size, arrived, now, false)
      && target < |b.players| && target < |t.players| && KeptBut(b.players, t.players, {target}) && ForcesWorn(b.bgs, t.bgs, {})
      && src < |b.planets| && src < |t.planets|
      && t.planets[src] == b.planets[src].(inv := Adjusted(b.planets[src].inv, Fighters, home))
      && if arrived > 0 then Clashed(b.players[target], t.players[target], arrived, home)
         else home == 0 && t.players == b.players && t.bgs == b.bgs
  }

  /** As many ships as asked for, or as many as there are. */
  function AtMost(ships: nat, stock: nat): nat {
    if ships > stock then stock else ships
  }

  /** A whole strike with up to that many ships: nothing at all unless there is a target to strike, ships, and a way. */
  ghost predicate StrikeRun(s: State, t: State, cfg: Config, g: Chart, faction: PlayerId, src: nat, target: PlayerId, ships: nat, now: Time)
    requires src < |s.planets| && target < |s.players|
  {
    var stock, a, b := Qty(s.planets[src].inv, Fighters), s.planets[src].sector, s.players[target].sector;
    var size := AtMost(ships, stock);
    if s.players[target].InFedSpace() || size == 0 || !Reachable(g, a, b) then t == s
    else exists path: seq<nat>, arrived: nat, home: nat :: RaidAlong(s, t, cfg, g, faction, src, target, path, size, arrived, home, now)
  }

  /** A raid by a shortest way. */
  ghost predicate RaidAlong(s: State, t: State, cfg: Config, g: Chart, faction: PlayerId, src: nat, target: PlayerId, path: seq<nat>,
                            size: nat, arrived: nat, home: nat, now: Time)
    requires src < |s.planets| && target < |s.players|
  {
    var a, b := s.planets[src].sector, s.players[target].sector;
    && |path| >= 1 && Joins(g, path, a, b) && Distance(g, a, b, |path| - 1)
    && Raided(s, t, cfg, faction, src, target, path[1..], size, arrived, home, now)
  }
  lemma Launching(s: State, numsec: int, src: nat, ships: nat, cfg: Config)
    requires SoundState(s, numsec) && IsStronghold(s, src) && ships <= Qty(s.planets[src].inv, Fighters)
    ensures var t := s.(planets := s.planets[src := s.planets[src].(inv := Adjusted(s.planets[src].inv, Fighters, 0 - ships))]);
            && SoundState(t, numsec) && NotRicher(s, t, cfg)
            && Total(t, Fighters) == Total(s, Fighters) - ships && Total(t, Mines) == Total(s, Mines)
  {
    var planet := s.planets[src].(inv := Adjusted(s.planets[src].inv, Fighters, 0 - ships));
    PlanetHeld(s, numsec, src);
    PlanetRefitted(s, numsec, src, planet);
    FactionPlanetNotRicher(s, src, planet.inv, cfg);
    PlanetTotal(s, src, planet, Fighters);
    PlanetTotal(s, src, planet, Mines);
  }

  lemma Landing(s: State, numsec: int, src: nat, fleet: nat, cfg: Config)
    requires SoundState(s, numsec) && IsStronghold(s, src)
    ensures var t := s.(planets := s.planets[src := s.planets[src].(inv := Adjusted(s.planets[src].inv, Fighters, fleet))]);
            && SoundState(t, numsec) && NotRicher(s, t, cfg)
            && Total(t, Fighters) == Total(s, Fighters) + fleet && Total(t, Mines) == Total(s, Mines)
  {
    var planet := s.planets[src].(inv := Adjusted(s.planets[src].inv, Fighters, fleet));
    PlanetHeld(s, numsec, src);
    PlanetRefitted(s, numsec, src, planet);
    FactionPlanetNotRicher(s, src, planet.inv, cfg);
    PlanetTotal(s, src, planet, Fighters);
    PlanetTotal(s, src, planet, Mines);
  }

  /** The stronghold stands through anything that happens to traders. */
  lemma StrongholdStands(s: State, t: State, numsec: int, target: PlayerId, src: nat)
    requires SoundState(s, numsec) && Aftermath(s, t, {target}) && IsStronghold(s, src) && target < |s.players| && !s.players[target].IsNpc()
    ensures |t.planets| == |s.planets| && t.planets[src] == s.planets[src] && IsStronghold(t, src)
  {
  }

  lemma FallTotals(s: State, t: State, target: PlayerId, now: Time, cfg: Config)
    requires Aftermath(s, t, {target}) && target < |s.players| && Fought(s.players[target], t.players[target], 0, now)
    ensures NotRicher(s, t, cfg) && Total(t, Fighters) <= Total(s, Fighters) && Total(t, Mines) <= Total(s, Mines)
  {
    FleetCounts(s.players[target], t.players[target], now);
    FoughtWorth(cfg, s.players[target], t.players[target], now);
    AftermathNotRicher(s, t, target, cfg);
    hide Fought, NotRicher;
    FightsCreateNothing(s, t, {target}, Fighters);
    FightsCreateNothing(s, t, {target}, Mines);
  }

  lemma StruckByFleet(s: State, a: State, b: State, c: State, d: State, numsec: int, cfg: Config,
                      src: nat, target: PlayerId, ships: nat, arrived: nat, fleet: nat, now: Time, where: set<int>)
    requires SoundState(s, numsec) && IsStronghold(s, src) && target < |s.players| && !s.players[target].IsNpc()
    requires 1 <= ships <= Qty(s.planets[src].inv, Fighters) && fleet <= arrived <= ships
    requires a == s.(planets := s.planets[src := s.planets[src].(inv := Adjusted(s.planets[src].inv, Fighters, 0 - ships))])
    requires SoundState(a, numsec) && SoundState(b, numsec) && SoundState(c, numsec)
    requires b.players == a.players && b.planets == a.planets && Worn(a, b, {}, where) && NotRicher(a, b, cfg)
    requires Aftermath(b, c, {target}) && target < |c.players| && Fought(b.players[target], c.players[target], 0, now)
    requires IsStronghold(c, src) && d == c.(planets := c.planets[src := c.planets[src].(inv := Adjusted(c.planets[src].inv, Fighters, fleet))])
    ensures SoundState(d, numsec) && Struck(s, d, cfg, src, target, now)
    ensures Qty(d.planets[src].inv, Fighters) == Qty(s.planets[src].inv, Fighters) - ships + fleet
    ensures d.players == c.players
  {
    hide Total, NotRicher, Worn, SoundState, Fought;
    Launching(s, numsec, src, ships, cfg);
    WornTotals(a, b, {}, where);
    StrongholdStands(b, c, numsec, target, src);
    FallTotals(b, c, target, now, cfg);
    Landing(c, numsec, src, fleet, cfg);
    NotRicherOn(s, a, b, cfg);
    NotRicherOn(s, b, c, cfg);
    NotRicherOn(s, c, d, cfg);
  }

  /** The way is as clear after the fight with the target as before it. */
  lemma ClearAfterFall(s: State, t: State, numsec: int, faction: PlayerId, target: PlayerId, way: seq<nat>, now: Time)
    requires SoundState(s, numsec) && SoundState(t, numsec) && Aftermath(s, t, {target})
    requires target < |s.players| && target < |t.players| && Fought(s.players[target], t.players[target], 0, now)
    requires Alive(s.players, faction) && faction != target && AllClear(s.bgs, faction, way)
    ensures AllClear(t.bgs, faction, way)
  {
    FleetCounts(s.players[target], t.players[target], now);
    hide Fought, SoundState, NoFighters;
    AftermathWorn(s, t, numsec, {target});
    hide Aftermath, Worn;
    forall r | r in way ensures NoFighters(t.bgs, faction, r) {
      StillClear(s, t, numsec, faction, r, {target}, {});
    }
  }

  lemma WornTotals(s: State, t: State, who: set<PlayerId>, where: set<int>)
    requires Worn(s, t, who, where)
    ensures Total(t, Fighters) <= Total(s, Fighters) && Total(t, Mines) <= Total(s, Mines)
  {
  }

  /** The fleet leaves the stronghold, fights through the defenses on its way, falls on the target, and comes home. */
  method Raid(w: World, faction: PlayerId, src: nat, target: PlayerId, way: seq<nat>, size: nat, now: Time)
    returns (killed: bool, arrived: nat, home: nat)
    requires w.Valid() && faction < |w.players| && IsStronghold(w.View(), src)
    requires Alive(w.players, target) && !w.players[target].IsNpc() && 1 <= size <= Qty(w.planets[src].inv, Fighters)
    modifies w`players, w`bgs, w`planets, w`clamped
    ensures w.Valid() && Struck(old(w.View()), w.View(), w.cfg, src, target, now)
    ensures home <= arrived <= size
    ensures Qty(w.planets[src].inv, Fighters) == Qty(old(w.planets[src]).inv, Fighters) - size + home
    ensures arrived == 0 ==> w.players == old(w.players) && !killed
    ensures arrived > 0 && Alive(old(w.players), faction) && faction != target ==> AllClear(w.bgs, faction, way)
    ensures killed <==> w.players[target].IsDead()
    ensures Raided(old(w.View()), w.View(), w.cfg, faction, src, target, way, size, arrived, home, now)
    ensures arrived > 0 ==> Clashed(old(w.players[target]), w.players[target], arrived, home)
  {
    hide SoundState, Aftermath, Fought, Manned, Worn, NotRicher, Struck, AllFought, AllClear, Sortied, Clashed, Raided, Unopposed, SeenOff;
    ghost var s := w.View();
    killed := false;
    Launching(s, w.numsec, src, size, w.cfg);
    w.AdjustPlanet(src, Fighters, 0 - size);
    ghost var a := w.View();
    arrived := Sortie(w, faction, way, size, now, false);
    ghost var b := w.View();
    home := arrived;
    NothingHappened(b);
    Wider(b, b, {}, {target});
    Unharmed(b.players[target], 0, now);
    if arrived > 0 {
      home, killed := Fall(w, target, arrived, now);
      if Alive(s.players, faction) && faction != target {
        ClearAfterFall(b, w.View(), w.numsec, faction, target, way, now);
      }
    }
    ghost var c := w.View();
    StrongholdStands(b, c, w.numsec, target, src);
    w.AdjustPlanet(src, Fighters, home);
    StruckByFleet(s, a, b, c, w.View(), w.numsec, w.cfg, src, target, size, arrived, home, now, set r: int | r in way);
    RaidedSo(s, b, c, w.View(), w.numsec, w.cfg, faction, src, target, way, size, arrived, home, now);
  }

  lemma RaidedSo(s: State, b: State, c: State, t: State, numsec: int, cfg: Config, faction: PlayerId, src: nat, target: PlayerId, way: seq<nat>,
                 size: nat, arrived: nat, home: nat, now: Time)
    requires src < |s.planets| && src < |b.planets| == |c.planets| && target < |b.players| && target < |c.players|
    requires Sortied(Launched(s, src, size), b, cfg, faction, way, size, arrived, now, false)
    requires SoundState(b, numsec) && Aftermath(b, c, {target}) && c.planets[src] == b.planets[src]
    requires t == c.(planets := c.planets[src := c.planets[src].(inv := Adjusted(c.planets[src].inv, Fighters, home))])
    requires if arrived > 0 then Clashed(b.players[target], c.players[target], arrived, home) else home == 0 && c == b
    ensures Raided(s, t, cfg, faction, src, target, way, size, arrived, home, now)
  {
    AftermathForces(b, c, numsec, {target});
    hide Sortied, Clashed, ForcesWorn;
  }

  lemma AftermathForces(s: State, t: State, numsec: int, who: set<PlayerId>)
    requires SoundState(s, numsec) && Aftermath(s, t, who)
    ensures KeptBut(s.players, t.players, who) && ForcesWorn(s.bgs, t.bgs, {})
  {
    forall sector ensures At(t.bgs, sector) == At(s.bgs, sector) {
      SameStores(s.bgs, t.bgs, sector);
    }
  }

  lemma StrikeRunSo(s: State, t: State, cfg: Config, g: Chart, faction: PlayerId, src: nat, target: PlayerId, ships: nat,
                    size: nat, path: seq<nat>, arrived: nat, home: nat, now: Time)
    requires src < |s.planets| && target < |s.players| && !s.players[target].InFedSpace() && size > 0
    requires size == AtMost(ships, Qty(s.planets[src].inv, Fighters))
    requires var a, b := s.planets[src].sector, s.players[target].sector;
             |path| >= 1 && Joins(g, path, a, b) && Distance(g, a, b, |path| - 1)
    requires Raided(s, t, cfg, faction, src, target, path[1..], size, arrived, home, now)
    ensures Reachable(g, s.planets[src].sector, s.players[target].sector) ==> StrikeRun(s, t, cfg, g, faction, src, target, ships, now)
  {
    hide Raided, Joins, Distance;
    assert RaidAlong(s, t, cfg, g, faction, src, target, path, size, arrived, home, now);
  }

  lemma NoStrikeRun(s: State, cfg: Config, g: Chart, faction: PlayerId, src: nat, target: PlayerId, ships: nat, now: Time)
    requires src < |s.planets| && target < |s.players|
    requires s.players[target].InFedSpace() || ships == 0 || Qty(s.planets[src].inv, Fighters) == 0
             || !Reachable(g, s.planets[src].sector, s.players[target].sector)
    ensures StrikeRun(s, s, cfg, g, faction, src, target, ships, now)
  {
    hide Reachable;
  }

  /**
    * A faction's strike. It does nothing against a target in Federation space, out of reach, or without ships to
    * send. Otherwise the stronghold is poorer by exactly the ships that did not come back, ships met on the way
    * are left alone, and a fleet destroyed on the way never reaches the target. One that gets through has taken a
    * shortest way and left no hostile fighter on it.
    */
  method FactionStrike(w: World, faction: PlayerId, src: nat, target: PlayerId, ships: nat, now: Time)
    returns (killed: bool, sent: nat, arrived: nat, home: nat, ghost path: seq<nat>)
    requires w.Valid() && Charted(w.sectors) && |w.sectors| < MAX_INT
    requires faction < |w.players| && IsStronghold(w.View(), src) && Alive(w.players, target) && !w.players[target].IsNpc()
    modifies w`players, w`bgs, w`planets, w`clamped
    ensures w.Valid() && Struck(old(w.View()), w.View(), w.cfg, src, target, now)
    ensures home <= arrived <= sent <= ships
    ensures StrikeRun(old(w.View()), w.View(), w.cfg, ChartOf(w.sectors), faction, src, target, ships, now)
    ensures sent > 0 ==> sent == AtMost(ships, Qty(old(w.planets[src]).inv, Fighters))
    ensures arrived > 0 ==> Clashed(old(w.players[target]), w.players[target], arrived, home)
    ensures Qty(w.planets[src].inv, Fighters) == Qty(old(w.planets[src]).inv, Fighters) - sent + home
    ensures sent == 0 <==> old(w.players[target]).InFedSpace() || ships == 0 || Qty(old(w.planets[src]).inv, Fighters) == 0
                           || !Reachable(ChartOf(w.sectors), old(w.planets[src]).sector, old(w.players[target]).sector)
    ensures sent > 0 ==> var a, b := old(w.planets[src]).sector, old(w.players[target]).sector;
                         Joins(ChartOf(w.sectors), path, a, b) && Distance(ChartOf(w.sectors), a, b, |path| - 1) && |path| >= 1
    ensures arrived > 0 && old(w.players[faction]).IsNpc() ==> AllClear(w.bgs, faction, path[1..])
    ensures arrived == 0 ==> w.players == old(w.players) && !killed
    ensures sent == 0 ==> w.View() == old(w.View())
    ensures killed <==> w.players[target].IsDead()
  {
    hide SoundState, Aftermath, Fought, Manned, Worn, NotRicher, Struck, ChartOf, Joins, Distance, Reachable, Charted, AllClear, Raided, StrikeRun, Clashed;
    ghost var s, g := w.View(), ChartOf(w.sectors);
    NotStruck(s, w.cfg, src, target, now);
    killed, sent, arrived, home, path := false, 0, 0, 0, [];
    if w.players[target].InFedSpace() {
      NoStrikeRun(s, w.cfg, g, faction, src, target, ships, now);
      return;
    }
    var avail := Qty(w.planets[src].inv, Fighters);
    var size := if ships > avail then avail else ships;
    if size < 1 {
      NoStrikeRun(s, w.cfg, g, faction, src, target, ships, now);
      return;
    }
    PlanetHeld(s, w.numsec, src);
    ShipOk(s, w.numsec, target);
    ShipOk(s, w.numsec, faction);
    var route := ShortestPathTo(w.sectors, w.planets[src].sector, w.players[target].sector);
    if route.None? {
      NoStrikeRun(s, w.cfg, g, faction, src, target, ships, now);
      return;
    }
    RouteLength(ChartOf(w.sectors), route.value, w.planets[src].sector, w.players[target].sector);
    sent, path := size, route.value;
    killed, arrived, home := Raid(w, faction, src, target, route.value[1..], size, now);
    StrikeRunSo(s, w.View(), w.cfg, g, faction, src, target, ships, size, path, arrived, home, now);
  }
}
