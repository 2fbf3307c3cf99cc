/** Fighting makes no trader richer. */
module Fortunes {
  import opened Goods
  import opened Entities
  import opened Worlds
  import opened Sums
  import opened Ledger
  import opened Worth
  import opened Fights

  ghost predicate NotRicher(s: State, t: State, cfg: Config) {
    && |s.players| <= |t.players|
    && forall i: nat :: i < |s.players| && !s.players[i].IsNpc() ==>
         t.players[i].kind == s.players[i].kind && Value(t, cfg, i) <= Value(s, cfg, i)
  }

  lemma SameFortunes(s: State, cfg: Config)
    ensures NotRicher(s, s, cfg)
  {
  }

  lemma NotRicherOn(s: State, t: State, u: State, cfg: Config)
    requires NotRicher(s, t, cfg) && NotRicher(t, u, cfg)
    ensures NotRicher(s, u, cfg)
  {
    hide Value;
  }

  /** Less of everything is worth no more. */
  lemma LessStores(cfg: Config, before: Inventory, after: Inventory)
    requires forall g :: Qty(after, g) <= Qty(before, g)
    ensures ForceWorth(cfg, after) <= ForceWorth(cfg, before) && CargoWorth(after) <= CargoWorth(before)
    ensures FittingsWorth(cfg, after) <= FittingsWorth(cfg, before) && DeviceWorth(cfg, after) <= DeviceWorth(cfg, before)
  {
    forall g, price: nat ensures Times(Qty(after, g), price) <= Times(Qty(before, g), price) {
      TimesNotUp(Qty(after, g), Qty(before, g), price);
    }
    hide Times;
  }

  /** A ship that fought without salvage is worth no more than it was. */
  lemma FoughtWorth(cfg: Config, before: Player, after: Player, now: Time)
    requires Fought(before, after, 0, now)
    ensures ShipWorth(cfg, after) <= ShipWorth(cfg, before)
  {
    forall g ensures Qty(after.inv, g) <= Qty(before.inv, g) {
      NothingGained(before, after, g, now);
    }
    SamePurse(before, after, now);
    hide Fought, ForceWorth, CargoWorth, FittingsWorth, DeviceWorth;
    LessStores(cfg, before.inv, after.inv);
  }

  lemma NothingGained(before: Player, after: Player, g: Good, now: Time)
    requires Fought(before, after, 0, now)
    ensures Qty(after.inv, g) <= Qty(before.inv, g)
  {
  }

  lemma SamePurse(before: Player, after: Player, now: Time)
    requires Fought(before, after, 0, now)
    ensures after.money == before.money && after.bank == before.bank
  {
  }

  lemma AftermathNotRicher(s: State, t: State, p: PlayerId, cfg: Config)
    requires Aftermath(s, t, {p}) && p < |s.players| && ShipWorth(cfg, t.players[p]) <= ShipWorth(cfg, s.players[p])
    ensures NotRicher(s, t, cfg)
  {
    forall i: nat | i < |s.players| && !s.players[i].IsNpc()
      ensures t.players[i].kind == s.players[i].kind && Value(t, cfg, i) <= Value(s, cfg, i)
    {
      GarrisonsNotRicher(s, t, p, i, cfg);
      PlanetsNotRicher(s, t, p, i, cfg);
      hide ShipWorth;
      assert i != p ==> t.players[i] == s.players[i];
    }
  }

  lemma GarrisonsNotRicher(s: State, t: State, p: PlayerId, i: PlayerId, cfg: Config)
    requires Aftermath(s, t, {p}) && i < |s.players| && !s.players[i].IsNpc()
    ensures Sum(GarrisonShares(cfg, t.bgs, i)) <= Sum(GarrisonShares(cfg, s.bgs, i))
  {
    hide ForceWorth;
    SumNotUp(GarrisonShares(cfg, s.bgs, i), GarrisonShares(cfg, t.bgs, i));
  }

  lemma PlanetsNotRicher(s: State, t: State, p: PlayerId, i: PlayerId, cfg: Config)
    requires Aftermath(s, t, {p}) && i < |s.players| && !s.players[i].IsNpc()
    ensures Sum(PlanetShares(cfg, t.planets, i)) <= Sum(PlanetShares(cfg, s.planets, i))
  {
    hide PlanetWorth;
    SumNotUp(PlanetShares(cfg, s.planets, i), PlanetShares(cfg, t.planets, i));
  }

  /** A force that lost goods is worth no more to its owner. */
  lemma ForceHitNotRicher(s: State, k: nat, inv: Inventory, cfg: Config)
    requires k < |s.bgs| && forall g :: Qty(inv, g) <= Qty(s.bgs[k].inv, g)
    ensures NotRicher(s, s.(bgs := s.bgs[k := s.bgs[k].(inv := inv)]), cfg)
  {
    TimesNotUp(Qty(inv, Fighters), Qty(s.bgs[k].inv, Fighters), cfg.costFighter);
    TimesNotUp(Qty(inv, Mines), Qty(s.bgs[k].inv, Mines), cfg.costMine);
    var t := s.(bgs := s.bgs[k := s.bgs[k].(inv := inv)]);
    forall i: nat | i < |s.players| ensures Value(t, cfg, i) <= Value(s, cfg, i) {
      hide Times;
      ValueWithForce(s, cfg, k, inv, i);
    }
  }

  lemma DisbandedNotRicher(s: State, k: nat, cfg: Config)
    requires k < |s.bgs|
    ensures NotRicher(s, s.(bgs := s.bgs[..k] + s.bgs[k + 1..]), cfg)
  {
    var t := s.(bgs := s.bgs[..k] + s.bgs[k + 1..]);
    forall i: nat | i < |s.players| ensures Value(t, cfg, i) <= Value(s, cfg, i) {
      ValueWithoutForce(s, cfg, k, i);
    }
  }

  /** What a faction's planet holds is nothing to a trader. */
  lemma FactionPlanetNotRicher(s: State, k: nat, inv: Inventory, cfg: Config)
    requires k < |s.planets| && s.planets[k].owner < |s.players| && s.players[s.planets[k].owner].IsNpc()
    ensures NotRicher(s, s.(planets := s.planets[k := s.planets[k].(inv := inv)]), cfg)
  {
    var t := s.(planets := s.planets[k := s.planets[k].(inv := inv)]);
    forall i: nat | i < |s.players| && !s.players[i].IsNpc() ensures Value(t, cfg, i) <= Value(s, cfg, i) {
      ValueWithPlanet(s, cfg, k, inv, i);
    }
  }

  lemma FactionPlanetAdded(s: State, planet: Planet, cfg: Config)
    requires planet.owner < |s.players| && s.players[planet.owner].IsNpc()
    ensures NotRicher(s, s.(planets := s.planets + [planet]), cfg)
  {
    var t := s.(planets := s.planets + [planet]);
    forall i: nat | i < |s.players| && !s.players[i].IsNpc() ensures Value(t, cfg, i) <= Value(s, cfg, i) {
      assert PlanetShares(cfg, t.planets, i) == PlanetShares(cfg, s.planets, i) + [0];
      SumConcat(PlanetShares(cfg, s.planets, i), [0]);
      assert Sum([0]) == Sum([0][..0]) + 0;
    }
  }

  lemma FactionJoined(s: State, players: seq<Player>, cfg: Config)
    requires KeptBut(s.players, players, {})
    ensures NotRicher(s, s.(players := players), cfg)
  {
  }
}
