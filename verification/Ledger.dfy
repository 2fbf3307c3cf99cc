/** Totals of forces over the whole world, and what each player is worth (value.go). */
module Ledger {
  import opened Goods
  import opened Entities
  import opened Worlds
  import opened Sums

  // ----- Forces in being

  function Aboard(players: seq<Player>, g: Good): (r: seq<int>)
    ensures |r| == |players|
  {
    seq(|players|, i requires 0 <= i < |players| => players[i].Has(g))
  }

  function Garrisoned(bgs: seq<Battlegroup>, g: Good): (r: seq<int>)
    ensures |r| == |bgs|
  {
    seq(|bgs|, k requires 0 <= k < |bgs| => Qty(bgs[k].inv, g))
  }

  function Landed(planets: seq<Planet>, g: Good): (r: seq<int>)
    ensures |r| == |planets|
  {
    seq(|planets|, k requires 0 <= k < |planets| => Qty(planets[k].inv, g))
  }

  /** All there is of a good, aboard ships, in defense forces and on planets. */
  function Total(s: State, g: Good): int {
    Sum(Aboard(s.players, g)) + Sum(Garrisoned(s.bgs, g)) + Sum(Landed(s.planets, g))
  }

  /** Fights create nothing: if no ship named gained the good, nobody did. */
  lemma FightsCreateNothing(s: State, t: State, who: set<PlayerId>, g: Good)
    requires Aftermath(s, t, who)
    requires forall p: nat :: p in who && p < |s.players| ==> t.players[p].Has(g) <= s.players[p].Has(g)
    ensures Total(t, g) <= Total(s, g)
  {
    SumNotUp(Aboard(s.players, g), Aboard(t.players, g));
    assert Garrisoned(t.bgs, g) == Garrisoned(s.bgs, g);
    assert Landed(t.planets, g) == Landed(s.planets, g);
  }

  lemma GarrisonTotal(s: State, k: nat, inv: Inventory, g: Good)
    requires k < |s.bgs|
    ensures Total(s.(bgs := s.bgs[k := s.bgs[k].(inv := inv)]), g) == Total(s, g) - Qty(s.bgs[k].inv, g) + Qty(inv, g)
  {
    var bgs := s.bgs[k := s.bgs[k].(inv := inv)];
    assert Garrisoned(bgs, g) == Garrisoned(s.bgs, g)[k := Qty(inv, g)];
    SumUpdate(Garrisoned(s.bgs, g), k, Qty(inv, g));
  }

  lemma DisbandedTotal(s: State, k: nat, g: Good)
    requires k < |s.bgs|
    ensures Total(s.(bgs := s.bgs[..k] + s.bgs[k + 1..]), g) == Total(s, g) - Qty(s.bgs[k].inv, g)
  {
    var all := Garrisoned(s.bgs, g);
    assert Garrisoned(s.bgs[..k] + s.bgs[k + 1..], g) == all[..k] + all[k + 1..];
    SumRemove(all, k);
  }

  lemma PlanetTotal(s: State, k: nat, planet: Planet, g: Good)
    requires k < |s.planets|
    ensures Total(s.(planets := s.planets[k := planet]), g) == Total(s, g) - Qty(s.planets[k].inv, g) + Qty(planet.inv, g)
  {
    assert Landed(s.planets[k := planet], g) == Landed(s.planets, g)[k := Qty(planet.inv, g)];
    SumUpdate(Landed(s.planets, g), k, Qty(planet.inv, g));
  }

  lemma DestroyedTotal(s: State, k: nat, g: Good)
    requires k < |s.planets|
    ensures Total(s.(planets := s.planets[..k] + s.planets[k + 1..]), g) == Total(s, g) - Qty(s.planets[k].inv, g)
  {
    var all := Landed(s.planets, g);
    assert Landed(s.planets[..k] + s.planets[k + 1..], g) == all[..k] + all[k + 1..];
    SumRemove(all, k);
  }

  lemma ShipTotal(s: State, p: PlayerId, ship: Player, g: Good)
    requires p < |s.players|
    ensures Total(s.(players := s.players[p := ship]), g) == Total(s, g) - s.players[p].Has(g) + ship.Has(g)
  {
    assert Aboard(s.players[p := ship], g) == Aboard(s.players, g)[p := ship.Has(g)];
    SumUpdate(Aboard(s.players, g), p, ship.Has(g));
  }

  // ----- Net worth

  function Times(q: nat, price: nat): nat { q * price }

  lemma TimesNotUp(q: nat, r: nat, price: nat)
    requires q <= r
    ensures Times(q, price) <= Times(r, price)
  {
  }

  /** Ore, organics and equipment at their base sell prices. */
  function CargoWorth(inv: Inventory): nat {
    Times(Qty(inv, Ore), 5) + Times(Qty(inv, Organics), 10) + Times(Qty(inv, Equipment), 20)
  }

  /** Credits, the bank account, and everything aboard at its price. */
  function ShipWorth(cfg: Config, p: Player): nat {
    p.money + p.bank + StoresWorth(cfg, p.inv)
  }

  function StoresWorth(cfg: Config, inv: Inventory): nat {
    ForceWorth(cfg, inv) + CargoWorth(inv) + FittingsWorth(cfg, inv) + DeviceWorth(cfg, inv)
  }

  function FittingsWorth(cfg: Config, inv: Inventory): nat {
    Times(Qty(inv, Holds), cfg.costHold) + Times(Qty(inv, Genesis), cfg.costGenesis)
    + Times(Qty(inv, Plasma), cfg.costPlasma) + Times(Qty(inv, Pulsar), cfg.costPulsar)
    + Times(Qty(inv, EmWarp), cfg.costEscape)
  }

  function DeviceWorth(cfg: Config, inv: Inventory): nat {
    Times(Qty(inv, Cloak), cfg.costCloak) + Times(Qty(inv, AntiCloak), cfg.costAntiCloak)
    + Times(Qty(inv, PulsarTube), cfg.costPulsarTube) + Times(Qty(inv, FusionCell), cfg.costFusionCell)
    + Times(Qty(inv, PlanetScanner), cfg.costScanner) + Times(Qty(inv, MineDeflector), cfg.costDeflector)
  }

  function ForceWorth(cfg: Config, inv: Inventory): nat {
    Times(Qty(inv, Fighters), cfg.costFighter) + Times(Qty(inv, Mines), cfg.costMine)
  }

  const PLANET_WORTH := 50000

  function PlanetWorth(cfg: Config, inv: Inventory): nat {
    ForceWorth(cfg, inv) + CargoWorth(inv) + PLANET_WORTH
  }

  function GarrisonShares(cfg: Config, bgs: seq<Battlegroup>, p: PlayerId): (r: seq<int>)
    ensures |r| == |bgs|
  {
    seq(|bgs|, k requires 0 <= k < |bgs| => if bgs[k].owner == p then ForceWorth(cfg, bgs[k].inv) else 0)
  }

  function PlanetShares(cfg: Config, planets: seq<Planet>, p: PlayerId): (r: seq<int>)
    ensures |r| == |planets|
  {
    seq(|planets|, k requires 0 <= k < |planets| => if planets[k].owner == p then PlanetWorth(cfg, planets[k].inv) else 0)
  }

  /** A player's net worth: the ship and account, defense forces, and planets. */
  function Value(s: State, cfg: Config, p: PlayerId): int
    requires p < |s.players|
  {
    ShipWorth(cfg, s.players[p]) + Sum(GarrisonShares(cfg, s.bgs, p)) + Sum(PlanetShares(cfg, s.planets, p))
  }

  /** The tally loop of the rankings computes exactly the net worth. */
  method PlayerValue(w: World, p: PlayerId) returns (value: int)
    requires p < |w.players|
    ensures value == Value(w.View(), w.cfg, p)
  {
    value := ShipWorth(w.cfg, w.players[p]);
    var k := 0;
    ghost var shares := GarrisonShares(w.cfg, w.bgs, p);
    assert shares[..0] == [];
    while k < |w.bgs|
      invariant 0 <= k <= |w.bgs|
      invariant value == ShipWorth(w.cfg, w.players[p]) + Sum(shares[..k])
    {
      assert shares[..k + 1][..k] == shares[..k];
      if w.bgs[k].owner == p {
        value := value + Times(Qty(w.bgs[k].inv, Fighters), w.cfg.costFighter);
        value := value + Times(Qty(w.bgs[k].inv, Mines), w.cfg.costMine);
      }
      k := k + 1;
    }
    assert shares[..k] == shares;
    var j := 0;
    ghost var holdings := PlanetShares(w.cfg, w.planets, p);
    assert holdings[..0] == [];
    while j < |w.planets|
      invariant 0 <= j <= |w.planets|
      invariant value == ShipWorth(w.cfg, w.players[p]) + Sum(shares) + Sum(holdings[..j])
    {
      assert holdings[..j + 1][..j] == holdings[..j];
      if w.planets[j].owner == p {
        value := value + ForceWorth(w.cfg, w.planets[j].inv);
        value := value + CargoWorth(w.planets[j].inv);
        value := value + PLANET_WORTH;
      }
      j := j + 1;
    }
    assert holdings[..j] == holdings;
  }
}
