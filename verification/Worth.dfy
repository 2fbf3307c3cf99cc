/** How net worth moves when goods do. */
module Worth {
  import opened Goods
  import opened Entities
  import opened Worlds
  import opened Sums
  import opened Ledger

  /** What one of the good is worth aboard a ship. */
  function Price(cfg: Config, g: Good): nat {
    match g
    case Ore => 5
    case Organics => 10
    case Equipment => 20
    case Holds => cfg.costHold
    case Fighters => cfg.costFighter
    case Mines => cfg.costMine
    case Genesis => cfg.costGenesis
    case Plasma => cfg.costPlasma
    case Pulsar => cfg.costPulsar
    case EmWarp => cfg.costEscape
    case Turns => 0
    case Cloak => cfg.costCloak
    case AntiCloak => cfg.costAntiCloak
    case PulsarTube => cfg.costPulsarTube
    case FusionCell => cfg.costFusionCell
    case PlanetScanner => cfg.costScanner
    case MineDeflector => cfg.costDeflector
  }

  /** The goods that count toward net worth on a planet, and in a defense force. */
  predicate CountsOnPlanet(g: Good) { IsCargo(g) || g.Fighters? || g.Mines? }

  predicate CountsInForce(g: Good) { g.Fighters? || g.Mines? }

  lemma TimesAdd(q: nat, r: nat, price: nat)
    ensures Times(q, price) + Times(r, price) == Times(q + r, price)
  {
  }

  lemma ShipWorthChange(cfg: Config, a: Player, b: Player, g: Good)
    requires b == a.(inv := b.inv) && forall h :: h != g ==> Qty(b.inv, h) == Qty(a.inv, h)
    ensures ShipWorth(cfg, b) == ShipWorth(cfg, a) - Times(a.Has(g), Price(cfg, g)) + Times(b.Has(g), Price(cfg, g))
  {
    hide Times, StoresWorth;
    StoresWorthChange(cfg, a.inv, b.inv, g);
  }

  lemma StoresWorthChange(cfg: Config, a: Inventory, b: Inventory, g: Good)
    requires forall h :: h != g ==> Qty(b, h) == Qty(a, h)
    ensures StoresWorth(cfg, b) == StoresWorth(cfg, a) - Times(Qty(a, g), Price(cfg, g)) + Times(Qty(b, g), Price(cfg, g))
  {
    hide Times;
    hide ForceWorth, CargoWorth, FittingsWorth, DeviceWorth;
    ForceWorthChange(cfg, a, b, g);
    CargoWorthChange(cfg, a, b, g);
    FittingsWorthChange(cfg, a, b, g);
    DeviceWorthChange(cfg, a, b, g);
    if g.Turns? {
      Free(Qty(a, g));
      Free(Qty(b, g));
    }
  }

  lemma CargoWorthChange(cfg: Config, a: Inventory, b: Inventory, g: Good)
    requires forall h :: h != g ==> Qty(b, h) == Qty(a, h)
    ensures IsCargo(g) ==> CargoWorth(b) == CargoWorth(a) - Times(Qty(a, g), Price(cfg, g)) + Times(Qty(b, g), Price(cfg, g))
    ensures !IsCargo(g) ==> CargoWorth(b) == CargoWorth(a)
  {
    hide Times;
  }

  predicate IsFitting(g: Good) {
    g.Holds? || g.Genesis? || g.Plasma? || g.Pulsar? || g.EmWarp?
  }

  lemma FittingsWorthChange(cfg: Config, a: Inventory, b: Inventory, g: Good)
    requires forall h :: h != g ==> Qty(b, h) == Qty(a, h)
    ensures IsFitting(g) ==>
              FittingsWorth(cfg, b) == FittingsWorth(cfg, a) - Times(Qty(a, g), Price(cfg, g)) + Times(Qty(b, g), Price(cfg, g))
    ensures !IsFitting(g) ==> FittingsWorth(cfg, b) == FittingsWorth(cfg, a)
  {
    hide Times;
  }

  predicate IsDevice(g: Good) {
    g.Cloak? || g.AntiCloak? || g.PulsarTube? || g.FusionCell? || g.PlanetScanner? || g.MineDeflector?
  }

  lemma DeviceWorthChange(cfg: Config, a: Inventory, b: Inventory, g: Good)
    requires forall h :: h != g ==> Qty(b, h) == Qty(a, h)
    ensures IsDevice(g) ==>
              DeviceWorth(cfg, b) == DeviceWorth(cfg, a) - Times(Qty(a, g), Price(cfg, g)) + Times(Qty(b, g), Price(cfg, g))
    ensures !IsDevice(g) ==> DeviceWorth(cfg, b) == DeviceWorth(cfg, a)
  {
    hide Times;
  }

  lemma Free(q: nat)
    ensures Times(q, 0) == 0
  {
  }

  lemma ForceWorthChange(cfg: Config, a: Inventory, b: Inventory, g: Good)
    requires forall h :: h != g ==> Qty(b, h) == Qty(a, h)
    ensures CountsInForce(g) ==>
              ForceWorth(cfg, b) == ForceWorth(cfg, a) - Times(Qty(a, g), Price(cfg, g)) + Times(Qty(b, g), Price(cfg, g))
    ensures !CountsInForce(g) ==> ForceWorth(cfg, b) == ForceWorth(cfg, a)
  {
    hide Times;
  }

  lemma PlanetWorthChange(cfg: Config, a: Inventory, b: Inventory, g: Good)
    requires forall h :: h != g ==> Qty(b, h) == Qty(a, h)
    ensures CountsOnPlanet(g) ==>
              PlanetWorth(cfg, b) == PlanetWorth(cfg, a) - Times(Qty(a, g), Price(cfg, g)) + Times(Qty(b, g), Price(cfg, g))
    ensures !CountsOnPlanet(g) ==> PlanetWorth(cfg, b) == PlanetWorth(cfg, a)
  {
    hide Times;
  }

  /** A ship's worth is all that changes when only the ship does. */
  lemma ValueWithShip(s: State, cfg: Config, p: PlayerId, ship: Player, i: PlayerId)
    requires p < |s.players| && i < |s.players|
    ensures Value(s.(players := s.players[p := ship]), cfg, i)
            == if i == p then Value(s, cfg, i) - ShipWorth(cfg, s.players[p]) + ShipWorth(cfg, ship) else Value(s, cfg, i)
  {
  }

  lemma ValueWithForce(s: State, cfg: Config, k: nat, inv: Inventory, i: PlayerId)
    requires k < |s.bgs| && i < |s.players|
    ensures Value(s.(bgs := s.bgs[k := s.bgs[k].(inv := inv)]), cfg, i)
            == Value(s, cfg, i) + if s.bgs[k].owner == i then ForceWorth(cfg, inv) - ForceWorth(cfg, s.bgs[k].inv) else 0
  {
    var bgs := s.bgs[k := s.bgs[k].(inv := inv)];
    var share := if s.bgs[k].owner == i then ForceWorth(cfg, inv) else 0;
    assert GarrisonShares(cfg, bgs, i) == GarrisonShares(cfg, s.bgs, i)[k := share];
    SumUpdate(GarrisonShares(cfg, s.bgs, i), k, share);
  }

  lemma ValueWithNewForce(s: State, cfg: Config, b: Battlegroup, i: PlayerId)
    requires i < |s.players| && b.inv == map[]
    ensures Value(s.(bgs := s.bgs + [b]), cfg, i) == Value(s, cfg, i)
  {
    var all := GarrisonShares(cfg, s.bgs + [b], i);
    assert all == GarrisonShares(cfg, s.bgs, i) + [0];
    SumConcat(GarrisonShares(cfg, s.bgs, i), [0]);
    assert Sum([0]) == Sum([0][..0]) + 0;
  }

  lemma ValueWithoutForce(s: State, cfg: Config, k: nat, i: PlayerId)
    requires k < |s.bgs| && i < |s.players|
    ensures Value(s.(bgs := s.bgs[..k] + s.bgs[k + 1..]), cfg, i)
            == Value(s, cfg, i) - if s.bgs[k].owner == i then ForceWorth(cfg, s.bgs[k].inv) else 0
  {
    var all := GarrisonShares(cfg, s.bgs, i);
    assert GarrisonShares(cfg, s.bgs[..k] + s.bgs[k + 1..], i) == all[..k] + all[k + 1..];
    SumRemove(all, k);
  }

  lemma EmptyForce(cfg: Config, inv: Inventory)
    requires !HasInventory(inv)
    ensures ForceWorth(cfg, inv) == 0
  {
    assert Qty(inv, Fighters) == 0 && Qty(inv, Mines) == 0;
  }

  lemma ValueWithPlanet(s: State, cfg: Config, k: nat, inv: Inventory, i: PlayerId)
    requires k < |s.planets| && i < |s.players|
    ensures Value(s.(planets := s.planets[k := s.planets[k].(inv := inv)]), cfg, i)
            == Value(s, cfg, i) + if s.planets[k].owner == i then PlanetWorth(cfg, inv) - PlanetWorth(cfg, s.planets[k].inv) else 0
  {
    var planets := s.planets[k := s.planets[k].(inv := inv)];
    var share := if s.planets[k].owner == i then PlanetWorth(cfg, inv) else 0;
    assert PlanetShares(cfg, planets, i) == PlanetShares(cfg, s.planets, i)[k := share];
    SumUpdate(PlanetShares(cfg, s.planets, i), k, share);
  }
}
