/** Bringing stored universes up to the current features (universe.go:131-193, port.go:88-152). */
module Upgrades {
  import opened Goods
  import opened Inventories
  import opened Snapshots

  /** The goods of the game in their order. */
  const TRADE_GOODS: seq<Good> :=
    [Ore, Organics, Equipment, Holds, Fighters, Mines, Genesis, Plasma, Pulsar, EmWarp, Turns,
     Cloak, AntiCloak, PulsarTube, FusionCell, PlanetScanner, MineDeflector]

  const SOL_GOODS: seq<Good> := [Holds, Fighters, Mines, Genesis, Plasma, Pulsar, EmWarp, Turns]

  const DEVICES: seq<Good> := [Cloak, AntiCloak, PulsarTube, FusionCell, PlanetScanner, MineDeflector]

  const SOL := 1
  const AMAZING_DEVICES := 2
  const INTERSTEL := 3

  /** A line added to an inventory that lacked one: an empty one, but for a day's turns, or one on sale. */
  datatype Kit = ForPlayer(turnsPerDay: int) | ForSale

  function Fresh(kit: Kit, g: Good): Line {
    match kit
    case ForPlayer(turnsPerDay) => Line(g, 0, if g.Turns? then turnsPerDay else 0, 0.0, 0.0, false, 0)
    case ForSale => Line(g, 0, 0, Defined(g).0, Defined(g).1, true, 0)
  }

  predicate Has(inv: seq<Line>, g: Good) {
    exists i :: 0 <= i < |inv| && inv[i].name == g
  }

  /** The goods missing, added at the end in their order. */
  function ToppedUp(inv: seq<Line>, goods: seq<Good>, kit: Kit): seq<Line> {
    if goods == [] then inv
    else
      var before := ToppedUp(inv, goods[..|goods| - 1], kit);
      if Has(before, goods[|goods| - 1]) then before else before + [Fresh(kit, goods[|goods| - 1])]
  }

  method TopUp(inv: seq<Line>, goods: seq<Good>, kit: Kit) returns (r: seq<Line>)
    ensures r == ToppedUp(inv, goods, kit)
  {
    r := inv;
    for i := 0 to |goods|
      invariant r == ToppedUp(inv, goods[..i], kit)
    {
      assert goods[..i + 1][..i] == goods[..i];
      if !Has(r, goods[i]) {
        r := r + [Fresh(kit, goods[i])];
      }
    }
    assert goods[..|goods|] == goods;
  }

  /** Every line that was there still is, in its place, and every good asked for is there. */
  lemma {:induction false} ToppedUpHasAll(inv: seq<Line>, goods: seq<Good>, kit: Kit)
    ensures inv <= ToppedUp(inv, goods, kit)
    ensures forall g :: g in goods || Has(inv, g) ==> Has(ToppedUp(inv, goods, kit), g)
  {
    if goods != [] {
      var last := goods[|goods| - 1];
      ToppedUpHasAll(inv, goods[..|goods| - 1], kit);
      var before := ToppedUp(inv, goods[..|goods| - 1], kit);
      var after := ToppedUp(inv, goods, kit);
      forall g | g in goods || Has(inv, g) ensures Has(after, g) {
        if Has(before, g) {
          var i :| 0 <= i < |before| && before[i].name == g;
          assert after[i].name == g;
        } else {
          assert g == last && after[|before|].name == g;
        }
      }
    }
  }

  lemma {:induction false} NothingMissing(inv: seq<Line>, goods: seq<Good>, kit: Kit)
    requires forall g :: g in goods ==> Has(inv, g)
    ensures ToppedUp(inv, goods, kit) == inv
  {
    if goods != [] {
      NothingMissing(inv, goods[..|goods| - 1], kit);
      assert goods[|goods| - 1] in goods;
    }
  }

  lemma ToppedUpOnce(inv: seq<Line>, goods: seq<Good>, kit: Kit)
    ensures ToppedUp(ToppedUp(inv, goods, kit), goods, kit) == ToppedUp(inv, goods, kit)
  {
    ToppedUpHasAll(inv, goods, kit);
    NothingMissing(ToppedUp(inv, goods, kit), goods, kit);
  }

  /** The first line for the good, or -1. */
  function LineFor(inv: seq<Line>, g: Good): (k: int)
    ensures -1 <= k < |inv|
    ensures k >= 0 ==> inv[k].name == g
  {
    if inv == [] then -1
    else
      var k := LineFor(inv[..|inv| - 1], g);
      if k >= 0 then k else if inv[|inv| - 1].name == g then |inv| - 1 else -1
  }

  /** A product that produces nothing is given the seed rate. */
  function Seeded(inv: seq<Line>, g: Good): seq<Line> {
    var k := LineFor(inv, g);
    if k >= 0 && inv[k].prod == 0 then inv[k := inv[k].(prod := 1)] else inv
  }

  function AllSeeded(inv: seq<Line>): seq<Line> {
    Seeded(Seeded(Seeded(inv, Ore), Organics), Equipment)
  }

  /** Seeding renames nothing. */
  lemma {:induction false} SameLines(a: seq<Line>, b: seq<Line>, g: Good)
    requires |a| == |b| && forall i :: 0 <= i < |a| ==> a[i].name == b[i].name
    ensures LineFor(a, g) == LineFor(b, g)
  {
    if a != [] {
      SameLines(a[..|a| - 1], b[..|b| - 1], g);
    }
  }

  lemma AllSeededOnce(inv: seq<Line>)
    ensures AllSeeded(AllSeeded(inv)) == AllSeeded(inv)
  {
    var a := Seeded(inv, Ore);
    var b := Seeded(a, Organics);
    var c := Seeded(b, Equipment);
    forall g | IsCargo(g) ensures LineFor(a, g) == LineFor(b, g) == LineFor(c, g) == LineFor(inv, g) {
      SameLines(inv, a, g);
      SameLines(a, b, g);
      SameLines(b, c, g);
    }
    hide LineFor;
    assert Seeded(c, Ore) == c;
    assert Seeded(c, Organics) == c;
    assert Seeded(c, Equipment) == c;
  }

  const MARKER := "schema_ever_moved"

  predicate MarkedMoved(config: map<string, string>) {
    MARKER in config && config[MARKER] == "1"
  }

  function UpgradedPlayer(p: PlayerRecord, turnsPerDay: int, moved: bool): PlayerRecord {
    PlayerRecord(p.id, if moved then p.card.(everMoved := true) else p.card,
                 if |p.systems| == Snapshots.SYSTEMS then p.systems else Fitted([]),
                 ToppedUp(p.inv, TRADE_GOODS, ForPlayer(turnsPerDay)))
  }

  function UpgradedPlayers(players: seq<PlayerRecord>, turnsPerDay: int, moved: bool): (r: seq<PlayerRecord>)
    ensures |r| == |players| && forall i :: 0 <= i < |r| ==> r[i] == UpgradedPlayer(players[i], turnsPerDay, moved)
  {
    seq(|players|, i requires 0 <= i < |players| => UpgradedPlayer(players[i], turnsPerDay, moved))
  }

  function UpgradedPort(p: Holding): Holding {
    if p.place.kind == SOL then p.(inv := ToppedUp(p.inv, SOL_GOODS, ForSale)) else p
  }

  function UpgradedPorts(ports: seq<Holding>): (r: seq<Holding>)
    ensures |r| == |ports| && forall i :: 0 <= i < |r| ==> r[i] == UpgradedPort(ports[i])
  {
    seq(|ports|, i requires 0 <= i < |ports| => UpgradedPort(ports[i]))
  }

  function UpgradedPlanets(planets: seq<Holding>): (r: seq<Holding>)
    ensures |r| == |planets| && forall i :: 0 <= i < |r| ==> r[i] == planets[i].(inv := AllSeeded(planets[i].inv))
  {
    seq(|planets|, i requires 0 <= i < |planets| => planets[i].(inv := AllSeeded(planets[i].inv)))
  }

  /** The first port of a kind, or -1. */
  function PortOfKind(ports: seq<Holding>, kind: nat): (k: int)
    ensures -1 <= k < |ports|
    ensures k >= 0 ==> ports[k].place.kind == kind && forall j :: 0 <= j < k ==> ports[j].place.kind != kind
    ensures k == -1 ==> forall j :: 0 <= j < |ports| ==> ports[j].place.kind != kind
  {
    if ports == [] then -1
    else
      var k := PortOfKind(ports[..|ports| - 1], kind);
      if k >= 0 then k else if ports[|ports| - 1].place.kind == kind then |ports| - 1 else -1
  }

  predicate PortHere(ports: seq<Holding>, sector: int) {
    exists i :: 0 <= i < |ports| && ports[i].place.sector == sector
  }

  /** A sector without a port, or 0 exactly when every sector from the second on has one. */
  method FreePortSector(ports: seq<Holding>, n: nat) returns (sector: nat)
    ensures sector == FreeSector(ports, n)
  {
    var s := 2;
    while s <= 10 && s < n
      invariant 2 <= s && (s <= n || s == 2) && forall t :: 2 <= t < s ==> PortHere(ports, t)
      decreases n - s
    {
      if !PortHere(ports, s) {
        Lowest(ports, n, s);
        return s;
      }
      s := s + 1;
    }
    s := 2;
    while s < n
      invariant 2 <= s && (s <= n || s == 2) && forall t :: 2 <= t < s ==> PortHere(ports, t)
    {
      if !PortHere(ports, s) {
        Lowest(ports, n, s);
        return s;
      }
      s := s + 1;
    }
    NoneFree(ports, n);
    return 0;
  }

  /** The lowest such sector. */
  function FreeSector(ports: seq<Holding>, n: nat): nat {
    FreeFrom(ports, n, 2)
  }

  function FreeFrom(ports: seq<Holding>, n: nat, s: nat): nat
    decreases n - s
  {
    if s >= n then 0 else if !PortHere(ports, s) then s else FreeFrom(ports, n, s + 1)
  }

  lemma {:induction false} LowestFrom(ports: seq<Holding>, n: nat, from: nat, s: nat)
    requires from <= s < n && !PortHere(ports, s) && forall t :: from <= t < s ==> PortHere(ports, t)
    ensures FreeFrom(ports, n, from) == s
    decreases s - from
  {
    if from < s {
      LowestFrom(ports, n, from + 1, s);
    }
  }

  lemma Lowest(ports: seq<Holding>, n: nat, s: nat)
    requires 2 <= s < n && !PortHere(ports, s) && forall t :: 2 <= t < s ==> PortHere(ports, t)
    ensures FreeSector(ports, n) == s
  {
    LowestFrom(ports, n, 2, s);
  }

  lemma {:induction false} NoneFreeFrom(ports: seq<Holding>, n: nat, from: nat)
    requires forall t :: from <= t < n ==> PortHere(ports, t)
    ensures FreeFrom(ports, n, from) == 0
    decreases n - from
  {
    if from < n {
      NoneFreeFrom(ports, n, from + 1);
    }
  }

  lemma NoneFree(ports: seq<Holding>, n: nat)
    requires forall t :: 2 <= t < n ==> PortHere(ports, t)
    ensures FreeSector(ports, n) == 0
  {
    NoneFreeFrom(ports, n, 2);
  }

  function DeviceShop(sector: nat): Holding {
    Holding(Place("Amazing Devices, Inc.", sector, "", AMAZING_DEVICES, 0), [])
  }

  function Bank(sector: nat): Holding {
    Holding(Place("Interstel", sector, "", INTERSTEL, 0), [])
  }

  /** A device shop somewhere, if there is room for one, with every device on sale. */
  function WithDevices(ports: seq<Holding>, n: nat): seq<Holding> {
    var k := PortOfKind(ports, AMAZING_DEVICES);
    if k >= 0 then ports[k := ports[k].(inv := ToppedUp(ports[k].inv, DEVICES, ForSale))]
    else if FreeSector(ports, n) == 0 then ports
    else ports + [DeviceShop(FreeSector(ports, n)).(inv := ToppedUp([], DEVICES, ForSale))]
  }

  function WithBank(ports: seq<Holding>, n: nat): seq<Holding> {
    if PortOfKind(ports, INTERSTEL) >= 0 || FreeSector(ports, n) == 0 then ports else ports + [Bank(FreeSector(ports, n))]
  }

  function Upgraded(u: Universe, turnsPerDay: int): Universe {
    u.(players := UpgradedPlayers(u.players, turnsPerDay, !MarkedMoved(u.config)),
       ports := WithBank(WithDevices(UpgradedPorts(u.ports), |u.warps|), |u.warps|),
       planets := UpgradedPlanets(u.planets),
       config := u.config[MARKER := "1"])
  }

  /** The upgrade, pass by pass. */
  method Upgrade(u: Universe, turnsPerDay: int) returns (r: Universe)
    ensures r == Upgraded(u, turnsPerDay)
  {
    var players := UpgradePlayers(u.players, turnsPerDay, !MarkedMoved(u.config));
    var ports := StockSol(u.ports);
    var planets := SeedPlanets(u.planets);
    ports := EnsureDevices(ports, |u.warps|);
    ports := EnsureBank(ports, |u.warps|);
    r := u.(players := players, ports := ports, planets := planets, config := u.config[MARKER := "1"]);
  }

  method UpgradePlayers(players0: seq<PlayerRecord>, turnsPerDay: int, moved: bool) returns (players: seq<PlayerRecord>)
    ensures players == UpgradedPlayers(players0, turnsPerDay, moved)
  {
    hide ToppedUp;
    players := [];
    for i := 0 to |players0|
      invariant |players| == i && forall k :: 0 <= k < i ==> players[k] == UpgradedPlayer(players0[k], turnsPerDay, moved)
    {
      var p := players0[i];
      var inv := TopUp(p.inv, TRADE_GOODS, ForPlayer(turnsPerDay));
      var systems := if |p.systems| == Snapshots.SYSTEMS then p.systems else Fitted([]);
      players := players + [PlayerRecord(p.id, if moved then p.card.(everMoved := true) else p.card, systems, inv)];
    }
  }

  method StockSol(ports0: seq<Holding>) returns (ports: seq<Holding>)
    ensures ports == UpgradedPorts(ports0)
  {
    hide ToppedUp;
    ports := [];
    for i := 0 to |ports0|
      invariant |ports| == i && forall k :: 0 <= k < i ==> ports[k] == UpgradedPort(ports0[k])
    {
      var port := ports0[i];
      if port.place.kind == SOL {
        var inv := TopUp(port.inv, SOL_GOODS, ForSale);
        port := port.(inv := inv);
      }
      ports := ports + [port];
    }
  }

  method SeedPlanets(planets0: seq<Holding>) returns (planets: seq<Holding>)
    ensures planets == UpgradedPlanets(planets0)
  {
    hide AllSeeded;
    planets := [];
    for i := 0 to |planets0|
      invariant |planets| == i && forall k :: 0 <= k < i ==> planets[k] == planets0[k].(inv := AllSeeded(planets0[k].inv))
    {
      planets := planets + [planets0[i].(inv := AllSeeded(planets0[i].inv))];
    }
  }

  method EnsureDevices(ports0: seq<Holding>, n: nat) returns (ports: seq<Holding>)
    ensures ports == WithDevices(ports0, n)
  {
    ports := ports0;
    var k := PortOfKind(ports, AMAZING_DEVICES);
    if k == -1 {
      var sector := FreePortSector(ports, n);
      if sector == 0 {
        return;
      }
      ports := ports + [DeviceShop(sector)];
      k := |ports| - 1;
    }
    var inv := TopUp(ports[k].inv, DEVICES, ForSale);
    ports := ports[k := ports[k].(inv := inv)];
  }

  method EnsureBank(ports0: seq<Holding>, n: nat) returns (ports: seq<Holding>)
    ensures ports == WithBank(ports0, n)
  {
    ports := ports0;
    if PortOfKind(ports, INTERSTEL) == -1 {
      var sector := FreePortSector(ports, n);
      if sector != 0 {
        ports := ports + [Bank(sector)];
      }
    }
  }

  // ----- Once is enough

  /** Ports occupy the same sectors and are of the same kinds. */
  ghost predicate SamePlaces(a: seq<Holding>, b: seq<Holding>) {
    |a| == |b| && forall i :: 0 <= i < |a| ==> a[i].place == b[i].place
  }

  lemma {:induction false} SameKind(a: seq<Holding>, b: seq<Holding>, kind: nat)
    requires SamePlaces(a, b)
    ensures PortOfKind(a, kind) == PortOfKind(b, kind)
  {
    if a != [] {
      SameKind(a[..|a| - 1], b[..|b| - 1], kind);
    }
  }

  /** A port added at the end takes the place of no other. */
  lemma PortAdded(ports: seq<Holding>, p: Holding, kind: nat)
    ensures PortOfKind(ports + [p], kind)
            == if PortOfKind(ports, kind) >= 0 then PortOfKind(ports, kind) else if p.place.kind == kind then |ports| else -1
  {
    assert (ports + [p])[..|ports|] == ports;
  }

  /** Everything Sol should sell is there. */
  ghost predicate SolStocked(ports: seq<Holding>) {
    forall i, g :: 0 <= i < |ports| && ports[i].place.kind == SOL && g in SOL_GOODS ==> Has(ports[i].inv, g)
  }

  /** The device shop is there with everything in stock, if there was room for it. */
  ghost predicate ShopOpen(ports: seq<Holding>, n: nat) {
    var k := PortOfKind(ports, AMAZING_DEVICES);
    if k >= 0 then forall g :: g in DEVICES ==> Has(ports[k].inv, g) else FreeSector(ports, n) == 0
  }

  /** The ports an upgrade leaves: Sol and the device shop stocked, and shop and bank there if there is room. */
  ghost predicate Settled(ports: seq<Holding>, n: nat) {
    SolStocked(ports) && ShopOpen(ports, n) && (PortOfKind(ports, INTERSTEL) >= 0 || FreeSector(ports, n) == 0)
  }

  lemma SettledStay(ports: seq<Holding>, n: nat)
    requires Settled(ports, n)
    ensures WithBank(WithDevices(UpgradedPorts(ports), n), n) == ports
  {
    hide ToppedUp;
    forall i | 0 <= i < |ports| ensures UpgradedPort(ports[i]) == ports[i] {
      if ports[i].place.kind == SOL {
        NothingMissing(ports[i].inv, SOL_GOODS, ForSale);
      }
    }
    assert UpgradedPorts(ports) == ports;
    var k := PortOfKind(ports, AMAZING_DEVICES);
    if k >= 0 {
      NothingMissing(ports[k].inv, DEVICES, ForSale);
      assert ports[k := ports[k].(inv := ports[k].inv)] == ports;
    }
    assert WithDevices(ports, n) == ports;
  }

  lemma DevicesIn(ports: seq<Holding>, n: nat)
    requires SolStocked(ports)
    ensures SolStocked(WithDevices(ports, n)) && ShopOpen(WithDevices(ports, n), n)
  {
    hide ToppedUp;
    var k := PortOfKind(ports, AMAZING_DEVICES);
    var after := WithDevices(ports, n);
    if k >= 0 {
      ToppedUpHasAll(ports[k].inv, DEVICES, ForSale);
      SameKind(ports, after, AMAZING_DEVICES);
    } else if FreeSector(ports, n) != 0 {
      ToppedUpHasAll([], DEVICES, ForSale);
      PortAdded(ports, after[|ports|], AMAZING_DEVICES);
    }
  }

  lemma Settles(ports: seq<Holding>, n: nat)
    ensures Settled(WithBank(WithDevices(UpgradedPorts(ports), n), n), n)
  {
    hide ToppedUp;
    var stocked := UpgradedPorts(ports);
    forall i, g | 0 <= i < |stocked| && stocked[i].place.kind == SOL && g in SOL_GOODS ensures Has(stocked[i].inv, g) {
      ToppedUpHasAll(ports[i].inv, SOL_GOODS, ForSale);
    }
    var shop := WithDevices(stocked, n);
    DevicesIn(stocked, n);
    hide WithDevices, UpgradedPorts, SolStocked, ShopOpen;
    BankIn(shop, n);
  }

  lemma BankIn(ports: seq<Holding>, n: nat)
    requires SolStocked(ports) && ShopOpen(ports, n)
    ensures Settled(WithBank(ports, n), n)
  {
    hide SolStocked, ShopOpen, PortOfKind, FreeSector;
    if PortOfKind(ports, INTERSTEL) < 0 && FreeSector(ports, n) != 0 {
      var bank := Bank(FreeSector(ports, n));
      PortAdded(ports, bank, INTERSTEL);
      SolAndShopStay(ports, bank, n);
    }
  }

  lemma SolAndShopStay(ports: seq<Holding>, bank: Holding, n: nat)
    requires SolStocked(ports) && ShopOpen(ports, n) && bank.place.kind == INTERSTEL && FreeSector(ports, n) != 0
    ensures SolStocked(ports + [bank]) && ShopOpen(ports + [bank], n)
  {
    hide Has, FreeSector, PortOfKind;
    PortAdded(ports, bank, AMAZING_DEVICES);
  }

  /** Upgrading again changes nothing, whatever was upgraded. */
  lemma UpgradeIsIdempotent(u: Universe, turnsPerDay: int)
    ensures Upgraded(Upgraded(u, turnsPerDay), turnsPerDay) == Upgraded(u, turnsPerDay)
  {
    var v := Upgraded(u, turnsPerDay);
    forall i | 0 <= i < |v.players| ensures UpgradedPlayer(v.players[i], turnsPerDay, false) == v.players[i] {
      ToppedUpOnce(u.players[i].inv, TRADE_GOODS, ForPlayer(turnsPerDay));
    }
    hide ToppedUp, AllSeeded, WithBank, WithDevices;
    assert UpgradedPlayers(v.players, turnsPerDay, false) == v.players;
    forall i | 0 <= i < |v.planets| ensures AllSeeded(v.planets[i].inv) == v.planets[i].inv {
      AllSeededOnce(u.planets[i].inv);
    }
    assert UpgradedPlanets(v.planets) == v.planets;
    Settles(u.ports, |u.warps|);
    SettledStay(v.ports, |u.warps|);
    assert v.config[MARKER := "1"] == v.config;
  }
}
