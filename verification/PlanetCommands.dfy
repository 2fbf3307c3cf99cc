/** Planets and their stores (planet.go), pulsar bombs (specials.go), the bank (bank.go) and repairs. */
module PlanetCommands {
  import opened Goods
  import opened Entities
  import opened Worlds
  import opened Commands
  import opened Invasion
  import opened Bombardment
  import opened Ledger
  import opened Worth
  import opened Holdings

  const MUST_EXIST := 1
  const MUST_NOT_EXIST := 2

  /** Whether a flag, a power of two, is among the flags. */
  predicate Flagged(flags: nat, flag: nat)
    requires flag > 0
  {
    flags / flag % 2 == 1
  }

  /**
    * The caller's planet in the sector. If none may be there, any planet is an error and nobody's is returned;
    * otherwise a foreign one is an error, and none at all is one only if a planet must be there.
    */
  method GetPlanet(w: World, p: PlayerId, sector: nat, flags: nat) returns (err: Error, k: int)
    requires w.Sound()
    ensures var there := PlanetIn(w.planets, sector);
            && err == (if Flagged(flags, MUST_NOT_EXIST) then if there == -1 then NoError else AlreadyExists
                       else if there == -1 then if Flagged(flags, MUST_EXIST) then NotFound else NoError
                       else if w.planets[there].owner == p then NoError else NotOwner)
            && k == if err.NoError? && !Flagged(flags, MUST_NOT_EXIST) then there else -1
  {
    OnlyPlanet(w.View(), w.numsec, sector);
    var mine, foreign := -1, -1;
    for i := 0 to |w.planets|
      invariant mine == -1 || (0 <= mine < i && w.planets[mine].sector == sector && w.planets[mine].owner == p)
      invariant foreign == -1 || (0 <= foreign < i && w.planets[foreign].sector == sector && w.planets[foreign].owner != p)
      invariant mine == -1 && foreign == -1 ==> forall j :: 0 <= j < i ==> w.planets[j].sector != sector
    {
      if w.planets[i].sector == sector {
        if w.planets[i].owner == p {
          mine := i;
        } else if foreign == -1 {
          foreign := i;
        }
      }
    }
    if Flagged(flags, MUST_NOT_EXIST) {
      return if mine != -1 || foreign != -1 then AlreadyExists else NoError, -1;
    }
    if mine != -1 {
      return NoError, mine;
    }
    if foreign != -1 {
      return NotOwner, -1;
    }
    return if Flagged(flags, MUST_EXIST) then NotFound else NoError, -1;
  }

  lemma OnlyPlanet(s: State, numsec: int, sector: nat)
    requires SoundState(s, numsec)
    ensures forall j :: 0 <= j < |s.planets| && s.planets[j].sector == sector ==> j == PlanetIn(s.planets, sector)
  {
  }

  /** A freshly made planet: a little of each product, made at a rate of one a day. */
  function NewPlanet(owner: PlayerId, sector: nat, name: string): (r: Planet)
    ensures forall g :: Qty(r.inv, g) == if IsCargo(g) then 10 else 0
    ensures forall g :: Qty(r.prod, g) == if IsCargo(g) then 1 else 0
  {
    Planet(owner, sector, name,
           map[Ore := 10, Organics := 10, Equipment := 10, Fighters := 0, Mines := 0],
           map[Ore := 1, Organics := 1, Equipment := 1, Fighters := 0, Mines := 0])
  }

  function GenesisRefusal(planets: seq<Planet>, ship: Player, sector: nat, nameOk: bool): (r: Error)
    ensures r.NoError? <==> sector > FED_SPACE && PlanetIn(planets, sector) == -1 && nameOk && ship.Has(Genesis) >= 1
  {
    if sector <= FED_SPACE then FedRestricted
    else if PlanetIn(planets, sector) != -1 then AlreadyExists
    else if !nameOk then InvalidName
    else if ship.Has(Genesis) < 1 then NotEnoughQuantity
    else NoError
  }

  /** A Genesis Device makes a planet in an empty sector outside Federation space. */
  method UseGenesisDevice(w: World, p: PlayerId, sector: nat, name: string, nameOk: bool) returns (err: Error)
    requires w.Valid() && p < |w.players| && sector == w.players[p].sector
    modifies w`players, w`planets, w`clamped
    ensures w.Valid()
    ensures err == GenesisRefusal(old(w.planets), old(w.players[p]), sector, nameOk)
    ensures !err.NoError? ==> w.View() == old(w.View())
    ensures err.NoError? ==>
              && w.players == old(w.players)[p := old(w.players[p]).(inv := Adjusted(old(w.players[p].inv), Genesis, -1))]
              && w.planets == old(w.planets) + [NewPlanet(p, sector, name)]
  {
    hide SoundState, PlanetIn;
    if sector <= FED_SPACE {
      return FedRestricted;
    }
    var k;
    err, k := GetPlanet(w, p, sector, MUST_NOT_EXIST);
    if !err.NoError? {
      return;
    }
    if !nameOk {
      return InvalidName;
    }
    if w.players[p].Has(Genesis) < 1 {
      return NotEnoughQuantity;
    } else {
      ghost var s := w.View();
      ShipOk(s, w.numsec, p);
      w.AdjustShip(p, Genesis, -1);
      Refitted(s, w.numsec, p, w.players[p]);
      PlanetAdded(w.View(), w.numsec, NewPlanet(p, sector, name));
      w.planets := w.planets + [NewPlanet(p, sector, name)];
    }
  }

  lemma PlanetAdded(s: State, numsec: int, planet: Planet)
    requires SoundState(s, numsec) && Alive(s.players, planet.owner) && FED_SPACE < planet.sector <= numsec
    requires PlanetIn(s.planets, planet.sector) == -1
    ensures SoundState(s.(planets := s.planets + [planet]), numsec)
  {
  }

  /** The planet's share of a good becomes `stored` and the ship's `aboard`; nothing else changes. */
  ghost predicate Transferred(s: State, t: State, p: PlayerId, k: nat, g: Good, stored: nat, aboard: nat) {
    && p < |s.players| && k < |s.planets|
    && t.bgs == s.bgs
    && |t.players| == |s.players| && t.players == s.players[p := s.players[p].(inv := t.players[p].inv)]
    && |t.planets| == |s.planets| && t.planets == s.planets[k := s.planets[k].(inv := t.planets[k].inv)]
    && t.players[p].Has(g) == aboard && Qty(t.planets[k].inv, g) == stored
    && forall h :: h != g ==> Qty(t.players[p].inv, h) == Qty(s.players[p].inv, h) && Qty(t.planets[k].inv, h) == Qty(s.planets[k].inv, h)
  }

  lemma ExchangeSound(s: State, t: State, numsec: int, p: PlayerId, k: nat, g: Good, stored: nat, aboard: nat)
    requires SoundState(s, numsec) && Transferred(s, t, p, k, g, stored, aboard)
    ensures SoundState(t, numsec)
  {
    PlanetHeld(s, numsec, k);
    var mid := s.(planets := t.planets);
    PlanetRefitted(s, numsec, k, t.planets[k]);
    ShipOk(mid, numsec, p);
    Refitted(mid, numsec, p, t.players[p]);
  }

  /**
    * Moving goods between a ship and its owner's planet leaves everybody's net worth alone when the good counts
    * on a planet; any other good vanishes from the books while it is landed.
    */
  lemma ExchangeWorth(s: State, t: State, p: PlayerId, k: nat, g: Good, stored: nat, aboard: nat, cfg: Config, i: PlayerId)
    requires Transferred(s, t, p, k, g, stored, aboard) && s.planets[k].owner == p && i < |s.players|
    requires stored + aboard == Qty(s.planets[k].inv, g) + s.players[p].Has(g)
    ensures CountsOnPlanet(g) || i != p ==> Value(t, cfg, i) == Value(s, cfg, i)
    ensures !CountsOnPlanet(g) && i == p ==>
              Value(t, cfg, i) == Value(s, cfg, i) - Times(s.players[p].Has(g), Price(cfg, g)) + Times(aboard, Price(cfg, g))
  {
    hide Value, Times, ShipWorth, PlanetWorth;
    var mid := s.(planets := t.planets);
    ValueWithPlanet(s, cfg, k, t.planets[k].inv, i);
    ValueWithShip(mid, cfg, p, t.players[p], i);
    assert t == mid.(players := mid.players[p := t.players[p]]);
    PlanetWorthChange(cfg, s.planets[k].inv, t.planets[k].inv, g);
    ShipWorthChange(cfg, s.players[p], t.players[p], g);
    TimesAdd(Qty(s.planets[k].inv, g), s.players[p].Has(g), Price(cfg, g));
    TimesAdd(stored, aboard, Price(cfg, g));
  }

  /** Everybody's net worth is kept exactly when the good counts on a planet, or is worth nothing, or none of it moved. */
  lemma KeepsWorthExactly(s: State, t: State, p: PlayerId, k: nat, g: Good, stored: nat, aboard: nat, cfg: Config)
    requires Transferred(s, t, p, k, g, stored, aboard) && s.planets[k].owner == p
    requires stored + aboard == Qty(s.planets[k].inv, g) + s.players[p].Has(g)
    ensures WorthKept(s, t, cfg) <==> CountsOnPlanet(g) || Price(cfg, g) == 0 || aboard == s.players[p].Has(g)
  {
    hide Value, Times, CountsOnPlanet, Price, Transferred;
    SameRoster(s, t, p, k, g, stored, aboard);
    forall i: nat | i < |s.players| && (i != p || CountsOnPlanet(g)) ensures Value(t, cfg, i) == Value(s, cfg, i) {
      ExchangeWorth(s, t, p, k, g, stored, aboard, cfg, i);
    }
    ExchangeWorth(s, t, p, k, g, stored, aboard, cfg, p);
    SameProduct(s.players[p].Has(g), aboard, Price(cfg, g));
  }

  lemma SameRoster(s: State, t: State, p: PlayerId, k: nat, g: Good, stored: nat, aboard: nat)
    requires Transferred(s, t, p, k, g, stored, aboard)
    ensures p < |s.players| == |t.players|
  {
  }

  lemma SameProduct(a: nat, b: nat, price: nat)
    ensures Times(a, price) == Times(b, price) <==> price == 0 || a == b
  {
    if price != 0 && a != b {
      assert (a - b) * price == a * price - b * price;
      assert (a - b) * price != 0;
    }
  }

  /** An exchange that does not keep it: an Emergency Warp landed on one's own planet. */
  lemma LandedWarpVanishes(s: State, t: State, p: PlayerId, k: nat, cfg: Config)
    requires Transferred(s, t, p, k, EmWarp, 1, 0) && s.planets[k].owner == p && cfg.costEscape == 27000
    requires Qty(s.planets[k].inv, EmWarp) == 0 && s.players[p].Has(EmWarp) == 1
    ensures Value(t, cfg, p) == Value(s, cfg, p) - 27000
  {
    hide Value, Transferred;
    SameRoster(s, t, p, k, EmWarp, 1, 0);
    ExchangeWorth(s, t, p, k, EmWarp, 1, 0, cfg, p);
  }

  lemma ExchangeKeepsWorth(s: State, t: State, p: PlayerId, k: nat, g: Good, stored: nat, aboard: nat, cfg: Config)
    requires Transferred(s, t, p, k, g, stored, aboard) && s.planets[k].owner == p && CountsOnPlanet(g)
    requires stored + aboard == Qty(s.planets[k].inv, g) + s.players[p].Has(g)
    ensures WorthKept(s, t, cfg)
  {
    KeepsWorthExactly(s, t, p, k, g, stored, aboard, cfg);
  }

  method StorePlanet(w: World, k: nat, g: Good, amount: int)
    requires k < |w.planets|
    modifies w`planets, w`clamped
    ensures w.planets == old(w.planets)[k := old(w.planets[k]).(inv := Stored(old(w.planets[k].inv), g, amount))]
    ensures w.clamped == (old(w.clamped) || amount < 0)
  {
    w.clamped := w.clamped || amount < 0;
    w.planets := w.planets[k := w.planets[k].(inv := Stored(w.planets[k].inv, g, amount))];
  }

  function OwnershipError(planets: seq<Planet>, p: PlayerId, sector: nat): Error {
    var k := PlanetIn(planets, sector);
    if k == -1 then NotFound else if planets[k].owner == p then NoError else NotOwner
  }

  function LandingRefusal(planets: seq<Planet>, ship: Player, p: PlayerId, sector: nat, g: Good, amount: int): (r: Error)
    ensures r.NoError? <==>
              amount >= 0 && PlanetIn(planets, sector) != -1 && planets[PlanetIn(planets, sector)].owner == p
              && amount <= Qty(planets[PlanetIn(planets, sector)].inv, g) + ship.Has(g)
  {
    if amount < 0 then NegativeQuantity
    else if !OwnershipError(planets, p, sector).NoError? then OwnershipError(planets, p, sector)
    else if amount > Qty(planets[PlanetIn(planets, sector)].inv, g) + ship.Has(g) then NotEnoughQuantity
    else NoError
  }

  /** Sets the planet's share of a good, moving the difference to or from the ship. */
  method TransferSet(w: World, p: PlayerId, sector: nat, g: Good, amount: int) returns (err: Error)
    requires w.Valid() && p < |w.players|
    modifies w`players, w`planets, w`clamped
    ensures w.Valid()
    ensures err == LandingRefusal(old(w.planets), old(w.players[p]), p, sector, g, amount)
    ensures !err.NoError? ==> w.View() == old(w.View())
    ensures err.NoError? ==>
              var k := PlanetIn(old(w.planets), sector);
              Transferred(old(w.View()), w.View(), p, k, g, amount, Qty(old(w.planets)[k].inv, g) + old(w.players[p]).Has(g) - amount)
    ensures err.NoError? && CountsOnPlanet(g) ==> WorthKept(old(w.View()), w.View(), w.cfg)
  {
    hide SoundState, WorthKept, Transferred;
    if amount < 0 {
      return NegativeQuantity;
    }
    var k;
    err, k := GetPlanet(w, p, sector, MUST_EXIST);
    if err.NoError? {
      var total := Qty(w.planets[k].inv, g) + w.players[p].Has(g);
      if amount > total {
        return NotEnoughQuantity;
      }
      Land(w, p, k, g, amount, total - amount);
    }
  }

  method Land(w: World, p: PlayerId, k: nat, g: Good, stored: nat, aboard: nat)
    requires w.Valid() && p < |w.players| && k < |w.planets| && w.planets[k].owner == p
    requires stored + aboard == Qty(w.planets[k].inv, g) + w.players[p].Has(g)
    modifies w`players, w`planets, w`clamped
    ensures w.Valid() && Transferred(old(w.View()), w.View(), p, k, g, stored, aboard)
    ensures CountsOnPlanet(g) ==> WorthKept(old(w.View()), w.View(), w.cfg)
  {
    hide SoundState, WorthKept;
    ghost var s := w.View();
    StorePlanet(w, k, g, stored);
    StoreShip(w, p, g, aboard);
    assert Transferred(s, w.View(), p, k, g, stored, aboard);
    hide Transferred;
    ExchangeSound(s, w.View(), w.numsec, p, k, g, stored, aboard);
    if CountsOnPlanet(g) {
      ExchangeKeepsWorth(s, w.View(), p, k, g, stored, aboard, w.cfg);
    }
  }

  function LoadingRefusal(planets: seq<Planet>, ship: Player, p: PlayerId, sector: nat, g: Good, amount: int): (r: Error)
    ensures r.NoError? <==>
              amount >= 0 && PlanetIn(planets, sector) != -1 && planets[PlanetIn(planets, sector)].owner == p
              && amount <= Qty(planets[PlanetIn(planets, sector)].inv, g) && amount <= FreeHolds(ship.inv)
  {
    if amount < 0 then NegativeQuantity
    else if !OwnershipError(planets, p, sector).NoError? then OwnershipError(planets, p, sector)
    else if amount > Qty(planets[PlanetIn(planets, sector)].inv, g) then NotEnoughQuantity
    else if amount > FreeHolds(ship.inv) then NotEnoughHolds
    else NoError
  }

  /** Takes goods aboard from the planet, as far as the free holds allow. */
  method TransferOut(w: World, p: PlayerId, sector: nat, g: Good, amount: int) returns (err: Error)
    requires w.Valid() && p < |w.players|
    modifies w`players, w`planets, w`clamped
    ensures w.Valid()
    ensures err == LoadingRefusal(old(w.planets), old(w.players[p]), p, sector, g, amount)
    ensures !err.NoError? ==> w.View() == old(w.View())
    ensures err.NoError? ==>
              var k := PlanetIn(old(w.planets), sector);
              Transferred(old(w.View()), w.View(), p, k, g, Qty(old(w.planets)[k].inv, g) - amount, old(w.players[p]).Has(g) + amount)
    ensures err.NoError? ==> FreeHolds(w.players[p].inv) >= 0
    ensures err.NoError? && CountsOnPlanet(g) ==> WorthKept(old(w.View()), w.View(), w.cfg)
  {
    hide SoundState, WorthKept, Transferred;
    if amount < 0 {
      return NegativeQuantity;
    }
    var k;
    err, k := GetPlanet(w, p, sector, MUST_EXIST);
    if err.NoError? {
      if amount > Qty(w.planets[k].inv, g) {
        return NotEnoughQuantity;
      }
      if amount > FreeHolds(w.players[p].inv) {
        return NotEnoughHolds;
      }
      Load(w, p, k, g, amount);
    }
  }

  method Load(w: World, p: PlayerId, k: nat, g: Good, amount: nat)
    requires w.Valid() && p < |w.players| && k < |w.planets| && w.planets[k].owner == p
    requires amount <= Qty(w.planets[k].inv, g) && amount <= FreeHolds(w.players[p].inv)
    modifies w`players, w`planets, w`clamped
    ensures w.Valid()
    ensures Transferred(old(w.View()), w.View(), p, k, g, Qty(old(w.planets[k]).inv, g) - amount, old(w.players[p]).Has(g) + amount)
    ensures FreeHolds(w.players[p].inv) >= 0
    ensures CountsOnPlanet(g) ==> WorthKept(old(w.View()), w.View(), w.cfg)
  {
    hide SoundState, WorthKept, FreeHolds, Transferred, Manned;
    ghost var s := w.View();
    Carry(w, p, k, g, amount);
    ghost var stored, aboard := Qty(s.planets[k].inv, g) - amount, s.players[p].Has(g) + amount;
    RoomLeft(s.players[p].inv, w.players[p].inv, g, amount);
    ExchangeSound(s, w.View(), w.numsec, p, k, g, stored, aboard);
    if CountsOnPlanet(g) {
      ExchangeKeepsWorth(s, w.View(), p, k, g, stored, aboard, w.cfg);
    }
  }

  method Carry(w: World, p: PlayerId, k: nat, g: Good, amount: nat)
    requires p < |w.players| && k < |w.planets| && amount <= Qty(w.planets[k].inv, g) && !w.clamped
    modifies w`players, w`planets, w`clamped
    ensures !w.clamped && |w.players| == |old(w.players)|
    ensures Transferred(old(w.View()), w.View(), p, k, g, Qty(old(w.planets[k]).inv, g) - amount, old(w.players[p]).Has(g) + amount)
    ensures w.players[p].Has(g) == old(w.players[p]).Has(g) + amount
    ensures forall h :: h != g ==> Qty(w.players[p].inv, h) == Qty(old(w.players[p]).inv, h)
  {
    w.AdjustPlanet(k, g, 0 - amount);
    w.AdjustShip(p, g, amount);
  }

  lemma RoomLeft(before: Inventory, after: Inventory, g: Good, amount: nat)
    requires Qty(after, g) == Qty(before, g) + amount && forall h :: h != g ==> Qty(after, h) == Qty(before, h)
    requires amount <= FreeHolds(before)
    ensures FreeHolds(after) >= 0
  {
  }

  /** Unloads all cargo onto the planet. */
  method TransferIn(w: World, p: PlayerId, sector: nat) returns (err: Error)
    requires w.Valid() && p < |w.players|
    modifies w`players, w`planets, w`clamped
    ensures w.Valid()
    ensures err == OwnershipError(old(w.planets), p, sector)
    ensures !err.NoError? ==> w.View() == old(w.View())
    ensures err.NoError? ==> Unloaded(old(w.View()), w.View(), p, PlanetIn(old(w.planets), sector), PRODUCTS)
    ensures err.NoError? ==> WorthKept(old(w.View()), w.View(), w.cfg)
  {
    hide SoundState, Manned, WorthKept, Unloaded, PlanetIn;
    var k;
    err, k := GetPlanet(w, p, sector, MUST_EXIST);
    if !err.NoError? {
      return;
    }
    ghost var s := w.View();
    SameWorth(s, w.cfg);
    NothingUnloaded(s, p, k);
    for i := 0 to |PRODUCTS|
      invariant w.Valid() && Unloaded(s, w.View(), p, k, PRODUCTS[..i]) && WorthKept(s, w.View(), w.cfg)
    {
      ghost var t := w.View();
      StillThere(s, t, p, k, PRODUCTS[..i]);
      UnloadOne(w, p, k, PRODUCTS[i]);
      OneMoreUnloaded(s, t, w.View(), p, k, i);
      WorthKeptOn(s, t, w.View(), w.cfg);
    }
    assert PRODUCTS[..|PRODUCTS|] == PRODUCTS;
  }

  /** All of one good goes to the planet, if there is any. */
  method UnloadOne(w: World, p: PlayerId, k: nat, g: Good)
    requires w.Valid() && p < |w.players| && k < |w.planets| && w.planets[k].owner == p && IsCargo(g)
    modifies w`players, w`planets, w`clamped
    ensures w.Valid() && WorthKept(old(w.View()), w.View(), w.cfg)
    ensures Transferred(old(w.View()), w.View(), p, k, g, Qty(old(w.planets)[k].inv, g) + old(w.players)[p].Has(g), 0)
  {
    hide SoundState, Manned, WorthKept, Transferred;
    if w.players[p].Has(g) > 0 {
      Land(w, p, k, g, Qty(w.planets[k].inv, g) + w.players[p].Has(g), 0);
    } else {
      SameWorth(w.View(), w.cfg);
      NothingAboard(w.View(), p, k, g);
    }
  }

  lemma NothingAboard(s: State, p: PlayerId, k: nat, g: Good)
    requires p < |s.players| && k < |s.planets| && s.players[p].Has(g) == 0
    ensures Transferred(s, s, p, k, g, Qty(s.planets[k].inv, g), 0)
  {
  }

  lemma NothingUnloaded(s: State, p: PlayerId, k: nat)
    requires p < |s.players| && k < |s.planets|
    ensures Unloaded(s, s, p, k, PRODUCTS[..0])
  {
  }

  lemma StillThere(s: State, t: State, p: PlayerId, k: nat, goods: seq<Good>)
    requires Unloaded(s, t, p, k, goods)
    ensures p < |t.players| && k < |t.planets| && t.planets[k].owner == s.planets[k].owner
  {
  }

  lemma OneMoreUnloaded(s: State, t: State, u: State, p: PlayerId, k: nat, i: nat)
    requires i < |PRODUCTS| && Unloaded(s, t, p, k, PRODUCTS[..i])
    requires Transferred(t, u, p, k, PRODUCTS[i], Qty(t.planets[k].inv, PRODUCTS[i]) + Qty(t.players[p].inv, PRODUCTS[i]), 0)
    ensures Unloaded(s, u, p, k, PRODUCTS[..i + 1])
  {
    assert PRODUCTS[..i + 1] == PRODUCTS[..i] + [PRODUCTS[i]];
    assert PRODUCTS[i] !in PRODUCTS[..i];
  }

  /** The goods named have left the ship for the planet; everything else is where it was. */
  ghost predicate Unloaded(s: State, t: State, p: PlayerId, k: nat, goods: seq<Good>) {
    && p < |s.players| && k < |s.planets| && t.bgs == s.bgs
    && |t.players| == |s.players| && t.players == s.players[p := s.players[p].(inv := t.players[p].inv)]
    && |t.planets| == |s.planets| && t.planets == s.planets[k := s.planets[k].(inv := t.planets[k].inv)]
    && forall g ::
         if g in goods then
           Qty(t.players[p].inv, g) == 0 && Qty(t.planets[k].inv, g) == Qty(s.planets[k].inv, g) + Qty(s.players[p].inv, g)
         else
           Qty(t.players[p].inv, g) == Qty(s.players[p].inv, g) && Qty(t.planets[k].inv, g) == Qty(s.planets[k].inv, g)
  }

  lemma SameWorth(s: State, cfg: Config)
    ensures WorthKept(s, s, cfg)
  {
  }

  lemma WorthKeptOn(s: State, t: State, u: State, cfg: Config)
    requires WorthKept(s, t, cfg) && WorthKept(t, u, cfg)
    ensures WorthKept(s, u, cfg)
  {
  }

  // ----- Pulsar bombs

  /** Bombs are spent, a turn is spent, and the planet is bombed; it is gone if that ends its production. */
  ghost predicate BombsDropped(s: State, t: State, p: PlayerId, k: nat, bombs: nat, power: nat) {
    && p < |s.players| && k < |s.planets| && t.bgs == s.bgs
    && t.players == s.players[p := TurnSpent(s.players[p]).(inv := Adjusted(TurnSpent(s.players[p]).inv, Pulsar, 0 - bombs))]
    && exists bombed :: Bombed(s.planets[k], bombed, power)
         && t.planets == if Barren(bombed) then s.planets[..k] + s.planets[k + 1..] else s.planets[k := bombed]
  }

  /** The bombs go down on whoever's planet is here. */
  method DropBombs(w: World, p: PlayerId, k: nat, bombs: nat, power: nat)
    requires w.Valid() && p < |w.players| && k < |w.planets| && HasTurn(w.players[p])
    requires bombs <= w.players[p].Has(Pulsar)
    modifies w`players, w`planets, w`clamped
    ensures w.Valid() && BombsDropped(old(w.View()), w.View(), p, k, bombs, power)
  {
    hide SoundState, Bombed;
    ghost var s := w.View();
    var err := SpendTurn(w, p);
    w.AdjustShip(p, Pulsar, 0 - bombs);
    ShipOk(s, w.numsec, p);
    Refitted(s, w.numsec, p, w.players[p]);
    ghost var t := w.View();
    assert t == s.(players := s.players[p := t.players[p]]);
    PlanetHeld(t, w.numsec, k);
    var destroyed;
    ghost var bombed;
    destroyed, bombed := Bombard(w, k, power);
    BombedKeeps(t.planets[k], bombed, power);
    PlanetRefitted(t, w.numsec, k, bombed);
    PlanetGone(t, w.numsec, k);
  }

  function PulsarRefusal(planets: seq<Planet>, ship: Player, p: PlayerId, bombs: int): (r: Error)
    ensures r.NoError? <==>
              !ship.IsDead() && bombs >= 1 && OwnershipError(planets, p, ship.sector).NoError? && bombs <= ship.Has(Pulsar) && HasTurn(ship)
  {
    if ship.IsDead() then Dead
    else if bombs < 1 then NegativeQuantity
    else if !OwnershipError(planets, p, ship.sector).NoError? then OwnershipError(planets, p, ship.sector)
    else if bombs > ship.Has(Pulsar) then NotEnoughQuantity
    else if !HasTurn(ship) then NoTurns
    else NoError
  }

  /** Bombs on one's own planet, a thousand units of each product a bomb. */
  method UsePulsar(w: World, p: PlayerId, bombs: int) returns (err: Error)
    requires w.Valid() && p < |w.players|
    modifies w`players, w`planets, w`clamped
    ensures w.Valid()
    ensures err == PulsarRefusal(old(w.planets), old(w.players[p]), p, bombs)
    ensures !err.NoError? ==> w.View() == old(w.View())
    ensures err.NoError? ==>
              BombsDropped(old(w.View()), w.View(), p, PlanetIn(old(w.planets), old(w.players[p]).sector), bombs, 1000 * bombs)
  {
    hide SoundState, BombsDropped;
    err := PulsarRefusal(w.planets, w.players[p], p, bombs);
    if err.NoError? {
      var k;
      err, k := GetPlanet(w, p, w.players[p].sector, MUST_EXIST);
      DropBombs(w, p, k, bombs, 1000 * bombs);
    }
  }

  function TubeRefusal(planets: seq<Planet>, ship: Player, bombs: int): (r: Error)
    ensures r.NoError? <==>
              !ship.IsDead() && ship.Has(PulsarTube) >= 1 && bombs >= 1 && PlanetIn(planets, ship.sector) != -1
              && bombs <= ship.Has(Pulsar) && HasTurn(ship)
  {
    if ship.IsDead() then Dead
    else if ship.Has(PulsarTube) < 1 then NotEnoughQuantity
    else if bombs < 1 then NegativeQuantity
    else if PlanetIn(planets, ship.sector) == -1 then NotFound
    else if bombs > ship.Has(Pulsar) then NotEnoughQuantity
    else if !HasTurn(ship) then NoTurns
    else NoError
  }

  /** Bombs from orbit on any planet in the sector, five hundred units of each product a bomb. */
  method UsePulsarTube(w: World, p: PlayerId, bombs: int) returns (err: Error)
    requires w.Valid() && p < |w.players|
    modifies w`players, w`planets, w`clamped
    ensures w.Valid()
    ensures err == TubeRefusal(old(w.planets), old(w.players[p]), bombs)
    ensures !err.NoError? ==> w.View() == old(w.View())
    ensures err.NoError? ==>
              BombsDropped(old(w.View()), w.View(), p, PlanetIn(old(w.planets), old(w.players[p]).sector), bombs, 500 * bombs)
  {
    hide SoundState, BombsDropped;
    err := TubeRefusal(w.planets, w.players[p], bombs);
    if err.NoError? {
      DropBombs(w, p, PlanetIn(w.planets, w.players[p].sector), bombs, 500 * bombs);
    }
  }

  // ----- The bank, and repairs

  /** The ship and account after moving credits between them; the sum is what it was. */
  ghost predicate Banked(s: State, t: State, p: PlayerId, money: int, bank: int, cfg: Config) {
    && p < |s.players| && money >= 0 && bank >= 0
    && t == s.(players := s.players[p := s.players[p].(money := money, bank := bank)])
    && money + bank == s.players[p].money + s.players[p].bank
    && WorthKept(s, t, cfg)
  }

  lemma BankingKeepsWorth(s: State, t: State, p: PlayerId, money: nat, bank: nat, cfg: Config)
    requires p < |s.players| && t == s.(players := s.players[p := s.players[p].(money := money, bank := bank)])
    requires money + bank == s.players[p].money + s.players[p].bank
    ensures WorthKept(s, t, cfg)
  {
    forall i: nat | i < |s.players| ensures Value(t, cfg, i) == Value(s, cfg, i) {
      ValueWithShip(s, cfg, p, t.players[p], i);
    }
  }

  method BankDeposit(w: World, p: PlayerId, amount: int) returns (err: Error)
    requires w.Valid() && p < |w.players|
    modifies w`players, w`clamped
    ensures w.Valid()
    ensures var ship := old(w.players[p]);
            err == if ship.IsDead() then Dead else if amount < 1 then NegativeQuantity
                   else if ship.money < amount then NotEnoughMoney else NoError
    ensures !err.NoError? ==> w.View() == old(w.View())
    ensures err.NoError? ==>
              Banked(old(w.View()), w.View(), p, old(w.players[p]).money - amount, old(w.players[p]).bank + amount, w.cfg)
  {
    hide SoundState, WorthKept;
    ghost var s := w.View();
    if w.players[p].IsDead() {
      return Dead;
    }
    if amount < 1 {
      return NegativeQuantity;
    }
    if w.players[p].money < amount {
      return NotEnoughMoney;
    }
    w.AdjustMoney(p, -amount);
    w.players := w.players[p := w.players[p].(bank := w.players[p].bank + amount)];
    ShipOk(s, w.numsec, p);
    Refitted(s, w.numsec, p, w.players[p]);
    assert w.View() == s.(players := s.players[p := w.players[p]]);
    BankingKeepsWorth(s, w.View(), p, w.players[p].money, w.players[p].bank, w.cfg);
    return NoError;
  }

  method BankWithdraw(w: World, p: PlayerId, amount: int) returns (err: Error)
    requires w.Valid() && p < |w.players|
    modifies w`players, w`clamped
    ensures w.Valid()
    ensures var ship := old(w.players[p]);
            err == if ship.IsDead() then Dead else if amount < 1 then NegativeQuantity
                   else if ship.bank < amount then NotEnoughMoney else NoError
    ensures !err.NoError? ==> w.View() == old(w.View())
    ensures err.NoError? ==>
              Banked(old(w.View()), w.View(), p, old(w.players[p]).money + amount, old(w.players[p]).bank - amount, w.cfg)
  {
    hide SoundState, WorthKept;
    ghost var s := w.View();
    if w.players[p].IsDead() {
      return Dead;
    }
    if amount < 1 {
      return NegativeQuantity;
    }
    if w.players[p].bank < amount {
      return NotEnoughMoney;
    }
    w.players := w.players[p := w.players[p].(bank := w.players[p].bank - amount)];
    w.AdjustMoney(p, amount);
    ShipOk(s, w.numsec, p);
    Refitted(s, w.numsec, p, w.players[p]);
    assert w.View() == s.(players := s.players[p := w.players[p]]);
    BankingKeepsWorth(s, w.View(), p, w.players[p].money, w.players[p].bank, w.cfg);
    return NoError;
  }

  function TotalDamage(systems: Systems): nat {
    systems[0] as nat + systems[1] as nat + systems[2] as nat + systems[3] as nat + systems[4] as nat + systems[5] as nat
  }

  /** All damage repaired for a price per point. */
  method SolRepair(w: World, p: PlayerId) returns (err: Error)
    requires w.Valid() && p < |w.players|
    modifies w`players, w`clamped
    ensures w.Valid()
    ensures var ship := old(w.players[p]);
            err == if ship.systems == INTACT then NotFound
                   else if ship.money < TotalDamage(ship.systems) * w.cfg.costOfRepair then NotEnoughMoney else NoError
    ensures !err.NoError? ==> w.View() == old(w.View())
    ensures err.NoError? ==>
              p < |w.players| && w.players[p].systems == INTACT
              && w.players[p].money == old(w.players[p]).money - TotalDamage(old(w.players[p]).systems) * w.cfg.costOfRepair
              && w.players == old(w.players)[p := old(w.players[p]).(systems := INTACT, money := w.players[p].money)]
  {
    hide SoundState;
    ghost var s := w.View();
    var total := TotalDamage(w.players[p].systems);
    assert total == 0 <==> w.players[p].systems == INTACT;
    if total == 0 {
      return NotFound;
    }
    var cost := total * w.cfg.costOfRepair;
    if w.players[p].money < cost {
      return NotEnoughMoney;
    }
    w.AdjustMoney(p, 0 - cost);
    w.players := w.players[p := w.players[p].(systems := INTACT)];
    ShipOk(s, w.numsec, p);
    Refitted(s, w.numsec, p, w.players[p]);
    assert w.View() == s.(players := s.players[p := w.players[p]]);
    return NoError;
  }
}
