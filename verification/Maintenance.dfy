/** The nightly maintenance run (maintenance.go, dormancy.go, bank.go:56-82). */
module Maintenance {
  import opened Goods
  import opened Entities
  import opened Worlds
  import opened Death
  import opened Bombardment
  import opened Fortunes
  import opened Factions
  import opened Sectors
  import opened Routing
  import opened Ledger
  import Commodities
  import Trading
  import News

  /** The ceiling on stockpiles. */
  const BIL := 1500000000

  // ----- The day's turns

  /** A Fusion Cell carries the unused turns over, up to a day's allowance; without one there is no reserve. */
  function Rested(cfg: Config, p: Player): (r: Player)
    ensures r.Has(Turns) == cfg.turnsPerDay && forall g :: g != Turns ==> r.Has(g) == p.Has(g)
    ensures r.bankedTurns <= cfg.turnsPerDay
  {
    p.(bankedTurns := if p.Has(FusionCell) >= 1 then Least(p.bankedTurns + p.Has(Turns), cfg.turnsPerDay) else 0,
       inv := Stored(p.inv, Turns, cfg.turnsPerDay))
  }

  /** With a Fusion Cell no unused turn is lost until a whole day's allowance is in reserve; without one, all are. */
  lemma TurnsBanked(cfg: Config, p: Player)
    ensures var r := Rested(cfg, p);
            if p.Has(FusionCell) == 0 then r.bankedTurns == 0
            else if r.bankedTurns < cfg.turnsPerDay then r.bankedTurns == p.bankedTurns + p.Has(Turns)
            else p.bankedTurns + p.Has(Turns) >= cfg.turnsPerDay
  {
  }

  /** Players who only changed what they carry, bank or bank in turns are still where they may be. */
  lemma Reoutfitted(s: State, numsec: int, players: seq<Player>)
    requires SoundState(s, numsec) && |players| == |s.players|
    requires forall i :: 0 <= i < |players| ==>
               players[i].kind == s.players[i].kind && players[i].sector == s.players[i].sector && players[i].diedAt == s.players[i].diedAt
    ensures SoundState(s.(players := players), numsec)
  {
  }

  method RestPlayers(w: World)
    requires w.Valid()
    modifies w`players
    ensures w.Valid() && |w.players| == |old(w.players)|
    ensures forall i :: 0 <= i < |w.players| ==> w.players[i] == Rested(w.cfg, old(w.players)[i])
  {
    hide SoundState;
    for i: nat := 0 to |w.players|
      invariant |w.players| == |old(w.players)|
      invariant forall j :: 0 <= j < |w.players| ==>
                  w.players[j] == if j < i then Rested(w.cfg, old(w.players)[j]) else old(w.players)[j]
    {
      var banked := 0;
      if w.players[i].Has(FusionCell) >= 1 {
        banked := w.players[i].bankedTurns + w.players[i].Has(Turns);
        if banked > w.cfg.turnsPerDay {
          banked := w.cfg.turnsPerDay;
        }
      }
      w.players := w.players[i := w.players[i].(bankedTurns := banked, inv := Stored(w.players[i].inv, Turns, w.cfg.turnsPerDay))];
    }
    Reoutfitted(old(w.View()), w.numsec, w.players);
  }

  // ----- Planets

  predicate Producing(pl: Planet) {
    Ore in pl.inv && Organics in pl.inv && Equipment in pl.inv
  }

  function StockCap(g: Good, maxMines: nat): nat {
    if g.Mines? then maxMines else BIL
  }

  /** A day's output goes into stock, as far as the ceiling allows. */
  function Stocked(pl: Planet, g: Good, maxMines: nat): (r: Planet)
    ensures r == pl.(inv := r.inv)
    ensures forall h :: Qty(r.inv, h) == if h == g && g in pl.inv then Least(Qty(pl.inv, g) + Qty(pl.prod, g), StockCap(g, maxMines)) else Qty(pl.inv, h)
    ensures r.inv.Keys == pl.inv.Keys
  {
    if g in pl.inv then pl.(inv := pl.inv[g := Least(pl.inv[g] + Qty(pl.prod, g), StockCap(g, maxMines))]) else pl
  }

  /** A stockpile of more than ten days' output raises the rate by a tenth of the excess. */
  function Compounded(stock: nat, rate: nat): nat {
    if stock > 10 * rate then rate + (stock - 10 * rate) / 10 else rate
  }

  function Raised(pl: Planet, g: Good): (r: Planet)
    ensures r == pl.(prod := r.prod)
    ensures forall h :: Qty(r.prod, h) == if h == g then Compounded(Qty(pl.inv, g), Qty(pl.prod, g)) else Qty(pl.prod, h)
  {
    pl.(prod := Stored(pl.prod, g, Compounded(Qty(pl.inv, g), Qty(pl.prod, g))))
  }

  /** The weighted index of production, a quarter of the ore, half of the organics and all of the equipment, rounded half up. */
  function Index(ore: nat, organics: nat, equipment: nat): nat {
    (ore + 2 * organics + 4 * equipment + 2) / 4
  }

  /** The index is the nearest whole number to the weighted sum, and the upper one when two are as near. */
  lemma IndexRounds(ore: nat, organics: nat, equipment: nat)
    ensures var exact := ore as real / 4.0 + organics as real / 2.0 + equipment as real;
            exact - 0.5 < Index(ore, organics, equipment) as real <= exact + 0.5
  {
    var i := Index(ore, organics, equipment);
    assert 4 * i <= ore + 2 * organics + 4 * equipment + 2 < 4 * i + 4;
    assert (4 * i) as real == 4.0 * i as real;
  }

  /** Armament follows industry: a fifth of the index in fighters a day, a thousandth in mines. */
  function Armed(pl: Planet): (r: Planet)
    ensures r == pl.(prod := r.prod)
    ensures forall g :: Qty(r.prod, g) ==
              if g == Fighters && g in pl.inv then Index(Qty(pl.prod, Ore), Qty(pl.prod, Organics), Qty(pl.prod, Equipment)) / 5
              else if g == Mines && g in pl.inv then Index(Qty(pl.prod, Ore), Qty(pl.prod, Organics), Qty(pl.prod, Equipment)) / 1000
              else Qty(pl.prod, g)
  {
    var t := Index(Qty(pl.prod, Ore), Qty(pl.prod, Organics), Qty(pl.prod, Equipment));
    var prod := if Fighters in pl.inv then Stored(pl.prod, Fighters, t / 5) else pl.prod;
    pl.(prod := if Mines in pl.inv then Stored(prod, Mines, t / 1000) else prod)
  }

  const STOCKED: seq<Good> := [Ore, Organics, Equipment, Fighters, Mines]

  /** Every good named that is kept here grew by its rate, up to its ceiling. */
  ghost predicate StockedUp(before: Planet, after: Planet, goods: seq<Good>, maxMines: nat) {
    forall g :: Qty(after.inv, g) ==
      if g in goods && g in before.inv then Least(Qty(before.inv, g) + Qty(before.prod, g), StockCap(g, maxMines)) else Qty(before.inv, g)
  }

  /** Rates grew with the stocks, and armament follows the new rates. */
  ghost predicate RatesRaised(before: Planet, after: Planet) {
    && (forall g :: IsCargo(g) ==> Qty(after.prod, g) == Compounded(Qty(after.inv, g), Qty(before.prod, g)))
    && (forall g :: !IsCargo(g) && g != Fighters && g != Mines ==> Qty(after.prod, g) == Qty(before.prod, g))
    && var t := Index(Qty(after.prod, Ore), Qty(after.prod, Organics), Qty(after.prod, Equipment));
       && Qty(after.prod, Fighters) == (if Fighters in before.inv then t / 5 else Qty(before.prod, Fighters))
       && Qty(after.prod, Mines) == (if Mines in before.inv then t / 1000 else Qty(before.prod, Mines))
  }

  /** A day on a planet: stocks grow by their rates up to the ceilings; then, unless frozen, rates grow with stocks. */
  ghost predicate Grown(before: Planet, after: Planet, maxMines: nat, frozen: bool) {
    && after == before.(inv := after.inv, prod := after.prod)
    && if !Producing(before) then after == before
       else StockedUp(before, after, STOCKED, maxMines) && if frozen then after.prod == before.prod else RatesRaised(before, after)
  }

  ghost predicate Distinct(goods: seq<Good>) {
    forall i, j :: 0 <= i < j < |goods| ==> goods[i] != goods[j]
  }

  /** Stocks of the goods named grow, one after another. */
  method StockUp(w: World, k: nat, goods: seq<Good>)
    requires k < |w.planets| && Distinct(goods)
    modifies w`planets
    ensures |w.planets| == |old(w.planets)| && w.planets == old(w.planets)[k := old(w.planets)[k].(inv := w.planets[k].inv)]
    ensures StockedUp(old(w.planets)[k], w.planets[k], goods, w.cfg.planetMaxMines) && w.planets[k].inv.Keys == old(w.planets)[k].inv.Keys
  {
    hide Least, StockCap, StockedUp, Distinct;
    ghost var pl := w.planets[k];
    NothingStocked(pl, goods, w.cfg.planetMaxMines);
    for i: nat := 0 to |goods|
      invariant |w.planets| == |old(w.planets)| && w.planets == old(w.planets)[k := pl.(inv := w.planets[k].inv)]
      invariant w.planets[k].inv.Keys == pl.inv.Keys
      invariant StockedUp(pl, w.planets[k], goods[..i], w.cfg.planetMaxMines)
    {
      OneMoreStocked(pl, w.planets[k], goods, i, w.cfg.planetMaxMines);
      w.planets := w.planets[k := Stocked(w.planets[k], goods[i], w.cfg.planetMaxMines)];
    }
    assert goods[..|goods|] == goods;
  }

  lemma OneMoreStocked(pl: Planet, grown: Planet, goods: seq<Good>, i: nat, maxMines: nat)
    requires i < |goods| && Distinct(goods) && StockedUp(pl, grown, goods[..i], maxMines)
    requires grown == pl.(inv := grown.inv) && grown.inv.Keys == pl.inv.Keys
    ensures StockedUp(pl, Stocked(grown, goods[i], maxMines), goods[..i + 1], maxMines)
  {
    hide Least, StockCap;
    assert goods[..i + 1] == goods[..i] + [goods[i]];
    assert goods[i] !in goods[..i];
  }

  lemma NothingStocked(pl: Planet, goods: seq<Good>, maxMines: nat)
    ensures StockedUp(pl, pl, goods[..0], maxMines)
  {
  }

  lemma StockedDistinct()
    ensures Distinct(STOCKED)
  {
  }

  /** The rates of the products named have grown with the stocks. */
  ghost predicate RaisedFor(before: Planet, after: Planet, goods: seq<Good>) {
    forall g :: Qty(after.prod, g) == if g in goods then Compounded(Qty(before.inv, g), Qty(before.prod, g)) else Qty(before.prod, g)
  }

  method RaiseRates(w: World, k: nat)
    requires k < |w.planets|
    modifies w`planets
    ensures |w.planets| == |old(w.planets)| && w.planets == old(w.planets)[k := old(w.planets)[k].(prod := w.planets[k].prod)]
    ensures RatesRaised(old(w.planets)[k], w.planets[k])
  {
    hide Index, Compounded, RaisedFor, RatesRaised;
    ghost var pl := w.planets[k];
    NothingRaised(pl);
    for i: nat := 0 to |PRODUCTS|
      invariant |w.planets| == |old(w.planets)| && w.planets == old(w.planets)[k := pl.(prod := w.planets[k].prod)]
      invariant RaisedFor(pl, w.planets[k], PRODUCTS[..i])
    {
      OneMoreRaised(pl, w.planets[k], i);
      w.planets := w.planets[k := Raised(w.planets[k], PRODUCTS[i])];
    }
    assert PRODUCTS[..|PRODUCTS|] == PRODUCTS;
    RaisedAndArmed(pl, w.planets[k]);
    w.planets := w.planets[k := Armed(w.planets[k])];
  }

  lemma NothingRaised(pl: Planet)
    ensures RaisedFor(pl, pl, PRODUCTS[..0])
  {
  }

  lemma OneMoreRaised(pl: Planet, raised: Planet, i: nat)
    requires i < |PRODUCTS| && RaisedFor(pl, raised, PRODUCTS[..i]) && raised.inv == pl.inv
    ensures RaisedFor(pl, Raised(raised, PRODUCTS[i]), PRODUCTS[..i + 1])
  {
    hide Compounded;
    assert PRODUCTS[..i + 1] == PRODUCTS[..i] + [PRODUCTS[i]];
    assert PRODUCTS[i] !in PRODUCTS[..i];
  }

  lemma RaisedAndArmed(pl: Planet, raised: Planet)
    requires RaisedFor(pl, raised, PRODUCTS) && raised.inv == pl.inv
    ensures RatesRaised(pl, Armed(raised))
  {
    hide Compounded, Index;
    assert PRODUCTS == [Ore, Organics, Equipment];
  }

  method GrowPlanet(w: World, k: nat, frozen: bool)
    requires k < |w.planets|
    modifies w`planets
    ensures |w.planets| == |old(w.planets)| && w.planets == old(w.planets)[k := w.planets[k]]
    ensures Grown(old(w.planets)[k], w.planets[k], w.cfg.planetMaxMines, frozen)
  {
    hide Index, Compounded, StockedUp, RatesRaised, Distinct;
    if Producing(w.planets[k]) {
      ghost var pl := w.planets[k];
      StockedDistinct();
      StockUp(w, k, STOCKED);
      ghost var stocked := w.planets[k];
      if !frozen {
        RaiseRates(w, k);
        SameStock(pl, stocked, w.planets[k], w.cfg.planetMaxMines);
      }
    }
  }

  lemma SameStock(before: Planet, stocked: Planet, after: Planet, maxMines: nat)
    requires StockedUp(before, stocked, STOCKED, maxMines) && after.inv == stocked.inv
    requires stocked == before.(inv := stocked.inv) && stocked.inv.Keys == before.inv.Keys && RatesRaised(stocked, after)
    ensures StockedUp(before, after, STOCKED, maxMines) && RatesRaised(before, after)
  {
    hide Index, Compounded, Least, StockCap;
    assert Fighters in before.inv <==> Fighters in stocked.inv;
    assert Mines in before.inv <==> Mines in stocked.inv;
  }

  /** The part of the index that is made as armament. */
  function ArmsShare(g: Good): nat {
    if g == Fighters then 5 else 1000
  }

  /** The rate a product will have after the night: raised by a tenth of what its stock will then exceed ten days' output by. */
  function NextRate(before: Planet, g: Good): nat {
    Compounded(Least(Qty(before.inv, g) + Qty(before.prod, g), BIL), Qty(before.prod, g))
  }

  /**
    * Overnight the rates of cargo never fall, those of an absent owner's planet coast, and stock within its ceiling
    * never shrinks. The rate of fighters or mines is set anew from the index of the rates the products will have, and
    * so falls exactly when that supports fewer of them than the planet was making; no other rate changes.
    */
  lemma GrowthOnly(before: Planet, after: Planet, maxMines: nat, frozen: bool, g: Good)
    requires Grown(before, after, maxMines, frozen)
    ensures IsCargo(g) ==> Qty(before.prod, g) <= Qty(after.prod, g)
    ensures frozen ==> after.prod == before.prod
    ensures g == Fighters || g == Mines ==>
              (Qty(after.prod, g) < Qty(before.prod, g)
               <==> && Producing(before) && !frozen && g in before.inv
                    && Index(NextRate(before, Ore), NextRate(before, Organics), NextRate(before, Equipment)) / ArmsShare(g) < Qty(before.prod, g))
    ensures !IsCargo(g) && g != Fighters && g != Mines ==> Qty(after.prod, g) == Qty(before.prod, g)
    ensures Qty(before.inv, g) <= StockCap(g, maxMines) ==> Qty(before.inv, g) <= Qty(after.inv, g) <= Qty(before.inv, g) + Qty(before.prod, g)
  {
    hide Index;
    if Producing(before) && !frozen {
      NextRates(before, after, maxMines);
      hide Compounded, Least;
      if IsCargo(g) {
        CargoRaised(before, after, g);
      }
    }
  }

  lemma NextRates(before: Planet, after: Planet, maxMines: nat)
    requires Grown(before, after, maxMines, false) && Producing(before)
    ensures forall g :: IsCargo(g) ==> Qty(after.prod, g) == NextRate(before, g)
  {
    hide Index, Compounded, Least;
    assert forall g :: IsCargo(g) ==> g in STOCKED && g in before.inv && StockCap(g, maxMines) == BIL;
  }

  /** A planet bombed down to its last ore mine still made ten fighters a day until night; from then on it makes none. */
  lemma ArmsCanFall(after: Planet, maxMines: nat)
    requires Grown(Planet(0, 11, "", map[Ore := 0, Organics := 0, Equipment := 0, Fighters := 0], map[Ore := 1, Fighters := 10]), after, maxMines, false)
    ensures Qty(after.prod, Ore) == 1 && Qty(after.prod, Fighters) == 0
  {
    var before := Planet(0, 11, "", map[Ore := 0, Organics := 0, Equipment := 0, Fighters := 0], map[Ore := 1, Fighters := 10]);
    NextRates(before, after, maxMines);
    assert NextRate(before, Ore) == 1 && NextRate(before, Organics) == 0 && NextRate(before, Equipment) == 0;
    assert RatesRaised(before, after);
  }

  lemma CargoRaised(before: Planet, after: Planet, g: Good)
    requires RatesRaised(before, after) && IsCargo(g)
    ensures Qty(before.prod, g) <= Qty(after.prod, g)
  {
    hide Index;
  }

  /** Only what planets hold or make has changed. */
  lemma Resupplied(s: State, numsec: int, planets: seq<Planet>)
    requires SoundState(s, numsec) && |planets| == |s.planets|
    requires forall k :: 0 <= k < |planets| ==> planets[k] == s.planets[k].(inv := planets[k].inv, prod := planets[k].prod)
    ensures SoundState(s.(planets := planets), numsec)
  {
  }

  /** Whether the planet's owner is away. */
  predicate Unattended(players: seq<Player>, pl: Planet, cfg: Config, now: int) {
    pl.owner < |players| && Dormant(players[pl.owner], cfg, now)
  }

  method GrowPlanets(w: World, now: int)
    requires w.Valid()
    modifies w`planets
    ensures w.Valid() && |w.planets| == |old(w.planets)|
    ensures forall k :: 0 <= k < |w.planets| ==>
              Grown(old(w.planets)[k], w.planets[k], w.cfg.planetMaxMines, Unattended(w.players, old(w.planets)[k], w.cfg, now))
  {
    hide SoundState, Grown;
    for k: nat := 0 to |w.planets|
      invariant |w.planets| == |old(w.planets)|
      invariant forall j :: 0 <= j < k ==>
                  Grown(old(w.planets)[j], w.planets[j], w.cfg.planetMaxMines, Unattended(w.players, old(w.planets)[j], w.cfg, now))
      invariant forall j :: k <= j < |w.planets| ==> w.planets[j] == old(w.planets)[j]
    {
      GrowPlanet(w, k, Unattended(w.players, w.planets[k], w.cfg, now));
    }
    forall j | 0 <= j < |w.planets|
      ensures w.planets[j] == old(w.planets)[j].(inv := w.planets[j].inv, prod := w.planets[j].prod)
    {
      GrownKeeps(old(w.planets)[j], w.planets[j], w.cfg.planetMaxMines, Unattended(w.players, old(w.planets)[j], w.cfg, now));
    }
    Resupplied(old(w.View()), w.numsec, w.planets);
  }

  lemma GrownKeeps(before: Planet, after: Planet, maxMines: nat, frozen: bool)
    requires Grown(before, after, maxMines, frozen)
    ensures after == before.(inv := after.inv, prod := after.prod)
  {
  }

  // ----- Repossession

  /** Absent so long that everything is forfeited, once. */
  predicate Overdue(p: Player, cfg: Config, now: int) {
    !p.IsNpc() && !p.IsDead() && !p.expired && p.Absent(now) >= cfg.expireDays * DAY
  }

  /** An asset of an overdue player among the first n goes to an heir; every other keeps its owner. */
  ghost predicate Reassigned(s: State, players: seq<Player>, cfg: Config, now: int, n: nat, before: PlayerId, after: PlayerId, heirs: set<Kind>) {
    if before < n && before < |s.players| && Overdue(s.players[before], cfg, now)
    then after < |players| && players[after].kind in heirs
    else after == before
  }

  /** The first n players' absences dealt with: the overdue fly fresh ships at Sol, and their assets have passed on. */
  ghost predicate Evicted(s: State, t: State, cfg: Config, now: int, n: nat) {
    && |s.players| <= |t.players| && |t.bgs| == |s.bgs| && |t.planets| == |s.planets|
    && (forall i :: 0 <= i < |s.players| ==>
          t.players[i] == if i < n && Overdue(s.players[i], cfg, now) then Repossessed(cfg, s.players[i]) else s.players[i])
    && (forall i :: |s.players| <= i < |t.players| ==> t.players[i] == FactionRecord(t.players[i].kind) && t.players[i].IsNpc())
    && (forall k :: 0 <= k < |t.bgs| ==>
          t.bgs[k] == s.bgs[k].(owner := t.bgs[k].owner)
          && Reassigned(s, t.players, cfg, now, n, s.bgs[k].owner, t.bgs[k].owner, GARRISON_HEIRS))
    && (forall k :: 0 <= k < |t.planets| ==>
          t.planets[k] == s.planets[k].(owner := t.planets[k].owner)
          && Reassigned(s, t.players, cfg, now, n, s.planets[k].owner, t.planets[k].owner, PLANET_HEIRS))
  }

  lemma EvictOne(s: State, t: State, u: State, cfg: Config, now: int, n: nat)
    requires Evicted(s, t, cfg, now, n) && n < |s.players| && Overdue(s.players[n], cfg, now)
    requires AssetsForfeited(t, u, n) && n < |u.players|
    ensures Evicted(s, u.(players := u.players[n := Repossessed(cfg, s.players[n])]), cfg, now, n + 1)
  {
    assert t.players[n] == s.players[n];
  }

  lemma SkipOne(s: State, t: State, cfg: Config, now: int, n: nat)
    requires Evicted(s, t, cfg, now, n) && n < |s.players| && !Overdue(s.players[n], cfg, now)
    ensures Evicted(s, t, cfg, now, n + 1)
  {
  }

  method ExpirePlayers(w: World, now: int)
    requires w.Valid()
    modifies w`players, w`bgs, w`planets
    ensures w.Valid() && Evicted(old(w.View()), w.View(), w.cfg, now, |old(w.players)|)
  {
    hide SoundState, Evicted, AssetsForfeited, Manned;
    ghost var s := w.View();
    NobodyEvicted(s, w.cfg, now);
    for i: nat := 0 to |w.players|
      invariant w.Valid() && |s.players| <= |w.players|
      invariant Evicted(s, w.View(), w.cfg, now, i)
    {
      ghost var t := w.View();
      NotYet(s, t, w.cfg, now, i);
      if Overdue(w.players[i], w.cfg, now) {
        ExpirePlayer(w, i);
        ghost var u :| AssetsForfeited(t, u, i) && i < |u.players|
                       && w.View() == u.(players := u.players[i := Repossessed(w.cfg, t.players[i])]);
        EvictOne(s, t, u, w.cfg, now, i);
      } else {
        SkipOne(s, t, w.cfg, now, i);
      }
      EvictedManned(s, w.View(), w.cfg, now, i + 1);
    }
  }

  lemma NotYet(s: State, t: State, cfg: Config, now: int, n: nat)
    requires Evicted(s, t, cfg, now, n) && n < |s.players|
    ensures n < |t.players| && t.players[n] == s.players[n]
  {
  }

  lemma NobodyEvicted(s: State, cfg: Config, now: int)
    ensures Evicted(s, s, cfg, now, 0)
  {
  }

  lemma EvictedManned(s: State, t: State, cfg: Config, now: int, n: nat)
    requires Evicted(s, t, cfg, now, n)
    ensures Manned(s.bgs) ==> Manned(t.bgs)
    ensures |s.players| <= |t.players|
  {
  }

  // ----- Interest

  /** One night's interest, on the balance up to a cap; the accounts of factions and of the absent coast. */
  function Interest(cfg: Config, p: Player, now: int): (r: nat)
    ensures r <= p.bank * cfg.bankInterestPct / 100
  {
    var base := Least(p.bank, cfg.bankInterestCap);
    InterestBound(base, p.bank, cfg.bankInterestPct);
    if p.IsNpc() || Dormant(p, cfg, now) then 0 else base * cfg.bankInterestPct / 100
  }

  lemma InterestBound(base: nat, bank: nat, pct: nat)
    requires base <= bank
    ensures base * pct / 100 <= bank * pct / 100
  {
    Scaled(base, bank, pct + 1);
    assert base * pct <= bank * pct by {
      assert bank * pct - base * pct == (bank - base) * pct;
    }
  }

  method CreditBankInterest(w: World, now: int)
    requires w.Valid()
    modifies w`players
    ensures w.Valid() && |w.players| == |old(w.players)|
    ensures forall i :: 0 <= i < |w.players| ==>
              w.players[i] == old(w.players)[i].(bank := old(w.players)[i].bank + Interest(w.cfg, old(w.players)[i], now))
  {
    hide SoundState;
    for i: nat := 0 to |w.players|
      invariant |w.players| == |old(w.players)|
      invariant forall j :: 0 <= j < |w.players| ==>
                  w.players[j] == old(w.players)[j].(bank := old(w.players)[j].bank + if j < i then Interest(w.cfg, old(w.players)[j], now) else 0)
    {
      if !w.players[i].IsNpc() && w.players[i].bank > 0 && !Dormant(w.players[i], w.cfg, now) {
        var base := w.players[i].bank;
        if base > w.cfg.bankInterestCap {
          base := w.cfg.bankInterestCap;
        }
        var gain := base * w.cfg.bankInterestPct / 100;
        if gain > 0 {
          w.players := w.players[i := w.players[i].(bank := w.players[i].bank + gain)];
        }
      }
    }
    Reoutfitted(old(w.View()), w.numsec, w.players);
  }

  // ----- The whole night

  /** A player's record on the eve of the faction pass. */
  function OnTheEve(cfg: Config, p: Player, now: int): Player {
    var rested := Rested(cfg, p);
    var housed := if Overdue(p, cfg, now) then Repossessed(cfg, rested) else rested;
    housed.(bank := housed.bank + Interest(cfg, housed, now))
  }

  /** The world on the eve of the faction pass. */
  ghost predicate Eve(s: State, t: State, cfg: Config, now: int) {
    && |s.players| <= |t.players| && |t.bgs| == |s.bgs| && |t.planets| == |s.planets|
    && (forall i :: 0 <= i < |s.players| ==> t.players[i] == OnTheEve(cfg, s.players[i], now))
    && (forall i :: |s.players| <= i < |t.players| ==> t.players[i].IsNpc())
    && (forall k :: 0 <= k < |t.bgs| ==>
          t.bgs[k] == s.bgs[k].(owner := t.bgs[k].owner)
          && Reassigned(s, t.players, cfg, now, |s.players|, s.bgs[k].owner, t.bgs[k].owner, GARRISON_HEIRS))
    && (forall k :: 0 <= k < |t.planets| ==>
          Grown(s.planets[k], t.planets[k].(owner := s.planets[k].owner), cfg.planetMaxMines, Unattended(s.players, s.planets[k], cfg, now))
          && Reassigned(s, t.players, cfg, now, |s.players|, s.planets[k].owner, t.planets[k].owner, PLANET_HEIRS))
  }

  lemma EveFalls(s: State, a: State, b: State, c: State, t: State, cfg: Config, now: int)
    requires |a.players| == |s.players| && a == s.(players := a.players)
    requires forall i :: 0 <= i < |a.players| ==> a.players[i] == Rested(cfg, s.players[i])
    requires |b.planets| == |a.planets| && b == a.(planets := b.planets)
    requires forall k :: 0 <= k < |b.planets| ==>
               Grown(a.planets[k], b.planets[k], cfg.planetMaxMines, Unattended(a.players, a.planets[k], cfg, now))
    requires Evicted(b, c, cfg, now, |b.players|)
    requires |t.players| == |c.players| && t == c.(players := t.players)
    requires forall i :: 0 <= i < |t.players| ==> t.players[i] == c.players[i].(bank := c.players[i].bank + Interest(cfg, c.players[i], now))
    ensures Eve(s, t, cfg, now)
  {
    hide Grown, Interest, Rested, Repossessed;
    forall i | 0 <= i < |s.players|
      ensures Overdue(a.players[i], cfg, now) == Overdue(s.players[i], cfg, now)
      ensures Dormant(a.players[i], cfg, now) == Dormant(s.players[i], cfg, now)
    {
      RestKeeps(cfg, s.players[i]);
    }
    forall k | 0 <= k < |t.planets| ensures t.planets[k].(owner := s.planets[k].owner) == b.planets[k] {
      GrownKeeps(a.planets[k], b.planets[k], cfg.planetMaxMines, Unattended(a.players, a.planets[k], cfg, now));
    }
  }

  lemma RestKeeps(cfg: Config, p: Player)
    ensures Rested(cfg, p) == p.(inv := Rested(cfg, p).inv, bankedTurns := Rested(cfg, p).bankedTurns)
  {
  }

  method Prepare(w: World, ports: seq<Trading.Port>, now: int)
    requires w.Valid() && Trading.Separate(ports)
    modifies w`players, w`bgs, w`planets, Trading.Stocks(ports)
    ensures w.Valid() && Eve(old(w.View()), w.View(), w.cfg, now)
    ensures forall c :: c in Trading.Stocks(ports) ==> c.State() == Commodities.Polled(old(c.State()), now)
  {
    hide SoundState, Manned, Grown, Evicted, Eve, Rested, Commodities.Polled;
    ghost var s := w.View();
    RestPlayers(w);
    ghost var a := w.View();
    Trading.RestockAll(ports, now);
    GrowPlanets(w, now);
    ghost var b := w.View();
    ExpirePlayers(w, now);
    ghost var c := w.View();
    CreditBankInterest(w, now);
    EveFalls(s, a, b, c, w.View(), w.cfg, now);
  }

  /** A ship in dock at Sol or its neighbours, and not about to be repossessed. */
  predicate SafeInDock(p: Player, cfg: Config, now: int) {
    !p.IsNpc() && !p.IsDead() && p.InFedSpace() && !Overdue(p, cfg, now)
  }

  /** The same ship in the same place in the same repair: nothing aboard is missing but turns, which start afresh. */
  ghost predicate NightOver(before: Player, after: Player, cfg: Config) {
    && after == before.(inv := after.inv, bankedTurns := after.bankedTurns, bank := after.bank)
    && (forall g :: g != Turns ==> after.Has(g) == before.Has(g))
    && after.Has(Turns) == cfg.turnsPerDay && after.bankedTurns <= cfg.turnsPerDay
    && after.bank >= before.bank
  }

  lemma SleptWell(s: State, t: State, cfg: Config, now: Time, i: PlayerId)
    requires Eve(s, t, cfg, now) && i < |s.players| && SafeInDock(s.players[i], cfg, now)
    ensures i < |t.players| && NightOver(s.players[i], t.players[i], cfg) && Protected(t, cfg, i, now)
  {
    hide Value;
    RestKeeps(cfg, s.players[i]);
  }

  /** News older than a week is old. */
  const NEWS_AGE := 7 * DAY

  /**
    * The nightly run, at most once a day. Its housekeeping is done before the factions take their turn, ports are
    * brought up to date, delivered news a week old is dropped, and nobody safe in dock when it started is any worse off
    * for the whole of it.
    */
  method RunDailyMaintenance(w: World, ports: seq<Trading.Port>, board: News.Board, now: Time) returns (ran: bool, ghost eve: State)
    requires w.Valid() && Charted(w.sectors) && |w.sectors| < MAX_INT && w.cfg.costFighter > 0
    requires Trading.Separate(ports) && board.Valid()
    modifies w`players, w`bgs, w`planets, w`clamped, w`cabalActive, w`renActive, w`lastMaint
    modifies Trading.Stocks(ports), board`hi, board.buf
    ensures board.Valid() && board.Items() == if ran then News.Trimmed(old(board.Items()), now - NEWS_AGE) else old(board.Items())
    ensures forall c :: c in Trading.Stocks(ports) ==>
              c.State() == if ran then Commodities.Polled(old(c.State()), now) else old(c.State())
    ensures w.Valid() && |old(w.players)| <= |w.players|
    ensures ran <==> old(w.lastMaint) != now / DAY
    ensures w.lastMaint == now / DAY
    ensures !ran ==> w.View() == old(w.View()) && w.cabalActive == old(w.cabalActive) && w.renActive == old(w.renActive)
    ensures ran ==> Eve(old(w.View()), eve, w.cfg, now) && NotRicher(eve, w.View(), w.cfg)
    ensures ran ==> Roused(eve, w.cfg, now, old(w.cabalActive), w.cabalActive, w.renActive)
    ensures ran ==> FactionNight(eve, w.View(), w.numsec, w.cfg, ChartOf(w.sectors), now, w.cabalActive, w.renActive)
    ensures ran ==> forall i: nat :: i < |eve.players| && Protected(eve, w.cfg, i, now) ==> i < |w.players| && w.players[i] == eve.players[i]
    ensures ran ==> forall i: nat :: i < |old(w.players)| && SafeInDock(old(w.players)[i], w.cfg, now) ==>
                      NightOver(old(w.players)[i], w.players[i], w.cfg)
    ensures forall k: nat :: k < |w.players| ==>
              if k < |old(w.players)| then w.players[k].kind == old(w.players)[k].kind else w.players[k].IsNpc()
  {
    hide SoundState, Manned, Eve, Protected, NotRicher, NightOver, Charted, Roused, FactionNight, ChartOf, Commodities.Polled, News.Trimmed;
    ghost var s := w.View();
    eve := s;
    var today := now / DAY;
    if w.lastMaint == today {
      return false, s;
    }
    Prepare(w, ports, now);
    eve := w.View();
    EveRoster(s, eve, w.cfg, now);
    RunFactionAI(w, now);
    board.TrimNews(now - NEWS_AGE);
    NightPasses(s, eve, w.View(), w.cfg, now);
    w.lastMaint := today;
    ran := true;
  }

  lemma NightPasses(s: State, eve: State, t: State, cfg: Config, now: Time)
    requires Eve(s, eve, cfg, now) && |s.players| <= |eve.players| <= |t.players|
    requires forall i: nat :: i < |eve.players| && Protected(eve, cfg, i, now) ==> t.players[i] == eve.players[i]
    ensures forall i: nat :: i < |s.players| && SafeInDock(s.players[i], cfg, now) ==> NightOver(s.players[i], t.players[i], cfg)
  {
    hide Eve, Protected, NightOver;
    forall i: nat | i < |s.players| && SafeInDock(s.players[i], cfg, now) ensures NightOver(s.players[i], t.players[i], cfg) {
      SleptWell(s, eve, cfg, now, i);
    }
  }

  lemma EveRoster(s: State, t: State, cfg: Config, now: int)
    requires Eve(s, t, cfg, now)
    ensures |s.players| <= |t.players|
    ensures forall k: nat :: k < |t.players| ==>
              if k < |s.players| then t.players[k].kind == s.players[k].kind else t.players[k].IsNpc()
  {
  }
}
