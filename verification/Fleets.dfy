/** Strike fleets fighting their way along a route (combat.go:391-541). */
module Fleets {
  import opened Goods
  import opened Entities
  import opened Worlds
  import opened Battle
  import opened Fights
  import opened Garrisons
  import opened Commands
  import opened Combat
  import opened Fortunes
  import opened Ledger
  import opened Sectors
  import opened Graphs
  import opened Routing
  import opened Universe

  /** Mines take no notice of a fleet smaller than this. */
  const MINE_TRIGGER := 150

  /** A fleet clears mines at 300 to 499 ships a mine, until the mines or the ships run out. */
  method ClearMines(w: World, k: nat, fleet: nat) returns (left: nat)
    requires !w.clamped && k < |w.bgs|
    modifies w`bgs, w`clamped
    ensures !w.clamped && left <= fleet
    ensures |w.bgs| == |old(w.bgs)| && w.bgs == old(w.bgs)[k := old(w.bgs[k]).(inv := w.bgs[k].inv)]
    ensures Qty(w.bgs[k].inv, Mines) <= Qty(old(w.bgs[k]).inv, Mines)
    ensures forall g :: g != Mines ==> Qty(w.bgs[k].inv, g) == Qty(old(w.bgs[k]).inv, g)
    ensures left == 0 || Qty(w.bgs[k].inv, Mines) == 0
    ensures var blown := Qty(old(w.bgs[k]).inv, Mines) - Qty(w.bgs[k].inv, Mines);
            fleet - left <= 499 * blown && (left > 0 ==> fleet - left >= 300 * blown)
  {
    left := fleet;
    while Qty(w.bgs[k].inv, Mines) > 0 && left > 0
      invariant !w.clamped && left <= fleet
      invariant |w.bgs| == |old(w.bgs)| && w.bgs == old(w.bgs)[k := old(w.bgs[k]).(inv := w.bgs[k].inv)]
      invariant Qty(w.bgs[k].inv, Mines) <= Qty(old(w.bgs[k]).inv, Mines)
      invariant forall g :: g != Mines ==> Qty(w.bgs[k].inv, g) == Qty(old(w.bgs[k]).inv, g)
      invariant var blown := Qty(old(w.bgs[k]).inv, Mines) - Qty(w.bgs[k].inv, Mines);
                fleet - left <= 499 * blown && (left > 0 ==> fleet - left >= 300 * blown)
      decreases Qty(w.bgs[k].inv, Mines)
    {
      var a := Roll(200);
      a := a + 300;
      if a > left {
        a := left;
      }
      left := left - a;
      w.AdjustGarrison(k, Mines, -1);
    }
  }

  /** The fleet against one garrison: its fighters, and then its mines if the fleet is large enough to set them off. */
  method Skirmish(w: World, k: nat, fleet: nat) returns (left: nat)
    requires !w.clamped && k < |w.bgs| && fleet > 0
    modifies w`bgs, w`clamped
    ensures !w.clamped && left <= fleet
    ensures |w.bgs| == |old(w.bgs)| && w.bgs == old(w.bgs)[k := old(w.bgs[k]).(inv := w.bgs[k].inv)]
    ensures forall g :: Qty(w.bgs[k].inv, g) <= Qty(old(w.bgs[k]).inv, g)
    ensures forall g :: g != Fighters && g != Mines ==> Qty(w.bgs[k].inv, g) == Qty(old(w.bgs[k]).inv, g)
    ensures left == 0 || Qty(w.bgs[k].inv, Fighters) == 0
    ensures left >= MINE_TRIGGER ==> Qty(w.bgs[k].inv, Mines) == 0
    ensures fleet < MINE_TRIGGER ==> Qty(w.bgs[k].inv, Mines) == Qty(old(w.bgs[k]).inv, Mines)
    ensures Skirmished(old(w.bgs[k]).inv, fleet, w.bgs[k].inv, left)
  {
    left := fleet;
    ghost var rest, lost := fleet, 0;
    assert Exchanged(fleet, 0, 0, 0);
    if Qty(w.bgs[k].inv, Fighters) > 0 {
      var aLoss: int, dLoss: int := Attrition(left, Qty(w.bgs[k].inv, Fighters));
      left := left - aLoss;
      w.AdjustGarrison(k, Fighters, -dLoss);
      rest, lost := left, dLoss;
    }
    if Qty(w.bgs[k].inv, Mines) > 0 && left >= MINE_TRIGGER {
      left := ClearMines(w, k, left);
    }
    assert Exchanged(fleet, Qty(old(w.bgs[k]).inv, Fighters), fleet - rest, lost);
  }

  /**
    * A fleet against a garrison: an exchange with its fighters, and if enough ships are left to set them off, its
    * mines, at 300 to 499 ships a mine as far as the ships go.
    */
  ghost predicate Skirmished(stores: Inventory, fleet: nat, stores': Inventory, left: nat) {
    exists aLoss: nat, dLoss: nat ::
      && Exchanged(fleet, Qty(stores, Fighters), aLoss, dLoss) && left <= fleet - aLoss
      && Qty(stores', Fighters) == Qty(stores, Fighters) - dLoss && Qty(stores', Mines) <= Qty(stores, Mines)
      && var rest, blown := fleet - aLoss - left, Qty(stores, Mines) - Qty(stores', Mines);
         if fleet - aLoss < MINE_TRIGGER then rest == 0 && blown == 0
         else rest <= 499 * blown && (left > 0 ==> rest >= 300 * blown && Qty(stores', Mines) == 0)
  }

  lemma NoSkirmish(fleet: nat)
    ensures Skirmished(map[], fleet, map[], fleet)
  {
    var none: Inventory := map[];
    assert Exchanged(fleet, Qty(none, Fighters), 0, 0);
  }

  lemma SkirmishedAlike(stores: Inventory, fleet: nat, a: Inventory, b: Inventory, left: nat)
    requires Skirmished(stores, fleet, a, left) && Qty(a, Fighters) == Qty(b, Fighters) && Qty(a, Mines) == Qty(b, Mines)
    ensures Skirmished(stores, fleet, b, left)
  {
  }

  /** No foreign fighter stands in a sector just when its force, if any, is one's own or has none. */
  lemma ClearExactly(s: State, numsec: int, p: PlayerId, sec: int)
    requires SoundState(s, numsec)
    ensures NoFighters(s.bgs, p, sec) <==> OwnerAt(s.bgs, sec) in {-1, p as int} || Qty(At(s.bgs, sec), Fighters) == 0
  {
    var k := AtSome(s.bgs, sec);
    assert k >= 0 ==> (IsHostile(s.bgs, p, sec, k) <==> s.bgs[k].owner != p);
  }

  /** A sector once cleared stays clear through fights that do not cost its visitor's life. */
  lemma StillClear(s: State, t: State, numsec: int, p: PlayerId, sec: int, who: set<PlayerId>, where: set<int>)
    requires SoundState(s, numsec) && SoundState(t, numsec) && Worn(s, t, who, where)
    requires Alive(s.players, p) && p !in who && NoFighters(s.bgs, p, sec)
    ensures NoFighters(t.bgs, p, sec)
  {
    ClearExactly(s, numsec, p, sec);
    ClearExactly(t, numsec, p, sec);
    var k := AtSome(t.bgs, sec);
    hide SoundState, NoFighters, Total, At, OwnerAt;
    assert Qty(At(t.bgs, sec), Fighters) <= Qty(At(s.bgs, sec), Fighters);
    assert t.players[p] == s.players[p];
    assert OwnerAt(s.bgs, sec) == p ==> OwnerAt(t.bgs, sec) in {-1, p as int};
  }

  /** The fleet fights the sector's hostile garrison, fighters first and then mines. */
  method FightGarrison(w: World, sender: PlayerId, sec: nat, fleet: nat) returns (left: nat)
    requires w.Valid() && fleet > 0
    modifies w`bgs, w`clamped
    ensures w.Valid() && Worn(old(w.View()), w.View(), {}, {sec}) && left <= fleet
    ensures left > 0 ==> NoFighters(w.bgs, sender, sec)
    ensures left >= MINE_TRIGGER ==> Cleared(w.bgs, sender, sec)
    ensures fleet < MINE_TRIGGER ==> Qty(At(w.bgs, sec), Mines) == Qty(At(old(w.bgs), sec), Mines)
    ensures (forall k :: !IsHostile(old(w.bgs), sender, sec, k)) ==> left == fleet && w.bgs == old(w.bgs)
    ensures NotRicher(old(w.View()), w.View(), w.cfg)
    ensures Skirmished(HostileStores(old(w.bgs), sender, sec), fleet, HostileStores(w.bgs, sender, sec), left)
  {
    hide SoundState, Worn, Manned, NotRicher, At, Skirmished, HostileStores;
    left := fleet;
    var k := HostileBattlegroup(w, sender, sec);
    HostileStoresAre(w.View(), w.numsec, sender, sec);
    NoSkirmish(fleet);
    NothingWorn(w.View(), {}, {sec});
    SameFortunes(w.View(), w.cfg);
    if k == -1 {
      return;
    }
    ghost var s := w.View();
    OnlyHostile(s, w.numsec, sender, sec, k);
    left := Skirmish(w, k, left);
    ForceHit(s, w.numsec, k, w.bgs[k].inv);
    ghost var t := w.View();
    EdgeManned(s.bgs, k, w.bgs[k].inv);
    assert t == s.(bgs := s.bgs[k := s.bgs[k].(inv := t.bgs[k].inv)]);
    OnlyHostile(t, w.numsec, sender, sec, k);
    AtIs(s, w.numsec, k);
    AtIs(t, w.numsec, k);
    ForceHitNotRicher(s, k, w.bgs[k].inv, w.cfg);
    DisbandedNotRicher(t, k, w.cfg);
    DisbandIfEmpty(w, k);
    SameFortunes(t, w.cfg);
    NotRicherOn(s, t, w.View(), w.cfg);
    SameMines(t, w.View(), sec);
    WornWider(t, w.View(), {}, {}, {}, {sec});
    WornOn(s, t, w.View(), w.numsec, {}, {sec});
    EmptyStores(t.bgs[k].inv);
    HostileStoresAre(w.View(), w.numsec, sender, sec);
    SkirmishedAlike(s.bgs[k].inv, fleet, t.bgs[k].inv, HostileStores(w.bgs, sender, sec), left);
  }

  lemma AtIs(s: State, numsec: int, k: nat)
    requires SoundState(s, numsec) && k < |s.bgs|
    ensures At(s.bgs, s.bgs[k].sector) == s.bgs[k].inv
  {
    AtIndex(s.bgs, k);
  }

  lemma SameMines(s: State, t: State, sec: int)
    requires Worn(s, t, {}, {})
    ensures Qty(At(t.bgs, sec), Mines) == Qty(At(s.bgs, sec), Mines)
  {
  }

  /** The traders a fleet could come upon: everyone but its sender who is outside Federation space. */
  ghost function Exposed(players: seq<Player>, sender: PlayerId): set<PlayerId> {
    set i: nat | i < |players| && i != sender && !players[i].InFedSpace() && !players[i].IsNpc()
  }

  /** Every ship was at most fought with. */
  ghost predicate AllFought(before: seq<Player>, after: seq<Player>, now: Time) {
    |before| <= |after| && forall i :: 0 <= i < |before| ==> Fought(before[i], after[i], 0, now)
  }

  lemma AllUnharmed(players: seq<Player>, now: Time)
    ensures AllFought(players, players, now)
  {
    forall i | 0 <= i < |players| ensures Fought(players[i], players[i], 0, now) {
      Unharmed(players[i], 0, now);
    }
  }

  lemma AllFoughtOn(a: seq<Player>, b: seq<Player>, c: seq<Player>, now: Time)
    requires AllFought(a, b, now) && AllFought(b, c, now)
    ensures AllFought(a, c, now)
  {
    hide Fought;
    forall i | 0 <= i < |a| ensures Fought(a[i], c[i], 0, now) {
      FoughtOn(a[i], b[i], c[i], 0, now);
    }
  }

  lemma OneFought(a: seq<Player>, b: seq<Player>, i: PlayerId, now: Time)
    requires i < |a| && KeptBut(a, b, {i}) && Fought(a[i], b[i], 0, now)
    ensures AllFought(a, b, now)
  {
    hide Fought;
    forall j | 0 <= j < |a| ensures Fought(a[j], b[j], 0, now) {
      if j != i {
        assert b[j] == a[j];
        Unharmed(a[j], 0, now);
      }
    }
  }

  /** Who lies in a fleet's way never widens as it goes. */
  lemma ExposedShrinks(s: State, t: State, numsec: int, sender: PlayerId, where: set<int>)
    requires SoundState(s, numsec) && SoundState(t, numsec) && Worn(s, t, Exposed(s.players, sender), where)
    ensures Exposed(t.players, sender) <= Exposed(s.players, sender)
  {
    WornKept(s, t, Exposed(s.players, sender), where);
    hide Worn, SoundState;
    assert forall i :: i in Exposed(t.players, sender) ==> i < |s.players|;
  }

  /** The fleet against one ship. */
  method EngageShip(w: World, i: PlayerId, fleet: nat, now: Time) returns (left: nat)
    requires w.Valid() && Alive(w.players, i) && !w.players[i].IsNpc()
    modifies w`players, w`bgs, w`planets, w`clamped
    ensures w.Valid() && Worn(old(w.View()), w.View(), {i}, {}) && i < |w.players|
    ensures Fought(old(w.players[i]), w.players[i], 0, now) && left <= fleet
    ensures fleet > 0 ==> left == 0 || w.players[i].Has(Fighters) == 0
    ensures w.players[i].Has(Fighters) == 0 ==> w.players[i].IsDead() || w.players[i].Has(EmWarp) < old(w.players[i]).Has(EmWarp)
    ensures Clashed(old(w.players[i]), w.players[i], fleet, left)
  {
    hide SoundState, Worn, Fought, Manned, Aftermath, Overcome, Exchanged;
    var bLoss: int, cLoss: int := Attrition(fleet, w.players[i].Has(Fighters));
    left := fleet - bLoss;
    w.AdjustShip(i, Fighters, -cLoss);
    ghost var s, t := old(w.View()), w.View();
    LosingFighters(s.players[i], cLoss, 0, now);
    ShipOk(s, w.numsec, i);
    ShipHit(s, w.numsec, i, w.players[i]);
    if w.players[i].Has(Fighters) == 0 {
      var escaped := EscapeOrDie(w, i, now);
      FleetCounts(t.players[i], w.players[i], now);
      AftermathWorn(t, w.View(), w.numsec, {i});
      AllStillManned(t, w.View(), {i});
      WornOn(s, t, w.View(), w.numsec, {i}, {});
      FoughtOn(s.players[i], t.players[i], w.players[i], 0, now);
    }
    ClashedSo(s.players[i], t.players[i], w.players[i], fleet, left, cLoss);
  }

  /** A fleet against a ship: an exchange, and a ship that loses it gets away or is destroyed. */
  ghost predicate Clashed(before: Player, after: Player, fleet: nat, left: nat) {
    exists loss: nat ::
      && left <= fleet && Exchanged(fleet, before.Has(Fighters), fleet - left, loss)
      && if loss == before.Has(Fighters) then Overcome(before, after) else after == Fewer(before, loss)
  }

  lemma ClashedSo(before: Player, hit: Player, after: Player, fleet: nat, left: nat, loss: nat)
    requires left <= fleet && Exchanged(fleet, before.Has(Fighters), fleet - left, loss) && hit == Fewer(before, loss)
    requires if hit.Has(Fighters) == 0 then Overcome(hit, after) else after == hit
    ensures Clashed(before, after, fleet, left)
  {
    hide Exchanged;
    assert loss <= before.Has(Fighters) by { Bounded(fleet, before.Has(Fighters), fleet - left, loss); }
  }

  lemma Bounded(a: nat, d: nat, aLoss: nat, dLoss: nat)
    requires Exchanged(a, d, aLoss, dLoss)
    ensures aLoss <= a && dLoss <= d
  {
  }

  /** A fleet that met a ship and is not destroyed has destroyed it or driven it off. */
  predicate Gone(before: Player, after: Player) {
    after.IsDead() || after.Has(EmWarp) < before.Has(EmWarp)
  }

  /** Of the ships a fleet could see in the sectors of its route, outside Federation space, none is left there. */
  ghost predicate SeenOff(before: seq<Player>, after: seq<Player>, cfg: Config, sender: PlayerId, route: seq<nat>, now: Time)
    requires sender < |before| <= |after|
  {
    forall i: nat, r :: i < |before| && r in route && r > FED_SPACE && Visible(before, cfg, sender, i, r, now) ==> Gone(before[i], after[i])
  }

  /** Nothing lies in the way of a fleet along the route. */
  ghost predicate Unopposed(bgs: seq<Battlegroup>, players: seq<Player>, cfg: Config, sender: PlayerId, route: seq<nat>, now: Time)
    requires sender < |players|
  {
    && (forall r, k :: r in route ==> !IsHostile(bgs, sender, r, k))
    && forall i: nat, r :: i < |players| && r in route ==> !Visible(players, cfg, sender, i, r, now)
  }

  lemma GoneStill(a: Player, b: Player, c: Player, now: Time)
    requires Fought(a, b, 0, now) && Fought(b, c, 0, now) && (Gone(a, b) || Gone(b, c))
    ensures Gone(a, c)
  {
  }

  /** A ship in sight stays in sight as long as it is neither destroyed nor driven off. */
  lemma StillSeen(before: seq<Player>, after: seq<Player>, cfg: Config, sender: PlayerId, i: PlayerId, r: nat, now: Time)
    requires i < |before| <= |after| && sender < |before| && after[sender] == before[sender]
    requires Visible(before, cfg, sender, i, r, now) && Fought(before[i], after[i], 0, now)
    ensures Visible(after, cfg, sender, i, r, now) || Gone(before[i], after[i])
  {
  }

  /** One sector more of the route has been swept. */
  lemma OneMoreSeenOff(s: seq<Player>, t: seq<Player>, u: seq<Player>, cfg: Config, sender: PlayerId, route: seq<nat>, i: nat, now: Time)
    requires sender < |s| <= |t| <= |u| && t[sender] == s[sender] && i < |route|
    requires AllFought(s, t, now) && AllFought(t, u, now)
    requires SeenOff(s, t, cfg, sender, route[..i], now)
    requires route[i] > FED_SPACE ==>
               forall j: nat :: j < |t| && Visible(t, cfg, sender, j, route[i], now) ==> Gone(t[j], u[j])
    ensures SeenOff(s, u, cfg, sender, route[..i + 1], now)
  {
    hide Fought, Visible, Gone;
    assert route[..i + 1] == route[..i] + [route[i]];
    forall j: nat, r | j < |s| && r in route[..i + 1] && r > FED_SPACE && Visible(s, cfg, sender, j, r, now) ensures Gone(s[j], u[j]) {
      if r !in route[..i] {
        StillSeen(s, t, cfg, sender, j, r, now);
      }
      GoneStill(s[j], t[j], u[j], now);
    }
  }

  /** The fleet's own ships are no part of what it sees. */
  lemma SeenOffAlike(s: seq<Player>, t: seq<Player>, u: seq<Player>, v: seq<Player>, cfg: Config, sender: PlayerId, route: seq<nat>, now: Time)
    requires sender < |s| == |t| <= |u| == |v| && t == s[sender := t[sender]] && v == u[sender := v[sender]]
    requires t[sender].Has(AntiCloak) == s[sender].Has(AntiCloak)
    ensures SeenOff(t, u, cfg, sender, route, now) ==> SeenOff(s, v, cfg, sender, route, now)
    ensures forall i: nat, r: nat :: i < |s| ==> Visible(s, cfg, sender, i, r, now) == Visible(t, cfg, sender, i, r, now)
  {
    hide Gone;
    assert forall i: nat, r: nat :: i < |s| ==> Visible(s, cfg, sender, i, r, now) == Visible(t, cfg, sender, i, r, now);
  }

  /**
    * A fleet's way past all the ships of the world in turn: with some of it left it clashes with each ship it sees, and
    * every other ship is as it was.
    */
  ghost predicate Gauntlet(before: seq<Player>, after: seq<Player>, cfg: Config, sender: PlayerId, sec: nat, fleets: seq<nat>, now: Time)
    requires sender < |before|
  {
    && |before| <= |after| && 0 < |fleets| <= |before| + 1
    && (forall i: nat :: i < |fleets| - 1 ==>
          fleets[i] > 0 && Passed(before, after, cfg, sender, i, sec, fleets[i], fleets[i + 1], now))
    && forall i: nat :: |fleets| - 1 <= i < |before| ==> after[i] == before[i]
  }

  ghost predicate Passed(before: seq<Player>, after: seq<Player>, cfg: Config, sender: PlayerId, i: nat, sec: nat, fleet: nat, left: nat, now: Time)
    requires sender < |before| && i < |before| <= |after|
  {
    if Visible(before, cfg, sender, i, sec, now) then Clashed(before[i], after[i], fleet, left)
    else after[i] == before[i] && left == fleet
  }

  /** The whole gauntlet is run, or as much of it as it took to destroy the fleet. */
  ghost predicate RanGauntlet(before: seq<Player>, after: seq<Player>, cfg: Config, sender: PlayerId, sec: nat, fleet: nat, left: nat, now: Time)
    requires sender < |before|
  {
    exists fleets ::
      && Gauntlet(before, after, cfg, sender, sec, fleets, now) && fleets[0] == fleet && fleets[|fleets| - 1] == left
      && (left == 0 || |fleets| == |before| + 1)
  }

  lemma PassedOne(before: seq<Player>, mid: seq<Player>, after: seq<Player>, cfg: Config, sender: PlayerId, sec: nat, fleets: seq<nat>, left: nat, now: Time)
    requires sender < |before| && Gauntlet(before, mid, cfg, sender, sec, fleets, now) && |mid| <= |after|
    requires var i := |fleets| - 1;
             i < |before| && fleets[i] > 0 && (forall j: nat :: j < |before| && j != i ==> after[j] == mid[j])
             && Passed(before, after, cfg, sender, i, sec, fleets[i], left, now)
    ensures Gauntlet(before, after, cfg, sender, sec, fleets + [left], now)
  {
    hide Visible, Clashed;
    forall i: nat | i < |fleets| ensures Passed(before, after, cfg, sender, i, sec, (fleets + [left])[i], (fleets + [left])[i + 1], now) {
      if i < |fleets| - 1 {
        assert Passed(before, mid, cfg, sender, i, sec, fleets[i], fleets[i + 1], now);
      }
    }
  }

  lemma NobodyPassed(players: seq<Player>, cfg: Config, sender: PlayerId, sec: nat, fleet: nat, now: Time)
    requires sender < |players|
    ensures Gauntlet(players, players, cfg, sender, sec, [fleet], now)
  {
  }

  /** A fleet that comes through has seen off every ship it saw, and nobody else was touched. */
  lemma ThroughTheGauntlet(before: seq<Player>, after: seq<Player>, cfg: Config, sender: PlayerId, sec: nat, fleet: nat, left: nat, now: Time)
    requires sender < |before| && RanGauntlet(before, after, cfg, sender, sec, fleet, left, now)
    ensures |before| <= |after|
    ensures forall i: nat :: i < |before| && !Visible(before, cfg, sender, i, sec, now) ==> after[i] == before[i]
    ensures left > 0 ==> forall i: nat :: i < |before| && Visible(before, cfg, sender, i, sec, now) ==> Gone(before[i], after[i])
  {
    hide Visible, Clashed;
    var fleets :| && Gauntlet(before, after, cfg, sender, sec, fleets, now) && fleets[0] == fleet && fleets[|fleets| - 1] == left
                  && (left == 0 || |fleets| == |before| + 1);
    forall i: nat | i < |before|
      ensures !Visible(before, cfg, sender, i, sec, now) ==> after[i] == before[i]
      ensures left > 0 && Visible(before, cfg, sender, i, sec, now) ==> Gone(before[i], after[i])
    {
      if i < |fleets| - 1 {
        assert Passed(before, after, cfg, sender, i, sec, fleets[i], fleets[i + 1], now);
        if left > 0 && Visible(before, cfg, sender, i, sec, now) {
          assert fleets[i + 1] > 0;
          WonClash(before[i], after[i], fleets[i], fleets[i + 1]);
        }
      }
    }
  }

  lemma WonClash(before: Player, after: Player, fleet: nat, left: nat)
    requires Clashed(before, after, fleet, left) && left > 0
    ensures Gone(before, after)
  {
  }

  /** The fleet picks a fight with every visible ship in the sector. */
  method EngageShips(w: World, sender: PlayerId, sec: nat, fleet: nat, now: Time) returns (left: nat)
    requires w.Valid() && sender < |w.players| && sec > FED_SPACE && fleet > 0
    modifies w`players, w`bgs, w`planets, w`clamped
    ensures w.Valid() && left <= fleet
    ensures Worn(old(w.View()), w.View(), Exposed(old(w.players), sender), {})
    ensures AllFought(old(w.players), w.players, now) && |old(w.players)| <= |w.players|
    ensures forall i: nat :: i < |old(w.players)| && !Visible(old(w.players), w.cfg, sender, i, sec, now) ==> w.players[i] == old(w.players)[i]
    ensures left > 0 ==>
              forall i: nat :: i < |old(w.players)| && Visible(old(w.players), w.cfg, sender, i, sec, now) ==> Gone(old(w.players)[i], w.players[i])
    ensures (forall i: nat :: i < |old(w.players)| ==> !Visible(old(w.players), w.cfg, sender, i, sec, now)) ==>
              left == fleet && w.View() == old(w.View())
    ensures RanGauntlet(old(w.players), w.players, w.cfg, sender, sec, fleet, left, now)
  {
    hide SoundState, Worn, Fought, Manned, Clashed, Gauntlet;
    ghost var fleets := [fleet];
    NobodyPassed(w.players, w.cfg, sender, sec, fleet, now);
    left := fleet;
    ghost var s := w.View();
    ghost var who := Exposed(s.players, sender);
    NothingWorn(s, who, {});
    AllUnharmed(s.players, now);
    var n := |w.players|;
    for i: nat := 0 to n
      invariant w.Valid() && left <= fleet
      invariant n == |s.players| <= |w.players| && Worn(s, w.View(), who, {})
      invariant AllFought(s.players, w.players, now)
      invariant forall j: nat :: j < n && (j >= i || j == sender) ==> w.players[j] == s.players[j]
      invariant (forall j: nat :: j < n ==> !Visible(s.players, w.cfg, sender, j, sec, now)) ==> left == fleet && w.View() == s
      invariant |fleets| == i + 1 && fleets[0] == fleet && fleets[i] == left && left > 0
      invariant Gauntlet(s.players, w.players, w.cfg, sender, sec, fleets, now)
    {
      ghost var t := w.View();
      if Visible(w.players, w.cfg, sender, i, sec, now) {
        ShipOk(s, w.numsec, i);
        left := EngageShip(w, i, left, now);
        OneShip(s, t, w.View(), w.numsec, sender, i, now);
      }
      PassedOne(s.players, t.players, w.players, w.cfg, sender, sec, fleets, left, now);
      fleets := fleets + [left];
      if left == 0 {
        break;
      }
    }
    ThroughTheGauntlet(s.players, w.players, w.cfg, sender, sec, fleet, left, now);
  }

  /** A ship a fleet sees: here, alive, part of the visible world, awake, and not cloaked against it. */
  predicate Visible(players: seq<Player>, cfg: Config, sender: PlayerId, i: PlayerId, sec: nat, now: Time)
    requires sender < |players| && i < |players|
  {
    && players[i].sector == sec && i != sender && !players[i].IsDead() && players[i].everMoved
    && !Dormant(players[i], cfg, now)
    && (players[i].Has(Cloak) == 0 || players[sender].Has(AntiCloak) > 0)
  }

  lemma OneShip(s: State, t: State, u: State, numsec: int, sender: PlayerId, i: PlayerId, now: Time)
    requires SoundState(s, numsec) && SoundState(t, numsec) && SoundState(u, numsec)
    requires Worn(s, t, Exposed(s.players, sender), {}) && Worn(t, u, {i}, {})
    requires i < |s.players| && i < |t.players| && i < |u.players| && i in Exposed(s.players, sender)
    requires AllFought(s.players, t.players, now) && Fought(t.players[i], u.players[i], 0, now)
    ensures Worn(s, u, Exposed(s.players, sender), {}) && AllFought(s.players, u.players, now)
    ensures |t.players| <= |u.players| && forall j: nat :: j < |t.players| && j != i ==> u.players[j] == t.players[j]
  {
    hide SoundState, Fought, Worn, AllFought;
    var who := Exposed(s.players, sender);
    WornKept(t, u, {i}, {});
    OneFought(t.players, u.players, i, now);
    AllFoughtOn(s.players, t.players, u.players, now);
    WornWider(t, u, {i}, {}, who, {});
    WornOn(s, t, u, numsec, who, {});
  }

  /** Everyone but the fleet's sender whom a fleet engaging ships may come upon. */
  ghost function InTheWay(players: seq<Player>, sender: PlayerId, engage: bool): set<PlayerId> {
    if engage then Exposed(players, sender) else {}
  }

  /**
    * One sector of a fleet's route: its hostile garrison and mines, then, in battle mode outside Federation
    * space, every ship in sight. A scout, or a fleet that does not engage ships, leaves all ships alone.
    */
  method BattleSector(w: World, sender: PlayerId, sec: nat, fleet: nat, now: Time, engage: bool) returns (left: nat)
    requires w.Valid() && sender < |w.players| && fleet > 0
    modifies w`players, w`bgs, w`planets, w`clamped
    ensures w.Valid() && left <= fleet
    ensures Worn(old(w.View()), w.View(), InTheWay(old(w.players), sender, engage), {sec})
    ensures AllFought(old(w.players), w.players, now)
    ensures !engage || fleet <= 1 || sec <= FED_SPACE ==> w.players == old(w.players) && w.planets == old(w.planets)
    ensures fleet < MINE_TRIGGER ==> Qty(At(w.bgs, sec), Mines) == Qty(At(old(w.bgs), sec), Mines)
    ensures left > 0 && Alive(old(w.players), sender) ==> NoFighters(w.bgs, sender, sec)
    ensures !engage ==> NotRicher(old(w.View()), w.View(), w.cfg)
    ensures engage && left > 1 && sec > FED_SPACE ==>
              |old(w.players)| <= |w.players|
              && forall i: nat :: i < |old(w.players)| && Visible(old(w.players), w.cfg, sender, i, sec, now) ==> Gone(old(w.players)[i], w.players[i])
    ensures Unopposed(old(w.bgs), old(w.players), w.cfg, sender, [sec], now) ==> left == fleet && w.View() == old(w.View())
    ensures SectorFought(old(w.View()), w.View(), w.cfg, sender, sec, fleet, left, now, engage)
  {
    hide SoundState, Worn, Fought, AllFought, Manned, NotRicher, NoFighters, Visible, Gone, Unopposed, SectorFought, Skirmished, RanGauntlet, HostileStores;
    Lonely(w.bgs, w.players, w.cfg, sender, sec, now);
    ghost var s := w.View();
    ghost var who := InTheWay(s.players, sender, engage);
    left := FightGarrison(w, sender, sec, fleet);
    ghost var t := w.View();
    AllUnharmed(w.players, now);
    FoughtForces(s, t, w.cfg, sender, sec, fleet, left, now, engage);
    WornWider(s, t, {}, {sec}, who, {sec});
    if left > 0 && engage && left > 1 && sec > FED_SPACE {
      ghost var rest := left;
      left := EngageShips(w, sender, sec, left, now);
      FoughtShips(s, t, w.View(), w.cfg, sender, sec, fleet, rest, left, who, now);
      SameMinesAfter(t, w.View(), who, sec);
      if left > 0 && Alive(s.players, sender) {
        StillClear(t, w.View(), w.numsec, sender, sec, who, {});
      }
      WornWider(t, w.View(), who, {}, who, {sec});
      WornOn(s, t, w.View(), w.numsec, who, {sec});
    }
  }

  /**
    * One sector, step by step: the hostile garrison and its mines first, and then, for a fleet of at least two in battle
    * mode outside Federation space, the ships.
    */
  ghost predicate SectorFought(s: State, t: State, cfg: Config, sender: PlayerId, sec: nat, fleet: nat, left: nat, now: Time, engage: bool)
    requires sender < |s.players|
  {
    exists mid: State, rest: nat ::
      && mid == s.(bgs := mid.bgs) && ForcesWorn(s.bgs, mid.bgs, {sec})
      && Skirmished(HostileStores(s.bgs, sender, sec), fleet, HostileStores(mid.bgs, sender, sec), rest)
      && if engage && rest > 1 && sec > FED_SPACE then
           RanGauntlet(mid.players, t.players, cfg, sender, sec, rest, left, now) && ForcesWorn(mid.bgs, t.bgs, {})
         else
           t == mid && left == rest
  }

  lemma FoughtForces(s: State, mid: State, cfg: Config, sender: PlayerId, sec: nat, fleet: nat, rest: nat, now: Time, engage: bool)
    requires sender < |s.players| && mid == s.(bgs := mid.bgs) && Worn(s, mid, {}, {sec})
    requires Skirmished(HostileStores(s.bgs, sender, sec), fleet, HostileStores(mid.bgs, sender, sec), rest)
    ensures !(engage && rest > 1 && sec > FED_SPACE) ==> SectorFought(s, mid, cfg, sender, sec, fleet, rest, now, engage)
  {
    hide Worn, Skirmished, ForcesWorn, HostileStores, RanGauntlet;
    WornForces(s, mid, {}, {sec});
  }

  lemma FoughtShips(s: State, mid: State, t: State, cfg: Config, sender: PlayerId, sec: nat, fleet: nat, rest: nat, left: nat, who: set<PlayerId>, now: Time)
    requires sender < |s.players| && mid == s.(bgs := mid.bgs) && Worn(s, mid, {}, {sec}) && rest > 1 && sec > FED_SPACE
    requires Skirmished(HostileStores(s.bgs, sender, sec), fleet, HostileStores(mid.bgs, sender, sec), rest)
    requires RanGauntlet(mid.players, t.players, cfg, sender, sec, rest, left, now) && Worn(mid, t, who, {})
    ensures SectorFought(s, t, cfg, sender, sec, fleet, left, now, true)
  {
    hide Worn, Skirmished, ForcesWorn, HostileStores, RanGauntlet;
    WornForces(s, mid, {}, {sec});
    WornForces(mid, t, who, {});
  }

  lemma Lonely(bgs: seq<Battlegroup>, players: seq<Player>, cfg: Config, sender: PlayerId, sec: nat, now: Time)
    requires sender < |players|
    ensures Unopposed(bgs, players, cfg, sender, [sec], now) ==> forall k :: !IsHostile(bgs, sender, sec, k)
    ensures Unopposed(bgs, players, cfg, sender, [sec], now) ==>
              forall i: nat :: i < |players| ==> !Visible(players, cfg, sender, i, sec, now)
  {
    assert sec in [sec];
  }

  lemma SameMinesAfter(s: State, t: State, who: set<PlayerId>, sec: int)
    requires Worn(s, t, who, {})
    ensures Qty(At(t.bgs, sec), Mines) == Qty(At(s.bgs, sec), Mines)
  {
  }

  /** The fleet's whole way, one sector after another, until it arrives or is destroyed. */
  method Sortie(w: World, sender: PlayerId, route: seq<nat>, ships: nat, now: Time, engage: bool) returns (fleet: nat)
    requires w.Valid() && sender < |w.players| && ships > 0
    modifies w`players, w`bgs, w`planets, w`clamped
    ensures w.Valid() && fleet <= ships && |old(w.players)| <= |w.players|
    ensures Worn(old(w.View()), w.View(), InTheWay(old(w.players), sender, engage), set r | r in route)
    ensures AllFought(old(w.players), w.players, now)
    ensures w.players[sender] == old(w.players[sender])
    ensures !engage || ships <= 1 ==> w.players == old(w.players) && w.planets == old(w.planets)
    ensures !engage ==> NotRicher(old(w.View()), w.View(), w.cfg)
    ensures fleet > 0 && Alive(old(w.players), sender) ==> AllClear(w.bgs, sender, route)
    ensures engage && fleet > 1 ==> SeenOff(old(w.players), w.players, w.cfg, sender, route, now)
    ensures Unopposed(old(w.bgs), old(w.players), w.cfg, sender, route, now) ==> fleet == ships && w.View() == old(w.View())
    ensures Sortied(old(w.View()), w.View(), w.cfg, sender, route, ships, fleet, now, engage)
  {
    hide SoundState, Worn, Fought, AllFought, Manned, NotRicher, NoFighters, Visible, Gone, Unopposed, SectorFought;
    fleet := ships;
    ghost var s := w.View();
    ghost var who, where := InTheWay(s.players, sender, engage), set r: int | r in route;
    NothingWorn(s, who, where);
    AllUnharmed(s.players, now);
    SameFortunes(s, w.cfg);
    for i := 0 to |route|
      invariant w.Valid() && fleet <= ships && |s.players| <= |w.players|
      invariant Worn(s, w.View(), who, where) && AllFought(s.players, w.players, now)
      invariant !engage || ships <= 1 ==> w.players == s.players && w.planets == s.planets
      invariant !engage ==> NotRicher(s, w.View(), w.cfg)
      invariant w.players[sender] == s.players[sender]
      invariant fleet > 0 && Alive(s.players, sender) ==> AllClear(w.bgs, sender, route[..i])
      invariant engage && fleet > 1 ==> SeenOff(s.players, w.players, w.cfg, sender, route[..i], now)
      invariant Unopposed(s.bgs, s.players, w.cfg, sender, route, now) ==> fleet == ships && w.View() == s
      invariant Sortied(s, w.View(), w.cfg, sender, route[..i], ships, fleet, now, engage)
    {
      if fleet == 0 {
        SortieEnded(s, w.View(), w.cfg, sender, route, i, ships, now, engage);
        break;
      }
      ghost var t := w.View();
      OneStep(s.bgs, s.players, w.cfg, sender, route, i, now);
      ghost var rest := fleet;
      fleet := BattleSector(w, sender, route[i], fleet, now, engage);
      SortiedOn(s, t, w.View(), w.cfg, sender, route, i, ships, rest, fleet, now, engage);
      StillInTheWay(s, t, w.numsec, sender, engage, where);
      WornWider(t, w.View(), InTheWay(t.players, sender, engage), {route[i]}, who, where);
      WornOn(s, t, w.View(), w.numsec, who, where);
      AllFoughtOn(s.players, t.players, w.players, now);
      if engage && fleet > 1 {
        OneMoreSeenOff(s.players, t.players, w.players, w.cfg, sender, route, i, now);
      }
      if !engage {
        NotRicherOn(s, t, w.View(), w.cfg);
      }
      WornKept(s, w.View(), who, where);
      if fleet > 0 && Alive(s.players, sender) {
        OneMoreClear(t, w.View(), w.numsec, sender, route, i, InTheWay(t.players, sender, engage));
      }
    }
    WornKept(s, w.View(), who, where);
    assert route[..|route|] == route;
  }

  /** A fleet's way along a route, sector by sector as long as there is any of it left. */
  ghost predicate Sortied(s: State, t: State, cfg: Config, sender: PlayerId, route: seq<nat>, fleet: nat, left: nat, now: Time, engage: bool)
    decreases |route|
  {
    if route == [] then t == s && left == fleet
    else
      var last := |route| - 1;
      exists mid: State, rest: nat ::
        && Sortied(s, mid, cfg, sender, route[..last], fleet, rest, now, engage) && sender < |mid.players|
        && if rest == 0 then t == mid && left == 0 else SectorFought(mid, t, cfg, sender, route[last], rest, left, now, engage)
  }

  lemma SortiedOn(s: State, mid: State, t: State, cfg: Config, sender: PlayerId, route: seq<nat>, i: nat, fleet: nat, rest: nat, left: nat, now: Time, engage: bool)
    requires i < |route| && Sortied(s, mid, cfg, sender, route[..i], fleet, rest, now, engage) && sender < |mid.players|
    requires if rest == 0 then t == mid && left == 0 else SectorFought(mid, t, cfg, sender, route[i], rest, left, now, engage)
    ensures Sortied(s, t, cfg, sender, route[..i + 1], fleet, left, now, engage)
  {
    hide SectorFought;
    assert route[..i + 1][..i] == route[..i];
  }

  lemma {:induction false} SortieEnded(s: State, t: State, cfg: Config, sender: PlayerId, route: seq<nat>, i: nat, fleet: nat, now: Time, engage: bool)
    requires i <= |route| && Sortied(s, t, cfg, sender, route[..i], fleet, 0, now, engage) && sender < |t.players|
    ensures Sortied(s, t, cfg, sender, route, fleet, 0, now, engage)
    decreases |route| - i
  {
    if i < |route| {
      SortiedOn(s, t, t, cfg, sender, route, i, fleet, 0, 0, now, engage);
      SortieEnded(s, t, cfg, sender, route, i + 1, fleet, now, engage);
    } else {
      assert route[..i] == route;
    }
  }

  lemma OneStep(bgs: seq<Battlegroup>, players: seq<Player>, cfg: Config, sender: PlayerId, route: seq<nat>, i: nat, now: Time)
    requires sender < |players| && i < |route|
    ensures Unopposed(bgs, players, cfg, sender, route, now) ==> Unopposed(bgs, players, cfg, sender, [route[i]], now)
  {
  }

  /** No foreign fighter is left in any of the sectors. */
  ghost predicate AllClear(bgs: seq<Battlegroup>, p: PlayerId, route: seq<nat>) {
    forall r :: r in route ==> NoFighters(bgs, p, r)
  }

  lemma OneMoreClear(s: State, t: State, numsec: int, p: PlayerId, route: seq<nat>, i: nat, who: set<PlayerId>)
    requires SoundState(s, numsec) && SoundState(t, numsec) && i < |route| && Worn(s, t, who, {route[i]})
    requires Alive(s.players, p) && p !in who
    requires AllClear(s.bgs, p, route[..i]) && NoFighters(t.bgs, p, route[i])
    ensures AllClear(t.bgs, p, route[..i + 1])
  {
    hide SoundState, Worn, NoFighters;
    assert route[..i + 1] == route[..i] + [route[i]];
    forall r | r in route[..i] ensures NoFighters(t.bgs, p, r) {
      StillClear(s, t, numsec, p, r, who, {route[i]});
    }
  }

  lemma StillInTheWay(s: State, t: State, numsec: int, sender: PlayerId, engage: bool, where: set<int>)
    requires SoundState(s, numsec) && SoundState(t, numsec) && Worn(s, t, InTheWay(s.players, sender, engage), where)
    ensures InTheWay(t.players, sender, engage) <= InTheWay(s.players, sender, engage)
  {
    hide SoundState, Worn;
    if engage {
      ExposedShrinks(s, t, numsec, sender, where);
    }
  }

  /** Why a launch is refused. */
  ghost function LaunchRefusal(p: Player, g: Chart, target: int, ships: int): (r: Error)
    ensures r.NoError? <==>
              && !p.IsDead() && p.systems[BG_COMPUTER] == 0
              && 1 <= target < |g| && target != p.sector && Reachable(g, p.sector, target)
              && 1 <= ships <= p.Has(Fighters) && HasTurn(p)
  {
    if p.IsDead() then Dead
    else if SystemDown(p, BG_COMPUTER) then Unknown
    else if target < 1 || target >= |g| then NotFound
    else if target == p.sector then Unknown
    else if ships < 1 then NegativeQuantity
    else if ships > p.Has(Fighters) then NotEnoughQuantity
    else if !Reachable(g, p.sector, target) then NotFound
    else if !HasTurn(p) then NoTurns
    else NoError
  }

  /** The sender once the fleet has left and those that survived are home again. */
  function Returned(p: Player, ships: int, survivors: nat): (r: Player)
    ensures 0 <= ships <= p.Has(Fighters) ==> r.Has(Fighters) == p.Has(Fighters) - ships + survivors
    ensures forall g :: g != Fighters ==> r.Has(g) == p.Has(g)
  {
    p.(inv := Adjusted(Adjusted(p.inv, Fighters, -ships), Fighters, survivors))
  }

  /** The world as the fleet leaves: a turn is spent and the ships are gone from the sender's hold. */
  ghost function Departed(s: State, sender: PlayerId, ships: int): State
    requires sender < |s.players|
  {
    var p := TurnSpent(s.players[sender]);
    s.(players := s.players[sender := p.(inv := Adjusted(p.inv, Fighters, 0 - ships))])
  }

  /** A strike is a sortie along the route and the survivors' return. */
  ghost predicate StruckAlong(s: State, t: State, cfg: Config, sender: PlayerId, route: seq<nat>, ships: nat, survivors: nat, now: Time)
    requires sender < |s.players|
  {
    exists u: State ::
      && sender < |u.players| && Sortied(Departed(s, sender, ships), u, cfg, sender, route, ships, survivors, now, true)
      && t == u.(players := u.players[sender := Returned(TurnSpent(s.players[sender]), ships, survivors)])
  }

  lemma StruckSo(s: State, u: State, t: State, cfg: Config, sender: PlayerId, route: seq<nat>, ships: nat, survivors: nat, now: Time)
    requires sender < |s.players| && sender < |u.players|
    requires Sortied(Departed(s, sender, ships), u, cfg, sender, route, ships, survivors, now, true)
    requires t == u.(players := u.players[sender := Returned(TurnSpent(s.players[sender]), ships, survivors)])
    ensures StruckAlong(s, t, cfg, sender, route, ships, survivors, now)
  {
    hide Sortied, Departed, Returned, TurnSpent;
  }

  /**
    * A whole strike. Refused launches change nothing. Otherwise a turn is spent, the fleet fights along a shortest
    * route, and its sender is poorer by exactly the ships that did not come back. Nobody in Federation space is
    * touched, a lone scout touches nobody, the world has no more fighters or mines than before, and a fleet of which
    * anything comes back has left no hostile fighter in any sector of its route.
    */
  method LaunchBattleGroup(w: World, sender: PlayerId, target: int, ships: int, now: Time)
    returns (err: Error, survivors: nat, ghost path: seq<nat>)
    requires w.Valid() && Charted(w.sectors) && |w.sectors| < MAX_INT
    requires sender < |w.players| && !w.players[sender].IsNpc()
    modifies w`players, w`bgs, w`planets, w`clamped
    ensures w.Valid()
    ensures err == LaunchRefusal(old(w.players[sender]), ChartOf(w.sectors), target, ships)
    ensures !err.NoError? ==> w.View() == old(w.View())
    ensures err.NoError? ==> survivors <= ships && sender < |w.players|
                             && w.players[sender] == Returned(TurnSpent(old(w.players[sender])), ships, survivors)
    ensures err.NoError? ==> KeptBut(old(w.players), w.players, Exposed(old(w.players), sender) + {sender})
    ensures err.NoError? ==> forall i: nat :: i < |old(w.players)| && i != sender ==> Fought(old(w.players)[i], w.players[i], 0, now)
    ensures err.NoError? && ships == 1 ==> KeptBut(old(w.players), w.players, {sender}) && w.planets == old(w.planets)
    ensures err.NoError? ==> Joins(ChartOf(w.sectors), path, old(w.players[sender].sector), target)
                             && Distance(ChartOf(w.sectors), old(w.players[sender].sector), target, |path| - 1)
                             && |path| >= 1 && ForcesWorn(old(w.bgs), w.bgs, set r: int | r in path[1..])
    ensures err.NoError? ==> StruckAlong(old(w.View()), w.View(), w.cfg, sender, path[1..], ships, survivors, now)
    ensures err.NoError? && survivors > 0 ==> AllClear(w.bgs, sender, path[1..])
    ensures err.NoError? && survivors > 1 ==> SeenOff(old(w.players), w.players, w.cfg, sender, path[1..], now)
    ensures err.NoError? && Unopposed(old(w.bgs), old(w.players), w.cfg, sender, path[1..], now) ==>
              survivors == ships && w.bgs == old(w.bgs) && w.planets == old(w.planets) && KeptBut(old(w.players), w.players, {sender})
    ensures err.NoError? ==> Total(w.View(), Fighters) <= old(Total(w.View(), Fighters))
    ensures err.NoError? ==> Total(w.View(), Mines) <= old(Total(w.View(), Mines))
  {
    hide SoundState, Worn, Fought, Manned, Total, KeptBut, ChartOf, Reachable, Distance, Charted, Joins, Exposed, InTheWay, ForcesWorn, AllClear, SeenOff, Unopposed, StruckAlong;
    survivors, path := 0, [];
    if w.players[sender].IsDead() {
      return Dead, 0, path;
    }
    if SystemDown(w.players[sender], BG_COMPUTER) {
      return Unknown, 0, path;
    }
    if target < 1 || target >= |w.sectors| {
      return NotFound, 0, path;
    }
    if target == w.players[sender].sector {
      return Unknown, 0, path;
    }
    if ships < 1 {
      return NegativeQuantity, 0, path;
    }
    if ships > w.players[sender].Has(Fighters) {
      return NotEnoughQuantity, 0, path;
    }
    ShipOk(w.View(), w.numsec, sender);
    var route := ShortestPathTo(w.sectors, w.players[sender].sector, target);
    if route.None? {
      return NotFound, 0, path;
    }
    path := route.value;
    err := SpendTurn(w, sender);
    if err.NoError? {
      RouteLength(ChartOf(w.sectors), route.value, old(w.players[sender].sector), target);
      ChargedSound(old(w.View()), w.numsec, sender);
      survivors := Strike(w, old(w.View()), sender, route.value, ships, now);
    }
  }

  lemma RouteLength(g: Chart, path: seq<nat>, a: nat, b: nat)
    requires Joins(g, path, a, b)
    ensures |path| >= 1
  {
  }

  /** The fleet leaves, fights, and comes home. */
  method Strike(w: World, ghost s: State, sender: PlayerId, route: seq<nat>, ships: nat, now: Time) returns (fleet: nat)
    requires w.Valid() && sender < |s.players| && w.View() == Charged(s, sender) && SoundState(s, w.numsec)
    requires !s.players[sender].IsNpc() && !s.players[sender].IsDead() && 1 <= ships <= s.players[sender].Has(Fighters) && |route| >= 1
    modifies w`players, w`bgs, w`planets, w`clamped
    ensures w.Valid() && fleet <= ships && sender < |w.players|
    ensures w.players[sender] == Returned(TurnSpent(s.players[sender]), ships, fleet)
    ensures KeptBut(s.players, w.players, Exposed(s.players, sender) + {sender})
    ensures forall i: nat :: i < |s.players| && i != sender ==> Fought(s.players[i], w.players[i], 0, now)
    ensures ships == 1 ==> KeptBut(s.players, w.players, {sender}) && w.planets == s.planets
    ensures Total(w.View(), Fighters) <= Total(s, Fighters) && Total(w.View(), Mines) <= Total(s, Mines)
    ensures ForcesWorn(s.bgs, w.bgs, set r: int | r in route[1..])
    ensures StruckAlong(s, w.View(), w.cfg, sender, route[1..], ships, fleet, now)
    ensures fleet > 0 ==> AllClear(w.bgs, sender, route[1..])
    ensures fleet > 1 ==> SeenOff(s.players, w.players, w.cfg, sender, route[1..], now)
    ensures Unopposed(s.bgs, s.players, w.cfg, sender, route[1..], now) ==>
              fleet == ships && w.bgs == s.bgs && w.planets == s.planets && KeptBut(s.players, w.players, {sender})
  {
    hide AllClear, SoundState, Worn, Fought, Manned, Total, KeptBut, Exposed, InTheWay, ForcesWorn, SeenOff, Unopposed, AllFought, NotRicher, StruckAlong, Sortied;
    ghost var c := w.View();
    ShipOk(c, w.numsec, sender);
    w.AdjustShip(sender, Fighters, 0 - ships);
    Refitted(c, w.numsec, sender, w.players[sender]);
    ShipTotal(c, sender, w.players[sender], Fighters);
    ShipTotal(c, sender, w.players[sender], Mines);
    ShipTotal(s, sender, c.players[sender], Fighters);
    ShipTotal(s, sender, c.players[sender], Mines);
    ghost var t := w.View();
    fleet := Sortie(w, sender, route[1..], ships, now, true);
    ghost var u := w.View();
    ShipOk(u, w.numsec, sender);
    assert t == Departed(s, sender, ships);
    ComeHome(w, TurnSpent(s.players[sender]), sender, ships, fleet);
    Refitted(u, w.numsec, sender, Returned(TurnSpent(s.players[sender]), ships, fleet));
    ShipTotal(u, sender, w.players[sender], Fighters);
    ShipTotal(u, sender, w.players[sender], Mines);
    SortieTotals(t, u, sender, set r: int | r in route[1..]);
    StruckSo(s, u, w.View(), w.cfg, sender, route[1..], ships, fleet, now);
    StrikeEnds(s, t, u, w.View(), w.cfg, sender, route[1..], ships, now);
  }

  lemma UnopposedAlike(s: State, t: State, u: State, v: State, cfg: Config, sender: PlayerId, route: seq<nat>, now: Time)
    requires sender < |s.players| == |t.players| <= |u.players| == |v.players|
    requires t == s.(players := s.players[sender := t.players[sender]]) && v == u.(players := u.players[sender := v.players[sender]])
    requires t.players[sender].Has(AntiCloak) == s.players[sender].Has(AntiCloak)
    requires s.players[sender].kind == v.players[sender].kind && !s.players[sender].IsDead()
    requires Unopposed(t.bgs, t.players, cfg, sender, route, now) ==> u == t
    ensures Unopposed(s.bgs, s.players, cfg, sender, route, now) ==>
              Unopposed(t.bgs, t.players, cfg, sender, route, now)
              && v.bgs == s.bgs && v.planets == s.planets && KeptBut(s.players, v.players, {sender})
  {
    SeenOffAlike(s.players, t.players, u.players, v.players, cfg, sender, route, now);
    hide Visible, IsHostile;
  }

  /** The survivors come back aboard. */
  method ComeHome(w: World, ghost home: Player, sender: PlayerId, ships: nat, fleet: nat)
    requires !w.clamped && sender < |w.players| && 1 <= ships <= home.Has(Fighters)
    requires w.players[sender] == home.(inv := Adjusted(home.inv, Fighters, 0 - ships))
    modifies w`players, w`clamped
    ensures !w.clamped && w.View() == old(w.View()).(players := old(w.players)[sender := Returned(home, ships, fleet)])
  {
    if fleet > 0 {
      w.AdjustShip(sender, Fighters, fleet);
    } else {
      assert Returned(home, ships, 0) == w.players[sender];
      assert w.players[sender := w.players[sender]] == w.players;
    }
  }

  lemma WornForces(s: State, t: State, who: set<PlayerId>, where: set<int>)
    requires Worn(s, t, who, where)
    ensures ForcesWorn(s.bgs, t.bgs, where)
  {
  }

  lemma SortieTotals(t: State, u: State, sender: PlayerId, where: set<int>)
    requires Worn(t, u, InTheWay(t.players, sender, true), where)
    ensures Total(u, Fighters) <= Total(t, Fighters) && Total(u, Mines) <= Total(t, Mines)
  {
  }

  lemma StrikeEnds(s: State, t: State, u: State, v: State, cfg: Config, sender: PlayerId, route: seq<nat>, ships: nat, now: Time)
    requires sender < |s.players| && !s.players[sender].IsNpc() && !s.players[sender].IsDead()
    requires |t.players| == |s.players| && t == s.(players := s.players[sender := t.players[sender]])
    requires t.players[sender].kind == s.players[sender].kind && !t.players[sender].IsDead()
    requires t.players[sender].Has(AntiCloak) == s.players[sender].Has(AntiCloak)
    requires Worn(t, u, InTheWay(t.players, sender, true), set r: int | r in route) && AllFought(t.players, u.players, now)
    requires ships <= 1 ==> u.players == t.players && u.planets == t.planets
    requires |t.players| <= |u.players| == |v.players| && v == u.(players := u.players[sender := v.players[sender]])
    requires v.players[sender].kind == s.players[sender].kind && !v.players[sender].IsDead()
    requires Unopposed(t.bgs, t.players, cfg, sender, route, now) ==> u == t
    ensures KeptBut(s.players, v.players, Exposed(s.players, sender) + {sender})
    ensures forall i: nat :: i < |s.players| && i != sender ==> Fought(s.players[i], v.players[i], 0, now)
    ensures ships == 1 ==> KeptBut(s.players, v.players, {sender}) && v.planets == s.planets
    ensures ForcesWorn(s.bgs, v.bgs, set r: int | r in route)
    ensures SeenOff(t.players, u.players, cfg, sender, route, now) ==> SeenOff(s.players, v.players, cfg, sender, route, now)
    ensures Unopposed(s.bgs, s.players, cfg, sender, route, now) ==>
              Unopposed(t.bgs, t.players, cfg, sender, route, now)
              && v.bgs == s.bgs && v.planets == s.planets && KeptBut(s.players, v.players, {sender})
  {
    hide Worn, AllFought, Fought, KeptBut, Unopposed, SeenOff, ForcesWorn, Exposed, InTheWay;
    WornForces(t, u, InTheWay(t.players, sender, true), set r: int | r in route);
    SeenOffAlike(s.players, t.players, u.players, v.players, cfg, sender, route, now);
    UnopposedAlike(s, t, u, v, cfg, sender, route, now);
    StrikeKeeps(s, t, u, v, sender, ships, now, set r: int | r in route);
  }

  lemma StrikeKeeps(s: State, t: State, u: State, v: State, sender: PlayerId, ships: nat, now: Time, where: set<int>)
    requires sender < |s.players| && !s.players[sender].IsNpc() && !s.players[sender].IsDead()
    requires |t.players| == |s.players| && t == s.(players := s.players[sender := t.players[sender]])
    requires t.players[sender].kind == s.players[sender].kind && !t.players[sender].IsDead()
    requires Worn(t, u, InTheWay(t.players, sender, true), where) && AllFought(t.players, u.players, now)
    requires ships <= 1 ==> u.players == t.players && u.planets == t.planets
    requires sender < |u.players| == |v.players| && v == u.(players := u.players[sender := v.players[sender]])
    requires v.players[sender].kind == s.players[sender].kind && !v.players[sender].IsDead()
    ensures KeptBut(s.players, v.players, Exposed(s.players, sender) + {sender})
    ensures forall i: nat :: i < |s.players| && i != sender ==> Fought(s.players[i], v.players[i], 0, now)
    ensures ships == 1 ==> KeptBut(s.players, v.players, {sender}) && v.planets == s.planets
  {
    hide Fought, Worn;
    assert Exposed(t.players, sender) == Exposed(s.players, sender);
    WornKept(t, u, Exposed(t.players, sender), where);
    forall i: nat | i < |s.players| && i != sender ensures Fought(s.players[i], v.players[i], 0, now) {
      assert Fought(t.players[i], u.players[i], 0, now);
    }
  }
}
