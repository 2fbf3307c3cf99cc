/** Turns, ship systems and movement (commands.go). */
module Commands {
  import opened Goods
  import opened Entities
  import opened Worlds
  import opened Battle
  import opened Specials
  import opened Fights
  import opened Garrisons
  import opened Sectors

  predicate HasTurn(p: Player) {
    p.Has(Turns) >= 1 || p.bankedTurns > 0
  }

  /** A turn is taken from the daily allowance, or else from the Fusion Cell reserve, and heals every system a little. */
  function TurnSpent(p: Player): (r: Player)
    ensures HasTurn(p) ==> r.Has(Turns) + r.bankedTurns == p.Has(Turns) + p.bankedTurns - 1
    ensures forall g :: g != Turns ==> r.Has(g) == p.Has(g)
    ensures p.Has(Turns) >= 1 ==> r.bankedTurns == p.bankedTurns
    ensures forall i :: 0 <= i < SYSTEMS ==> r.systems[i] == if HasTurn(p) && p.systems[i] > 0 then p.systems[i] - 1 else p.systems[i]
    ensures r.sector == p.sector && r.diedAt == p.diedAt && r.kind == p.kind
  {
    if p.Has(Turns) >= 1 then p.(inv := Adjusted(p.inv, Turns, -1), systems := Healed(p.systems))
    else if p.bankedTurns > 0 then p.(bankedTurns := p.bankedTurns - 1, systems := Healed(p.systems))
    else p
  }

  method SpendTurn(w: World, p: PlayerId) returns (err: Error)
    requires !w.clamped && p < |w.players|
    modifies w`players, w`clamped
    ensures !w.clamped
    ensures err == if HasTurn(old(w.players[p])) then NoError else NoTurns
    ensures w.players == if err.NoError? then old(w.players)[p := TurnSpent(old(w.players[p]))] else old(w.players)
  {
    if w.players[p].Has(Turns) < 1 {
      if w.players[p].bankedTurns > 0 {
        w.players := w.players[p := w.players[p].(bankedTurns := w.players[p].bankedTurns - 1)];
        w.players := w.players[p := w.players[p].(systems := Healed(w.players[p].systems))];
        return NoError;
      }
      return NoTurns;
    }
    w.AdjustShip(p, Turns, -1);
    w.players := w.players[p := w.players[p].(systems := Healed(w.players[p].systems))];
    return NoError;
  }

  /** The first defense force in the sector that somebody else owns. */
  predicate IsHostile(bgs: seq<Battlegroup>, p: PlayerId, sector: int, k: int) {
    0 <= k < |bgs| && bgs[k].sector == sector && bgs[k].owner != p
  }

  method HostileBattlegroup(w: World, p: PlayerId, sector: int) returns (k: int)
    ensures k == -1 || IsHostile(w.bgs, p, sector, k)
    ensures k == -1 ==> forall j :: !IsHostile(w.bgs, p, sector, j)
  {
    for i := 0 to |w.bgs|
      invariant forall j :: 0 <= j < i ==> !IsHostile(w.bgs, p, sector, j)
    {
      if w.bgs[i].sector == sector && w.bgs[i].owner != p {
        return i;
      }
    }
    return -1;
  }

  /** Cut the defense force out of the list. */
  method RemoveBattlegroup(w: World, k: nat)
    requires k < |w.bgs|
    modifies w`bgs
    ensures w.bgs == old(w.bgs[..k] + w.bgs[k + 1..])
  {
    w.bgs := w.bgs[..k] + w.bgs[k + 1..];
  }

  predicate SystemDown(p: Player, sys: nat)
    requires sys < SYSTEMS
  {
    p.systems[sys] > 0
  }

  /** Why a move is refused; a move costs a turn, working engines, and a warp to follow. */
  ghost function MoveRefusal(p: Player, g: Chart, dest: int): (r: Error)
    ensures r.NoError? <==>
              !p.IsDead() && 1 <= p.sector < |g| && 1 <= dest < |g| && dest in g[p.sector]
              && p.systems[ENGINES] == 0 && HasTurn(p)
    ensures r.Dead? <==> p.IsDead()
    ensures r.NoTurns? ==> !HasTurn(p)
  {
    if p.IsDead() then Dead
    else if p.sector < 1 || p.sector >= |g| || dest < 1 || dest >= |g| || dest !in g[p.sector] then NotFound
    else if SystemDown(p, ENGINES) then Unknown
    else if !HasTurn(p) then NoTurns
    else NoError
  }

  /** The ship once the move is paid for: it is part of the visible world from now on. */
  function Underway(p: Player): Player {
    TurnSpent(p).(everMoved := true)
  }

  /** Nobody else's fighters or mines are left in the sector. */
  ghost predicate Cleared(bgs: seq<Battlegroup>, p: PlayerId, sector: int) {
    forall k :: IsHostile(bgs, p, sector, k) ==> Qty(bgs[k].inv, Fighters) == 0 && Qty(bgs[k].inv, Mines) == 0
  }

  ghost predicate NoFighters(bgs: seq<Battlegroup>, p: PlayerId, sector: int) {
    forall k :: IsHostile(bgs, p, sector, k) ==> Qty(bgs[k].inv, Fighters) == 0
  }

  /** A ship meets a defense force with everything it has, until one side has no fighter left. */
  method EdgeBattle(w: World, p: PlayerId, k: nat, now: Time) returns (pLoss: int, dLoss: int)
    requires w.Sound() && Alive(w.players, p) && k < |w.bgs|
    requires Qty(w.bgs[k].inv, Fighters) > 0
    modifies w`players, w`bgs, w`clamped
    ensures w.Sound() && Worn(old(w.View()), w.View(), {p}, {old(w.bgs[k].sector)})
    ensures Fought(old(w.players[p]), Fewer(old(w.players[p]), pLoss), 0, now)
    ensures w.players == old(w.players)[p := Fewer(old(w.players[p]), pLoss)]
    ensures w.bgs == old(w.bgs)[k := old(w.bgs[k]).(inv := Adjusted(old(w.bgs[k].inv), Fighters, -dLoss))]
    ensures w.players[p].Has(Fighters) == 0 <==> Qty(w.bgs[k].inv, Fighters) > 0
    ensures 0 <= pLoss && 0 <= dLoss && Exchanged(old(w.players[p]).Has(Fighters), Qty(old(w.bgs[k].inv), Fighters), pLoss, dLoss)
  {
    hide SoundState, Worn, Fought;
    pLoss, dLoss := Attrition(w.players[p].Has(Fighters), Qty(w.bgs[k].inv, Fighters));
    w.AdjustShip(p, Fighters, -pLoss);
    LosingFighters(old(w.players[p]), pLoss, 0, now);
    ShipOk(old(w.View()), w.numsec, p);
    ShipHit(old(w.View()), w.numsec, p, w.players[p]);
    ghost var mid := w.View();
    w.AdjustGarrison(k, Fighters, -dLoss);
    ForceHit(mid, w.numsec, k, w.bgs[k].inv);
    WornWider(old(w.View()), mid, {p}, {}, {p}, {mid.bgs[k].sector});
    WornWider(mid, w.View(), {}, {mid.bgs[k].sector}, {p}, {mid.bgs[k].sector});
    WornOn(old(w.View()), mid, w.View(), w.numsec, {p}, {mid.bgs[k].sector});
  }

  /** A defense force with nothing left is disbanded. */
  method DisbandIfEmpty(w: World, k: nat)
    requires w.Sound() && k < |w.bgs| && MannedBut(w.bgs, k)
    modifies w`bgs
    ensures w.Valid() && Worn(old(w.View()), w.View(), {}, {})
    ensures w.bgs == old(w.bgs) || (!HasInventory(old(w.bgs[k].inv)) && w.bgs == old(w.bgs[..k] + w.bgs[k + 1..]))
  {
    hide SoundState, Worn, Manned, MannedBut;
    MannedAgain(w.bgs, k);
    if HasInventory(w.bgs[k].inv) {
      NothingWorn(w.View(), {}, {});
    } else {
      Disbanded(w.View(), w.numsec, k);
      RemoveBattlegroup(w, k);
    }
  }

  lemma OnlyHostile(s: State, numsec: int, p: PlayerId, sector: int, k: nat)
    requires SoundState(s, numsec) && IsHostile(s.bgs, p, sector, k)
    ensures forall j :: IsHostile(s.bgs, p, sector, j) ==> j == k
    ensures var cut := s.bgs[..k] + s.bgs[k + 1..]; forall j :: !IsHostile(cut, p, sector, j)
  {
    var cut := s.bgs[..k] + s.bgs[k + 1..];
    forall j ensures !IsHostile(cut, p, sector, j) {
      if 0 <= j < |cut| {
        assert cut[j] == s.bgs[if j < k then j else j + 1];
      }
    }
  }

  /** The stores of the force that somebody else has in the sector. */
  ghost function HostileStores(bgs: seq<Battlegroup>, p: PlayerId, sector: int): Inventory {
    if OwnerAt(bgs, sector) == p then map[] else At(bgs, sector)
  }

  lemma HostileStoresAre(s: State, numsec: int, p: PlayerId, sector: int)
    requires SoundState(s, numsec)
    ensures forall k :: IsHostile(s.bgs, p, sector, k) ==> HostileStores(s.bgs, p, sector) == s.bgs[k].inv
    ensures (forall k :: !IsHostile(s.bgs, p, sector, k)) ==> HostileStores(s.bgs, p, sector) == map[]
  {
    forall k | IsHostile(s.bgs, p, sector, k) ensures HostileStores(s.bgs, p, sector) == s.bgs[k].inv {
      AtIndex(s.bgs, k);
    }
    if forall k :: !IsHostile(s.bgs, p, sector, k) {
      var j := AtSome(s.bgs, sector);
      assert !IsHostile(s.bgs, p, sector, j);
    }
  }

  /** The exchange at the edge of a guarded sector: a ship that loses it is stopped, and one that wins goes on without its losses. */
  ghost predicate EdgeMet(before: Player, after: Player, stores: Inventory, left: Inventory, stopped: bool) {
    var guards := Qty(stores, Fighters);
    exists pLoss: nat, dLoss: nat ::
      && Exchanged(before.Has(Fighters), guards, pLoss, dLoss)
      && Qty(left, Fighters) == guards - dLoss && Qty(left, Mines) == Qty(stores, Mines)
      && (stopped <==> guards > 0 && pLoss == before.Has(Fighters))
      && if stopped then Overcome(before, after) else after == Fewer(before, pLoss)
  }

  lemma Unguarded(ship: Player, stores: Inventory)
    requires Qty(stores, Fighters) == 0
    ensures EdgeMet(ship, ship, stores, stores, false)
  {
    NothingMet(ship);
    assert Exchanged(ship.Has(Fighters), 0, 0, 0);
  }

  /** The fighters guarding the destination meet the ship at the edge, and stop it or are wiped out. */
  method ContestEntry(w: World, p: PlayerId, dest: nat, now: Time) returns (stopped: bool)
    requires w.Valid() && Alive(w.players, p) && !w.players[p].IsNpc()
    modifies w`players, w`planets, w`bgs, w`clamped
    ensures w.Valid() && Worn(old(w.View()), w.View(), {p}, {dest})
    ensures p < |w.players| && Fought(old(w.players[p]), w.players[p], 0, now)
    ensures EdgeMet(old(w.players[p]), w.players[p], HostileStores(old(w.bgs), p, dest), HostileStores(w.bgs, p, dest), stopped)
    ensures stopped ==> w.players[p].IsDead() || w.players[p].Has(EmWarp) < old(w.players[p]).Has(EmWarp)
    ensures (forall k :: !IsHostile(old(w.bgs), p, dest, k)) ==> !stopped && w.View() == old(w.View())
    ensures !stopped ==> |w.players| == |old(w.players)| && w.players[p] == old(w.players[p]).(inv := w.players[p].inv)
                         && w.players[p].Has(EmWarp) == old(w.players[p]).Has(EmWarp) && NoFighters(w.bgs, p, dest)
  {
    hide SoundState, Worn, Fought, Manned, Aftermath, Exchanged, HostileStores, EdgeMet, Overcome;
    var k := HostileBattlegroup(w, p, dest);
    HostileStoresAre(w.View(), w.numsec, p, dest);
    if k == -1 || Qty(w.bgs[k].inv, Fighters) == 0 {
      Unharmed(w.players[p], 0, now);
      NothingWorn(w.View(), {p}, {dest});
      if k != -1 {
        OnlyHostile(w.View(), w.numsec, p, dest, k);
      }
      Unguarded(w.players[p], HostileStores(w.bgs, p, dest));
      return false;
    }
    OnlyHostile(w.View(), w.numsec, p, dest, k);
    var pLoss, dLoss := EdgeBattle(w, p, k, now);
    ghost var mid, ship := w.View(), w.players[p];
    EdgeManned(old(w.bgs), k, w.bgs[k].inv);
    if w.players[p].Has(Fighters) == 0 {
      stopped := true;
      var escaped := EscapeOrDie(w, p, now);
      StoppedAtTheEdge(mid, w.View(), w.numsec, p, dest, k);
      StoresAsBefore(mid, w.View(), w.numsec, p, dest, k);
      FoughtOn(old(w.players[p]), ship, w.players[p], 0, now);
    } else {
      stopped := false;
      OnlyHostile(w.View(), w.numsec, p, dest, k);
      DisbandIfEmpty(w, k);
      WornWider(mid, w.View(), {}, {}, {p}, {dest});
      EmptyStores(mid.bgs[k].inv);
    }
    WornOn(old(w.View()), mid, w.View(), w.numsec, {p}, {dest});
    HostileStoresAre(w.View(), w.numsec, p, dest);
    MetAtTheEdge(old(w.players[p]), ship, w.players[p], old(w.bgs[k].inv), mid.bgs[k].inv, HostileStores(w.bgs, p, dest), pLoss, dLoss);
  }

  lemma EmptyStores(inv: Inventory)
    ensures !HasInventory(inv) ==> forall g :: Qty(inv, g) == 0
  {
  }

  lemma MetAtTheEdge(before: Player, hit: Player, after: Player, stores: Inventory, mid: Inventory, left: Inventory, pLoss: nat, dLoss: nat)
    requires Exchanged(before.Has(Fighters), Qty(stores, Fighters), pLoss, dLoss) && Qty(stores, Fighters) > 0
    requires hit == Fewer(before, pLoss) && mid == Adjusted(stores, Fighters, 0 - dLoss)
    requires Qty(left, Fighters) == Qty(mid, Fighters) && Qty(left, Mines) == Qty(mid, Mines)
    requires if hit.Has(Fighters) == 0 then Overcome(hit, after) else after == hit
    ensures EdgeMet(before, after, stores, left, hit.Has(Fighters) == 0)
  {
    hide Adjusted;
    assert Qty(left, Fighters) == Qty(stores, Fighters) - dLoss;
  }

  lemma EdgeManned(bgs: seq<Battlegroup>, k: nat, inv: Inventory)
    requires Manned(bgs) && k < |bgs|
    ensures var after := bgs[k := bgs[k].(inv := inv)];
            MannedBut(after, k) && (Qty(inv, Fighters) > 0 ==> Manned(after))
  {
    if Qty(inv, Fighters) > 0 {
      Positive(inv, Fighters);
    }
  }

  lemma StoppedAtTheEdge(s: State, t: State, numsec: int, p: PlayerId, dest: nat, k: nat)
    requires SoundState(s, numsec) && Aftermath(s, t, {p}) && Manned(s.bgs)
    requires p < |s.players| && s.players[p].Has(Fighters) == 0 && p < |t.players|
    requires t.players[p].Has(Fighters) == 0 && t.players[p].Has(Mines) == s.players[p].Has(Mines)
    ensures Worn(s, t, {p}, {dest}) && Manned(t.bgs)
  {
    hide SoundState, Aftermath, Worn, Manned;
    AftermathWorn(s, t, numsec, {p});
    WornWider(s, t, {p}, {}, {p}, {dest});
    AllStillManned(s, t, {p});
  }

  /** Mines left by somebody else go off on arrival, until they are spent or the ship is gone. */
  method EnterMinefield(w: World, p: PlayerId, dest: nat, now: Time) returns (fate: Fate)
    requires w.Valid() && Alive(w.players, p) && !w.players[p].IsNpc() && NoFighters(w.bgs, p, dest)
    modifies w`players, w`planets, w`bgs, w`clamped
    ensures w.Valid() && Worn(old(w.View()), w.View(), {p}, {dest})
    ensures p < |w.players| && Fought(old(w.players[p]), w.players[p], 0, now)
    ensures var mines := Qty(HostileStores(old(w.bgs), p, dest), Mines);
            && Swept(old(w.players[p]), w.players[p], mines)
            && Qty(HostileStores(w.bgs, p, dest), Fighters) == 0
            && (mines == 0 || Qty(HostileStores(w.bgs, p, dest), Mines) < mines)
    ensures fate.Deflection? || fate.Hit? ==> Cleared(w.bgs, p, dest) && w.players[p].sector == old(w.players[p]).sector
    ensures w.players[p].Has(EmWarp) == old(w.players[p]).Has(EmWarp) - (if fate.Escape? then 1 else 0)
    ensures w.players[p].IsDead() <==> fate.Destruction?
    ensures (forall k :: !IsHostile(old(w.bgs), p, dest, k)) ==> fate.Deflection? && w.View() == old(w.View())
  {
    hide SoundState, Worn, Fought, Manned, Aftermath, HostileStores, Swept, MineToll;
    var k := HostileBattlegroup(w, p, dest);
    HostileStoresAre(w.View(), w.numsec, p, dest);
    if k == -1 || Qty(w.bgs[k].inv, Mines) == 0 {
      Unharmed(w.players[p], 0, now);
      NothingWorn(w.View(), {p}, {dest});
      if k != -1 {
        OnlyHostile(w.View(), w.numsec, p, dest, k);
      }
      NothingMet(w.players[p]);
      return Deflection;
    }
    OnlyHostile(w.View(), w.numsec, p, dest, k);
    var blasted: int;
    blasted, fate := SweepMines(w, p, Qty(w.bgs[k].inv, Mines), now);
    ghost var mid := w.View();
    FleetCounts(old(w.players[p]), w.players[p], now);
    if fate.Deflection? || fate.Hit? {
      TollKeeps(old(w.players[p]), w.players[p], Qty(old(w.bgs[k].inv), Mines));
    }
    AftermathWorn(old(w.View()), mid, w.numsec, {p});
    AllStillManned(old(w.View()), mid, {p});
    StoresAsBefore(old(w.View()), mid, w.numsec, p, dest, k);
    WornWider(old(w.View()), mid, {p}, {}, {p}, {dest});
    SpendMines(w, p, dest, k, blasted);
    WornWider(mid, w.View(), {}, {dest}, {p}, {dest});
    WornOn(old(w.View()), mid, w.View(), w.numsec, {p}, {dest});
  }

  /** The mines that went off are gone, and so is a force with nothing left. */
  method SpendMines(w: World, p: PlayerId, dest: nat, k: nat, blasted: int)
    requires w.Valid() && IsHostile(w.bgs, p, dest, k) && Qty(w.bgs[k].inv, Fighters) == 0
    requires 0 <= blasted <= Qty(w.bgs[k].inv, Mines)
    modifies w`bgs, w`clamped
    ensures w.Valid() && Worn(old(w.View()), w.View(), {}, {dest})
    ensures Qty(HostileStores(w.bgs, p, dest), Fighters) == 0
    ensures Qty(HostileStores(w.bgs, p, dest), Mines) == Qty(old(w.bgs[k].inv), Mines) - blasted
    ensures blasted == Qty(old(w.bgs[k].inv), Mines) ==> Cleared(w.bgs, p, dest)
  {
    hide SoundState, Worn, Manned, HostileStores;
    ghost var s := w.View();
    w.AdjustGarrison(k, Mines, -blasted);
    ForceHit(s, w.numsec, k, w.bgs[k].inv);
    ghost var swept := w.View();
    EdgeManned(s.bgs, k, w.bgs[k].inv);
    assert swept == s.(bgs := s.bgs[k := s.bgs[k].(inv := swept.bgs[k].inv)]);
    OnlyHostile(swept, w.numsec, p, dest, k);
    EmptyStores(swept.bgs[k].inv);
    DisbandIfEmpty(w, k);
    WornWider(swept, w.View(), {}, {}, {}, {dest});
    WornOn(s, swept, w.View(), w.numsec, {}, {dest});
    HostileStoresAre(w.View(), w.numsec, p, dest);
  }

  /** A fight that only the visitor took part in leaves the defenders there, hostile as before. */
  lemma StoresAsBefore(s: State, t: State, numsec: int, p: PlayerId, dest: nat, k: nat)
    requires Aftermath(s, t, {p}) && SoundState(s, numsec) && SoundState(t, numsec) && IsHostile(s.bgs, p, dest, k)
    requires p < |s.players| && !s.players[p].IsNpc()
    ensures IsHostile(t.bgs, p, dest, k) && t.bgs[k].inv == s.bgs[k].inv
  {
  }

  /**
    * What a ship goes through on its way into a sector where somebody else has these stores. Its fighters and the
    * guards are exchanged first. A ship that loses is stopped there, and the guards are left with what they did not
    * lose. One that wins goes on, without its losses, into all the mines there are.
    */
  ghost predicate Contested(before: Player, after: Player, stores: Inventory, left: Inventory) {
    var guards, mines := Qty(stores, Fighters), Qty(stores, Mines);
    exists pLoss: nat, dLoss: nat ::
      && Exchanged(before.Has(Fighters), guards, pLoss, dLoss)
      && if guards > 0 && pLoss == before.Has(Fighters) then
           Overcome(before, after) && Qty(left, Fighters) == guards - dLoss && Qty(left, Mines) == mines
         else
           Swept(Fewer(before, pLoss), after, mines) && Qty(left, Fighters) == 0 && (mines == 0 || Qty(left, Mines) < mines)
  }

  lemma StoppedShort(before: Player, after: Player, stores: Inventory, left: Inventory, dest: nat)
    requires EdgeMet(before, after, stores, left, true)
    ensures Contested(before.(sector := dest), after, stores, left)
  {
    var pLoss: nat, dLoss: nat :| && Exchanged(before.Has(Fighters), Qty(stores, Fighters), pLoss, dLoss) && pLoss == before.Has(Fighters)
                                  && Qty(left, Fighters) == Qty(stores, Fighters) - dLoss;
    assert Exchanged(before.(sector := dest).Has(Fighters), Qty(stores, Fighters), pLoss, dLoss);
  }

  lemma WentOn(before: Player, mid: Player, after: Player, stores: Inventory, rest: Inventory, left: Inventory, dest: nat)
    requires EdgeMet(before, mid, stores, rest, false) && Swept(mid.(sector := dest), after, Qty(rest, Mines))
    requires Qty(left, Fighters) == 0 && (Qty(rest, Mines) == 0 || Qty(left, Mines) < Qty(rest, Mines))
    ensures Contested(before.(sector := dest), after, stores, left)
  {
    hide Swept;
    var pLoss: nat, dLoss: nat :| && Exchanged(before.Has(Fighters), Qty(stores, Fighters), pLoss, dLoss)
                                  && !(Qty(stores, Fighters) > 0 && pLoss == before.Has(Fighters)) && mid == Fewer(before, pLoss);
    assert Fewer(before.(sector := dest), pLoss) == mid.(sector := dest);
    assert Exchanged(before.(sector := dest).Has(Fighters), Qty(stores, Fighters), pLoss, dLoss);
  }

  /**
    * A move to a neighbouring sector. It costs a turn; it is contested by fighters and mines that other players
    * left there; a ship still flying, with its Emergency Warp unused, has arrived and cleared them away.
    */
  method MovePlayer(w: World, p: PlayerId, dest: int, now: Time) returns (err: Error)
    requires w.Valid() && Charted(w.sectors) && p < |w.players| && !w.players[p].IsNpc()
    modifies w`players, w`planets, w`bgs, w`clamped
    ensures w.Valid()
    ensures err == MoveRefusal(old(w.players[p]), ChartOf(w.sectors), dest)
    ensures !err.NoError? ==> w.View() == old(w.View())
    ensures err.NoError? ==> Worn(old(w.View()), w.View(), {p}, {dest})
    ensures err.NoError? ==> p < |w.players| && Fought(Underway(old(w.players[p])).(sector := dest), w.players[p], 0, now)
    ensures err.NoError? && !w.players[p].IsDead() && w.players[p].Has(EmWarp) == old(w.players[p]).Has(EmWarp) ==>
              w.players[p].sector == dest && Cleared(w.bgs, p, dest)
    ensures err.NoError? ==> Contested(Underway(old(w.players[p])).(sector := dest), w.players[p],
                                       HostileStores(old(w.bgs), p, dest), HostileStores(w.bgs, p, dest))
    ensures err.NoError? && (forall k :: !IsHostile(old(w.bgs), p, dest, k)) ==>
              w.View() == old(w.View()).(players := old(w.players)[p := Underway(old(w.players[p])).(sector := dest)])
  {
    hide SoundState, Worn, Manned, ChartOf, Fought, Cleared, MoveRefusal, Contested, HostileStores;
    err := CheckMove(w, p, dest);
    if err.NoError? {
      Depart(w, p);
      Travel(w, old(w.View()), p, dest, now);
    }
  }

  method CheckMove(w: World, p: PlayerId, dest: int) returns (err: Error)
    requires w.Valid() && p < |w.players|
    ensures err == MoveRefusal(w.players[p], ChartOf(w.sectors), dest)
    ensures err.NoError? ==> !w.players[p].IsDead() && 1 <= dest <= w.numsec && HasTurn(w.players[p])
  {
    hide SoundState, Manned, ChartOf;
    if w.players[p].IsDead() {
      return Dead;
    }
    if w.players[p].sector < 1 || w.players[p].sector >= |w.sectors| || dest < 1 || dest >= |w.sectors| {
      return NotFound;
    }
    var has := w.sectors[w.players[p].sector].HasWarp(dest);
    WarpsOf(w.sectors, w.players[p].sector);
    if !has {
      return NotFound;
    }
    if SystemDown(w.players[p], ENGINES) {
      return Unknown;
    }
    err := if HasTurn(w.players[p]) then NoError else NoTurns;
  }

  /** The turn is spent, and from now on the ship is part of the visible world. */
  method Depart(w: World, p: PlayerId)
    requires w.Valid() && Alive(w.players, p) && HasTurn(w.players[p])
    modifies w`players, w`clamped
    ensures w.Valid() && Worn(old(w.View()), w.View(), {p}, {})
    ensures w.View() == old(w.View()).(players := old(w.players)[p := Underway(old(w.players[p]))])
  {
    hide SoundState, Worn, Manned;
    var err := SpendTurn(w, p);
    w.players := w.players[p := w.players[p].(everMoved := true)];
    ShipOk(old(w.View()), w.numsec, p);
    ShipHit(old(w.View()), w.numsec, p, Underway(old(w.players[p])));
    assert w.View() == old(w.View()).(players := old(w.players)[p := Underway(old(w.players[p]))]);
  }

  /** The voyage itself, once paid for. */
  method Travel(w: World, ghost s: State, p: PlayerId, dest: nat, now: Time)
    requires w.Valid() && Alive(w.players, p) && !w.players[p].IsNpc() && 1 <= dest <= w.numsec
    requires p < |s.players| && SoundState(s, w.numsec) && Worn(s, w.View(), {p}, {})
    modifies w`players, w`planets, w`bgs, w`clamped
    ensures w.Valid() && Worn(s, w.View(), {p}, {dest})
    ensures p < |w.players| && Fought(old(w.players[p]).(sector := dest), w.players[p], 0, now)
    ensures !w.players[p].IsDead() && w.players[p].Has(EmWarp) == old(w.players[p]).Has(EmWarp) ==>
              w.players[p].sector == dest && Cleared(w.bgs, p, dest)
    ensures Contested(old(w.players[p]).(sector := dest), w.players[p], HostileStores(old(w.bgs), p, dest), HostileStores(w.bgs, p, dest))
    ensures (forall k :: !IsHostile(old(w.bgs), p, dest, k)) ==>
              w.View() == old(w.View()).(players := old(w.players)[p := old(w.players[p]).(sector := dest)])
  {
    hide SoundState, Worn, Manned, Fought, Contested, EdgeMet, Swept, HostileStores, Cleared, NoFighters;
    ghost var ship, start, stores := w.players[p], w.View(), HostileStores(w.bgs, p, dest);
    WornWider(s, w.View(), {p}, {}, {p}, {dest});
    var stopped := ContestEntry(w, p, dest, now);
    WornOn(s, start, w.View(), w.numsec, {p}, {dest});
    if stopped {
      Rerouted(ship, w.players[p], dest, now);
      StoppedShort(ship, w.players[p], stores, HostileStores(w.bgs, p, dest), dest);
    } else {
      ghost var mid, arriving := w.View(), w.players[p];
      ShipOk(w.View(), w.numsec, p);
      w.players := w.players[p := w.players[p].(sector := dest)];
      ShipHit(mid, w.numsec, p, w.players[p]);
      WornWider(mid, w.View(), {p}, {}, {p}, {dest});
      WornOn(s, mid, w.View(), w.numsec, {p}, {dest});
      ghost var landed := w.View();
      Arrived(ship, arriving, dest, now);
      var fate := EnterMinefield(w, p, dest, now);
      WornOn(s, landed, w.View(), w.numsec, {p}, {dest});
      FoughtOn(ship.(sector := dest), landed.players[p], w.players[p], 0, now);
      WentOn(ship, arriving, w.players[p], stores, HostileStores(mid.bgs, p, dest), HostileStores(w.bgs, p, dest), dest);
    }
  }

  /** A ship that was stopped did not get where it was going on its own. */
  lemma Rerouted(ship: Player, after: Player, dest: nat, now: Time)
    requires Fought(ship, after, 0, now) && !ship.IsDead()
    requires after.IsDead() || after.Has(EmWarp) < ship.Has(EmWarp)
    ensures Fought(ship.(sector := dest), after, 0, now)
  {
  }

  lemma Arrived(ship: Player, after: Player, dest: nat, now: Time)
    requires Fought(ship, after, 0, now) && !ship.IsDead() && !after.IsDead()
    ensures Fought(ship.(sector := dest), after.(sector := dest), 0, now)
  {
  }

  lemma WarpsOf(sectors: seq<Sector>, i: nat)
    requires i < |sectors|
    ensures ChartOf(sectors)[i] == sectors[i].warps
  {
  }
}
