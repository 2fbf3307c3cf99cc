/** Planetary invasion (combat.go:227-353). */
module Invasion {
  import opened Goods
  import opened Entities
  import opened Worlds
  import opened Battle
  import opened Fights
  import opened Garrisons
  import opened Commands
  import opened Combat
  import opened Bombardment
  import opened Ledger

  /** The planet in the sector, or -1. */
  function PlanetIn(planets: seq<Planet>, sector: int): (k: int)
    ensures -1 <= k < |planets|
    ensures k == -1 ==> forall j :: 0 <= j < |planets| ==> planets[j].sector != sector
    ensures k >= 0 ==> planets[k].sector == sector
  {
    if planets == [] then -1
    else if planets[0].sector == sector then 0
    else
      var k := PlanetIn(planets[1..], sector);
      assert forall j :: 1 <= j < |planets| ==> planets[j] == planets[1..][j - 1];
      if k == -1 then -1 else k + 1
  }

  function InvadeRefusal(p: Player, planets: seq<Planet>, a: PlayerId, commit: int): (r: Error)
    ensures r.NoError? <==>
              && !p.IsDead() && p.systems[THRUSTERS] == 0
              && PlanetIn(planets, p.sector) != -1 && planets[PlanetIn(planets, p.sector)].owner != a
              && 1 <= commit <= p.Has(Fighters) && HasTurn(p)
  {
    var k := PlanetIn(planets, p.sector);
    if p.IsDead() then Dead
    else if SystemDown(p, THRUSTERS) then Unknown
    else if k == -1 then NotFound
    else if planets[k].owner == a then AlreadyExists
    else if commit < 1 then NegativeQuantity
    else if commit > p.Has(Fighters) then NotEnoughQuantity
    else if !HasTurn(p) then NoTurns
    else NoError
  }

  /** How an invasion ends: at the garrison, in the minefield, with the planet taken, or with it destroyed. */
  datatype Outcome = Repelled | Mined | Captured | Razed

  /** One planet's stores changed in a fight with the ship a; the rest as after any fight. */
  ghost predicate Assaulted(s: State, t: State, a: PlayerId, k: nat, stores: Inventory) {
    && k < |s.planets|
    && Aftermath(s.(planets := s.planets[k := s.planets[k].(inv := stores)]), t, {a})
  }

  /** The garrison is fought until it or the committed force is gone. */
  method StormGarrison(w: World, a: PlayerId, k: nat, commit: nat, ghost now: Time)
    requires w.Sound() && Alive(w.players, a) && k < |w.planets| && 1 <= commit <= w.players[a].Has(Fighters)
    requires Qty(w.planets[k].inv, Fighters) > 0
    modifies w`players, w`planets, w`clamped
    ensures w.Sound() && |w.players| == |old(w.players)| && |w.planets| == |old(w.planets)|
    ensures w.players == old(w.players)[a := w.players[a]] && Fought(old(w.players[a]), w.players[a], 0, now)
    ensures w.planets == old(w.planets)[k := old(w.planets[k]).(inv := w.planets[k].inv)]
    ensures forall g :: g != Fighters ==> Qty(w.planets[k].inv, g) == Qty(old(w.planets[k]).inv, g)
    ensures Qty(w.planets[k].inv, Fighters) < Qty(old(w.planets[k]).inv, Fighters) || w.players[a].Has(Fighters) < old(w.players[a]).Has(Fighters)
    ensures Qty(w.planets[k].inv, Fighters) <= Qty(old(w.planets[k]).inv, Fighters)
    ensures Exchanged(commit, Qty(old(w.planets[k]).inv, Fighters),
                      old(w.players[a]).Has(Fighters) - w.players[a].Has(Fighters),
                      Qty(old(w.planets[k]).inv, Fighters) - Qty(w.planets[k].inv, Fighters))
    ensures w.players[a] == Fewer(old(w.players[a]), old(w.players[a]).Has(Fighters) - w.players[a].Has(Fighters))
    ensures Qty(w.planets[k].inv, Fighters) > 0 ==> w.players[a].Has(Fighters) + commit == old(w.players[a]).Has(Fighters)
    ensures Qty(w.planets[k].inv, Fighters) == 0 ==> w.players[a].Has(Fighters) + commit > old(w.players[a]).Has(Fighters)
  {
    hide SoundState, Fought;
    var aLoss: int, dLoss: int := Attrition(commit, Qty(w.planets[k].inv, Fighters));
    w.AdjustShip(a, Fighters, -aLoss);
    LosingFighters(old(w.players[a]), aLoss, 0, now);
    ShipOk(old(w.View()), w.numsec, a);
    Refitted(old(w.View()), w.numsec, a, w.players[a]);
    ghost var mid := w.View();
    PlanetHeld(mid, w.numsec, k);
    w.AdjustPlanet(k, Fighters, -dLoss);
    PlanetRefitted(mid, w.numsec, k, w.planets[k]);
    assert w.players[a] == Fewer(old(w.players[a]), aLoss);
  }

  lemma PlanetHeld(s: State, numsec: int, k: nat)
    requires SoundState(s, numsec) && k < |s.planets|
    ensures Alive(s.players, s.planets[k].owner) && FED_SPACE < s.planets[k].sector <= numsec
  {
  }

  lemma Assault1(s: State, numsec: int, a: PlayerId, k: nat, ship: Player, stores: Inventory, t: State)
    requires SoundState(s, numsec) && a < |s.players| && k < |s.planets|
    requires ship.kind == s.players[a].kind && ship.IsDead() == s.players[a].IsDead() && PlayerOk(ship, numsec)
    requires t == s.(players := s.players[a := ship], planets := s.planets[k := s.planets[k].(inv := stores)])
    ensures Assaulted(s, t, a, k, stores)
  {
    PlanetHeld(s, numsec, k);
    var u := s.(planets := s.planets[k := s.planets[k].(inv := stores)]);
    PlanetRefitted(s, numsec, k, u.planets[k]);
    Refitted(u, numsec, a, ship);
    assert t == u.(players := u.players[a := ship]);
  }

  lemma AssaultOn(s: State, t: State, u: State, numsec: int, a: PlayerId, k: nat, stores: Inventory)
    requires Assaulted(s, t, a, k, stores) && Aftermath(t, u, {a}) && a < |s.players|
    requires SoundState(s, numsec) && SoundState(t, numsec) && SoundState(u, numsec)
    ensures Assaulted(s, u, a, k, stores)
  {
    var s' := s.(planets := s.planets[k := s.planets[k].(inv := stores)]);
    PlanetHeld(s, numsec, k);
    PlanetRefitted(s, numsec, k, s'.planets[k]);
    hide SoundState, Aftermath;
    Then(s', t, u, numsec, {a});
  }

  /** The planet's stores change once more after the fight. */
  lemma Restocked(s: State, t: State, a: PlayerId, k: nat, stores: Inventory, later: Inventory)
    requires Assaulted(s, t, a, k, stores)
    ensures k < |t.planets|
    ensures Assaulted(s, t.(planets := t.planets[k := t.planets[k].(inv := later)]), a, k, later)
  {
  }

  /** The defender's planet is still the defender's, and the defender's forces are as they were. */
  lemma StillHeld(s: State, t: State, numsec: int, a: PlayerId, k: nat, stores: Inventory)
    requires Assaulted(s, t, a, k, stores) && SoundState(s, numsec) && s.planets[k].owner != a
    ensures |t.planets| == |s.planets| && t.planets[k] == s.planets[k].(inv := stores)
    ensures |s.players| <= |t.players|
    ensures forall j: nat :: j < |s.players| && j != a ==> t.players[j] == s.players[j]
    ensures Manned(s.bgs) ==> Manned(t.bgs)
  {
  }

  /** The garrison is wiped out at the price of some of the committed fighters. */
  ghost predicate BrokeIn(before: Player, after: Player, commit: nat, garrison: nat) {
    exists loss: nat :: Exchanged(commit, garrison, loss, garrison) && after == Fewer(before, loss)
  }

  /** And what was left of the ship went into the mines. */
  ghost predicate MetMines(before: Player, after: Player, commit: nat, garrison: nat, mines: nat) {
    exists loss: nat :: Exchanged(commit, garrison, loss, garrison) && Swept(Fewer(before, loss), after, mines)
  }

  /** The whole price of reaching a planet that had such a garrison and so many mines. */
  ghost predicate Crossed(before: Player, after: Player, commit: nat, garrison: nat, mines: nat) {
    exists loss: nat :: Exchanged(commit, garrison, loss, garrison) && MineToll(Fewer(before, loss), after, mines)
  }

  /** The committed fighters are lost on the garrison; a ship left without any gets away or is lost with them. */
  ghost predicate HeldOff(before: Player, after: Player, commit: nat) {
    if commit == before.Has(Fighters) then Overcome(before, after) else after == Fewer(before, commit)
  }

  lemma ThenMines(before: Player, mid: Player, after: Player, commit: nat, garrison: nat, mines: nat)
    requires BrokeIn(before, mid, commit, garrison) && Swept(mid, after, mines)
    ensures MetMines(before, after, commit, garrison, mines)
  {
    hide Swept, Exchanged, Fewer;
  }

  lemma CameThrough(before: Player, mid: Player, after: Player, commit: nat, garrison: nat, mines: nat)
    requires BrokeIn(before, mid, commit, garrison) && MineToll(mid, after, mines)
    ensures Crossed(before, after, commit, garrison, mines)
  {
    hide MineToll, Exchanged, Fewer;
  }

  lemma Broke(before: Player, after: Player, commit: nat, garrison: nat, left: nat)
    requires after.Has(Fighters) <= before.Has(Fighters) && left <= garrison
    requires Exchanged(commit, garrison, before.Has(Fighters) - after.Has(Fighters), garrison - left)
    requires after == Fewer(before, before.Has(Fighters) - after.Has(Fighters))
    ensures left == 0 ==> BrokeIn(before, after, commit, garrison)
  {
    hide Exchanged;
  }

  lemma NoGarrison(ship: Player, commit: nat)
    ensures BrokeIn(ship, ship, commit, 0)
  {
    NothingMet(ship);
    assert Exchanged(commit, 0, 0, 0);
  }

  lemma FoughtOff(before: Player, hit: Player, after: Player, commit: nat)
    requires commit <= before.Has(Fighters) && hit == Fewer(before, commit)
    requires if hit.Has(Fighters) == 0 then Overcome(hit, after) else after == hit
    ensures HeldOff(before, after, commit)
  {
  }

  /** What a fight that ended short of capture did. */
  ghost predicate Beaten(s: State, t: State, a: PlayerId, k: nat, commit: nat, outcome: Outcome, now: Time) {
    && a < |s.players| && a < |t.players| && k < |s.planets| && k < |t.planets|
    && Assaulted(s, t, a, k, t.planets[k].inv)
    && Fought(s.players[a], t.players[a], 0, now)
    && t.planets[k] == s.planets[k].(inv := t.planets[k].inv)
    && (forall g :: g != Fighters && g != Mines ==> Qty(t.planets[k].inv, g) == Qty(s.planets[k].inv, g))
    && if outcome.Repelled? then
         // the garrison held, and the committed force is gone
         && 0 < Qty(t.planets[k].inv, Fighters) <= Qty(s.planets[k].inv, Fighters)
         && Qty(t.planets[k].inv, Mines) == Qty(s.planets[k].inv, Mines)
         && t.players[a].Has(Fighters) + commit == s.players[a].Has(Fighters)
       else
         // the garrison broke, but the mines finished the invader or drove it off
         && Qty(t.planets[k].inv, Fighters) == 0
         && Qty(t.planets[k].inv, Mines) < Qty(s.planets[k].inv, Mines)
         && (t.players[a].IsDead() || t.players[a].Has(EmWarp) < s.players[a].Has(EmWarp))
         && MetMines(s.players[a], t.players[a], commit, Qty(s.planets[k].inv, Fighters), Qty(s.planets[k].inv, Mines))
  }

  /** The way to the planet is open: garrison and mines are gone and the invader is still flying. */
  ghost predicate Stormed(s: State, t: State, a: PlayerId, k: nat, commit: nat, now: Time) {
    && a < |s.players| && |t.players| == |s.players| && k < |s.planets| && |t.planets| == |s.planets|
    && t == State(s.players[a := t.players[a]], s.planets[k := s.planets[k].(inv := t.planets[k].inv)], s.bgs)
    && Fought(s.players[a], t.players[a], 0, now) && !t.players[a].IsDead()
    && t.players[a].sector == s.players[a].sector && t.players[a].Has(EmWarp) == s.players[a].Has(EmWarp)
    && Qty(t.planets[k].inv, Fighters) == 0 && Qty(t.planets[k].inv, Mines) == 0
    && Crossed(s.players[a], t.players[a], commit, Qty(s.planets[k].inv, Fighters), Qty(s.planets[k].inv, Mines))
    && forall g :: g != Fighters && g != Mines ==> Qty(t.planets[k].inv, g) == Qty(s.planets[k].inv, g)
  }

  /** If the garrison held: an invader without fighters flees or dies. */
  method Repulse(w: World, ghost s: State, a: PlayerId, k: nat, commit: nat, now: Time)
    requires w.Sound() && Alive(w.players, a) && !w.players[a].IsNpc() && SoundState(s, w.numsec)
    requires Beaten(s, w.View(), a, k, commit, Repelled, now) && s.planets[k].owner != a
    requires commit <= s.players[a].Has(Fighters) && w.players[a] == Fewer(s.players[a], commit)
    modifies w`players, w`bgs, w`planets, w`clamped
    ensures w.Sound() && Beaten(s, w.View(), a, k, commit, Repelled, now)
    ensures HeldOff(s.players[a], w.players[a], commit)
  {
    hide SoundState, Assaulted, Fought, Aftermath, Overcome, HeldOff, MetMines;
    if w.players[a].Has(Fighters) == 0 {
      ghost var t := w.View();
      var escaped := EscapeOrDie(w, a, now);
      AfterRepulse(s, t, w.View(), w.numsec, a, k, commit, now);
    }
    FoughtOff(s.players[a], old(w.players[a]), w.players[a], commit);
  }

  lemma AfterRepulse(s: State, t: State, u: State, numsec: int, a: PlayerId, k: nat, commit: nat, now: Time)
    requires Beaten(s, t, a, k, commit, Repelled, now) && s.planets[k].owner != a
    requires SoundState(s, numsec) && SoundState(t, numsec) && SoundState(u, numsec)
    requires Aftermath(t, u, {a}) && a < |u.players| && Fought(t.players[a], u.players[a], 0, now)
    requires t.players[a].Has(Fighters) == 0
    ensures Beaten(s, u, a, k, commit, Repelled, now)
  {
    AssaultOn(s, t, u, numsec, a, k, t.planets[k].inv);
    StillHeld(s, u, numsec, a, k, t.planets[k].inv);
    FoughtOn(s.players[a], t.players[a], u.players[a], 0, now);
    hide SoundState, Aftermath;
    FleetCounts(t.players[a], u.players[a], now);
  }

  /** The garrison first: either it holds, or the way to the minefield is open. */
  method BreakGarrison(w: World, a: PlayerId, k: nat, commit: nat, now: Time) returns (broken: bool)
    requires w.Sound() && Alive(w.players, a) && !w.players[a].IsNpc() && k < |w.planets|
    requires w.planets[k].owner != a && 1 <= commit <= w.players[a].Has(Fighters)
    modifies w`players, w`bgs, w`planets, w`clamped
    ensures w.Sound()
    ensures !broken ==> Beaten(old(w.View()), w.View(), a, k, commit, Repelled, now) && HeldOff(old(w.players[a]), w.players[a], commit)
    ensures broken ==> InTheMinefield(old(w.View()), w.View(), a, k, commit, now)
  {
    hide SoundState, Assaulted, Fought, Aftermath, HeldOff, MetMines, BrokeIn;
    ghost var s := w.View();
    ShipOk(s, w.numsec, a);
    if Qty(w.planets[k].inv, Fighters) > 0 {
      StormGarrison(w, a, k, commit, now);
      Assault1(s, w.numsec, a, k, w.players[a], w.planets[k].inv, w.View());
      FleetCounts(s.players[a], w.players[a], now);
      Broke(s.players[a], w.players[a], commit, Qty(s.planets[k].inv, Fighters), Qty(w.planets[k].inv, Fighters));
      if Qty(w.planets[k].inv, Fighters) > 0 {
        Repulse(w, s, a, k, commit, now);
        return false;
      }
    } else {
      Unharmed(w.players[a], 0, now);
      NoGarrison(w.players[a], commit);
      Assault1(s, w.numsec, a, k, w.players[a], w.planets[k].inv, w.View());
    }
    return true;
  }

  /** The garrison is gone and the mines are still there. */
  ghost predicate InTheMinefield(s: State, t: State, a: PlayerId, k: nat, commit: nat, now: Time) {
    && a < |s.players| && |t.players| == |s.players| && k < |s.planets| && |t.planets| == |s.planets|
    && t == State(s.players[a := t.players[a]], s.planets[k := s.planets[k].(inv := t.planets[k].inv)], s.bgs)
    && Assaulted(s, t, a, k, t.planets[k].inv)
    && Fought(s.players[a], t.players[a], 0, now) && !t.players[a].IsDead()
    && t.players[a].sector == s.players[a].sector && t.players[a].Has(EmWarp) == s.players[a].Has(EmWarp)
    && Qty(t.planets[k].inv, Fighters) == 0
    && BrokeIn(s.players[a], t.players[a], commit, Qty(s.planets[k].inv, Fighters))
    && forall g :: g != Fighters ==> Qty(t.planets[k].inv, g) == Qty(s.planets[k].inv, g)
  }

  /** Then the planet's mines. */
  method CrossMinefield(w: World, ghost s: State, a: PlayerId, k: nat, ghost commit: nat, now: Time) returns (through: bool)
    requires w.Sound() && SoundState(s, w.numsec) && InTheMinefield(s, w.View(), a, k, commit, now)
    requires !s.players[a].IsNpc() && s.planets[k].owner != a
    modifies w`players, w`bgs, w`planets, w`clamped
    ensures w.Sound()
    ensures !through ==> Beaten(s, w.View(), a, k, commit, Mined, now)
    ensures through ==> Stormed(s, w.View(), a, k, commit, now)
  {
    hide SoundState, Assaulted, Fought, Aftermath, MineToll, Swept, BrokeIn, MetMines, Crossed;
    ghost var t, garrison := w.View(), Qty(s.planets[k].inv, Fighters);
    if Qty(w.planets[k].inv, Mines) == 0 {
      NoMines(w.players[a]);
      CameThrough(s.players[a], w.players[a], w.players[a], commit, garrison, 0);
      return true;
    }
    var blasted: int, fate;
    SameKind(s.players[a], w.players[a], 0, now);
    blasted, fate := SweepMines(w, a, Qty(w.planets[k].inv, Mines), now);
    ghost var u := w.View();
    AssaultOn(s, t, u, w.numsec, a, k, t.planets[k].inv);
    StillHeld(s, u, w.numsec, a, k, t.planets[k].inv);
    FoughtOn(s.players[a], t.players[a], u.players[a], 0, now);
    w.AdjustPlanet(k, Mines, -blasted);
    PlanetHeld(u, w.numsec, k);
    PlanetRefitted(u, w.numsec, k, w.planets[k]);
    Restocked(s, u, a, k, t.planets[k].inv, w.planets[k].inv);
    assert w.View() == u.(planets := u.planets[k := u.planets[k].(inv := w.planets[k].inv)]);
    through := fate.Deflection? || fate.Hit?;
    if through {
      TollKeeps(t.players[a], u.players[a], Qty(t.planets[k].inv, Mines));
      OnlyShip(t, u, a);
      CameThrough(s.players[a], t.players[a], u.players[a], commit, garrison, Qty(t.planets[k].inv, Mines));
    } else {
      ThenMines(s.players[a], t.players[a], u.players[a], commit, garrison, Qty(t.planets[k].inv, Mines));
    }
  }

  /** The cost of the assault in fighters, in units of damage to the planet's economy. */
  function Damage(before: Player, after: Player): nat {
    if after.Has(Fighters) > before.Has(Fighters) then 0 else (before.Has(Fighters) - after.Has(Fighters)) / 20
  }

  const WRECKING := 100

  /** The planet changes hands; a hard-fought assault wrecks its economy, and may destroy it. */
  ghost predicate Taken(s: State, stormed: State, t: State, a: PlayerId, k: nat, commit: nat, outcome: Outcome, now: Time) {
    && Stormed(s, stormed, a, k, commit, now)
    && t.players == stormed.players && t.bgs == stormed.bgs
    && var planet := stormed.planets[k].(owner := a);
       var damage := Damage(s.players[a], stormed.players[a]);
       if damage < WRECKING then outcome.Captured? && t.planets == stormed.planets[k := planet]
       else exists bombed :: Bombed(planet, bombed, damage)
                             && (outcome.Razed? <==> Barren(bombed)) && (outcome.Captured? <==> !Barren(bombed))
                             && t.planets == if Barren(bombed) then stormed.planets[..k] + stormed.planets[k + 1..]
                                             else stormed.planets[k := bombed]
  }

  method Take(w: World, ghost s: State, a: PlayerId, k: nat, ghost commit: nat, startFighters: nat, now: Time) returns (outcome: Outcome)
    requires w.Sound() && Stormed(s, w.View(), a, k, commit, now) && startFighters == s.players[a].Has(Fighters)
    modifies w`planets
    ensures w.Sound() && Taken(s, old(w.View()), w.View(), a, k, commit, outcome, now)
  {
    hide SoundState, Bombed, Fought;
    ghost var t := w.View();
    FightersLost(s, t, a, k, commit, now);
    PlanetHeld(t, w.numsec, k);
    w.planets := w.planets[k := w.planets[k].(owner := a)];
    PlanetRefitted(t, w.numsec, k, w.planets[k]);
    ghost var taken := w.View();
    outcome := Captured;
    var dam := (startFighters - w.players[a].Has(Fighters)) / 20;
    if dam >= WRECKING {
      var destroyed;
      ghost var bombed;
      destroyed, bombed := Bombard(w, k, dam);
      BombedKeeps(taken.planets[k], bombed, dam);
      PlanetRefitted(taken, w.numsec, k, bombed);
      if destroyed {
        PlanetGone(taken, w.numsec, k);
        outcome := Razed;
        assert taken.planets[..k] == t.planets[..k] && taken.planets[k + 1..] == t.planets[k + 1..];
      }
      assert taken.planets[k := bombed] == t.planets[k := bombed];
    }
  }

  lemma FightersLost(s: State, t: State, a: PlayerId, k: nat, commit: nat, now: Time)
    requires Stormed(s, t, a, k, commit, now)
    ensures t.players[a].Has(Fighters) <= s.players[a].Has(Fighters)
  {
  }

  lemma BombedKeeps(before: Planet, after: Planet, power: nat)
    requires Bombed(before, after, power)
    ensures after.owner == before.owner && after.sector == before.sector
  {
  }

  /** Every way a paid-for invasion may end. */
  ghost predicate Invaded(s: State, t: State, a: PlayerId, k: nat, commit: nat, outcome: Outcome, now: Time) {
    if outcome.Repelled? || outcome.Mined? then
      Beaten(s, t, a, k, commit, outcome, now) && (outcome.Repelled? ==> HeldOff(s.players[a], t.players[a], commit))
    else exists stormed :: Taken(s, stormed, t, a, k, commit, outcome, now)
  }

  method Assault(w: World, a: PlayerId, k: nat, commit: nat, now: Time) returns (outcome: Outcome)
    requires w.Valid() && Alive(w.players, a) && !w.players[a].IsNpc() && k < |w.planets|
    requires w.planets[k].owner != a && 1 <= commit <= w.players[a].Has(Fighters)
    modifies w`players, w`bgs, w`planets, w`clamped
    ensures w.Valid() && Invaded(old(w.View()), w.View(), a, k, commit, outcome, now)
  {
    hide SoundState, Assaulted, Fought, Stormed, Manned, Taken, Aftermath, HeldOff, MetMines, Crossed;
    ghost var s := w.View();
    var startFighters := w.players[a].Has(Fighters);
    var broken := BreakGarrison(w, a, k, commit, now);
    if !broken {
      StillHeld(s, w.View(), w.numsec, a, k, w.planets[k].inv);
      return Repelled;
    }
    var through := CrossMinefield(w, s, a, k, commit, now);
    if !through {
      StillHeld(s, w.View(), w.numsec, a, k, w.planets[k].inv);
      return Mined;
    }
    ghost var t := w.View();
    StormedManned(s, t, a, k, commit, now);
    outcome := Take(w, s, a, k, commit, startFighters, now);
    TakenManned(s, t, w.View(), a, k, commit, outcome, now);
  }

  lemma StormedManned(s: State, t: State, a: PlayerId, k: nat, commit: nat, now: Time)
    requires Stormed(s, t, a, k, commit, now)
    ensures t.bgs == s.bgs
  {
  }

  lemma TakenManned(s: State, stormed: State, t: State, a: PlayerId, k: nat, commit: nat, outcome: Outcome, now: Time)
    requires Taken(s, stormed, t, a, k, commit, outcome, now)
    ensures t.bgs == stormed.bgs && (outcome.Captured? || outcome.Razed?)
  {
  }

  /**
    * A whole invasion. Refused invasions change nothing. Otherwise a turn is spent, and it ends at the garrison,
    * in the minefield, with the planet captured empty of fighters and mines, or with the planet destroyed.
    */
  method InvadePlanet(w: World, a: PlayerId, commit: int, now: Time) returns (err: Error, outcome: Outcome)
    requires w.Valid() && a < |w.players| && !w.players[a].IsNpc()
    modifies w`players, w`bgs, w`planets, w`clamped
    ensures w.Valid()
    ensures err == InvadeRefusal(old(w.players[a]), old(w.planets), a, commit)
    ensures !err.NoError? ==> w.View() == old(w.View())
    ensures err.NoError? ==>
              Invaded(Charged(old(w.View()), a), w.View(), a, PlanetIn(old(w.planets), old(w.players[a]).sector), commit, outcome, now)
    ensures err.NoError? && (outcome.Captured? || outcome.Razed?) ==>
              var planet := old(w.planets)[PlanetIn(old(w.planets), old(w.players[a]).sector)];
              Crossed(TurnSpent(old(w.players[a])), w.players[a], commit, Qty(planet.inv, Fighters), Qty(planet.inv, Mines))
    ensures err.NoError? ==> KeptBut(old(w.players), w.players, {a})
    ensures err.NoError? ==> Total(w.View(), Fighters) <= old(Total(w.View(), Fighters))
    ensures err.NoError? ==> Total(w.View(), Mines) <= old(Total(w.View(), Mines))
  {
    hide SoundState, Invaded, Manned, Total, KeptBut, Worn, Crossed;
    outcome := Repelled;
    err := InvadeRefusal(w.players[a], w.planets, a, commit);
    if err.NoError? {
      var k := PlanetIn(w.planets, w.players[a].sector);
      ChargedSound(w.View(), w.numsec, a);
      err := SpendTurn(w, a);
      ghost var s := w.View();
      assert s == Charged(old(w.View()), a);
      outcome := Assault(w, a, k, commit, now);
      InvasionCreatesNothing(s, w.View(), w.numsec, a, k, commit, outcome, now);
      InvasionPrice(s, w.View(), a, k, commit, outcome, now);
      ChargedToo(old(w.View()), s, w.View(), a);
    }
  }

  /** Nobody takes or destroys a planet without wiping out its garrison and then meeting all of its mines. */
  lemma InvasionPrice(s: State, t: State, a: PlayerId, k: nat, commit: nat, outcome: Outcome, now: Time)
    requires Invaded(s, t, a, k, commit, outcome, now)
    ensures outcome.Captured? || outcome.Razed? ==>
              && a < |s.players| && a < |t.players| && k < |s.planets|
              && Crossed(s.players[a], t.players[a], commit, Qty(s.planets[k].inv, Fighters), Qty(s.planets[k].inv, Mines))
  {
    hide Crossed, Fought, Bombed;
  }

  lemma ChargedToo(s: State, t: State, u: State, a: PlayerId)
    requires a < |s.players| && t == Charged(s, a) && Worn(s, t, {a}, {})
    requires KeptBut(t.players, u.players, {a})
    requires Total(u, Fighters) <= Total(t, Fighters) && Total(u, Mines) <= Total(t, Mines)
    ensures KeptBut(s.players, u.players, {a})
    ensures Total(u, Fighters) <= Total(s, Fighters) && Total(u, Mines) <= Total(s, Mines)
  {
    hide Total;
  }

  /** An invasion harms no ship but the invader's, and leaves no more fighters or mines than there were. */
  lemma InvasionCreatesNothing(s: State, t: State, numsec: int, a: PlayerId, k: nat, commit: nat, outcome: Outcome, now: Time)
    requires SoundState(s, numsec) && Invaded(s, t, a, k, commit, outcome, now)
    ensures KeptBut(s.players, t.players, {a})
    ensures Total(t, Fighters) <= Total(s, Fighters) && Total(t, Mines) <= Total(s, Mines)
  {
    if outcome.Repelled? || outcome.Mined? {
      BeatenCreatesNothing(s, t, a, k, commit, outcome, now);
    } else {
      var stormed :| Taken(s, stormed, t, a, k, commit, outcome, now);
      OnlyTheInvader(s, stormed, a, k, commit, now);
      TakenCreatesNothing(s, stormed, t, a, k, commit, outcome, now, Fighters);
      TakenCreatesNothing(s, stormed, t, a, k, commit, outcome, now, Mines);
    }
  }

  lemma BeatenCreatesNothing(s: State, t: State, a: PlayerId, k: nat, commit: nat, outcome: Outcome, now: Time)
    requires Beaten(s, t, a, k, commit, outcome, now)
    ensures KeptBut(s.players, t.players, {a})
    ensures Total(t, Fighters) <= Total(s, Fighters) && Total(t, Mines) <= Total(s, Mines)
  {
    hide Fought, Total, Beaten, Aftermath, KeptBut;
    BeatenStores(s, t, a, k, commit, outcome, now);
    var planet := s.planets[k].(inv := t.planets[k].inv);
    var u := s.(planets := s.planets[k := planet]);
    FleetCounts(s.players[a], t.players[a], now);
    PlanetTotal(s, k, planet, Fighters);
    PlanetTotal(s, k, planet, Mines);
    FightsCreateNothing(u, t, {a}, Fighters);
    FightsCreateNothing(u, t, {a}, Mines);
  }

  lemma BeatenStores(s: State, t: State, a: PlayerId, k: nat, commit: nat, outcome: Outcome, now: Time)
    requires Beaten(s, t, a, k, commit, outcome, now)
    ensures a < |s.players| && a < |t.players| && k < |s.planets| && k < |t.planets|
    ensures Fought(s.players[a], t.players[a], 0, now) && KeptBut(s.players, t.players, {a})
    ensures Aftermath(s.(planets := s.planets[k := s.planets[k].(inv := t.planets[k].inv)]), t, {a})
    ensures Qty(t.planets[k].inv, Fighters) <= Qty(s.planets[k].inv, Fighters) && Qty(t.planets[k].inv, Mines) <= Qty(s.planets[k].inv, Mines)
  {
    hide Fought, MetMines;
  }

  lemma OnlyTheInvader(s: State, t: State, a: PlayerId, k: nat, commit: nat, now: Time)
    requires Stormed(s, t, a, k, commit, now)
    ensures KeptBut(s.players, t.players, {a})
    ensures forall g :: g == Fighters || g == Mines ==> t.players[a].Has(g) <= s.players[a].Has(g)
  {
  }

  lemma TakenCreatesNothing(s: State, stormed: State, t: State, a: PlayerId, k: nat, commit: nat, outcome: Outcome, now: Time, g: Good)
    requires Taken(s, stormed, t, a, k, commit, outcome, now) && (g.Fighters? || g.Mines?)
    ensures Total(t, g) <= Total(s, g)
  {
    hide Fought, Total;
    OnlyTheInvader(s, stormed, a, k, commit, now);
    var u := s.(players := s.players[a := stormed.players[a]]);
    ShipTotal(s, a, stormed.players[a], g);
    assert stormed == u.(planets := u.planets[k := stormed.planets[k]]);
    PlanetTotal(u, k, stormed.planets[k], g);
    var planet := stormed.planets[k].(owner := a);
    if Damage(s.players[a], stormed.players[a]) < WRECKING {
      PlanetTotal(stormed, k, planet, g);
      assert t == stormed.(planets := stormed.planets[k := planet]);
    } else {
      var bombed :| Bombed(planet, bombed, Damage(s.players[a], stormed.players[a]))
                    && t.planets == if Barren(bombed) then stormed.planets[..k] + stormed.planets[k + 1..]
                                    else stormed.planets[k := bombed];
      PlanetTotal(stormed, k, bombed, g);
      DestroyedTotal(stormed, k, g);
      assert t == stormed.(planets := t.planets);
    }
  }
}
