/** The nightly faction pass (factions.go). */
module Factions {
  import opened Goods
  import opened Entities
  import opened Worlds
  import opened Death
  import opened Battle
  import opened Invasion
  import opened Bombardment
  import opened PlanetCommands
  import opened Worth
  import opened Fortunes
  import opened Ledger
  import opened Raids
  import opened Sectors
  import opened Routing

  const CABAL_STRONGHOLD := "Cabal Stronghold"
  const RENEGADE_NEST := "Renegade Nest"

  /** A trader who is alive and not away. */
  predicate Active(p: Player, cfg: Config, now: Time) {
    !p.IsNpc() && !p.IsDead() && !Dormant(p, cfg, now)
  }

  /** Whom the factions must leave alone: the dead, the absent, those in Federation space, and the poor. */
  ghost predicate Protected(s: State, cfg: Config, i: PlayerId, now: Time)
    requires i < |s.players|
  {
    !s.players[i].IsNpc()
    && (s.players[i].IsDead() || Dormant(s.players[i], cfg, now) || s.players[i].InFedSpace() || Value(s, cfg, i) < cfg.targetFloor)
  }

  /** Partway through a pass that began at s: no trader is richer, and the protected are exactly as they were. */
  ghost predicate Spared(s: State, t: State, cfg: Config, now: Time) {
    && NotRicher(s, t, cfg)
    && forall i: nat :: i < |s.players| && Protected(s, cfg, i, now) ==> t.players[i] == s.players[i]
  }

  lemma AllSpared(s: State, cfg: Config, now: Time)
    ensures Spared(s, s, cfg, now)
  {
    SameFortunes(s, cfg);
  }

  /** A player worth striking now was not protected when the pass began. */
  lemma FairGame(s: State, t: State, cfg: Config, i: PlayerId, now: Time)
    requires Spared(s, t, cfg, now) && i < |s.players| && !s.players[i].IsNpc()
    requires Active(t.players[i], cfg, now) && !t.players[i].InFedSpace() && Value(t, cfg, i) >= cfg.targetFloor
    ensures !Protected(s, cfg, i, now)
  {
  }

  /** A step that changes at most the ship of someone unprotected, and makes no trader richer, spares the protected. */
  lemma SparedStill(s: State, t: State, u: State, cfg: Config, who: set<PlayerId>, now: Time)
    requires Spared(s, t, cfg, now) && NotRicher(t, u, cfg) && KeptBut(t.players, u.players, who)
    requires forall i: nat :: i in who && i < |s.players| ==> !Protected(s, cfg, i, now)
    ensures Spared(s, u, cfg, now)
  {
    NotRicherOn(s, t, u, cfg);
  }

  // ----- Waking and sleeping

  function ActiveCount(players: seq<Player>, cfg: Config, now: Time): nat {
    if players == [] then 0
    else ActiveCount(players[..|players| - 1], cfg, now) + if Active(players[|players| - 1], cfg, now) then 1 else 0
  }

  /** Nobody living has been seen for more than the quiet period. */
  ghost predicate Quiet(players: seq<Player>, cfg: Config, now: Time) {
    forall i :: 0 <= i < |players| && !players[i].IsNpc() && !players[i].IsDead() ==>
                  players[i].lastSeen == 0 || now - players[i].lastSeen > cfg.quietDays * DAY
  }

  /** What the richest active trader is worth, or nothing if there is none or all are in debt. */
  ghost predicate IsLeaderValue(s: State, cfg: Config, now: Time, v: int) {
    && v >= 0
    && (forall i: nat :: i < |s.players| && Active(s.players[i], cfg, now) ==> Value(s, cfg, i) <= v)
    && (v == 0 || exists i: nat :: i < |s.players| && Active(s.players[i], cfg, now) && Value(s, cfg, i) == v)
  }

  /** There is only one such value. */
  lemma OneLeaderValue(s: State, cfg: Config, now: Time, v: int, w: int)
    requires IsLeaderValue(s, cfg, now, v) && IsLeaderValue(s, cfg, now, w)
    ensures v == w
  {
    hide Value;
  }

  /** How busy the world is: active traders, the worth of the richest, and whether anybody is about at all. */
  method FactionMetrics(w: World, now: Time) returns (activeCount: nat, leaderValue: int, quiet: bool)
    ensures IsLeaderValue(w.View(), w.cfg, now, leaderValue)
    ensures activeCount == ActiveCount(w.players, w.cfg, now)
    ensures quiet <==> Quiet(w.players, w.cfg, now)
  {
    hide Value;
    activeCount, leaderValue := 0, 0;
    var mostRecent := 0;
    for i: nat := 0 to |w.players|
      invariant leaderValue >= 0
      invariant forall j: nat :: j < i && Active(w.players[j], w.cfg, now) ==> Value(w.View(), w.cfg, j) <= leaderValue
      invariant leaderValue == 0 || exists j: nat :: j < i && Active(w.players[j], w.cfg, now) && Value(w.View(), w.cfg, j) == leaderValue
      invariant activeCount == ActiveCount(w.players[..i], w.cfg, now)
      invariant forall j: nat :: j < i && !w.players[j].IsNpc() && !w.players[j].IsDead() ==> w.players[j].lastSeen <= mostRecent
      invariant mostRecent == 0 || exists j: nat :: j < i && !w.players[j].IsNpc() && !w.players[j].IsDead() && w.players[j].lastSeen == mostRecent
    {
      assert w.players[..i + 1][..i] == w.players[..i];
      if !w.players[i].IsNpc() && !w.players[i].IsDead() {
        if w.players[i].lastSeen > mostRecent {
          mostRecent := w.players[i].lastSeen;
        }
        if !Dormant(w.players[i], w.cfg, now) {
          activeCount := activeCount + 1;
          var v := PlayerValue(w, i);
          if v > leaderValue {
            leaderValue := v;
          }
        }
      }
    }
    assert w.players[..|w.players|] == w.players;
    quiet := mostRecent == 0 || now - mostRecent > w.cfg.quietDays * DAY;
  }

  /** The first of the richest active traders, if any of them is not in debt. */
  ghost predicate IsTop(s: State, cfg: Config, top: PlayerId, now: Time)
    requires top < |s.players|
  {
    && Active(s.players[top], cfg, now) && Value(s, cfg, top) >= 0
    && (forall i: nat :: i < |s.players| && Active(s.players[i], cfg, now) ==> Value(s, cfg, i) <= Value(s, cfg, top))
    && forall i: nat :: i < top && Active(s.players[i], cfg, now) ==> Value(s, cfg, i) < Value(s, cfg, top)
  }

  /** The richest active trader, the first of them if several are equally rich. */
  method TopActivePlayer(w: World, now: Time) returns (top: int)
    ensures -1 <= top < |w.players|
    ensures top == -1 ==> forall i: nat :: i < |w.players| ==> !Active(w.players[i], w.cfg, now) || Value(w.View(), w.cfg, i) < 0
    ensures top >= 0 ==> Active(w.players[top], w.cfg, now)
                         && forall i: nat :: i < |w.players| && Active(w.players[i], w.cfg, now) ==> Value(w.View(), w.cfg, i) <= Value(w.View(), w.cfg, top)
    ensures top >= 0 ==> IsTop(w.View(), w.cfg, top, now)
    ensures top == -1 ==> forall i: nat :: i < |w.players| ==> !IsTop(w.View(), w.cfg, i, now)
  {
    hide Value;
    top := -1;
    var best := -1;
    for i: nat := 0 to |w.players|
      invariant -1 <= top < i
      invariant top == -1 ==> best == -1
      invariant top >= 0 ==> Active(w.players[top], w.cfg, now) && best == Value(w.View(), w.cfg, top)
      invariant forall j: nat :: j < i && Active(w.players[j], w.cfg, now) ==> Value(w.View(), w.cfg, j) <= best
      invariant top >= 0 ==> best >= 0 && forall j: nat :: j < top && Active(w.players[j], w.cfg, now) ==> Value(w.View(), w.cfg, j) < best
    {
      if Active(w.players[i], w.cfg, now) {
        var v := PlayerValue(w, i);
        if v > best {
          best, top := v, i;
        }
      }
    }
  }

  /** A faction's next state: it wakes at the upper threshold and sleeps at the lower one. */
  predicate CabalNext(awake: bool, cfg: Config, activeCount: nat, leaderValue: int, quiet: bool) {
    !quiet && activeCount >= cfg.cabalMinPlayers
    && leaderValue >= if awake then cfg.cabalSleepValue else cfg.cabalWakeValue
  }

  predicate RenegadesNext(cfg: Config, activeCount: nat, quiet: bool) {
    !quiet && activeCount >= cfg.renMinPlayers
  }

  method UpdateFactionStates(w: World, activeCount: nat, leaderValue: int, quiet: bool) returns (cabal: bool, ren: bool)
    modifies w`cabalActive, w`renActive
    ensures cabal == w.cabalActive == CabalNext(old(w.cabalActive), w.cfg, activeCount, leaderValue, quiet)
    ensures ren == w.renActive == RenegadesNext(w.cfg, activeCount, quiet)
  {
    cabal, ren := w.cabalActive, w.renActive;
    if cabal {
      if activeCount < w.cfg.cabalMinPlayers || leaderValue < w.cfg.cabalSleepValue || quiet {
        cabal := false;
      }
    } else {
      if activeCount >= w.cfg.cabalMinPlayers && leaderValue >= w.cfg.cabalWakeValue && !quiet {
        cabal := true;
      }
    }
    if ren {
      if activeCount < w.cfg.renMinPlayers || quiet {
        ren := false;
      }
    } else {
      if activeCount >= w.cfg.renMinPlayers && !quiet {
        ren := true;
      }
    }
    w.cabalActive, w.renActive := cabal, ren;
  }

  // ----- Strongholds

  /** The faction's headquarters: its planet of that name. */
  predicate IsHeadquarters(s: State, k: int, faction: PlayerId, name: string) {
    0 <= k < |s.planets| && s.planets[k].owner == faction && s.planets[k].name == name
  }

  method FactionStronghold(w: World, faction: PlayerId, name: string) returns (k: int)
    ensures k == -1 || IsHeadquarters(w.View(), k, faction, name)
    ensures k == -1 ==> forall j :: !IsHeadquarters(w.View(), j, faction, name)
  {
    for i := 0 to |w.planets|
      invariant forall j :: 0 <= j < i ==> !IsHeadquarters(w.View(), j, faction, name)
    {
      if w.planets[i].owner == faction && w.planets[i].name == name {
        return i;
      }
    }
    return -1;
  }

  /** Some sector outside Federation space without a planet, or 0 exactly when there is none. */
  method FreeSectorForPlanet(w: World) returns (sector: nat)
    ensures sector != 0 ==> FED_SPACE < sector <= w.numsec && PlanetIn(w.planets, sector) == -1
    ensures sector == 0 ==> forall s :: FED_SPACE < s <= w.numsec ==> PlanetIn(w.planets, s) != -1
  {
    if w.numsec <= FED_SPACE {
      return 0;
    }
    for tries := 0 to 50 {
      var r := Roll(w.numsec - 10);
      if PlanetIn(w.planets, 11 + r) == -1 {
        return 11 + r;
      }
    }
    for s: nat := 11 to w.numsec + 1
      invariant forall t :: FED_SPACE < t < s ==> PlanetIn(w.planets, t) != -1
    {
      if PlanetIn(w.planets, s) == -1 {
        return s;
      }
    }
    return 0;
  }

  /** A new stronghold produces in earnest from the start. */
  function NewStronghold(owner: PlayerId, sector: nat, name: string): Planet {
    NewPlanet(owner, sector, name).(prod := map[Ore := 1000, Organics := 1000, Equipment := 1000, Fighters := 0, Mines := 0])
  }

  /** Stores are worth more by just the fighters built. */
  lemma WorthOfReinforcement(cfg: Config, inv: Inventory, want: nat)
    ensures PlanetWorth(cfg, Adjusted(inv, Fighters, want)) == PlanetWorth(cfg, inv) + Times(want, cfg.costFighter)
  {
    var more := Adjusted(inv, Fighters, want);
    assert Qty(more, Fighters) == Qty(inv, Fighters) + want;
    hide Adjusted, Times, PlanetWorth;
    PlanetWorthChange(cfg, inv, more, Fighters);
    TimesAdd(Qty(inv, Fighters), want, cfg.costFighter);
  }

  /** Fighters added to a headquarters the faction has already, to close the gap to the target value and no more. */
  lemma Reinforced(s: State, numsec: int, k: nat, want: nat, cfg: Config, targetValue: int)
    requires SoundState(s, numsec) && IsStronghold(s, k) && cfg.costFighter > 0
    requires Affordable(want, targetValue - Value(s, cfg, s.planets[k].owner), cfg.costFighter)
    ensures var t := s.(planets := s.planets[k := s.planets[k].(inv := Adjusted(s.planets[k].inv, Fighters, want))]);
            && SoundState(t, numsec) && NotRicher(s, t, cfg)
            && (Value(s, cfg, s.planets[k].owner) <= targetValue ==> Value(t, cfg, s.planets[k].owner) <= targetValue)
  {
    var inv := Adjusted(s.planets[k].inv, Fighters, want);
    PlanetHeld(s, numsec, k);
    PlanetRefitted(s, numsec, k, s.planets[k].(inv := inv));
    FactionPlanetNotRicher(s, k, inv, cfg);
    hide SoundState, NotRicher, Value, Times, PlanetWorth, Affordable, Adjusted;
    ValueWithPlanet(s, cfg, k, inv, s.planets[k].owner);
    WorthOfReinforcement(cfg, s.planets[k].inv, want);
    WithinTheGap(want, targetValue - Value(s, cfg, s.planets[k].owner), cfg.costFighter);
  }

  /** No more are built than the gap in value pays for. */
  predicate Affordable(want: nat, gap: int, price: nat)
    requires price > 0
  {
    want <= if gap > 0 then gap / price else 0
  }

  lemma WithinTheGap(want: nat, gap: int, price: nat)
    requires price > 0 && Affordable(want, gap, price)
    ensures Times(want, price) <= if gap > 0 then gap else 0
  {
    if gap > 0 {
      Quotient(gap, price);
      TimesNotUp(want, gap / price, price);
    }
  }

  /** How many fighters to build: what the gap in value pays for, up to the headquarters' ceiling. */
  function Wanted(value: int, targetValue: int, price: nat, existing: nat, ceiling: nat): (n: int)
    requires price > 0
    ensures value >= targetValue ==> n == 0
    ensures n >= 1 ==> existing + n <= ceiling && Affordable(n, targetValue - value, price)
  {
    if value >= targetValue then 0
    else
      var n := (targetValue - value) / price;
      if existing + n > ceiling then ceiling - existing else n
  }

  function Reinforcing(planet: Planet, n: nat): (r: Planet)
    ensures r == planet.(inv := r.inv) && Qty(r.inv, Fighters) == Qty(planet.inv, Fighters) + n
    ensures forall g :: g != Fighters ==> Qty(r.inv, g) == Qty(planet.inv, g)
  {
    planet.(inv := Adjusted(planet.inv, Fighters, n))
  }

  /** Outside Federation space without a planet. */
  predicate IsFree(planets: seq<Planet>, numsec: int, sector: nat) {
    FED_SPACE < sector <= numsec && PlanetIn(planets, sector) == -1
  }

  /** The headquarters, if it stands, has just the fighters wanted more; if not, it is founded where there is room for it. */
  ghost predicate Gated(s: State, t: State, numsec: int, cfg: Config, faction: PlayerId, targetValue: int, name: string, ceiling: nat, fortress: int)
    requires faction < |s.players| && cfg.costFighter > 0
  {
    var value := Value(s, cfg, faction);
    && t.players == s.players && t.bgs == s.bgs
    && if exists k :: IsHeadquarters(s, k, faction, name) then
         && IsHeadquarters(s, fortress, faction, name)
         && var n := Wanted(value, targetValue, cfg.costFighter, Qty(s.planets[fortress].inv, Fighters), ceiling);
            t.planets == if n >= 1 then s.planets[fortress := Reinforcing(s.planets[fortress], n)] else s.planets
       else
         var n := Wanted(value, targetValue, cfg.costFighter, 0, ceiling);
         if n < 1 || (forall sec :: !IsFree(s.planets, numsec, sec)) then fortress == -1 && t.planets == s.planets
         else
           && fortress == |s.planets|
           && exists sec :: IsFree(s.planets, numsec, sec) && t.planets == s.planets + [Reinforcing(NewStronghold(faction, sec, name), n)]
  }

  lemma StrongholdFounded(s: State, numsec: int, faction: PlayerId, sector: nat, name: string, fighters: nat, cfg: Config)
    requires SoundState(s, numsec) && faction < |s.players| && s.players[faction].IsNpc()
    requires FED_SPACE < sector <= numsec && PlanetIn(s.planets, sector) == -1
    ensures var planet := NewStronghold(faction, sector, name);
            var t := s.(planets := s.planets + [planet.(inv := Adjusted(planet.inv, Fighters, fighters))]);
            SoundState(t, numsec) && NotRicher(s, t, cfg)
  {
    var planet := NewStronghold(faction, sector, name);
    var manned := planet.(inv := Adjusted(planet.inv, Fighters, fighters));
    ShipOk(s, numsec, faction);
    PlanetAdded(s, numsec, manned);
    FactionPlanetAdded(s, manned, cfg);
  }

  /**
    * Brings a faction up toward its target value: fighters for its headquarters, which is founded if need be.
    * The headquarters never grows past its ceiling, and one already standing never lifts the faction past its target.
    */
  method GateFactionPlanet(w: World, faction: PlayerId, targetValue: int, name: string, maxFighters: nat) returns (fortress: int)
    requires w.Valid() && faction < |w.players| && w.players[faction].IsNpc() && w.cfg.costFighter > 0
    modifies w`planets, w`clamped
    ensures w.Valid() && NotRicher(old(w.View()), w.View(), w.cfg)
    ensures Gated(old(w.View()), w.View(), w.numsec, w.cfg, faction, targetValue, name, maxFighters, fortress)
    ensures fortress == -1 || (IsHeadquarters(w.View(), fortress, faction, name) && IsStronghold(w.View(), fortress))
    ensures w.planets != old(w.planets) ==> fortress >= 0 && Qty(w.planets[fortress].inv, Fighters) <= maxFighters
    ensures |w.planets| == |old(w.planets)| && Value(old(w.View()), w.cfg, faction) <= targetValue ==> Value(w.View(), w.cfg, faction) <= targetValue
  {
    hide Value, SoundState, NotRicher;
    ghost var s := w.View();
    SameFortunes(s, w.cfg);
    fortress := FactionStronghold(w, faction, name);
    var value := PlayerValue(w, faction);
    if value >= targetValue {
      return;
    }
    var want := (targetValue - value) / w.cfg.costFighter;
    var existing := if fortress != -1 then Qty(w.planets[fortress].inv, Fighters) else 0;
    if existing + want > maxFighters {
      want := maxFighters - existing;
    }
    assert want == Wanted(value, targetValue, w.cfg.costFighter, existing, maxFighters);
    if want < 1 {
      return;
    }
    if fortress == -1 {
      var sec := FreeSectorForPlanet(w);
      if sec == 0 {
        return -1;
      }
      assert IsFree(s.planets, w.numsec, sec);
      w.planets := w.planets + [NewStronghold(faction, sec, name)];
      fortress := |w.planets| - 1;
      w.AdjustPlanet(fortress, Fighters, want);
      StrongholdFounded(s, w.numsec, faction, sec, name, want, w.cfg);
      assert w.planets == s.planets + [Reinforcing(NewStronghold(faction, sec, name), want)];
    } else {
      Reinforced(s, w.numsec, fortress, want, w.cfg, targetValue);
      w.AdjustPlanet(fortress, Fighters, want);
    }
  }

  // ----- The pass

  lemma StruckKeeps(s: State, t: State, cfg: Config, src: nat, target: PlayerId, now: Time)
    requires Struck(s, t, cfg, src, target, now)
    ensures KeptBut(s.players, t.players, {target}) && NotRicher(s, t, cfg) && IsStronghold(t, src)
  {
  }

  /** Players a pass that began at s may strike, still as they were when they were picked. */
  ghost predicate Targets(s: State, t: State, cfg: Config, targets: seq<PlayerId>, now: Time) {
    && (forall j :: 0 <= j < |targets| ==>
          targets[j] < |s.players| && targets[j] < |t.players| && !s.players[targets[j]].IsNpc()
          && !Protected(s, cfg, targets[j], now) && Active(t.players[targets[j]], cfg, now))
    && forall i, j :: 0 <= i < j < |targets| ==> targets[i] != targets[j]
  }

  /** Worth striking: active, outside Federation space, and not below the floor. */
  ghost predicate Worthy(s: State, cfg: Config, i: PlayerId, now: Time)
    requires i < |s.players|
  {
    Active(s.players[i], cfg, now) && !s.players[i].InFedSpace() && Value(s, cfg, i) >= cfg.targetFloor
  }

  /** Everyone worth striking. */
  method PickTargets(w: World, ghost s: State, now: Time) returns (targets: seq<PlayerId>)
    requires InPass(s, w.View(), w.cfg, now)
    ensures Targets(s, w.View(), w.cfg, targets, now)
    ensures forall i: nat :: i in targets <==> i < |w.players| && Worthy(w.View(), w.cfg, i, now)
  {
    hide Value, Spared, Protected;
    targets := [];
    for i: nat := 0 to |w.players|
      invariant Targets(s, w.View(), w.cfg, targets, now)
      invariant forall j: nat :: j in targets <==> j < i && Worthy(w.View(), w.cfg, j, now)
    {
      if Active(w.players[i], w.cfg, now) && !w.players[i].InFedSpace() {
        var value := PlayerValue(w, i);
        if value >= w.cfg.targetFloor {
          SameSide(s, w.View(), w.cfg, i, now);
          FairGame(s, w.View(), w.cfg, i, now);
          assert Worthy(w.View(), w.cfg, i, now) && i !in targets;
          targets := targets + [i];
        }
      }
    }
  }

  lemma SameSide(s: State, t: State, cfg: Config, i: PlayerId, now: Time)
    requires InPass(s, t, cfg, now) && i < |t.players| && !t.players[i].IsNpc()
    ensures i < |s.players| && !s.players[i].IsNpc()
  {
  }

  /** One target is taken out of the pool and struck; the others are as they were. */
  lemma PoolShrinks(s: State, t: State, u: State, cfg: Config, targets: seq<PlayerId>, idx: nat, now: Time)
    requires Targets(s, t, cfg, targets, now) && idx < |targets| && KeptBut(t.players, u.players, {targets[idx]})
    ensures Targets(s, u, cfg, targets[idx := targets[|targets| - 1]][..|targets| - 1], now)
  {
    hide Protected;
  }

  ghost predicate NoneTwice(players: seq<PlayerId>) {
    forall i, j :: 0 <= i < j < |players| ==> players[i] != players[j]
  }

  /**
    * The players struck so far, and those left to strike: together they are everyone who was worthy, nobody is among
    * them twice, and nobody else's ship has changed.
    */
  ghost predicate Picked(s: State, t: State, cfg: Config, now: Time, victims: seq<PlayerId>, left: seq<PlayerId>) {
    && NoneTwice(victims + left)
    && (forall i: nat :: i in victims + left <==> i < |s.players| && Worthy(s, cfg, i, now))
    && KeptBut(s.players, t.players, set v | v in victims)
  }

  lemma NobodyPicked(s: State, cfg: Config, now: Time, targets: seq<PlayerId>)
    requires NoneTwice(targets) && forall i: nat :: i in targets <==> i < |s.players| && Worthy(s, cfg, i, now)
    ensures Picked(s, s, cfg, now, [], targets)
  {
    assert [] + targets == targets;
  }

  /** One more taken out of the pool, the last one moved into its place. */
  lemma OnePicked(s: State, t: State, u: State, cfg: Config, now: Time, victims: seq<PlayerId>, left: seq<PlayerId>, idx: nat)
    requires Picked(s, t, cfg, now, victims, left) && idx < |left| && KeptBut(t.players, u.players, {left[idx]})
    ensures Picked(s, u, cfg, now, victims + [left[idx]], left[idx := left[|left| - 1]][..|left| - 1])
  {
    hide Worthy;
    var rest := left[idx := left[|left| - 1]][..|left| - 1];
    var before, after := victims + left, victims + [left[idx]] + rest;
    forall i | 0 <= i < |after| ensures after[i] == before[Slot(|victims|, idx, |left|, i)] {
    }
    assert NoneTwice(after);
    forall i: nat ensures i in after <==> i in before {
      if i in before {
        var k :| 0 <= k < |before| && before[k] == i;
        assert after[if k < |victims| then k else if k == |victims| + idx then |victims|
                     else if k == |before| - 1 then |victims| + 1 + idx else k + 1] == i;
      }
    }
    assert left[idx] in before;
    MoreStruck(s.players, t.players, u.players, (set v | v in victims), left[idx]);
    assert (set v | v in victims) + {left[idx]} == set v | v in victims + [left[idx]];
  }

  /** Where the entry at i of the new arrangement was before. */
  function Slot(victims: nat, idx: nat, left: nat, i: nat): (k: nat)
    requires idx < left && i < victims + left
    ensures k < victims + left
  {
    if i < victims then i
    else if i == victims then victims + idx
    else if i - victims - 1 == idx then victims + left - 1
    else i - 1
  }

  lemma MoreStruck(a: seq<Player>, b: seq<Player>, c: seq<Player>, who: set<PlayerId>, p: PlayerId)
    requires KeptBut(a, b, who) && KeptBut(b, c, {p})
    requires p < |a|
    ensures KeptBut(a, c, who + {p})
  {
  }

  /** Strikes at these players, one after another, each with the force its target has then, or with a hundred. */
  ghost predicate Rampage(s: State, t: State, cfg: Config, g: Chart, faction: PlayerId, fortress: nat, victims: seq<PlayerId>, now: Time)
    decreases |victims|
  {
    if victims == [] then t == s
    else
      var last := |victims| - 1;
      exists mid: State ::
        && Rampage(s, mid, cfg, g, faction, fortress, victims[..last], now)
        && StrikeAt(mid, t, cfg, g, faction, fortress, victims[last], now)
  }

  ghost predicate StrikeAt(s: State, t: State, cfg: Config, g: Chart, faction: PlayerId, fortress: nat, victim: PlayerId, now: Time) {
    && fortress < |s.planets| && victim < |s.players| && Qty(s.planets[fortress].inv, Fighters) >= 1
    && StrikeRun(s, t, cfg, g, faction, fortress, victim, Force(s.players[victim]), now)
  }

  function Force(target: Player): nat {
    if target.Has(Fighters) < 100 then 100 else target.Has(Fighters)
  }

  lemma OneMoreStrike(s: State, mid: State, t: State, cfg: Config, g: Chart, faction: PlayerId, fortress: nat, victims: seq<PlayerId>, victim: PlayerId, now: Time)
    requires Rampage(s, mid, cfg, g, faction, fortress, victims, now) && StrikeAt(mid, t, cfg, g, faction, fortress, victim, now)
    ensures Rampage(s, t, cfg, g, faction, fortress, victims + [victim], now)
  {
    hide StrikeAt;
    assert (victims + [victim])[..|victims|] == victims;
  }

  /** Random strikes at up to `count` worthy players: fewer only when nobody worthy or no fighter is left. */
  ghost predicate Mayhem(s: State, t: State, cfg: Config, g: Chart, faction: PlayerId, fortress: nat, victims: seq<PlayerId>, now: Time, count: nat) {
    && Rampage(s, t, cfg, g, faction, fortress, victims, now)
    && |victims| <= count && NoneTwice(victims)
    && (forall v :: v in victims ==> v < |s.players| && Worthy(s, cfg, v, now))
    && (|victims| < count && fortress < |t.planets| && Qty(t.planets[fortress].inv, Fighters) >= 1 ==>
          forall i: nat :: i < |s.players| && Worthy(s, cfg, i, now) ==> i in victims)
  }

  /**
    * Up to `count` strikes at worthy players, nobody twice and nobody else, each with about the force its target has.
    * Fewer are made only when nobody worthy is left or the headquarters has no fighter left.
    */
  method FactionMayhem(w: World, ghost s: State, faction: PlayerId, fortress: nat, now: Time, count: nat)
    returns (struck: nat, ghost victims: seq<PlayerId>)
    requires w.Valid() && Charted(w.sectors) && |w.sectors| < MAX_INT && faction < |w.players|
    requires IsStronghold(w.View(), fortress) && InPass(s, w.View(), w.cfg, now)
    modifies w`players, w`bgs, w`planets, w`clamped
    ensures w.Valid() && InPass(s, w.View(), w.cfg, now) && |old(w.players)| <= |w.players|
    ensures struck == |victims| <= count && NoneTwice(victims)
    ensures forall v :: v in victims ==> v < |old(w.players)| && Worthy(old(w.View()), w.cfg, v, now)
    ensures KeptBut(old(w.players), w.players, set v | v in victims)
    ensures IsStronghold(w.View(), fortress)
    ensures struck < count && Qty(w.planets[fortress].inv, Fighters) >= 1 ==>
              forall i: nat :: i < |old(w.players)| && Worthy(old(w.View()), w.cfg, i, now) ==> i in victims
    ensures Mayhem(old(w.View()), w.View(), w.cfg, ChartOf(w.sectors), faction, fortress, victims, now, count)
  {
    hide Value, Spared, Protected, NotRicher, Struck, SoundState, Manned, Charted, Active, Worthy, Picked, Targets, KeptBut;
    hide Rampage, StrikeRun, StrikeAt, ChartOf, InPass;
    ghost var first, g := w.View(), ChartOf(w.sectors);
    var targets := PickTargets(w, s, now);
    struck, victims := 0, [];
    Distinct(s, first, w.cfg, targets, now);
    NobodyPicked(first, w.cfg, now, targets);
    NoStrikes(first, w.cfg, g, faction, fortress, now);
    for i := 0 to count
      invariant w.Valid() && InPass(s, w.View(), w.cfg, now) && struck == i == |victims|
      invariant |first.players| <= |w.players|
      invariant IsStronghold(w.View(), fortress) && Targets(s, w.View(), w.cfg, targets, now)
      invariant Picked(first, w.View(), w.cfg, now, victims, targets)
      invariant Rampage(first, w.View(), w.cfg, g, faction, fortress, victims, now)
    {
      if targets == [] || Qty(w.planets[fortress].inv, Fighters) < 1 {
        break;
      }
      var idx := Roll(|targets|);
      var t := targets[idx];
      ghost var pool, before := targets, w.View();
      targets := targets[idx := targets[|targets| - 1]][..|targets| - 1];
      Available(s, before, w.cfg, pool, idx, now);
      var force := w.players[t].Has(Fighters);
      if force < 100 {
        force := 100;
      }
      var killed, sent, arrived, home;
      ghost var path;
      killed, sent, arrived, home, path := FactionStrike(w, faction, fortress, t, force, now);
      StruckKeeps(before, w.View(), w.cfg, fortress, t, now);
      PassOn(s, before, w.View(), w.cfg, {t}, now);
      PoolShrinks(s, before, w.View(), w.cfg, pool, idx, now);
      OnePicked(first, before, w.View(), w.cfg, now, victims, pool, idx);
      StrikeAtSo(before, w.View(), w.cfg, g, faction, fortress, t, now);
      OneMoreStrike(first, before, w.View(), w.cfg, g, faction, fortress, victims, t, now);
      struck, victims := struck + 1, victims + [t];
    }
    AllPicked(first, w.View(), w.cfg, now, victims, targets);
  }

  lemma NoStrikes(s: State, cfg: Config, g: Chart, faction: PlayerId, fortress: nat, now: Time)
    ensures Rampage(s, s, cfg, g, faction, fortress, [], now)
  {
  }

  lemma StrikeAtSo(s: State, t: State, cfg: Config, g: Chart, faction: PlayerId, fortress: nat, victim: PlayerId, now: Time)
    requires fortress < |s.planets| && victim < |s.players| && Qty(s.planets[fortress].inv, Fighters) >= 1
    requires StrikeRun(s, t, cfg, g, faction, fortress, victim, Force(s.players[victim]), now)
    ensures StrikeAt(s, t, cfg, g, faction, fortress, victim, now)
  {
    hide StrikeRun;
  }

  lemma Distinct(s: State, t: State, cfg: Config, targets: seq<PlayerId>, now: Time)
    requires Targets(s, t, cfg, targets, now)
    ensures NoneTwice(targets)
  {
  }

  lemma AllPicked(s: State, t: State, cfg: Config, now: Time, victims: seq<PlayerId>, left: seq<PlayerId>)
    requires Picked(s, t, cfg, now, victims, left)
    ensures NoneTwice(victims) && KeptBut(s.players, t.players, set v | v in victims)
    ensures forall v :: v in victims ==> v < |s.players| && Worthy(s, cfg, v, now)
    ensures left == [] ==> forall i: nat :: i < |s.players| && Worthy(s, cfg, i, now) ==> i in victims
  {
    hide Worthy, KeptBut;
    forall i, j | 0 <= i < j < |victims| ensures victims[i] != victims[j] {
      assert (victims + left)[i] != (victims + left)[j];
    }
    forall v | v in victims ensures v < |s.players| && Worthy(s, cfg, v, now) {
      assert v in victims + left;
    }
    if left == [] {
      assert victims + left == victims;
    }
  }

  lemma Available(s: State, t: State, cfg: Config, targets: seq<PlayerId>, idx: nat, now: Time)
    requires Targets(s, t, cfg, targets, now) && idx < |targets| && InPass(s, t, cfg, now)
    ensures Alive(t.players, targets[idx]) && !t.players[targets[idx]].IsNpc()
    ensures targets[idx] < |s.players| && !Protected(s, cfg, targets[idx], now)
  {
  }

  /** The state of the world partway through a pass that began at s. */
  ghost predicate InPass(s: State, t: State, cfg: Config, now: Time) {
    && Spared(s, t, cfg, now) && |s.players| <= |t.players|
    && (forall k :: |s.players| <= k < |t.players| ==> t.players[k].IsNpc())
    && (forall k: nat :: k < |s.players| ==> t.players[k].kind == s.players[k].kind)
  }

  lemma PassBegins(s: State, cfg: Config, now: Time)
    ensures InPass(s, s, cfg, now)
  {
    AllSpared(s, cfg, now);
  }

  lemma PassOn(s: State, t: State, u: State, cfg: Config, who: set<PlayerId>, now: Time)
    requires InPass(s, t, cfg, now) && NotRicher(t, u, cfg) && KeptBut(t.players, u.players, who)
    requires forall i: nat :: i in who && i < |s.players| ==> !Protected(s, cfg, i, now)
    ensures InPass(s, u, cfg, now)
  {
    hide Protected, NotRicher;
    SparedStill(s, t, u, cfg, who, now);
    hide Spared;
  }

  // ----- The night's work

  /** The Cabal's headquarters, if it stands, has lost a quarter of its fighters, rounded down; nothing else has changed. */
  ghost predicate WornDown(before: seq<Planet>, after: seq<Planet>, cabal: PlayerId) {
    var s := State([], before, []);
    if exists k :: IsHeadquarters(s, k, cabal, CABAL_STRONGHOLD) then
      exists k :: && IsHeadquarters(s, k, cabal, CABAL_STRONGHOLD)
                  && after == before[k := before[k].(inv := Adjusted(before[k].inv, Fighters, 0 - Qty(before[k].inv, Fighters) / 4))]
    else after == before
  }

  /** The Federation wears down the Cabal's headquarters. */
  method FedCounterCabal(w: World) returns (ghost cabal: PlayerId)
    requires w.Valid()
    modifies w`players, w`planets, w`clamped
    ensures w.Valid() && KeptBut(old(w.players), w.players, {}) && NotRicher(old(w.View()), w.View(), w.cfg)
    ensures cabal < |w.players| && w.players[cabal].kind.Cabal?
    ensures WornDown(old(w.planets), w.planets, cabal)
    ensures Eroded(old(w.View()), w.View())
  {
    hide SoundState, NotRicher, WornDown, Eroded, Adjusted;
    ghost var s := w.View();
    Standing(s, w.numsec);
    var npc := EnsureNpc(w, Cabal);
    cabal := npc;
    ghost var t := w.View();
    Recruited(s, w.players, w.numsec, w.cfg);
    var fortress := FactionStronghold(w, npc, CABAL_STRONGHOLD);
    assert forall k :: IsHeadquarters(State([], w.planets, []), k, npc, CABAL_STRONGHOLD) <==> IsHeadquarters(t, k, npc, CABAL_STRONGHOLD);
    if fortress == -1 {
      StillWhole(t.planets, npc);
      ErodedSo(s, t, t, npc);
      return;
    }
    WornDownSo(t.planets, fortress, npc);
    var cf := Qty(w.planets[fortress].inv, Fighters);
    if cf > 0 {
      var shaved: int := cf / 4;
      FactionPlanetNotRicher(t, fortress, Adjusted(w.planets[fortress].inv, Fighters, -shaved), w.cfg);
      PlanetHeld(t, w.numsec, fortress);
      w.AdjustPlanet(fortress, Fighters, -shaved);
      PlanetRefitted(t, w.numsec, fortress, w.planets[fortress]);
      NotRicherOn(s, t, w.View(), w.cfg);
    }
    ErodedSo(s, t, w.View(), npc);
  }

  lemma StillWhole(planets: seq<Planet>, cabal: PlayerId)
    requires forall k :: !IsHeadquarters(State([], planets, []), k, cabal, CABAL_STRONGHOLD)
    ensures WornDown(planets, planets, cabal)
  {
  }

  lemma WornDownSo(planets: seq<Planet>, k: nat, cabal: PlayerId)
    requires IsHeadquarters(State([], planets, []), k, cabal, CABAL_STRONGHOLD)
    ensures var stock := Qty(planets[k].inv, Fighters);
            && WornDown(planets, planets[k := planets[k].(inv := Adjusted(planets[k].inv, Fighters, 0 - stock / 4))], cabal)
            && (stock == 0 ==> WornDown(planets, planets, cabal))
  {
    if Qty(planets[k].inv, Fighters) == 0 {
      assert Adjusted(planets[k].inv, Fighters, 0 - Qty(planets[k].inv, Fighters) / 4) == planets[k].inv;
      assert planets[k := planets[k]] == planets;
    }
  }

  lemma ErodedSo(s: State, mid: State, t: State, cabal: PlayerId)
    requires Enlisted(s, mid, Cabal, cabal) && t == mid.(planets := t.planets) && WornDown(mid.planets, t.planets, cabal)
    ensures Eroded(s, t)
  {
    hide Enlisted, WornDown;
  }

  /** A faction's record is there, and nothing else has changed. */
  ghost predicate Enlisted(s: State, t: State, kind: Kind, faction: PlayerId) {
    && t == s.(players := t.players) && faction < |t.players| && t.players[faction].kind == kind
    && t.players == if exists p :: p in s.players && p.kind == kind then s.players else s.players + [FactionRecord(kind)]
  }

  /** The Federation's night: the Cabal's headquarters worn down. */
  ghost predicate Eroded(s: State, t: State) {
    exists mid: State, cabal: PlayerId ::
      Enlisted(s, mid, Cabal, cabal) && t == mid.(planets := t.planets) && WornDown(mid.planets, t.planets, cabal)
  }

  lemma Standing(s: State, numsec: int)
    requires SoundState(s, numsec)
    ensures FactionsLive(s.players)
  {
  }

  /** A faction joining the list disturbs nothing. */
  lemma Recruited(s: State, players: seq<Player>, numsec: int, cfg: Config)
    requires SoundState(s, numsec) && KeptBut(s.players, players, {})
    ensures SoundState(s.(players := players), numsec) && NotRicher(s, s.(players := players), cfg)
  {
    FactionJoined(s, players, cfg);
  }

  /** Fetch the faction, bring its headquarters up to strength, and keep within the pass. */
  method Muster(w: World, ghost s: State, kind: Kind, targetValue: int, name: string, now: Time) returns (faction: PlayerId, fortress: int)
    requires w.Valid() && !kind.Trader? && w.cfg.costFighter > 0 && InPass(s, w.View(), w.cfg, now)
    modifies w`players, w`planets, w`clamped
    ensures w.Valid() && InPass(s, w.View(), w.cfg, now) && KeptBut(old(w.players), w.players, {})
    ensures faction < |w.players| && w.players[faction].kind == kind
    ensures fortress == -1 || IsStronghold(w.View(), fortress)
    ensures NotRicher(old(w.View()), w.View(), w.cfg)
    ensures Mustered(old(w.View()), w.View(), w.numsec, w.cfg, kind, targetValue, name, faction, fortress)
  {
    hide SoundState, NotRicher, InPass, Value, Gated, Mustered;
    ghost var a := w.View();
    Standing(a, w.numsec);
    faction := EnsureNpc(w, kind);
    ghost var b := w.View();
    Recruited(a, w.players, w.numsec, w.cfg);
    PassOn(s, a, b, w.cfg, {}, now);
    fortress := GateFactionPlanet(w, faction, targetValue, name, w.cfg.strongholdCap);
    NobodyMoved(b.players);
    PassOn(s, b, w.View(), w.cfg, {}, now);
    NotRicherOn(a, b, w.View(), w.cfg);
    MusteredSo(a, b, w.View(), w.numsec, w.cfg, kind, targetValue, name, faction, fortress);
  }

  /** The faction is there, and its headquarters brought up to strength. */
  ghost predicate Mustered(s: State, t: State, numsec: int, cfg: Config, kind: Kind, targetValue: int, name: string, faction: PlayerId, fortress: int)
    requires cfg.costFighter > 0
  {
    exists mid: State ::
      Enlisted(s, mid, kind, faction) && Gated(mid, t, numsec, cfg, faction, targetValue, name, cfg.strongholdCap, fortress)
  }

  lemma MusteredSo(s: State, mid: State, t: State, numsec: int, cfg: Config, kind: Kind, targetValue: int, name: string, faction: PlayerId, fortress: int)
    requires cfg.costFighter > 0 && Enlisted(s, mid, kind, faction)
    requires Gated(mid, t, numsec, cfg, faction, targetValue, name, cfg.strongholdCap, fortress)
    ensures Mustered(s, t, numsec, cfg, kind, targetValue, name, faction, fortress)
  {
    hide Enlisted, Gated;
  }

  lemma NobodyMoved(players: seq<Player>)
    ensures KeptBut(players, players, {})
  {
  }

  /** The richest active trader, if worth the trouble. */
  ghost predicate Prey(s: State, cfg: Config, i: nat, now: Time) {
    i < |s.players| && IsTop(s, cfg, i, now) && Value(s, cfg, i) >= cfg.targetFloor
  }

  /** If there is such a trader, half the headquarters' fighters go after that trader. */
  ghost predicate Hunted(s: State, t: State, cfg: Config, g: Chart, cabal: PlayerId, fortress: nat, now: Time) {
    && fortress < |s.planets|
    && if exists i :: Prey(s, cfg, i, now) then
         exists i :: Prey(s, cfg, i, now) && StrikeRun(s, t, cfg, g, cabal, fortress, i, Qty(s.planets[fortress].inv, Fighters) / 2, now)
       else t == s
  }

  lemma NoPrey(s: State, cfg: Config, g: Chart, cabal: PlayerId, fortress: nat, now: Time)
    requires fortress < |s.planets| && forall i :: !Prey(s, cfg, i, now)
    ensures Hunted(s, s, cfg, g, cabal, fortress, now)
  {
  }

  lemma OnePrey(s: State, cfg: Config, i: PlayerId, now: Time)
    requires i < |s.players| && IsTop(s, cfg, i, now) && Value(s, cfg, i) < cfg.targetFloor
    ensures forall j :: !Prey(s, cfg, j, now)
  {
    hide Value;
  }

  lemma HuntedSo(s: State, t: State, cfg: Config, g: Chart, cabal: PlayerId, fortress: nat, i: nat, now: Time)
    requires fortress < |s.planets| && Prey(s, cfg, i, now)
    requires StrikeRun(s, t, cfg, g, cabal, fortress, i, Qty(s.planets[fortress].inv, Fighters) / 2, now)
    ensures Hunted(s, t, cfg, g, cabal, fortress, now)
  {
    hide StrikeRun, IsTop, Value;
  }

  /** The Cabal hunts the richest trader with half its headquarters' fighters, if the trader is worth it. */
  method HuntLeader(w: World, ghost s: State, cabal: PlayerId, fortress: nat, now: Time)
    requires w.Valid() && Charted(w.sectors) && |w.sectors| < MAX_INT && cabal < |w.players|
    requires IsStronghold(w.View(), fortress) && InPass(s, w.View(), w.cfg, now)
    modifies w`players, w`bgs, w`planets, w`clamped
    ensures w.Valid() && InPass(s, w.View(), w.cfg, now) && IsStronghold(w.View(), fortress) && |old(w.players)| <= |w.players|
    ensures Hunted(old(w.View()), w.View(), w.cfg, ChartOf(w.sectors), cabal, fortress, now)
  {
    hide SoundState, NotRicher, Value, Struck, Spared, Protected, Charted, Hunted, StrikeRun, IsTop, ChartOf;
    ghost var g := ChartOf(w.sectors);
    var leader := TopActivePlayer(w, now);
    if leader == -1 {
      NoPrey(w.View(), w.cfg, g, cabal, fortress, now);
      return;
    }
    var value := PlayerValue(w, leader);
    if value < w.cfg.targetFloor {
      OnePrey(w.View(), w.cfg, leader, now);
      NoPrey(w.View(), w.cfg, g, cabal, fortress, now);
      return;
    }
    ghost var t := w.View();
    SameSide(s, t, w.cfg, leader, now);
    var fed := w.players[leader].InFedSpace();
    var killed, sent, arrived, home;
    ghost var path;
    killed, sent, arrived, home, path := FactionStrike(w, cabal, fortress, leader, Qty(w.planets[fortress].inv, Fighters) / 2, now);
    HuntedSo(t, w.View(), w.cfg, g, cabal, fortress, leader, now);
    StruckKeeps(t, w.View(), w.cfg, fortress, leader, now);
    if fed {
      NobodyMoved(t.players);
      PassOn(s, t, w.View(), w.cfg, {}, now);
    } else {
      FairGame(s, t, w.cfg, leader, now);
      PassOn(s, t, w.View(), w.cfg, {leader}, now);
    }
  }

  /** The Cabal's night: it musters against the richest trader, hunts that trader, and strikes twice more at random. */
  ghost predicate CabalNight(s: State, t: State, numsec: int, cfg: Config, g: Chart, leaderValue: int, now: Time)
    requires cfg.costFighter > 0
  {
    exists a: State, cabal: PlayerId, fortress: int ::
      && Mustered(s, a, numsec, cfg, Cabal, leaderValue * cfg.cabalScalePct / 100, CABAL_STRONGHOLD, cabal, fortress)
      && if fortress < 0 then t == a else HuntAndMayhem(a, t, cfg, g, cabal, fortress, now)
  }

  ghost predicate HuntAndMayhem(s: State, t: State, cfg: Config, g: Chart, cabal: PlayerId, fortress: nat, now: Time) {
    exists mid: State, victims :: Hunted(s, mid, cfg, g, cabal, fortress, now) && Mayhem(mid, t, cfg, g, cabal, fortress, victims, now, 2)
  }

  lemma CabalNightSo(s: State, a: State, b: State, t: State, numsec: int, cfg: Config, g: Chart, leaderValue: int,
                     cabal: PlayerId, fortress: int, victims: seq<PlayerId>, now: Time)
    requires cfg.costFighter > 0
    requires Mustered(s, a, numsec, cfg, Cabal, leaderValue * cfg.cabalScalePct / 100, CABAL_STRONGHOLD, cabal, fortress)
    requires if fortress < 0 then t == a
             else Hunted(a, b, cfg, g, cabal, fortress, now) && Mayhem(b, t, cfg, g, cabal, fortress, victims, now, 2)
    ensures CabalNight(s, t, numsec, cfg, g, leaderValue, now)
  {
    hide Mustered, Hunted, Mayhem;
    assert fortress >= 0 ==> HuntAndMayhem(a, t, cfg, g, cabal, fortress, now);
  }

  /** The Renegades' night: they muster and strike twice at random. */
  ghost predicate RenegadeNight(s: State, t: State, numsec: int, cfg: Config, g: Chart, now: Time)
    requires cfg.costFighter > 0
  {
    exists a: State, ren: PlayerId, fortress: int ::
      && Mustered(s, a, numsec, cfg, Renegades, cfg.renTargetValue, RENEGADE_NEST, ren, fortress)
      && if fortress < 0 then t == a else exists victims :: Mayhem(a, t, cfg, g, ren, fortress, victims, now, 2)
  }

  lemma RenegadeNightSo(s: State, a: State, t: State, numsec: int, cfg: Config, g: Chart, ren: PlayerId, fortress: int, victims: seq<PlayerId>, now: Time)
    requires cfg.costFighter > 0
    requires Mustered(s, a, numsec, cfg, Renegades, cfg.renTargetValue, RENEGADE_NEST, ren, fortress)
    requires if fortress < 0 then t == a else Mayhem(a, t, cfg, g, ren, fortress, victims, now, 2)
    ensures RenegadeNight(s, t, numsec, cfg, g, now)
  {
    hide Mustered, Mayhem;
  }

  /** The Cabal musters against the richest trader, hunts that trader, and strikes twice more at random. */
  method CabalTurn(w: World, ghost s: State, leaderValue: int, now: Time)
    requires w.Valid() && Charted(w.sectors) && |w.sectors| < MAX_INT && w.cfg.costFighter > 0 && InPass(s, w.View(), w.cfg, now)
    modifies w`players, w`bgs, w`planets, w`clamped
    ensures w.Valid() && InPass(s, w.View(), w.cfg, now)
    ensures CabalNight(old(w.View()), w.View(), w.numsec, w.cfg, ChartOf(w.sectors), leaderValue, now)
  {
    hide SoundState, Manned, NotRicher, Charted, InPass, Mustered, Hunted, Mayhem, CabalNight, ChartOf;
    ghost var before, g := w.View(), ChartOf(w.sectors);
    ghost var victims := [];
    var cabal, fortress := Muster(w, s, Cabal, leaderValue * w.cfg.cabalScalePct / 100, CABAL_STRONGHOLD, now);
    ghost var mustered, hunted := w.View(), w.View();
    if fortress != -1 {
      HuntLeader(w, s, cabal, fortress, now);
      hunted := w.View();
      var strikes;
      strikes, victims := FactionMayhem(w, s, cabal, fortress, now, 2);
    }
    CabalNightSo(before, mustered, hunted, w.View(), w.numsec, w.cfg, g, leaderValue, cabal, fortress, victims, now);
  }

  method RenegadeTurn(w: World, ghost s: State, now: Time)
    requires w.Valid() && Charted(w.sectors) && |w.sectors| < MAX_INT && w.cfg.costFighter > 0 && InPass(s, w.View(), w.cfg, now)
    modifies w`players, w`bgs, w`planets, w`clamped
    ensures w.Valid() && InPass(s, w.View(), w.cfg, now)
    ensures RenegadeNight(old(w.View()), w.View(), w.numsec, w.cfg, ChartOf(w.sectors), now)
  {
    hide SoundState, Manned, NotRicher, Charted, InPass, Mustered, Mayhem, RenegadeNight, ChartOf;
    ghost var before, g := w.View(), ChartOf(w.sectors);
    ghost var victims := [];
    var ren, fortress := Muster(w, s, Renegades, w.cfg.renTargetValue, RENEGADE_NEST, now);
    ghost var mustered := w.View();
    if fortress != -1 {
      var strikes;
      strikes, victims := FactionMayhem(w, s, ren, fortress, now, 2);
    }
    RenegadeNightSo(before, mustered, w.View(), w.numsec, w.cfg, g, ren, fortress, victims, now);
  }

  /** The factions' states follow how busy the world was, by their thresholds. */
  ghost predicate Roused(s: State, cfg: Config, now: Time, wasAwake: bool, cabal: bool, renegades: bool) {
    var activeCount, quiet := ActiveCount(s.players, cfg, now), Quiet(s.players, cfg, now);
    && (forall v :: IsLeaderValue(s, cfg, now, v) ==> cabal == CabalNext(wasAwake, cfg, activeCount, v, quiet))
    && (exists v :: IsLeaderValue(s, cfg, now, v))
    && renegades == RenegadesNext(cfg, activeCount, quiet)
  }

  lemma RousedBy(s: State, cfg: Config, now: Time, wasAwake: bool, v: int)
    requires IsLeaderValue(s, cfg, now, v)
    ensures Roused(s, cfg, now, wasAwake,
                   CabalNext(wasAwake, cfg, ActiveCount(s.players, cfg, now), v, Quiet(s.players, cfg, now)),
                   RenegadesNext(cfg, ActiveCount(s.players, cfg, now), Quiet(s.players, cfg, now)))
  {
    hide IsLeaderValue;
    forall u | IsLeaderValue(s, cfg, now, u) ensures u == v {
      OneLeaderValue(s, cfg, now, u, v);
    }
  }

  /** The factions' whole night, in order: the Cabal's, the Renegades', and the Federation's answer to either. */
  ghost predicate FactionNight(s: State, t: State, numsec: int, cfg: Config, g: Chart, now: Time, cabal: bool, renegades: bool)
    requires cfg.costFighter > 0
  {
    exists v: int, a: State, b: State :: NightInOrder(s, a, b, t, numsec, cfg, g, v, now, cabal, renegades)
  }

  ghost predicate NightInOrder(s: State, a: State, b: State, t: State, numsec: int, cfg: Config, g: Chart, v: int, now: Time, cabal: bool, renegades: bool)
    requires cfg.costFighter > 0
  {
    && IsLeaderValue(s, cfg, now, v)
    && (if cabal then CabalNight(s, a, numsec, cfg, g, v, now) else a == s)
    && (if renegades then RenegadeNight(a, b, numsec, cfg, g, now) else b == a)
    && if cabal || renegades then Eroded(b, t) else t == b
  }

  /**
    * The whole nightly pass. The factions wake and sleep by their thresholds, and while both sleep nothing happens.
    * Whoever was dead, absent, in Federation space or below the floor when it began has exactly the ship they had,
    * and no trader is worth more.
    */
  method RunFactionAI(w: World, now: Time)
    requires w.Valid() && Charted(w.sectors) && |w.sectors| < MAX_INT && w.cfg.costFighter > 0
    modifies w`players, w`bgs, w`planets, w`clamped, w`cabalActive, w`renActive
    ensures w.Valid() && |old(w.players)| <= |w.players|
    ensures Roused(old(w.View()), w.cfg, now, old(w.cabalActive), w.cabalActive, w.renActive)
    ensures !w.cabalActive && !w.renActive ==> w.View() == old(w.View())
    ensures forall i: nat :: i < |old(w.players)| && Protected(old(w.View()), w.cfg, i, now) ==> w.players[i] == old(w.players)[i]
    ensures NotRicher(old(w.View()), w.View(), w.cfg)
    ensures forall k: nat :: k < |w.players| ==>
              if k < |old(w.players)| then w.players[k].kind == old(w.players)[k].kind else w.players[k].IsNpc()
    ensures FactionNight(old(w.View()), w.View(), w.numsec, w.cfg, ChartOf(w.sectors), now, w.cabalActive, w.renActive)
  {
    hide SoundState, Manned, NotRicher, Value, Protected, Charted, InPass, Roused, CabalNext, RenegadesNext, IsLeaderValue, Quiet, WornDown;
    hide CabalNight, RenegadeNight, Eroded, ChartOf;
    ghost var s, g := w.View(), ChartOf(w.sectors);
    PassBegins(s, w.cfg, now);
    var activeCount, leaderValue, quiet := FactionMetrics(w, now);
    RousedBy(s, w.cfg, now, w.cabalActive, leaderValue);
    var cabalActive, renActive := UpdateFactionStates(w, activeCount, leaderValue, quiet);
    if cabalActive {
      CabalTurn(w, s, leaderValue, now);
    }
    ghost var a := w.View();
    if renActive {
      RenegadeTurn(w, s, now);
    }
    ghost var b := w.View();
    if cabalActive || renActive {
      ghost var t := w.View();
      ghost var cabal := FedCounterCabal(w);
      PassOn(s, t, w.View(), w.cfg, {}, now);
    }
    assert NightInOrder(s, a, b, w.View(), w.numsec, w.cfg, g, leaderValue, now, cabalActive, renActive);
    PassEnds(s, w.View(), w.cfg, now);
  }

  lemma PassEnds(s: State, t: State, cfg: Config, now: Time)
    requires InPass(s, t, cfg, now)
    ensures |s.players| <= |t.players| && NotRicher(s, t, cfg)
    ensures forall i: nat :: i < |s.players| && Protected(s, cfg, i, now) ==> t.players[i] == s.players[i]
    ensures forall k: nat :: k < |t.players| ==>
              if k < |s.players| then t.players[k].kind == s.players[k].kind else t.players[k].IsNpc()
  {
  }
}
