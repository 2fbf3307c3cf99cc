/** Ship against ship (combat.go:83-216, 358-378). */
module Combat {
  import opened Goods
  import opened Entities
  import opened Worlds
  import opened Death
  import opened Battle
  import opened Specials
  import opened Fights
  import opened Garrisons
  import opened Commands

  /** Two ships after any amount of fighting each other; nobody else has come to harm. */
  ghost predicate Melee(s: State, t: State, a: PlayerId, b: PlayerId, cap: nat, now: Time) {
    && a < |s.players| && b < |s.players|
    && Aftermath(s, t, {a, b})
    && a < |t.players| && b < |t.players|
    && Fought(s.players[a], t.players[a], cap, now)
    && Fought(s.players[b], t.players[b], cap, now)
  }

  lemma MeleeOn(s: State, t: State, u: State, numsec: int, a: PlayerId, b: PlayerId, cap: nat, now: Time)
    requires Melee(s, t, a, b, cap, now) && Melee(t, u, a, b, cap, now)
    requires SoundState(s, numsec) && SoundState(t, numsec) && SoundState(u, numsec)
    ensures Melee(s, u, a, b, cap, now)
  {
    hide Fought, SoundState, Aftermath;
    Then(s, t, u, numsec, {a, b});
    FoughtOn(s.players[a], t.players[a], u.players[a], cap, now);
    FoughtOn(s.players[b], t.players[b], u.players[b], cap, now);
  }

  /** A fight in which only one of the two is touched. */
  lemma OneSided(s: State, t: State, a: PlayerId, b: PlayerId, cap: nat, now: Time)
    requires a < |s.players| && b < |s.players| && a != b && a < |t.players| && b < |t.players|
    requires Aftermath(s, t, {a}) && Fought(s.players[a], t.players[a], cap, now)
    ensures Melee(s, t, a, b, cap, now) && Melee(s, t, b, a, cap, now) && t.players[b] == s.players[b]
  {
    hide Fought;
    Wider(s, t, {a}, {a, b});
    assert {a, b} == {b, a};
    assert t.players[b] == s.players[b];
    Unharmed(s.players[b], cap, now);
  }

  lemma MeleeSwapped(s: State, t: State, a: PlayerId, b: PlayerId, cap: nat, now: Time)
    requires Melee(s, t, a, b, cap, now)
    ensures Melee(s, t, b, a, cap, now)
  {
    assert {a, b} == {b, a};
  }

  /** Committed fighters against everything the other ship has. */
  method Exchange(w: World, a: PlayerId, b: PlayerId, commit: nat, ghost cap: nat, ghost now: Time)
    requires w.Sound() && Alive(w.players, a) && Alive(w.players, b) && a != b
    requires commit <= w.players[a].Has(Fighters)
    modifies w`players, w`clamped
    ensures w.Sound() && Melee(old(w.View()), w.View(), a, b, cap, now) && |w.players| == |old(w.players)|
    ensures Exchanged(commit, old(w.players[b]).Has(Fighters),
                      old(w.players[a]).Has(Fighters) - w.players[a].Has(Fighters),
                      old(w.players[b]).Has(Fighters) - w.players[b].Has(Fighters))
    ensures w.players[a] == Fewer(old(w.players[a]), old(w.players[a]).Has(Fighters) - w.players[a].Has(Fighters))
    ensures w.players[b] == Fewer(old(w.players[b]), old(w.players[b]).Has(Fighters) - w.players[b].Has(Fighters))
  {
    hide SoundState, Aftermath, Fought, Melee;
    var aLoss: int, bLoss: int := Attrition(commit, w.players[b].Has(Fighters));
    w.AdjustShip(a, Fighters, -aLoss);
    ghost var s, mid := old(w.View()), w.View();
    LosingFighters(s.players[a], aLoss, cap, now);
    ShipOk(s, w.numsec, a);
    Refitted(s, w.numsec, a, w.players[a]);
    OneSided(s, mid, a, b, cap, now);
    w.AdjustShip(b, Fighters, -bLoss);
    LosingFighters(mid.players[b], bLoss, cap, now);
    ShipOk(mid, w.numsec, b);
    Refitted(mid, w.numsec, b, w.players[b]);
    OneSided(mid, w.View(), b, a, cap, now);
    MeleeOn(s, mid, w.View(), w.numsec, a, b, cap, now);
  }

  /** The share of the victim's holds a killer recovers, as far as there is room for it. */
  function Salvage(maxHolds: nat, killerHolds: nat, victimHolds: nat, pct: nat): nat {
    var share := victimHolds * pct / 100;
    if share > maxHolds - killerHolds then (if maxHolds > killerHolds then maxHolds - killerHolds else 0) else share
  }

  function WithSalvage(killer: Player, holds: int): Player {
    killer.(inv := Adjusted(killer.inv, Holds, holds))
  }

  lemma Salvaging(p: Player, holds: nat, cap: nat, now: Time)
    requires !p.IsDead() && p.Has(Holds) + holds <= cap
    ensures Fought(p, WithSalvage(p, holds), cap, now)
  {
  }

  /** The killer takes holds from the wreck. */
  method TakeSalvage(w: World, killer: PlayerId, victim: PlayerId, ghost now: Time) returns (pct: nat)
    requires w.Sound() && Alive(w.players, killer) && victim < |w.players| && killer != victim
    modifies w`players, w`clamped
    ensures w.Sound() && |w.players| == |old(w.players)| && 30 <= pct < 100
    ensures Melee(old(w.View()), w.View(), killer, victim, w.cfg.maxHolds, now)
    ensures var holds := Salvage(w.cfg.maxHolds, old(w.players[killer]).Has(Holds), old(w.players[victim]).Has(Holds), pct);
            w.players == if holds > 0 then old(w.players)[killer := WithSalvage(old(w.players[killer]), holds)] else old(w.players)
  {
    hide SoundState, Aftermath, Fought, Melee;
    pct := Roll(70);
    pct := pct + 30;
    var salvage: int := w.players[victim].Has(Holds) * pct / 100;
    var room := w.cfg.maxHolds - w.players[killer].Has(Holds);
    if salvage > room {
      salvage := room;
    }
    Unharmed(w.players[killer], w.cfg.maxHolds, now);
    ShipOk(w.View(), w.numsec, killer);
    if salvage > 0 {
      w.AdjustShip(killer, Holds, salvage);
      Salvaging(old(w.players[killer]), salvage, w.cfg.maxHolds, now);
    }
    Refitted(old(w.View()), w.numsec, killer, w.players[killer]);
    assert w.players == old(w.players)[killer := w.players[killer]];
    OneSided(old(w.View()), w.View(), killer, victim, w.cfg.maxHolds, now);
  }

  /** The killer's ship with the salvage aboard. */
  function Enriched(cfg: Config, killer: Player, victim: Player, pct: nat): Player {
    var holds := Salvage(cfg.maxHolds, killer.Has(Holds), victim.Has(Holds), pct);
    if holds > 0 then WithSalvage(killer, holds) else killer
  }

  /** The last a fight does to a ship without fighters: it flees if it can, and otherwise is marked dead. */
  method Finish(w: World, killer: PlayerId, victim: PlayerId, cap: nat, now: Time)
    requires w.Sound() && killer < |w.players| && Alive(w.players, victim) && killer != victim
    requires !w.players[victim].IsNpc() && w.players[victim].Has(Fighters) == 0 && w.players[victim].Has(EmWarp) == 0
    modifies w`players, w`bgs, w`planets
    ensures w.Sound() && Melee(old(w.View()), w.View(), killer, victim, cap, now)
    ensures w.players[killer] == old(w.players[killer]) && w.players[victim] == Killed(old(w.players[victim]), now)
  {
    hide SoundState, Aftermath, Fought, Melee;
    Dying(w.players[victim], cap, now);
    KillPlayer(w, victim, now);
    SameSeats(old(w.View()), w.View(), {victim});
    OneSided(old(w.View()), w.View(), victim, killer, cap, now);
  }

  lemma SameSeats(s: State, t: State, who: set<PlayerId>)
    requires Aftermath(s, t, who)
    ensures |s.players| <= |t.players|
    ensures forall k: nat :: k < |s.players| ==> t.players[k].kind == s.players[k].kind
  {
  }

  lemma MeleeSeats(s: State, t: State, a: PlayerId, b: PlayerId, cap: nat, now: Time)
    requires Melee(s, t, a, b, cap, now)
    ensures |s.players| <= |t.players| && a < |t.players| && b < |t.players|
    ensures t.players[a].kind == s.players[a].kind && t.players[b].kind == s.players[b].kind
    ensures t.players[a].Has(Fighters) <= s.players[a].Has(Fighters)
    ensures t.players[b].Has(Fighters) <= s.players[b].Has(Fighters)
    ensures Fought(s.players[a], t.players[a], cap, now) && Fought(s.players[b], t.players[b], cap, now)
  {
  }

  method Flee(w: World, victim: PlayerId, killer: PlayerId, ghost cap: nat, ghost now: Time) returns (escaped: bool)
    requires w.Sound() && Alive(w.players, victim) && !w.players[victim].IsNpc() && killer < |w.players| && killer != victim
    modifies w`players, w`clamped
    ensures w.Sound() && |w.players| == |old(w.players)|
    ensures Melee(old(w.View()), w.View(), killer, victim, cap, now)
    ensures escaped <==> old(w.players[victim]).Has(EmWarp) > 0
    ensures escaped ==> EmWarped(old(w.players[victim]), w.players[victim], w.numsec)
                        && w.players == old(w.players)[victim := w.players[victim]]
    ensures !escaped ==> w.players == old(w.players)
  {
    hide SoundState, Aftermath, Fought, Melee;
    ShipOk(w.View(), w.numsec, victim);
    escaped := TryEmWarp(w, victim);
    if escaped {
      Fleeing(old(w.players[victim]), w.players[victim], w.numsec, cap, now);
    } else {
      Unharmed(w.players[victim], cap, now);
    }
    assert w.players == old(w.players)[victim := w.players[victim]];
    Refitted(old(w.View()), w.numsec, victim, w.players[victim]);
    OneSided(old(w.View()), w.View(), victim, killer, cap, now);
  }

  /** Every mine the victim was carrying goes off against the killer. */
  method DetonateCarriedMines(w: World, killer: PlayerId, victim: PlayerId, cap: nat, now: Time) returns (fate: Fate)
    requires w.Sound() && Alive(w.players, killer) && !w.players[killer].IsNpc() && victim < |w.players| && killer != victim
    modifies w`players, w`bgs, w`planets, w`clamped
    ensures w.Sound() && Melee(old(w.View()), w.View(), killer, victim, cap, now)
    ensures w.players[victim] == old(w.players[victim])
    ensures Fought(old(w.players[killer]), w.players[killer], 0, now)
    ensures fate.Deflection? || fate.Hit? ==>
              MineToll(old(w.players[killer]), w.players[killer], old(w.players[victim]).Has(Mines))
    ensures Swept(old(w.players[killer]), w.players[killer], old(w.players[victim]).Has(Mines))
    ensures fate.Escape? || fate.Destruction? ==>
              w.players[killer].Has(MineDeflector) == 0 && (fate.Destruction? <==> w.players[killer].IsDead())
    ensures old(w.players[victim]).Has(Mines) == 0 ==> w.View() == old(w.View())
  {
    hide SoundState, Aftermath, Fought, Melee, MineToll, Swept;
    if w.players[victim].Has(Mines) == 0 {
      NothingMet(w.players[killer]);
      Unharmed(w.players[killer], 0, now);
      Unharmed(w.players[killer], cap, now);
      NoMines(w.players[killer]);
      NothingHappened(w.View());
      Wider(w.View(), w.View(), {}, {killer});
      OneSided(w.View(), w.View(), killer, victim, cap, now);
      return Deflection;
    }
    var blasted;
    blasted, fate := SweepMines(w, killer, w.players[victim].Has(Mines), now);
    CapRaised(old(w.players[killer]), w.players[killer], 0, cap, now);
    SameSeats(old(w.View()), w.View(), {killer});
    OneSided(old(w.View()), w.View(), killer, victim, cap, now);
  }

  /** The killer's ship after the spoils: salvage first, and then all the mines the wreck was carrying. */
  ghost predicate Looted(cfg: Config, killer: Player, victim: Player, after: Player) {
    exists pct: nat :: 30 <= pct < 100 && Swept(Enriched(cfg, killer, victim, pct), after, victim.Has(Mines))
  }

  /** What becomes of a ship left without fighters, and of the ship that left it so. */
  ghost predicate Kill(cfg: Config, killer: Player, victim: Player, killer': Player, victim': Player) {
    && Overcome(victim, victim')
    && if victim.Has(EmWarp) > 0 then killer' == killer else Looted(cfg, killer, victim, killer')
  }

  lemma KillOf(cfg: Config, killer: Player, victim: Player, mined: Player, killer': Player, victim': Player, pct: nat)
    requires Overcome(victim, victim') && victim.Has(EmWarp) == 0 && 30 <= pct < 100
    requires mined == Enriched(cfg, killer, victim, pct) && Swept(mined, killer', victim.Has(Mines))
    ensures Kill(cfg, killer, victim, killer', victim')
  {
    hide Swept, Enriched;
  }

  /**
    * A ship without fighters at its killer's mercy. If its Emergency Warp does not save it, the killer takes
    * salvage, meets the mines it was carrying, and the victim is dead.
    */
  method ResolveKill(w: World, killer: PlayerId, victim: PlayerId, now: Time) returns (escaped: bool, pct: nat, ghost mined: Player)
    requires w.Sound() && Alive(w.players, killer) && Alive(w.players, victim) && killer != victim
    requires !w.players[killer].IsNpc() && !w.players[victim].IsNpc() && w.players[victim].Has(Fighters) == 0
    modifies w`players, w`bgs, w`planets, w`clamped
    ensures w.Sound() && Melee(old(w.View()), w.View(), killer, victim, w.cfg.maxHolds, now)
    ensures escaped <==> old(w.players[victim]).Has(EmWarp) > 0
    ensures escaped ==> w.players[killer] == old(w.players[killer]) && EmWarped(old(w.players[victim]), w.players[victim], w.numsec)
    ensures !escaped ==> w.players[victim] == Killed(old(w.players[victim]), now)
                         && 30 <= pct < 100
                         && mined == Enriched(w.cfg, old(w.players[killer]), old(w.players[victim]), pct)
                         && Fought(mined, w.players[killer], 0, now)
                         && (old(w.players[victim]).Has(Mines) == 0 ==> w.players[killer] == mined)
    ensures Kill(w.cfg, old(w.players[killer]), old(w.players[victim]), w.players[killer], w.players[victim])
  {
    hide SoundState, Aftermath, Fought, Melee, MineToll, Swept, Looted, Kill, Overcome;
    pct := 0;
    mined := w.players[killer];
    ghost var cap := w.cfg.maxHolds;
    ghost var s := w.View();
    escaped := Flee(w, victim, killer, cap, now);
    if escaped {
      Away(w.cfg, s.players[killer], s.players[victim], w.players[victim], w.numsec);
      return;
    }
    assert w.View() == s;
    pct := TakeSalvage(w, killer, victim, now);
    mined := w.players[killer];
    ghost var t := w.View();
    MeleeSeats(s, t, killer, victim, cap, now);
    AliveStill(s.players[killer], mined, cap, now);
    var fate := DetonateCarriedMines(w, killer, victim, w.cfg.maxHolds, now);
    MeleeOn(s, t, w.View(), w.numsec, killer, victim, cap, now);
    MeleeSeats(s, w.View(), killer, victim, cap, now);
    ghost var u := w.View();
    Finish(w, killer, victim, w.cfg.maxHolds, now);
    MeleeOn(s, u, w.View(), w.numsec, killer, victim, cap, now);
    MeleeSeats(u, w.View(), killer, victim, cap, now);
    Lost(s.players[victim], now);
    KillOf(w.cfg, s.players[killer], s.players[victim], mined, w.players[killer], w.players[victim], pct);
  }

  lemma Away(cfg: Config, killer: Player, victim: Player, victim': Player, numsec: int)
    requires victim.Has(EmWarp) > 0 && EmWarped(victim, victim', numsec) && !victim.IsDead()
    ensures Overcome(victim, victim') && Kill(cfg, killer, victim, killer, victim')
  {
  }

  lemma Lost(victim: Player, now: Time)
    requires victim.Has(EmWarp) == 0
    ensures Overcome(victim, Killed(victim, now))
  {
  }

  lemma AliveStill(before: Player, after: Player, cap: nat, now: Time)
    requires !before.IsDead() && (after == before || exists n :: after == WithSalvage(before, n))
    ensures !after.IsDead()
  {
  }

  /** The same of an attacker beaten in a counter-attack: no mine goes off against the defender. */
  ghost predicate Reversed(cfg: Config, killer: Player, victim: Player, killer': Player, victim': Player) {
    && Overcome(victim, victim')
    && if victim.Has(EmWarp) > 0 then killer' == killer
       else exists pct: nat :: 30 <= pct < 100 && killer' == Enriched(cfg, killer, victim, pct)
  }

  /** The attacker dies in the defender's counter-attack; the defender collects the salvage. */
  method ResolveKillReversed(w: World, killer: PlayerId, victim: PlayerId, now: Time) returns (escaped: bool, pct: nat)
    requires w.Sound() && Alive(w.players, killer) && Alive(w.players, victim) && killer != victim
    requires !w.players[killer].IsNpc() && !w.players[victim].IsNpc() && w.players[victim].Has(Fighters) == 0
    modifies w`players, w`bgs, w`planets, w`clamped
    ensures w.Sound() && Melee(old(w.View()), w.View(), killer, victim, w.cfg.maxHolds, now)
    ensures escaped <==> old(w.players[victim]).Has(EmWarp) > 0
    ensures escaped ==> w.players[killer] == old(w.players[killer]) && EmWarped(old(w.players[victim]), w.players[victim], w.numsec)
    ensures !escaped ==> w.players[victim] == Killed(old(w.players[victim]), now) && 30 <= pct < 100
                         && w.players[killer] == Enriched(w.cfg, old(w.players[killer]), old(w.players[victim]), pct)
    ensures Reversed(w.cfg, old(w.players[killer]), old(w.players[victim]), w.players[killer], w.players[victim])
  {
    hide SoundState, Aftermath, Fought, Melee;
    pct := 0;
    ghost var cap := w.cfg.maxHolds;
    ghost var s := w.View();
    escaped := Flee(w, victim, killer, cap, now);
    if escaped {
      Away(w.cfg, s.players[killer], s.players[victim], w.players[victim], w.numsec);
      return;
    }
    assert w.View() == s;
    pct := TakeSalvage(w, killer, victim, now);
    ghost var t := w.View();
    MeleeSeats(s, t, killer, victim, cap, now);
    Finish(w, killer, victim, w.cfg.maxHolds, now);
    MeleeOn(s, t, w.View(), w.numsec, killer, victim, cap, now);
    Lost(s.players[victim], now);
  }

  /** Why an attack is refused. The target must be here, awake, visible, and somebody else; Federation space is off limits. */
  function AttackRefusal(players: seq<Player>, cfg: Config, a: PlayerId, target: int, commit: int, now: Time): (r: Error)
    requires a < |players|
    ensures r.NoError? <==>
              && !players[a].IsDead() && !players[a].InFedSpace()
              && 0 <= target < |players| && target != a
              && !players[target].IsDead() && players[target].sector == players[a].sector
              && !Dormant(players[target], cfg, now)
              && (players[target].Has(Cloak) == 0 || players[a].Has(AntiCloak) > 0)
              && 1 <= commit <= players[a].Has(Fighters)
              && HasTurn(players[a])
  {
    if players[a].IsDead() then Dead
    else if players[a].InFedSpace() then FedRestricted
    else if target < 0 || target >= |players| || players[target].IsDead() || players[target].sector != players[a].sector then NotFound
    else if Dormant(players[target], cfg, now) then NotFound
    else if players[target].Has(Cloak) >= 1 && players[a].Has(AntiCloak) < 1 then NotFound
    else if target == a then Unknown
    else if commit < 1 then NegativeQuantity
    else if commit > players[a].Has(Fighters) then NotEnoughQuantity
    else if !HasTurn(players[a]) then NoTurns
    else NoError
  }

  /** A counter-attack: everything both ships have is exchanged, and the loser is finished off or flees. */
  ghost predicate Countered(cfg: Config, a: Player, b: Player, a': Player, b': Player) {
    exists aLoss: nat, bLoss: nat ::
      && Exchanged(a.Has(Fighters), b.Has(Fighters), aLoss, bLoss)
      && if aLoss == a.Has(Fighters) then Reversed(cfg, Fewer(b, bLoss), Fewer(a, aLoss), b', a')
         else Kill(cfg, Fewer(a, aLoss), Fewer(b, bLoss), a', b')
  }

  /** An attack: the committed fighters are exchanged, and then the target is finished off, strikes back, or lets it be. */
  ghost predicate Attacked(cfg: Config, a: Player, b: Player, commit: nat, a': Player, b': Player) {
    exists aLoss: nat, bLoss: nat ::
      && Exchanged(commit, b.Has(Fighters), aLoss, bLoss)
      && var hitA, hitB := Fewer(a, aLoss), Fewer(b, bLoss);
         if bLoss == b.Has(Fighters) then Kill(cfg, hitA, hitB, a', b')
         else (a' == hitA && b' == hitB) || Countered(cfg, hitA, hitB, a', b')
  }

  lemma FewerHas(p: Player, n: nat)
    requires n <= p.Has(Fighters)
    ensures var q := Fewer(p, n);
            q.Has(Fighters) == p.Has(Fighters) - n && q.IsDead() == p.IsDead() && forall g :: g != Fighters ==> q.Has(g) == p.Has(g)
  {
  }

  /** The price of a kill: 300 fighters at least for each mine the victim carried that no deflector stopped. */
  ghost predicate PaidForKill(a: Player, a': Player, mines: nat) {
    a'.IsDead() || a'.Has(EmWarp) < a.Has(EmWarp) || a'.Has(Fighters) + 300 * (mines - Stopped(a, mines)) <= a.Has(Fighters)
  }

  lemma PaidFrom(a: Player, n: nat, a': Player, mines: nat)
    requires n <= a.Has(Fighters)
    ensures PaidForKill(Fewer(a, n), a', mines) ==> PaidForKill(a, a', mines)
    ensures Overcome(Fewer(a, n), a') ==> Overcome(a, a')
  {
  }

  lemma LootPrice(cfg: Config, killer: Player, victim: Player, after: Player)
    requires Looted(cfg, killer, victim, after)
    ensures PaidForKill(killer, after, victim.Has(Mines))
    ensures after.Has(Fighters) == 0 < killer.Has(Fighters) ==> Overcome(killer, after)
  {
  }

  lemma KillPrice(cfg: Config, killer: Player, victim: Player, killer': Player, victim': Player)
    requires Kill(cfg, killer, victim, killer', victim') && !killer.IsDead()
    ensures victim'.IsDead() ==> PaidForKill(killer, killer', victim.Has(Mines))
    ensures killer'.Has(Fighters) == 0 < killer.Has(Fighters) ==> Overcome(killer, killer')
    ensures victim'.IsDead() || victim'.Has(EmWarp) < victim.Has(EmWarp)
  {
    hide Looted, PaidForKill;
    if victim.Has(EmWarp) == 0 {
      LootPrice(cfg, killer, victim, killer');
    }
  }

  lemma CounterPrice(cfg: Config, a: Player, b: Player, a': Player, b': Player)
    requires Countered(cfg, a, b, a', b') && !a.IsDead() && !b.IsDead()
    ensures b'.IsDead() ==> PaidForKill(a, a', b.Has(Mines))
    ensures a'.Has(Fighters) == 0 ==> Overcome(a, a')
  {
    hide Kill, Fewer, PaidForKill;
    var aLoss: nat, bLoss: nat :|
      && Exchanged(a.Has(Fighters), b.Has(Fighters), aLoss, bLoss)
      && if aLoss == a.Has(Fighters) then Reversed(cfg, Fewer(b, bLoss), Fewer(a, aLoss), b', a')
         else Kill(cfg, Fewer(a, aLoss), Fewer(b, bLoss), a', b');
    FewerHas(a, aLoss);
    FewerHas(b, bLoss);
    PaidFrom(a, aLoss, a', b.Has(Mines));
    if aLoss < a.Has(Fighters) {
      KillPrice(cfg, Fewer(a, aLoss), Fewer(b, bLoss), a', b');
    }
  }

  /** Whoever kills the target of an attack pays for it, and an attacker beaten in the counter-attack is dead or gone. */
  lemma AttackPrice(cfg: Config, a: Player, b: Player, commit: nat, a': Player, b': Player)
    requires Attacked(cfg, a, b, commit, a', b') && 1 <= commit <= a.Has(Fighters) && !a.IsDead() && !b.IsDead()
    ensures b'.IsDead() ==> PaidForKill(a, a', b.Has(Mines))
    ensures a'.IsDead() || a'.Has(EmWarp) < a.Has(EmWarp) || a'.Has(Fighters) > 0
            || (commit == a.Has(Fighters) && 0 < b'.Has(Fighters) && !b'.IsDead())
  {
    hide Kill, Fewer, Countered, PaidForKill;
    var aLoss: nat, bLoss: nat :|
      && Exchanged(commit, b.Has(Fighters), aLoss, bLoss)
      && var hitA, hitB := Fewer(a, aLoss), Fewer(b, bLoss);
         if bLoss == b.Has(Fighters) then Kill(cfg, hitA, hitB, a', b')
         else (a' == hitA && b' == hitB) || Countered(cfg, hitA, hitB, a', b');
    var hitA, hitB := Fewer(a, aLoss), Fewer(b, bLoss);
    FewerHas(a, aLoss);
    FewerHas(b, bLoss);
    PaidFrom(a, aLoss, a', b.Has(Mines));
    if bLoss == b.Has(Fighters) {
      KillPrice(cfg, hitA, hitB, a', b');
    } else if Countered(cfg, hitA, hitB, a', b') {
      CounterPrice(cfg, hitA, hitB, a', b');
    }
  }

  lemma CounteredSo(cfg: Config, a: Player, b: Player, hitA: Player, hitB: Player, a': Player, b': Player)
    requires hitA.Has(Fighters) <= a.Has(Fighters) && hitB.Has(Fighters) <= b.Has(Fighters)
    requires Exchanged(a.Has(Fighters), b.Has(Fighters), a.Has(Fighters) - hitA.Has(Fighters), b.Has(Fighters) - hitB.Has(Fighters))
    requires hitA == Fewer(a, a.Has(Fighters) - hitA.Has(Fighters)) && hitB == Fewer(b, b.Has(Fighters) - hitB.Has(Fighters))
    requires if hitA.Has(Fighters) == 0 then Reversed(cfg, hitB, hitA, b', a') else Kill(cfg, hitA, hitB, a', b')
    ensures Countered(cfg, a, b, a', b')
  {
    hide Kill, Reversed, Exchanged;
  }

  lemma AttackedSo(cfg: Config, a: Player, b: Player, commit: nat, hitA: Player, hitB: Player, a': Player, b': Player)
    requires hitA.Has(Fighters) <= a.Has(Fighters) && hitB.Has(Fighters) <= b.Has(Fighters)
    requires Exchanged(commit, b.Has(Fighters), a.Has(Fighters) - hitA.Has(Fighters), b.Has(Fighters) - hitB.Has(Fighters))
    requires hitA == Fewer(a, a.Has(Fighters) - hitA.Has(Fighters)) && hitB == Fewer(b, b.Has(Fighters) - hitB.Has(Fighters))
    requires if hitB.Has(Fighters) == 0 then Kill(cfg, hitA, hitB, a', b') else (a' == hitA && b' == hitB) || Countered(cfg, hitA, hitB, a', b')
    ensures Attacked(cfg, a, b, commit, a', b')
  {
    hide Kill, Countered, Exchanged;
  }

  /** After a counter-attack, the side left without fighters is finished off or flees. */
  method Settle(w: World, a: PlayerId, b: PlayerId, now: Time)
    requires w.Sound() && Alive(w.players, a) && Alive(w.players, b) && a != b
    requires !w.players[a].IsNpc() && !w.players[b].IsNpc()
    requires (w.players[a].Has(Fighters) == 0) != (w.players[b].Has(Fighters) == 0)
    modifies w`players, w`bgs, w`planets, w`clamped
    ensures w.Sound() && Melee(old(w.View()), w.View(), a, b, w.cfg.maxHolds, now)
    ensures if old(w.players[a].Has(Fighters)) == 0 then Reversed(w.cfg, old(w.players[b]), old(w.players[a]), w.players[b], w.players[a])
            else Kill(w.cfg, old(w.players[a]), old(w.players[b]), w.players[a], w.players[b])
    ensures w.players[b].Has(Fighters) == 0 ==> w.players[b].IsDead() || w.players[b].Has(EmWarp) < old(w.players[b]).Has(EmWarp)
  {
    hide SoundState, Aftermath, Fought, Melee, Kill, Reversed, Overcome;
    ghost var cap, s := w.cfg.maxHolds, w.View();
    if w.players[a].Has(Fighters) == 0 {
      var escaped, pct := ResolveKillReversed(w, b, a, now);
      MeleeSwapped(s, w.View(), b, a, cap, now);
    } else if w.players[b].Has(Fighters) == 0 {
      var escaped, pct;
      ghost var mined;
      escaped, pct, mined := ResolveKill(w, a, b, now);
    }
    MeleeSeats(s, w.View(), a, b, cap, now);
  }

  /** The defender strikes back with everything against everything the attacker has left. */
  method CounterAttack(w: World, a: PlayerId, b: PlayerId, now: Time)
    requires w.Sound() && Alive(w.players, a) && Alive(w.players, b) && a != b
    requires !w.players[a].IsNpc() && !w.players[b].IsNpc() && w.players[b].Has(Fighters) > 0
    modifies w`players, w`bgs, w`planets, w`clamped
    ensures w.Sound() && Melee(old(w.View()), w.View(), a, b, w.cfg.maxHolds, now)
    ensures w.players[b].Has(Fighters) == 0 ==> w.players[b].IsDead() || w.players[b].Has(EmWarp) < old(w.players[b]).Has(EmWarp)
    ensures w.players[a].Has(Fighters) == 0 || w.players[b].Has(Fighters) == 0
    ensures Countered(w.cfg, old(w.players[a]), old(w.players[b]), w.players[a], w.players[b])
    ensures w.players[a].Has(Fighters) == 0 ==> Overcome(old(w.players[a]), w.players[a])
  {
    hide SoundState, Aftermath, Fought, Melee, Kill, Reversed, Overcome, Countered;
    ghost var cap, s := w.cfg.maxHolds, w.View();
    Exchange(w, a, b, w.players[a].Has(Fighters), cap, now);
    ghost var u := w.View();
    MeleeSeats(s, u, a, b, cap, now);
    Settle(w, a, b, now);
    MeleeOn(s, u, w.View(), w.numsec, a, b, cap, now);
    MeleeSeats(u, w.View(), a, b, cap, now);
    CounteredSo(w.cfg, s.players[a], s.players[b], u.players[a], u.players[b], w.players[a], w.players[b]);
    CounterPrice(w.cfg, s.players[a], s.players[b], w.players[a], w.players[b]);
  }

  /** The blow-by-blow of one attack, already paid for. */
  method Duel(w: World, a: PlayerId, b: PlayerId, commit: nat, now: Time)
    requires w.Sound() && Alive(w.players, a) && Alive(w.players, b) && a != b
    requires !w.players[a].IsNpc() && !w.players[b].IsNpc() && 1 <= commit <= w.players[a].Has(Fighters)
    modifies w`players, w`bgs, w`planets, w`clamped
    ensures w.Sound() && Melee(old(w.View()), w.View(), a, b, w.cfg.maxHolds, now)
    ensures w.players[b].Has(Fighters) == 0 || w.players[a].Has(Fighters) + commit <= old(w.players[a]).Has(Fighters)
    ensures w.players[b].Has(Fighters) == 0 ==> w.players[b].IsDead() || w.players[b].Has(EmWarp) < old(w.players[b]).Has(EmWarp)
    ensures Attacked(w.cfg, old(w.players[a]), old(w.players[b]), commit, w.players[a], w.players[b])
  {
    hide SoundState, Aftermath, Fought, Melee, Kill, Countered, Overcome, Attacked, EmWarped, Enriched, Killed, PaidForKill;
    ghost var cap, s := w.cfg.maxHolds, w.View();
    Exchange(w, a, b, commit, cap, now);
    ghost var t := w.View();
    MeleeSeats(s, t, a, b, cap, now);
    if w.players[b].Has(Fighters) == 0 {
      var escaped, pct;
      ghost var mined;
      escaped, pct, mined := ResolveKill(w, a, b, now);
      MeleeSeats(t, w.View(), a, b, cap, now);
      KillPrice(w.cfg, t.players[a], t.players[b], w.players[a], w.players[b]);
      MeleeOn(s, t, w.View(), w.numsec, a, b, cap, now);
    } else {
      var roll := Roll(10);
      if roll > 3 {
        CounterAttack(w, a, b, now);
        MeleeOn(s, t, w.View(), w.numsec, a, b, cap, now);
        MeleeSeats(t, w.View(), a, b, cap, now);
      }
    }
    MeleeSeats(s, w.View(), a, b, cap, now);
    AttackedSo(w.cfg, s.players[a], s.players[b], commit, t.players[a], t.players[b], w.players[a], w.players[b]);
  }

  /** The world once the turn is paid for. */
  ghost function Charged(s: State, p: PlayerId): State
    requires p < |s.players|
  {
    s.(players := s.players[p := TurnSpent(s.players[p])])
  }

  lemma ChargedSound(s: State, numsec: int, p: PlayerId)
    requires SoundState(s, numsec) && p < |s.players|
    ensures SoundState(Charged(s, p), numsec) && Worn(s, Charged(s, p), {p}, {})
  {
    hide SoundState, Worn;
    ShipOk(s, numsec, p);
    ShipHit(s, numsec, p, TurnSpent(s.players[p]));
  }

  lemma MeleeManned(s: State, t: State, a: PlayerId, b: PlayerId, cap: nat, now: Time)
    requires Melee(s, t, a, b, cap, now) && Manned(s.bgs)
    ensures Manned(t.bgs)
  {
    AllStillManned(s, t, {a, b});
  }

  /**
    * A whole attack. Refused attacks change nothing. Otherwise a turn is spent, only the two ships take part,
    * and the committed fighters decide it: either they are all lost or the target has none left, and then it is
    * dead or has fled.
    */
  method AttackPlayer(w: World, a: PlayerId, target: int, commit: int, now: Time) returns (err: Error)
    requires w.Valid() && a < |w.players| && !w.players[a].IsNpc()
    modifies w`players, w`bgs, w`planets, w`clamped
    ensures w.Valid()
    ensures err == AttackRefusal(old(w.players), w.cfg, a, target, commit, now)
    ensures !err.NoError? ==> w.View() == old(w.View())
    ensures err.NoError? ==> Melee(Charged(old(w.View()), a), w.View(), a, target, w.cfg.maxHolds, now)
    ensures err.NoError? ==>
              w.players[target].Has(Fighters) == 0 || w.players[a].Has(Fighters) + commit <= old(w.players[a]).Has(Fighters)
    ensures err.NoError? && w.players[target].Has(Fighters) == 0 ==>
              w.players[target].IsDead() || w.players[target].Has(EmWarp) < old(w.players[target]).Has(EmWarp)
    ensures err.NoError? ==>
              Attacked(w.cfg, TurnSpent(old(w.players[a])), old(w.players[target]), commit, w.players[a], w.players[target])
    ensures err.NoError? && w.players[target].IsDead() ==>
              PaidForKill(old(w.players[a]), w.players[a], old(w.players[target]).Has(Mines))
  {
    hide SoundState, Melee, Manned, Attacked, PaidForKill;
    err := AttackRefusal(w.players, w.cfg, a, target, commit, now);
    if err.NoError? {
      ShipOk(w.View(), w.numsec, target);
      ChargedSound(w.View(), w.numsec, a);
      err := SpendTurn(w, a);
      ghost var s := w.View();
      assert s == Charged(old(w.View()), a);
      Duel(w, a, target, commit, now);
      MeleeManned(s, w.View(), a, target, w.cfg.maxHolds, now);
      MeleeSeats(s, w.View(), a, target, w.cfg.maxHolds, now);
      AttackPrice(w.cfg, s.players[a], s.players[target], commit, w.players[a], w.players[target]);
      PaidAlike(old(w.players[a]), s.players[a], w.players[a], s.players[target].Has(Mines));
    }
  }

  lemma PaidAlike(a: Player, b: Player, after: Player, mines: nat)
    requires a.Has(Fighters) == b.Has(Fighters) && a.Has(EmWarp) == b.Has(EmWarp) && a.Has(MineDeflector) == b.Has(MineDeflector)
    ensures PaidForKill(a, after, mines) <==> PaidForKill(b, after, mines)
  {
  }
}
