/** What a fight may do to a ship, and what mines do to one. */
module Fights {
  import opened Goods
  import opened Entities
  import opened Worlds
  import opened Death
  import opened Specials

  function Max(a: nat, b: nat): nat {
    if a >= b then a else b
  }

  /**
    * A ship after any amount of fighting. Only fighters, holds, deflectors and Emergency Warps are ever
    * lost, and nothing is gained but salvaged holds, up to `cap`. A ship moves only by Emergency Warp, and
    * dies only with neither a fighter nor an Emergency Warp left. The dead are out of the fight.
    */
  ghost predicate Fought(before: Player, after: Player, cap: nat, now: Time) {
    && after == before.(inv := after.inv, systems := after.systems, sector := after.sector,
                        diedAt := after.diedAt, timesDied := after.timesDied)
    && (forall g :: g != Fighters && g != Holds && g != MineDeflector && g != EmWarp ==>
          Qty(after.inv, g) == Qty(before.inv, g))
    && after.Has(Fighters) <= before.Has(Fighters)
    && after.Has(MineDeflector) <= before.Has(MineDeflector)
    && after.Has(EmWarp) <= before.Has(EmWarp)
    && after.Has(Holds) <= Max(before.Has(Holds), cap)
    && (forall i :: 0 <= i < SYSTEMS ==> before.systems[i] <= after.systems[i])
    && if before.IsDead() then after == before
       else if after.IsDead() then
         && after.diedAt == now && after.timesDied == before.timesDied + 1 && after.sector == 0
         && after.Has(Fighters) == 0 && after.Has(EmWarp) == 0
       else
         && after.timesDied == before.timesDied
         && (after.sector == before.sector || after.Has(EmWarp) < before.Has(EmWarp))
  }

  lemma Unharmed(p: Player, cap: nat, now: Time)
    ensures Fought(p, p, cap, now)
  {
  }

  lemma FoughtOn(a: Player, b: Player, c: Player, cap: nat, now: Time)
    requires Fought(a, b, cap, now) && Fought(b, c, cap, now)
    ensures Fought(a, c, cap, now)
  {
  }

  lemma CapRaised(a: Player, b: Player, cap: nat, higher: nat, now: Time)
    requires Fought(a, b, cap, now) && cap <= higher
    ensures Fought(a, b, higher, now)
  {
  }

  function Fewer(p: Player, n: int): Player {
    p.(inv := Adjusted(p.inv, Fighters, -n))
  }

  lemma LosingFighters(p: Player, n: nat, cap: nat, now: Time)
    requires !p.IsDead() && n <= p.Has(Fighters)
    ensures Fought(p, Fewer(p, n), cap, now)
    ensures Fewer(p, n).Has(Fighters) == p.Has(Fighters) - n
  {
  }

  lemma Fleeing(p: Player, q: Player, numsec: int, cap: nat, now: Time)
    requires !p.IsDead() && p.Has(EmWarp) > 0 && EmWarped(p, q, numsec)
    ensures Fought(p, q, cap, now)
  {
  }

  lemma Dying(p: Player, cap: nat, now: Time)
    requires !p.IsDead() && p.Has(Fighters) == 0 && p.Has(EmWarp) == 0
    ensures Fought(p, Killed(p, now), cap, now)
  {
  }

  lemma Deflecting(p: Player, cap: nat, now: Time)
    requires !p.IsDead()
    ensures Fought(p, Deflected(p), cap, now)
  {
  }

  lemma Blast(before: Player, hit: Player, cap: nat, now: Time)
    requires !before.IsDead() && Blasted(before, hit)
    ensures Fought(before, hit, cap, now) && !hit.IsDead()
  {
  }

  lemma MeetingMine(before: Player, met: Player, fate: Fate, numsec: int, cap: nat, now: Time)
    requires !before.IsDead() && MineMet(before, met, fate, numsec)
    ensures Fought(before, if fate.Destruction? then Killed(met, now) else met, cap, now)
  {
    hide Fought, Blasted, EmWarped, Deflected, Killed;
    if before.Has(MineDeflector) > 0 {
      Deflecting(before, cap, now);
    } else {
      var hit :| Blasted(before, hit) && Outcome(hit, met, fate, numsec);
      Blast(before, hit, cap, now);
      if fate.Escape? {
        Fleeing(hit, met, numsec, cap, now);
        FoughtOn(before, hit, met, cap, now);
      } else if fate.Destruction? {
        Dying(met, cap, now);
        FoughtOn(before, hit, Killed(met, now), cap, now);
      }
    }
  }

  /** Mines met by the ship's deflectors, and mines that went off against the hull. */
  function Stopped(p: Player, mines: nat): nat {
    if mines <= p.Has(MineDeflector) then mines else p.Has(MineDeflector)
  }

  /** What `mines` detonations cost a ship that is still flying: deflectors first, then 300 to 499 fighters a mine. */
  ghost predicate MineToll(before: Player, after: Player, mines: nat) {
    var blasts := mines - Stopped(before, mines);
    && after.sector == before.sector && after.diedAt == before.diedAt
    && after.Has(EmWarp) == before.Has(EmWarp)
    && after.Has(MineDeflector) == before.Has(MineDeflector) - Stopped(before, mines)
    && after.Has(Fighters) + 300 * blasts <= before.Has(Fighters) <= after.Has(Fighters) + 499 * blasts
    && before.Has(Holds) <= after.Has(Holds) + 12 * blasts
    && (after.Has(Holds) == 0 || after.Has(Holds) + 7 * blasts <= before.Has(Holds))
    && (blasts > 0 ==> after.Has(Fighters) > 0)
  }

  /** A ship left without fighters gets away by its Emergency Warp exactly if it has one aboard. */
  ghost predicate Overcome(before: Player, after: Player) {
    if before.Has(EmWarp) > 0 then !after.IsDead() && after.Has(EmWarp) == before.Has(EmWarp) - 1 else after.IsDead()
  }

  /** What a field of mines did to a ship: it came through at the full price, or had no fighters left before the end. */
  ghost predicate Swept(before: Player, after: Player, mines: nat) {
    var blasts := mines - Stopped(before, mines);
    MineToll(before, after, mines) || (Overcome(before, after) && blasts > 0 && before.Has(Fighters) <= 499 * blasts)
  }

  lemma Sunk(before: Player, after: Player, met: nat, mines: nat, now: Time)
    requires Fought(before, after, 0, now) && !before.IsDead()
    requires after.Has(EmWarp) == before.Has(EmWarp) - (if after.IsDead() then 0 else 1)
    requires met <= mines && met > Stopped(before, met) && before.Has(Fighters) <= 499 * (met - Stopped(before, met))
    ensures Swept(before, after, mines)
  {
  }

  lemma OneMoreMine(before: Player, after: Player, mines: nat, next: Player, fate: Fate, numsec: int)
    requires MineToll(before, after, mines) && MineMet(after, next, fate, numsec)
    ensures fate.Deflection? || fate.Hit? ==> MineToll(before, next, mines + 1)
    ensures !fate.Deflection? ==> next.Has(MineDeflector) == 0
    ensures next.Has(EmWarp) == after.Has(EmWarp) - (if fate.Escape? then 1 else 0)
  {
  }

  /** A ship that a mine leaves without fighters had no more of them than the mines can have cost. */
  lemma LastMine(before: Player, after: Player, mines: nat, next: Player, fate: Fate, numsec: int)
    requires MineToll(before, after, mines) && MineMet(after, next, fate, numsec)
    ensures fate.Escape? || fate.Destruction? ==>
              var blasts := mines + 1 - Stopped(before, mines + 1); blasts > 0 && before.Has(Fighters) <= 499 * blasts
  {
    hide EmWarped, Damaged;
  }

  /** Mines go off one by one against a ship, until they are spent or the ship is gone. */
  method SweepMines(w: World, p: PlayerId, mines: nat, now: Time) returns (blasted: nat, fate: Fate)
    requires w.Sound() && Alive(w.players, p) && !w.players[p].IsNpc()
    modifies w`players, w`bgs, w`planets, w`clamped
    ensures w.Sound() && Aftermath(old(w.View()), w.View(), {p}) && p < |w.players|
    ensures Fought(old(w.players[p]), w.players[p], 0, now)
    ensures blasted <= mines
    ensures fate.Deflection? || fate.Hit? ==> blasted == mines && MineToll(old(w.players[p]), w.players[p], mines)
    ensures Swept(old(w.players[p]), w.players[p], mines)
    ensures fate.Escape? || fate.Destruction? ==> blasted > 0 && w.players[p].Has(MineDeflector) == 0
    ensures w.players[p].Has(EmWarp) == old(w.players[p]).Has(EmWarp) - (if fate.Escape? then 1 else 0)
    ensures w.players[p].IsDead() <==> fate.Destruction?
    ensures !fate.Destruction? ==> |w.players| == |old(w.players)| && w.bgs == old(w.bgs) && w.planets == old(w.planets)
  {
    hide SoundState, Aftermath, MineMet, MineToll, Fought;
    blasted, fate := 0, Deflection;
    Unharmed(w.players[p], 0, now);
    NothingHappened(w.View());
    Wider(w.View(), w.View(), {}, {p});
    assert MineToll(w.players[p], w.players[p], 0) by { NoMines(w.players[p]); }
    while blasted < mines && (fate.Deflection? || fate.Hit?)
      invariant w.Sound() && Aftermath(old(w.View()), w.View(), {p}) && p < |w.players|
      invariant Fought(old(w.players[p]), w.players[p], 0, now)
      invariant blasted <= mines
      invariant fate.Deflection? || fate.Hit? ==> MineToll(old(w.players[p]), w.players[p], blasted)
      invariant fate.Escape? || fate.Destruction? ==> blasted > 0 && w.players[p].Has(MineDeflector) == 0
      invariant w.players[p].Has(EmWarp) == old(w.players[p]).Has(EmWarp) - (if fate.Escape? then 1 else 0)
      invariant fate.Escape? || fate.Destruction? ==>
                  var blasts := blasted - Stopped(old(w.players[p]), blasted); blasts > 0 && old(w.players[p]).Has(Fighters) <= 499 * blasts
      invariant w.players[p].IsDead() <==> fate.Destruction?
      invariant !w.players[p].IsNpc()
      invariant !fate.Destruction? ==> |w.players| == |old(w.players)| && w.bgs == old(w.bgs) && w.planets == old(w.planets)
      decreases mines - blasted
    {
      ghost var ship, mid := w.players[p], w.View();
      ghost var met;
      fate, met := DetonateMine(w, p, now);
      Then(old(w.View()), mid, w.View(), w.numsec, {p});
      MeetingMine(ship, met, fate, w.numsec, 0, now);
      MineMetKeeps(ship, met, fate, w.numsec);
      FoughtOn(old(w.players[p]), ship, w.players[p], 0, now);
      OneMoreMine(old(w.players[p]), ship, blasted, met, fate, w.numsec);
      LastMine(old(w.players[p]), ship, blasted, met, fate, w.numsec);
      blasted := blasted + 1;
    }
    if fate.Escape? || fate.Destruction? {
      Sunk(old(w.players[p]), w.players[p], blasted, mines, now);
    }
  }

  lemma NoMines(p: Player)
    ensures MineToll(p, p, 0)
  {
  }

  /** A ship left without fighters in a fight: its Emergency Warp fires, or it is destroyed. */
  method EscapeOrDie(w: World, p: PlayerId, now: Time) returns (escaped: bool)
    requires w.Sound() && Alive(w.players, p) && !w.players[p].IsNpc() && w.players[p].Has(Fighters) == 0
    modifies w`players, w`bgs, w`planets, w`clamped
    ensures w.Sound() && Aftermath(old(w.View()), w.View(), {p}) && p < |w.players|
    ensures Fought(old(w.players[p]), w.players[p], 0, now)
    ensures escaped <==> old(w.players[p]).Has(EmWarp) > 0
    ensures escaped ==> EmWarped(old(w.players[p]), w.players[p], w.numsec)
                        && |w.players| == |old(w.players)| && w.bgs == old(w.bgs) && w.planets == old(w.planets)
    ensures !escaped ==> w.players[p] == Killed(old(w.players[p]), now)
    ensures Overcome(old(w.players[p]), w.players[p])
  {
    hide SoundState, Aftermath, Fought;
    ShipOk(w.View(), w.numsec, p);
    escaped := TryEmWarp(w, p);
    if escaped {
      Fleeing(old(w.players[p]), w.players[p], w.numsec, 0, now);
      Refitted(old(w.View()), w.numsec, p, w.players[p]);
    } else {
      Dying(w.players[p], 0, now);
      KillPlayer(w, p, now);
    }
  }

  lemma TollKeeps(before: Player, after: Player, mines: nat)
    requires MineToll(before, after, mines)
    ensures after.sector == before.sector && after.diedAt == before.diedAt
    ensures after.Has(EmWarp) == before.Has(EmWarp)
  {
  }

  lemma NothingMet(p: Player)
    ensures Fewer(p, 0) == p && Swept(p, p, 0)
  {
  }

  lemma SameKind(before: Player, after: Player, cap: nat, now: Time)
    requires Fought(before, after, cap, now)
    ensures after.kind == before.kind
  {
  }

  lemma FleetCounts(before: Player, after: Player, now: Time)
    requires Fought(before, after, 0, now)
    ensures after.Has(Fighters) <= before.Has(Fighters) && after.Has(Mines) == before.Has(Mines)
  {
  }
}
