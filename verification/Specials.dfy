/** Mine deflectors, Emergency Warp, mine blasts and pulsar bombs (specials.go, and mineBlast of combat.go). */
module Specials {
  import opened Goods
  import opened Entities
  import opened Worlds
  import opened Death
  import opened Battle

  /** One Mine Deflector, if aboard, is spent to stop one blast. */
  method AbsorbMine(w: World, p: PlayerId) returns (absorbed: bool)
    requires !w.clamped && w.numsec >= 1 && p < |w.players|
    modifies w`players, w`clamped
    ensures !w.clamped
    ensures absorbed <==> old(w.players[p].Has(MineDeflector)) >= 1
    ensures w.players == if absorbed then old(w.players)[p := Deflected(old(w.players[p]))] else old(w.players)
  {
    if w.players[p].Has(MineDeflector) < 1 {
      return false;
    }
    w.AdjustShip(p, MineDeflector, -1);
    return true;
  }

  function Deflected(p: Player): Player {
    p.(inv := Adjusted(p.inv, MineDeflector, -1))
  }

  /** The device is used up and the ship thrown to some other sector, if there is one. */
  ghost predicate EmWarped(before: Player, after: Player, numsec: int) {
    && after == before.(inv := Adjusted(before.inv, EmWarp, -1), sector := after.sector)
    && 1 <= after.sector <= numsec
    && (numsec > 1 ==> after.sector != before.sector)
  }

  method TryEmWarp(w: World, p: PlayerId) returns (escaped: bool)
    requires !w.clamped && w.numsec >= 1 && p < |w.players|
    modifies w`players, w`clamped
    ensures !w.clamped
    ensures escaped <==> old(w.players[p].Has(EmWarp)) >= 1
    ensures !escaped ==> w.players == old(w.players)
    ensures escaped ==> |w.players| == |old(w.players)| && w.players == old(w.players)[p := w.players[p]]
    ensures escaped ==> EmWarped(old(w.players[p]), w.players[p], w.numsec)
  {
    if w.players[p].Has(EmWarp) < 1 || w.numsec < 1 {
      return false;
    }
    w.AdjustShip(p, EmWarp, -1);
    assert w.numsec > 1 ==> 1 != w.players[p].sector || 2 != w.players[p].sector;
    assert 1 <= 1 <= w.numsec;
    var dest: nat :| 1 <= dest <= w.numsec && (w.numsec > 1 ==> dest != w.players[p].sector);
    w.players := w.players[p := w.players[p].(sector := dest)];
    return true;
  }

  /** A random loss between lo and hi, cut off at what there was. */
  predicate Loss(before: nat, after: nat, lo: nat, hi: nat) {
    after <= before <= after + hi && (after == 0 || after + lo <= before)
  }

  /** One mine's work: 300 to 499 fighters, 7 to 12 holds, and 5 to 19 turns of damage to one system. */
  ghost predicate Blasted(before: Player, after: Player) {
    && after == before.(inv := after.inv, systems := after.systems)
    && (forall g :: g != Fighters && g != Holds ==> Qty(after.inv, g) == Qty(before.inv, g))
    && Loss(before.Has(Fighters), after.Has(Fighters), 300, 499)
    && Loss(before.Has(Holds), after.Has(Holds), 7, 12)
    && exists sys: nat, d: nat :: sys < SYSTEMS && 5 <= d < 20 && after.systems == Damaged(before.systems, sys, d)
  }

  method MineBlast(w: World, p: PlayerId)
    requires !w.clamped && w.numsec >= 1 && p < |w.players|
    modifies w`players, w`clamped
    ensures !w.clamped
    ensures |w.players| == |old(w.players)| && w.players == old(w.players)[p := w.players[p]]
    ensures Blasted(old(w.players[p]), w.players[p])
  {
    var fighters := Roll(200);
    fighters := fighters + 300;
    var holds := Roll(6);
    holds := holds + 7;
    if fighters > w.players[p].Has(Fighters) {
      fighters := w.players[p].Has(Fighters);
    }
    if holds > w.players[p].Has(Holds) {
      holds := w.players[p].Has(Holds);
    }
    w.AdjustShip(p, Fighters, -fighters);
    w.AdjustShip(p, Holds, -holds);
    hide Adjusted;
    var sys := Roll(SYSTEMS);
    var d := Roll(15);
    w.players := w.players[p := w.players[p].(systems := Damaged(w.players[p].systems, sys, d + 5))];
  }

  datatype Fate = Deflection | Hit | Escape | Destruction

  /** What became of a ship that met one mine; a doomed ship is shown as it breaks up. */
  ghost predicate MineMet(before: Player, after: Player, fate: Fate, numsec: int) {
    if before.Has(MineDeflector) > 0 then fate.Deflection? && after == Deflected(before)
    else exists hit :: Blasted(before, hit) && Outcome(hit, after, fate, numsec)
  }

  /** A ship left without fighters is lost unless its Emergency Warp fires. */
  ghost predicate Outcome(hit: Player, after: Player, fate: Fate, numsec: int) {
    if hit.Has(Fighters) > 0 then fate.Hit? && after == hit
    else if hit.Has(EmWarp) > 0 then fate.Escape? && EmWarped(hit, after, numsec)
    else fate.Destruction? && after == hit
  }

  method MeetMine(w: World, p: PlayerId) returns (fate: Fate)
    requires !w.clamped && w.numsec >= 1 && p < |w.players|
    modifies w`players, w`clamped
    ensures !w.clamped
    ensures |w.players| == |old(w.players)| && w.players == old(w.players)[p := w.players[p]]
    ensures MineMet(old(w.players[p]), w.players[p], fate, w.numsec)
  {
    hide Loss;
    var absorbed := AbsorbMine(w, p);
    if absorbed {
      return Deflection;
    }
    MineBlast(w, p);
    ghost var hit := w.players[p];
    fate := Hit;
    if w.players[p].Has(Fighters) == 0 {
      var escaped := TryEmWarp(w, p);
      fate := if escaped then Escape else Destruction;
    }
    assert Outcome(hit, w.players[p], fate, w.numsec);
  }

  lemma MineMetKeeps(before: Player, after: Player, fate: Fate, numsec: int)
    requires MineMet(before, after, fate, numsec)
    ensures after == before.(inv := after.inv, systems := after.systems, sector := after.sector)
    ensures after.sector == before.sector || 1 <= after.sector <= numsec
  {
  }

  /** One mine goes off against a ship: deflected, survived, escaped from, or fatal. */
  method DetonateMine(w: World, p: PlayerId, now: Time) returns (fate: Fate, ghost met: Player)
    requires w.Sound() && Alive(w.players, p) && !w.players[p].IsNpc()
    modifies w`players, w`bgs, w`planets, w`clamped
    ensures w.Sound() && Aftermath(old(w.View()), w.View(), {p})
    ensures !fate.Destruction? ==> |w.players| == |old(w.players)| && w.bgs == old(w.bgs) && w.planets == old(w.planets)
    ensures MineMet(old(w.players[p]), met, fate, w.numsec)
    ensures p < |w.players| && w.players[p] == if fate.Destruction? then Killed(met, now) else met
  {
    hide SoundState, Aftermath, MineMet;
    ShipOk(w.View(), w.numsec, p);
    fate := MeetMine(w, p);
    met := w.players[p];
    ghost var mid := w.View();
    MineMetKeeps(old(w.players[p]), met, fate, w.numsec);
    Refitted(old(w.View()), w.numsec, p, met);
    if fate.Destruction? {
      KillPlayer(w, p, now);
      Then(old(w.View()), mid, w.View(), w.numsec, {p});
    }
  }
}
